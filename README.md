# diffshare session state machine in Dafny

diffshare shares the working-tree diff of a git repository. It uploads the
diff as a public GitHub gist and ends by printing the command that applies
it on another machine: `wget -q -O - <raw URL> | git apply -v`. The
interactive part is a small state machine (`tui.go`) driven by the bubbletea
loop. Its three states are `InitialState`, `RequestAcesss` and
`UploadingDiff`:

- In the initial state, an empty diff ends the session with "No diff found
  to share".
- Without a cached access token, the session asks GitHub for a device code
  (OAuth device flow). It shows the verification link and user code, and
  starts a goroutine that polls for the token and stores it.
- With a token, it starts a goroutine that creates the gist.
- While requesting access or uploading, each update either reads the
  goroutine's message from the channel or only advances the spinner.
- A stored token sends the session back to the initial state.
- A finished upload writes the success text and copies the apply command
  to the clipboard.
- Every failure writes its error text and quits.

The project has three files:

- `wrappers.dfy`: `Option` and `Result`.
- `tui.dfy` (module `Tui`):
  - the session's fields as a `Model` value;
  - `Step`, the update as a pure function;
  - `GistAccessStep` (requestAccess);
  - the messages each goroutine sends;
  - `View`, `Draw` and `Render` with the exact texts;
  - the class `Session`, whose `Update` and `RequestGistAccess` change the
    fields in place and are proved to match `Step` and `GistAccessStep`;
  - lemmas for each branch.
- `driver.dfy` (module `Driver`): the bubbletea loop made sequential.
  - Each turn calls the step once with what a non-blocking receive yields.
  - The messages of the goroutine in flight wait in a queue, in the order it
    sends them.
  - A run stops at the first step that quits.
  - The invariant `Coherent` holds between turns. Among other things, it
    says each goroutine is started at most once.
  - `Turn` guarantees that no goroutine starts while another one's messages
    are pending.
  - The lemmas prove the state sequence and whole scenarios.

Outside effects are inputs:

- the device-code request, the token poll, both `storeToken` calls and the
  gist creation are `Result`/`Option` values;
- the spinner is a tick counter plus the frame text passed to `Draw`;
- the clipboard is the text handed to it.

A step that quits keeps an `Outcome` (the empty-diff notice, a failure with
its error text, or the uploaded raw URL). `Render` gives the exact styled
text the source stores in `result` for it. `Info` is the session's style
and `Error` is the style of `renderErrMsg`. In the same way, `View` chooses
the screen and `Draw` gives its text.

The poll goroutine is modelled as written. It does not return after sending
an error, so it can send up to three messages and hand a nil token to
`storeToken`. `FirstPollMessageDecides` shows why this never shows in the
session: its first message either makes the session quit or is its only
message.

## Model

| member | source | states |
|---|---|---|
| Tui.Start | tui.go:38-60 | a new session is in the initial state with the captured diff and loaded token, no device code, no result, and running |
| Tui.Render | tui.go:221-227 | the no-diff notice and the success text use the session's style; every failure uses the error style |
| Tui.RenderShowsCommand | tui.go:137-142 | the success text contains `wget -q -O - <raw URL> \| git apply -v`, the command that goes to the clipboard |
| Tui.RenderShowsError | tui.go:103-112 | each failure is shown in the error style; the code-request, token and store errors contain their original error text, and the upload message is shown unchanged |
| Tui.GistAccessStep | tui.go:177-200 | a failed code request writes the wrapped error and quits without a poll; a granted one keeps the code, starts the poll and keeps running; state, token and diff are unchanged |
| Tui.Step | tui.go:66-151 | the diff never changes; a step quits exactly when it returns the quit command; a step writes the result only when it quits, and every quitting step writes one; goroutines start only from the initial state and never while quitting, the poll with a code in RequestAcesss, the upload with a token in UploadingDiff; the token changes only when a received token is stored; with no message only the spinner moves; the clipboard is written exactly on upload success, with the apply command for the same raw URL as the outcome |
| Tui.View | tui.go:202-209 | the access screen with the session's device code while access is requested; the uploading screen otherwise; none (the nil dereference) exactly when access is requested without a code |
| Tui.Draw | tui.go:202-209 | the view is drawn in the session's style |
| Tui.UploadTaskSend | tui.go:86-95 | the upload goroutine sends an upload response, either success or error |
| Tui.PollTaskSends | tui.go:186-196 | the poll goroutine sends 1 to 3 token responses; the last always carries the polled token (nil after a failed poll); one message exactly when poll and store succeed, three exactly when both fail; a token comes first only as the sole message; the first message is the poll's own error after a failed poll, and the wrapped store error after a successful poll whose store failed |
| Tui.PollTaskStored | tui.go:187-191 | the goroutine stores the polled token exactly when the poll succeeded, and nil otherwise |
| Tui.Session.constructor | tui.go:38-60 | the fields are those of `Start` |
| Tui.Session.Update | tui.go:66-151 | updating the fields in place gives the state and output `Step` gives |
| Tui.Session.RequestGistAccess | tui.go:177-200 | updating the fields in place gives the state and output `GistAccessStep` gives |
| Tui.EmptyDiffQuits | tui.go:70-73 | an empty diff writes the no-diff notice and quits; the state stays initial and nothing starts |
| Tui.MissingTokenRequestsAccess | tui.go:76-79 | without a token the state becomes RequestAcesss; a code-request failure writes the wrapped error and quits with nothing started; otherwise the code is kept and the poll starts |
| Tui.CachedTokenUploads | tui.go:83-96 | with a token the state becomes UploadingDiff and exactly the upload starts; the session keeps running, with token and result unchanged |
| Tui.TokenErrorQuits | tui.go:103-106 | a token error writes the wrapped error and quits; the token is unchanged |
| Tui.StoreFailureKeepsToken | tui.go:109-112 | a store failure writes the wrapped error and quits with the token still absent |
| Tui.StoredTokenRestarts | tui.go:115-119 | a stored token goes into the session, which returns to the initial state, asks for an immediate update and keeps running |
| Tui.UploadSuccessShowsCommand | tui.go:137-143 | on upload success the outcome is the raw URL, the clipboard receives its apply command, and the session quits |
| Tui.UploadFailureShowsError | tui.go:133-136 | an upload error quits with the goroutine's wrapped message as the result; the text shown contains the original gist error; nothing is copied |
| Tui.FirstPollMessageDecides | tui.go:186-196 | the poll goroutine's first message either makes the session quit, or it is the only message and carries the stored token back to the initial state |
| Tui.PollFailureSendsThree | tui.go:187-195 | a failed poll followed by a failed store sends the poll error, the store error and a nil token, and stores nil |
| Tui.ViewShowsCode | tui.go:203-206 | while access is requested, the view text contains the verification link and the user code |
| Tui.ViewOtherwiseUploading | tui.go:208 | in any other state the view is the spinner frame followed by "Uploading diff to gist" |
| Tui.WaitingKeepsView | tui.go:120-125 | a turn with no message leaves the view unchanged |
| Tui.CodeRequestFailureBreaksView | tui.go:177-182 | a failed code request leaves the session in RequestAcesss without a code, the case where View dereferences nil |
| Driver.Launch | tui.go:38-60 | the program starts from the new session, with nothing pending, started or visited, and satisfies the invariant |
| Driver.Turn | tui.go:66-151 | one turn keeps the invariant and the diff, records the new state, and starts a goroutine only from the initial state with nothing pending |
| Driver.Run | tui.go:66-151 | a run keeps the invariant and the diff; once quit nothing changes, a written result stays, and the visited states and clipboard only grow |
| Driver.TurnMoves | tui.go:76-116 | every turn stays put with the token unchanged, or moves initial to RequestAcesss without a token, initial to UploadingDiff with one, or RequestAcesss back to initial holding a token |
| Driver.RouteMove | tui.go:76-116 | each such move keeps the merged visited states on the route |
| Driver.TurnStaysOnRoute | tui.go:66-151 | a turn keeps the session on its route |
| Driver.RunStaysOnRoute | tui.go:66-151 | a run keeps the session on its route |
| Driver.StateSequence | tui.go:66-151 | with repeats merged, every run visits a prefix of Initial, RequestAcesss, Initial, UploadingDiff without a cached token, and of Initial, UploadingDiff with one |
| Driver.WaitingOnlyTicks | tui.go:120-147 | turns without a message change only the spinner and the record of visited states |
| Driver.EmptyDiffRun | tui.go:70-73 | with an empty diff the first turn ends the run with the notice; nothing starts and nothing is copied |
| Driver.UploadSucceeds | tui.go:83-143 | from the initial state with a token, a successful upload ends the run two turns later; the outcome is the raw URL, and its apply command is the only clipboard text added |
| Driver.RunConcat | tui.go:66-151 | running on two input sequences one after the other equals running on their concatenation |
| Driver.AccessGranted | tui.go:76-119 | a granted code, a polled token and a successful store bring the session back to the initial state with the token, having started only the poll |
| Driver.AuthorizeThenUpload | tui.go:66-151 | without a cached token a full successful run visits RequestAcesss, Initial, UploadingDiff, ends with the uploaded raw URL, and copies only its apply command |
| Driver.CachedTokenUploadFails | tui.go:83-136 | with a cached token a failed upload ends the run with the wrapped error, which contains the gist error; nothing is copied |
| Driver.StoreFailureRun | tui.go:109-112 | a failed store ends the run in RequestAcesss with the store error and no token; only the poll was started |
| Driver.PollFailureRun | tui.go:186-191 | a failed poll whose store succeeds ends the run in RequestAcesss with the wrapped token error, which contains the poll error; there is no token, nothing is copied, and only the poll was started |

## Left out

- utils.go is not part of this model: `git diff`, reading and writing the token file, and the config directory are I/O. Their outcomes are inputs: the diff, the loaded token and the `storeToken` errors.
- cmd.go is not part of this model: it creates the config directory, starts the program and prints the result. It exits with status 0 even when the result is an error (only a failure of the bubbletea loop itself exits with 1), so a failed run cannot be told from a successful one by its exit status.
- The device-code request, the token poll and the gist creation (`uploadDiff`) are HTTP calls. The model takes their outcomes as inputs. The gist's file map, description and visibility are not modelled.
- Goroutines and the unbuffered channel are modelled only through the order of the messages they send. The model does not capture blocking on a send that is never received, which the poll goroutine's extra messages do after the session quits, or the race between those sends and process exit.
- Lipgloss colours and the spinner's animation are left out. A style is a tag, and the spinner is a tick counter plus the frame text `Draw` receives.
- The clipboard write's own failure is ignored by the source and left out. The model records the text handed to it.
- newModel's `log.Fatalf` on a failed diff or token load is left out: the constructor takes the diff and the token.
- A message of the wrong type for the current state would make the source's type assertion panic. `Receivable` makes that a precondition of `Step`, which the driver's invariant meets.
- Tui.View: the nil dereference of a missing device code is returned as `None` instead of a panic.
- Tui.Render: the result is kept as an `Outcome` with `Render` giving its text, instead of the rendered string itself.
- The second `storeToken` of a polled token (once in the goroutine, once in Update) and `storeToken(nil)`, which writes a JSON `null`, are inputs: the model records only that they happen and their errors.
