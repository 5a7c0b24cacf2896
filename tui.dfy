/** The interactive session of diffshare: a state machine that asks GitHub for
    gist access through the OAuth device flow when no token is cached, uploads
    the working-tree diff as a public gist, and ends with the command that
    applies the diff elsewhere (tui.go). */
module Tui {
  import opened Wrappers

  newtype byte = x: int | 0 <= x < 0x100

  /** The access token the device flow hands out; only its value matters here. */
  type Token = string

  /** The three states of the session (InitialState, RequestAcesss, UploadingDiff). */
  datatype State = InitialState | RequestAccess | UploadingDiff

  /** The part of the device-code response that the session shows to the user. */
  datatype DeviceCode = DeviceCode(verificationUri: string, userCode: string)

  /** Text as the session renders it: in the session's style or in the error style. */
  datatype Styled = Info(text: string) | Error(text: string)

  /** What a step that quits leaves to be rendered: the empty-diff notice, one
      of the failures with its error text, or the raw URL of the uploaded diff.
      Render gives the text the session shows for it. */
  datatype Outcome =
    | NoDiff
    | CodeRequestFailed(err: string)
    | TokenFailed(err: string)
    | StoreFailed(err: string)
    | UploadFailed(msg: string)
    | Uploaded(rawUrl: string)

  /** What a non-blocking receive on the background channel yields. A token
      response without an error may still carry a nil token. */
  datatype Event =
    | NoMessage
    | TokenOk(token: Option<Token>)
    | TokenErr(msg: string)
    | UploadOk(rawUrl: string)
    | UploadErr(msg: string)

  /** The background goroutine a step starts, if any. */
  datatype Task = NoTask | PollTask | UploadTask

  /** The command a step hands back to the driver: quit, the spinner's next
      tick, or an immediate wake-up that makes the driver call Update again. */
  datatype Cmd = Quit | SpinnerCmd | Wake

  /** Everything a step returns besides the new state; `clipboard` is the text
      handed to the clipboard writer, if any. */
  datatype Output = Output(cmd: Cmd, spawn: Task, clipboard: Option<string>)

  /** The fields of the session; `ticks` counts the spinner's updates and
      `quit` records that the step returned the quit command. */
  datatype Model = Model(
    diff: seq<byte>,
    state: State,
    token: Option<Token>,
    code: Option<DeviceCode>,
    result: Option<Outcome>,
    quit: bool,
    ticks: nat)

  // ---------------------------------------------------------------------
  // Texts

  const NoDiffText := "No diff found to share"

  function CodeRequestError(e: string): string { "error while generating github access code " + e }

  function TokenError(e: string): string { "error while retriving token: " + e }

  function StoreError(e: string): string { "error while storing token: " + e }

  /** The upload goroutine wraps the gist error with this text before sending it. */
  function UploadError(e: string): string { "error while uploading diff to gist " + e }

  /** The poll goroutine wraps its own store failure with this text. */
  function PollStoreError(e: string): string { "error storing access token " + e }

  /** The command that fetches the uploaded diff and applies it. */
  function ApplyCommand(rawUrl: string): string { "wget -q -O - " + rawUrl + " | git apply -v" }

  function SuccessText(rawUrl: string): string
  {
    "\nDiff has been uploaded sucessfully. Now you can use the following command to appy diff\n"
    + ApplyCommand(rawUrl)
    + "\n\nCommands are copied to your clipboard so you can just paste it easily"
  }

  function AccessPrompt(frame: string, c: DeviceCode): string
  {
    "\n" + frame + "We request to grant us the gist access to store your git diff's\nplease open the given link: "
    + c.verificationUri + " and enter the code " + c.userCode
  }

  function UploadingText(frame: string): string { frame + "Uploading diff to gist" }

  /** `t` occurs in `s` as a contiguous piece. */
  ghost predicate IsInfix(t: string, s: string)
  {
    exists i, j | 0 <= i <= j <= |s| :: s[i..j] == t
  }

  lemma InfixOfConcat(a: string, t: string, b: string)
    ensures IsInfix(t, a + t + b)
  {
    var s := a + t + b;
    assert s[|a|..|a| + |t|] == t;
  }

  lemma InfixAtEnd(a: string, t: string)
    ensures IsInfix(t, a + t)
  {
    var s := a + t;
    assert s[|a|..|s|] == t;
  }

  /** The text the session shows for an outcome: the notice and the success
      text in the session's style, every failure in the error style. */
  function Render(o: Outcome): (s: Styled)
    ensures s.Info? <==> o.NoDiff? || o.Uploaded?
  {
    match o
    case NoDiff => Info(NoDiffText)
    case CodeRequestFailed(e) => Error(CodeRequestError(e))
    case TokenFailed(e) => Error(TokenError(e))
    case StoreFailed(e) => Error(StoreError(e))
    case UploadFailed(msg) => Error(msg)
    case Uploaded(u) => Info(SuccessText(u))
  }

  /** The success text shows the apply command the clipboard receives. */
  lemma RenderShowsCommand(u: string)
    ensures Render(Uploaded(u)).Info?
    ensures IsInfix(ApplyCommand(u), Render(Uploaded(u)).text)
  {
    InfixOfConcat(
      "\nDiff has been uploaded sucessfully. Now you can use the following command to appy diff\n",
      ApplyCommand(u),
      "\n\nCommands are copied to your clipboard so you can just paste it easily");
  }

  /** Every failure is shown in the error style with its error text in it;
      the upload goroutine's message is shown as it is. */
  lemma RenderShowsError(o: Outcome)
    requires !o.NoDiff? && !o.Uploaded?
    ensures Render(o).Error?
    ensures o.UploadFailed? ==> Render(o).text == o.msg
    ensures !o.UploadFailed? ==> IsInfix(o.err, Render(o).text)
  {
    match o
    case CodeRequestFailed(e) => InfixAtEnd("error while generating github access code ", e);
    case TokenFailed(e) => InfixAtEnd("error while retriving token: ", e);
    case StoreFailed(e) => InfixAtEnd("error while storing token: ", e);
    case UploadFailed(msg) =>
  }

  // ---------------------------------------------------------------------
  // The step function

  /** The session as newModel leaves it: nothing rendered, nothing requested. */
  function Start(diff: seq<byte>, token: Option<Token>): (m: Model)
    ensures m.state == InitialState && m.diff == diff && m.token == token
    ensures m.code.None? && m.result.None? && !m.quit
  {
    Model(diff, InitialState, token, None, None, false, 0)
  }

  /** The message type each state reads from the channel: the source's type
      assertions accept only token responses while access is requested and
      only upload responses while uploading; the initial state reads nothing. */
  predicate Receivable(s: State, ev: Event)
  {
    match ev
    case NoMessage => true
    case TokenOk(_) => s != UploadingDiff
    case TokenErr(_) => s != UploadingDiff
    case UploadOk(_) => s != RequestAccess
    case UploadErr(_) => s != RequestAccess
  }

  function Quitting(m: Model, o: Outcome): (Model, Output)
  {
    (m.(result := Some(o), quit := true), Output(Quit, NoTask, None))
  }

  /** requestAccess: `codeReq` is the outcome of asking GitHub for a device code.
      On failure the error is rendered and the step quits; on success the code
      is kept for the view, the poll goroutine starts and the spinner ticks. */
  function GistAccessStep(m: Model, codeReq: Result<DeviceCode, string>): (r: (Model, Output))
    requires !m.quit
    ensures r.0.state == m.state && r.0.token == m.token && r.0.diff == m.diff
    ensures r.1.spawn == PollTask <==> codeReq.Success?
    ensures r.0.quit <==> codeReq.Failure?
    ensures codeReq.Success? ==> r.0.code == Some(codeReq.value) && r.0.result == m.result
    ensures codeReq.Failure? ==> r.0.code == m.code && r.0.result == Some(CodeRequestFailed(codeReq.error))
  {
    match codeReq
    case Failure(e) => Quitting(m, CodeRequestFailed(e))
    case Success(c) => (m.(code := Some(c), ticks := m.ticks + 1), Output(SpinnerCmd, PollTask, None))
  }

  /** Update: one step of the session. `ev` is what the channel yields this
      turn, `codeReq` the outcome of a device-code request made by this step
      and `storeErr` the error, if any, of storing a received token. */
  function Step(m: Model, ev: Event, codeReq: Result<DeviceCode, string>, storeErr: Option<string>): (r: (Model, Output))
    requires !m.quit && Receivable(m.state, ev)
    ensures r.0.diff == m.diff
    ensures r.0.quit <==> r.1.cmd == Quit
    // every step that writes the result also quits, and every quitting step writes one
    ensures r.0.result != m.result ==> r.0.quit
    ensures r.0.quit ==> r.0.result.Some?
    // background work starts only from the initial state, and never with a quit
    ensures r.1.spawn != NoTask ==> m.state == InitialState && !r.0.quit
    ensures r.1.spawn == PollTask ==> r.0.state == RequestAccess && r.0.code.Some?
    ensures r.1.spawn == UploadTask ==> r.0.state == UploadingDiff && r.0.token.Some?
    // the token changes only when a received token is stored successfully
    ensures r.0.token != m.token ==> m.state == RequestAccess && ev.TokenOk? && storeErr.None? && r.0.token == ev.token
    // waiting: with no message only the spinner moves
    ensures m.state != InitialState && ev.NoMessage? ==>
              r.0 == m.(ticks := m.ticks + 1) && r.1 == Output(SpinnerCmd, NoTask, None)
    // the clipboard is written exactly when an upload succeeds, with the apply command
    ensures r.1.clipboard.Some? <==> m.state == UploadingDiff && ev.UploadOk?
    ensures r.1.clipboard.Some? ==>
              r.1.clipboard.value == ApplyCommand(ev.rawUrl) && r.0.result == Some(Uploaded(ev.rawUrl))
  {
    match m.state
    case InitialState =>
      if |m.diff| == 0 then Quitting(m, NoDiff)
      else if m.token.None? then GistAccessStep(m.(state := RequestAccess), codeReq)
      else (m.(state := UploadingDiff, ticks := m.ticks + 1), Output(SpinnerCmd, UploadTask, None))
    case RequestAccess =>
      if ev.NoMessage? then (m.(ticks := m.ticks + 1), Output(SpinnerCmd, NoTask, None))
      else if ev.TokenErr? then Quitting(m, TokenFailed(ev.msg))
      else if storeErr.Some? then Quitting(m, StoreFailed(storeErr.value))
      else (m.(token := ev.token, state := InitialState), Output(Wake, NoTask, None))
    case UploadingDiff =>
      if ev.NoMessage? then (m.(ticks := m.ticks + 1), Output(SpinnerCmd, NoTask, None))
      else if ev.UploadErr? then Quitting(m, UploadFailed(ev.msg))
      else
        (m.(result := Some(Uploaded(ev.rawUrl)), quit := true),
         Output(Quit, NoTask, Some(ApplyCommand(ev.rawUrl))))
  }

  /** What View draws: the access prompt for a device code, or the uploading line. */
  datatype Screen = AccessScreen(code: DeviceCode) | UploadingScreen

  /** View: the access prompt with the device code while access is requested,
      the uploading line otherwise. None stands for the nil dereference of a
      missing code. */
  function View(m: Model): (r: Option<Screen>)
    ensures r.None? <==> m.state == RequestAccess && m.code.None?
    ensures r.Some? ==> (r.value.AccessScreen? <==> m.state == RequestAccess)
    ensures r.Some? && r.value.AccessScreen? ==> m.code == Some(r.value.code)
  {
    if m.state == RequestAccess then
      match m.code
      case None => None
      case Some(c) => Some(AccessScreen(c))
    else Some(UploadingScreen)
  }

  /** The text of a screen, in the session's style; `frame` is what the spinner draws. */
  function Draw(s: Screen, frame: string): (r: Styled)
    ensures r.Info?
  {
    match s
    case AccessScreen(c) => Info(AccessPrompt(frame, c))
    case UploadingScreen => Info(UploadingText(frame))
  }

  // ---------------------------------------------------------------------
  // The background goroutines, as the messages they send

  /** The upload goroutine sends exactly one message: the raw URL of the gist
      file, or the gist error wrapped with context. */
  function UploadTaskSend(created: Result<string, string>): (r: Event)
    ensures r.UploadOk? || r.UploadErr?
  {
    match created
    case Success(u) => UploadOk(u)
    case Failure(e) => UploadErr(UploadError(e))
  }

  /** The messages the poll goroutine sends, in order, given the outcome of
      polling for the token and of its own storeToken call. It does not stop
      after an error send, so it goes on to store and to send the (possibly nil)
      token as well. */
  function PollTaskSends(poll: Result<Token, string>, stored: Option<string>): (r: seq<Event>)
    ensures 1 <= |r| <= 3
    ensures forall i | 0 <= i < |r| :: r[i].TokenOk? || r[i].TokenErr?
    ensures r[|r| - 1] == TokenOk(if poll.Success? then Some(poll.value) else None)
    ensures |r| == 1 <==> poll.Success? && stored.None?
    ensures |r| == 3 <==> poll.Failure? && stored.Some?
    ensures r[0].TokenOk? ==> |r| == 1 && r[0].token.Some?
    // the first message is the poll's own error, or else the wrapped store error
    ensures poll.Failure? ==> r[0] == TokenErr(poll.error)
    ensures poll.Success? && stored.Some? ==> r[0] == TokenErr(PollStoreError(stored.value))
  {
    (if poll.Failure? then [TokenErr(poll.error)] else [])
    + (if stored.Some? then [TokenErr(PollStoreError(stored.value))] else [])
    + [TokenOk(if poll.Success? then Some(poll.value) else None)]
  }

  /** The token the poll goroutine hands to storeToken: nil after a failed poll. */
  function PollTaskStored(poll: Result<Token, string>): (t: Option<Token>)
    ensures t.Some? <==> poll.Success?
    ensures poll.Success? ==> t == Some(poll.value)
  {
    if poll.Success? then Some(poll.value) else None
  }

  // ---------------------------------------------------------------------
  // The session object

  class Session {
    const diff: seq<byte>
    var state: State
    var token: Option<Token>
    var code: Option<DeviceCode>
    var result: Option<Outcome>
    var quit: bool
    var ticks: nat

    function Snapshot(): Model
      reads this
    {
      Model(diff, state, token, code, result, quit, ticks)
    }

    /** newModel, given the diff it captured and the token it loaded. */
    constructor (diff: seq<byte>, token: Option<Token>)
      ensures Snapshot() == Start(diff, token)
    {
      this.diff := diff;
      this.state := InitialState;
      this.token := token;
      this.code := None;
      this.result := None;
      this.quit := false;
      this.ticks := 0;
    }

    /** Update, on the fields in place. The driver stops calling it once it has quit. */
    method Update(ev: Event, codeReq: Result<DeviceCode, string>, storeErr: Option<string>) returns (out: Output)
      requires !quit && Receivable(state, ev)
      modifies this
      ensures (Snapshot(), out) == Step(old(Snapshot()), ev, codeReq, storeErr)
    {
      match state {
        case InitialState =>
          if |diff| == 0 {
            result := Some(NoDiff);
            quit := true;
            return Output(Quit, NoTask, None);
          }
          if token.None? {
            state := RequestAccess;
            out := RequestGistAccess(codeReq);
            return;
          }
          state := UploadingDiff;
          ticks := ticks + 1;
          out := Output(SpinnerCmd, UploadTask, None);
        case RequestAccess =>
          if ev.NoMessage? {
            ticks := ticks + 1;
            return Output(SpinnerCmd, NoTask, None);
          }
          if ev.TokenErr? {
            result := Some(TokenFailed(ev.msg));
            quit := true;
            return Output(Quit, NoTask, None);
          }
          if storeErr.Some? {
            result := Some(StoreFailed(storeErr.value));
            quit := true;
            return Output(Quit, NoTask, None);
          }
          token := ev.token;
          state := InitialState;
          out := Output(Wake, NoTask, None);
        case UploadingDiff =>
          if ev.NoMessage? {
            ticks := ticks + 1;
            return Output(SpinnerCmd, NoTask, None);
          }
          if ev.UploadErr? {
            result := Some(UploadFailed(ev.msg));
            quit := true;
            return Output(Quit, NoTask, None);
          }
          result := Some(Uploaded(ev.rawUrl));
          quit := true;
          out := Output(Quit, NoTask, Some(ApplyCommand(ev.rawUrl)));
      }
    }

    /** requestAccess, on the fields in place. */
    method RequestGistAccess(codeReq: Result<DeviceCode, string>) returns (out: Output)
      requires !quit
      modifies this
      ensures (Snapshot(), out) == GistAccessStep(old(Snapshot()), codeReq)
    {
      match codeReq {
        case Failure(e) =>
          result := Some(CodeRequestFailed(e));
          quit := true;
          out := Output(Quit, NoTask, None);
        case Success(c) =>
          code := Some(c);
          ticks := ticks + 1;
          out := Output(SpinnerCmd, PollTask, None);
      }
    }
  }

  // ---------------------------------------------------------------------
  // Properties of single steps

  /** With an empty diff the first step renders the informational message and
      quits, staying in the initial state and starting nothing. */
  lemma EmptyDiffQuits(m: Model, ev: Event, codeReq: Result<DeviceCode, string>, storeErr: Option<string>)
    requires !m.quit && m.state == InitialState && |m.diff| == 0
    ensures var r := Step(m, ev, codeReq, storeErr);
      r.0 == m.(result := Some(NoDiff), quit := true) && r.1 == Output(Quit, NoTask, None)
  {
  }

  /** Without a token the session moves to requesting access; a failed code
      request is rendered and quits without a poll, a granted one keeps the code
      and starts the poll. */
  lemma MissingTokenRequestsAccess(m: Model, ev: Event, codeReq: Result<DeviceCode, string>, storeErr: Option<string>)
    requires !m.quit && m.state == InitialState && |m.diff| > 0 && m.token.None?
    ensures var r := Step(m, ev, codeReq, storeErr);
      && r.0.state == RequestAccess
      && (codeReq.Failure? ==>
            r.0.result == Some(CodeRequestFailed(codeReq.error)) && r.0.quit && r.1.spawn == NoTask
            && r.0.code == m.code)
      && (codeReq.Success? ==>
            r.0.code == Some(codeReq.value) && !r.0.quit && r.1.spawn == PollTask && r.0.result == m.result)
  {
  }

  /** With a token the session starts exactly one upload and keeps running. */
  lemma CachedTokenUploads(m: Model, ev: Event, codeReq: Result<DeviceCode, string>, storeErr: Option<string>)
    requires !m.quit && m.state == InitialState && |m.diff| > 0 && m.token.Some?
    ensures var r := Step(m, ev, codeReq, storeErr);
      r.0.state == UploadingDiff && r.1.spawn == UploadTask && !r.0.quit
      && r.0.token == m.token && r.0.result == m.result
  {
  }

  /** A token error from the poll is rendered with context and quits. */
  lemma TokenErrorQuits(m: Model, e: string, codeReq: Result<DeviceCode, string>, storeErr: Option<string>)
    requires !m.quit && m.state == RequestAccess
    ensures var r := Step(m, TokenErr(e), codeReq, storeErr);
      r.0.result == Some(TokenFailed(e)) && r.0.quit && r.0.token == m.token
  {
  }

  /** A failed store quits with the error and leaves the token as it was,
      because the assignment comes after the store. */
  lemma StoreFailureKeepsToken(m: Model, t: Option<Token>, codeReq: Result<DeviceCode, string>, e: string)
    requires !m.quit && m.state == RequestAccess
    ensures var r := Step(m, TokenOk(t), codeReq, Some(e));
      r.0.result == Some(StoreFailed(e)) && r.0.quit && r.0.token == m.token
  {
  }

  /** A received token that is stored goes into the session, which restarts
      from the initial state and asks to be updated again at once. */
  lemma StoredTokenRestarts(m: Model, t: Token, codeReq: Result<DeviceCode, string>)
    requires !m.quit && m.state == RequestAccess
    ensures var r := Step(m, TokenOk(Some(t)), codeReq, None);
      r.0.token == Some(t) && r.0.state == InitialState && !r.0.quit && r.1.cmd == Wake
      && r.0.result == m.result
  {
  }

  /** A successful upload ends the session with the raw URL as its outcome,
      hands the apply command for that URL to the clipboard, and quits. */
  lemma UploadSuccessShowsCommand(m: Model, u: string, codeReq: Result<DeviceCode, string>, storeErr: Option<string>)
    requires !m.quit && m.state == UploadingDiff
    ensures var r := Step(m, UploadOk(u), codeReq, storeErr);
      && r.0.quit && r.1.clipboard == Some(ApplyCommand(u))
      && r.0.result == Some(Uploaded(u)) && r.0.token == m.token
  {
  }

  /** A failed gist upload reaches the result as the goroutine's wrapped error,
      which still holds the original error text; nothing is copied. */
  lemma UploadFailureShowsError(m: Model, e: string, codeReq: Result<DeviceCode, string>, storeErr: Option<string>)
    requires !m.quit && m.state == UploadingDiff
    ensures var r := Step(m, UploadTaskSend(Failure(e)), codeReq, storeErr);
      && r.0.quit && r.1.clipboard.None?
      && r.0.result == Some(UploadFailed(UploadError(e)))
      && IsInfix(e, Render(r.0.result.value).text)
  {
    var ev := UploadTaskSend(Failure(e));
    assert ev == UploadErr(UploadError(e));
    var r := Step(m, ev, codeReq, storeErr);
    assert r.0.result == Some(UploadFailed(UploadError(e)));
    RenderShowsError(r.0.result.value);
    InfixAtEnd("error while uploading diff to gist ", e);
  }

  /** Of all the messages a poll goroutine sends, the first one decides: it is
      a token only when it is the only message, and any other first message
      makes the session quit, so later sends never reach Update. */
  lemma {:induction false} FirstPollMessageDecides(
    m: Model, poll: Result<Token, string>, stored: Option<string>,
    codeReq: Result<DeviceCode, string>, storeErr: Option<string>)
    requires !m.quit && m.state == RequestAccess
    ensures var sends := PollTaskSends(poll, stored);
      var r := Step(m, sends[0], codeReq, storeErr);
      r.0.quit || (|sends| == 1 && r.0.state == InitialState && r.0.token == PollTaskStored(poll))
  {
    var sends := PollTaskSends(poll, stored);
    if poll.Success? && stored.None? {
      assert sends == [TokenOk(Some(poll.value))];
    } else {
      assert sends[0].TokenErr?;
    }
  }

  /** A failed poll followed by a failed store makes the goroutine send three
      messages and hand a nil token to storeToken. */
  lemma PollFailureSendsThree(e: string, f: string)
    ensures PollTaskSends(Failure(e), Some(f)) == [TokenErr(e), TokenErr(PollStoreError(f)), TokenOk(None)]
    ensures PollTaskStored(Failure(e)) == None
  {
  }

  /** While access is requested the view holds the verification link and the
      user code the device-code request returned. */
  lemma ViewShowsCode(m: Model, frame: string, c: DeviceCode)
    requires m.state == RequestAccess && m.code == Some(c)
    ensures View(m).Some?
    ensures IsInfix(c.verificationUri, Draw(View(m).value, frame).text)
    ensures IsInfix(c.userCode, Draw(View(m).value, frame).text)
  {
    var head := "\n" + frame + "We request to grant us the gist access to store your git diff's\nplease open the given link: ";
    assert View(m).value == AccessScreen(c);
    var text := Draw(AccessScreen(c), frame).text;
    assert text == head + c.verificationUri + (" and enter the code " + c.userCode);
    InfixOfConcat(head, c.verificationUri, " and enter the code " + c.userCode);
    InfixAtEnd(head + c.verificationUri + " and enter the code ", c.userCode);
  }

  /** Outside the access request, including the initial state, the view is the
      uploading line. */
  lemma ViewOtherwiseUploading(m: Model, frame: string)
    requires m.state != RequestAccess
    ensures View(m) == Some(UploadingScreen)
    ensures Draw(View(m).value, frame) == Info(frame + "Uploading diff to gist")
  {
  }

  /** Waiting does not change what is shown except for the spinner's frame. */
  lemma WaitingKeepsView(m: Model, codeReq: Result<DeviceCode, string>, storeErr: Option<string>)
    requires !m.quit && m.state != InitialState
    ensures View(Step(m, NoMessage, codeReq, storeErr).0) == View(m)
  {
  }

  /** A failed code request already left the state at RequestAcesss with no
      code, which is exactly where the view dereferences the missing code. */
  lemma CodeRequestFailureBreaksView(m: Model, ev: Event, e: string, storeErr: Option<string>)
    requires !m.quit && m.state == InitialState && |m.diff| > 0 && m.token.None? && m.code.None?
    ensures var r := Step(m, ev, Failure(e), storeErr);
      r.0.quit && r.0.state == RequestAccess && View(r.0).None?
  {
  }
}
