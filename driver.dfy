/** The loop around the session, made sequential. Each turn the driver calls
    Update once with what a non-blocking receive on the channel yields; the
    messages of the goroutine in flight are queued in the order it sends them.
    A run stops at the first step that returns the quit command. */
module Driver {
  import opened Wrappers
  import opened Tui

  /** What the outside world decides in one turn of the loop. */
  datatype Input = Input(
    ready: bool,                       // the next message of the goroutine in flight has arrived
    code: Result<DeviceCode, string>,  // device.RequestCode, if this turn asks for a code
    poll: Result<Token, string>,       // device.PollToken, for a poll goroutine started this turn
    pollStore: Option<string>,         // the error of storeToken inside that goroutine
    store: Option<string>,             // the error of storeToken when Update stores a token
    created: Result<string, string>)   // Gists.Create: raw URL of the gist file, or its error

  /** The session with what the loop around it has seen so far. */
  datatype Program = Program(
    model: Model,
    pending: seq<Event>,     // sent by the goroutine in flight, not yet received
    clipboard: seq<string>,  // every text handed to the clipboard writer
    spawned: seq<Task>,      // every goroutine started, in order
    visited: seq<State>)     // the state after each step

  predicate TokenEvents(q: seq<Event>)
  {
    forall i | 0 <= i < |q| :: q[i].TokenOk? || q[i].TokenErr?
  }

  /** Each goroutine started at most once, the poll before the upload. */
  predicate AtMostOnceEach(spawned: seq<Task>)
  {
    spawned == [] || spawned == [PollTask] || spawned == [UploadTask] || spawned == [PollTask, UploadTask]
  }

  /** What holds between turns: a running session has rendered nothing; the
      initial state has nothing in flight; while access is requested only the
      poll goroutine's token messages are pending, and a token comes first only
      as the sole message; while uploading, only the upload's one message is.
      Each goroutine is started at most once, the poll before the upload. */
  predicate Coherent(p: Program)
  {
    var m := p.model;
    if m.quit then
      m.result.Some? && AtMostOnceEach(p.spawned)
    else
      m.result.None? &&
      match m.state
      case InitialState =>
        p.pending == [] && (if m.token.None? then p.spawned == [] else p.spawned == [] || p.spawned == [PollTask])
      case RequestAccess =>
        |m.diff| > 0 && m.token.None? && m.code.Some? && p.spawned == [PollTask]
        && p.pending != [] && TokenEvents(p.pending)
        && (p.pending[0].TokenOk? ==> |p.pending| == 1 && p.pending[0].token.Some?)
      case UploadingDiff =>
        |m.diff| > 0 && m.token.Some? && (p.spawned == [UploadTask] || p.spawned == [PollTask, UploadTask])
        && |p.pending| == 1 && (p.pending[0].UploadOk? || p.pending[0].UploadErr?)
  }

  /** Program start: the session newModel builds, nothing pending or started. */
  function Launch(diff: seq<byte>, token: Option<Token>): (p: Program)
    ensures Coherent(p) && p.model == Start(diff, token)
    ensures p.pending == [] && p.spawned == [] && p.visited == []
  {
    Program(Start(diff, token), [], [], [], [])
  }

  /** The initial state does not read the channel; the others read it only
      when a message has arrived. */
  function Received(p: Program, input: Input): Event
  {
    if p.model.state != InitialState && input.ready && p.pending != [] then p.pending[0] else NoMessage
  }

  /** The messages a goroutine started by a step will send. */
  function Sends(spawn: Task, input: Input): seq<Event>
  {
    match spawn
    case NoTask => []
    case PollTask => PollTaskSends(input.poll, input.pollStore)
    case UploadTask => [UploadTaskSend(input.created)]
  }

  /** One turn: receive, step, queue what a new goroutine sends, record. */
  function Turn(p: Program, input: Input): (r: Program)
    requires Coherent(p) && !p.model.quit
    ensures Coherent(r)
    ensures r.model.diff == p.model.diff
    ensures r.visited == p.visited + [r.model.state]
    // no goroutine starts while messages of another one are pending
    ensures |r.spawned| > |p.spawned| ==> p.pending == [] && p.model.state == InitialState
  {
    var ev := Received(p, input);
    var s := Step(p.model, ev, input.code, input.store);
    Program(
      s.0,
      (if ev.NoMessage? then p.pending else p.pending[1..]) + Sends(s.1.spawn, input),
      p.clipboard + (if s.1.clipboard.Some? then [s.1.clipboard.value] else []),
      if s.1.spawn == NoTask then p.spawned else p.spawned + [s.1.spawn],
      p.visited + [s.0.state])
  }

  /** Turns until the session quits or the inputs run out. Once the result is
      written it never changes, and whatever the inputs, each goroutine is
      started at most once. */
  function Run(p: Program, ins: seq<Input>): (r: Program)
    requires Coherent(p)
    ensures Coherent(r)
    ensures r.model.diff == p.model.diff
    ensures p.model.quit ==> r == p
    ensures p.model.result.Some? ==> r.model.result == p.model.result
    ensures r.model.quit || |r.visited| == |p.visited| + |ins|
    ensures |p.visited| <= |r.visited| <= |p.visited| + |ins| && r.visited[..|p.visited|] == p.visited
    ensures |p.clipboard| <= |r.clipboard| && r.clipboard[..|p.clipboard|] == p.clipboard
    decreases |ins|
  {
    if p.model.quit || ins == [] then p else Run(Turn(p, ins[0]), ins[1..])
  }

  // ---------------------------------------------------------------------
  // The route of states

  /** The states with repeats of the same state next to each other merged. */
  function Collapse(s: seq<State>): (c: seq<State>)
    ensures |c| <= |s| && (|s| > 0 ==> |c| > 0 && c[0] == s[0] && c[|c| - 1] == s[|s| - 1])
  {
    if |s| <= 1 then s
    else
      var c := Collapse(s[..|s| - 1]);
      if s[|s| - 1] == s[|s| - 2] then c else c + [s[|s| - 1]]
  }

  /** The states a session passes through: straight to the upload with a cached
      token, through the access request and back otherwise. */
  function Route(cached: bool): seq<State>
  {
    if cached then [InitialState, UploadingDiff]
    else [InitialState, RequestAccess, InitialState, UploadingDiff]
  }

  predicate IsPrefix(a: seq<State>, b: seq<State>)
  {
    |a| <= |b| && b[..|a|] == a
  }

  /** The states visited so far follow the route, the current one last; the
      token is there from the start on the cached route, and on the other route
      exactly from the return to the initial state. */
  predicate RouteHolds(visited: seq<State>, state: State, hasToken: bool, cached: bool)
  {
    var c := Collapse([InitialState] + visited);
    IsPrefix(c, Route(cached)) && c[|c| - 1] == state
    && (cached ==> hasToken)
    && (!cached ==> (!hasToken <==> |c| <= 2))
  }

  predicate OnRoute(p: Program, cached: bool)
  {
    RouteHolds(p.visited, p.model.state, p.model.token.Some?, cached)
  }

  /** The moves one turn can make, with whether a token is held before and
      after: stay where it is with the token as it was, go from the initial
      state to the access request without a token or to the upload with one,
      or come back from the access request holding a token. */
  predicate Move(from: State, had: bool, to: State, has: bool)
  {
    || (to == from && has == had)
    || (from == InitialState && to == RequestAccess && !had && !has)
    || (from == InitialState && to == UploadingDiff && had && has)
    || (from == RequestAccess && to == InitialState && has)
  }

  /** Every turn makes one of those moves. */
  lemma {:induction false} TurnMoves(p: Program, input: Input)
    requires Coherent(p) && !p.model.quit
    ensures var r := Turn(p, input);
      Move(p.model.state, p.model.token.Some?, r.model.state, r.model.token.Some?)
  {
    var ev := Received(p, input);
    if p.model.state == RequestAccess && ev.TokenOk? {
      assert ev == p.pending[0] && ev.token.Some?;
    }
  }

  lemma {:induction false} CollapseAppend(s: seq<State>, x: State)
    requires |s| > 0
    ensures Collapse(s + [x]) == if x == s[|s| - 1] then Collapse(s) else Collapse(s) + [x]
  {
    assert (s + [x])[..|s|] == s;
  }

  /** The merged states after one more visit, with the start prepended. */
  lemma {:induction false} CollapseVisit(visited: seq<State>, to: State)
    ensures var c := Collapse([InitialState] + visited);
      Collapse([InitialState] + (visited + [to])) == if to == c[|c| - 1] then c else c + [to]
  {
    var s := [InitialState] + visited;
    assert [InitialState] + (visited + [to]) == s + [to];
    CollapseAppend(s, to);
  }

  /** A route prefix is determined by its length. */
  lemma {:induction false} PrefixIsRouteStart(c: seq<State>, cached: bool)
    requires IsPrefix(c, Route(cached))
    ensures c == Route(cached)[..|c|]
  {
  }

  /** Each move keeps the visited states on the route. */
  lemma {:induction false} RouteMove(visited: seq<State>, from: State, had: bool, to: State, has: bool, cached: bool)
    requires RouteHolds(visited, from, had, cached) && Move(from, had, to, has)
    ensures RouteHolds(visited + [to], to, has, cached)
  {
    var c := Collapse([InitialState] + visited);
    CollapseVisit(visited, to);
    PrefixIsRouteStart(c, cached);
    if to == from {
    } else if to == RequestAccess {
      assert !cached && |c| == 1;
    } else if to == UploadingDiff {
      assert |c| == if cached then 1 else 3;
    } else {
      assert !cached && |c| == 2;
    }
  }

  lemma {:induction false} TurnStaysOnRoute(p: Program, input: Input, cached: bool)
    requires Coherent(p) && !p.model.quit && OnRoute(p, cached)
    ensures OnRoute(Turn(p, input), cached)
  {
    var r := Turn(p, input);
    TurnMoves(p, input);
    RouteMove(p.visited, p.model.state, p.model.token.Some?, r.model.state, r.model.token.Some?, cached);
  }

  lemma {:induction false} RunStaysOnRoute(p: Program, ins: seq<Input>, cached: bool)
    requires Coherent(p) && OnRoute(p, cached)
    ensures OnRoute(Run(p, ins), cached)
    decreases |ins|
  {
    if !p.model.quit && ins != [] {
      TurnStaysOnRoute(p, ins[0], cached);
      RunStaysOnRoute(Turn(p, ins[0]), ins[1..], cached);
    }
  }

  /** Whatever happens, a session's states follow Initial, RequestAcesss,
      Initial, UploadingDiff without a cached token, and Initial, UploadingDiff
      with one, possibly stopping early and staying in a state for many turns. */
  lemma {:induction false} StateSequence(diff: seq<byte>, token: Option<Token>, ins: seq<Input>)
    ensures var r := Run(Launch(diff, token), ins);
      IsPrefix(Collapse([InitialState] + r.visited), Route(token.Some?))
  {
    var p := Launch(diff, token);
    assert Collapse([InitialState] + p.visited) == [InitialState];
    RunStaysOnRoute(p, ins, token.Some?);
  }

  // ---------------------------------------------------------------------
  // Waiting and scenarios

  /** Turns in which no message arrives leave everything but the spinner and
      the record of visited states as it was. */
  lemma {:induction false} WaitingOnlyTicks(p: Program, ins: seq<Input>)
    requires Coherent(p) && !p.model.quit && p.model.state != InitialState
    requires forall i | 0 <= i < |ins| :: !ins[i].ready
    ensures var r := Run(p, ins);
      && r.model == p.model.(ticks := p.model.ticks + |ins|)
      && r.pending == p.pending && r.clipboard == p.clipboard && r.spawned == p.spawned
      && r.visited == p.visited + seq(|ins|, _ => p.model.state)
    decreases |ins|
  {
    if ins != [] {
      var q := Turn(p, ins[0]);
      assert q.model == p.model.(ticks := p.model.ticks + 1);
      WaitingOnlyTicks(q, ins[1..]);
      assert q.visited + seq(|ins| - 1, _ => p.model.state) == p.visited + seq(|ins|, _ => p.model.state);
    }
  }

  /** A run that has not quit is its first turn followed by the rest. */
  lemma {:induction false} RunUnfold(p: Program, ins: seq<Input>)
    requires Coherent(p) && !p.model.quit && ins != []
    ensures Run(p, ins) == Run(Turn(p, ins[0]), ins[1..])
  {
  }

  /** With an empty diff the first turn ends the run with the informational
      message, having started nothing and copied nothing. */
  lemma {:induction false} EmptyDiffRun(token: Option<Token>, ins: seq<Input>)
    requires |ins| > 0
    ensures var r := Run(Launch([], token), ins);
      && r.model.quit && r.model.result == Some(NoDiff)
      && r.spawned == [] && r.clipboard == [] && r.visited == [InitialState]
  {
    var p := Launch([], token);
    var q := Turn(p, ins[0]);
    RunUnfold(p, ins);
  }

  /** From the initial state with a token, an upload that succeeds ends the run
      two turns later with the raw URL as the outcome, the apply command for it
      as the one text added to the clipboard, and the upload as the one
      goroutine added. */
  lemma {:induction false} UploadSucceeds(p: Program, u: string, ins: seq<Input>)
    requires Coherent(p) && !p.model.quit && p.model.state == InitialState
    requires |p.model.diff| > 0 && p.model.token.Some?
    requires |ins| == 2 && ins[0].created == Success(u) && ins[1].ready
    ensures var r := Run(p, ins);
      && r.visited == p.visited + [UploadingDiff, UploadingDiff]
      && r.model.quit && r.model.token == p.model.token
      && r.model.result == Some(Uploaded(u))
      && r.clipboard == p.clipboard + [ApplyCommand(u)]
      && r.spawned == p.spawned + [UploadTask]
  {
    var p1 := Turn(p, ins[0]);
    assert p1.model.state == UploadingDiff && p1.pending == [UploadOk(u)];
    var p2 := Turn(p1, ins[1]);
    RunUnfold(p, ins);
    RunUnfold(p1, ins[1..]);
    assert ins[1..][1..] == [];
    UploadSuccessShowsCommand(p1.model, u, ins[1].code, ins[1].store);
  }

  /** Running on one sequence of inputs and then another is running on both
      in turn; a session that quits during the first ignores the second. */
  lemma {:induction false} RunConcat(p: Program, a: seq<Input>, b: seq<Input>)
    requires Coherent(p)
    ensures Run(p, a + b) == Run(Run(p, a), b)
    decreases |a|
  {
    if p.model.quit {
    } else if a == [] {
      assert a + b == b;
    } else {
      assert (a + b)[0] == a[0] && (a + b)[1..] == a[1..] + b;
      RunConcat(Turn(p, a[0]), a[1..], b);
    }
  }

  /** No cached token, a device code, a token from the poll and a stored token:
      two turns later the session is back in the initial state with the token,
      nothing pending or shown, and the poll as the one goroutine started. */
  lemma {:induction false} AccessGranted(diff: seq<byte>, c: DeviceCode, t: Token, ins: seq<Input>)
    requires |diff| > 0 && |ins| == 2
    requires ins[0].code == Success(c) && ins[0].poll == Success(t) && ins[0].pollStore.None?
    requires ins[1].ready && ins[1].store.None?
    ensures var r := Run(Launch(diff, None), ins);
      && r.visited == [RequestAccess, InitialState]
      && !r.model.quit && r.model.state == InitialState && r.model.token == Some(t)
      && r.model.diff == diff && r.model.result.None?
      && r.pending == [] && r.clipboard == [] && r.spawned == [PollTask]
  {
    var p0 := Launch(diff, None);
    var p1 := Turn(p0, ins[0]);
    assert p1.model.state == RequestAccess && p1.pending == [TokenOk(Some(t))];
    var p2 := Turn(p1, ins[1]);
    RunUnfold(p0, ins);
    RunUnfold(p1, ins[1..]);
    assert ins[1..][1..] == [];
  }

  /** No cached token, the user grants access, the token is stored and the
      upload succeeds: the states run Initial, RequestAcesss, Initial,
      UploadingDiff, the outcome is the uploaded raw URL and its apply command
      alone went to the clipboard. */
  lemma {:induction false} AuthorizeThenUpload(diff: seq<byte>, c: DeviceCode, t: Token, u: string, ins: seq<Input>)
    requires |diff| > 0 && |ins| == 4
    requires ins[0].code == Success(c) && ins[0].poll == Success(t) && ins[0].pollStore.None?
    requires ins[1].ready && ins[1].store.None?
    requires ins[2].created == Success(u)
    requires ins[3].ready
    ensures var r := Run(Launch(diff, None), ins);
      && r.visited == [RequestAccess, InitialState, UploadingDiff, UploadingDiff]
      && r.model.quit && r.model.token == Some(t)
      && r.model.result == Some(Uploaded(u))
      && r.clipboard == [ApplyCommand(u)]
      && r.spawned == [PollTask, UploadTask]
  {
    var p0 := Launch(diff, None);
    assert ins == ins[..2] + ins[2..];
    RunConcat(p0, ins[..2], ins[2..]);
    AccessGranted(diff, c, t, ins[..2]);
    UploadSucceeds(Run(p0, ins[..2]), u, ins[2..]);
  }

  /** A cached token and a failing upload: straight to UploadingDiff, then the
      gist error, with its original text, is the result and nothing is copied. */
  lemma {:induction false} CachedTokenUploadFails(diff: seq<byte>, t: Token, e: string, ins: seq<Input>)
    requires |diff| > 0 && |ins| == 2
    requires ins[0].created == Failure(e)
    requires ins[1].ready
    ensures var r := Run(Launch(diff, Some(t)), ins);
      && r.visited == [UploadingDiff, UploadingDiff]
      && r.model.quit && r.model.result == Some(UploadFailed(UploadError(e)))
      && IsInfix(e, Render(r.model.result.value).text)
      && r.clipboard == [] && r.spawned == [UploadTask]
  {
    var p0 := Launch(diff, Some(t));
    var p1 := Turn(p0, ins[0]);
    assert p1.pending == [UploadTaskSend(Failure(e))];
    var p2 := Turn(p1, ins[1]);
    RunUnfold(p0, ins);
    RunUnfold(p1, ins[1..]);
    assert ins[1..][1..] == [];
    UploadFailureShowsError(p1.model, e, ins[1].code, ins[1].store);
  }

  /** The user grants access but storing the token fails: the run ends with the
      store error while still requesting access, with no token in the session
      and no upload started. */
  lemma {:induction false} StoreFailureRun(diff: seq<byte>, c: DeviceCode, t: Token, e: string, ins: seq<Input>)
    requires |diff| > 0 && |ins| == 2
    requires ins[0].code == Success(c) && ins[0].poll == Success(t) && ins[0].pollStore.None?
    requires ins[1].ready && ins[1].store == Some(e)
    ensures var r := Run(Launch(diff, None), ins);
      && r.visited == [RequestAccess, RequestAccess]
      && r.model.quit && r.model.result == Some(StoreFailed(e))
      && r.model.token.None? && r.spawned == [PollTask]
  {
    var p0 := Launch(diff, None);
    var p1 := Turn(p0, ins[0]);
    assert p1.pending == [TokenOk(Some(t))];
    var p2 := Turn(p1, ins[1]);
    RunUnfold(p0, ins);
    RunUnfold(p1, ins[1..]);
    assert ins[1..][1..] == [];
  }

  /** The user does not grant access (the poll fails, its store succeeds): the
      poll's error is the first message, so the run ends in RequestAcesss with
      the wrapped token error, no token, and only the poll started. */
  lemma {:induction false} PollFailureRun(diff: seq<byte>, c: DeviceCode, e: string, ins: seq<Input>)
    requires |diff| > 0 && |ins| == 2
    requires ins[0].code == Success(c) && ins[0].poll == Failure(e) && ins[0].pollStore.None?
    requires ins[1].ready
    ensures var r := Run(Launch(diff, None), ins);
      && r.visited == [RequestAccess, RequestAccess]
      && r.model.quit && r.model.result == Some(TokenFailed(e))
      && IsInfix(e, Render(r.model.result.value).text)
      && r.model.token.None? && r.clipboard == [] && r.spawned == [PollTask]
  {
    var p0 := Launch(diff, None);
    var p1 := Turn(p0, ins[0]);
    assert p1.pending == [TokenErr(e), TokenOk(None)];
    var p2 := Turn(p1, ins[1]);
    RunUnfold(p0, ins);
    RunUnfold(p1, ins[1..]);
    assert ins[1..][1..] == [];
    RenderShowsError(TokenFailed(e));
  }
}
