/**
 The session-refresh protocol of the API client as a state machine.

 One JavaScript thread interleaves any number of requests, refreshes and logouts.  Between two
 `await` points a piece of code runs without interruption, so each such piece is one atomic step.
 What the network and the application do is part of the step: any status, any rejection, any order.
 */
module SessionProtocol {
  import opened Wrappers

  /** A stored session.  An empty string is falsy, so the client treats it as no token. */
  datatype Session = Session(accessToken: string, refreshToken: string)

  /** How the promise of one refresh settles: `true`, `false`, or a rejection. */
  datatype Outcome = Refreshed | NotRefreshed | Threw

  /** Where one call of `fetchRefreshSession` stands.  `Settled` still owes its `.finally` callback. */
  datatype RefreshPhase = AwaitFetch | AwaitJson | Settled(outcome: Outcome) | Done(outcome: Outcome)

  datatype Refresh = Refresh(refreshToken: string, epoch: nat, phase: RefreshPhase)

  /** `request`, `requestForm` and `requestBlob`; only the last looks at the status before the body. */
  datatype Variant = Json | Form | Blob

  datatype CallKind = Request(variant: Variant, auth: bool) | ExplicitRefresh

  /** `last` says that this attempt will not ask for a refresh again. */
  datatype CallPhase =
    | AwaitResponse(last: bool)
    | AwaitBody(last: bool, status: nat)
    | AwaitRefresh(id: nat)
    | AwaitRefusal
    | Resolved
    | Rejected

  /** The last four fields are a record of the past.  `statuses`: what the server answered, in order;
      `asked`: the call entered `refreshStoredSession`; `joined`: the refresh it awaited there;
      `verdict`: what that await produced. */
  datatype Call = Call(
    kind: CallKind, phase: CallPhase,
    statuses: seq<nat>, asked: bool, joined: Option<nat>, verdict: Option<Outcome>)

  datatype Origin = FromRequest(call: nat) | FromRefresh(refresh: nat) | FromLogout(logout: nat)

  /** One `fetch`: who sent it, its Authorization token and the refresh token in its body. */
  datatype Sent = Sent(origin: Origin, bearer: Option<string>, refreshToken: Option<string>)

  datatype State = State(
    authEpoch: nat,
    refreshPromise: Option<nat>,
    store: Option<Session>,
    refreshes: seq<Refresh>,
    calls: seq<Call>,
    logouts: seq<bool>,  // true while the logout awaits its response
    wire: seq<Sent>)

  datatype FetchResult = FetchRejected | Status(code: nat)

  datatype Step =
    | StartRequest(variant: Variant, auth: bool)
    | ResponseArrived(call: nat, result: FetchResult)
    | BodyArrived(call: nat, parsed: bool)
    | StartRefreshSession
    | WaiterResumed(call: nat)
    | RefreshRejected(id: nat)
    | RefreshResponse(id: nat, ok: bool)
    | RefreshParsed(id: nat, session: Session)
    | RefreshFinally(id: nat)
    | StartLogout(inputToken: Option<string>)
    | LogoutFinally(logout: nat)
    | AppSetSession(session: Session)
    | AppClear

  // ----- reading the store

  /** Truthiness of an optional token. */
  function Truthy(t: Option<string>): Option<string> {
    if t.Some? && t.value != "" then t else None
  }

  function AccessToken(store: Option<Session>): Option<string> {
    if store.Some? then Some(store.value.accessToken) else None
  }

  function RefreshToken(store: Option<Session>): Option<string> {
    if store.Some? then Some(store.value.refreshToken) else None
  }

  /** The Authorization token of `buildHeaders`. */
  function Bearer(store: Option<Session>, auth: bool): Option<string> {
    if auth then Truthy(AccessToken(store)) else None
  }

  // ----- the pieces of code between awaits

  predicate IsOk(status: nat) { 200 <= status < 300 }

  function SetCall(s: State, c: nat, call: Call): State
    requires c < |s.calls|
  {
    s.(calls := s.calls[c := call])
  }

  function SetPhase(s: State, c: nat, phase: CallPhase): State
    requires c < |s.calls|
  {
    SetCall(s, c, s.calls[c].(phase := phase))
  }

  function SetRefresh(s: State, id: nat, phase: RefreshPhase): State
    requires id < |s.refreshes|
  {
    s.(refreshes := s.refreshes[id := s.refreshes[id].(phase := phase)])
  }

  /** One send of a request: the headers are built from the store as it is now. */
  function Send(s: State, c: nat): State
    requires c < |s.calls|
  {
    var auth := s.calls[c].kind.Request? && s.calls[c].kind.auth;
    s.(wire := s.wire + [Sent(FromRequest(c), Bearer(s.store, auth), None)])
  }

  /** The synchronous part of `refreshStoredSession`, entered by call `c`. */
  function AskRefresh(s: State, c: nat): State
    requires c < |s.calls|
  {
    var token := Truthy(RefreshToken(s.store));
    if token.None? then
      SetCall(s, c, s.calls[c].(phase := AwaitRefusal, asked := true))
    else if s.refreshPromise.Some? then
      SetCall(s, c,
        s.calls[c].(phase := AwaitRefresh(s.refreshPromise.value), asked := true, joined := s.refreshPromise))
    else
      var id := |s.refreshes|;
      SetCall(s, c, s.calls[c].(phase := AwaitRefresh(id), asked := true, joined := Some(id)))
      .(refreshes := s.refreshes + [Refresh(token.value, s.authEpoch, AwaitFetch)],
        refreshPromise := Some(id),
        wire := s.wire + [Sent(FromRefresh(id), None, token)])
  }

  /** The tail of a request once its response is complete. */
  function Finish(s: State, c: nat, status: nat): State
    requires c < |s.calls|
  {
    SetPhase(s, c, if IsOk(status) then Resolved else Rejected)
  }

  predicate Retries(call: Call, last: bool, status: nat) {
    !last && status == 401 && call.kind.Request? && call.kind.auth
  }

  function OnResponse(s: State, c: nat, result: FetchResult): State
    requires c < |s.calls| && s.calls[c].kind.Request? && s.calls[c].phase.AwaitResponse?
  {
    var call := s.calls[c];
    if result.FetchRejected? then SetPhase(s, c, Rejected)
    else
      var answered := SetCall(s, c, call.(statuses := call.statuses + [result.code]));
      if call.kind.variant != Blob then SetPhase(answered, c, AwaitBody(call.phase.last, result.code))
      else if Retries(call, call.phase.last, result.code) then AskRefresh(answered, c)
      else SetPhase(answered, c, AwaitBody(true, result.code))
  }

  function OnBody(s: State, c: nat, parsed: bool): State
    requires c < |s.calls| && s.calls[c].phase.AwaitBody?
  {
    var call := s.calls[c];
    if !parsed then SetPhase(s, c, Rejected)
    else if Retries(call, call.phase.last, call.phase.status) then AskRefresh(s, c)
    else Finish(s, c, call.phase.status)
  }

  /** What the `await` inside `refreshStoredSession` or its caller yields, when it can yield. */
  function Verdict(s: State, call: Call): Option<Outcome>
  {
    match call.phase
    case AwaitRefusal => Some(NotRefreshed)
    case AwaitRefresh(id) =>
      if id < |s.refreshes| && s.refreshes[id].phase.Done? then Some(s.refreshes[id].phase.outcome) else None
    case _ => None
  }

  function Resume(s: State, c: nat): State
    requires c < |s.calls| && Verdict(s, s.calls[c]).Some?
  {
    var call := s.calls[c].(verdict := Verdict(s, s.calls[c]));
    match call.kind
    case ExplicitRefresh =>
      SetCall(s, c, call.(phase := if call.verdict.value == Threw then Rejected else Resolved))
    case Request(variant, _) =>
      match call.verdict.value
      case Threw => SetCall(s, c, call.(phase := Rejected))
      case Refreshed => Send(SetCall(s, c, call.(phase := AwaitResponse(true))), c)
      case NotRefreshed => SetCall(s, c, call.(phase := if variant == Blob then AwaitBody(true, 401) else Rejected))
  }

  /** The part of `fetchRefreshSession` after `await response.json()`. */
  function OnRefreshParsed(s: State, id: nat, session: Session): State
    requires id < |s.refreshes|
  {
    if s.refreshes[id].epoch != s.authEpoch then SetRefresh(s, id, Settled(NotRefreshed)).(store := None)
    else SetRefresh(s, id, Settled(Refreshed)).(store := Some(session))
  }

  /** The synchronous part of `logout`, up to and including its `fetch`. */
  function OnLogout(s: State, inputToken: Option<string>): State {
    var bearer := Truthy(AccessToken(s.store));
    var refreshToken := if inputToken.Some? then inputToken else RefreshToken(s.store);
    s.(authEpoch := s.authEpoch + 1, refreshPromise := None, store := None,
       logouts := s.logouts + [true],
       wire := s.wire + [Sent(FromLogout(|s.logouts|), bearer, refreshToken)])
  }

  predicate RefreshIn(s: State, id: nat, phase: RefreshPhase) {
    id < |s.refreshes| && s.refreshes[id].phase == phase
  }

  predicate Enabled(s: State, step: Step) {
    match step
    case ResponseArrived(c, _) => c < |s.calls| && s.calls[c].kind.Request? && s.calls[c].phase.AwaitResponse?
    case BodyArrived(c, _) => c < |s.calls| && s.calls[c].phase.AwaitBody?
    case WaiterResumed(c) => c < |s.calls| && Verdict(s, s.calls[c]).Some?
    case RefreshRejected(id) => RefreshIn(s, id, AwaitFetch) || RefreshIn(s, id, AwaitJson)
    case RefreshResponse(id, _) => RefreshIn(s, id, AwaitFetch)
    case RefreshParsed(id, _) => RefreshIn(s, id, AwaitJson)
    case RefreshFinally(id) => id < |s.refreshes| && s.refreshes[id].phase.Settled?
    case LogoutFinally(l) => l < |s.logouts| && s.logouts[l]
    case _ => true
  }

  function Apply(s: State, step: Step): State
    requires Enabled(s, step)
  {
    match step
    case StartRequest(variant, auth) =>
      var c := |s.calls|;
      Send(s.(calls := s.calls + [Call(Request(variant, auth), AwaitResponse(false), [], false, None, None)]), c)
    case ResponseArrived(c, result) => OnResponse(s, c, result)
    case BodyArrived(c, parsed) => OnBody(s, c, parsed)
    case StartRefreshSession =>
      AskRefresh(s.(calls := s.calls + [Call(ExplicitRefresh, AwaitRefusal, [], true, None, None)]), |s.calls|)
    case WaiterResumed(c) => Resume(s, c)
    case RefreshRejected(id) => SetRefresh(s, id, Settled(Threw))
    case RefreshResponse(id, ok) =>
      if ok then SetRefresh(s, id, AwaitJson) else SetRefresh(s, id, Settled(NotRefreshed)).(store := None)
    case RefreshParsed(id, session) => OnRefreshParsed(s, id, session)
    case RefreshFinally(id) => SetRefresh(s, id, Done(s.refreshes[id].phase.outcome)).(refreshPromise := None)
    case StartLogout(inputToken) => OnLogout(s, inputToken)
    case LogoutFinally(l) => s.(logouts := s.logouts[l := false], store := None)
    case AppSetSession(session) => s.(store := Some(session))
    case AppClear => s.(store := None)
  }

  // ----- runs

  predicate Valid(s: State, steps: seq<Step>)
    decreases |steps|
  {
    steps == [] || (Enabled(s, steps[0]) && Valid(Apply(s, steps[0]), steps[1..]))
  }

  function Run(s: State, steps: seq<Step>): State
    requires Valid(s, steps)
    decreases |steps|
  {
    if steps == [] then s else Run(Apply(s, steps[0]), steps[1..])
  }

  /** A client with no pending work; the store may already hold a session from an earlier page. */
  predicate Initial(s: State) {
    && s.authEpoch == 0 && s.refreshPromise == None
    && s.refreshes == [] && s.calls == [] && s.logouts == [] && s.wire == []
  }

  ghost predicate Reachable(s: State) {
    exists s0, steps :: Initial(s0) && Valid(s0, steps) && Run(s0, steps) == s
  }

  lemma {:induction false} RunConcat(s: State, a: seq<Step>, b: seq<Step>)
    requires Valid(s, a) && Valid(Run(s, a), b)
    ensures Valid(s, a + b) && Run(s, a + b) == Run(Run(s, a), b)
    decreases |a|
  {
    if a == [] {
      assert a + b == b;
    } else {
      assert (a + b)[1..] == a[1..] + b;
      RunConcat(Apply(s, a[0]), a[1..], b);
    }
  }

  lemma {:induction false} ReachableByRun(s: State, steps: seq<Step>)
    requires Reachable(s) && Valid(s, steps)
    ensures Reachable(Run(s, steps))
  {
    var s0, before :| Initial(s0) && Valid(s0, before) && Run(s0, before) == s;
    RunConcat(s0, before, steps);
  }

  lemma {:induction false} ReachableByStep(s: State, step: Step)
    requires Reachable(s) && Enabled(s, step)
    ensures Reachable(Apply(s, step))
  {
    assert Valid(s, [step]) && Run(s, [step]) == Apply(s, step) by {
      assert [step][1..] == [];
      assert Valid(Apply(s, step), []);
    }
    ReachableByRun(s, [step]);
  }
}
