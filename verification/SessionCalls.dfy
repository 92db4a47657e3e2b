/**
 What each call sees: its headers, its retry, and the outcome it shares with the calls it waits with.
 */
module SessionCalls {
  import opened Wrappers
  import opened SessionProtocol
  import opened SessionInvariants

  /** Times call `c` has been sent. */
  function SendsOf(wire: seq<Sent>, c: nat): nat {
    if wire == [] then 0 else (if wire[0].origin == FromRequest(c) then 1 else 0) + SendsOf(wire[1..], c)
  }

  lemma {:induction false} SendsOfAppend(wire: seq<Sent>, sent: Sent, c: nat)
    ensures SendsOf(wire + [sent], c) == SendsOf(wire, c) + (if sent.origin == FromRequest(c) then 1 else 0)
  {
    if wire == [] {
      assert wire + [sent] == [sent];
    } else {
      assert (wire + [sent])[1..] == wire[1..] + [sent];
      SendsOfAppend(wire[1..], sent, c);
    }
  }

  // ----- headers

  /** A step makes at most one `fetch`.  A request, first or retried, carries the access token in the store
      at that instant, and none if it is unauthenticated; a refresh carries no bearer and the stored
      refresh token; only a logout carries the token of the store it has just cleared. */
  lemma HeadersAreCurrent(s: State, step: Step)
    requires Enabled(s, step)
    ensures var s' := Apply(s, step);
            || s'.wire == s.wire
            || (exists sent :: s'.wire == s.wire + [sent] && SentFrom(s, s', sent))
  {
    var s' := Apply(s, step);
    if s'.wire != s.wire {
      var sent := s'.wire[|s.wire|];
      assert s'.wire == s.wire + [sent] && SentFrom(s, s', sent);
    }
  }

  ghost predicate SentFrom(s: State, s': State, sent: Sent) {
    match sent.origin
    case FromRequest(c) =>
      && s'.store == s.store && c < |s'.calls| && s'.calls[c].kind.Request?
      && (sent.bearer.Some? <==> s'.calls[c].kind.auth && s.store.Some? && s.store.value.accessToken != "")
      && (sent.bearer.Some? ==> sent.bearer.value == s.store.value.accessToken)
    case FromRefresh(id) =>
      && id == |s.refreshes| && s'.refreshPromise == Some(id) && sent.bearer == None
      && s.store.Some? && sent.refreshToken == Some(s.store.value.refreshToken)
    case FromLogout(l) =>
      && l == |s.logouts| && s'.store == None
      && (sent.bearer.Some? <==> s.store.Some? && s.store.value.accessToken != "")
      && (sent.bearer.Some? ==> sent.bearer.value == s.store.value.accessToken)
  }

  lemma {:induction false} WireGrows(s: State, steps: seq<Step>)
    requires Valid(s, steps)
    ensures s.wire <= Run(s, steps).wire
    decreases |steps|
  {
    if steps != [] {
      HeadersAreCurrent(s, steps[0]);
      WireGrows(Apply(s, steps[0]), steps[1..]);
    }
  }

  /** Every header of a run was current when it was sent: the `k`-th call was sent by the `n`-th step, and its
      header relates to the store of that instant as `SentFrom` says. */
  lemma {:induction false} EveryHeaderWasCurrent(s: State, steps: seq<Step>, k: nat) returns (n: nat)
    requires Valid(s, steps) && |s.wire| <= k < |Run(s, steps).wire|
    ensures n < |steps| && Valid(s, steps[..n]) && Enabled(Run(s, steps[..n]), steps[n])
    ensures |Run(s, steps[..n]).wire| == k
    ensures SentFrom(Run(s, steps[..n]), Apply(Run(s, steps[..n]), steps[n]), Run(s, steps).wire[k])
    decreases |steps|
  {
    assert steps != [];
    var s1 := Apply(s, steps[0]);
    HeadersAreCurrent(s, steps[0]);
    WireGrows(s1, steps[1..]);
    if k < |s1.wire| {
      n := 0;
      assert steps[..0] == [];
    } else {
      n := EveryHeaderWasCurrent(s1, steps[1..], k);
      assert steps[..n + 1][0] == steps[0] && steps[..n + 1][1..] == steps[1..][..n];
      n := n + 1;
    }
  }

  // ----- retries

  /** The sends of a call are one for a request, plus one if its refresh came out true. */
  function Owed(call: Call): nat {
    if call.kind.ExplicitRefresh? then 0 else if call.verdict == Some(Refreshed) then 2 else 1
  }

  ghost predicate SendsOk(s: State) {
    && (forall c: nat | c < |s.calls| :: SendsOf(s.wire, c) == Owed(s.calls[c]))
    && (forall c: nat | c >= |s.calls| :: SendsOf(s.wire, c) == 0)
  }

  /** What a step sends for a request, it sends for the call it runs, and the call owes it. */
  lemma AskRefreshSends(s: State, c: nat)
    requires c < |s.calls|
    ensures Owed(AskRefresh(s, c).calls[c]) == Owed(s.calls[c])
    ensures AskRefresh(s, c).wire == s.wire
            || AskRefresh(s, c).wire == s.wire + [Sent(FromRefresh(|s.refreshes|), None, Truthy(RefreshToken(s.store)))]
  {}

  function OwedBy(s: State, c: nat): nat { if c < |s.calls| then Owed(s.calls[c]) else 0 }

  /** At most one `fetch` was added, and call `c` owes one more send exactly if it is its own. */
  ghost predicate OneSend(s: State, s': State, c: nat) {
    if s'.wire == s.wire then OwedBy(s', c) == OwedBy(s, c)
    else
      && |s'.wire| == |s.wire| + 1 && s'.wire == s.wire + [s'.wire[|s.wire|]]
      && OwedBy(s', c) == OwedBy(s, c) + (if s'.wire[|s.wire|].origin == FromRequest(c) then 1 else 0)
  }

  lemma ResponseSends(s: State, step: Step, c: nat)
    requires Enabled(s, step) && step.ResponseArrived?
    ensures OneSend(s, Apply(s, step), c)
  {
    var d := step.call;
    if step.result.Status? {
      AskRefreshSends(SetCall(s, d, s.calls[d].(statuses := s.calls[d].statuses + [step.result.code])), d);
    }
  }

  lemma ResumeSends(s: State, step: Step, c: nat)
    requires Inv(s) && Enabled(s, step) && step.WaiterResumed?
    ensures OneSend(s, Apply(s, step), c)
  {
    assert CallOk(s, s.calls[step.call]);
  }

  lemma StartSends(s: State, step: Step, c: nat)
    requires Enabled(s, step) && (step.StartRequest? || step.StartRefreshSession?)
    ensures OneSend(s, Apply(s, step), c)
  {
    if step.StartRefreshSession? {
      AskRefreshSends(s.(calls := s.calls + [Call(ExplicitRefresh, AwaitRefusal, [], true, None, None)]), |s.calls|);
    }
  }

  /** The steps that run no call send nothing for one. */
  lemma OtherSends(s: State, step: Step, c: nat)
    requires Enabled(s, step) && !step.StartRequest? && !step.StartRefreshSession?
    requires !step.ResponseArrived? && !step.BodyArrived? && !step.WaiterResumed?
    ensures OneSend(s, Apply(s, step), c)
  {}

  lemma OneStepSends(s: State, step: Step, c: nat)
    requires Inv(s) && Enabled(s, step)
    ensures OneSend(s, Apply(s, step), c)
  {
    match step
    case ResponseArrived(_, _) => ResponseSends(s, step, c);
    case BodyArrived(d, _) => AskRefreshSends(s, d);
    case WaiterResumed(_) => ResumeSends(s, step, c);
    case StartRequest(_, _) => StartSends(s, step, c);
    case StartRefreshSession => StartSends(s, step, c);
    case _ => OtherSends(s, step, c);
  }

  lemma StepKeepsSendsOk(s: State, step: Step)
    requires Inv(s) && SendsOk(s) && Enabled(s, step)
    ensures SendsOk(Apply(s, step))
  {
    var s' := Apply(s, step);
    forall c: nat
      ensures SendsOf(s'.wire, c) == if c < |s'.calls| then Owed(s'.calls[c]) else 0
    {
      OneStepSends(s, step, c);
      if s'.wire != s.wire { SendsOfAppend(s.wire, s'.wire[|s.wire|], c); }
    }
  }

  lemma {:induction false} RunKeepsSendsOk(s: State, steps: seq<Step>)
    requires Inv(s) && SendsOk(s) && Valid(s, steps)
    ensures SendsOk(Run(s, steps))
    decreases |steps|
  {
    if steps != [] {
      StepKeepsInv(s, steps[0]);
      StepKeepsSendsOk(s, steps[0]);
      RunKeepsSendsOk(Apply(s, steps[0]), steps[1..]);
    }
  }

  /** Every request, of all three variants, is sent once or twice; the second time exactly when it was
      authenticated, its first answer was a 401, and the refresh it awaited came out true. */
  lemma {:induction false} SentAtMostTwice(s: State, c: nat)
    requires Reachable(s) && c < |s.calls| && s.calls[c].kind.Request?
    ensures 1 <= SendsOf(s.wire, c) <= 2
    ensures SendsOf(s.wire, c) == 2 ==>
              && s.calls[c].kind.auth
              && |s.calls[c].statuses| >= 1 && s.calls[c].statuses[0] == 401
              && s.calls[c].joined.Some?
              && s.calls[c].joined.value < |s.refreshes|
              && s.refreshes[s.calls[c].joined.value].phase == Done(Refreshed)
    ensures SendsOf(s.wire, c) == 2 <==> s.calls[c].verdict == Some(Refreshed)
  {
    var s0, steps :| Initial(s0) && Valid(s0, steps) && Run(s0, steps) == s;
    RunKeepsSendsOk(s0, steps);
    ReachableInv(s);
    assert CallOk(s, s.calls[c]);
  }

  /** All callers that joined one refresh get the same outcome, the one it settled with. */
  lemma {:induction false} JoinersAgree(s: State, a: nat, b: nat)
    requires Reachable(s) && a < |s.calls| && b < |s.calls|
    requires s.calls[a].joined.Some? && s.calls[a].joined == s.calls[b].joined
    requires s.calls[a].verdict.Some? && s.calls[b].verdict.Some?
    ensures s.calls[a].verdict == s.calls[b].verdict
    ensures RefreshIn(s, s.calls[a].joined.value, Done(s.calls[a].verdict.value))
  {
    ReachableInv(s);
    assert CallOk(s, s.calls[a]) && CallOk(s, s.calls[b]);
  }

  // ----- how calls end

  /** A request resolves only if its last answer was ok, so never on a 401; one whose refresh was refused or threw
      never resolves; an explicit refresh call rejects only if its refresh threw. */
  lemma {:induction false} ResolvedMeansOk(s: State, c: nat)
    requires Reachable(s) && c < |s.calls|
    ensures var call := s.calls[c];
      && (call.phase.Resolved? && call.kind.Request? ==>
            call.statuses != [] && 200 <= call.statuses[|call.statuses| - 1] < 300
            && (call.verdict.Some? ==> call.verdict.value == Refreshed))
      && (call.phase.Resolved? && call.kind.ExplicitRefresh? ==> call.verdict.Some? && call.verdict.value != Threw)
      && (call.phase.Rejected? && call.kind.ExplicitRefresh? ==> call.verdict == Some(Threw))
  {
    ReachableInv(s);
    assert CallOk(s, s.calls[c]);
  }

  // ----- refreshes are demanded

  ghost predicate RefreshesAsked(s: State) {
    |s.refreshes| <= Count(s.calls, Asked)
  }

  function One(b: bool): nat { if b then 1 else 0 }

  /** A step of a call changes that call alone; it starts a refresh only when the call first asks. */
  lemma OneCallAsks(s: State, step: Step)
    requires Inv(s) && Enabled(s, step) && (step.ResponseArrived? || step.BodyArrived? || step.WaiterResumed?)
    ensures var s' := Apply(s, step);
            var c := step.call;
            && |s'.calls| == |s.calls| && s'.calls == s.calls[c := s'.calls[c]]
            && |s'.refreshes| - |s.refreshes| <= One(s'.calls[c].asked) - One(s.calls[c].asked)
  {
    assert CallOk(s, s.calls[step.call]);
    match step
    case ResponseArrived(c, result) =>
    case BodyArrived(c, _) =>
    case WaiterResumed(c) =>
  }

  lemma StepKeepsRefreshesAsked(s: State, step: Step)
    requires Inv(s) && RefreshesAsked(s) && Enabled(s, step)
    ensures RefreshesAsked(Apply(s, step))
  {
    match step
    case StartRequest(v, auth) =>
      CountAppend(s.calls, Call(Request(v, auth), AwaitResponse(false), [], false, None, None), Asked);
    case StartRefreshSession =>
      var call := Call(ExplicitRefresh, AwaitRefusal, [], true, None, None);
      CountAppend(s.calls, call, Asked);
      CountUpdate(s.calls + [call], |s.calls|, Apply(s, step).calls[|s.calls|], Asked);
    case ResponseArrived(c, _) =>
      OneCallAsks(s, step);
      CountUpdate(s.calls, c, Apply(s, step).calls[c], Asked);
    case BodyArrived(c, _) =>
      OneCallAsks(s, step);
      CountUpdate(s.calls, c, Apply(s, step).calls[c], Asked);
    case WaiterResumed(c) =>
      OneCallAsks(s, step);
      CountUpdate(s.calls, c, Apply(s, step).calls[c], Asked);
    case _ =>
  }

  lemma {:induction false} RunKeepsRefreshesAsked(s: State, steps: seq<Step>)
    requires Inv(s) && RefreshesAsked(s) && Valid(s, steps)
    ensures RefreshesAsked(Run(s, steps))
    decreases |steps|
  {
    if steps != [] {
      StepKeepsInv(s, steps[0]);
      StepKeepsRefreshesAsked(s, steps[0]);
      RunKeepsRefreshesAsked(Apply(s, steps[0]), steps[1..]);
    }
  }

  /** The refreshes started are at most the authenticated calls answered 401 plus the explicit calls. */
  lemma {:induction false} RefreshesAreDemanded(s: State)
    requires Reachable(s)
    ensures |s.refreshes| <= Count(s.calls, Demands)
  {
    var s0, steps :| Initial(s0) && Valid(s0, steps) && Run(s0, steps) == s;
    RunKeepsRefreshesAsked(s0, steps);
    ReachableInv(s);
    forall c | 0 <= c < |s.calls| ensures Asked(s.calls[c]) ==> Demands(s.calls[c]) {
      assert CallOk(s, s.calls[c]);
    }
    CountMonotone(s.calls, Asked, Demands);
  }
}
