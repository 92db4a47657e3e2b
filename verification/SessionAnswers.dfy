/**
 What each answer does: who asks for a refresh and which one it gets, how refreshes settle, how calls end.
 */
module SessionAnswers {
  import opened Wrappers
  import opened SessionProtocol
  import opened SessionInvariants

  // ----- who asks for a refresh, and which one it gets

  /** The step hands call `c` the first 401 of an authenticated request, which a blob request sees with the response
      and the others with the body, or it is the call of an explicit refresh. */
  predicate AsksNow(s: State, step: Step, c: nat) {
    || (step == StartRefreshSession && c == |s.calls|)
    || (&& c < |s.calls| && s.calls[c].kind.Request? && s.calls[c].kind.auth
        && (|| (step == BodyArrived(c, true) && s.calls[c].phase == AwaitBody(false, 401))
            || (step == ResponseArrived(c, Status(401)) && s.calls[c].kind.variant == Blob
                && s.calls[c].phase == AwaitResponse(false))))
  }

  /** The store holds a refresh token that is not empty. */
  predicate MayRefresh(s: State) { s.store.Some? && s.store.value.refreshToken != "" }

  lemma CallAsksIff(s: State, step: Step, c: nat)
    requires Enabled(s, step) && c < |s.calls| && CallOk(s, s.calls[c]) && !s.calls[c].asked
    requires step.ResponseArrived? || step.BodyArrived? || step.WaiterResumed?
    requires step.call == c
    ensures c < |Apply(s, step).calls| && (Apply(s, step).calls[c].asked <==> AsksNow(s, step, c))
  {
    match step
    case ResponseArrived(_, _) =>
    case BodyArrived(_, _) =>
    case WaiterResumed(_) =>
  }

  /** Nothing else makes a call ask. */
  lemma {:induction false} AsksIff(s: State, step: Step, c: nat)
    requires Reachable(s) && Enabled(s, step) && c < |Apply(s, step).calls| && (c < |s.calls| ==> !s.calls[c].asked)
    ensures Apply(s, step).calls[c].asked <==> AsksNow(s, step, c)
  {
    ReachableInv(s);
    if c < |s.calls| {
      assert CallOk(s, s.calls[c]);
      if c == Actor(s, step) { CallAsksIff(s, step, c); } else { StepLeavesOtherCalls(s, step, c); }
    } else {
      CallsGrowByOne(s, step);
      assert step.StartRequest? || step.StartRefreshSession?;
    }
  }

  /** What asking does to the caller and to the rest of the client. */
  ghost predicate GetsRefresh(s: State, s': State, c: nat) {
    && c < |s'.calls| && s'.calls[c].asked && s'.store == s.store && s'.authEpoch == s.authEpoch
    && (s'.calls[c].phase == AwaitRefusal <==> !MayRefresh(s))
    && (!MayRefresh(s) ==> s'.calls[c].joined == None)
    && (MayRefresh(s) ==> s'.refreshPromise.Some? && s'.calls[c].joined == s'.refreshPromise
                          && s'.calls[c].phase == AwaitRefresh(s'.refreshPromise.value))
    && if MayRefresh(s) && s.refreshPromise == None then
         && s'.refreshPromise == Some(|s.refreshes|)
         && s'.refreshes == s.refreshes + [Refresh(s.store.value.refreshToken, s.authEpoch, AwaitFetch)]
         && s'.wire == s.wire + [Sent(FromRefresh(|s.refreshes|), None, Some(s.store.value.refreshToken))]
       else
         s'.refreshPromise == s.refreshPromise && s'.refreshes == s.refreshes && s'.wire == s.wire
  }

  /** A caller is refused exactly when the store holds no refresh token; otherwise it waits for the stored refresh and
      nothing is sent, or, when none is stored, for a new one. */
  lemma {:induction false} SharesTheRefresh(s: State, step: Step, c: nat)
    requires Reachable(s) && AsksNow(s, step, c)
    ensures Enabled(s, step) && GetsRefresh(s, Apply(s, step), c)
  {
    ReachableInv(s);
    if c < |s.calls| { assert CallOk(s, s.calls[c]); }
  }

  ghost predicate AllAsk(s: State, steps: seq<Step>)
    requires Valid(s, steps)
    decreases |steps|
  {
    steps == [] || ((exists c :: AsksNow(s, steps[0], c)) && AllAsk(Apply(s, steps[0]), steps[1..]))
  }

  /** The refresh a caller would wait for. */
  function Current(s: State): nat {
    if s.refreshPromise.Some? then s.refreshPromise.value else |s.refreshes|
  }

  function WaitsFor(p: nat): Call -> bool { (call: Call) => call.phase == AwaitRefresh(p) }

  lemma AskerWaits(s: State, step: Step, c: nat)
    requires Reachable(s) && AsksNow(s, step, c) && MayRefresh(s)
    ensures Enabled(s, step) && Current(Apply(s, step)) == Current(s) && MayRefresh(Apply(s, step))
    ensures Count(Apply(s, step).calls, WaitsFor(Current(s))) == Count(s.calls, WaitsFor(Current(s))) + 1
  {
    SharesTheRefresh(s, step, c);
    var s', p := Apply(s, step), WaitsFor(Current(s));
    if c < |s.calls| {
      assert s'.calls == s.calls[c := s'.calls[c]];
      CountUpdate(s.calls, c, s'.calls[c], p);
    } else {
      assert s'.calls == s.calls + [s'.calls[c]];
      CountAppend(s.calls, s'.calls[c], p);
    }
  }

  /** However many callers ask one after the other, all of them wait for the same refresh: the one already stored, or
      a single new one, whose `fetch` is the only one sent. */
  lemma {:induction false} OneRefreshForAll(s: State, steps: seq<Step>)
    requires Reachable(s) && MayRefresh(s) && Valid(s, steps) && AllAsk(s, steps) && steps != []
    ensures var s' := Run(s, steps);
      && s'.refreshPromise == Some(Current(s))
      && |s'.refreshes| - |s.refreshes| == |s'.wire| - |s.wire| == (if s.refreshPromise == None then 1 else 0)
      && Count(s'.calls, WaitsFor(Current(s))) == Count(s.calls, WaitsFor(Current(s))) + |steps|
    decreases |steps|
  {
    var c :| AsksNow(s, steps[0], c);
    var t := Apply(s, steps[0]);
    SharesTheRefresh(s, steps[0], c);
    AskerWaits(s, steps[0], c);
    ReachableByStep(s, steps[0]);
    if |steps| > 1 { OneRefreshForAll(t, steps[1..]); }
  }

  // ----- how refreshes settle

  /** An unsettled refresh succeeds exactly when its body arrives under the epoch it was begun in, fails exactly when
      it is refused or outdated, and throws exactly when its `fetch` or its body is rejected. */
  lemma {:induction false} RefreshSettlesIff(s: State, step: Step, id: nat)
    requires Enabled(s, step) && id < |s.refreshes| && IsUnsettled(s.refreshes[id])
    ensures id < |Apply(s, step).refreshes|
    ensures var s' := Apply(s, step);
            var current := s.refreshes[id].epoch == s.authEpoch;
      && (s'.refreshes[id].phase == Settled(Refreshed) <==> step.RefreshParsed? && step.id == id && current)
      && (s'.refreshes[id].phase == Settled(NotRefreshed) <==>
            step == RefreshResponse(id, false) || (step.RefreshParsed? && step.id == id && !current))
      && (s'.refreshes[id].phase == Settled(Threw) <==> step == RefreshRejected(id))
      && (step.RefreshParsed? && step.id == id ==> s'.store == if current then Some(step.session) else None)
      && (step == RefreshResponse(id, false) ==> s'.store == None)
      && (step == RefreshRejected(id) ==> s'.store == s.store)
  {}

  /** A settled refresh keeps its outcome, through its callback and for ever after. */
  lemma {:induction false} OutcomeStays(s: State, steps: seq<Step>, id: nat, outcome: Outcome)
    requires Valid(s, steps) && id < |s.refreshes| && s.refreshes[id].phase in {Settled(outcome), Done(outcome)}
    ensures id < |Run(s, steps).refreshes| && Run(s, steps).refreshes[id].phase in {Settled(outcome), Done(outcome)}
    decreases |steps|
  {
    if steps != [] {
      StepGrows(s, steps[0]);
      OutcomeStays(Apply(s, steps[0]), steps[1..], id, outcome);
    }
  }

  lemma LaterStep(s: State, steps: seq<Step>, n: nat)
    requires steps != [] && Valid(s, steps) && n < |steps[1..]| && Valid(Apply(s, steps[0]), steps[1..][..n])
    ensures Valid(s, steps[..n + 1]) && Run(s, steps[..n + 1]) == Run(Apply(s, steps[0]), steps[1..][..n])
  {
    assert steps[..n + 1][0] == steps[0] && steps[..n + 1][1..] == steps[1..][..n];
  }

  /** A refresh that comes out true put the session it parsed into the store, under the epoch it was begun in. */
  lemma {:induction false} RefreshedMeansStored(s: State, steps: seq<Step>, id: nat) returns (n: nat)
    requires Valid(s, steps) && id < |s.refreshes| && IsUnsettled(s.refreshes[id])
    requires id < |Run(s, steps).refreshes|
    requires Run(s, steps).refreshes[id].phase in {Settled(Refreshed), Done(Refreshed)}
    ensures n < |steps| && Valid(s, steps[..n]) && steps[n].RefreshParsed? && steps[n].id == id
    ensures var t := Run(s, steps[..n]);
      && Enabled(t, steps[n]) && Apply(t, steps[n]).store == Some(steps[n].session)
      && id < |t.refreshes| && t.refreshes[id].epoch == s.refreshes[id].epoch == t.authEpoch
    decreases |steps|
  {
    var t := Apply(s, steps[0]);
    StepGrows(s, steps[0]);
    RefreshSettlesIff(s, steps[0], id);
    if IsUnsettled(t.refreshes[id]) {
      n := RefreshedMeansStored(t, steps[1..], id);
      LaterStep(s, steps, n);
      n := n + 1;
    } else {
      OutcomeStays(t, steps[1..], id, t.refreshes[id].phase.outcome);
      n := 0;
      assert steps[..0] == [];
    }
  }

  // ----- how calls go on and end

  /** A waiting caller gets the outcome of its refresh, or false when it was refused: a request is sent again with the
      token now stored, fails, or, for a blob, goes on to the body of its 401. */
  lemma {:induction false} WaiterGoesOn(s: State, c: nat, outcome: Outcome)
    requires Reachable(s) && c < |s.calls|
    requires || (s.calls[c].phase.AwaitRefresh? && RefreshIn(s, s.calls[c].phase.id, Done(outcome)))
             || (s.calls[c].phase == AwaitRefusal && outcome == NotRefreshed)
    ensures Enabled(s, WaiterResumed(c))
    ensures var call, s' := s.calls[c], Apply(s, WaiterResumed(c));
            var call' := s'.calls[c];
      && call'.verdict == Some(outcome) && s'.store == s.store
      && (call.kind == ExplicitRefresh ==>
            s'.wire == s.wire && call'.phase == if outcome == Threw then Rejected else Resolved)
      && (call.kind.Request? && outcome == Refreshed ==>
            && call'.phase == AwaitResponse(true) && |s'.wire| == |s.wire| + 1
            && s'.wire[|s.wire|].origin == FromRequest(c))
      && (call.kind.Request? && outcome != Refreshed ==> s'.wire == s.wire)
      && (call.kind.Request? && outcome == Threw ==> call'.phase == Rejected)
      && (call.kind.Request? && outcome == NotRefreshed ==>
            call'.phase == if call.kind.variant == Blob then AwaitBody(true, 401) else Rejected)
  {
    ReachableInv(s);
    assert CallOk(s, s.calls[c]);
  }

  /** Call `c` ends well at this step: its body is complete and its status is ok. */
  predicate EndsWell(s: State, step: Step, c: nat)
    requires c < |s.calls|
  {
    step == BodyArrived(c, true) && s.calls[c].phase.AwaitBody? && 200 <= s.calls[c].phase.status <= 299
  }

  /** Call `c` fails at this step: the network rejects it, its body is broken, its status is not ok and it does not ask
      for a refresh, or its refresh threw or was denied. */
  predicate Fails(s: State, step: Step, c: nat)
    requires c < |s.calls|
  {
    || step == ResponseArrived(c, FetchRejected)
    || step == BodyArrived(c, false)
    || (&& step == BodyArrived(c, true) && s.calls[c].phase.AwaitBody?
        && !(200 <= s.calls[c].phase.status <= 299) && !AsksNow(s, step, c))
    || (step == WaiterResumed(c) && s.calls[c].kind.Request? && Waited(s, c, Threw))
    || (step == WaiterResumed(c) && s.calls[c].kind.Request? && s.calls[c].kind.variant != Blob
        && (Waited(s, c, NotRefreshed) || s.calls[c].phase == AwaitRefusal))
  }

  predicate Waited(s: State, c: nat, outcome: Outcome)
    requires c < |s.calls|
  {
    s.calls[c].phase.AwaitRefresh? && RefreshIn(s, s.calls[c].phase.id, Done(outcome))
  }

  predicate Ended(call: Call) { call.phase.Resolved? || call.phase.Rejected? }

  ghost predicate EndsRight(s: State, step: Step, c: nat)
    requires Enabled(s, step) && c < |s.calls|
  {
    && c < |Apply(s, step).calls|
    && (Apply(s, step).calls[c].phase == Resolved <==> EndsWell(s, step, c))
    && (Apply(s, step).calls[c].phase == Rejected <==> Fails(s, step, c))
  }

  lemma ResponseEnds(s: State, step: Step, c: nat)
    requires Enabled(s, step) && step.ResponseArrived? && step.call == c < |s.calls|
    requires CallOk(s, s.calls[c]) && s.calls[c].kind.Request? && !Ended(s.calls[c])
    ensures EndsRight(s, step, c)
  {}

  lemma BodyEnds(s: State, step: Step, c: nat)
    requires Enabled(s, step) && step.BodyArrived? && step.call == c < |s.calls|
    requires CallOk(s, s.calls[c]) && s.calls[c].kind.Request? && !Ended(s.calls[c])
    ensures EndsRight(s, step, c)
  {}

  lemma ResumeEnds(s: State, step: Step, c: nat)
    requires Enabled(s, step) && step.WaiterResumed? && step.call == c < |s.calls|
    requires CallOk(s, s.calls[c]) && s.calls[c].kind.Request? && !Ended(s.calls[c])
    ensures EndsRight(s, step, c)
  {}

  /** A request, of each variant, resolves exactly when an ok answer is complete, and rejects exactly in the cases of
      `Fails`. */
  lemma {:induction false} RequestEndsIff(s: State, step: Step, c: nat)
    requires Reachable(s) && Enabled(s, step) && c < |s.calls| && s.calls[c].kind.Request? && !Ended(s.calls[c])
    ensures c < |Apply(s, step).calls|
    ensures Apply(s, step).calls[c].phase == Resolved <==> EndsWell(s, step, c)
    ensures Apply(s, step).calls[c].phase == Rejected <==> Fails(s, step, c)
  {
    ReachableInv(s);
    assert CallOk(s, s.calls[c]);
    if c != Actor(s, step) { StepLeavesOtherCalls(s, step, c); }
    else if step.ResponseArrived? { ResponseEnds(s, step, c); }
    else if step.BodyArrived? { BodyEnds(s, step, c); }
    else if step.WaiterResumed? { ResumeEnds(s, step, c); }
  }

  /** What an answer that ends nothing and asks nothing does: the status is recorded, and the body is awaited. */
  lemma {:induction false} AnswerIsRead(s: State, c: nat, status: nat)
    requires Reachable(s) && Enabled(s, ResponseArrived(c, Status(status)))
    requires !AsksNow(s, ResponseArrived(c, Status(status)), c)
    ensures var call, s' := s.calls[c], Apply(s, ResponseArrived(c, Status(status)));
      && s'.calls[c].statuses == call.statuses + [status] && s'.wire == s.wire && s'.refreshes == s.refreshes
      && s'.calls[c].phase == AwaitBody(call.phase.last || call.kind.variant == Blob, status)
  {
    ReachableInv(s);
    assert CallOk(s, s.calls[c]);
  }

  /** The network may answer whatever is open, in any way and at any time, and the application may start anything. */
  lemma AnyAnswerCanCome(s: State, c: nat, id: nat)
    ensures c < |s.calls| && s.calls[c].kind.Request? && s.calls[c].phase.AwaitResponse? ==>
      forall result :: Enabled(s, ResponseArrived(c, result))
    ensures c < |s.calls| && s.calls[c].phase.AwaitBody? ==> forall parsed :: Enabled(s, BodyArrived(c, parsed))
    ensures id < |s.refreshes| && s.refreshes[id].phase.AwaitFetch? ==>
      Enabled(s, RefreshRejected(id)) && forall ok :: Enabled(s, RefreshResponse(id, ok))
    ensures id < |s.refreshes| && s.refreshes[id].phase.AwaitJson? ==>
      Enabled(s, RefreshRejected(id)) && forall session :: Enabled(s, RefreshParsed(id, session))
    ensures forall variant, auth :: Enabled(s, StartRequest(variant, auth))
    ensures forall token :: Enabled(s, StartLogout(token))
    ensures forall session :: Enabled(s, AppSetSession(session))
    ensures Enabled(s, StartRefreshSession) && Enabled(s, AppClear)
  {}
}
