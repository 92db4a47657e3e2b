/**
 How many refreshes can be in flight at once, and why every call ends.
 */
module SessionFlights {
  import opened Wrappers
  import opened SessionProtocol
  import opened SessionInvariants
  import opened SessionLogout

  // ----- the account of live refreshes

  /** Logouts of a run that found `refreshPromise` set, and so orphaned the refresh it held. */
  function Orphaning(s: State, steps: seq<Step>): nat
    requires Valid(s, steps)
    decreases |steps|
  {
    if steps == [] then 0
    else
      (if steps[0].StartLogout? && s.refreshPromise.Some? then 1 else 0)
      + Orphaning(Apply(s, steps[0]), steps[1..])
  }

  /** `.finally` callbacks of a run that found `refreshPromise` already unset. */
  function IdleFinallys(s: State, steps: seq<Step>): nat
    requires Valid(s, steps)
    decreases |steps|
  {
    if steps == [] then 0
    else
      (if steps[0].RefreshFinally? && s.refreshPromise.None? then 1 else 0)
      + IdleFinallys(Apply(s, steps[0]), steps[1..])
  }

  /** Starts of a refresh happen only in `AskRefresh`, which touches no other refresh. */
  lemma AskRefreshLive(s: State, c: nat)
    requires c < |s.calls|
    ensures Live(AskRefresh(s, c)) - PromiseSet(AskRefresh(s, c)) == Live(s) - PromiseSet(s)
  {
    var token := Truthy(RefreshToken(s.store));
    if token.Some? && s.refreshPromise.None? {
      CountAppend(s.refreshes, Refresh(token.value, s.authEpoch, AwaitFetch), IsLive);
    }
  }

  lemma RefreshesChangeLive(s: State, step: Step)
    requires Enabled(s, step)
    requires step.RefreshRejected? || step.RefreshResponse? || step.RefreshParsed? || step.RefreshFinally?
    ensures Live(Apply(s, step)) == Live(s) - (if step.RefreshFinally? then 1 else 0)
  {
    var phase := Apply(s, step).refreshes[step.id].phase;
    CountUpdate(s.refreshes, step.id, s.refreshes[step.id].(phase := phase), IsLive);
  }

  lemma CallsChangeLive(s: State, step: Step)
    requires Enabled(s, step)
    requires step.ResponseArrived? || step.BodyArrived? || step.StartRefreshSession? || step.WaiterResumed?
    ensures Live(Apply(s, step)) - PromiseSet(Apply(s, step)) == Live(s) - PromiseSet(s)
  {
    match step
    case ResponseArrived(c, result) =>
      if result.Status? {
        AskRefreshLive(SetCall(s, c, s.calls[c].(statuses := s.calls[c].statuses + [result.code])), c);
      }
    case BodyArrived(c, _) => AskRefreshLive(s, c);
    case StartRefreshSession =>
      AskRefreshLive(s.(calls := s.calls + [Call(ExplicitRefresh, AwaitRefusal, [], true, None, None)]), |s.calls|);
    case WaiterResumed(_) =>
  }

  /** Exact account over every run: live refreshes minus the one `refreshPromise` holds change only by
      the logouts that orphaned a refresh and the `.finally` callbacks of refreshes already let go. */
  lemma {:induction false} LiveAccount(s: State, steps: seq<Step>)
    requires Valid(s, steps)
    ensures Live(Run(s, steps)) - PromiseSet(Run(s, steps))
         == Live(s) - PromiseSet(s) + Orphaning(s, steps) - IdleFinallys(s, steps)
    decreases |steps|
  {
    if steps != [] {
      var step := steps[0];
      if step.RefreshRejected? || step.RefreshResponse? || step.RefreshParsed? || step.RefreshFinally? {
        RefreshesChangeLive(s, step);
      } else if step.ResponseArrived? || step.BodyArrived? || step.StartRefreshSession? || step.WaiterResumed? {
        CallsChangeLive(s, step);
      }
      LiveAccount(Apply(s, step), steps[1..]);
    }
  }

  lemma {:induction false} OrphaningAtMostLogouts(s: State, steps: seq<Step>)
    requires Valid(s, steps)
    ensures Orphaning(s, steps) <= Logouts(steps)
    decreases |steps|
  {
    if steps != [] { OrphaningAtMostLogouts(Apply(s, steps[0]), steps[1..]); }
  }

  /** The refresh bound.  In every run from an idle client the live refreshes, not counting the one
      `refreshPromise` holds, never exceed the logouts. */
  lemma {:induction false} LiveRefreshBound(s: State, steps: seq<Step>)
    requires Initial(s) && Valid(s, steps)
    ensures Live(Run(s, steps)) - PromiseSet(Run(s, steps)) <= Logouts(steps)
    ensures Live(Run(s, steps)) <= 1 + Logouts(steps)
  {
    LiveAccount(s, steps);
    OrphaningAtMostLogouts(s, steps);
  }

  /** `refreshPromise` is set exactly when a refresh is live, and there is at most one. */
  predicate SingleFlight(s: State) { Live(s) == PromiseSet(s) }

  ghost predicate SingleFlightThroughout(s: State, steps: seq<Step>)
    requires Valid(s, steps)
    decreases |steps|
  {
    SingleFlight(s) && (steps == [] || SingleFlightThroughout(Apply(s, steps[0]), steps[1..]))
  }

  lemma PromiseIsLive(s: State)
    requires PromiseOk(s)
    ensures PromiseSet(s) <= Live(s)
  {
    if s.refreshPromise.Some? { CountPositive(s.refreshes, s.refreshPromise.value, IsLive); }
  }

  /** Single-flight is not kept across a logout.  The exact condition: a run keeps it throughout if and
      only if none of its logouts found `refreshPromise` set. */
  lemma {:induction false} SingleFlightIff(s: State, steps: seq<Step>)
    requires Inv(s) && SingleFlight(s) && Valid(s, steps)
    ensures SingleFlightThroughout(s, steps) <==> Orphaning(s, steps) == 0
    decreases |steps|
  {
    if steps != [] {
      var step := steps[0];
      var s' := Apply(s, step);
      StepKeepsInv(s, step);
      RunOne(s, step);
      LiveAccount(s, [step]);
      assert [step][0] == step && [step][1..] == [];
      assert Orphaning(s, [step]) == if step.StartLogout? && s.refreshPromise.Some? then 1 else 0;
      PromiseIsLive(s');
      if SingleFlight(s') { SingleFlightIff(s', steps[1..]); }
    }
  }

  /** The run of a client that logs out during a refresh and signs in again: it ends with two live
      refreshes of the current epoch, one of them in no one's `refreshPromise`. */
  lemma {:induction false} TwoRefreshesOfOneEpoch() returns (s: State)
    ensures Reachable(s)
    ensures |s.refreshes| == 3 && s.refreshPromise == Some(2)
    ensures forall id | 1 <= id < 3 :: IsLive(s.refreshes[id]) && s.refreshes[id].epoch == s.authEpoch
  {
    var s0 := OrphanedAndRestarted();
    var s1 := RefreshDies(s0, 0);
    s := StartsRefresh(s1, "r");
  }

  lemma StartsSignedIn(session: Session) returns (s: State)
    ensures Reachable(s) && s == State(0, None, Some(session), [], [], [], [])
  {
    s := State(0, None, Some(session), [], [], [], []);
    assert Initial(s) && Valid(s, []) && Run(s, []) == s;
  }

  lemma OrphanedAndRestarted() returns (s: State)
    ensures Reachable(s) && s.authEpoch == 1 && RefreshToken(s.store) == Some("r")
    ensures s.refreshes == [Refresh("r", 0, AwaitFetch), Refresh("r", 1, AwaitFetch)]
  {
    var session := Session("a", "r");
    var s0 := StartsSignedIn(session);
    var s1 := StartsRefresh(s0, "r");
    var s2 := SignsInAgain(s1, session);
    s := StartsRefresh(s2, "r");
  }

  lemma SignsInAgain(s: State, session: Session) returns (s': State)
    requires Reachable(s)
    ensures Reachable(s') && s'.refreshes == s.refreshes
    ensures s'.authEpoch == s.authEpoch + 1 && s'.refreshPromise == None && s'.store == Some(session)
  {
    var out := Apply(s, StartLogout(None));
    ReachableByStep(s, StartLogout(None));
    s' := Apply(out, AppSetSession(session));
    ReachableByStep(out, AppSetSession(session));
  }

  lemma RefreshDies(s: State, id: nat) returns (s': State)
    requires Reachable(s) && RefreshIn(s, id, AwaitFetch)
    ensures Reachable(s') && s'.store == s.store && s'.authEpoch == s.authEpoch && s'.refreshPromise == None
    ensures s'.refreshes == s.refreshes[id := s.refreshes[id].(phase := Done(Threw))]
  {
    var thrown := Apply(s, RefreshRejected(id));
    ReachableByStep(s, RefreshRejected(id));
    s' := Apply(thrown, RefreshFinally(id));
    ReachableByStep(thrown, RefreshFinally(id));
  }

  lemma StartsRefresh(s: State, token: string) returns (s': State)
    requires Reachable(s) && s.refreshPromise == None && RefreshToken(s.store) == Some(token) && token != ""
    ensures Reachable(s') && s'.authEpoch == s.authEpoch && s'.store == s.store
    ensures s'.refreshes == s.refreshes + [Refresh(token, s.authEpoch, AwaitFetch)]
    ensures s'.refreshPromise == Some(|s.refreshes|)
  {
    s' := Apply(s, StartRefreshSession);
    ReachableByStep(s, StartRefreshSession);
  }

  // ----- the two clears that do not hold

  /** A screen clears the store while a refresh is under way: the store is empty, and the refresh fills it again. */
  lemma {:induction false} ClearedStoreIsRefilled() returns (s: State, steps: seq<Step>)
    ensures Reachable(s) && s.store == None && MayInstall(s)
    ensures Valid(s, steps) && NoLogin(steps) && Run(s, steps).store.Some?
  {
    var s0 := StartsSignedIn(Session("a", "r"));
    var s1 := StartsRefresh(s0, "r");
    ReachableByStep(s1, AppClear);
    s := Apply(s1, AppClear);
    assert IsUnsettled(s.refreshes[0]) && s.refreshes[0].epoch == s.authEpoch;
    EmptyStoreStaysEmptyIff(s);
    steps :| Valid(s, steps) && NoLogin(steps) && Run(s, steps).store != None;
  }

  /** A user signs in again before the response to the logout arrives: the end of the logout wipes the new session. */
  lemma {:induction false} LateLogoutWipesLogin(session: Session) returns (s: State)
    ensures Reachable(s) && s.store == Some(session)
    ensures Enabled(s, LogoutFinally(0)) && Apply(s, LogoutFinally(0)).store == None
  {
    var s0 := StartsSignedIn(Session("a", "r"));
    ReachableByStep(s0, StartLogout(None));
    ReachableByStep(Apply(s0, StartLogout(None)), AppSetSession(session));
    s := Apply(Apply(s0, StartLogout(None)), AppSetSession(session));
  }

  // ----- every call ends

  predicate Spawns(step: Step) {
    step.StartRequest? || step.StartRefreshSession? || step.StartLogout? || step.AppSetSession? || step.AppClear?
  }

  function Spawned(steps: seq<Step>): nat {
    if steps == [] then 0 else (if Spawns(steps[0]) then 1 else 0) + Spawned(steps[1..])
  }

  /** Steps a call may still take, counting those of a refresh it may start. */
  function CallWork(call: Call): nat {
    match call.phase
    case AwaitResponse(last) => if last then 2 else 8
    case AwaitBody(last, _) => if last then 1 else 7
    case AwaitRefresh(_) => 3
    case AwaitRefusal => 3
    case _ => 0
  }

  function RefreshWork(r: Refresh): nat {
    match r.phase
    case AwaitFetch => 3
    case AwaitJson => 2
    case Settled(_) => 1
    case Done(_) => 0
  }

  function LogoutWork(pending: bool): nat { if pending then 1 else 0 }

  function Sum<T>(xs: seq<T>, work: T -> nat): nat {
    if xs == [] then 0 else work(xs[0]) + Sum(xs[1..], work)
  }

  lemma {:induction false} SumAppend<T>(xs: seq<T>, x: T, work: T -> nat)
    ensures Sum(xs + [x], work) == Sum(xs, work) + work(x)
  {
    if xs == [] {
      assert xs + [x] == [x];
    } else {
      assert (xs + [x])[1..] == xs[1..] + [x];
      SumAppend(xs[1..], x, work);
    }
  }

  lemma {:induction false} SumUpdate<T>(xs: seq<T>, i: nat, x: T, work: T -> nat)
    requires i < |xs|
    ensures Sum(xs[i := x], work) == Sum(xs, work) - work(xs[i]) + work(x)
  {
    if i == 0 {
      assert xs[i := x][1..] == xs[1..];
    } else {
      assert xs[i := x][1..] == xs[1..][i - 1 := x];
      SumUpdate(xs[1..], i - 1, x, work);
    }
  }

  function Work(s: State): nat {
    Sum(s.calls, CallWork) + Sum(s.refreshes, RefreshWork) + Sum(s.logouts, LogoutWork)
  }

  lemma AskRefreshWork(s: State, c: nat)
    requires c < |s.calls|
    ensures Work(AskRefresh(s, c)) <= Work(s) - CallWork(s.calls[c]) + 6
  {
    SumUpdate(s.calls, c, AskRefresh(s, c).calls[c], CallWork);
    if Truthy(RefreshToken(s.store)).Some? && s.refreshPromise.None? {
      SumAppend(s.refreshes, Refresh(Truthy(RefreshToken(s.store)).value, s.authEpoch, AwaitFetch), RefreshWork);
    }
  }

  lemma SetCallWork(s: State, c: nat, call: Call)
    requires c < |s.calls|
    ensures Work(SetCall(s, c, call)) == Work(s) - CallWork(s.calls[c]) + CallWork(call)
  {
    SumUpdate(s.calls, c, call, CallWork);
  }

  lemma ResponseWorks(s: State, c: nat, result: FetchResult)
    requires Enabled(s, ResponseArrived(c, result))
    ensures Work(OnResponse(s, c, result)) < Work(s)
  {
    var call := s.calls[c];
    if result.Status? && call.kind.variant == Blob && Retries(call, call.phase.last, result.code) {
      var answered := call.(statuses := call.statuses + [result.code]);
      SetCallWork(s, c, answered);
      AskRefreshWork(SetCall(s, c, answered), c);
    } else {
      SetCallWork(s, c, OnResponse(s, c, result).calls[c]);
      assert OnResponse(s, c, result).calls == SetCall(s, c, OnResponse(s, c, result).calls[c]).calls;
    }
  }

  lemma BodyWorks(s: State, c: nat, parsed: bool)
    requires Enabled(s, BodyArrived(c, parsed))
    ensures Work(OnBody(s, c, parsed)) < Work(s)
  {
    if parsed && Retries(s.calls[c], s.calls[c].phase.last, s.calls[c].phase.status) {
      AskRefreshWork(s, c);
    } else {
      SetCallWork(s, c, OnBody(s, c, parsed).calls[c]);
    }
  }

  lemma ResumeWorks(s: State, c: nat)
    requires Enabled(s, WaiterResumed(c))
    ensures Work(Resume(s, c)) < Work(s)
  {
    SetCallWork(s, c, Resume(s, c).calls[c]);
  }

  lemma SpawnWorks(s: State, step: Step)
    requires Enabled(s, step) && Spawns(step)
    ensures Work(Apply(s, step)) <= Work(s) + 8
  {
    match step
    case StartRequest(v, auth) =>
      SumAppend(s.calls, Call(Request(v, auth), AwaitResponse(false), [], false, None, None), CallWork);
    case StartRefreshSession =>
      var call := Call(ExplicitRefresh, AwaitRefusal, [], true, None, None);
      SumAppend(s.calls, call, CallWork);
      AskRefreshWork(s.(calls := s.calls + [call]), |s.calls|);
    case StartLogout(_) => SumAppend(s.logouts, true, LogoutWork);
    case _ =>
  }

  lemma StepWorks(s: State, step: Step)
    requires Enabled(s, step)
    ensures Work(Apply(s, step)) <= if Spawns(step) then Work(s) + 8 else Work(s) - 1
  {
    match step
    case ResponseArrived(c, result) => ResponseWorks(s, c, result);
    case BodyArrived(c, parsed) => BodyWorks(s, c, parsed);
    case WaiterResumed(c) => ResumeWorks(s, c);
    case LogoutFinally(l) => SumUpdate(s.logouts, l, false, LogoutWork);
    case _ => if Spawns(step) { SpawnWorks(s, step); } else { RefreshStepWorks(s, step); }
  }

  lemma RefreshStepWorks(s: State, step: Step)
    requires Enabled(s, step)
    requires step.RefreshRejected? || step.RefreshResponse? || step.RefreshParsed? || step.RefreshFinally?
    ensures Work(Apply(s, step)) < Work(s)
  {
    SumUpdate(s.refreshes, step.id, Apply(s, step).refreshes[step.id], RefreshWork);
  }

  /** No run goes on by itself: work left plus steps taken is at most nine for each thing the application
      starts, plus the work there was. */
  lemma {:induction false} RunsAreShort(s: State, steps: seq<Step>)
    requires Valid(s, steps)
    ensures |steps| + Work(Run(s, steps)) <= Work(s) + 9 * Spawned(steps)
    decreases |steps|
  {
    if steps != [] {
      StepWorks(s, steps[0]);
      RunsAreShort(Apply(s, steps[0]), steps[1..]);
    }
  }

  predicate Finished(call: Call) { call.phase.Resolved? || call.phase.Rejected? }

  /** Nothing gets stuck: as long as a call is unfinished, some pending step is enabled, even if the
      refresh it awaits is no longer the one in `refreshPromise`. */
  lemma UnfinishedCallHasStep(s: State, c: nat) returns (step: Step)
    requires Inv(s) && c < |s.calls| && !Finished(s.calls[c])
    ensures Enabled(s, step) && !Spawns(step)
  {
    var call := s.calls[c];
    assert CallOk(s, call);
    match call.phase
    case AwaitResponse(_) => step := ResponseArrived(c, FetchRejected);
    case AwaitBody(_, _) => step := BodyArrived(c, false);
    case AwaitRefusal => step := WaiterResumed(c);
    case AwaitRefresh(id) =>
      match s.refreshes[id].phase {
        case AwaitFetch => step := RefreshRejected(id);
        case AwaitJson => step := RefreshRejected(id);
        case Settled(_) => step := RefreshFinally(id);
        case Done(_) => step := WaiterResumed(c);
      }
  }

  /** From every reachable state the pending work alone can run to an end in which every call is finished. */
  lemma {:induction false} EveryCallCanFinish(s: State) returns (steps: seq<Step>)
    requires Inv(s)
    ensures Valid(s, steps) && Spawned(steps) == 0
    ensures forall c | 0 <= c < |Run(s, steps).calls| :: Finished(Run(s, steps).calls[c])
    decreases Work(s)
  {
    if c :| 0 <= c < |s.calls| && !Finished(s.calls[c]) {
      var step := UnfinishedCallHasStep(s, c);
      StepWorks(s, step);
      StepKeepsInv(s, step);
      var rest := EveryCallCanFinish(Apply(s, step));
      steps := [step] + rest;
      assert steps[1..] == rest;
    } else {
      steps := [];
    }
  }
}
