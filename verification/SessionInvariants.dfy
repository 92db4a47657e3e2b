/**
 The inductive invariant of the session-refresh protocol, kept by every step, and counting.
 */
module SessionInvariants {
  import opened Wrappers
  import opened SessionProtocol

  // ----- counting

  function Count<T>(xs: seq<T>, p: T -> bool): nat {
    if xs == [] then 0 else (if p(xs[0]) then 1 else 0) + Count(xs[1..], p)
  }

  lemma {:induction false} CountAppend<T>(xs: seq<T>, x: T, p: T -> bool)
    ensures Count(xs + [x], p) == Count(xs, p) + (if p(x) then 1 else 0)
  {
    if xs == [] {
      assert xs + [x] == [x];
    } else {
      assert (xs + [x])[1..] == xs[1..] + [x];
      CountAppend(xs[1..], x, p);
    }
  }

  lemma {:induction false} CountUpdate<T>(xs: seq<T>, i: nat, x: T, p: T -> bool)
    requires i < |xs|
    ensures Count(xs[i := x], p) == Count(xs, p) - (if p(xs[i]) then 1 else 0) + (if p(x) then 1 else 0)
  {
    if i == 0 {
      assert xs[i := x][1..] == xs[1..];
    } else {
      assert xs[i := x][1..] == xs[1..][i - 1 := x];
      CountUpdate(xs[1..], i - 1, x, p);
    }
  }

  lemma {:induction false} CountPositive<T>(xs: seq<T>, i: nat, p: T -> bool)
    requires i < |xs| && p(xs[i])
    ensures Count(xs, p) >= 1
  {
    if i > 0 { CountPositive(xs[1..], i - 1, p); }
  }

  lemma {:induction false} CountMonotone<T>(xs: seq<T>, p: T -> bool, q: T -> bool)
    requires forall i | 0 <= i < |xs| :: p(xs[i]) ==> q(xs[i])
    ensures Count(xs, p) <= Count(xs, q)
  {
    if xs != [] {
      assert forall i | 0 <= i < |xs[1..]| :: xs[1..][i] == xs[i + 1];
      CountMonotone(xs[1..], p, q);
    }
  }

  // ----- the invariant

  predicate IsLive(r: Refresh) { !r.phase.Done? }

  predicate IsUnsettled(r: Refresh) { r.phase.AwaitFetch? || r.phase.AwaitJson? }

  /** Refreshes whose `.finally` callback has not run yet. */
  function Live(s: State): nat { Count(s.refreshes, IsLive) }

  function PromiseSet(s: State): nat { if s.refreshPromise.Some? then 1 else 0 }

  /** A set `refreshPromise` is a live refresh of the current epoch. */
  ghost predicate PromiseOk(s: State) {
    s.refreshPromise.Some? ==>
      && s.refreshPromise.value < |s.refreshes|
      && IsLive(s.refreshes[s.refreshPromise.value])
      && s.refreshes[s.refreshPromise.value].epoch == s.authEpoch
  }

  ghost predicate EpochsOk(s: State) {
    forall i | 0 <= i < |s.refreshes| :: s.refreshes[i].epoch <= s.authEpoch
  }

  predicate FirstAttempt(call: Call) {
    || (call.phase.AwaitResponse? && !call.phase.last)
    || (call.phase.AwaitBody? && !call.phase.last)
  }

  /** A call that may make the client refresh: an explicit one, or one whose first answer was a 401. */
  predicate Demands(call: Call) {
    call.kind.ExplicitRefresh? || (call.kind.auth && |call.statuses| > 0 && call.statuses[0] == 401)
  }

  predicate Asked(call: Call) { call.asked }

  ghost predicate CallOk(s: State, call: Call) {
    && (call.phase.AwaitResponse? || call.phase.AwaitBody? ==> call.kind.Request?)
    && (FirstAttempt(call) ==> !call.asked)
    && (call.phase == AwaitResponse(false) ==> call.statuses == [])
    && (call.phase.AwaitBody? && !call.phase.last ==> call.statuses == [call.phase.status])
    && (call.asked ==> Demands(call))
    && (!call.asked ==> call.joined == None && call.verdict == None)
    && (call.phase.AwaitRefresh? ==> call.asked && call.joined == Some(call.phase.id) && call.verdict == None)
    && (call.phase.AwaitRefusal? ==> call.asked && call.joined == None && call.verdict == None)
    && (call.joined.Some? ==> call.joined.value < |s.refreshes|)
    && (call.verdict.Some? && call.joined.Some? ==> s.refreshes[call.joined.value].phase == Done(call.verdict.value))
    && (call.verdict.Some? && call.joined.None? ==> call.verdict.value == NotRefreshed)
    && EndOk(call)
  }

  /** A request resolves only on an ok answer, and fails once its refresh was refused or threw; an explicit
      refresh call rejects exactly when its refresh threw. */
  predicate EndOk(call: Call) {
    match call.kind
    case ExplicitRefresh =>
      && (call.phase.Resolved? ==> call.verdict.Some? && call.verdict.value != Threw)
      && (call.phase.Rejected? ==> call.verdict == Some(Threw))
    case Request(_, _) =>
      && (call.phase.AwaitBody? ==> call.statuses != [] && call.statuses[|call.statuses| - 1] == call.phase.status)
      && (call.phase.Resolved? ==> call.statuses != [] && IsOk(call.statuses[|call.statuses| - 1]))
      && (call.verdict.Some? && call.verdict.value != Refreshed ==>
            call.phase.Rejected? || call.phase == AwaitBody(true, 401))
      && (call.phase.AwaitRefresh? || call.phase.AwaitRefusal? ==> call.statuses == [401])
  }

  ghost predicate CallsOk(s: State) {
    forall c | 0 <= c < |s.calls| :: CallOk(s, s.calls[c])
  }

  ghost predicate Inv(s: State) {
    PromiseOk(s) && EpochsOk(s) && CallsOk(s)
  }

  /** A refresh never changes its epoch or token, and never leaves `Done`. */
  ghost predicate Grows(s: State, s': State) {
    && s.authEpoch <= s'.authEpoch
    && |s.refreshes| <= |s'.refreshes|
    && forall i | 0 <= i < |s.refreshes| ::
         && s'.refreshes[i].epoch == s.refreshes[i].epoch
         && s'.refreshes[i].refreshToken == s.refreshes[i].refreshToken
         && (s.refreshes[i].phase.Done? ==> s'.refreshes[i].phase == s.refreshes[i].phase)
  }

  lemma StepGrows(s: State, step: Step)
    requires Enabled(s, step)
    ensures Grows(s, Apply(s, step))
  {}

  lemma CallOkGrows(s: State, s': State, call: Call)
    requires CallOk(s, call) && Grows(s, s')
    ensures CallOk(s', call)
  {}

  lemma AskKeepsPromiseOk(s: State, c: nat)
    requires PromiseOk(s) && EpochsOk(s) && c < |s.calls|
    ensures PromiseOk(AskRefresh(s, c)) && EpochsOk(AskRefresh(s, c))
  {}

  lemma RefreshStepKeepsPromiseOk(s: State, step: Step)
    requires PromiseOk(s) && EpochsOk(s) && Enabled(s, step)
    requires step.RefreshRejected? || step.RefreshResponse? || step.RefreshParsed? || step.RefreshFinally?
    ensures PromiseOk(Apply(s, step)) && EpochsOk(Apply(s, step))
  {}

  lemma StepKeepsPromiseOk(s: State, step: Step)
    requires PromiseOk(s) && EpochsOk(s) && Enabled(s, step)
    ensures PromiseOk(Apply(s, step)) && EpochsOk(Apply(s, step))
  {
    match step
    case ResponseArrived(c, result) =>
      if result.Status? {
        AskKeepsPromiseOk(SetCall(s, c, s.calls[c].(statuses := s.calls[c].statuses + [result.code])), c);
      }
    case BodyArrived(c, _) => AskKeepsPromiseOk(s, c);
    case StartRefreshSession =>
      AskKeepsPromiseOk(s.(calls := s.calls + [Call(ExplicitRefresh, AwaitRefusal, [], true, None, None)]), |s.calls|);
    case _ =>
      if step.RefreshRejected? || step.RefreshResponse? || step.RefreshParsed? || step.RefreshFinally? {
        RefreshStepKeepsPromiseOk(s, step);
      }
  }

  /** The call a step runs, when it runs one; a new call gets the next index. */
  function Actor(s: State, step: Step): nat {
    match step
    case ResponseArrived(c, _) => c
    case BodyArrived(c, _) => c
    case WaiterResumed(c) => c
    case _ => |s.calls|
  }

  lemma StepLeavesOtherCalls(s: State, step: Step, c: nat)
    requires Enabled(s, step) && c < |s.calls| && c != Actor(s, step)
    ensures |s.calls| <= |Apply(s, step).calls| <= |s.calls| + 1
    ensures Apply(s, step).calls[c] == s.calls[c]
  {}

  lemma AskRefreshOk(s: State, c: nat)
    requires PromiseOk(s) && c < |s.calls| && Demands(s.calls[c])
    requires s.calls[c].joined == None && s.calls[c].verdict == None
    requires s.calls[c].kind.Request? ==> s.calls[c].statuses == [401]
    ensures CallOk(AskRefresh(s, c), AskRefresh(s, c).calls[c])
  {}

  lemma OnResponseOk(s: State, c: nat, result: FetchResult)
    requires Inv(s) && Enabled(s, ResponseArrived(c, result))
    ensures CallOk(OnResponse(s, c, result), OnResponse(s, c, result).calls[c])
  {
    var call := s.calls[c];
    assert CallOk(s, call);
    if result.Status? && call.kind.variant == Blob && Retries(call, call.phase.last, result.code) {
      AskRefreshOk(SetCall(s, c, call.(statuses := call.statuses + [result.code])), c);
    }
  }

  lemma OnBodyOk(s: State, c: nat, parsed: bool)
    requires Inv(s) && Enabled(s, BodyArrived(c, parsed))
    ensures CallOk(OnBody(s, c, parsed), OnBody(s, c, parsed).calls[c])
  {
    var call := s.calls[c];
    assert CallOk(s, call);
    if parsed && Retries(call, call.phase.last, call.phase.status) {
      AskRefreshOk(s, c);
    }
  }

  lemma ResumeOk(s: State, c: nat)
    requires Inv(s) && Enabled(s, WaiterResumed(c))
    ensures CallOk(Resume(s, c), Resume(s, c).calls[c])
  {
    assert CallOk(s, s.calls[c]);
  }

  lemma ActorOk(s: State, step: Step)
    requires Inv(s) && Enabled(s, step)
    ensures Actor(s, step) < |Apply(s, step).calls| ==> CallOk(Apply(s, step), Apply(s, step).calls[Actor(s, step)])
  {
    match step
    case ResponseArrived(c, result) => OnResponseOk(s, c, result);
    case BodyArrived(c, parsed) => OnBodyOk(s, c, parsed);
    case WaiterResumed(c) => ResumeOk(s, c);
    case StartRefreshSession =>
      AskRefreshOk(s.(calls := s.calls + [Call(ExplicitRefresh, AwaitRefusal, [], true, None, None)]), |s.calls|);
    case _ =>
  }

  lemma StepKeepsCallOk(s: State, step: Step, c: nat)
    requires Inv(s) && Enabled(s, step) && c < |Apply(s, step).calls|
    ensures CallOk(Apply(s, step), Apply(s, step).calls[c])
  {
    if c == Actor(s, step) {
      ActorOk(s, step);
    } else {
      CallsGrowByOne(s, step);
      StepLeavesOtherCalls(s, step, c);
      StepGrows(s, step);
      CallOkGrows(s, Apply(s, step), s.calls[c]);
    }
  }

  lemma CallsGrowByOne(s: State, step: Step)
    requires Enabled(s, step)
    ensures |s.calls| <= |Apply(s, step).calls| <= |s.calls| + 1
    ensures |Apply(s, step).calls| > |s.calls| ==> Actor(s, step) == |s.calls|
  {}

  lemma {:induction false} StepKeepsInv(s: State, step: Step)
    requires Inv(s) && Enabled(s, step)
    ensures Inv(Apply(s, step))
  {
    StepKeepsPromiseOk(s, step);
    forall c | 0 <= c < |Apply(s, step).calls| ensures CallOk(Apply(s, step), Apply(s, step).calls[c]) {
      StepKeepsCallOk(s, step, c);
    }
  }

  lemma {:induction false} RunKeepsInv(s: State, steps: seq<Step>)
    requires Inv(s) && Valid(s, steps)
    ensures Inv(Run(s, steps))
    decreases |steps|
  {
    if steps != [] {
      StepKeepsInv(s, steps[0]);
      RunKeepsInv(Apply(s, steps[0]), steps[1..]);
    }
  }

  lemma {:induction false} ReachableInv(s: State)
    requires Reachable(s)
    ensures Inv(s)
  {
    var s0, steps :| Initial(s0) && Valid(s0, steps) && Run(s0, steps) == s;
    RunKeepsInv(s0, steps);
  }
}
