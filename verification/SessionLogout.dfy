/**
 What a logout and a login guarantee over every continuation of every run.
 */
module SessionLogout {
  import opened Wrappers
  import opened SessionProtocol
  import opened SessionInvariants

  predicate NoLogin(steps: seq<Step>) {
    forall i | 0 <= i < |steps| :: !steps[i].AppSetSession?
  }

  function Logouts(steps: seq<Step>): nat {
    if steps == [] then 0 else (if steps[0].StartLogout? then 1 else 0) + Logouts(steps[1..])
  }

  // ----- an empty store stays empty

  /** Some refresh could still write a session: it has the current epoch and has not settled. */
  ghost predicate MayInstall(s: State) {
    exists id | 0 <= id < |s.refreshes| :: IsUnsettled(s.refreshes[id]) && s.refreshes[id].epoch == s.authEpoch
  }

  ghost predicate SignedOut(s: State) {
    s.store == None && EpochsOk(s) && !MayInstall(s)
  }

  lemma SignedOutStep(s: State, step: Step)
    requires SignedOut(s) && Enabled(s, step) && !step.AppSetSession?
    ensures SignedOut(Apply(s, step))
    ensures |Apply(s, step).refreshes| == |s.refreshes|
    ensures s.wire <= Apply(s, step).wire
    ensures forall k | |s.wire| <= k < |Apply(s, step).wire| ::
              Apply(s, step).wire[k].bearer == None && !Apply(s, step).wire[k].origin.FromRefresh?
  {}

  lemma {:induction false} SignedOutRun(s: State, steps: seq<Step>)
    requires SignedOut(s) && Valid(s, steps) && NoLogin(steps)
    ensures Run(s, steps).store == None
    ensures |Run(s, steps).refreshes| == |s.refreshes|
    ensures s.wire <= Run(s, steps).wire
    ensures forall k | |s.wire| <= k < |Run(s, steps).wire| ::
              Run(s, steps).wire[k].bearer == None && !Run(s, steps).wire[k].origin.FromRefresh?
    decreases |steps|
  {
    if steps != [] {
      SignedOutStep(s, steps[0]);
      SignedOutRun(Apply(s, steps[0]), steps[1..]);
    }
  }

  /** Logged out stays logged out.  Whatever was pending, from the synchronous part of a logout until
      the application stores a session itself, the store is empty, no refresh starts, and the only
      new `fetch` that carries a token is the logout call. */
  lemma {:induction false} LoggedOutStaysLoggedOut(s: State, inputToken: Option<string>, steps: seq<Step>)
    requires Reachable(s) && Valid(OnLogout(s, inputToken), steps) && NoLogin(steps)
    ensures var s' := Run(OnLogout(s, inputToken), steps);
            && s'.store == None
            && |s'.refreshes| == |s.refreshes|
            && s.wire < s'.wire
            && s'.wire[|s.wire|].origin == FromLogout(|s.logouts|)
            && s'.wire[|s.wire|].bearer == Truthy(AccessToken(s.store))
            && s'.wire[|s.wire|].refreshToken
               == (if inputToken.Some? then inputToken
                   else if s.store.Some? then Some(s.store.value.refreshToken) else None)
            && forall k | |s.wire| < k < |s'.wire| :: s'.wire[k].bearer == None && !s'.wire[k].origin.FromRefresh?
  {
    ReachableInv(s);
    SignedOutRun(OnLogout(s, inputToken), steps);
  }

  lemma RunTwo(s: State, a: Step, b: Step)
    requires Enabled(s, a) && Enabled(Apply(s, a), b)
    ensures Valid(s, [a, b]) && Run(s, [a, b]) == Apply(Apply(s, a), b)
  {
    RunOne(Apply(s, a), b);
    assert [a, b][1..] == [b];
  }

  lemma RunOne(s: State, a: Step)
    requires Enabled(s, a)
    ensures Valid(s, [a]) && Run(s, [a]) == Apply(s, a)
  {
    assert [a][1..] == [];
    assert Valid(Apply(s, a), []);
  }

  /** Clearing the store without `logout`, as some screens do, does not have that guarantee.  The exact
      condition: an empty store stays empty until the next login if and only if no unsettled refresh
      carries the current epoch. */
  lemma {:induction false} EmptyStoreStaysEmptyIff(s: State)
    requires Reachable(s) && s.store == None
    ensures (forall steps | Valid(s, steps) && NoLogin(steps) :: Run(s, steps).store == None) <==> !MayInstall(s)
  {
    ReachableInv(s);
    if MayInstall(s) {
      var id :| 0 <= id < |s.refreshes| && IsUnsettled(s.refreshes[id]) && s.refreshes[id].epoch == s.authEpoch;
      var parsed := RefreshParsed(id, Session("a", "r"));
      if s.refreshes[id].phase.AwaitJson? {
        RunOne(s, parsed);
        assert Run(s, [parsed]).store.Some?;
      } else {
        RunTwo(s, RefreshResponse(id, true), parsed);
        assert Run(s, [RefreshResponse(id, true), parsed]).store.Some?;
      }
    } else {
      forall steps | Valid(s, steps) && NoLogin(steps) ensures Run(s, steps).store == None {
        SignedOutRun(s, steps);
      }
    }
  }

  // ----- a refresh installs its session only if no logout intervened

  lemma {:induction false} RunGrows(s: State, steps: seq<Step>)
    requires Valid(s, steps)
    ensures Grows(s, Run(s, steps))
    ensures Run(s, steps).authEpoch == s.authEpoch + Logouts(steps)
    decreases |steps|
  {
    if steps != [] {
      StepGrows(s, steps[0]);
      RunGrows(Apply(s, steps[0]), steps[1..]);
    }
  }

  /** `start` began a refresh with the token then stored.  When its body is parsed, after any run, the
      parsed session is stored and the refresh succeeds exactly when no logout ran in between; otherwise
      the store ends empty. */
  lemma {:induction false} RefreshInstallsIffNoLogout(s: State, start: Step, steps: seq<Step>, session: Session)
    requires Reachable(s) && Enabled(s, start)
    requires |Apply(s, start).refreshes| == |s.refreshes| + 1
    requires Valid(Apply(s, start), steps)
    requires Enabled(Run(Apply(s, start), steps), RefreshParsed(|s.refreshes|, session))
    ensures var id := |s.refreshes|;
            var s' := Apply(Run(Apply(s, start), steps), RefreshParsed(id, session));
            && s.store.Some? && s'.refreshes[id].refreshToken == s.store.value.refreshToken
            && (Logouts(steps) == 0 ==> s'.store == Some(session) && s'.refreshes[id].phase == Settled(Refreshed))
            && (Logouts(steps) > 0 ==> s'.store == None && s'.refreshes[id].phase == Settled(NotRefreshed))
  {
    RefreshBegins(s, start);
    RunGrows(Apply(s, start), steps);
  }

  lemma RefreshBegins(s: State, start: Step)
    requires Enabled(s, start) && |Apply(s, start).refreshes| == |s.refreshes| + 1
    ensures var r := Apply(s, start).refreshes[|s.refreshes|];
            && r.epoch == Apply(s, start).authEpoch
            && s.store.Some? && r.refreshToken == s.store.value.refreshToken
  {}

  // ----- nobody joins a refresh begun before the last logout

  /** Only refreshes numbered from `first` on are stored, and joined by calls that had joined none. */
  ghost predicate JoinsFrom(s: State, first: nat, before: seq<Call>) {
    && first <= |s.refreshes| && |before| <= |s.calls|
    && (s.refreshPromise.Some? ==> first <= s.refreshPromise.value)
    && forall c | 0 <= c < |s.calls| && s.calls[c].joined.Some? ::
         || first <= s.calls[c].joined.value
         || (c < |before| && before[c].joined == s.calls[c].joined)
  }

  /** The call a step runs keeps what it joined, or joins the refresh now stored. */
  lemma ActorJoins(s: State, step: Step)
    requires Enabled(s, step) && Actor(s, step) < |Apply(s, step).calls|
    ensures var s', c := Apply(s, step), Actor(s, step);
            || s'.calls[c].joined == None
            || s'.calls[c].joined == s'.refreshPromise
            || (c < |s.calls| && s'.calls[c].joined == s.calls[c].joined)
  {}

  lemma PromiseFrom(s: State, step: Step, first: nat)
    requires Enabled(s, step) && first <= |s.refreshes|
    requires s.refreshPromise.Some? ==> first <= s.refreshPromise.value
    ensures first <= |Apply(s, step).refreshes| && |s.calls| <= |Apply(s, step).calls|
    ensures Apply(s, step).refreshPromise.Some? ==> first <= Apply(s, step).refreshPromise.value
  {}

  lemma JoinsFromStep(s: State, step: Step, first: nat, before: seq<Call>)
    requires JoinsFrom(s, first, before) && Enabled(s, step)
    ensures JoinsFrom(Apply(s, step), first, before)
  {
    var s' := Apply(s, step);
    PromiseFrom(s, step, first);
    forall c | 0 <= c < |s'.calls| && s'.calls[c].joined.Some?
      ensures first <= s'.calls[c].joined.value || (c < |before| && before[c].joined == s'.calls[c].joined)
    {
      if c == Actor(s, step) { ActorJoins(s, step); } else { StepLeavesOtherCalls(s, step, c); }
    }
  }

  lemma {:induction false} JoinsFromRun(s: State, steps: seq<Step>, first: nat, before: seq<Call>)
    requires JoinsFrom(s, first, before) && Valid(s, steps)
    ensures JoinsFrom(Run(s, steps), first, before)
    decreases |steps|
  {
    if steps != [] {
      JoinsFromStep(s, steps[0], first, before);
      JoinsFromRun(Apply(s, steps[0]), steps[1..], first, before);
    }
  }

  /** After a logout, a call that had not joined a refresh yet joins only refreshes begun after it. */
  lemma {:induction false} JoinsOnlyRefreshesAfterLogout(s: State, inputToken: Option<string>, steps: seq<Step>, c: nat)
    requires Reachable(s) && Valid(OnLogout(s, inputToken), steps)
    requires c < |Run(OnLogout(s, inputToken), steps).calls|
    requires c < |s.calls| ==> s.calls[c].joined == None
    requires Run(OnLogout(s, inputToken), steps).calls[c].joined.Some?
    ensures Run(OnLogout(s, inputToken), steps).calls[c].joined.value >= |s.refreshes|
  {
    JoinsFromRun(OnLogout(s, inputToken), steps, |s.refreshes|, s.calls);
  }

  // ----- when does a freshly stored session survive

  /** Nothing but the work already pending, and requests that start no refresh, touches the store. */
  predicate NoNewAuthority(steps: seq<Step>) {
    forall i | 0 <= i < |steps| ::
      !steps[i].AppSetSession? && !steps[i].AppClear? && !steps[i].StartLogout?
  }

  ghost predicate NothingPending(s: State) {
    && (forall id | 0 <= id < |s.refreshes| :: !IsUnsettled(s.refreshes[id]))
    && (forall l | 0 <= l < |s.logouts| :: !s.logouts[l])
  }

  lemma NothingPendingStep(s: State, step: Step)
    requires NothingPending(s) && Enabled(s, step) && NoNewAuthority([step])
    ensures |s.refreshes| <= |Apply(s, step).refreshes|
    ensures |s.refreshes| == |Apply(s, step).refreshes| ==>
              NothingPending(Apply(s, step)) && Apply(s, step).store == s.store
  {
    assert NoNewAuthority([step]) ==> !step.AppSetSession? && !step.AppClear? && !step.StartLogout? by {
      assert [step][0] == step;
    }
  }

  lemma {:induction false} NothingPendingRun(s: State, steps: seq<Step>)
    requires NothingPending(s) && Valid(s, steps) && NoNewAuthority(steps)
    requires |Run(s, steps).refreshes| == |s.refreshes|
    ensures Run(s, steps).store == s.store
    decreases |steps|
  {
    if steps != [] {
      assert NoNewAuthority([steps[0]]);
      NothingPendingStep(s, steps[0]);
      RunGrows(Apply(s, steps[0]), steps[1..]);
      NothingPendingRun(Apply(s, steps[0]), steps[1..]);
    }
  }

  /** A stored session is not safe from work begun earlier: the clears after a failed or outdated refresh
      and after a logout are unconditional.  The exact condition: while no new refresh, logout or login
      starts, a stored session survives every continuation if and only if every refresh has settled
      and no logout is awaiting its response. */
  lemma {:induction false} StoredSessionSurvivesIff(s: State)
    requires Reachable(s) && s.store.Some?
    ensures (forall steps | Valid(s, steps) && NoNewAuthority(steps) && |Run(s, steps).refreshes| == |s.refreshes| ::
               Run(s, steps).store == s.store)
            <==> NothingPending(s)
  {
    if NothingPending(s) {
      forall steps | Valid(s, steps) && NoNewAuthority(steps) && |Run(s, steps).refreshes| == |s.refreshes|
        ensures Run(s, steps).store == s.store
      {
        NothingPendingRun(s, steps);
      }
    } else {
      var step := PendingOverwrite(s);
      RunOne(s, step);
      assert Run(s, [step]).store != s.store && NoNewAuthority([step]);
    }
  }

  /** Pending work always has a next step that replaces or clears the stored session. */
  lemma PendingOverwrite(s: State) returns (step: Step)
    requires s.store.Some? && !NothingPending(s)
    ensures Enabled(s, step) && NoNewAuthority([step])
    ensures Apply(s, step).store != s.store && |Apply(s, step).refreshes| == |s.refreshes|
  {
    if l :| 0 <= l < |s.logouts| && s.logouts[l] {
      step := LogoutFinally(l);
    } else {
      var id :| 0 <= id < |s.refreshes| && IsUnsettled(s.refreshes[id]);
      if s.refreshes[id].phase.AwaitFetch? {
        step := RefreshResponse(id, false);
      } else {
        step := RefreshParsed(id, Session(s.store.value.accessToken + "x", ""));
        assert |s.store.value.accessToken + "x"| != |s.store.value.accessToken|;
      }
    }
  }

  // ----- where a stored session comes from

  /** The session was handed to the store in this run, by the application or by a refresh of the current epoch. */
  ghost predicate HandedOver(s: State, steps: seq<Step>, session: Session)
    requires Valid(s, steps)
    decreases |steps|
  {
    steps != [] &&
    (|| steps[0] == AppSetSession(session)
     || (steps[0].RefreshParsed? && steps[0].session == session && s.refreshes[steps[0].id].epoch == s.authEpoch)
     || HandedOver(Apply(s, steps[0]), steps[1..], session))
  }

  /** A session found in the store after a run was there before, or was handed over in it. */
  lemma {:induction false} StoredSessionHasSource(s: State, steps: seq<Step>)
    requires Valid(s, steps) && Run(s, steps).store.Some?
    ensures Run(s, steps).store == s.store || HandedOver(s, steps, Run(s, steps).store.value)
    decreases |steps|
  {
    if steps != [] { StoredSessionHasSource(Apply(s, steps[0]), steps[1..]); }
  }

  /** The steps that may write the store. */
  predicate Writes(step: Step) {
    || step.AppSetSession? || step.AppClear? || step.StartLogout? || step.LogoutFinally?
    || (step.RefreshResponse? && !step.ok) || step.RefreshParsed?
  }

  /** Requests, rejected refreshes and callbacks never touch the store. */
  lemma {:induction false} StoreKeptWithoutWriters(s: State, steps: seq<Step>)
    requires Valid(s, steps) && forall i | 0 <= i < |steps| :: !Writes(steps[i])
    ensures Run(s, steps).store == s.store && Run(s, steps).authEpoch == s.authEpoch
    decreases |steps|
  {
    if steps != [] {
      assert !Writes(steps[0]);
      StoreKeptWithoutWriters(Apply(s, steps[0]), steps[1..]);
    }
  }
}
