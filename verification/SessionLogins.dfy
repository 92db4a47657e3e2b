/**
 Which login a token belongs to, and whether the two sends of one request belong to the same.
 */
module SessionLogins {
  import opened Wrappers
  import opened SessionProtocol
  import opened SessionInvariants
  import opened SessionLogout

  /** The logins of a run are numbered.  `store`: the login the store was last filled under; `refreshes`: the
      login each refresh was begun under. */
  datatype Ledger = Ledger(logins: nat, store: nat, refreshes: seq<nat>)

  predicate Keeps(l: Ledger, s: State) { |l.refreshes| == |s.refreshes| }

  /** An application login opens a new account; a refresh is begun under the login of the store, and what it
      installs belongs to the login it was begun under. */
  function Record(l: Ledger, s: State, step: Step): (l': Ledger)
    requires Keeps(l, s) && Enabled(s, step)
    ensures Keeps(l', Apply(s, step))
  {
    if step.AppSetSession? then Ledger(l.logins + 1, l.logins + 1, l.refreshes)
    else if step.RefreshParsed? && s.refreshes[step.id].epoch == s.authEpoch then l.(store := l.refreshes[step.id])
    else if |Apply(s, step).refreshes| > |s.refreshes| then l.(refreshes := l.refreshes + [l.store])
    else l
  }

  function RecordRun(l: Ledger, s: State, steps: seq<Step>): (l': Ledger)
    requires Keeps(l, s) && Valid(s, steps)
    ensures Keeps(l', Run(s, steps))
    decreases |steps|
  {
    if steps == [] then l else RecordRun(Record(l, s, steps[0]), Apply(s, steps[0]), steps[1..])
  }

  /** No refresh begun under another login can still write the store. */
  ghost predicate OneLogin(s: State, l: Ledger)
    requires Keeps(l, s)
  {
    forall id | 0 <= id < |s.refreshes| && IsUnsettled(s.refreshes[id]) && s.refreshes[id].epoch == s.authEpoch ::
      l.refreshes[id] == l.store
  }

  lemma OneLoginStep(s: State, l: Ledger, step: Step)
    requires Keeps(l, s) && EpochsOk(s) && OneLogin(s, l) && Enabled(s, step) && !step.AppSetSession?
    ensures OneLogin(Apply(s, step), Record(l, s, step)) && Record(l, s, step).store == l.store
  {}

  lemma {:induction false} OneLoginRun(s: State, l: Ledger, steps: seq<Step>)
    requires Keeps(l, s) && Inv(s) && OneLogin(s, l) && Valid(s, steps) && NoLogin(steps)
    ensures RecordRun(l, s, steps).store == l.store
    decreases |steps|
  {
    if steps != [] {
      OneLoginStep(s, l, steps[0]);
      StepKeepsInv(s, steps[0]);
      OneLoginRun(Apply(s, steps[0]), Record(l, s, steps[0]), steps[1..]);
    }
  }

  lemma RecordOne(l: Ledger, s: State, step: Step)
    requires Keeps(l, s) && Enabled(s, step) && Valid(s, [step])
    ensures RecordRun(l, s, [step]) == Record(l, s, step)
  {
    assert [step][1..] == [];
    assert RecordRun(Record(l, s, step), Apply(s, step), []) == Record(l, s, step);
  }

  // ----- the two sends of one request

  /** Started in `s`, an authenticated request is, after these further steps, about to be sent again. */
  ghost predicate RetryDue(s: State, variant: Variant, steps: seq<Step>) {
    && Valid(Apply(s, StartRequest(variant, true)), steps)
    && var t := AtRetry(s, variant, steps);
       |s.calls| < |t.calls| && Verdict(t, t.calls[|s.calls|]) == Some(Refreshed)
  }

  function AtRetry(s: State, variant: Variant, steps: seq<Step>): State
    requires Valid(Apply(s, StartRequest(variant, true)), steps)
  {
    Run(Apply(s, StartRequest(variant, true)), steps)
  }

  /** The login the store is filled under when the request is sent again. */
  function LoginAtRetry(s: State, l: Ledger, variant: Variant, steps: seq<Step>): nat
    requires Keeps(l, s) && Valid(Apply(s, StartRequest(variant, true)), steps)
  {
    RecordRun(Record(l, s, StartRequest(variant, true)), Apply(s, StartRequest(variant, true)), steps).store
  }

  lemma KindStep(s: State, step: Step, c: nat)
    requires Enabled(s, step) && c < |s.calls|
    ensures |s.calls| <= |Apply(s, step).calls| && Apply(s, step).calls[c].kind == s.calls[c].kind
  {}

  lemma {:induction false} KindRun(s: State, steps: seq<Step>, c: nat)
    requires Valid(s, steps) && c < |s.calls|
    ensures c < |Run(s, steps).calls| && Run(s, steps).calls[c].kind == s.calls[c].kind
    decreases |steps|
  {
    if steps != [] {
      KindStep(s, steps[0], c);
      KindRun(Apply(s, steps[0]), steps[1..], c);
    }
  }

  /** The first send takes its token from the store of `s`, the retry from the store of that later instant. */
  lemma RetryTokens(s: State, variant: Variant, steps: seq<Step>)
    requires RetryDue(s, variant, steps)
    ensures var start, c, t := StartRequest(variant, true), |s.calls|, AtRetry(s, variant, steps);
            && Apply(s, start).wire == s.wire + [Sent(FromRequest(c), Truthy(AccessToken(s.store)), None)]
            && Apply(t, WaiterResumed(c)).wire == t.wire + [Sent(FromRequest(c), Truthy(AccessToken(t.store)), None)]
  {
    KindRun(Apply(s, StartRequest(variant, true)), steps, |s.calls|);
  }

  lemma RetryKeepsLogin(s: State, l: Ledger, variant: Variant, steps: seq<Step>)
    requires Reachable(s) && Keeps(l, s) && OneLogin(s, l) && RetryDue(s, variant, steps) && NoLogin(steps)
    ensures LoginAtRetry(s, l, variant, steps) == l.store
  {
    var start := StartRequest(variant, true);
    ReachableInv(s);
    OneLoginStep(s, l, start);
    StepKeepsInv(s, start);
    OneLoginRun(Apply(s, start), Record(l, s, start), steps);
  }

  // ----- runs grown one step at a time, the ledger with them

  datatype Trace = Trace(start: State, opening: Ledger, steps: seq<Step>, end: State, ledger: Ledger)

  ghost predicate Sound(w: Trace) {
    && Keeps(w.opening, w.start) && Valid(w.start, w.steps)
    && Run(w.start, w.steps) == w.end && RecordRun(w.opening, w.start, w.steps) == w.ledger
  }

  /** From the same start. */
  predicate Continues(w: Trace, w': Trace) { w'.start == w.start && w'.opening == w.opening }

  lemma {:induction false} AppendStep(s: State, l: Ledger, steps: seq<Step>, step: Step)
    requires Keeps(l, s) && Valid(s, steps) && Enabled(Run(s, steps), step)
    ensures Valid(s, steps + [step]) && Run(s, steps + [step]) == Apply(Run(s, steps), step)
    ensures RecordRun(l, s, steps + [step]) == Record(RecordRun(l, s, steps), Run(s, steps), step)
    decreases |steps|
  {
    var longer := steps + [step];
    if steps == [] {
      assert longer == [step] && longer[1..] == [];
      RunOne(s, step);
      RecordOne(l, s, step);
    } else {
      assert longer[1..] == steps[1..] + [step];
      AppendStep(Apply(s, steps[0]), Record(l, s, steps[0]), steps[1..], step);
    }
  }

  lemma Then(w: Trace, step: Step) returns (w': Trace)
    requires Sound(w) && Enabled(w.end, step)
    ensures Sound(w') && Continues(w, w') && w'.steps == w.steps + [step]
    ensures w'.end == Apply(w.end, step) && w'.ledger == Record(w.ledger, w.end, step)
  {
    AppendStep(w.start, w.opening, w.steps, step);
    w' := Trace(w.start, w.opening, w.steps + [step], Apply(w.end, step), Record(w.ledger, w.end, step));
  }

  const FRESH: Call := Call(Request(Json, true), AwaitResponse(false), [], false, None, None)

  /** A request just sent is answered 401 and starts a refresh, under the login of the store. */
  lemma Asks(w: Trace, c: nat, token: string) returns (w': Trace)
    requires Sound(w) && c < |w.end.calls| && w.end.calls[c] == FRESH
    requires w.end.refreshPromise == None && Truthy(RefreshToken(w.end.store)) == Some(token)
    ensures Sound(w') && Continues(w, w') && (NoLogin(w.steps) ==> NoLogin(w'.steps))
    ensures var s, id := w'.end, |w.end.refreshes|;
            && s.authEpoch == w.end.authEpoch && |s.calls| == |w.end.calls|
            && s.calls[c].kind == FRESH.kind && s.calls[c].phase == AwaitRefresh(id)
            && s.refreshes == w.end.refreshes + [Refresh(token, s.authEpoch, AwaitFetch)]
            && s.wire == w.end.wire + [Sent(FromRefresh(id), None, Some(token))]
    ensures w'.ledger == w.ledger.(refreshes := w.ledger.refreshes + [w.ledger.store])
  {
    var w1 := Then(w, ResponseArrived(c, Status(401)));
    assert w1.end.calls[c].phase == AwaitBody(false, 401) && w1.end.calls[c].kind == FRESH.kind;
    w' := Then(w1, BodyArrived(c, true));
  }

  /** An unsettled refresh gets an ok response, if it still waits for one. */
  lemma Responds(w: Trace, id: nat) returns (w': Trace)
    requires Sound(w) && id < |w.end.refreshes| && IsUnsettled(w.end.refreshes[id])
    ensures Sound(w') && Continues(w, w') && (NoLogin(w.steps) ==> NoLogin(w'.steps))
    ensures RefreshIn(w'.end, id, AwaitJson) && w'.end.refreshes[id].epoch == w.end.refreshes[id].epoch
    ensures w'.end.authEpoch == w.end.authEpoch && w'.ledger == w.ledger
    ensures w'.end.calls == w.end.calls && w'.end.wire == w.end.wire
  {
    w' := w;
    if w.end.refreshes[id].phase.AwaitFetch? { w' := Then(w, RefreshResponse(id, true)); }
  }

  /** A refresh of the current epoch comes out true: the store is filled under the login it was begun under. */
  lemma ComesOutTrue(w: Trace, id: nat, session: Session) returns (w': Trace)
    requires Sound(w) && id < |w.end.refreshes| && IsUnsettled(w.end.refreshes[id])
    requires w.end.refreshes[id].epoch == w.end.authEpoch
    ensures Sound(w') && Continues(w, w') && (NoLogin(w.steps) ==> NoLogin(w'.steps))
    ensures w'.end.store == Some(session) && w'.end.refreshPromise == None && RefreshIn(w'.end, id, Done(Refreshed))
    ensures w'.end.calls == w.end.calls && w'.end.wire == w.end.wire
    ensures Keeps(w.ledger, w.end) && w'.ledger == w.ledger.(store := w.ledger.refreshes[id])
  {
    var w1 := Responds(w, id);
    var w2 := Then(w1, RefreshParsed(id, session));
    w' := Then(w2, RefreshFinally(id));
  }

  /** Whatever refresh is stored, another than `id` can end without touching the store. */
  lemma LetsGo(w: Trace, id: nat) returns (w': Trace)
    requires Sound(w) && PromiseOk(w.end) && id < |w.end.refreshes|
    ensures Sound(w') && Continues(w, w') && (NoLogin(w.steps) ==> NoLogin(w'.steps))
    ensures w'.end.refreshPromise in {None, Some(id)} && w'.ledger == w.ledger
    ensures w'.end.calls == w.end.calls && w'.end.authEpoch == w.end.authEpoch
    ensures |w'.end.refreshes| == |w.end.refreshes| && w'.end.refreshes[id] == w.end.refreshes[id]
  {
    w' := w;
    if w.end.refreshPromise.Some? && w.end.refreshPromise != Some(id) {
      var p := w.end.refreshPromise.value;
      if IsUnsettled(w.end.refreshes[p]) { w' := Then(w, RefreshRejected(p)); }
      w' := Then(w', RefreshFinally(p));
    }
  }

  /** A request just sent is due again, under the login of the store. */
  lemma BecomesDue(w: Trace, c: nat, session: Session) returns (w': Trace)
    requires Sound(w) && c < |w.end.calls| && w.end.calls[c] == FRESH
    requires w.end.refreshPromise == None && Truthy(RefreshToken(w.end.store)).Some?
    ensures Sound(w') && Continues(w, w') && (NoLogin(w.steps) ==> NoLogin(w'.steps))
    ensures c < |w'.end.calls| && Verdict(w'.end, w'.end.calls[c]) == Some(Refreshed)
    ensures w'.end.store == Some(session) && w'.ledger.store == w.ledger.store
    ensures w'.end.wire == w.end.wire + [Sent(FromRefresh(|w.end.refreshes|), None, RefreshToken(w.end.store))]
  {
    var id := |w.end.refreshes|;
    var w1 := Asks(w, c, RefreshToken(w.end.store).value);
    w' := ComesOutTrue(w1, id, session);
  }

  // ----- the exact conditions

  /** Until the next login the store is filled only under the present one, whatever logouts and clears happen, if
      and only if no unsettled refresh of the current epoch was begun under another. */
  lemma {:induction false} StoreKeepsLoginIff(s: State, l: Ledger)
    requires Reachable(s) && Keeps(l, s)
    ensures (forall steps | Valid(s, steps) && NoLogin(steps) :: RecordRun(l, s, steps).store == l.store)
            <==> OneLogin(s, l)
  {
    ReachableInv(s);
    if OneLogin(s, l) {
      forall steps | Valid(s, steps) && NoLogin(steps) ensures RecordRun(l, s, steps).store == l.store {
        OneLoginRun(s, l, steps);
      }
    } else {
      var id :| 0 <= id < |s.refreshes| && IsUnsettled(s.refreshes[id]) && s.refreshes[id].epoch == s.authEpoch
        && l.refreshes[id] != l.store;
      var w := ComesOutTrue(Trace(s, l, [], s, l), id, Session("a", "r"));
      assert RecordRun(l, s, w.steps).store != l.store;
    }
  }

  lemma Opens(s: State, l: Ledger) returns (w: Trace)
    requires Keeps(l, s)
    ensures Sound(w) && w.steps == []
    ensures w.start == w.end == Apply(s, StartRequest(Json, true)) && w.opening == w.ledger == l
    ensures |w.end.calls| == |s.calls| + 1 && w.end.calls[|s.calls|] == FRESH
    ensures Record(l, s, StartRequest(Json, true)) == l
  {
    var start := Apply(s, StartRequest(Json, true));
    w := Trace(start, l, [], start, l);
  }

  /** A refresh begun under another login that can still write the store makes the retry use that login. */
  lemma ForeignRetry(s: State, l: Ledger, id: nat) returns (steps: seq<Step>)
    requires Inv(s) && Keeps(l, s) && id < |s.refreshes|
    requires IsUnsettled(s.refreshes[id]) && s.refreshes[id].epoch == s.authEpoch
    ensures RetryDue(s, Json, steps) && NoLogin(steps)
    ensures LoginAtRetry(s, l, Json, steps) == l.refreshes[id]
    ensures Truthy(AccessToken(AtRetry(s, Json, steps).store)).Some?
  {
    var session := Session("a", "r");
    var w := Opens(s, l);
    w := LetsGo(w, id);
    w := ComesOutTrue(w, id, session);
    w := BecomesDue(w, |s.calls|, session);
    steps := w.steps;
  }

  /** The two sends of one request belong to one login, in every continuation without a login between them, if and
      only if at the first send no refresh begun under another login can still write the store.  If one can, some
      such continuation sends the request again with a token of the other login. */
  lemma {:induction false} RetryKeepsLoginIff(s: State, l: Ledger)
    requires Reachable(s) && Keeps(l, s)
    ensures (forall variant, steps | RetryDue(s, variant, steps) && NoLogin(steps) ::
               LoginAtRetry(s, l, variant, steps) == l.store)
            <==> OneLogin(s, l)
    ensures !OneLogin(s, l) ==> exists variant, steps ::
              && RetryDue(s, variant, steps) && NoLogin(steps) && LoginAtRetry(s, l, variant, steps) != l.store
              && Truthy(AccessToken(AtRetry(s, variant, steps).store)).Some?
  {
    if OneLogin(s, l) {
      forall variant, steps | RetryDue(s, variant, steps) && NoLogin(steps)
        ensures LoginAtRetry(s, l, variant, steps) == l.store
      {
        RetryKeepsLogin(s, l, variant, steps);
      }
    } else {
      ReachableInv(s);
      var id :| 0 <= id < |s.refreshes| && IsUnsettled(s.refreshes[id]) && s.refreshes[id].epoch == s.authEpoch
        && l.refreshes[id] != l.store;
      var steps := ForeignRetry(s, l, id);
      assert RetryDue(s, Json, steps);
    }
  }

  /** The other half of the condition cannot be dropped either.  From every state: a request is sent, a logout and a
      login with the session `b` follow, the request is answered 401, refreshes with the token of `b` and is due again
      with the token that refresh brings, under the new login. */
  lemma {:induction false} RetryUnderAnotherLogin(s: State, l: Ledger, b: Session, c: Session)
    returns (steps: seq<Step>)
    requires Keeps(l, s) && l.store <= l.logins && b.refreshToken != ""
    ensures RetryDue(s, Json, steps) && LoginAtRetry(s, l, Json, steps) == l.logins + 1 != l.store
    ensures AtRetry(s, Json, steps).store == Some(c)
    ensures AtRetry(s, Json, steps).wire == s.wire + [
      Sent(FromRequest(|s.calls|), Truthy(AccessToken(s.store)), None),
      Sent(FromLogout(|s.logouts|), Truthy(AccessToken(s.store)), RefreshToken(s.store)),
      Sent(FromRefresh(|s.refreshes|), None, Some(b.refreshToken))]
  {
    var w := Opens(s, l);
    w := Then(w, StartLogout(None));
    w := Then(w, AppSetSession(b));
    w := BecomesDue(w, |s.calls|, c);
    steps := w.steps;
  }
}
