/**
 The API client as an object whose methods update its fields, one method for each piece of code
 between two awaits.  Every method is proved to take exactly one step of the protocol machine.
 */
module ApiClient {
  import opened Wrappers
  import P = SessionProtocol
  import I = SessionInvariants

  /** The application's token store, an empty one when it holds no session. */
  class TokenStore {
    var session: Option<P.Session>

    constructor (session: Option<P.Session>)
      ensures this.session == session
    {
      this.session := session;
    }

    method GetAccessToken() returns (token: Option<string>)
      ensures token == P.AccessToken(session)
    {
      if session.Some? { return Some(session.value.accessToken); }
      return None;
    }

    method GetRefreshToken() returns (token: Option<string>)
      ensures token == P.RefreshToken(session)
    {
      if session.Some? { return Some(session.value.refreshToken); }
      return None;
    }

    method SetSession(session: P.Session)
      modifies this
      ensures this.session == Some(session)
    {
      this.session := Some(session);
    }

    method Clear()
      modifies this
      ensures session == None
    {
      session := None;
    }
  }

  class Client {
    const tokenStore: TokenStore
    var refreshPromise: Option<nat>
    var authEpoch: nat
    // The suspended calls, and the record of what was sent.
    var refreshes: seq<P.Refresh>
    var calls: seq<P.Call>
    var logouts: seq<bool>
    var wire: seq<P.Sent>

    /** The protocol state this object represents. */
    function State(): P.State
      reads this, tokenStore
    {
      P.State(authEpoch, refreshPromise, tokenStore.session, refreshes, calls, logouts, wire)
    }

    ghost predicate Valid()
      reads this, tokenStore
    {
      P.Reachable(State())
    }

    constructor (tokenStore: TokenStore)
      ensures Valid() && P.Initial(State()) && this.tokenStore == tokenStore && State().store == tokenStore.session
    {
      this.tokenStore := tokenStore;
      refreshPromise, authEpoch := None, 0;
      refreshes, calls, logouts, wire := [], [], [], [];
      new;
      assert P.Valid(State(), []) && P.Run(State(), []) == State();
    }

    method BuildHeaders(auth: bool) returns (authorization: Option<string>)
      ensures authorization == P.Bearer(tokenStore.session, auth)
    {
      authorization := None;
      var accessToken := tokenStore.GetAccessToken();
      if auth && accessToken.Some? && accessToken.value != "" { authorization := accessToken; }
    }

    /** One `fetch` of request `c`. */
    method SendRequest(c: nat)
      requires c < |calls| && calls[c].kind.Request?
      modifies this`wire
      ensures State() == P.Send(old(State()), c)
    {
      var authorization := BuildHeaders(calls[c].kind.auth);
      wire := wire + [P.Sent(P.FromRequest(c), authorization, None)];
    }

    method StartRequest(variant: P.Variant, auth: bool) returns (c: nat)
      requires Valid()
      modifies this
      ensures Valid() && c == |old(calls)|
      ensures State() == P.Apply(old(State()), P.StartRequest(variant, auth))
    {
      ghost var before := State();
      c := |calls|;
      calls := calls + [P.Call(P.Request(variant, auth), P.AwaitResponse(false), [], false, None, None)];
      SendRequest(c);
      P.ReachableByStep(before, P.StartRequest(variant, auth));
    }

    /** The synchronous part of `refreshStoredSession`, entered by call `c`. */
    method RefreshStoredSession(c: nat)
      requires c < |calls|
      modifies this
      ensures State() == P.AskRefresh(old(State()), c)
      ensures var session, before := tokenStore.session, old(calls[c]);
        if session.None? || session.value.refreshToken == "" then
          && calls == old(calls)[c := before.(phase := P.AwaitRefusal, asked := true)]
          && refreshPromise == old(refreshPromise) && refreshes == old(refreshes) && wire == old(wire)
        else
          && refreshPromise == (if old(refreshPromise).Some? then old(refreshPromise) else Some(|old(refreshes)|))
          && calls == old(calls)[c := before.(
                phase := P.AwaitRefresh(refreshPromise.value), asked := true, joined := refreshPromise)]
          && (if old(refreshPromise).Some? then refreshes == old(refreshes) && wire == old(wire)
              else |refreshes| == |old(refreshes)| + 1 && |wire| == |old(wire)| + 1)
    {
      var refreshToken := tokenStore.GetRefreshToken();
      if refreshToken.None? || refreshToken.value == "" {
        calls := calls[c := calls[c].(phase := P.AwaitRefusal, asked := true)];
        return;
      }
      var epoch := authEpoch;
      if refreshPromise.None? {
        FetchRefreshSession(refreshToken.value, epoch);
        refreshPromise := Some(|refreshes| - 1);
      }
      calls := calls[c := calls[c].(
                       phase := P.AwaitRefresh(refreshPromise.value), asked := true, joined := refreshPromise)];
    }

    /** The part of `fetchRefreshSession` up to its `fetch`. */
    method FetchRefreshSession(refreshToken: string, epoch: nat)
      modifies this`refreshes, this`wire
      ensures refreshes == old(refreshes) + [P.Refresh(refreshToken, epoch, P.AwaitFetch)]
      ensures wire == old(wire) + [P.Sent(P.FromRefresh(|old(refreshes)|), None, Some(refreshToken))]
    {
      var authorization := BuildHeaders(false);
      wire := wire + [P.Sent(P.FromRefresh(|refreshes|), authorization, Some(refreshToken))];
      refreshes := refreshes + [P.Refresh(refreshToken, epoch, P.AwaitFetch)];
    }

    method StartRefreshSession() returns (c: nat)
      requires Valid()
      modifies this
      ensures Valid() && c == |old(calls)|
      ensures State() == P.Apply(old(State()), P.StartRefreshSession)
    {
      ghost var before := State();
      c := |calls|;
      calls := calls + [P.Call(P.ExplicitRefresh, P.AwaitRefusal, [], true, None, None)];
      RefreshStoredSession(c);
      P.ReachableByStep(before, P.StartRefreshSession);
    }

    method ResponseArrived(c: nat, result: P.FetchResult)
      requires Valid() && P.Enabled(State(), P.ResponseArrived(c, result))
      modifies this
      ensures Valid() && State() == P.Apply(old(State()), P.ResponseArrived(c, result))
    {
      ghost var before := State();
      var call := calls[c];
      if result.FetchRejected? {
        calls := calls[c := call.(phase := P.Rejected)];
      } else {
        var status := result.code;
        calls := calls[c := call.(statuses := call.statuses + [status])];
        if call.kind.variant != P.Blob {
          calls := calls[c := calls[c].(phase := P.AwaitBody(call.phase.last, status))];
        } else if status == 401 && call.kind.auth && !call.phase.last {
          RefreshStoredSession(c);
        } else {
          calls := calls[c := calls[c].(phase := P.AwaitBody(true, status))];
        }
      }
      P.ReachableByStep(before, P.ResponseArrived(c, result));
    }

    method BodyArrived(c: nat, parsed: bool)
      requires Valid() && P.Enabled(State(), P.BodyArrived(c, parsed))
      modifies this
      ensures Valid() && State() == P.Apply(old(State()), P.BodyArrived(c, parsed))
    {
      ghost var before := State();
      var call := calls[c];
      assert call.kind.Request? by { I.ReachableInv(State()); assert I.CallOk(State(), call); }
      if !parsed {
        calls := calls[c := call.(phase := P.Rejected)];
      } else if call.phase.status == 401 && call.kind.auth && !call.phase.last {
        RefreshStoredSession(c);
      } else {
        calls := calls[c := call.(phase := if P.IsOk(call.phase.status) then P.Resolved else P.Rejected)];
      }
      P.ReachableByStep(before, P.BodyArrived(c, parsed));
    }

    method WaiterResumed(c: nat)
      requires Valid() && P.Enabled(State(), P.WaiterResumed(c))
      modifies this
      ensures Valid() && State() == P.Apply(old(State()), P.WaiterResumed(c))
    {
      ghost var before := State();
      var call := calls[c];
      var outcome := if call.phase.AwaitRefusal? then P.NotRefreshed else refreshes[call.phase.id].phase.outcome;
      call := call.(verdict := Some(outcome));
      if call.kind.ExplicitRefresh? {
        calls := calls[c := call.(phase := if outcome == P.Threw then P.Rejected else P.Resolved)];
      } else if outcome == P.Refreshed {
        calls := calls[c := call.(phase := P.AwaitResponse(true))];
        SendRequest(c);
      } else if outcome == P.NotRefreshed && call.kind.variant == P.Blob {
        calls := calls[c := call.(phase := P.AwaitBody(true, 401))];
      } else {
        calls := calls[c := call.(phase := P.Rejected)];
      }
      P.ReachableByStep(before, P.WaiterResumed(c));
    }

    method RefreshRejected(id: nat)
      requires Valid() && P.Enabled(State(), P.RefreshRejected(id))
      modifies this
      ensures Valid() && State() == P.Apply(old(State()), P.RefreshRejected(id))
    {
      ghost var before := State();
      refreshes := refreshes[id := refreshes[id].(phase := P.Settled(P.Threw))];
      P.ReachableByStep(before, P.RefreshRejected(id));
    }

    method RefreshResponse(id: nat, ok: bool)
      requires Valid() && P.Enabled(State(), P.RefreshResponse(id, ok))
      modifies this, tokenStore
      ensures Valid() && State() == P.Apply(old(State()), P.RefreshResponse(id, ok))
    {
      ghost var before := State();
      if ok {
        refreshes := refreshes[id := refreshes[id].(phase := P.AwaitJson)];
      } else {
        tokenStore.Clear();
        refreshes := refreshes[id := refreshes[id].(phase := P.Settled(P.NotRefreshed))];
      }
      P.ReachableByStep(before, P.RefreshResponse(id, ok));
    }

    method RefreshParsed(id: nat, session: P.Session)
      requires Valid() && P.Enabled(State(), P.RefreshParsed(id, session))
      modifies this, tokenStore
      ensures Valid() && State() == P.Apply(old(State()), P.RefreshParsed(id, session))
    {
      ghost var before := State();
      var outcome := P.Refreshed;
      if refreshes[id].epoch != authEpoch {
        tokenStore.Clear();
        outcome := P.NotRefreshed;
      } else {
        tokenStore.SetSession(session);
      }
      refreshes := refreshes[id := refreshes[id].(phase := P.Settled(outcome))];
      P.ReachableByStep(before, P.RefreshParsed(id, session));
    }

    method RefreshFinally(id: nat)
      requires Valid() && P.Enabled(State(), P.RefreshFinally(id))
      modifies this
      ensures Valid() && State() == P.Apply(old(State()), P.RefreshFinally(id))
    {
      ghost var before := State();
      refreshPromise := None;
      refreshes := refreshes[id := refreshes[id].(phase := P.Done(refreshes[id].phase.outcome))];
      P.ReachableByStep(before, P.RefreshFinally(id));
    }

    /** `logout` up to and including its `fetch`. */
    method StartLogout(inputToken: Option<string>) returns (l: nat)
      requires Valid()
      modifies this, tokenStore
      ensures Valid() && l == |old(logouts)|
      ensures State() == P.Apply(old(State()), P.StartLogout(inputToken))
    {
      ghost var before := State();
      var accessToken := tokenStore.GetAccessToken();
      var storedToken := tokenStore.GetRefreshToken();
      var refreshToken := if inputToken.Some? then inputToken else storedToken;
      authEpoch := authEpoch + 1;
      refreshPromise := None;
      tokenStore.Clear();
      var authorization := BuildHeaders(false);
      if accessToken.Some? && accessToken.value != "" { authorization := accessToken; }
      l := |logouts|;
      logouts := logouts + [true];
      wire := wire + [P.Sent(P.FromLogout(l), authorization, refreshToken)];
      P.ReachableByStep(before, P.StartLogout(inputToken));
    }

    method LogoutFinally(l: nat)
      requires Valid() && P.Enabled(State(), P.LogoutFinally(l))
      modifies this, tokenStore
      ensures Valid() && State() == P.Apply(old(State()), P.LogoutFinally(l))
    {
      ghost var before := State();
      tokenStore.Clear();
      logouts := logouts[l := false];
      P.ReachableByStep(before, P.LogoutFinally(l));
    }

    /** The application writes the store it shares with the client. */
    method AppSetSession(session: P.Session)
      requires Valid()
      modifies tokenStore
      ensures Valid() && State() == P.Apply(old(State()), P.AppSetSession(session))
    {
      ghost var before := State();
      tokenStore.SetSession(session);
      P.ReachableByStep(before, P.AppSetSession(session));
    }

    method AppClear()
      requires Valid()
      modifies tokenStore
      ensures Valid() && State() == P.Apply(old(State()), P.AppClear)
    {
      ghost var before := State();
      tokenStore.Clear();
      P.ReachableByStep(before, P.AppClear);
    }

    method Perform(step: P.Step)
      requires Valid() && P.Enabled(State(), step)
      modifies this, tokenStore
      ensures Valid() && State() == P.Apply(old(State()), step)
    {
      match step
      case StartRequest(variant, auth) => var _ := StartRequest(variant, auth);
      case ResponseArrived(c, result) => ResponseArrived(c, result);
      case BodyArrived(c, parsed) => BodyArrived(c, parsed);
      case StartRefreshSession => var _ := StartRefreshSession();
      case WaiterResumed(c) => WaiterResumed(c);
      case RefreshRejected(id) => RefreshRejected(id);
      case RefreshResponse(id, ok) => RefreshResponse(id, ok);
      case RefreshParsed(id, session) => RefreshParsed(id, session);
      case RefreshFinally(id) => RefreshFinally(id);
      case StartLogout(inputToken) => var _ := StartLogout(inputToken);
      case LogoutFinally(l) => LogoutFinally(l);
      case AppSetSession(session) => AppSetSession(session);
      case AppClear => AppClear();
    }

    /** The event loop: any run of the machine is carried out by the object, and ends in its state. */
    method PerformAll(steps: seq<P.Step>)
      requires Valid() && P.Valid(State(), steps)
      modifies this, tokenStore
      ensures Valid() && State() == P.Run(old(State()), steps)
    {
      var i := 0;
      while i < |steps|
        invariant 0 <= i <= |steps|
        invariant Valid() && P.Valid(State(), steps[i..])
        invariant P.Run(State(), steps[i..]) == P.Run(old(State()), steps)
      {
        assert steps[i..][0] == steps[i] && steps[i..][1..] == steps[i + 1..];
        Perform(steps[i]);
        i := i + 1;
      }
    }
  }
}
