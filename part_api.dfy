/**
 * The `PartAPI` client object: its session state (the authentication flag
 * and token, paired), the rate-gated re-validation, the listener registry,
 * and the continuations that run when a response arrives. Each asynchronous
 * continuation is a method taking the response and the clock reading `now`
 * at which it runs; a request the client issues is returned to the caller,
 * whose response later comes back through the matching continuation.
 */
module PartApi {
  import opened Wrappers
  import opened Transport
  import opened Gateway
  import opened Registry
  import opened RateGate

  /** The one event the client publishes, with the new value of the flag. */
  const AuthenticatedEvent: Event := "authenticated"

  /** The "who am I" request of `checkAuthentification`. */
  function CheckRequest(endpoint: string): Request {
    Request(endpoint + "/authenticated", Get, NoBody)
  }

  /** The flag (`null`, `true` or `false`) and the token, which change together. */
  datatype AuthState = AuthState(authenticated: Option<bool>, token: Option<Payload>)

  /** The pairing invariant: unless the flag is `true` there is no token. */
  predicate Paired(s: AuthState) {
    s.authenticated != Some(true) ==> s.token == None
  }

  /**
   * The session both continuations leave behind once the gateway call has
   * settled with `g`: authenticated with the returned `data` as token, or not
   * authenticated and without a token.
   */
  function Settle(g: Outcome<Envelope>): (s: AuthState)
    ensures Paired(s)
    ensures s.authenticated == Some(g.Resolved?)
    ensures g.Resolved? ==> s.token == g.value.data
  {
    if g.Resolved? then AuthState(Some(true), g.value.data) else AuthState(Some(false), None)
  }

  class PartAPI {
    const apiEndpoint: string
    var authenticated: Option<bool>
    var authenticationToken: Option<Payload>
    var listeners: Listeners
    var lastAuthenticationCheck: int
    /** Every listener invocation made so far, oldest first: what the listeners observe. */
    var delivered: seq<Delivery>

    function Auth(): AuthState
      reads this
    {
      AuthState(authenticated, authenticationToken)
    }

    /** The object invariant: the flag and the token are paired. */
    predicate Valid()
      reads this
    {
      Paired(Auth())
    }

    /**
     * What a call of `checkAuthentification` at `now` did, given the time
     * `last` recorded before it, when it was made exactly if `made` holds.
     */
    ghost predicate RevalidatedIf(made: bool, last: int, now: int, check: Option<Request>)
      reads this
    {
      && check == (if made && GateOpen(last, now) then Some(CheckRequest(apiEndpoint)) else None)
      && lastAuthenticationCheck == (if made then AfterCheck(last, now) else last)
    }

    /** A falsy endpoint (absent or empty) becomes the empty prefix. */
    constructor (endpoint: Option<string>)
      ensures apiEndpoint == (if Truthy(endpoint) then endpoint.value else "")
      ensures authenticated == None && authenticationToken == None
      ensures listeners == map[] && delivered == []
      ensures lastAuthenticationCheck == 0
      ensures Valid()
    {
      apiEndpoint := if Truthy(endpoint) then endpoint.value else "";
      authenticated := None;
      authenticationToken := None;
      listeners := map[];
      lastAuthenticationCheck := 0;
      delivered := [];
    }

    /**
     * The rate-gated re-validation: within the interval nothing happens;
     * otherwise the time is recorded and exactly one request is issued.
     */
    method CheckAuthentification(now: int) returns (request: Option<Request>)
      modifies this`lastAuthenticationCheck
      ensures !GateOpen(old(lastAuthenticationCheck), now) ==>
                request == None && lastAuthenticationCheck == old(lastAuthenticationCheck)
      ensures GateOpen(old(lastAuthenticationCheck), now) ==>
                request == Some(CheckRequest(apiEndpoint)) && lastAuthenticationCheck == now
      ensures lastAuthenticationCheck == AfterCheck(old(lastAuthenticationCheck), now)
    {
      if now - lastAuthenticationCheck < MinCheckInterval {
        request := None;
        return;
      }
      lastAuthenticationCheck := now;
      request := Some(CheckRequest(apiEndpoint));
    }

    /**
     * The gateway's handler for a settled `fetch`: without a response it
     * passes the transport's error on; with one it asks for re-validation on
     * an unauthorized response, then settles as `Classify` says.
     */
    method OnFetchSettled(r: FetchResult, now: int) returns (outcome: Outcome<Envelope>, check: Option<Request>)
      modifies this`lastAuthenticationCheck
      ensures outcome == GatewayOutcome(r)
      ensures RevalidatedIf(GatewayRevalidates(r), old(lastAuthenticationCheck), now, check)
    {
      check := None;
      if r.TransportFailed? {
        outcome := Rejected(TransportError);
        return;
      }
      var res := r.response;
      if !res.ok {
        if res.status == 401 {
          check := CheckAuthentification(now);
        }
        if Truthy(res.message) {
          outcome := Rejected(Error(res.message.value));
        } else if res.body.Json? {
          outcome := Rejected(Error(ErrorMessage(res.body.envelope.message)));
        } else {
          outcome := Rejected(ParseError);
        }
      } else if res.body.Json? {
        outcome := Resolved(res.body.envelope);
      } else {
        outcome := Rejected(ParseError);
      }
    }

    /** The login request `authenticate(username, password)` sends through the gateway. */
    method Authenticate(username: string, password: string) returns (request: Request)
      ensures request.url == apiEndpoint + "/authenticate"
      ensures request.verb == Post
      ensures request.body == Credentials(username, password)
    {
      request := Request(apiEndpoint + "/authenticate", Post, Credentials(username, password));
    }

    /**
     * The continuations of `authenticate`, run once the login `fetch`
     * settles: the session is settled, listeners hear the new flag once, and
     * a failure is passed on to the caller unchanged, after the notification.
     */
    method OnAuthenticateSettled(r: FetchResult, now: int) returns (outcome: Outcome<()>, check: Option<Request>)
      modifies this`lastAuthenticationCheck, this`authenticated, this`authenticationToken, this`delivered
      ensures RevalidatedIf(GatewayRevalidates(r), old(lastAuthenticationCheck), now, check)
      ensures Auth() == Settle(GatewayOutcome(r)) && Valid()
      ensures delivered == old(delivered) + Deliveries(ListenersOf(listeners, AuthenticatedEvent), GatewayOutcome(r).Resolved?)
      ensures outcome.Resolved? <==> GatewayOutcome(r).Resolved?
      ensures outcome.Rejected? ==> outcome.error == GatewayOutcome(r).error
    {
      var g;
      g, check := OnFetchSettled(r, now);
      if g.Resolved? {
        authenticated := Some(true);
        authenticationToken := g.value.data;
        Notify(AuthenticatedEvent, true);
        outcome := Resolved(());
      } else {
        authenticated := Some(false);
        authenticationToken := None;
        Notify(AuthenticatedEvent, false);
        outcome := Rejected(g.error);
      }
    }

    /**
     * The continuations of `checkAuthentification`, run once the "who am I"
     * `fetch` settles; it passes through the gateway like any other (so a 401
     * here asks, rate-gated, for one more check). The session is settled and
     * listeners hear the new flag once; a failure, a network failure
     * included, goes no further.
     */
    method OnCheckSettled(r: FetchResult, now: int) returns (check: Option<Request>)
      modifies this`lastAuthenticationCheck, this`authenticated, this`authenticationToken, this`delivered
      ensures RevalidatedIf(GatewayRevalidates(r), old(lastAuthenticationCheck), now, check)
      ensures Auth() == Settle(GatewayOutcome(r)) && Valid()
      ensures delivered == old(delivered) + Deliveries(ListenersOf(listeners, AuthenticatedEvent), GatewayOutcome(r).Resolved?)
    {
      var g;
      g, check := OnFetchSettled(r, now);
      if g.Resolved? {
        authenticated := Some(true);
        authenticationToken := g.value.data;
        Notify(AuthenticatedEvent, true);
      } else {
        authenticated := Some(false);
        authenticationToken := None;
        Notify(AuthenticatedEvent, false);
      }
    }

    /** `addListener`: appends, allowing duplicates; other events are untouched. */
    method AddListener(event: Event, listener: ListenerId)
      modifies this`listeners
      ensures listeners == Subscribe(old(listeners), event, listener)
    {
      if event !in listeners {
        listeners := listeners[event := []];
      }
      listeners := listeners[event := listeners[event] + [listener]];
    }

    /** `removeListener`: drops every occurrence of `listener` from the list for `event`, if any. */
    method RemoveListener(event: Event, listener: ListenerId)
      modifies this`listeners
      ensures listeners == Unsubscribe(old(listeners), event, listener)
    {
      if event in listeners {
        listeners := listeners[event := Without(listeners[event], listener)];
      }
    }

    /** `notify`: invokes each listener registered for `event`, in order, with `value`. */
    method Notify(event: Event, value: bool)
      modifies this`delivered
      ensures delivered == old(delivered) + Deliveries(ListenersOf(listeners, event), value)
    {
      if event in listeners {
        var ls := listeners[event];
        var i := 0;
        while i < |ls|
          invariant 0 <= i <= |ls|
          invariant delivered == old(delivered) + Deliveries(ls[..i], value)
        {
          assert Deliveries(ls[..i + 1], value) == Deliveries(ls[..i], value) + [Delivery(ls[i], value)];
          delivered := delivered + [Delivery(ls[i], value)];
          i := i + 1;
        }
        assert ls[..i] == ls;
      }
    }

    /**
     * The handler of an upload's `XMLHttpRequest`, shared by `getDataTypes`
     * and `uploadDataFile`. On `load`, status 401 asks for re-validation and
     * the promise settles as `ClassifyUpload` says. There is no `error`
     * handler, so on a network error the promise never settles.
     */
    method OnUploadEvent(e: XhrEvent, now: int) returns (outcome: UploadOutcome, check: Option<Request>)
      modifies this`lastAuthenticationCheck
      ensures e.NetworkError? ==> outcome == UploadUnsettled
      ensures e.Loaded? ==> outcome == ClassifyUpload(e.status, e.statusText, e.responseText)
      ensures RevalidatedIf(e.Loaded? && e.status == 401, old(lastAuthenticationCheck), now, check)
    {
      check := None;
      if e.NetworkError? {
        outcome := UploadUnsettled;
      } else if e.status != 200 {
        if e.status == 401 {
          check := CheckAuthentification(now);
        }
        outcome := UploadRejected(RejectionReason(e.status, e.statusText));
      } else if e.responseText.Json? {
        outcome := UploadResolved(e.responseText.envelope);
      } else {
        outcome := UploadUnsettled;
      }
    }
  }

  /**
   * Two unauthorized responses handled less than the interval apart send at
   * most one "who am I" request between them; handled the interval or more
   * apart (on a clock that has not gone back), the second always sends one.
   */
  method TwoUnauthorizedResponses(api: PartAPI, r1: Response, r2: Response, t1: int, t2: int)
    returns (c1: Option<Request>, c2: Option<Request>)
    requires TriggersRevalidation(r1) && TriggersRevalidation(r2)
    modifies api`lastAuthenticationCheck
    ensures t2 - t1 < MinCheckInterval ==> !(c1.Some? && c2.Some?)
    ensures old(api.lastAuthenticationCheck) <= t1 && t2 - t1 >= MinCheckInterval ==> c2.Some?
  {
    var o1, o2;
    o1, c1 := api.OnFetchSettled(Received(r1), t1);
    o2, c2 := api.OnFetchSettled(Received(r2), t2);
  }
}
