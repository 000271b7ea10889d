/**
 * The shared HTTP client (src/api/index.ts): a request interceptor that adds
 * the bearer token, a success interceptor that strips the `data` envelope,
 * and an error interceptor that refreshes an expired access token once and
 * replays every request that failed while the refresh was in flight.
 *
 * The error interceptor is an async function with one `await`, the refresh
 * call. On a single-threaded event loop each part of it between suspension
 * points runs atomically, so it is modelled as two steps: `HandleError` (up
 * to and including issuing the refresh call) and `CompleteRefresh` (what runs
 * when the refresh call settles). Between the two, any number of other
 * errors may be handled. `Client` is the state these steps share; the class
 * `ApiClient` holds it as the module holds it, in mutable variables and in
 * `localStorage`.
 */
module Api {
  import opened Wrappers
  import opened Js
  import opened WebStorage

  const TokenKey := "token"
  const RefreshTokenKey := "refreshToken"
  const AuthorizationHeader := "Authorization"
  /** Where every unrecoverable authentication failure sends the browser */
  const LoginBefore := "/login-before"

  type ReqId = nat

  /** The part of an axios request config the interceptors read and write */
  datatype Request = Request(id: ReqId, headers: map<string, string>, retry: bool)

  /** An axios error: the status of the HTTP response, if one arrived, and the config of the failed request */
  datatype HttpError = HttpError(status: Option<int>, config: Request)

  function Bearer(token: string): string {
    "Bearer " + token
  }

  /** The request with its `Authorization` header set and nothing else changed */
  function WithAuthorization(config: Request, value: string): (r: Request)
    ensures r.id == config.id && r.retry == config.retry
    ensures AuthorizationHeader in r.headers && r.headers[AuthorizationHeader] == value
    ensures r.headers - {AuthorizationHeader} == config.headers - {AuthorizationHeader}
  {
    config.(headers := config.headers[AuthorizationHeader := value])
  }

  /** `localStorage.getItem('token')` is truthy */
  predicate HasToken(storage: map<string, string>) {
    TokenKey in storage && storage[TokenKey] != ""
  }

  /** `localStorage.getItem('refreshToken')` is truthy */
  predicate HasRefreshToken(storage: map<string, string>) {
    RefreshTokenKey in storage && storage[RefreshTokenKey] != ""
  }

  // ---------------------------------------------------------------------------
  // Request and success interceptors
  // ---------------------------------------------------------------------------

  /** The request interceptor: `Bearer <token>` exactly when a non-empty token is stored */
  function AttachBearer(config: Request, storage: map<string, string>): (r: Request)
    ensures r.id == config.id && r.retry == config.retry
    ensures r.headers - {AuthorizationHeader} == config.headers - {AuthorizationHeader}
    ensures HasToken(storage) ==>
              AuthorizationHeader in r.headers && r.headers[AuthorizationHeader] == Bearer(storage[TokenKey])
    ensures !HasToken(storage) ==> r == config
  {
    if HasToken(storage) then WithAuthorization(config, Bearer(storage[TokenKey])) else config
  }

  /** Sending a request again runs the interceptor again; the header does not accumulate. */
  lemma AttachBearerIdempotent(config: Request, storage: map<string, string>)
    ensures AttachBearer(AttachBearer(config, storage), storage) == AttachBearer(config, storage)
  {
  }

  /**
   * The success interceptor: the body's `data` property when there is one,
   * else the body. Only a plain object with a `data` key is unwrapped; arrays
   * and primitives pass unchanged.
   */
  function Unwrap(body: Value): (r: Value)
    ensures body.Obj? && HasField(body.fields, "data") ==> r == FieldValue(body.fields, "data")
    ensures !(body.Obj? && HasField(body.fields, "data")) ==> r == body
  {
    NotAnArrayKey(body, "data");
    if Truthy(body) && IsObject(body) && HasKey(body, "data") then Get(body, "data") else body
  }

  /** The server's envelope around a payload */
  function Envelope(payload: Value): Value {
    Obj([("data", payload)])
  }

  /** Unwrapping undoes one envelope, and only one. */
  lemma UnwrapEnvelope(payload: Value)
    ensures Unwrap(Envelope(payload)) == payload
    ensures Unwrap(Envelope(Envelope(payload))) == Envelope(payload)
  {
    assert Envelope(payload).fields[0].0 == "data";
    assert Envelope(Envelope(payload)).fields[0].0 == "data";
  }

  // ---------------------------------------------------------------------------
  // Error interceptor: the refresh protocol
  // ---------------------------------------------------------------------------

  /**
   * The state the error interceptor works on: `localStorage`, the module's
   * `isRefreshing` flag and `pendingQueue` (each queued callback is the
   * request it will resend), the config held by the handler that is
   * suspended at the refresh call, and the browser location.
   */
  datatype Client = Client(
    storage: map<string, string>,
    refreshing: bool,
    queue: seq<Request>,
    awaiting: Option<Request>,
    location: string)

  /**
   * A handler is suspended at the refresh call exactly while the flag is
   * set; the request it holds is marked as retried, and no queued request is.
   */
  ghost predicate ClientInv(c: Client) {
    && (c.refreshing <==> c.awaiting.Some?)
    && (c.awaiting.Some? ==> c.awaiting.value.retry)
    && (forall i :: 0 <= i < |c.queue| ==> !c.queue[i].retry)
  }

  predicate Unauthorized(err: HttpError) {
    err.status == Some(401)
  }

  /** The refresh-token call: its `refreshToken` query parameter and its `Authorization` header */
  datatype RefreshCall = RefreshCall(refreshToken: string, authorization: string)

  /** How the first part of the error handler ends */
  datatype ErrorStep =
    | Rejected                       // the handler's promise rejects with the error
    | Queued                         // the handler's promise waits for the next successful refresh
    | RefreshCalled(call: RefreshCall) // the handler suspends on the refresh call

  datatype Transition = Transition(next: Client, step: ErrorStep)

  /** A template literal prints a missing stored token as `null`. */
  function TokenText(stored: Option<string>): string {
    if stored.Some? then stored.value else "null"
  }

  /** The error interceptor up to the `await` of the refresh call */
  function HandleError(c: Client, err: HttpError): (t: Transition)
    // Anything but a 401 is rejected and nothing changes.
    ensures !Unauthorized(err) ==> t == Transition(c, Rejected)
    // A refresh call is issued exactly when none is in flight and the request was not retried yet.
    ensures t.step.RefreshCalled? <==>
              Unauthorized(err) && !err.config.retry && HasRefreshToken(c.storage) && !c.refreshing
    ensures t.step.RefreshCalled? ==>
              && t.next == c.(refreshing := true, awaiting := Some(err.config.(retry := true)))
              && t.step.call.refreshToken == c.storage[RefreshTokenKey]
              && t.step.call.authorization == Bearer(TokenText(Lookup(c.storage, TokenKey)))
    // While a refresh is in flight the request joins the end of the queue, and nothing else changes.
    ensures t.step.Queued? <==>
              Unauthorized(err) && !err.config.retry && HasRefreshToken(c.storage) && c.refreshing
    ensures t.step.Queued? ==> t.next == c.(queue := c.queue + [err.config])
    // A second 401 ends the session: both tokens go, and the browser leaves.
    ensures Unauthorized(err) && err.config.retry ==>
              && t.step.Rejected?
              && t.next.storage == c.storage - {TokenKey, RefreshTokenKey}
              && t.next.location == LoginBefore
              && t.next.(storage := c.storage, location := c.location) == c
    // Without a refresh token only the access token goes, before the in-flight check.
    ensures Unauthorized(err) && !err.config.retry && !HasRefreshToken(c.storage) ==>
              && t.step.Rejected?
              && t.next.storage == c.storage - {TokenKey}
              && t.next.location == LoginBefore
              && t.next.(storage := c.storage, location := c.location) == c
    ensures ClientInv(c) ==> ClientInv(t.next)
  {
    if !Unauthorized(err) then
      Transition(c, Rejected)
    else if err.config.retry then
      Transition(c.(storage := c.storage - {TokenKey, RefreshTokenKey}, location := LoginBefore), Rejected)
    else if !HasRefreshToken(c.storage) then
      Transition(c.(storage := c.storage - {TokenKey}, location := LoginBefore), Rejected)
    else if c.refreshing then
      Transition(c.(queue := c.queue + [err.config]), Queued)
    else
      var call := RefreshCall(c.storage[RefreshTokenKey], Bearer(TokenText(Lookup(c.storage, TokenKey))));
      Transition(c.(refreshing := true, awaiting := Some(err.config.(retry := true))), RefreshCalled(call))
  }

  /** What the refresh call settled with: a rejection, or the HTTP body of its response */
  datatype RefreshResult = RefreshFailed | RefreshSucceeded(body: Value)

  /** How the handler ends once the refresh call has settled */
  datatype FinishStep =
    | RefreshRejected                  // the handler rejects with the refresh error
    | Resent(dispatched: seq<Request>) // requests sent again, in this order; the last is the handler's own

  datatype Completion = Completion(next: Client, step: FinishStep)

  /**
   * The `accessToken` and `refreshToken` properties of `data.data || data`.
   * Reading `.data` of a missing body throws, which the handler's `catch`
   * treats as a failed refresh.
   */
  function IssuedTokens(result: RefreshResult): (r: Option<(Value, Value)>)
    ensures r.Some? <==> result.RefreshSucceeded? && !IsNullish(result.body)
  {
    match result
    case RefreshFailed => None
    case RefreshSucceeded(body) =>
      if IsNullish(body) then None
      else
        var payload := if Truthy(Get(body, "data")) then Get(body, "data") else body;
        Some((Get(payload, "accessToken"), Get(payload, "refreshToken")))
  }

  /** The tokens are found both inside the `data` envelope and at the top level of the body. */
  lemma IssuedTokensEitherShape(access: string, renewed: string)
    ensures IssuedTokens(RefreshSucceeded(Envelope(Obj([("accessToken", Str(access)), ("refreshToken", Str(renewed))]))))
            == Some((Str(access), Str(renewed)))
    ensures IssuedTokens(RefreshSucceeded(Obj([("accessToken", Str(access))])))
            == Some((Str(access), Undefined))
  {
    var inner := Obj([("accessToken", Str(access)), ("refreshToken", Str(renewed))]);
    assert Get(Envelope(inner), "data") == inner;
    assert Get(inner, "accessToken") == Str(access);
    assert "accessToken"[0] != "refreshToken"[0];
    assert inner.fields[0].0 != "refreshToken";
    assert inner.fields[1..] == [("refreshToken", Str(renewed))];
    assert FieldValue(inner.fields, "refreshToken") == FieldValue([("refreshToken", Str(renewed))], "refreshToken");
    assert Get(inner, "refreshToken") == Str(renewed);
  }

  /** `pendingQueue.forEach(cb => cb(accessToken))`: each queued request, with the new header */
  function Replays(queue: seq<Request>, bearer: string): (r: seq<Request>)
    ensures |r| == |queue|
    ensures forall i :: 0 <= i < |queue| ==>
              && r[i].id == queue[i].id && r[i].retry == queue[i].retry
              && AuthorizationHeader in r[i].headers && r[i].headers[AuthorizationHeader] == bearer
              && r[i].headers - {AuthorizationHeader} == queue[i].headers - {AuthorizationHeader}
  {
    seq(|queue|, i requires 0 <= i < |queue| => WithAuthorization(queue[i], bearer))
  }

  /** The error interceptor from the settling of the refresh call to its `finally` */
  function CompleteRefresh(c: Client, result: RefreshResult): (d: Completion)
    requires c.awaiting.Some?
    // The flag is cleared on both exits.
    ensures !d.next.refreshing && d.next.awaiting.None?
    // Failure: both tokens go, the browser leaves, and the queue is kept as it is.
    ensures IssuedTokens(result).None? ==>
              && d.step.RefreshRejected?
              && d.next.storage == c.storage - {TokenKey, RefreshTokenKey}
              && d.next.location == LoginBefore
              && d.next.queue == c.queue
    // Success: the new token is stored, the refresh token only when a new one came, the queue
    // is replayed in arrival order and emptied, then the handler's own request is resent.
    ensures IssuedTokens(result).Some? ==>
              var access := IssuedTokens(result).value.0;
              var renewed := IssuedTokens(result).value.1;
              var bearer := Bearer(ToStr(access));
              && TokenKey in d.next.storage && d.next.storage[TokenKey] == ToStr(access)
              && Lookup(d.next.storage, RefreshTokenKey)
                 == (if Truthy(renewed) then Some(ToStr(renewed)) else Lookup(c.storage, RefreshTokenKey))
              && d.next.storage - {TokenKey, RefreshTokenKey} == c.storage - {TokenKey, RefreshTokenKey}
              && d.next.location == c.location
              && d.next.queue == []
              && d.step == Resent(Replays(c.queue, bearer) + [WithAuthorization(c.awaiting.value, bearer)])
    ensures ClientInv(c) ==> ClientInv(d.next)
  {
    match IssuedTokens(result)
    case None =>
      Completion(
        c.(storage := c.storage - {TokenKey, RefreshTokenKey}, location := LoginBefore,
           refreshing := false, awaiting := None),
        RefreshRejected)
    case Some((access, renewed)) =>
      var stored := c.storage[TokenKey := ToStr(access)];
      var stored' := if Truthy(renewed) then stored[RefreshTokenKey := ToStr(renewed)] else stored;
      var bearer := Bearer(ToStr(access));
      Completion(
        c.(storage := stored', queue := [], refreshing := false, awaiting := None),
        Resent(Replays(c.queue, bearer) + [WithAuthorization(c.awaiting.value, bearer)]))
  }

  // ---------------------------------------------------------------------------
  // Properties over several steps
  // ---------------------------------------------------------------------------

  /** The outcome of handling a run of errors one after another */
  datatype Trace = Trace(final: Client, steps: seq<ErrorStep>)

  function RunErrors(c: Client, errs: seq<HttpError>): (t: Trace)
    ensures |t.steps| == |errs|
    decreases |errs|
  {
    if errs == [] then Trace(c, [])
    else
      var first := HandleError(c, errs[0]);
      var rest := RunErrors(first.next, errs[1..]);
      Trace(rest.final, [first.step] + rest.steps)
  }

  function Configs(errs: seq<HttpError>): (r: seq<Request>)
    ensures |r| == |errs| && forall i :: 0 <= i < |errs| ==> r[i] == errs[i].config
  {
    seq(|errs|, i requires 0 <= i < |errs| => errs[i].config)
  }

  /** The number of refresh calls issued in a run */
  function RefreshCount(steps: seq<ErrorStep>): nat {
    if steps == [] then 0 else (if steps[0].RefreshCalled? then 1 else 0) + RefreshCount(steps[1..])
  }

  /** A 401 on a request that has not been retried yet */
  predicate FreshUnauthorized(err: HttpError) {
    Unauthorized(err) && !err.config.retry
  }

  /** While a refresh is in flight, every fresh 401 is queued, in order, and none starts a refresh. */
  lemma {:induction false} QueuedWhileRefreshing(c: Client, errs: seq<HttpError>)
    requires c.refreshing && HasRefreshToken(c.storage)
    requires forall i :: 0 <= i < |errs| ==> FreshUnauthorized(errs[i])
    ensures RunErrors(c, errs).final == c.(queue := c.queue + Configs(errs))
    ensures forall i :: 0 <= i < |errs| ==> RunErrors(c, errs).steps[i] == Queued
    ensures RefreshCount(RunErrors(c, errs).steps) == 0
    decreases |errs|
  {
    if errs != [] {
      var c1 := c.(queue := c.queue + [errs[0].config]);
      assert HandleError(c, errs[0]) == Transition(c1, Queued);
      QueuedWhileRefreshing(c1, errs[1..]);
      assert c.queue + Configs(errs) == c1.queue + Configs(errs[1..]);
    }
  }

  /**
   * Single flight: of N fresh 401s handled while no refresh is in flight,
   * the first issues the one refresh call and the other N - 1 are queued in
   * arrival order.
   */
  lemma SingleFlight(c: Client, errs: seq<HttpError>)
    requires !c.refreshing && HasRefreshToken(c.storage)
    requires |errs| > 0 && forall i :: 0 <= i < |errs| ==> FreshUnauthorized(errs[i])
    ensures RunErrors(c, errs).steps[0]
            == RefreshCalled(RefreshCall(c.storage[RefreshTokenKey], Bearer(TokenText(Lookup(c.storage, TokenKey)))))
    ensures forall i :: 1 <= i < |errs| ==> RunErrors(c, errs).steps[i] == Queued
    ensures RefreshCount(RunErrors(c, errs).steps) == 1
    ensures RunErrors(c, errs).final
            == c.(refreshing := true, awaiting := Some(errs[0].config.(retry := true)),
                  queue := c.queue + Configs(errs[1..]))
  {
    var first := HandleError(c, errs[0]);
    QueuedWhileRefreshing(first.next, errs[1..]);
    assert forall i :: 0 <= i < |errs| - 1 ==> errs[1..][i] == errs[i + 1];
  }

  /**
   * When that refresh succeeds, every one of the N requests is sent again
   * exactly once: whatever was already queued, then the N - 1 queued ones in
   * arrival order, and last the request that started the refresh.
   */
  lemma ConcurrentUnauthorizedAllResent(c: Client, errs: seq<HttpError>, result: RefreshResult)
    requires !c.refreshing && HasRefreshToken(c.storage)
    requires |errs| > 0 && forall i :: 0 <= i < |errs| ==> FreshUnauthorized(errs[i])
    requires IssuedTokens(result).Some?
    ensures RunErrors(c, errs).final.awaiting.Some?
    ensures var bearer := Bearer(ToStr(IssuedTokens(result).value.0));
            var d := CompleteRefresh(RunErrors(c, errs).final, result);
            && d.step.Resent?
            && |d.step.dispatched| == |c.queue| + |errs|
            && (forall i :: 0 <= i < |c.queue| ==> d.step.dispatched[i] == WithAuthorization(c.queue[i], bearer))
            && (forall i :: 1 <= i < |errs| ==>
                  d.step.dispatched[|c.queue| + i - 1] == WithAuthorization(errs[i].config, bearer))
            && d.step.dispatched[|c.queue| + |errs| - 1] == WithAuthorization(errs[0].config.(retry := true), bearer)
            && d.next.queue == [] && !d.next.refreshing
  {
    SingleFlight(c, errs);
    var bearer := Bearer(ToStr(IssuedTokens(result).value.0));
    var queue := c.queue + Configs(errs[1..]);
    var d := CompleteRefresh(RunErrors(c, errs).final, result);
    var replays := Replays(queue, bearer);
    assert d.step.dispatched == replays + [WithAuthorization(errs[0].config.(retry := true), bearer)];
    forall i | 0 <= i < |c.queue|
      ensures d.step.dispatched[i] == WithAuthorization(c.queue[i], bearer)
    {
      assert replays[i] == WithAuthorization(queue[i], bearer);
    }
    forall i | 1 <= i < |errs|
      ensures d.step.dispatched[|c.queue| + i - 1] == WithAuthorization(errs[i].config, bearer)
    {
      assert queue[|c.queue| + i - 1] == errs[i].config;
      assert replays[|c.queue| + i - 1] == WithAuthorization(queue[|c.queue| + i - 1], bearer);
    }
  }

  /**
   * Every resent request goes out, through the request interceptor, with the
   * new token; the replays are not marked as retried (a further 401 on one of
   * them starts a new cycle), while the handler's own request is.
   */
  lemma ResentWithNewToken(c: Client, result: RefreshResult)
    requires ClientInv(c) && c.awaiting.Some?
    requires IssuedTokens(result).Some?
    ensures var d := CompleteRefresh(c, result);
            && d.step.Resent?
            && (forall i :: 0 <= i < |d.step.dispatched| ==>
                  AttachBearer(d.step.dispatched[i], d.next.storage).headers[AuthorizationHeader]
                  == Bearer(ToStr(IssuedTokens(result).value.0)))
            && (forall i :: 0 <= i < |c.queue| ==> !d.step.dispatched[i].retry)
            && d.step.dispatched[|c.queue|].retry
  {
  }

  /**
   * A failed refresh keeps the queue and removes the refresh token, so every
   * later 401 is rejected and the queued requests are never sent. In the
   * browser the redirect then unloads the page, which discards the queue; the
   * model stops before that unload.
   */
  lemma FailedRefreshStrandsQueue(c: Client, err: HttpError)
    requires c.awaiting.Some?
    ensures var failed := CompleteRefresh(c, RefreshFailed).next;
            && failed.queue == c.queue
            && !HasRefreshToken(failed.storage)
            && HandleError(failed, err).step.Rejected?
            && HandleError(failed, err).next.queue == c.queue
  {
  }

  /**
   * A refresh response without an `accessToken` still counts as a success:
   * `setItem` stores the string `'undefined'`, which is truthy, so every
   * resent request carries `Bearer undefined`.
   */
  lemma MissingAccessTokenStoredAsUndefined(c: Client)
    requires c.awaiting.Some?
    ensures var d := CompleteRefresh(c, RefreshSucceeded(Obj([])));
            && d.next.storage[TokenKey] == "undefined"
            && HasToken(d.next.storage)
            && d.step.Resent?
            && d.step.dispatched[|d.step.dispatched| - 1].headers[AuthorizationHeader] == "Bearer undefined"
  {
    assert IssuedTokens(RefreshSucceeded(Obj([]))) == Some((Undefined, Undefined));
  }

  // ---------------------------------------------------------------------------
  // The module's mutable state
  // ---------------------------------------------------------------------------

  class ApiClient {
    const local: Storage
    var isRefreshing: bool
    var pendingQueue: seq<Request>
    /** The config held by the handler suspended at the refresh call */
    var awaiting: Option<Request>
    var location: string

    function Model(): Client
      reads this, local
    {
      Client(local.entries, isRefreshing, pendingQueue, awaiting, location)
    }

    constructor (local: Storage, location: string)
      ensures this.local == local
      ensures Model() == Client(local.entries, false, [], None, location)
      ensures ClientInv(Model())
    {
      this.local := local;
      isRefreshing := false;
      pendingQueue := [];
      awaiting := None;
      this.location := location;
    }

    /** The request interceptor, reading the token from storage */
    method Intercept(config: Request) returns (r: Request)
      ensures r == AttachBearer(config, local.entries)
    {
      var token := local.GetItem(TokenKey);
      if token.Some? && token.value != "" {
        r := WithAuthorization(config, Bearer(token.value));
      } else {
        r := config;
      }
    }

    /** The error interceptor up to the refresh call */
    method OnError(err: HttpError) returns (step: ErrorStep)
      modifies this, local
      ensures Model() == HandleError(old(Model()), err).next
      ensures step == HandleError(old(Model()), err).step
    {
      if err.status != Some(401) {
        return Rejected;
      }
      if err.config.retry {
        local.RemoveItem(TokenKey);
        local.RemoveItem(RefreshTokenKey);
        location := LoginBefore;
        return Rejected;
      }
      var refreshToken := local.GetItem(RefreshTokenKey);
      if refreshToken.None? || refreshToken.value == "" {
        local.RemoveItem(TokenKey);
        location := LoginBefore;
        return Rejected;
      }
      if isRefreshing {
        pendingQueue := pendingQueue + [err.config];
        return Queued;
      }
      var original := err.config.(retry := true);
      isRefreshing := true;
      var currentToken := local.GetItem(TokenKey);
      awaiting := Some(original);
      step := RefreshCalled(RefreshCall(refreshToken.value, Bearer(TokenText(currentToken))));
    }

    /** The error interceptor from the settling of the refresh call to its `finally` */
    method FinishRefresh(result: RefreshResult) returns (step: FinishStep)
      requires awaiting.Some?
      modifies this, local
      ensures Model() == CompleteRefresh(old(Model()), result).next
      ensures step == CompleteRefresh(old(Model()), result).step
    {
      var original := awaiting.value;
      var tokens := IssuedTokens(result);
      if tokens.None? {
        local.RemoveItem(TokenKey);
        local.RemoveItem(RefreshTokenKey);
        location := LoginBefore;
        step := RefreshRejected;
      } else {
        var (accessToken, newRefreshToken) := tokens.value;
        local.SetItem(TokenKey, ToStr(accessToken));
        if Truthy(newRefreshToken) {
          local.SetItem(RefreshTokenKey, ToStr(newRefreshToken));
        }
        var bearer := Bearer(ToStr(accessToken));
        original := WithAuthorization(original, bearer);
        var replayed: seq<Request> := [];
        var i := 0;
        while i < |pendingQueue|
          invariant 0 <= i <= |pendingQueue|
          invariant replayed == Replays(pendingQueue[..i], bearer)
        {
          replayed := replayed + [WithAuthorization(pendingQueue[i], bearer)];
          i := i + 1;
        }
        assert pendingQueue[..i] == pendingQueue;
        pendingQueue := [];
        step := Resent(replayed + [original]);
      }
      isRefreshing := false;
      awaiting := None;
    }
  }
}
