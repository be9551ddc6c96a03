/**
 * The DespatchLab REST client: its authentication context (the one field the service updates),
 * order-id validation, the product create/update fan-out and the mapping of API errors to messages.
 *
 * Every HTTP request is a parameter: a `Result` holding either the decoded answer or the message of
 * the `Error` that `makeRequest` throws ("DespatchLab API error: <status> - <text>"). Time is `now`,
 * in milliseconds.
 */
module DespatchLabService {
  import opened Wrappers
  import opened Text

  const DefaultApiUrl := "https://api.despatchlab.tech/v1"

  /** Tokens are assumed to expire 55 minutes after they were obtained. */
  const TokenLifetimeMs: int := 55 * 60 * 1000

  const CredentialsMissing := "DespatchLab authentication credentials not configured. Please set DESPATCH_LAB_KEY and DESPATCH_LAB_SECRET environment variables."
  const NoRefreshToken := "No refresh token available for DespatchLab API"
  const AuthenticationFailed := "Authentication failed for DespatchLab API"
  const OrderIdRequired := "Order ID is required"
  const InvalidOrderIdFormat := "Invalid order ID format. Expected UUID."
  const CustomerIdAndSkuRequired := "Customer ID and SKU are required"
  const ProductIdAndCustomerIdRequired := "Product ID and Customer ID are required"
  const AllUpdatesFailed := "All product update operations failed"

  // ---------------------------------------------------------------------------------------------
  // Authentication context

  datatype Tokens = Tokens(access: string, refresh: string)

  datatype AuthContext = AuthContext(tokens: Option<Tokens>, expiresAt: Option<int>, isAuthenticated: bool)

  /** The context a freshly constructed service starts from. */
  const InitialContext := AuthContext(None, None, false)

  /** What every reachable context satisfies: authenticated exactly when it holds tokens and an expiry. */
  predicate Consistent(c: AuthContext) {
    c.isAuthenticated == c.tokens.Some? && c.isAuthenticated == c.expiresAt.Some?
  }

  /** The context `updateAuthContext` installs for tokens obtained at `now`. */
  function Installed(tokens: Tokens, now: int): (c: AuthContext)
    ensures Consistent(c) && c.isAuthenticated && c.tokens == Some(tokens)
    ensures !IsTokenExpired(c, now + TokenLifetimeMs - 1) && IsTokenExpired(c, now + TokenLifetimeMs)
  {
    AuthContext(Some(tokens), Some(now + TokenLifetimeMs), true)
  }

  /** `isTokenExpired`: a context without an expiry counts as expired. */
  predicate IsTokenExpired(c: AuthContext, now: int) {
    c.expiresAt.None? || now >= c.expiresAt.value
  }

  predicate HasRefreshToken(c: AuthContext) {
    c.tokens.Some? && c.tokens.value.refresh != ""
  }

  /** The outer test of `ensureAuthenticated`. */
  predicate NeedsAuthentication(c: AuthContext, now: int) {
    !c.isAuthenticated || IsTokenExpired(c, now)
  }

  /** The inner test of `ensureAuthenticated`: a refresh is attempted only with a refresh token and an unexpired token. */
  predicate AttemptsRefresh(c: AuthContext, now: int) {
    NeedsAuthentication(c, now) && HasRefreshToken(c) && !IsTokenExpired(c, now)
  }

  /** `authenticate`: the context afterwards and the outcome. */
  function AuthenticateOutcome(c: AuthContext, key: string, secret: string, now: int, response: Result<Tokens>)
    : (out: (AuthContext, Result<Tokens>))
    ensures key == "" || secret == "" ==> out == (c, Failure(CredentialsMissing))
    ensures out.1.Success? ==> out.0 == Installed(out.1.value, now) && response == out.1
    ensures out.1.Failure? ==> out.0 == c
    ensures key != "" && secret != "" ==>
      out.1 == response && (response.Success? ==> out.0 == Installed(response.value, now)) && (response.Failure? ==> out.0 == c)
  {
    if key == "" || secret == "" then (c, Failure(CredentialsMissing))
    else match response
      case Success(t) => (Installed(t, now), Success(t))
      case Failure(e) => (c, Failure(e))
  }

  /**
   * `ensureAuthenticated`: nothing happens while the token is usable; otherwise a refresh is tried
   * when `AttemptsRefresh` holds, and a failed (or skipped) refresh falls back to `authenticate`.
   */
  function EnsureAuthenticatedOutcome(c: AuthContext, key: string, secret: string, now: int,
                                      refreshResponse: Result<Tokens>, credentialsResponse: Result<Tokens>)
    : (out: (AuthContext, Result<()>))
    ensures !NeedsAuthentication(c, now) ==> out == (c, Success(()))
    ensures out.1.Success? ==> out.0.isAuthenticated && !IsTokenExpired(out.0, now)
    ensures out.1.Failure? ==> out.0 == c
    ensures Consistent(c) ==> Consistent(out.0)
    ensures AttemptsRefresh(c, now) && refreshResponse.Success? ==> out == (Installed(refreshResponse.value, now), Success(()))
    ensures NeedsAuthentication(c, now) && !(AttemptsRefresh(c, now) && refreshResponse.Success?) ==>
      var (c', a) := AuthenticateOutcome(c, key, secret, now, credentialsResponse);
      out.0 == c' && (out.1.Success? <==> a.Success?) && (a.Failure? ==> out.1 == Failure(a.error))
  {
    if !NeedsAuthentication(c, now) then (c, Success(()))
    else if AttemptsRefresh(c, now) && refreshResponse.Success? then
      (Installed(refreshResponse.value, now), Success(()))
    else
      var (c', r) := AuthenticateOutcome(c, key, secret, now, credentialsResponse);
      (c', if r.Success? then Success(()) else Failure(r.error))
  }

  /**
   * From any consistent context the refresh branch of `ensureAuthenticated` is never taken:
   * a consistent context that needs authentication is either unauthenticated (so it has no tokens)
   * or expired, and the refresh branch demands an unexpired token.
   */
  lemma RefreshNeverAttemptedWhenConsistent(c: AuthContext, now: int)
    requires Consistent(c)
    ensures !AttemptsRefresh(c, now)
    ensures forall key, secret, rr, cr ::
      EnsureAuthenticatedOutcome(c, key, secret, now, rr, cr) == EnsureAuthenticatedOutcome(c, key, secret, now, Failure(""), cr)
  {
  }

  /** Once expired, a context stays expired as time goes on. */
  lemma ExpiryIsMonotone(c: AuthContext, t1: int, t2: int)
    requires t1 <= t2 && IsTokenExpired(c, t1)
    ensures IsTokenExpired(c, t2)
  {
  }

  /** The service object: the authentication context is its one mutable field. */
  class DespatchLabClient {
    const key: string
    const secret: string
    const apiUrl: string
    var authContext: AuthContext

    ghost predicate Valid()
      reads this
    {
      Consistent(authContext)
    }

    /**
     * The constructor also starts an `authenticate()` whose promise nobody awaits; its effect is the
     * same as a later `Authenticate` call and is not part of the construction here.
     */
    constructor (key: string, secret: string, apiUrl: Option<string>)
      ensures this.key == key && this.secret == secret
      ensures this.apiUrl == if Truthy(apiUrl) then apiUrl.value else DefaultApiUrl
      ensures authContext == InitialContext && Valid()
    {
      this.key := key;
      this.secret := secret;
      this.apiUrl := if Truthy(apiUrl) then apiUrl.value else DefaultApiUrl;
      authContext := InitialContext;
    }

    method UpdateAuthContext(tokens: Tokens, now: int)
      modifies this
      ensures authContext == Installed(tokens, now) && Valid()
    {
      authContext := AuthContext(Some(tokens), Some(now + TokenLifetimeMs), true);
    }

    /** `authenticate`: POST /auth/token/credentials, whose answer is `response`. */
    method Authenticate(now: int, response: Result<Tokens>) returns (r: Result<Tokens>)
      modifies this
      ensures old(Valid()) ==> Valid()
      ensures (authContext, r) == AuthenticateOutcome(old(authContext), key, secret, now, response)
    {
      if key == "" || secret == "" {
        return Failure(CredentialsMissing);
      }
      match response
      case Success(t) =>
        UpdateAuthContext(t, now);
        r := Success(t);
      case Failure(e) =>
        r := Failure(e);
    }

    /**
     * `refreshToken`: POST /auth/token/refresh, whose answer is `response`. The authenticated request
     * it goes through would re-enter `ensureAuthenticated`; that nested call is not modelled, since
     * `RefreshNeverAttemptedWhenConsistent` shows the refresh path is never reached.
     */
    method RefreshToken(now: int, response: Result<Tokens>) returns (r: Result<Tokens>)
      modifies this
      ensures old(Valid()) ==> Valid()
      ensures !HasRefreshToken(old(authContext)) ==> r == Failure(NoRefreshToken) && authContext == old(authContext)
      ensures HasRefreshToken(old(authContext)) ==> r == response
      ensures HasRefreshToken(old(authContext)) && response.Success? ==> authContext == Installed(response.value, now)
      ensures response.Failure? ==> authContext == old(authContext)
    {
      if !HasRefreshToken(authContext) {
        return Failure(NoRefreshToken);
      }
      r := response;
      if response.Success? {
        UpdateAuthContext(response.value, now);
      }
    }

    method EnsureAuthenticated(now: int, refreshResponse: Result<Tokens>, credentialsResponse: Result<Tokens>)
      returns (r: Result<()>)
      modifies this
      ensures old(Valid()) ==> Valid()
      ensures (authContext, r) == EnsureAuthenticatedOutcome(old(authContext), key, secret, now, refreshResponse, credentialsResponse)
      ensures old(Valid()) ==>
        (authContext, r) == EnsureAuthenticatedOutcome(old(authContext), key, secret, now, Failure(""), credentialsResponse)
    {
      if Consistent(authContext) {
        RefreshNeverAttemptedWhenConsistent(authContext, now);
      }
      if !authContext.isAuthenticated || IsTokenExpired(authContext, now) {
        if HasRefreshToken(authContext) && !IsTokenExpired(authContext, now) {
          var refreshed := RefreshToken(now, refreshResponse);
          if refreshed.Success? {
            return Success(());
          }
        }
        var auth := Authenticate(now, credentialsResponse);
        r := if auth.Success? then Success(()) else Failure(auth.error);
      } else {
        r := Success(());
      }
    }

    /** `makeAuthenticatedRequest`: authentication first; its error replaces the request's answer. */
    method MakeAuthenticatedRequest<T>(now: int, refreshResponse: Result<Tokens>, credentialsResponse: Result<Tokens>,
                                       response: Result<T>)
      returns (r: Result<T>)
      requires Valid()
      modifies this
      ensures Valid()
      ensures var (c, auth) := EnsureAuthenticatedOutcome(old(authContext), key, secret, now, refreshResponse, credentialsResponse);
              authContext == c && r == if auth.Failure? then Failure(auth.error) else response
    {
      var auth := EnsureAuthenticated(now, refreshResponse, credentialsResponse);
      if auth.Failure? {
        return Failure(auth.error);
      }
      r := response;
    }
  }

  // ---------------------------------------------------------------------------------------------
  // Error messages

  /** The message `makeRequest` throws for a non-OK response. */
  function ApiErrorMessage(status: nat, text: string): string {
    "DespatchLab API error: " + NatToString(status) + " - " + text
  }

  /** The product catch blocks: "404" is tested before "400", which is tested before "401". */
  function MapProductError(message: string, notFound: string, action: string): (r: string)
    ensures Contains(message, "404") ==> r == notFound
    ensures !Contains(message, "404") && Contains(message, "400") ==> r == "Invalid product data: " + message
    ensures !Contains(message, "404") && !Contains(message, "400") && Contains(message, "401") ==> r == AuthenticationFailed
    ensures !Contains(message, "404") && !Contains(message, "400") && !Contains(message, "401") ==>
      r == "Failed to " + action + " product: " + message
    ensures !Contains(message, "404") && !Contains(message, "401") ==> EndsWith(r, message)
  {
    if Contains(message, "404") then notFound
    else if Contains(message, "400") then "Invalid product data: " + message
    else if Contains(message, "401") then AuthenticationFailed
    else "Failed to " + action + " product: " + message
  }

  function MapCreateError(message: string, customerId: string): string {
    MapProductError(message, "Customer with ID " + customerId + " not found", "create")
  }

  function MapUpdateError(message: string, productId: string): string {
    MapProductError(message, "Product with ID " + productId + " not found", "update")
  }

  /** The `getOrder` catch block: "404" before "401"; "400" is not singled out. */
  function MapGetOrderError(message: string, orderId: string): (r: string)
    ensures Contains(message, "404") ==> r == "Order with ID " + orderId + " not found"
    ensures !Contains(message, "404") && Contains(message, "401") ==> r == AuthenticationFailed
    ensures !Contains(message, "404") && !Contains(message, "401") ==> r == "Failed to retrieve order: " + message
  {
    if Contains(message, "404") then "Order with ID " + orderId + " not found"
    else if Contains(message, "401") then AuthenticationFailed
    else "Failed to retrieve order: " + message
  }

  /**
   * A 404 answer from the API is reported as "not found" whatever its body says, by every catch block;
   * the mapping reads the status out of the text `makeRequest` composed.
   */
  lemma {:induction false} NotFoundStatusWins(text: string, id: string)
    ensures MapCreateError(ApiErrorMessage(404, text), id) == "Customer with ID " + id + " not found"
    ensures MapUpdateError(ApiErrorMessage(404, text), id) == "Product with ID " + id + " not found"
    ensures MapGetOrderError(ApiErrorMessage(404, text), id) == "Order with ID " + id + " not found"
  {
    assert NatToString(404) == "404" by {
      assert NatToString(4) == "4";
      assert NatToString(40) == "40";
    }
    ContainsInfix("DespatchLab API error: ", "404", " - " + text);
    assert ApiErrorMessage(404, text) == "DespatchLab API error: " + "404" + (" - " + text);
  }

  // ---------------------------------------------------------------------------------------------
  // Order lookup

  /** The order as `getOrder` returns it; only the fields the status sync reads. */
  datatype RemoteOrder = RemoteOrder(id: string, status: Option<string>, shipmentId: Option<string>, lastestTracking: Option<string>)

  predicate IsHexDigit(c: char) {
    ('0' <= c <= '9') || ('a' <= c <= 'f') || ('A' <= c <= 'F')
  }

  predicate IsDashPosition(i: int) {
    i == 8 || i == 13 || i == 18 || i == 23
  }

  /** The 8-4-4-4-12 hexadecimal layout of a UUID (section 3 of RFC 4122), in either letter case. */
  predicate IsUuidLayout(s: string) {
    |s| == 36 && forall i :: 0 <= i < 36 ==> if IsDashPosition(i) then s[i] == '-' else IsHexDigit(s[i])
  }

  predicate AllHex(s: string) {
    forall i :: 0 <= i < |s| ==> IsHexDigit(s[i])
  }

  function FormatUuid(a: string, b: string, c: string, d: string, e: string): string {
    a + "-" + b + "-" + c + "-" + d + "-" + e
  }

  /** A string has the UUID layout exactly when it is five hexadecimal groups of 8, 4, 4, 4 and 12 joined by dashes. */
  lemma UuidLayoutIsFiveHexGroups(s: string)
    ensures IsUuidLayout(s) <==>
      |s| == 36 && s == FormatUuid(s[..8], s[9..13], s[14..18], s[19..23], s[24..]) &&
      AllHex(s[..8]) && AllHex(s[9..13]) && AllHex(s[14..18]) && AllHex(s[19..23]) && AllHex(s[24..])
  {
    if |s| == 36 {
      var f := FormatUuid(s[..8], s[9..13], s[14..18], s[19..23], s[24..]);
      assert |f| == 36;
      if IsUuidLayout(s) {
        forall i | 0 <= i < 36 ensures f[i] == s[i] {
          assert IsDashPosition(i) ==> s[i] == '-';
        }
        assert forall i :: 0 <= i < 8 ==> s[..8][i] == s[i];
        assert forall i :: 0 <= i < 4 ==> s[9..13][i] == s[9 + i] && s[14..18][i] == s[14 + i] && s[19..23][i] == s[19 + i];
        assert forall i :: 0 <= i < 12 ==> s[24..][i] == s[24 + i];
      }
      if s == f && AllHex(s[..8]) && AllHex(s[9..13]) && AllHex(s[14..18]) && AllHex(s[19..23]) && AllHex(s[24..]) {
        forall i | 0 <= i < 36 ensures if IsDashPosition(i) then s[i] == '-' else IsHexDigit(s[i]) {
          if i < 8 { assert s[i] == s[..8][i]; }
          else if 9 <= i < 13 { assert s[i] == s[9..13][i - 9]; }
          else if 14 <= i < 18 { assert s[i] == s[14..18][i - 14]; }
          else if 19 <= i < 23 { assert s[i] == s[19..23][i - 19]; }
          else if 24 <= i { assert s[i] == s[24..][i - 24]; }
          else { assert s[i] == f[i]; }
        }
      }
    }
  }

  /** The guard at the top of `getOrder`. */
  function ValidateOrderId(orderId: string): (r: Result<string>)
    ensures r.Success? <==> IsUuidLayout(orderId)
    ensures r.Success? ==> r.value == orderId
    ensures orderId == "" ==> r == Failure(OrderIdRequired)
    ensures orderId != "" && !IsUuidLayout(orderId) ==> r == Failure(InvalidOrderIdFormat)
  {
    if orderId == "" then Failure(OrderIdRequired)
    else if !IsUuidLayout(orderId) then Failure(InvalidOrderIdFormat)
    else Success(orderId)
  }

  /**
   * `getOrder`: `response` is the answer of the authenticated GET /warehouse/orders/<id>, consulted only
   * when the id passes validation.
   */
  function GetOrder(orderId: string, response: Result<RemoteOrder>): (r: Result<RemoteOrder>)
    ensures r.Success? ==> IsUuidLayout(orderId) && r == response
    ensures !IsUuidLayout(orderId) ==> r == Failure(ValidateOrderId(orderId).error)
    ensures IsUuidLayout(orderId) && response.Failure? ==> r == Failure(MapGetOrderError(response.error, orderId))
    ensures IsUuidLayout(orderId) && response.Success? ==> r == response
  {
    match ValidateOrderId(orderId)
    case Failure(e) => Failure(e)
    case Success(_) =>
      match response
      case Success(o) => Success(o)
      case Failure(e) => Failure(MapGetOrderError(e, orderId))
  }

  /** An id that fails validation is rejected whatever the API would have answered: no request is made. */
  lemma GetOrderRejectsBeforeRequest(orderId: string, r1: Result<RemoteOrder>, r2: Result<RemoteOrder>)
    requires !IsUuidLayout(orderId)
    ensures GetOrder(orderId, r1) == GetOrder(orderId, r2) && GetOrder(orderId, r1).Failure?
  {
  }

  // ---------------------------------------------------------------------------------------------
  // Products

  const MinDimension: real := 0.1

  /** The fields beyond the five basic ones, present in the full update requests. */
  datatype ProductDetails = ProductDetails(
    customerName: string, typeName: string, uom: string,
    height: Option<real>, width: Option<real>, depth: Option<real>, volume: real,
    weight: Option<real>, countryOfOrigin: Option<string>)

  datatype ProductRequest = ProductRequest(
    id: Option<string>, customerId: Option<string>, sku: Option<string>,
    description: Option<string>, barcode: Option<string>, productType: Option<string>,
    details: Option<ProductDetails>)

  predicate AtLeastMin(x: Option<real>) {
    x.Some? && x.value >= MinDimension
  }

  /** `hasValidDimensions`: some defined dimension or the weight reaches 0.1. */
  predicate HasValidDimensions(req: ProductRequest) {
    req.details.Some? &&
    var d := req.details.value;
    AtLeastMin(d.height) || AtLeastMin(d.width) || AtLeastMin(d.depth) || AtLeastMin(d.weight)
  }

  datatype Endpoint = Details | Configuration | Storage | SpecialInstructions | Rules

  /** The endpoints of the update fan-out, in the order their promises are pushed. */
  function UpdateEndpoints(req: ProductRequest): (es: seq<Endpoint>)
    ensures |es| == if HasValidDimensions(req) then 5 else 4
    ensures Configuration in es <==> HasValidDimensions(req)
    ensures es[0] == Details && es[|es| - 3..] == [Storage, SpecialInstructions, Rules]
  {
    [Details] + (if HasValidDimensions(req) then [Configuration] else []) + [Storage, SpecialInstructions, Rules]
  }

  /** One PUT /warehouse/products/<productId>[/<endpoint>] request. */
  datatype EndpointCall = EndpointCall(endpoint: Endpoint, productId: string)

  function CallsFor(productId: string, es: seq<Endpoint>): (calls: seq<EndpointCall>)
    ensures |calls| == |es|
    ensures forall k :: 0 <= k < |es| ==> calls[k] == EndpointCall(es[k], productId)
  {
    seq(|es|, k requires 0 <= k < |es| => EndpointCall(es[k], productId))
  }

  /** What `Promise.allSettled` reports for one update promise. */
  datatype Settled = Fulfilled(value: Option<string>) | Rejected(reason: string)

  /**
   * The update fan-out shared by `createProduct` and `updateProduct`: one request per endpoint, each
   * wrapped in a `.catch` that turns a failure into `null`. `failing` names the endpoints whose request
   * fails. The requests run concurrently in the source; here they run in push order.
   */
  method FanOutUpdates(productId: string, req: ProductRequest, failing: set<Endpoint>)
    returns (settled: seq<Settled>, calls: seq<EndpointCall>)
    ensures calls == CallsFor(productId, UpdateEndpoints(req))
    ensures |settled| == |calls|
    ensures forall k :: 0 <= k < |settled| ==>
      settled[k] == Fulfilled(if calls[k].endpoint in failing then None else Some(productId))
  {
    var endpoints := UpdateEndpoints(req);
    settled, calls := [], [];
    var i := 0;
    while i < |endpoints|
      invariant 0 <= i <= |endpoints|
      invariant |settled| == i && |calls| == i
      invariant forall k :: 0 <= k < i ==> calls[k] == EndpointCall(endpoints[k], productId)
      invariant forall k :: 0 <= k < i ==>
        settled[k] == Fulfilled(if endpoints[k] in failing then None else Some(productId))
    {
      var e := endpoints[i];
      calls := calls + [EndpointCall(e, productId)];
      settled := settled + [Fulfilled(if e in failing then None else Some(productId))];
      i := i + 1;
    }
  }

  /** The second phase of `createProduct` runs when the request has an id or more than the five basic fields. */
  predicate CreateHasSecondPhase(req: ProductRequest) {
    req.id.Some? || req.details.Some?
  }

  /** `createProduct`: `response` is the answer of POST /warehouse/products (the new product's id). */
  function CreateProductOutcome(req: ProductRequest, response: Result<string>): (r: Result<string>)
    ensures !Truthy(req.customerId) || !Truthy(req.sku) ==> r == Failure(CustomerIdAndSkuRequired)
    ensures Truthy(req.customerId) && Truthy(req.sku) && response.Failure? ==>
      r == Failure(MapCreateError(response.error, req.customerId.value))
    ensures r.Success? ==> response == r
    ensures Truthy(req.customerId) && Truthy(req.sku) && response.Success? ==> r == response
  {
    if !Truthy(req.customerId) || !Truthy(req.sku) then Failure(CustomerIdAndSkuRequired)
    else match response
      case Success(id) => Success(id)
      case Failure(e) => Failure(MapCreateError(e, req.customerId.value))
  }

  method CreateProduct(req: ProductRequest, response: Result<string>, failing: set<Endpoint>)
    returns (r: Result<string>, calls: seq<EndpointCall>)
    ensures r == CreateProductOutcome(req, response)
    ensures calls == if r.Success? && CreateHasSecondPhase(req) then CallsFor(r.value, UpdateEndpoints(req)) else []
  {
    if !Truthy(req.customerId) || !Truthy(req.sku) {
      return Failure(CustomerIdAndSkuRequired), [];
    }
    calls := [];
    match response
    case Failure(e) =>
      r := Failure(MapCreateError(e, req.customerId.value));
    case Success(productId) =>
      if CreateHasSecondPhase(req) {
        // `{ id: productId, ...productData }`: a request id, when present, wins over the new one in the body
        var full := req.(id := if req.id.Some? then req.id else Some(productId));
        var _, fanned := FanOutUpdates(productId, full, failing);
        calls := fanned;
      }
      r := Success(productId);
  }

  /** `updateProduct`: after validation it always returns the request's id. */
  function UpdateProductOutcome(req: ProductRequest): (r: Result<string>)
    ensures r.Success? <==> Truthy(req.id) && Truthy(req.customerId)
    ensures r.Success? ==> r.value == req.id.value
    ensures r.Failure? ==> r.error == ProductIdAndCustomerIdRequired
  {
    if !Truthy(req.id) || !Truthy(req.customerId) then Failure(ProductIdAndCustomerIdRequired)
    else Success(req.id.value)
  }

  method UpdateProduct(req: ProductRequest, failing: set<Endpoint>) returns (r: Result<string>, calls: seq<EndpointCall>)
    ensures r == UpdateProductOutcome(req)
    ensures calls == if r.Success? then CallsFor(r.value, UpdateEndpoints(req)) else []
  {
    if !Truthy(req.id) || !Truthy(req.customerId) {
      return Failure(ProductIdAndCustomerIdRequired), [];
    }
    var id := req.id.value;
    var settled;
    settled, calls := FanOutUpdates(id, req, failing);
    var hasAnySuccess := false;
    var i := 0;
    while i < |settled|
      invariant 0 <= i <= |settled|
      invariant hasAnySuccess <==> exists k :: 0 <= k < i && settled[k].Fulfilled?
    {
      hasAnySuccess := hasAnySuccess || settled[i].Fulfilled?;
      i := i + 1;
    }
    // "All product update operations failed" cannot be thrown: every settled promise is fulfilled.
    assert settled[0].Fulfilled?;
    if !hasAnySuccess {
      assert false;
    }
    r := Success(id);
  }
}
