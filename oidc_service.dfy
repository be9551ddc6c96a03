/**
 * The OIDC authentication provider: redirect-URL selection, the `sessionId:state` parameter that links
 * the authorization request to the stored session, the checks made on the callback and the claims
 * copied into the auth identity.
 *
 * The identity provider library (discovery, PKCE, token exchange, user info) is a set of parameters:
 * `discovery` is what client discovery yields, `grant` and `userInfo` what the token exchange and the
 * user-info request yield. Random values (code verifier and challenge, nonce, state, session id) and
 * the clock are parameters too.
 */
module OidcService {
  import opened Wrappers
  import opened Text

  /** A stored session is accepted for ten minutes. */
  const SessionTtlMs: int := 10 * 60 * 1000
  const DefaultExpiresInSeconds: int := 3600
  const SessionKeyPrefix := "oidc_session_"
  const Scope := "openid profile email"

  const InvalidStateFormat := "Invalid state parameter format"
  const SessionNotFound := "Session not found or expired"
  const InvalidState := "Invalid state parameter"
  const SessionExpired := "Session expired"
  const FailedToAuthenticate := "Failed to authenticate user"
  const FailedToValidate := "Failed to validate callback"
  const MissingCode := "Missing authorization code"
  const MissingState := "Missing state parameter"
  const MissingUser := "Failed to retrieve user information"

  datatype Options = Options(
    domain: string, clientId: string, clientSecret: string, redirectUri: string,
    postLoginRedirectUrl: Option<string>, adminRedirectUri: Option<string>, adminPostLoginRedirectUrl: Option<string>)

  datatype SessionState = SessionState(codeVerifier: string, nonce: string, state: string, actorType: string, timestamp: int)

  // ---------------------------------------------------------------------------------------------
  // Redirects and actor type

  /** `getRedirectUrl`: the admin URI only for the "user" actor and only when one is configured. */
  function GetRedirectUrl(o: Options, actorType: Option<string>): (url: string)
    ensures url == o.redirectUri || (Truthy(o.adminRedirectUri) && url == o.adminRedirectUri.value)
    ensures actorType == Some("user") && Truthy(o.adminRedirectUri) ==> url == o.adminRedirectUri.value
    ensures actorType != Some("user") || !Truthy(o.adminRedirectUri) ==> url == o.redirectUri
  {
    if actorType == Some("user") && Truthy(o.adminRedirectUri) then o.adminRedirectUri.value
    else o.redirectUri
  }

  /** `getPostLoginRedirectUrl`: the same rule, falling back to "/" so the result is never empty. */
  function GetPostLoginRedirectUrl(o: Options, actorType: Option<string>): (url: string)
    ensures url != ""
    ensures actorType == Some("user") && Truthy(o.adminPostLoginRedirectUrl) ==> url == o.adminPostLoginRedirectUrl.value
    ensures actorType != Some("user") || !Truthy(o.adminPostLoginRedirectUrl) ==>
      url == if Truthy(o.postLoginRedirectUrl) then o.postLoginRedirectUrl.value else "/"
  {
    if actorType == Some("user") && Truthy(o.adminPostLoginRedirectUrl) then o.adminPostLoginRedirectUrl.value
    else if Truthy(o.postLoginRedirectUrl) then o.postLoginRedirectUrl.value
    else "/"
  }

  /** `data.body?.actor_type || data.query?.actor_type || "customer"`. */
  function ResolveActorType(body: Option<string>, query: Option<string>): (a: string)
    ensures a != ""
    ensures Truthy(body) ==> a == body.value
    ensures !Truthy(body) && Truthy(query) ==> a == query.value
    ensures !Truthy(body) && !Truthy(query) ==> a == "customer"
  {
    OrElse(body, OrElse(query, Some("customer"))).value
  }

  /** Nobody but an actor that is literally "user" is ever sent to the admin redirect. */
  lemma DefaultActorGetsStorefrontRedirect(o: Options, body: Option<string>, query: Option<string>)
    requires !Truthy(body) && !Truthy(query)
    ensures GetRedirectUrl(o, Some(ResolveActorType(body, query))) == o.redirectUri
    ensures GetPostLoginRedirectUrl(o, Some(ResolveActorType(body, query))) ==
      if Truthy(o.postLoginRedirectUrl) then o.postLoginRedirectUrl.value else "/"
  {
  }

  // ---------------------------------------------------------------------------------------------
  // The state parameter

  /** The `state` sent to the identity provider. */
  function ComposeState(sessionId: string, state: string): string {
    sessionId + ":" + state
  }

  /** The key the session is stored under. */
  function SessionKey(sessionId: string): string {
    SessionKeyPrefix + sessionId
  }

  /** The state splits into a non-empty session id and a non-empty original state. */
  predicate WellFormedState(parts: seq<string>) {
    |parts| >= 2 && parts[0] != "" && parts[1] != ""
  }

  /**
   * `getSessionState`: the first two ':'-separated parts of the callback's state are the session id
   * and the original state; `store` is the provider service's state store.
   */
  function GetSessionState(state: string, store: map<string, SessionState>, now: int): (r: Result<SessionState>)
    ensures var parts := Split(state, ':');
      (parts[0] == "" || |parts| < 2 || parts[1] == "") <==> r == Failure(InvalidStateFormat)
    ensures r.Success? ==>
      var parts := Split(state, ':');
      SessionKey(parts[0]) in store && r.value == store[SessionKey(parts[0])] &&
      r.value.state == parts[1] && now - r.value.timestamp <= SessionTtlMs
    ensures var parts := Split(state, ':');
      WellFormedState(parts) && SessionKey(parts[0]) !in store ==> r == Failure(SessionNotFound)
    ensures var parts := Split(state, ':');
      WellFormedState(parts) && SessionKey(parts[0]) in store && store[SessionKey(parts[0])].state != parts[1] ==>
      r == Failure(InvalidState)
    ensures var parts := Split(state, ':');
      WellFormedState(parts) && SessionKey(parts[0]) in store && store[SessionKey(parts[0])].state == parts[1] ==>
      var session := store[SessionKey(parts[0])];
      (now - session.timestamp > SessionTtlMs ==> r == Failure(SessionExpired)) &&
      (now - session.timestamp <= SessionTtlMs ==> r == Success(session))
  {
    var parts := Split(state, ':');
    if parts[0] == "" || |parts| < 2 || parts[1] == "" then Failure(InvalidStateFormat)
    else
      var sessionId, originalState := parts[0], parts[1];
      if SessionKey(sessionId) !in store then Failure(SessionNotFound)
      else
        var session := store[SessionKey(sessionId)];
        if session.state != originalState then Failure(InvalidState)
        else if now - session.timestamp > SessionTtlMs then Failure(SessionExpired)
        else Success(session)
  }

  /**
   * The state `authenticate` composes leads `getSessionState` back to the session it stored, for up to
   * ten minutes, as long as neither the session id nor the random state contains ':' and neither is empty.
   */
  lemma {:induction false} StateRoundTrip(store: map<string, SessionState>, sessionId: string, session: SessionState, now: int)
    requires sessionId != "" && ':' !in sessionId
    requires session.state != "" && ':' !in session.state
    requires now - session.timestamp <= SessionTtlMs
    ensures GetSessionState(ComposeState(sessionId, session.state), store[SessionKey(sessionId) := session], now) == Success(session)
  {
    assert ComposeState(sessionId, session.state) == sessionId + [':'] + session.state;
    SplitAtFirst(sessionId, ':', session.state);
  }

  /** Ten minutes exactly is still accepted; one millisecond more is not. */
  lemma {:induction false} SessionExpiryBoundary(store: map<string, SessionState>, sessionId: string, session: SessionState)
    requires sessionId != "" && ':' !in sessionId
    requires session.state != "" && ':' !in session.state
    ensures GetSessionState(ComposeState(sessionId, session.state), store[SessionKey(sessionId) := session],
                            session.timestamp + SessionTtlMs) == Success(session)
    ensures GetSessionState(ComposeState(sessionId, session.state), store[SessionKey(sessionId) := session],
                            session.timestamp + SessionTtlMs + 1) == Failure(SessionExpired)
  {
    StateRoundTrip(store, sessionId, session, session.timestamp + SessionTtlMs);
    assert ComposeState(sessionId, session.state) == sessionId + [':'] + session.state;
    SplitAtFirst(sessionId, ':', session.state);
  }

  /** A state without ':' can never name a session. */
  lemma StateWithoutSeparatorIsRejected(state: string, store: map<string, SessionState>, now: int)
    requires ':' !in state
    ensures GetSessionState(state, store, now) == Failure(InvalidStateFormat)
  {
  }

  // ---------------------------------------------------------------------------------------------
  // Claims

  datatype UserInfo = UserInfo(
    sub: Option<string>, email: Option<string>, name: Option<string>, givenName: Option<string>,
    familyName: Option<string>, picture: Option<string>, emailVerified: Option<bool>,
    company: Option<string>, orgName: Option<string>, orgId: Option<string>)

  /** `extractCompany`: the first non-empty of `company`, `org_name`, `org_id`. */
  function ExtractCompany(u: UserInfo): (r: Option<string>)
    ensures r.Some? ==> r.value != "" && (r == u.company || r == u.orgName || r == u.orgId)
    ensures r.None? <==> !Truthy(u.company) && !Truthy(u.orgName) && !Truthy(u.orgId)
    ensures Truthy(u.company) ==> r == u.company
    ensures !Truthy(u.company) && Truthy(u.orgName) ==> r == u.orgName
  {
    if Truthy(u.company) then u.company
    else if Truthy(u.orgName) then u.orgName
    else if Truthy(u.orgId) then u.orgId
    else None
  }

  /** The identity's entity id: `sub`, or the e-mail address when there is no subject. */
  function UserIdOf(u: UserInfo): (r: Option<string>)
    ensures Truthy(r) <==> Truthy(u.sub) || Truthy(u.email)
    ensures Truthy(u.sub) ==> r == u.sub
    ensures !Truthy(u.sub) ==> r == u.email
  {
    OrElse(u.sub, u.email)
  }

  /** `access_token_expires_at`: `expires_in` seconds from now, one hour when the provider gives none. */
  function AccessTokenExpiresAt(now: int, expiresIn: Option<int>): (t: int)
    ensures expiresIn.None? ==> t == now + 3_600_000
    ensures expiresIn.Some? ==> t - now == expiresIn.value * 1000
  {
    now + (if expiresIn.Some? then expiresIn.value else DefaultExpiresInSeconds) * 1000
  }

  datatype TokenSet = TokenSet(accessToken: string, idToken: Option<string>, refreshToken: Option<string>, expiresIn: Option<int>)

  datatype ProviderMetadata = ProviderMetadata(
    sub: Option<string>, idToken: Option<string>, accessToken: string, refreshToken: Option<string>,
    actorType: string, accessTokenExpiresAt: int)

  datatype UserMetadata = UserMetadata(
    email: Option<string>, name: Option<string>, givenName: Option<string>, familyName: Option<string>,
    picture: Option<string>, emailVerified: Option<bool>, company: Option<string>, actorType: string)

  datatype AuthIdentity = AuthIdentity(entityId: string, userMetadata: UserMetadata, providerMetadata: ProviderMetadata)

  /** The parameters of the authorization URL built for the identity provider. */
  datatype AuthorizationRequest = AuthorizationRequest(
    scope: string, redirectUri: string, codeChallenge: string, codeChallengeMethod: string, nonce: string, state: string)

  datatype AuthenticationResponse =
    | Redirect(authorization: AuthorizationRequest)
    | LoggedIn(identity: AuthIdentity, location: string)
    | Failed(error: string)

  /** The discovered client configuration; only its identity matters here. */
  datatype ClientConfig = ClientConfig(issuer: string)

  /** The auth identity provider service: its state store and the auth identities it holds. */
  class AuthIdentityStore {
    var states: map<string, SessionState>
    var identities: map<string, AuthIdentity>

    constructor ()
      ensures states == map[] && identities == map[]
    {
      states, identities := map[], map[];
    }
  }

  /** The random values `authenticate` draws. */
  datatype Randoms = Randoms(codeVerifier: string, codeChallenge: string, nonce: string, state: string, sessionId: string)

  class OidcProvider {
    const options: Options
    /** The memoised discovery: once set it is returned forever, failed or not. */
    var clientPromise: Option<Result<ClientConfig>>

    constructor (options: Options)
      ensures this.options == options && clientPromise == None
    {
      this.options := options;
      clientPromise := None;
    }

    /** `getClient`: the first call's discovery outcome is cached, including a failure. */
    method GetClient(discovery: Result<ClientConfig>) returns (r: Result<ClientConfig>)
      modifies this
      ensures old(clientPromise).Some? ==> clientPromise == old(clientPromise) && r == old(clientPromise).value
      ensures old(clientPromise).None? ==> clientPromise == Some(discovery) && r == discovery
    {
      if clientPromise.None? {
        clientPromise := Some(discovery);
      }
      r := clientPromise.value;
    }

    /** `authenticate`: store a fresh session and answer with the authorization request that points to it. */
    method Authenticate(bodyActorType: Option<string>, queryActorType: Option<string>, store: AuthIdentityStore,
                        discovery: Result<ClientConfig>, randoms: Randoms, now: int)
      returns (response: AuthenticationResponse)
      modifies this, store
      ensures store.identities == old(store.identities)
      ensures var client := if old(clientPromise).Some? then old(clientPromise).value else discovery;
        if client.Failure? then
          response == Failed(FailedToAuthenticate) && store.states == old(store.states)
        else
          var actorType := ResolveActorType(bodyActorType, queryActorType);
          store.states == old(store.states)[SessionKey(randoms.sessionId) :=
            SessionState(randoms.codeVerifier, randoms.nonce, randoms.state, actorType, now)] &&
          response == Redirect(AuthorizationRequest(Scope, GetRedirectUrl(options, Some(actorType)), randoms.codeChallenge,
                                                    "S256", randoms.nonce, ComposeState(randoms.sessionId, randoms.state)))
    {
      var client := GetClient(discovery);
      if client.Failure? {
        return Failed(FailedToAuthenticate);
      }
      var actorType := ResolveActorType(bodyActorType, queryActorType);
      var redirectUrl := GetRedirectUrl(options, Some(actorType));
      var session := SessionState(randoms.codeVerifier, randoms.nonce, randoms.state, actorType, now);
      store.states := store.states[SessionKey(randoms.sessionId) := session];
      response := Redirect(AuthorizationRequest(Scope, redirectUrl, randoms.codeChallenge, "S256",
                                                randoms.nonce, ComposeState(randoms.sessionId, randoms.state)));
    }

    /**
     * `validateCallback`. `query` holds the callback's query parameters; `grant` is the token exchange,
     * `userInfo` the user-info request and `retrieveError` a failure of the identity lookup other than
     * "not found". The session is read, not removed.
     */
    method ValidateCallback(query: map<string, string>, store: AuthIdentityStore, discovery: Result<ClientConfig>,
                            grant: Result<TokenSet>, userInfo: Result<UserInfo>, retrieveError: Option<string>, now: int)
      returns (response: AuthenticationResponse)
      modifies this, store
      ensures store.states == old(store.states)
      ensures var client := if old(clientPromise).Some? then old(clientPromise).value else discovery;
        client.Failure? ==> response == Failed(FailedToValidate)
      ensures var client := if old(clientPromise).Some? then old(clientPromise).value else discovery;
        client.Success? && ("code" !in query || query["code"] == "") ==> response == Failed(MissingCode)
      ensures var client := if old(clientPromise).Some? then old(clientPromise).value else discovery;
        client.Success? && "code" in query && query["code"] != "" && ("state" !in query || query["state"] == "") ==>
        response == Failed(MissingState)
      ensures var client := if old(clientPromise).Some? then old(clientPromise).value else discovery;
        client.Success? && "code" in query && query["code"] != "" && "state" in query && query["state"] != "" ==>
        var session := GetSessionState(query["state"], old(store.states), now);
        if session.Failure? || grant.Failure? || userInfo.Failure? then response == Failed(FailedToValidate)
        else if !Truthy(UserIdOf(userInfo.value)) then response == Failed(MissingUser)
        else if retrieveError.Some? then response == Failed(retrieveError.value)
        else response.LoggedIn?
      ensures response.LoggedIn? ==>
        "state" in query && GetSessionState(query["state"], old(store.states), now).Success? &&
        var session := GetSessionState(query["state"], old(store.states), now).value;
        var actorType := if session.actorType != "" then session.actorType else "customer";
        response.location == GetPostLoginRedirectUrl(options, Some(actorType)) &&
        grant.Success? && userInfo.Success? && retrieveError.None? &&
        var userId := UserIdOf(userInfo.value);
        Truthy(userId) && store.identities == old(store.identities)[userId.value := response.identity] &&
        (userId.value in old(store.identities) ==> response.identity == old(store.identities)[userId.value]) &&
        (userId.value !in old(store.identities) ==>
          response.identity.entityId == userId.value &&
          response.identity.providerMetadata.actorType == actorType &&
          response.identity.userMetadata.actorType == actorType &&
          response.identity.userMetadata.email == userInfo.value.email &&
          response.identity.userMetadata.company == ExtractCompany(userInfo.value) &&
          response.identity.providerMetadata.sub == userInfo.value.sub &&
          response.identity.providerMetadata.accessToken == grant.value.accessToken &&
          response.identity.providerMetadata.accessTokenExpiresAt == AccessTokenExpiresAt(now, grant.value.expiresIn))
      ensures !response.LoggedIn? ==> store.identities == old(store.identities)
    {
      var client := GetClient(discovery);
      if client.Failure? {
        return Failed(FailedToValidate);
      }
      if "code" !in query || query["code"] == "" {
        return Failed(MissingCode);
      }
      if "state" !in query || query["state"] == "" {
        return Failed(MissingState);
      }
      var sessionOutcome := GetSessionState(query["state"], store.states, now);
      if sessionOutcome.Failure? {
        return Failed(FailedToValidate);
      }
      var session := sessionOutcome.value;
      var actorType := if session.actorType != "" then session.actorType else "customer";
      var postLoginRedirectUrl := GetPostLoginRedirectUrl(options, Some(actorType));
      if grant.Failure? || userInfo.Failure? {
        return Failed(FailedToValidate);
      }
      var tokens, info := grant.value, userInfo.value;
      var userId := UserIdOf(info);
      if !Truthy(userId) {
        return Failed(MissingUser);
      }
      var providerMetadata := ProviderMetadata(info.sub, tokens.idToken, tokens.accessToken, tokens.refreshToken,
                                               actorType, AccessTokenExpiresAt(now, tokens.expiresIn));
      var userMetadata := UserMetadata(info.email, info.name, info.givenName, info.familyName, info.picture,
                                       info.emailVerified, ExtractCompany(info), actorType);
      var identity;
      if retrieveError.Some? {
        return Failed(retrieveError.value);
      } else if userId.value in store.identities {
        // an existing identity is returned as it is; its metadata is not refreshed
        identity := store.identities[userId.value];
      } else {
        identity := AuthIdentity(userId.value, userMetadata, providerMetadata);
        store.identities := store.identities[userId.value := identity];
      }
      response := LoggedIn(identity, postLoginRedirectUrl);
    }
  }
}
