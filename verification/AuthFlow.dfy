/**
 Login, consent, authorization codes, token responses, refresh and logout as one state machine.
 Every request is one atomic step.

 Checked credentials, membership, subscription and lock checks come in as flags. Random values
 do not repeat. The client directory does not change during a run.
 */
module AuthFlow {
  import opened Wrappers
  import opened Scopes
  import opened AuthorizeRequests
  import opened Consents
  import opened LoginSessions
  import AuthCodes
  import RefreshTokens
  import TokenRevocation

  /** `ownOrigin` tells whether a redirect URI is on the server's own origin; `domainOf` gives a
      tenant's domain. */
  datatype Config = Config(
    directory: Directory,
    ownOrigin: string -> bool,
    domainOf: string -> string,
    digests: AuthCodes.Digests,
    refresh: RefreshTokens.Config,
    sessionSeconds: int)

  /** Of a response: the client that the refresh token is bound to, the client that the access
      token names, the scopes listed in the response, and the scope claim of the access token. */
  datatype Event =
    | CodeIssued(at: int, sid: Sid, userId: string, code: AuthCodes.Code)
    | TokensIssued(at: int, sid: Sid, userId: string, clientId: ClientId, named: ClientId, scopes: seq<string>,
                   claim: seq<string>)

  const OFFLINE_ACCESS := "offline_access"

  /** The access token leaves out the scope that only asks for a refresh token. */
  function ScopeClaim(scopes: seq<string>): (claim: seq<string>)
    ensures Elements(claim) == Elements(scopes) - {OFFLINE_ACCESS}
  {
    if scopes == [] then []
    else
      var rest := ScopeClaim(scopes[1..]);
      ConsElements(scopes);
      if scopes[0] == OFFLINE_ACCESS then rest
      else
        ConsElements([scopes[0]] + rest);
        [scopes[0]] + rest
  }

  function TokenResponse(at: int, sid: Sid, userId: string, clientId: ClientId, named: ClientId,
                         scopes: seq<string>): Event
  {
    TokensIssued(at, sid, userId, clientId, named, scopes, ScopeClaim(scopes))
  }

  /** `grants` and `log` only remember; no request reads them. */
  datatype State = State(
    now: int,
    sessions: LoginSessions.Table,
    consents: Consents.Table,
    codes: AuthCodes.Table,
    tokens: RefreshTokens.Table,
    grants: seq<Grant>,
    log: seq<Event>)

  /** Random values a request may draw. */
  datatype Draws = Draws(sid: Sid, code: AuthCodes.Code, tokenId: RefreshTokens.Id,
                         plain: RefreshTokens.Plaintext, family: RefreshTokens.Family)

  ghost predicate Unseen(s: State, d: Draws) {
    && d.sid != "" && d.sid !in s.sessions
    && d.code !in s.codes
    && UnseenToken(s.tokens, d)
  }

  ghost predicate UnseenToken(t: RefreshTokens.Table, d: Draws) {
    && d.tokenId !in t
    && !RefreshTokens.HashIn(t, RefreshTokens.Sha256(d.plain))
    && forall id :: id in t ==> t[id].familyId != d.family
  }

  function Logged(s: State, e: Event): State {
    s.(log := s.log + [e])
  }

  // ---------------------------------------------------------------------------------------
  // POST /login
  // ---------------------------------------------------------------------------------------

  function DoLogin(cfg: Config, s: State, userId: string, clientId: string, sid: Sid): State {
    match FindByClientIdOrAlias(cfg.directory, clientId)
    case Err(_) => s
    case Ok(client) => WithSession(cfg, s, sid, userId, client.tenantId)
  }

  function WithSession(cfg: Config, s: State, sid: Sid, userId: string, tenantId: string): State {
    s.(sessions := s.sessions[sid := NewSession(s.now, cfg.sessionSeconds, userId, tenantId)])
  }

  // ---------------------------------------------------------------------------------------
  // GET /authorize
  // ---------------------------------------------------------------------------------------

  datatype Signals = Signals(sidCookie: Option<Sid>, consentDenied: bool, fromLogout: bool, confirmed: bool)

  datatype Decision =
    | ErrorReply(error: AuthorizeError)
    | LoginPage
    | ConsentPage
    | ConfirmPage
    | SendCode(request: Validated, sid: Sid)

  /** The client is its tenant's default client and the user stays on the server itself. */
  predicate FirstParty(cfg: Config, client: Client, redirectUri: string) {
    cfg.ownOrigin(redirectUri) && client.alias == Some(cfg.domainOf(client.tenantId))
  }

  function ResolveSession(s: State, cookie: Option<Sid>, maxAge: Option<int>): Option<Sid> {
    if !Truthy(cookie) || !ValidAt(s.sessions, cookie.value, s.now) then None
    else if maxAge.Some? && Seconds(s.now) - s.sessions[cookie.value].authTime > maxAge.value then None
    else cookie
  }

  function Decide(cfg: Config, s: State, q: Query, ui: Signals): Decision {
    match ValidateAuthorizeRequest(cfg.directory, q)
    case Err(e) => ErrorReply(e)
    case Ok(v) =>
      if ui.consentDenied then ErrorReply(Redirected(v.redirectUri, "access_denied"))
      else if ui.fromLogout || v.prompt == Some("login") then LoginPage
      else if Truthy(v.prompt) && v.prompt.value !in ["none", "login", "consent"] then
        ErrorReply(Redirected(v.redirectUri, "invalid_request"))
      else match ResolveSession(s, ui.sidCookie, v.maxAge)
        case None =>
          if v.prompt == Some("none") then ErrorReply(Redirected(v.redirectUri, "login_required")) else LoginPage
        case Some(sid) => DecideInSession(cfg, s, v, sid, ui)
  }

  function DecideInSession(cfg: Config, s: State, v: Validated, sid: Sid, ui: Signals): Decision
  {
    match ResolveScopes(Some(v.scope), EffectiveScopes(v.client))
    case Err(_) => ErrorReply(Shown("invalid_scope"))
    case Ok(scopes) =>
      var userId := if sid in s.sessions then s.sessions[sid].userId else "";
      var consentGranted :=
        FirstParty(cfg, v.client, v.redirectUri) || Covers(s.consents, (userId, v.client.clientId), Elements(scopes));
      var confirmed := v.client.skipSessionConfirm || ui.confirmed;
      if v.prompt == Some("consent") then (if confirmed then ConsentPage else ConfirmPage)
      else if !consentGranted then ConsentPage
      else if confirmed then SendCode(v, sid)
      else ConfirmPage
  }

  function CodeRow(s: State, clientId: string, v: Validated, sid: Sid, userId: string): AuthCodes.AuthCode {
    AuthCodes.NewRow(s.now, clientId, OrNull(v.codeChallenge),
                     if Truthy(v.codeChallenge) then Some(v.codeChallengeMethod) else None,
                     userId, v.client.tenantId, Some(v.redirectUri), Some(v.scope), Some(sid))
  }

  function DoAuthorize(cfg: Config, s: State, q: Query, ui: Signals, code: AuthCodes.Code): State {
    match Decide(cfg, s, q, ui)
    case SendCode(v, sid) =>
      if sid in s.sessions && q.clientId.Some? then
        var userId := s.sessions[sid].userId;
        Logged(s.(codes := s.codes[code := CodeRow(s, q.clientId.value, v, sid, userId)]),
               CodeIssued(s.now, sid, userId, code))
      else s
    case _ => s
  }

  // ---------------------------------------------------------------------------------------
  // POST /consent
  // ---------------------------------------------------------------------------------------

  function DoConsent(cfg: Config, s: State, cookie: Option<Sid>, clientId: string, scope: Option<string>,
                     grant: bool): State
  {
    if !Truthy(cookie) || !ValidAt(s.sessions, cookie.value, s.now) then s
    else match FindByClientIdOrAlias(cfg.directory, clientId)
      case Err(_) => s
      case Ok(client) =>
        match ResolveScopes(Some(if scope.Some? then scope.value else ""), EffectiveScopes(client))
        case Err(_) => s
        case Ok(scopes) =>
          var k := (s.sessions[cookie.value].userId, client.clientId);
          if grant then s.(consents := Granted(s.consents, k, scopes), grants := s.grants + [Grant(k, scopes)]) else s
  }

  // ---------------------------------------------------------------------------------------
  // POST /token
  // ---------------------------------------------------------------------------------------

  predicate RefreshEligible(scopes: seq<string>, client: Client) {
    OFFLINE_ACCESS in scopes || client.allowRefreshToken
  }

  function ResolveClient(cfg: Config, tenantId: string, oauthClientId: Option<string>): Option<Client> {
    if Truthy(oauthClientId) then
      match FindByClientIdOrAlias(cfg.directory, oauthClientId.value)
      case Ok(client) => Some(client)
      case Err(_) => None
    else FindByAlias(cfg.directory, cfg.domainOf(tenantId))
  }

  /** The response, with a refresh token if the grant is eligible for one. */
  function Respond(cfg: Config, s: State, client: Client, userId: string, tenantId: string, scopes: seq<string>,
                   sid: Sid, d: Draws): State
  {
    var row := RefreshTokens.RootRow(cfg.refresh, s.now, d.plain, d.family, userId, client.clientId, tenantId,
                                     Format(scopes), Some(sid));
    var s1 := if RefreshEligible(scopes, client) then s.(tokens := s.tokens[d.tokenId := row]) else s;
    Logged(s1, TokenResponse(s.now, sid, userId, client.clientId, client.clientId, scopes))
  }

  /** Members and subscribed users take the same steps on sessions, scopes and refresh tokens. */
  function IssueTokens(cfg: Config, s: State, userId: string, tenantId: string, oauthClientId: Option<string>,
                       requested: Option<string>, sid: Option<Sid>, codeGrant: bool, permitted: bool, d: Draws): State
  {
    if !permitted then s
    else match ResolveClient(cfg, tenantId, oauthClientId)
      case None => s
      case Some(client) =>
        match ResolveScopes(requested, EffectiveScopes(client))
        case Err(_) => s
        case Ok(scopes) =>
          if Truthy(sid) then
            if ValidAt(s.sessions, sid.value, s.now) then Respond(cfg, s, client, userId, tenantId, scopes, sid.value, d)
            else s
          else if codeGrant then Respond(cfg, s, client, userId, tenantId, scopes, d.sid, d)
          else Respond(cfg, WithSession(cfg, s, d.sid, userId, tenantId), client, userId, tenantId, scopes, d.sid, d)
  }

  /** The code is spent first; only then are client, redirect URI and verifier compared. */
  function DoCodeGrant(cfg: Config, s: State, req: AuthCodes.Request, scope: Option<string>, permitted: bool,
                       d: Draws): State
  {
    var (codes, redeemed) := AuthCodes.Redeem(s.codes, req.code, s.now);
    var s1 := s.(codes := codes);
    match redeemed
    case None => s1
    case Some(row) =>
      if !AuthCodes.Bound(cfg.digests, row, req) then s1
      else IssueTokens(cfg, s1, row.userId, row.tenantId, Some(row.clientId),
                       if Truthy(scope) then scope else row.scope, row.sid, true, permitted, d)
  }

  function DoPasswordGrant(cfg: Config, s: State, userId: string, clientId: string, scope: Option<string>,
                           permitted: bool, d: Draws): State
  {
    match FindByClientIdOrAlias(cfg.directory, clientId)
    case Err(_) => s
    case Ok(client) =>
      if !client.allowPasswordGrant then s
      else IssueTokens(cfg, s, userId, client.tenantId, Some(clientId), scope, None, false, permitted, d)
  }

  /** POST /exchange: a password-grant token for one of the client's tenant. */
  function DoExchange(cfg: Config, s: State, userId: string, clientId: string, permitted: bool, d: Draws): State {
    match FindByClientIdOrAlias(cfg.directory, clientId)
    case Err(_) => s
    case Ok(client) => IssueTokens(cfg, s, userId, client.tenantId, None, None, None, false, permitted, d)
  }

  /** The token is consumed and rotated first; the session is validated afterwards. */
  ghost function DoRefresh(cfg: Config, s: State, plain: RefreshTokens.Plaintext, clientId: string, authenticated: bool,
                           scope: Option<string>, permitted: bool, d: Draws): State
  {
    match FindByClientIdOrAlias(cfg.directory, clientId)
    case Err(_) => s
    case Ok(client) =>
      if !authenticated then s else
        var (t, outcome) := RefreshTokens.RotateCall(cfg.refresh, s.tokens, s.now, plain, client.clientId, scope,
                                                     d.tokenId, d.plain);
        var s1 := s.(tokens := t);
        match outcome
        case Rotated(id) => if id in t then Refreshed(cfg, s1, t[id], permitted, d) else s1
        case Replayed(id) => if id in t then Refreshed(cfg, s1, t[id], permitted, d) else s1
        case _ => s1
  }

  /** The access token is issued for the tenant's default client, whichever client asked. */
  function Refreshed(cfg: Config, s: State, row: RefreshTokens.Token, permitted: bool, d: Draws): State {
    match FindByAlias(cfg.directory, cfg.domainOf(row.tenantId))
    case None => s
    case Some(named) =>
      if !permitted then s
      else if Truthy(row.sid) then
        if ValidAt(s.sessions, row.sid.value, s.now) then
          Logged(s, TokenResponse(s.now, row.sid.value, row.userId, row.clientId, named.clientId, Parse(row.scope)))
        else s
      else Logged(s, TokenResponse(s.now, d.sid, row.userId, row.clientId, named.clientId, Parse(row.scope)))
  }

  // ---------------------------------------------------------------------------------------
  // Steps and runs
  // ---------------------------------------------------------------------------------------

  datatype Action =
    | Tick(ms: nat)
    | Login(userId: string, clientId: string)
    | Authorize(query: Query, ui: Signals)
    | DecideConsent(sidCookie: Option<Sid>, clientId: string, scope: Option<string>, grant: bool)
    | CodeGrant(req: AuthCodes.Request, scope: Option<string>, permitted: bool)
    | PasswordGrant(userId: string, clientId: string, scope: Option<string>, permitted: bool)
    | Exchange(userId: string, clientId: string, permitted: bool)
    | RefreshGrant(plain: RefreshTokens.Plaintext, clientId: string, authenticated: bool, scope: Option<string>,
        permitted: bool)
    | Logout(tenantId: Option<string>, refreshToken: Option<RefreshTokens.Plaintext>, sid: Option<Sid>)
    | Revoke(tenant: string, plain: RefreshTokens.Plaintext)
    | CleanCodes

  datatype Step = Step(action: Action, draws: Draws)

  ghost function DoLogout(s: State, tenantId: Option<string>, refreshToken: Option<RefreshTokens.Plaintext>,
                          sid: Option<Sid>): State
  {
    s.(sessions := TokenRevocation.SessionsAfterLogout(s.sessions, sid, s.now),
       tokens := TokenRevocation.TokensAfterLogout(s.tokens, tenantId, refreshToken, sid))
  }

  ghost function Apply(cfg: Config, s: State, step: Step): State {
    var d := step.draws;
    if !Unseen(s, d) then s else
      match step.action
      case Tick(ms) => s.(now := s.now + ms)
      case Login(userId, clientId) => DoLogin(cfg, s, userId, clientId, d.sid)
      case Authorize(q, ui) => DoAuthorize(cfg, s, q, ui, d.code)
      case DecideConsent(cookie, clientId, scope, grant) => DoConsent(cfg, s, cookie, clientId, scope, grant)
      case CodeGrant(req, scope, permitted) => DoCodeGrant(cfg, s, req, scope, permitted, d)
      case PasswordGrant(userId, clientId, scope, permitted) => DoPasswordGrant(cfg, s, userId, clientId, scope, permitted, d)
      case Exchange(userId, clientId, permitted) => DoExchange(cfg, s, userId, clientId, permitted, d)
      case RefreshGrant(plain, clientId, authenticated, scope, permitted) =>
        DoRefresh(cfg, s, plain, clientId, authenticated, scope, permitted, d)
      case Logout(tenantId, refreshToken, sid) => DoLogout(s, tenantId, refreshToken, sid)
      case Revoke(tenant, plain) => s.(tokens := TokenRevocation.RevokedBy(s.tokens, tenant, plain))
      case CleanCodes => s.(codes := AuthCodes.WithoutStale(s.codes, s.now))
  }

  ghost function Run(cfg: Config, s: State, steps: seq<Step>): State
    decreases steps
  {
    if steps == [] then s else Run(cfg, Apply(cfg, s, steps[0]), steps[1..])
  }

  function Init(now: int): State {
    State(now, map[], map[], map[], map[], [], [])
  }
}
