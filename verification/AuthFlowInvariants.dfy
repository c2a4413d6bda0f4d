/**
 What every request of the authorization flow keeps: codes, refresh tokens and responses belong
 to sessions of their user, scopes stay within the client's and the user's consent, and the
 consent records are the sums of the grants.
 */
module AuthFlowInvariants {
  import opened Wrappers
  import opened Scopes
  import opened AuthorizeRequests
  import opened Consents
  import opened LoginSessions
  import opened AuthFlow
  import AuthCodes
  import RefreshTokens
  import TokenRevocation

  function Allowed(c: Client): set<string> {
    Elements(Parse(EffectiveScopes(c)))
  }

  ghost predicate SessionOf(sessions: LoginSessions.Table, sid: Option<Sid>, userId: string) {
    sid.Some? && sid.value != "" && sid.value in sessions && sessions[sid.value].userId == userId
  }

  /** A stored scope string: read the same way everywhere, and within what the client may have. */
  ghost predicate ScopeWithin(scope: string, c: Client) {
    ReadsBack(scope) && Elements(Parse(scope)) <= Allowed(c)
  }

  /** The redirect URI the code went to; an empty one is stored as null. */
  function UriOf(row: AuthCodes.AuthCode): string {
    if row.redirectUri.Some? then row.redirectUri.value else ""
  }

  ghost predicate ConsentCovers(cfg: Config, consents: Consents.Table, c: Client, row: AuthCodes.AuthCode) {
    row.scope.Some?
    && (FirstParty(cfg, c, UriOf(row))
        || Covers(consents, (row.userId, c.clientId), Elements(Parse(row.scope.value))))
  }

  ghost predicate CodeOk(cfg: Config, sessions: LoginSessions.Table, consents: Consents.Table,
                         row: AuthCodes.AuthCode)
  {
    && SessionOf(sessions, row.sid, row.userId)
    && FindByClientIdOrAlias(cfg.directory, row.clientId).Ok?
    && var c := FindByClientIdOrAlias(cfg.directory, row.clientId).value;
       && UriOf(row) in c.redirectUris
       && PkceMet(c, row.codeChallenge, row.transform)
       && row.scope.Some? && ScopeWithin(row.scope.value, c)
       && ConsentCovers(cfg, consents, c, row)
  }

  ghost predicate CodesOk(cfg: Config, sessions: LoginSessions.Table, consents: Consents.Table,
                          codes: AuthCodes.Table)
  {
    forall code :: code in codes ==> CodeOk(cfg, sessions, consents, codes[code])
  }

  ghost predicate TokenOk(cfg: Config, sessions: LoginSessions.Table, row: RefreshTokens.Token) {
    && SessionOf(sessions, row.sid, row.userId)
    && row.clientId in cfg.directory.clients
    && ScopeWithin(row.scope, cfg.directory.clients[row.clientId])
  }

  ghost predicate TokensOk(cfg: Config, sessions: LoginSessions.Table, tokens: RefreshTokens.Table) {
    forall id :: id in tokens ==> TokenOk(cfg, sessions, tokens[id])
  }

  /** The session was valid when the code or the tokens went out. */
  ghost predicate WhileValid(session: LoginSession, at: int) {
    at <= session.expiresAt && (session.invalidatedAt.Some? ==> at <= session.invalidatedAt.value)
  }

  ghost predicate EventOk(cfg: Config, now: int, sessions: LoginSessions.Table, e: Event) {
    && e.at <= now
    && SessionOf(sessions, Some(e.sid), e.userId)
    && WhileValid(sessions[e.sid], e.at)
    && (e.TokensIssued? ==>
         e.clientId in cfg.directory.clients && e.named in cfg.directory.clients
         && Elements(e.scopes) <= Allowed(cfg.directory.clients[e.clientId])
         && Elements(e.claim) == Elements(e.scopes) - {OFFLINE_ACCESS})
  }

  ghost predicate LogOk(cfg: Config, now: int, sessions: LoginSessions.Table, log: seq<Event>) {
    forall i :: 0 <= i < |log| ==> EventOk(cfg, now, sessions, log[i])
  }

  ghost predicate Inv(cfg: Config, s: State) {
    && CodesOk(cfg, s.sessions, s.consents, s.codes)
    && TokensOk(cfg, s.sessions, s.tokens)
    && LogOk(cfg, s.now, s.sessions, s.log)
    && Reflects(s.consents, s.grants)
  }

  // ---------------------------------------------------------------------------------------
  // What later sessions and consents leave in place
  // ---------------------------------------------------------------------------------------

  /** Sessions are added and invalidated, now or later; nothing else happens to them. */
  ghost predicate SessionsLater(now: int, t: LoginSessions.Table, t': LoginSessions.Table) {
    forall sid :: sid in t ==>
      && sid in t'
      && t'[sid] == t[sid].(invalidatedAt := t'[sid].invalidatedAt)
      && (t'[sid].invalidatedAt == t[sid].invalidatedAt || (t'[sid].invalidatedAt.Some? && t'[sid].invalidatedAt.value >= now))
  }

  ghost predicate ConsentsLater(t: Consents.Table, t': Consents.Table) {
    forall k :: k in t ==> k in t' && GrantedSet(t[k]) <= GrantedSet(t'[k])
  }

  lemma CodesStayOk(cfg: Config, now: int, sessions: LoginSessions.Table, sessions': LoginSessions.Table,
                    consents: Consents.Table, consents': Consents.Table, codes: AuthCodes.Table)
    requires CodesOk(cfg, sessions, consents, codes)
    requires SessionsLater(now, sessions, sessions') && ConsentsLater(consents, consents')
    ensures CodesOk(cfg, sessions', consents', codes)
  {}

  lemma TokensStayOk(cfg: Config, now: int, sessions: LoginSessions.Table, sessions': LoginSessions.Table,
                     tokens: RefreshTokens.Table)
    requires TokensOk(cfg, sessions, tokens) && SessionsLater(now, sessions, sessions')
    ensures TokensOk(cfg, sessions', tokens)
  {}

  lemma LogStaysOk(cfg: Config, now: int, now': int, sessions: LoginSessions.Table, sessions': LoginSessions.Table,
                   log: seq<Event>)
    requires LogOk(cfg, now, sessions, log) && SessionsLater(now, sessions, sessions') && now <= now'
    ensures LogOk(cfg, now', sessions', log)
  {}

  // ---------------------------------------------------------------------------------------
  // Request by request
  // ---------------------------------------------------------------------------------------

  lemma NewSessionKeeps(cfg: Config, s: State, sid: Sid, userId: string, tenantId: string)
    requires Inv(cfg, s) && sid !in s.sessions
    ensures Inv(cfg, WithSession(cfg, s, sid, userId, tenantId))
    ensures SessionsLater(s.now, s.sessions, WithSession(cfg, s, sid, userId, tenantId).sessions)
  {
    var s' := WithSession(cfg, s, sid, userId, tenantId);
    CodesStayOk(cfg, s.now, s.sessions, s'.sessions, s.consents, s.consents, s.codes);
    TokensStayOk(cfg, s.now, s.sessions, s'.sessions, s.tokens);
    LogStaysOk(cfg, s.now, s.now, s.sessions, s'.sessions, s.log);
  }

  lemma LoggedKeeps(cfg: Config, s: State, e: Event)
    requires Inv(cfg, s) && EventOk(cfg, s.now, s.sessions, e)
    ensures Inv(cfg, Logged(s, e))
  {}

  /** What the endpoint has made sure of before it sends a code. */
  lemma SentCodeChecked(cfg: Config, s: State, q: Query, ui: Signals)
    requires Decide(cfg, s, q, ui).SendCode? && DirectoryOk(cfg.directory)
    ensures var d := Decide(cfg, s, q, ui); var v := d.request;
      && ValidAt(s.sessions, d.sid, s.now) && d.sid != "" && ui.sidCookie == Some(d.sid)
      && ValidateAuthorizeRequest(cfg.directory, q) == Ok(v)
      && (FirstParty(cfg, v.client, v.redirectUri)
          || Covers(s.consents, (s.sessions[d.sid].userId, v.client.clientId), Elements(v.scopes)))
  {
    hide ValidateAuthorizeRequest, ResolveScopes, Covers, FirstParty, FindByClientIdOrAlias, DirectoryOk, PkceMet,
      AllClean, Parse, Join, Elements, EffectiveScopes;
    ValidatedRequest(cfg.directory, q);
  }

  /** Where a code is sent, session, redirect URI, PKCE policy, scopes and consent are in order. */
  lemma SentCodeIsOk(cfg: Config, s: State, q: Query, ui: Signals)
    requires Decide(cfg, s, q, ui).SendCode? && DirectoryOk(cfg.directory)
    ensures var d := Decide(cfg, s, q, ui);
      && ValidAt(s.sessions, d.sid, s.now) && d.sid != "" && q.clientId.Some?
      && CodeOk(cfg, s.sessions, s.consents, CodeRow(s, q.clientId.value, d.request, d.sid, s.sessions[d.sid].userId))
  {
    hide ReadsBack, Parse, Covers, FirstParty, ValidateAuthorizeRequest, ResolveScopes, FindByClientIdOrAlias,
      DirectoryOk, Decide, Join, AllClean, Elements, PlainWords, EffectiveScopes, CodeOk, CodeRow, PkceMet;
    var d := Decide(cfg, s, q, ui);
    SentCodeChecked(cfg, s, q, ui);
    ValidatedRequest(cfg.directory, q);
    JoinReadsBack(d.request.scopes);
    ScopesNotEmpty(d.request.scopes);
    CodeRowOk(cfg, s, q.clientId.value, d.request, d.sid, s.sessions[d.sid].userId);
  }

  lemma CodeRowOk(cfg: Config, s: State, clientId: string, v: Validated, sid: Sid, userId: string)
    requires SessionOf(s.sessions, Some(sid), userId)
    requires FindByClientIdOrAlias(cfg.directory, clientId) == Ok(v.client) && v.redirectUri in v.client.redirectUris
    requires PkceMet(v.client, v.codeChallenge, if Truthy(v.codeChallenge) then Some(v.codeChallengeMethod) else None)
    requires ScopeWithin(v.scope, v.client) && v.scope != ""
    requires FirstParty(cfg, v.client, v.redirectUri)
             || Covers(s.consents, (userId, v.client.clientId), Elements(Parse(v.scope)))
    ensures CodeOk(cfg, s.sessions, s.consents, CodeRow(s, clientId, v, sid, userId))
  {}

  lemma ScopesNotEmpty(scopes: seq<string>)
    requires scopes != [] && AllClean(scopes, IsSeparator)
    ensures Join(scopes) != "" && (ReadsBack(Join(scopes)) ==> Elements(Parse(Join(scopes))) == Elements(scopes))
  {
    JoinReadsBack(scopes);
    assert scopes[0] in Elements(scopes);
    assert Elements(Parse("")) == {};
  }

  lemma AuthorizeKeeps(cfg: Config, s: State, q: Query, ui: Signals, code: AuthCodes.Code)
    requires Inv(cfg, s) && DirectoryOk(cfg.directory)
    ensures Inv(cfg, DoAuthorize(cfg, s, q, ui, code))
  {
    var d := Decide(cfg, s, q, ui);
    if d.SendCode? {
      SentCodeIsOk(cfg, s, q, ui);
      var userId := s.sessions[d.sid].userId;
      var row := CodeRow(s, q.clientId.value, d.request, d.sid, userId);
      var s1 := s.(codes := s.codes[code := row]);
      assert Inv(cfg, s1) by {
        hide CodeOk, TokensOk, LogOk, Reflects, CodeRow;
      }
      LoggedKeeps(cfg, s1, CodeIssued(s.now, d.sid, userId, code));
    }
  }

  lemma ConsentKeeps(cfg: Config, s: State, cookie: Option<Sid>, clientId: string, scope: Option<string>, grant: bool)
    requires Inv(cfg, s)
    ensures Inv(cfg, DoConsent(cfg, s, cookie, clientId, scope, grant))
  {
    var s' := DoConsent(cfg, s, cookie, clientId, scope, grant);
    if s' != s {
      var client := FindByClientIdOrAlias(cfg.directory, clientId).value;
      var requested := Some(if scope.Some? then scope.value else "");
      var scopes := ResolveScopes(requested, EffectiveScopes(client)).value;
      var k := (s.sessions[cookie.value].userId, client.clientId);
      ResolveExact(requested, EffectiveScopes(client));
      GrantWidens(s.consents, k, scopes);
      GrantReflected(s.consents, s.grants, Grant(k, scopes));
      CodesStayOk(cfg, s.now, s.sessions, s.sessions, s.consents, s'.consents, s.codes);
    }
  }

  lemma CanonicalWithin(c: Client, scopes: seq<string>)
    requires AllClean(scopes, IsSeparator) && Elements(scopes) <= Allowed(c)
    ensures ScopeWithin(Format(scopes), c)
  {
    CleanIsSeparatorFree(scopes);
    ParseOfFormat(scopes);
  }

  lemma RespondKeeps(cfg: Config, s: State, client: Client, userId: string, tenantId: string, scopes: seq<string>,
                     sid: Sid, d: Draws)
    requires Inv(cfg, s) && SessionOf(s.sessions, Some(sid), userId) && ValidAt(s.sessions, sid, s.now)
    requires client.clientId in cfg.directory.clients && cfg.directory.clients[client.clientId] == client
    requires AllClean(scopes, IsSeparator) && Elements(scopes) <= Allowed(client)
    ensures Inv(cfg, Respond(cfg, s, client, userId, tenantId, scopes, sid, d))
  {
    CanonicalWithin(client, scopes);
    hide ScopeWithin, CodesOk, Reflects, Format, Allowed;
    var row := RefreshTokens.RootRow(cfg.refresh, s.now, d.plain, d.family, userId, client.clientId, tenantId,
                                     Format(scopes), Some(sid));
    assert TokenOk(cfg, s.sessions, row);
    var s1 := if RefreshEligible(scopes, client) then s.(tokens := s.tokens[d.tokenId := row]) else s;
    assert Inv(cfg, s1) by { hide TokenOk, RefreshTokens.RootRow, EventOk; }
    LoggedKeeps(cfg, s1, TokenResponse(s.now, sid, userId, client.clientId, client.clientId, scopes));
  }

  lemma ResolvedClientListed(cfg: Config, tenantId: string, oauthClientId: Option<string>)
    requires DirectoryOk(cfg.directory) && ResolveClient(cfg, tenantId, oauthClientId).Some?
    ensures var c := ResolveClient(cfg, tenantId, oauthClientId).value;
      c.clientId in cfg.directory.clients && cfg.directory.clients[c.clientId] == c
  {}

  lemma ResolvedWithin(c: Client, requested: Option<string>)
    requires ResolveScopes(requested, EffectiveScopes(c)).Ok?
    ensures var scopes := ResolveScopes(requested, EffectiveScopes(c)).value;
      AllClean(scopes, IsSeparator) && Elements(scopes) <= Allowed(c)
  {
    ResolveExact(requested, EffectiveScopes(c));
  }

  /** A code grant hands over the session of its code; the others start a session. */
  lemma IssueKeeps(cfg: Config, s: State, userId: string, tenantId: string, oauthClientId: Option<string>,
                   requested: Option<string>, sid: Option<Sid>, codeGrant: bool, permitted: bool, d: Draws)
    requires Inv(cfg, s) && DirectoryOk(cfg.directory) && cfg.sessionSeconds >= 0
    requires if codeGrant then SessionOf(s.sessions, sid, userId) else sid.None?
    requires d.sid !in s.sessions && d.sid != ""
    ensures Inv(cfg, IssueTokens(cfg, s, userId, tenantId, oauthClientId, requested, sid, codeGrant, permitted, d))
  {
    hide Inv, ResolveScopes, ResolveClient, Respond, Parse, DirectoryOk, AllClean, Elements, EffectiveScopes;
    var client := ResolveClient(cfg, tenantId, oauthClientId);
    if permitted && client.Some? && ResolveScopes(requested, EffectiveScopes(client.value)).Ok? {
      var scopes := ResolveScopes(requested, EffectiveScopes(client.value)).value;
      ResolvedClientListed(cfg, tenantId, oauthClientId);
      ResolvedWithin(client.value, requested);
      if codeGrant {
        if ValidAt(s.sessions, sid.value, s.now) {
          RespondKeeps(cfg, s, client.value, userId, tenantId, scopes, sid.value, d);
        }
      } else {
        NewSessionKeeps(cfg, s, d.sid, userId, tenantId);
        RespondKeeps(cfg, WithSession(cfg, s, d.sid, userId, tenantId), client.value, userId, tenantId, scopes, d.sid, d);
      }
    }
  }

  lemma RedemptionKeepsCodes(cfg: Config, sessions: LoginSessions.Table, consents: Consents.Table,
                             codes: AuthCodes.Table,
                             code: AuthCodes.Code, now: int)
    requires CodesOk(cfg, sessions, consents, codes)
    ensures var r := AuthCodes.Redeem(codes, code, now);
      CodesOk(cfg, sessions, consents, r.0) && (r.1.Some? ==> SessionOf(sessions, r.1.value.sid, r.1.value.userId))
  {
    if code in codes { assert CodeOk(cfg, sessions, consents, codes[code]); }
    hide ScopeWithin, PkceMet, FindByClientIdOrAlias, FirstParty, GrantedSet, Parse;
    forall c | c in AuthCodes.Redeem(codes, code, now).0
      ensures CodeOk(cfg, sessions, consents, AuthCodes.Redeem(codes, code, now).0[c])
    {
      assert CodeOk(cfg, sessions, consents, codes[c]);
    }
  }

  lemma CodeGrantKeeps(cfg: Config, s: State, req: AuthCodes.Request, scope: Option<string>, permitted: bool, d: Draws)
    requires Inv(cfg, s) && DirectoryOk(cfg.directory) && cfg.sessionSeconds >= 0
    requires d.sid !in s.sessions && d.sid != ""
    ensures Inv(cfg, DoCodeGrant(cfg, s, req, scope, permitted, d))
  {
    hide CodesOk, TokensOk, LogOk, Reflects, IssueTokens, DirectoryOk, AuthCodes.Redeem, AuthCodes.Bound, SessionOf;
    RedemptionKeepsCodes(cfg, s.sessions, s.consents, s.codes, req.code, s.now);
    var r := AuthCodes.Redeem(s.codes, req.code, s.now);
    if r.1.Some? {
      var row := r.1.value;
      IssueKeeps(cfg, s.(codes := r.0), row.userId, row.tenantId, Some(row.clientId),
                 if Truthy(scope) then scope else row.scope, row.sid, true, permitted, d);
    }
  }

  // ---------------------------------------------------------------------------------------
  // Refresh
  // ---------------------------------------------------------------------------------------

  lemma NarrowedScopeWithin(c: Client, requested: Option<string>, record: string)
    requires ScopeWithin(record, c)
    ensures var g := RefreshTokens.GrantedScope(requested, record);
      g.Ok? ==> ScopeWithin(g.value, c)
  {
    if Truthy(requested) { ValidateScopeSubsetExact(requested.value, record); }
  }

  lemma RotationKeepsTokens(cfg: Config, sessions: LoginSessions.Table, t: RefreshTokens.Table, now: int,
                            plain: RefreshTokens.Plaintext, clientId: string, requested: Option<string>,
                            newId: RefreshTokens.Id, newPlain: RefreshTokens.Plaintext)
    requires TokensOk(cfg, sessions, t)
    ensures TokensOk(cfg, sessions, RefreshTokens.RotateCall(cfg.refresh, t, now, plain, clientId, requested,
        newId, newPlain).0)
  {
    hide ScopeWithin;
    var t' := RefreshTokens.RotateCall(cfg.refresh, t, now, plain, clientId, requested, newId, newPlain).0;
    var found := RefreshTokens.FindByHash(t, RefreshTokens.Sha256(plain));
    if found.Some? {
      assert TokenOk(cfg, sessions, t[found.value]);
      NarrowedScopeWithin(cfg.directory.clients[t[found.value].clientId], requested, t[found.value].scope);
    }
    forall id | id in t' ensures TokenOk(cfg, sessions, t'[id]) {
      if id in t { assert TokenOk(cfg, sessions, t[id]); }
    }
  }

  lemma DefaultClientListed(cfg: Config, alias: string)
    requires DirectoryOk(cfg.directory) && FindByAlias(cfg.directory, alias).Some?
    ensures var c := FindByAlias(cfg.directory, alias).value;
      c.clientId in cfg.directory.clients && cfg.directory.clients[c.clientId] == c
  {}

  lemma RefreshedKeeps(cfg: Config, s: State, row: RefreshTokens.Token, permitted: bool, d: Draws)
    requires Inv(cfg, s) && TokenOk(cfg, s.sessions, row) && DirectoryOk(cfg.directory)
    ensures Inv(cfg, Refreshed(cfg, s, row, permitted, d))
  {
    hide CodesOk, TokensOk, LogOk, Reflects, FindByAlias, Parse, DirectoryOk;
    var named := FindByAlias(cfg.directory, cfg.domainOf(row.tenantId));
    if named.Some? && Truthy(row.sid) && ValidAt(s.sessions, row.sid.value, s.now) {
      DefaultClientListed(cfg, cfg.domainOf(row.tenantId));
      LoggedKeeps(cfg, s, TokenResponse(s.now, row.sid.value, row.userId, row.clientId, named.value.clientId,
          Parse(row.scope)));
    }
  }

  lemma ListedTokenOk(cfg: Config, sessions: LoginSessions.Table, t: RefreshTokens.Table, id: RefreshTokens.Id)
    requires TokensOk(cfg, sessions, t) && id in t
    ensures TokenOk(cfg, sessions, t[id])
  {}

  lemma RefreshKeeps(cfg: Config, s: State, plain: RefreshTokens.Plaintext, clientId: string, authenticated: bool,
                     scope: Option<string>, permitted: bool, d: Draws)
    requires Inv(cfg, s) && DirectoryOk(cfg.directory)
    ensures Inv(cfg, DoRefresh(cfg, s, plain, clientId, authenticated, scope, permitted, d))
  {
    hide RefreshTokens.RotateCall, CodesOk, TokensOk, LogOk, Reflects, Refreshed, FindByClientIdOrAlias, DirectoryOk;
    var client := FindByClientIdOrAlias(cfg.directory, clientId);
    if client.Ok? && authenticated {
      var r := RefreshTokens.RotateCall(cfg.refresh, s.tokens, s.now, plain, client.value.clientId, scope, d.tokenId, d.plain);
      RotationKeepsTokens(cfg, s.sessions, s.tokens, s.now, plain, client.value.clientId, scope, d.tokenId, d.plain);
      var s1 := s.(tokens := r.0);
      if (r.1.Rotated? || r.1.Replayed?) && r.1.child in r.0 {
        ListedTokenOk(cfg, s.sessions, r.0, r.1.child);
        RefreshedKeeps(cfg, s1, r.0[r.1.child], permitted, d);
      }
    }
  }

  // ---------------------------------------------------------------------------------------
  // The rest, and whole runs
  // ---------------------------------------------------------------------------------------

  lemma RevocationKeepsTokens(cfg: Config, sessions: LoginSessions.Table, t: RefreshTokens.Table,
                              t': RefreshTokens.Table)
    requires TokensOk(cfg, sessions, t) && TokenRevocation.OnlyRevokes(t, t')
    ensures TokensOk(cfg, sessions, t')
  {}

  lemma RevokedByOnlyRevokes(t: RefreshTokens.Table, tenantId: string, plain: RefreshTokens.Plaintext)
    ensures TokenRevocation.OnlyRevokes(t, TokenRevocation.RevokedBy(t, tenantId, plain))
  {}

  lemma LogoutKeeps(cfg: Config, s: State, tenantId: Option<string>, refreshToken: Option<RefreshTokens.Plaintext>,
                    sid: Option<Sid>)
    requires Inv(cfg, s)
    ensures Inv(cfg, DoLogout(s, tenantId, refreshToken, sid))
  {
    var s' := DoLogout(s, tenantId, refreshToken, sid);
    TokenRevocation.LogoutOnlyRevokes(s.tokens, tenantId, refreshToken, sid);
    assert SessionsLater(s.now, s.sessions, s'.sessions);
    hide TokenRevocation.TokensAfterLogout, TokenRevocation.SessionsAfterLogout, TokenOk, CodeOk, EventOk,
      SessionsLater, TokenRevocation.OnlyRevokes, Reflects;
    RevocationKeepsTokens(cfg, s.sessions, s.tokens, s'.tokens);
    TokensStayOk(cfg, s.now, s.sessions, s'.sessions, s'.tokens);
    CodesStayOk(cfg, s.now, s.sessions, s'.sessions, s.consents, s.consents, s.codes);
    LogStaysOk(cfg, s.now, s.now, s.sessions, s'.sessions, s.log);
  }

  lemma CleanKeepsCodes(cfg: Config, sessions: LoginSessions.Table, consents: Consents.Table, codes: AuthCodes.Table,
                        now: int)
    requires CodesOk(cfg, sessions, consents, codes)
    ensures CodesOk(cfg, sessions, consents, AuthCodes.WithoutStale(codes, now))
  {}

  lemma StepKeepsInv(cfg: Config, s: State, step: Step)
    requires Inv(cfg, s) && DirectoryOk(cfg.directory) && cfg.sessionSeconds >= 0
    ensures Inv(cfg, Apply(cfg, s, step))
  {
    hide CodesOk, TokensOk, LogOk, Reflects, DirectoryOk, DoAuthorize, DoConsent, DoCodeGrant, DoRefresh, IssueTokens,
      AuthCodes.WithoutStale, TokenRevocation.RevokedBy, RefreshTokens.HashIn;
    var d := step.draws;
    if Unseen(s, d) {
      match step.action
      case Tick(ms) => LogLater(cfg, s.now, s.now + ms, s.sessions, s.log);
      case Login(userId, clientId) =>
        var found := FindByClientIdOrAlias(cfg.directory, clientId);
        if found.Ok? { NewSessionKeeps(cfg, s, d.sid, userId, found.value.tenantId); }
      case Authorize(q, ui) => AuthorizeKeeps(cfg, s, q, ui, d.code);
      case DecideConsent(cookie, clientId, scope, grant) => ConsentKeeps(cfg, s, cookie, clientId, scope, grant);
      case CodeGrant(req, scope, permitted) => CodeGrantKeeps(cfg, s, req, scope, permitted, d);
      case PasswordGrant(userId, clientId, scope, permitted) =>
        var found := FindByClientIdOrAlias(cfg.directory, clientId);
        if found.Ok? {
          IssueKeeps(cfg, s, userId, found.value.tenantId, Some(clientId), scope, None, false, permitted, d);
        }
      case Exchange(userId, clientId, permitted) =>
        var found := FindByClientIdOrAlias(cfg.directory, clientId);
        if found.Ok? { IssueKeeps(cfg, s, userId, found.value.tenantId, None, None, None, false, permitted, d); }
      case RefreshGrant(plain, clientId, authenticated, scope, permitted) =>
        RefreshKeeps(cfg, s, plain, clientId, authenticated, scope, permitted, d);
      case Logout(tenantId, refreshToken, sid) => LogoutKeeps(cfg, s, tenantId, refreshToken, sid);
      case Revoke(tenant, plain) =>
        RevokedByOnlyRevokes(s.tokens, tenant, plain);
        RevocationKeepsTokens(cfg, s.sessions, s.tokens, TokenRevocation.RevokedBy(s.tokens, tenant, plain));
      case CleanCodes => CleanKeepsCodes(cfg, s.sessions, s.consents, s.codes, s.now);
    }
  }

  lemma LogLater(cfg: Config, now: int, now': int, sessions: LoginSessions.Table, log: seq<Event>)
    requires LogOk(cfg, now, sessions, log) && now <= now'
    ensures LogOk(cfg, now', sessions, log)
  {}

  lemma {:induction false} RunKeepsInv(cfg: Config, s: State, steps: seq<Step>)
    requires Inv(cfg, s) && DirectoryOk(cfg.directory) && cfg.sessionSeconds >= 0
    ensures Inv(cfg, Run(cfg, s, steps))
    decreases steps
  {
    hide Inv, Apply, DirectoryOk;
    if steps != [] {
      StepKeepsInv(cfg, s, steps[0]);
      RunKeepsInv(cfg, Apply(cfg, s, steps[0]), steps[1..]);
    }
  }

  lemma InitInv(cfg: Config, now: int)
    ensures Inv(cfg, Init(now))
  {}
}
