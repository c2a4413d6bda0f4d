/**
 What each request of the authorization flow does, said in terms of the tables: when it answers,
 with what, and what it changes.
 */
module AuthFlowEndpoints {
  import opened Wrappers
  import opened Scopes
  import opened AuthorizeRequests
  import opened Consents
  import opened LoginSessions
  import opened AuthFlow
  import opened AuthFlowInvariants
  import opened AuthFlowTheorems
  import AuthCodes
  import RefreshTokens
  import TokenRevocation

  // ---------------------------------------------------------------------------------------
  // Login
  // ---------------------------------------------------------------------------------------

  /** A session of this user in the client's tenant, valid for the configured time from now. */
  ghost predicate Started(cfg: Config, now: int, session: LoginSession, userId: string, tenantId: string) {
    && session.userId == userId && session.tenantId == tenantId && session.invalidatedAt == None
    && session.authTime * 1000 <= now < session.authTime * 1000 + 1000
    && session.expiresAt == now + cfg.sessionSeconds * 1000
  }

  /** A login for a known client starts one session and does nothing else. */
  lemma LoginMeaning(cfg: Config, s: State, userId: string, clientId: string, d: Draws)
    requires Unseen(s, d)
    ensures var s' := Apply(cfg, s, Step(Login(userId, clientId), d));
      var found := FindByClientIdOrAlias(cfg.directory, clientId);
      if found.Ok? then
        && d.sid in s'.sessions && Started(cfg, s.now, s'.sessions[d.sid], userId, found.value.tenantId)
        && s' == s.(sessions := s.sessions[d.sid := s'.sessions[d.sid]])
      else s' == s
  {
    hide FindByClientIdOrAlias, UnseenToken;
  }

  /** The session of a login is valid for exactly the configured time, as long as nobody ends it. */
  lemma LoginLasts(cfg: Config, s: State, userId: string, clientId: string, d: Draws, ms: nat, e: Draws)
    requires Unseen(s, d) && FindByClientIdOrAlias(cfg.directory, clientId).Ok?
    requires Unseen(Apply(cfg, s, Step(Login(userId, clientId), d)), e)
    ensures var s1 := Apply(cfg, s, Step(Login(userId, clientId), d));
      var s2 := Apply(cfg, s1, Step(Tick(ms), e));
      ValidAt(s2.sessions, d.sid, s2.now) <==> ms <= cfg.sessionSeconds * 1000
  {
    hide FindByClientIdOrAlias, UnseenToken;
    LoginMeaning(cfg, s, userId, clientId, d);
  }

  // ---------------------------------------------------------------------------------------
  // Authorize: which page or reply
  // ---------------------------------------------------------------------------------------

  predicate Prompted(q: Query, prompt: string) {
    q.prompt == Some(prompt)
  }

  predicate NoPrompt(q: Query) {
    q.prompt.None? || q.prompt.value == ""
  }

  /** The request is valid, was not denied, and no login is asked for; its prompt is supported. */
  predicate Goes(cfg: Config, q: Query, ui: Signals) {
    && ValidateAuthorizeRequest(cfg.directory, q).Ok?
    && !ui.consentDenied && !ui.fromLogout
    && (NoPrompt(q) || Prompted(q, "none") || Prompted(q, "consent"))
  }

  ghost predicate HasSession(s: State, q: Query, ui: Signals) {
    RecentSession(s, ui.sidCookie, q.maxAge)
  }

  ghost predicate Consented(cfg: Config, s: State, q: Query, ui: Signals)
    requires ValidateAuthorizeRequest(cfg.directory, q).Ok? && HasSession(s, q, ui)
  {
    Agreed(cfg, s, ValidateAuthorizeRequest(cfg.directory, q).value, s.sessions[ui.sidCookie.value].userId)
  }

  predicate Confirmed(cfg: Config, q: Query, ui: Signals)
    requires ValidateAuthorizeRequest(cfg.directory, q).Ok?
  {
    ValidateAuthorizeRequest(cfg.directory, q).value.client.skipSessionConfirm || ui.confirmed
  }

  /** Every outcome of the authorize endpoint, each with the condition for it. An error goes out
      for an invalid or denied request, an unsupported prompt, or `none` without a session; the
      login page is shown when a login is asked for or there is no session; the consent page when
      it is asked for after confirmation, or consent is missing; the confirmation page when only
      that is missing, or before the consent page; otherwise a code is sent in the session. */
  lemma DecisionIff(cfg: Config, s: State, q: Query, ui: Signals)
    ensures var r := ValidateAuthorizeRequest(cfg.directory, q);
      var decision := Decide(cfg, s, q, ui);
      && (r.Err? ==> decision == ErrorReply(r.error))
      && (r.Ok? && ui.consentDenied ==> decision == ErrorReply(Redirected(r.value.redirectUri, "access_denied")))
      && (r.Ok? && !ui.consentDenied && (ui.fromLogout || Prompted(q, "login")) ==> decision == LoginPage)
      && (r.Ok? && !ui.consentDenied && !ui.fromLogout && !Prompted(q, "login") && !Goes(cfg, q, ui) ==>
           decision == ErrorReply(Redirected(r.value.redirectUri, "invalid_request")))
      && (Goes(cfg, q, ui) && !HasSession(s, q, ui) ==>
           decision == if Prompted(q, "none") then ErrorReply(Redirected(r.value.redirectUri, "login_required")) else LoginPage)
      && (Goes(cfg, q, ui) && HasSession(s, q, ui) && Prompted(q, "consent") ==>
           decision == if Confirmed(cfg, q, ui) then ConsentPage else ConfirmPage)
      && (Goes(cfg, q, ui) && HasSession(s, q, ui) && !Prompted(q, "consent") ==>
           decision == if !Consented(cfg, s, q, ui) then ConsentPage
                       else if Confirmed(cfg, q, ui) then SendCode(r.value, ui.sidCookie.value) else ConfirmPage)
  {
    hide ValidateAuthorizeRequest, FirstParty, Covers, FindByClientIdOrAlias, DirectoryOk, PkceMet,
      AllClean, Parse, Join, Elements, EffectiveScopes, DecideInSession, ResolveSession, Agreed, RecentSession;
    var r := ValidateAuthorizeRequest(cfg.directory, q);
    if r.Ok? {
      ValidatedRequest(cfg.directory, q);
      SessionFound(s, ui.sidCookie, q.maxAge);
      if HasSession(s, q, ui) { InSession(cfg, s, r.value, ui.sidCookie.value, ui); }
    }
  }

  lemma InSession(cfg: Config, s: State, v: Validated, sid: Sid, ui: Signals)
    requires sid in s.sessions && ResolveScopes(Some(v.scope), EffectiveScopes(v.client)) == Ok(v.scopes)
    ensures DecideInSession(cfg, s, v, sid, ui) ==
      if v.prompt == Some("consent") then (if v.client.skipSessionConfirm || ui.confirmed then ConsentPage else ConfirmPage)
      else if !Agreed(cfg, s, v, s.sessions[sid].userId) then ConsentPage
      else if v.client.skipSessionConfirm || ui.confirmed then SendCode(v, sid) else ConfirmPage
  {
    hide ResolveScopes, Covers, Elements, EffectiveScopes;
  }

  /** What a stored code is bound to. */
  ghost predicate BoundTo(row: AuthCodes.AuthCode, now: int, q: Query, v: Validated, sid: Sid, userId: string) {
    && Some(row.clientId) == q.clientId && row.userId == userId && row.tenantId == v.client.tenantId
    && row.redirectUri == (if v.redirectUri == "" then None else Some(v.redirectUri))
    && row.scope == Some(v.scope) && row.sid == Some(sid)
    && row.codeChallenge == (if v.codeChallenge == Some("") then None else v.codeChallenge)
    && row.transform == (if v.codeChallenge in [None, Some("")] then None else Some(v.codeChallengeMethod))
    && row.expiresAt == now + 300_000 && !row.used && row.usedAt == None
  }

  /** A request for which a code is sent stores one code, bound to what was asked and to the session,
      for five minutes, and does nothing else; any other changes nothing. */
  lemma AuthorizeMeaning(cfg: Config, s: State, q: Query, ui: Signals, d: Draws)
    requires Unseen(s, d) && DirectoryOk(cfg.directory)
    ensures var s' := Apply(cfg, s, Step(Authorize(q, ui), d));
      var decision := Decide(cfg, s, q, ui);
      if decision.SendCode? then
        && decision.sid in s.sessions && d.code in s'.codes
        && BoundTo(s'.codes[d.code], s.now, q, decision.request, decision.sid, s.sessions[decision.sid].userId)
        && s' == s.(codes := s.codes[d.code := s'.codes[d.code]],
                    log := s.log + [CodeIssued(s.now, decision.sid, s.sessions[decision.sid].userId, d.code)])
      else s' == s
  {
    hide Decide, DirectoryOk, FindByClientIdOrAlias, UnseenToken, Parse, PkceMet, CodeOk, ValidateAuthorizeRequest,
      AllClean, Join, EffectiveScopes;
    if Decide(cfg, s, q, ui).SendCode? {
      SentCodeIsOk(cfg, s, q, ui);
      SentCodeChecked(cfg, s, q, ui);
      ValidatedRequest(cfg.directory, q);
      ScopesNotEmpty(Decide(cfg, s, q, ui).request.scopes);
    }
  }

  // ---------------------------------------------------------------------------------------
  // Consent
  // ---------------------------------------------------------------------------------------

  function Asked(scope: Option<string>): set<string> {
    if scope.None? then {} else Elements(Parse(scope.value))
  }

  /** A decision counts if the session is valid, the client known, and some scope is left; then a
      grant widens the record of the session's user and the client by exactly those scopes. */
  lemma ConsentMeaning(cfg: Config, s: State, cookie: Option<Sid>, clientId: string, scope: Option<string>, grant: bool,
                       d: Draws)
    requires Unseen(s, d)
    ensures var s' := Apply(cfg, s, Step(DecideConsent(cookie, clientId, scope, grant), d));
      var found := FindByClientIdOrAlias(cfg.directory, clientId);
      if grant && cookie.Some? && cookie.value != "" && ValidAt(s.sessions, cookie.value, s.now)
         && found.Ok? && Asked(scope) * Allowed(found.value) != {}
      then
        var k := (s.sessions[cookie.value].userId, found.value.clientId);
        && k in s'.consents && s'.grants != [] && |s'.grants| == |s.grants| + 1
        && GrantedSet(s'.consents[k]) == (if k in s.consents then GrantedSet(s.consents[k]) else {}) + Asked(scope) * Allowed(found.value)
        && s'.consents[k].version == (if k in s.consents then s.consents[k].version else 0) + 1
        && s' == s.(consents := s.consents[k := s'.consents[k]], grants := s'.grants)
        && s'.grants == s.grants + [Grant(k, s'.grants[|s.grants|].scopes)]
        && Elements(s'.grants[|s.grants|].scopes) == Asked(scope) * Allowed(found.value)
      else s' == s
  {
    hide FindByClientIdOrAlias, ResolveScopes, Parse, UnseenToken, EffectiveScopes, Granted, GrantedSet, AllClean;
    NothingParsed();
    var found := FindByClientIdOrAlias(cfg.directory, clientId);
    if found.Ok? && cookie.Some? && ValidAt(s.sessions, cookie.value, s.now) {
      var requested := Some(if scope.Some? then scope.value else "");
      ResolveExact(requested, EffectiveScopes(found.value));
      var resolved := ResolveScopes(requested, EffectiveScopes(found.value));
      var k := (s.sessions[cookie.value].userId, found.value.clientId);
      if resolved.Ok? {
        GrantWidens(s.consents, k, resolved.value);
        assert Granted(s.consents, k, resolved.value) == s.consents[k := Granted(s.consents, k, resolved.value)[k]];
      }
    }
  }

  lemma NothingParsed()
    ensures Parse("") == []
  {}

  // ---------------------------------------------------------------------------------------
  // Token responses
  // ---------------------------------------------------------------------------------------

  /** The scopes asked for, or all of the client's, that the client may have. */
  function Grantable(c: Client, requested: Option<string>): set<string> {
    (if requested.None? then Allowed(c) else Elements(Parse(requested.value))) * Allowed(c)
  }

  /** The response of this client in this session, with a refresh token exactly if the client or
      the scopes allow one, after the codes and sessions changed as given. */
  ghost predicate Answered(cfg: Config, s: State, s': State, c: Client, userId: string, tenantId: string,
                           granted: set<string>, sid: Sid, d: Draws)
  {
    && |s'.log| == |s.log| + 1 && s.log <= s'.log && s'.log[|s.log|].TokensIssued?
    && var e := s'.log[|s.log|];
       && e.at == s.now && e.sid == sid && e.userId == userId && e.clientId == c.clientId && e.named == c.clientId
       && Ascending(e.scopes) && Elements(e.scopes) == granted && Elements(e.claim) == granted - {"offline_access"}
       && s'.tokens == if "offline_access" in granted || c.allowRefreshToken
                       then s.tokens[d.tokenId := RefreshTokens.RootRow(cfg.refresh, s.now, d.plain, d.family,
                           userId, c.clientId,
                                                                        tenantId, Format(e.scopes), Some(sid))]
                       else s.tokens
  }

  lemma Responds(cfg: Config, s: State, c: Client, userId: string, tenantId: string, scopes: seq<string>, sid: Sid, d: Draws)
    requires Ascending(scopes)
    ensures var s' := Respond(cfg, s, c, userId, tenantId, scopes, sid, d);
      && Answered(cfg, s, s', c, userId, tenantId, Elements(scopes), sid, d)
      && s'.sessions == s.sessions && s'.codes == s.codes && s'.now == s.now && s'.consents == s.consents && s'.grants == s.grants
  {
    hide Format, ScopeClaim, RefreshTokens.RootRow;
  }

  /** Issuing in a session that is there: answered exactly if the client is found, some scope is
      left and the session, if one is named, is valid. */
  lemma IssuedIff(cfg: Config, s: State, userId: string, tenantId: string, oauthClientId: Option<string>,
                  requested: Option<string>, sid: Option<Sid>, permitted: bool, d: Draws)
    ensures var s' := IssueTokens(cfg, s, userId, tenantId, oauthClientId, requested, sid, true, permitted, d);
      var client := ResolveClient(cfg, tenantId, oauthClientId);
      var named := sid.Some? && sid.value != "";
      && s'.sessions == s.sessions && s'.codes == s.codes && s'.now == s.now && s'.consents == s.consents && s'.grants == s.grants
      && if permitted && client.Some? && Grantable(client.value, requested) != {}
            && (named ==> ValidAt(s.sessions, sid.value, s.now))
         then Answered(cfg, s, s', client.value, userId, tenantId, Grantable(client.value, requested),
                       if named then sid.value else d.sid, d)
         else s' == s
  {
    hide ResolveClient, ResolveScopes, Parse, EffectiveScopes, ValidAt, AllClean, Respond, Answered;
    var client := ResolveClient(cfg, tenantId, oauthClientId);
    if client.Some? {
      ResolveExact(requested, EffectiveScopes(client.value));
      var resolved := ResolveScopes(requested, EffectiveScopes(client.value));
      if resolved.Ok? {
        Responds(cfg, s, client.value, userId, tenantId, resolved.value, if Truthy(sid) then sid.value else d.sid, d);
      }
    }
  }

  /** Issuing with a new session: answered exactly if the client is found and some scope is left. */
  lemma IssuedAnewIff(cfg: Config, s: State, userId: string, tenantId: string, oauthClientId: Option<string>,
                      requested: Option<string>, permitted: bool, d: Draws)
    ensures var s' := IssueTokens(cfg, s, userId, tenantId, oauthClientId, requested, None, false, permitted, d);
      var client := ResolveClient(cfg, tenantId, oauthClientId);
      if permitted && client.Some? && Grantable(client.value, requested) != {} then
        && d.sid in s'.sessions && Started(cfg, s.now, s'.sessions[d.sid], userId, tenantId)
        && s'.sessions == s.sessions[d.sid := s'.sessions[d.sid]]
        && s'.codes == s.codes && s'.now == s.now && s'.consents == s.consents && s'.grants == s.grants
        && Answered(cfg, s, s', client.value, userId, tenantId, Grantable(client.value, requested), d.sid, d)
      else s' == s
  {
    hide ResolveClient, ResolveScopes, Parse, EffectiveScopes, AllClean, Respond, Answered;
    var client := ResolveClient(cfg, tenantId, oauthClientId);
    if client.Some? {
      ResolveExact(requested, EffectiveScopes(client.value));
      var resolved := ResolveScopes(requested, EffectiveScopes(client.value));
      if resolved.Ok? {
        var s1 := WithSession(cfg, s, d.sid, userId, tenantId);
        Responds(cfg, s1, client.value, userId, tenantId, resolved.value, d.sid, d);
        SessionsDoNotMatter(cfg, s, s1, Respond(cfg, s1, client.value, userId, tenantId, resolved.value, d.sid, d));
      }
    }
  }

  lemma SessionsDoNotMatter(cfg: Config, s: State, s1: State, s': State)
    requires s1 == s.(sessions := s1.sessions)
    ensures forall c, userId, tenantId, granted, sid, d ::
      Answered(cfg, s1, s', c, userId, tenantId, granted, sid, d) ==> Answered(cfg, s, s', c, userId, tenantId, granted, sid, d)
  {}

  /** The client of this id or alias; without an id the default client of the tenant. */
  function ClientFor(cfg: Config, tenantId: string, clientId: string): Option<Client> {
    if clientId == "" then FindByAlias(cfg.directory, cfg.domainOf(tenantId))
    else match FindByClientIdOrAlias(cfg.directory, clientId)
      case Ok(c) => Some(c)
      case Err(_) => None
  }

  lemma ResolvedClient(cfg: Config, tenantId: string, clientId: string)
    ensures ResolveClient(cfg, tenantId, Some(clientId)) == ClientFor(cfg, tenantId, clientId)
    ensures ResolveClient(cfg, tenantId, None) == ClientFor(cfg, tenantId, "")
  {
    hide FindByClientIdOrAlias, FindByAlias;
  }

  /** The password grant: answered exactly if the client is known and has this grant, the user may
      have the tokens and some scope is left; then in a new session. Otherwise nothing happens. */
  lemma PasswordGrantIff(cfg: Config, s: State, userId: string, clientId: string, scope: Option<string>, permitted: bool,
                         d: Draws)
    requires Unseen(s, d)
    ensures var s' := Apply(cfg, s, Step(PasswordGrant(userId, clientId, scope, permitted), d));
      var found := FindByClientIdOrAlias(cfg.directory, clientId);
      var client := if found.Ok? then ClientFor(cfg, found.value.tenantId, clientId) else None;
      if found.Ok? && found.value.allowPasswordGrant && permitted && client.Some? && Grantable(client.value, scope) != {} then
        && d.sid in s'.sessions && Started(cfg, s.now, s'.sessions[d.sid], userId, found.value.tenantId)
        && s'.sessions == s.sessions[d.sid := s'.sessions[d.sid]] && s'.codes == s.codes && s'.consents == s.consents
        && Answered(cfg, s, s', client.value, userId, found.value.tenantId, Grantable(client.value, scope), d.sid, d)
      else s' == s
  {
    hide IssueTokens, FindByClientIdOrAlias, ResolveClient, ClientFor, Answered, Grantable, Started, UnseenToken;
    var found := FindByClientIdOrAlias(cfg.directory, clientId);
    if found.Ok? {
      ResolvedClient(cfg, found.value.tenantId, clientId);
      IssuedAnewIff(cfg, s, userId, found.value.tenantId, Some(clientId), scope, permitted, d);
    }
  }

  /** The exchange: in the tenant of the named client, but for the default client of that tenant. */
  lemma ExchangeIff(cfg: Config, s: State, userId: string, clientId: string, permitted: bool, d: Draws)
    requires Unseen(s, d)
    ensures var s' := Apply(cfg, s, Step(Exchange(userId, clientId, permitted), d));
      var found := FindByClientIdOrAlias(cfg.directory, clientId);
      var default := if found.Ok? then FindByAlias(cfg.directory, cfg.domainOf(found.value.tenantId)) else None;
      if default.Some? && permitted && Allowed(default.value) != {} then
        && d.sid in s'.sessions && Started(cfg, s.now, s'.sessions[d.sid], userId, found.value.tenantId)
        && s'.sessions == s.sessions[d.sid := s'.sessions[d.sid]] && s'.codes == s.codes && s'.consents == s.consents
        && Answered(cfg, s, s', default.value, userId, found.value.tenantId, Allowed(default.value), d.sid, d)
      else s' == s
  {
    hide IssueTokens, FindByClientIdOrAlias, FindByAlias, ResolveClient, Answered, Allowed, Started, UnseenToken;
    var found := FindByClientIdOrAlias(cfg.directory, clientId);
    if found.Ok? {
      ResolvedClient(cfg, found.value.tenantId, "");
      IssuedAnewIff(cfg, s, userId, found.value.tenantId, None, None, permitted, d);
      var default := FindByAlias(cfg.directory, cfg.domainOf(found.value.tenantId));
      assert default.Some? ==> Grantable(default.value, None) == Allowed(default.value);
    }
  }

  /** The code can be redeemed, and the request is from the client, redirect URI and verifier that
      it was created for. */
  ghost predicate CodeMatches(cfg: Config, s: State, req: AuthCodes.Request) {
    && req.code in s.codes && !s.codes[req.code].used && s.now < s.codes[req.code].expiresAt
    && AuthCodes.Answers(cfg.digests, s.codes[req.code], req)
  }

  /** The code is there, unused and unexpired. */
  ghost predicate Redeems(s: State, code: AuthCodes.Code) {
    code in s.codes && !s.codes[code].used && s.now < s.codes[code].expiresAt
  }

  /** What the code grant asks for: the scope of the request or else of the code. */
  function Requested(row: AuthCodes.AuthCode, scope: Option<string>): Option<string> {
    if Missing(scope) then row.scope else scope
  }

  /** The code matches, the user may have the tokens, the client is there, some scope is left, and
      the session of the code is valid. */
  ghost predicate Grants(cfg: Config, s: State, req: AuthCodes.Request, scope: Option<string>, permitted: bool) {
    && CodeMatches(cfg, s, req) && permitted
    && var row := s.codes[req.code]; var client := ClientFor(cfg, row.tenantId, row.clientId);
       && client.Some? && Grantable(client.value, Requested(row, scope)) != {}
       && (Missing(row.sid) || ValidAt(s.sessions, row.sid.value, s.now))
  }

  /** The code grant: a redeemable code is spent in any case. It is answered exactly if it matches
      the request, the user may have the tokens, the client is still known, some of the scopes
      asked for, by default those of the code, is left, and the code's session is valid. */
  lemma CodeGrantIff(cfg: Config, s: State, req: AuthCodes.Request, scope: Option<string>, permitted: bool, d: Draws)
    requires Unseen(s, d)
    ensures var s' := Apply(cfg, s, Step(CodeGrant(req, scope, permitted), d));
      && s'.sessions == s.sessions && s'.consents == s.consents && s'.grants == s.grants && s'.now == s.now
      && s'.codes == (if Redeems(s, req.code) then s.codes[req.code := s.codes[req.code].(used := true, usedAt := Some(s.now))]
                      else s.codes)
      && if Grants(cfg, s, req, scope, permitted) then
           var row := s.codes[req.code]; var client := ClientFor(cfg, row.tenantId, row.clientId).value;
           Answered(cfg, s, s', client, row.userId, row.tenantId, Grantable(client, Requested(row, scope)),
                    if Missing(row.sid) then d.sid else row.sid.value, d)
         else s'.log == s.log && s'.tokens == s.tokens
  {
    hide IssueTokens, ResolveClient, ClientFor, Grantable, UnseenToken, AuthCodes.Bound, AuthCodes.Answers, ValidAt, Answered;
    if Redeems(s, req.code) {
      var row := s.codes[req.code];
      var s1 := s.(codes := s.codes[req.code := AuthCodes.Spent(row, s.now)]);
      AuthCodes.BoundIff(cfg.digests, row, req);
      BoundAfterSpending(cfg.digests, row, s.now, req);
      ResolvedClient(cfg, row.tenantId, row.clientId);
      assert Requested(row, scope) == if Truthy(scope) then scope else row.scope;
      assert Apply(cfg, s, Step(CodeGrant(req, scope, permitted), d)) ==
        if !AuthCodes.Bound(cfg.digests, row, req) then s1
        else IssueTokens(cfg, s1, row.userId, row.tenantId, Some(row.clientId), Requested(row, scope), row.sid,
            true, permitted, d);
      IssuedIff(cfg, s1, row.userId, row.tenantId, Some(row.clientId), Requested(row, scope), row.sid, permitted, d);
      CodesDoNotMatter(cfg, s, s1, Apply(cfg, s, Step(CodeGrant(req, scope, permitted), d)));
    }
  }

  lemma BoundAfterSpending(digests: AuthCodes.Digests, row: AuthCodes.AuthCode, now: int, req: AuthCodes.Request)
    ensures AuthCodes.Bound(digests, AuthCodes.Spent(row, now), req) == AuthCodes.Bound(digests, row, req)
  {}

  lemma CodesDoNotMatter(cfg: Config, s: State, s1: State, s': State)
    requires s1 == s.(codes := s1.codes)
    ensures forall c, userId, tenantId, granted, sid, d ::
      Answered(cfg, s1, s', c, userId, tenantId, granted, sid, d) ==> Answered(cfg, s, s', c, userId, tenantId, granted, sid, d)
  {}

  // ---------------------------------------------------------------------------------------
  // Logout
  // ---------------------------------------------------------------------------------------

  /** With a sid: that session is invalidated now and its tokens are revoked. Without one, but with
      a token and its tenant: the family of the token is revoked, and nothing else changes. Without
      either nothing happens. */
  lemma LogoutRequestMeaning(cfg: Config, s: State, tenantId: Option<string>, refreshToken: Option<RefreshTokens.Plaintext>,
                             sid: Option<Sid>, d: Draws, id: RefreshTokens.Id)
    requires Unseen(s, d) && RefreshTokens.UniqueHashes(s.tokens) && id in s.tokens
    ensures var s' := Apply(cfg, s, Step(Logout(tenantId, refreshToken, sid), d));
      && s' == s.(sessions := s'.sessions, tokens := s'.tokens) && id in s'.tokens
      && (!Missing(sid) ==>
           && s'.sessions == (if sid.value in s.sessions then s.sessions[sid.value := s.sessions[sid.value].(invalidatedAt := Some(s.now))]
                              else s.sessions)
           && (s.tokens[id].sid == sid ==> s'.tokens[id] == s.tokens[id].(revoked := true)))
      && (Missing(sid) ==>
           && s'.sessions == s.sessions
           && if Missing(tenantId) || refreshToken.None? then s'.tokens == s.tokens
              else TokenRevocation.Revocable(s.tokens, id, tenantId.value, refreshToken.value) ==>
                     RefreshTokens.FamilyRevoked(s.tokens, s'.tokens, s.tokens[id].familyId))
  {
    hide UnseenToken, RefreshTokens.UniqueHashes, TokenRevocation.TokensAfterLogout, RefreshTokens.FamilyRevoked;
    TokenRevocation.LogoutMeaning(s.tokens, tenantId, refreshToken, sid, id);
    TokenRevocation.LogoutOnlyRevokes(s.tokens, tenantId, refreshToken, sid);
  }

  // ---------------------------------------------------------------------------------------
  // Time and cleanup
  // ---------------------------------------------------------------------------------------

  /** The cleanup job removes exactly used codes and those whose expiry has passed. */
  lemma CleanupMeaning(cfg: Config, s: State, d: Draws, code: AuthCodes.Code)
    requires Unseen(s, d)
    ensures var s' := Apply(cfg, s, Step(CleanCodes, d));
      && s' == s.(codes := s'.codes)
      && (code in s'.codes <==> code in s.codes && !s.codes[code].used && s.now <= s.codes[code].expiresAt)
      && (code in s'.codes ==> s'.codes[code] == s.codes[code])
  {}
}
