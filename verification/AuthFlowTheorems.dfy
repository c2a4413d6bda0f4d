/**
 Theorems over every run of the authorization flow.
 */
module AuthFlowTheorems {
  import opened Wrappers
  import opened Scopes
  import opened AuthorizeRequests
  import opened Consents
  import opened LoginSessions
  import opened AuthFlow
  import opened AuthFlowInvariants
  import AuthCodes
  import RefreshTokens
  import TokenRevocation

  ghost predicate Reachable(cfg: Config, s: State) {
    exists now, steps :: Run(cfg, Init(now), steps) == s
  }

  /** The directory is consistent and sessions last for some time. */
  ghost predicate ConfigOk(cfg: Config) {
    DirectoryOk(cfg.directory) && cfg.sessionSeconds >= 0
  }

  lemma ReachableInv(cfg: Config, s: State)
    requires ConfigOk(cfg) && Reachable(cfg, s)
    ensures Inv(cfg, s)
  {
    hide Inv, Run, DirectoryOk;
    var now, steps :| Run(cfg, Init(now), steps) == s;
    InitInv(cfg, now);
    RunKeepsInv(cfg, Init(now), steps);
  }

  // ---------------------------------------------------------------------------------------
  // After a logout the session is silent
  // ---------------------------------------------------------------------------------------

  /** The session is invalidated and, if `revoked`, so are all its refresh tokens. */
  ghost predicate Ended(s: State, sid: Sid, revoked: bool) {
    && sid in s.sessions && s.sessions[sid].invalidatedAt.Some?
    && (revoked ==> TokenRevocation.SidRevoked(s.tokens, sid))
  }

  /** The log grew, and not for this session. */
  ghost predicate Silent(s: State, s': State, sid: Sid) {
    && s.log <= s'.log
    && forall i :: |s.log| <= i < |s'.log| ==> s'.log[i].sid != sid
  }

  ghost predicate StaysEnded(s: State, s': State, sid: Sid, revoked: bool) {
    Ended(s', sid, revoked) && Silent(s, s', sid)
  }

  lemma SilentTwice(s: State, s1: State, s2: State, sid: Sid)
    requires Silent(s, s1, sid) && Silent(s1, s2, sid)
    ensures Silent(s, s2, sid)
  {}

  lemma LogoutEnds(s: State, tenantId: Option<string>, refreshToken: Option<RefreshTokens.Plaintext>, sid: Sid)
    requires sid in s.sessions && sid != ""
    ensures Ended(DoLogout(s, tenantId, refreshToken, Some(sid)), sid, true)
  {}

  lemma RespondSilent(cfg: Config, s: State, client: Client, userId: string, tenantId: string, scopes: seq<string>,
                      other: Sid, d: Draws, sid: Sid, revoked: bool)
    requires Ended(s, sid, revoked) && other != sid
    ensures StaysEnded(s, Respond(cfg, s, client, userId, tenantId, scopes, other, d), sid, revoked)
  {}

  lemma IssueSilent(cfg: Config, s: State, userId: string, tenantId: string, oauthClientId: Option<string>,
                    requested: Option<string>, given: Option<Sid>, codeGrant: bool, permitted: bool, d: Draws,
                    sid: Sid, revoked: bool)
    requires Ended(s, sid, revoked) && d.sid !in s.sessions
    ensures StaysEnded(s, IssueTokens(cfg, s, userId, tenantId, oauthClientId, requested, given, codeGrant,
        permitted, d), sid, revoked)
  {
    hide Respond, ResolveScopes, ResolveClient, TokenRevocation.SidRevoked;
    var client := ResolveClient(cfg, tenantId, oauthClientId);
    if permitted && client.Some? && ResolveScopes(requested, EffectiveScopes(client.value)).Ok? {
      var scopes := ResolveScopes(requested, EffectiveScopes(client.value)).value;
      if Truthy(given) {
        if ValidAt(s.sessions, given.value, s.now) {
          RespondSilent(cfg, s, client.value, userId, tenantId, scopes, given.value, d, sid, revoked);
        }
      } else if codeGrant {
        RespondSilent(cfg, s, client.value, userId, tenantId, scopes, d.sid, d, sid, revoked);
      } else {
        var s1 := WithSession(cfg, s, d.sid, userId, tenantId);
        RespondSilent(cfg, s1, client.value, userId, tenantId, scopes, d.sid, d, sid, revoked);
        SilentTwice(s, s1, Respond(cfg, s1, client.value, userId, tenantId, scopes, d.sid, d), sid);
      }
    }
  }

  lemma CodeGrantSilent(cfg: Config, s: State, req: AuthCodes.Request, scope: Option<string>, permitted: bool,
                        d: Draws, sid: Sid, revoked: bool)
    requires Ended(s, sid, revoked) && d.sid !in s.sessions
    ensures StaysEnded(s, DoCodeGrant(cfg, s, req, scope, permitted, d), sid, revoked)
  {
    hide IssueTokens, AuthCodes.Redeem, AuthCodes.Bound, TokenRevocation.SidRevoked;
    var r := AuthCodes.Redeem(s.codes, req.code, s.now);
    if r.1.Some? {
      var s1 := s.(codes := r.0);
      var row := r.1.value;
      var requested := if Truthy(scope) then scope else row.scope;
      IssueSilent(cfg, s1, row.userId, row.tenantId, Some(row.clientId), requested, row.sid, true, permitted, d, sid, revoked);
      SilentTwice(s, s1, IssueTokens(cfg, s1, row.userId, row.tenantId, Some(row.clientId), requested, row.sid,
          true, permitted, d), sid);
    }
  }

  /** A token of the session is revoked, so rotation refuses it; any other has another sid. */
  lemma RotationSilent(cfg: RefreshTokens.Config, t: RefreshTokens.Table, now: int, plain: RefreshTokens.Plaintext,
                       clientId: string, requested: Option<string>, newId: RefreshTokens.Id,
                       newPlain: RefreshTokens.Plaintext, sid: Sid)
    requires TokenRevocation.SidRevoked(t, sid)
    ensures TokenRevocation.SidRevoked(
      RefreshTokens.RotateCall(cfg, t, now, plain, clientId, requested, newId, newPlain).0, sid)
  {}

  lemma RefreshSilent(cfg: Config, s: State, plain: RefreshTokens.Plaintext, clientId: string, authenticated: bool,
                      scope: Option<string>, permitted: bool, d: Draws, sid: Sid, revoked: bool)
    requires Ended(s, sid, revoked) && d.sid !in s.sessions
    ensures StaysEnded(s, DoRefresh(cfg, s, plain, clientId, authenticated, scope, permitted, d), sid, revoked)
  {
    hide RefreshTokens.RotateCall, TokenRevocation.SidRevoked, FindByClientIdOrAlias, FindByAlias;
    var client := FindByClientIdOrAlias(cfg.directory, clientId);
    if client.Ok? && revoked {
      RotationSilent(cfg.refresh, s.tokens, s.now, plain, client.value.clientId, scope, d.tokenId, d.plain, sid);
    }
  }

  lemma AuthorizeSilent(cfg: Config, s: State, q: Query, ui: Signals, code: AuthCodes.Code, sid: Sid, revoked: bool)
    requires Ended(s, sid, revoked) && DirectoryOk(cfg.directory)
    ensures StaysEnded(s, DoAuthorize(cfg, s, q, ui, code), sid, revoked)
  {
    hide Decide, CodeRow, TokenRevocation.SidRevoked;
    if Decide(cfg, s, q, ui).SendCode? { SentCodeIsOk(cfg, s, q, ui); }
    hide CodeOk, DirectoryOk;
  }

  lemma LogoutSilent(s: State, tenantId: Option<string>, refreshToken: Option<RefreshTokens.Plaintext>,
                     given: Option<Sid>, sid: Sid, revoked: bool)
    requires Ended(s, sid, revoked)
    ensures StaysEnded(s, DoLogout(s, tenantId, refreshToken, given), sid, revoked)
  {}

  lemma StepSilent(cfg: Config, s: State, step: Step, sid: Sid, revoked: bool)
    requires Ended(s, sid, revoked) && DirectoryOk(cfg.directory)
    ensures StaysEnded(s, Apply(cfg, s, step), sid, revoked)
  {
    hide DirectoryOk, DoAuthorize, DoCodeGrant, DoRefresh, IssueTokens, DoLogout, AuthCodes.WithoutStale,
      TokenRevocation.RevokedBy, RefreshTokens.HashIn, TokenRevocation.SidRevoked, FindByClientIdOrAlias,
      ResolveScopes, Granted;
    var d := step.draws;
    if Unseen(s, d) {
      match step.action
      case Authorize(q, ui) => AuthorizeSilent(cfg, s, q, ui, d.code, sid, revoked);
      case CodeGrant(req, scope, permitted) => CodeGrantSilent(cfg, s, req, scope, permitted, d, sid, revoked);
      case PasswordGrant(userId, clientId, scope, permitted) =>
        var found := FindByClientIdOrAlias(cfg.directory, clientId);
        if found.Ok? {
          IssueSilent(cfg, s, userId, found.value.tenantId, Some(clientId), scope, None, false, permitted, d, sid, revoked);
        }
      case Exchange(userId, clientId, permitted) =>
        var found := FindByClientIdOrAlias(cfg.directory, clientId);
        if found.Ok? { IssueSilent(cfg, s, userId, found.value.tenantId, None, None, None, false, permitted, d, sid, revoked); }
      case RefreshGrant(plain, clientId, authenticated, scope, permitted) =>
        RefreshSilent(cfg, s, plain, clientId, authenticated, scope, permitted, d, sid, revoked);
      case Logout(tenantId, refreshToken, given) => LogoutSilent(s, tenantId, refreshToken, given, sid, revoked);
      case Revoke(tenant, plain) => if revoked { RevokeSilent(s.tokens, tenant, plain, sid); }
      case _ =>
    }
  }

  lemma RevokeSilent(t: RefreshTokens.Table, tenant: string, plain: RefreshTokens.Plaintext, sid: Sid)
    requires TokenRevocation.SidRevoked(t, sid)
    ensures TokenRevocation.SidRevoked(TokenRevocation.RevokedBy(t, tenant, plain), sid)
  {}

  lemma {:induction false} RunSilent(cfg: Config, s: State, steps: seq<Step>, sid: Sid, revoked: bool)
    requires Ended(s, sid, revoked) && DirectoryOk(cfg.directory)
    ensures StaysEnded(s, Run(cfg, s, steps), sid, revoked)
    decreases steps
  {
    hide Ended, Apply, DirectoryOk;
    if steps != [] {
      var s1 := Apply(cfg, s, steps[0]);
      StepSilent(cfg, s, steps[0], sid, revoked);
      RunSilent(cfg, s1, steps[1..], sid, revoked);
      SilentTwice(s, s1, Run(cfg, s, steps), sid);
    }
  }

  /** After a logout with the sid of a session, whatever requests follow, no code is issued and
      no code exchange or refresh is answered for that session again. */
  lemma LogoutIsFinal(cfg: Config, s: State, tenantId: Option<string>, refreshToken: Option<RefreshTokens.Plaintext>,
                      sid: Sid, later: seq<Step>)
    requires DirectoryOk(cfg.directory) && sid in s.sessions && sid != ""
    ensures var s1 := DoLogout(s, tenantId, refreshToken, Some(sid));
      StaysEnded(s1, Run(cfg, s1, later), sid, true)
  {
    hide DirectoryOk, DoLogout, Ended;
    LogoutEnds(s, tenantId, refreshToken, sid);
    RunSilent(cfg, DoLogout(s, tenantId, refreshToken, Some(sid)), later, sid, true);
  }

  /** What requests under way have left in the two tables before a request is run. */
  datatype Among = Among(codes: AuthCodes.Table, tokens: RefreshTokens.Table, step: Step)

  /** A run in which requests that were already under way may write any codes and refresh tokens
      into the tables before each request. */
  ghost function RunAmong(cfg: Config, s: State, steps: seq<Among>): State
    decreases steps
  {
    if steps == [] then s
    else RunAmong(cfg, Apply(cfg, s.(codes := steps[0].codes, tokens := steps[0].tokens), steps[0].step), steps[1..])
  }

  /** Once its session is invalidated a refresh token gets no response, even one that a request
      under way inserted after the logout: whatever the tables hold, no code is issued and no
      code exchange or refresh is answered for the session. */
  lemma {:induction false} LateTokensGetNoResponse(cfg: Config, s: State, steps: seq<Among>, sid: Sid)
    requires Ended(s, sid, false) && DirectoryOk(cfg.directory)
    ensures StaysEnded(s, RunAmong(cfg, s, steps), sid, false)
    decreases steps
  {
    hide Apply, DirectoryOk;
    if steps != [] {
      var s0 := s.(codes := steps[0].codes, tokens := steps[0].tokens);
      var s1 := Apply(cfg, s0, steps[0].step);
      StepSilent(cfg, s0, steps[0].step, sid, false);
      LateTokensGetNoResponse(cfg, s1, steps[1..], sid);
      SilentTwice(s, s1, RunAmong(cfg, s, steps), sid);
    }
  }

  /** Logging out one session leaves every other session, and all tokens of other sessions, as
      they were. */
  lemma LogoutSparesOthers(s: State, sid: Sid, other: Sid, id: RefreshTokens.Id)
    requires other != sid
    ensures var s' := DoLogout(s, None, None, Some(sid));
      && (other in s.sessions <==> other in s'.sessions)
      && (other in s.sessions ==> s'.sessions[other] == s.sessions[other])
      && (id in s.tokens <==> id in s'.tokens)
      && (id in s.tokens && s.tokens[id].sid != Some(sid) ==> s'.tokens[id] == s.tokens[id])
  {}

  // ---------------------------------------------------------------------------------------
  // Consent, scopes and sessions in every reachable state
  // ---------------------------------------------------------------------------------------

  /** A stored code that went to a third party asks for no more than its user has consented to
      for the client, and that consent is the sum of the user's grants. */
  lemma CodesWithinConsent(cfg: Config, s: State, code: AuthCodes.Code)
    requires ConfigOk(cfg) && Reachable(cfg, s) && code in s.codes
    ensures var row := s.codes[code];
      && FindByClientIdOrAlias(cfg.directory, row.clientId).Ok? && row.scope.Some?
      && var client := FindByClientIdOrAlias(cfg.directory, row.clientId).value;
         var k := (row.userId, client.clientId);
         && UriOf(row) in client.redirectUris
         && (!(cfg.ownOrigin(UriOf(row)) && client.alias == Some(cfg.domainOf(client.tenantId))) ==>
              && k in s.consents
              && Elements(Parse(row.scope.value)) <= GrantedSet(s.consents[k])
              && GrantedSet(s.consents[k]) == GrantedIn(s.grants, k)
              && s.consents[k].version == TimesGranted(s.grants, k))
  {
    hide Reachable, ConfigOk, FindByClientIdOrAlias, GrantedSet, Parse, TokensOk, LogOk, GrantedIn, TimesGranted;
    ReachableInv(cfg, s);
    var row := s.codes[code];
    assert CodeOk(cfg, s.sessions, s.consents, row);
    var k := (row.userId, FindByClientIdOrAlias(cfg.directory, row.clientId).value.clientId);
    assert ReflectsAt(s.consents, s.grants, k);
  }

  /** Consent records exist exactly for the pairs that were granted, and are those grants. */
  lemma ConsentsAreGrants(cfg: Config, s: State, k: Consents.Key)
    requires ConfigOk(cfg) && Reachable(cfg, s)
    ensures k in s.consents <==> TimesGranted(s.grants, k) > 0
    ensures k in s.consents ==>
      GrantedSet(s.consents[k]) == GrantedIn(s.grants, k) && s.consents[k].version == TimesGranted(s.grants, k)
  {
    hide Reachable, ConfigOk, CodesOk, TokensOk, LogOk, GrantedSet, GrantedIn, TimesGranted;
    ReachableInv(cfg, s);
    assert ReflectsAt(s.consents, s.grants, k);
  }

  /** Every code and every token response went out while its session, which is one of the same
      user, had neither expired nor been invalidated; responses stay within the client's scopes. */
  lemma ResponsesBelongToSessions(cfg: Config, s: State, i: nat)
    requires ConfigOk(cfg) && Reachable(cfg, s) && i < |s.log|
    ensures var e := s.log[i];
      && e.sid in s.sessions && s.sessions[e.sid].userId == e.userId
      && e.at <= s.sessions[e.sid].expiresAt
      && (s.sessions[e.sid].invalidatedAt.Some? ==> e.at <= s.sessions[e.sid].invalidatedAt.value)
      && (e.TokensIssued? ==>
           e.clientId in cfg.directory.clients && e.named in cfg.directory.clients
           && Elements(e.scopes) <= Allowed(cfg.directory.clients[e.clientId])
           && Elements(e.claim) == Elements(e.scopes) - {OFFLINE_ACCESS})
  {
    hide Reachable, ConfigOk, CodesOk, TokensOk, Reflects, Allowed;
    ReachableInv(cfg, s);
    assert EventOk(cfg, s.now, s.sessions, s.log[i]);
  }

  /** Every stored scope string is read the same way by the normalizer and by the plain split. */
  lemma StoredScopesReadBack(cfg: Config, s: State, code: AuthCodes.Code, id: RefreshTokens.Id)
    requires ConfigOk(cfg) && Reachable(cfg, s)
    ensures code in s.codes ==> s.codes[code].scope.Some? && ReadsBack(s.codes[code].scope.value)
    ensures id in s.tokens ==> ReadsBack(s.tokens[id].scope)
  {
    hide Reachable, ConfigOk, LogOk, Reflects, ReadsBack, Allowed, Parse, ConsentCovers, PkceMet;
    ReachableInv(cfg, s);
    if code in s.codes { assert CodeOk(cfg, s.sessions, s.consents, s.codes[code]); }
    if id in s.tokens { assert TokenOk(cfg, s.sessions, s.tokens[id]); }
  }

  /** A client that requires PKCE gets no response for a code without a verifier. */
  lemma PkceClientsNeedVerifier(cfg: Config, s: State, req: AuthCodes.Request, scope: Option<string>,
                                permitted: bool, d: Draws)
    requires ConfigOk(cfg) && Reachable(cfg, s)
    requires DoCodeGrant(cfg, s, req, scope, permitted, d).log != s.log
    ensures req.code in s.codes && FindByClientIdOrAlias(cfg.directory, req.clientId).Ok?
    ensures FindByClientIdOrAlias(cfg.directory, req.clientId).value.requirePkce ==> Truthy(req.verifier)
  {
    hide Reachable, ConfigOk, FindByClientIdOrAlias, TokensOk, LogOk, Reflects, IssueTokens, ConsentCovers, ScopeWithin;
    ReachableInv(cfg, s);
    if req.code in s.codes { assert CodeOk(cfg, s.sessions, s.consents, s.codes[req.code]); }
  }

  /** The session in the cookie is valid and recent enough for `maxAge`. */
  ghost predicate RecentSession(s: State, cookie: Option<Sid>, maxAge: Option<int>) {
    && cookie.Some? && cookie.value != "" && ValidAt(s.sessions, cookie.value, s.now)
    && (maxAge.Some? ==> Seconds(s.now) - s.sessions[cookie.value].authTime <= maxAge.value)
  }

  /** The user has agreed to the scopes, or is not asked. */
  ghost predicate Agreed(cfg: Config, s: State, v: Validated, userId: string) {
    || (cfg.ownOrigin(v.redirectUri) && v.client.alias == Some(cfg.domainOf(v.client.tenantId)))
    || Covers(s.consents, (userId, v.client.clientId), Elements(v.scopes))
  }

  /** The endpoint sends a code exactly if the request is valid, no page is asked for first, the
      session is valid and recent enough, the user has agreed, and the session is confirmed or
      need not be. */
  lemma CodeSentIff(cfg: Config, s: State, q: Query, ui: Signals)
    ensures Decide(cfg, s, q, ui).SendCode? <==>
      var r := ValidateAuthorizeRequest(cfg.directory, q);
      && r.Ok?
      && !ui.consentDenied && !ui.fromLogout && (q.prompt.None? || q.prompt.value in ["", "none"])
      && RecentSession(s, ui.sidCookie, q.maxAge)
      && Agreed(cfg, s, r.value, s.sessions[ui.sidCookie.value].userId)
      && (r.value.client.skipSessionConfirm || ui.confirmed)
  {
    hide ValidateAuthorizeRequest, ResolveScopes, FirstParty, Covers, FindByClientIdOrAlias, DirectoryOk, PkceMet,
      AllClean, Parse, Join, Elements, EffectiveScopes, DecideInSession, ResolveSession, Agreed, RecentSession;
    var r := ValidateAuthorizeRequest(cfg.directory, q);
    if r.Ok? {
      ValidatedRequest(cfg.directory, q);
      SessionFound(s, ui.sidCookie, q.maxAge);
      if RecentSession(s, ui.sidCookie, q.maxAge) { SentInSessionIff(cfg, s, r.value, ui.sidCookie.value, ui); }
    }
  }

  lemma SessionFound(s: State, cookie: Option<Sid>, maxAge: Option<int>)
    ensures ResolveSession(s, cookie, maxAge) == (if RecentSession(s, cookie, maxAge) then cookie else None)
    ensures RecentSession(s, cookie, maxAge) ==> cookie.Some? && cookie.value in s.sessions
  {}

  lemma SentInSessionIff(cfg: Config, s: State, v: Validated, sid: Sid, ui: Signals)
    requires sid in s.sessions && ResolveScopes(Some(v.scope), EffectiveScopes(v.client)) == Ok(v.scopes)
    ensures DecideInSession(cfg, s, v, sid, ui).SendCode? <==>
      && v.prompt != Some("consent")
      && Agreed(cfg, s, v, s.sessions[sid].userId)
      && (v.client.skipSessionConfirm || ui.confirmed)
  {
    hide ResolveScopes, Covers, Elements, EffectiveScopes;
  }

  // ---------------------------------------------------------------------------------------
  // Nothing is issued without grounds
  // ---------------------------------------------------------------------------------------

  /** What entitles a request to a code or to tokens. */
  ghost predicate Grounds(cfg: Config, s: State, a: Action) {
    match a
    case Authorize(q, ui) => Decide(cfg, s, q, ui).SendCode?
    case CodeGrant(req, _, permitted) =>
      permitted && AuthCodes.Redeemable(s.codes, req.code, s.now) && AuthCodes.Bound(cfg.digests, s.codes[req.code], req)
    case PasswordGrant(_, clientId, _, permitted) =>
      var found := FindByClientIdOrAlias(cfg.directory, clientId);
      permitted && found.Ok? && found.value.allowPasswordGrant
    case Exchange(_, clientId, permitted) => permitted && FindByClientIdOrAlias(cfg.directory, clientId).Ok?
    case RefreshGrant(plain, clientId, authenticated, _, permitted) =>
      var found := FindByClientIdOrAlias(cfg.directory, clientId);
      permitted && authenticated && found.Ok? && UsableToken(s, plain, found.value.clientId)
    case _ => false
  }

  /** The plaintext is that of an unrevoked, unexpired token of this client. */
  ghost predicate UsableToken(s: State, plain: RefreshTokens.Plaintext, clientId: ClientId) {
    exists id :: id in s.tokens && s.tokens[id].tokenHash == RefreshTokens.Sha256(plain)
                 && !RefreshTokens.Unusable(s.tokens[id], clientId, s.now)
  }

  ghost predicate LoggedOnce(s: State, s': State) {
    |s'.log| == |s.log| + 1 && s.log <= s'.log
  }

  /** A request issues at most one code or response, and only on these grounds: a code that is
      sent, a redeemable code bound to the request, a client with the password grant, a checked
      exchange, or a usable refresh token of an authenticated client. */
  lemma EventsHaveGrounds(cfg: Config, s: State, step: Step)
    ensures var s' := Apply(cfg, s, step);
      s'.log == s.log || (Grounds(cfg, s, step.action) && LoggedOnce(s, s'))
  {
    hide DoAuthorize, DoConsent, DoCodeGrant, IssueTokens, DoRefresh, AuthCodes.Redeemable, AuthCodes.Bound, Decide,
      FindByClientIdOrAlias, UsableToken, Unseen, TokenRevocation.RevokedBy, AuthCodes.WithoutStale;
    var d := step.draws;
    match step.action
    case Authorize(q, ui) => AuthorizeGrounds(cfg, s, q, ui, d.code);
    case DecideConsent(cookie, clientId, scope, grant) => ConsentLogsNothing(cfg, s, cookie, clientId, scope, grant);
    case CodeGrant(req, scope, permitted) => CodeGrounds(cfg, s, req, scope, permitted, d);
    case PasswordGrant(userId, clientId, scope, permitted) =>
      var found := FindByClientIdOrAlias(cfg.directory, clientId);
      if found.Ok? { IssueGrounds(cfg, s, userId, found.value.tenantId, Some(clientId), scope, None, false, permitted, d); }
    case Exchange(userId, clientId, permitted) =>
      var found := FindByClientIdOrAlias(cfg.directory, clientId);
      if found.Ok? { IssueGrounds(cfg, s, userId, found.value.tenantId, None, None, None, false, permitted, d); }
    case RefreshGrant(plain, clientId, authenticated, scope, permitted) =>
      RefreshGrounds(cfg, s, plain, clientId, authenticated, scope, permitted, d);
    case _ =>
  }

  lemma AuthorizeGrounds(cfg: Config, s: State, q: Query, ui: Signals, code: AuthCodes.Code)
    ensures var s' := DoAuthorize(cfg, s, q, ui, code);
      s'.log == s.log || (Decide(cfg, s, q, ui).SendCode? && LoggedOnce(s, s'))
  {
    hide Decide, CodeRow;
  }

  lemma ConsentLogsNothing(cfg: Config, s: State, cookie: Option<Sid>, clientId: string, scope: Option<string>,
                           grant: bool)
    ensures DoConsent(cfg, s, cookie, clientId, scope, grant).log == s.log
  {
    hide ResolveScopes, FindByClientIdOrAlias, Granted;
  }

  lemma IssueGrounds(cfg: Config, s: State, userId: string, tenantId: string, oauthClientId: Option<string>,
                     requested: Option<string>, sid: Option<Sid>, codeGrant: bool, permitted: bool, d: Draws)
    ensures var s' := IssueTokens(cfg, s, userId, tenantId, oauthClientId, requested, sid, codeGrant, permitted, d);
      s'.log == s.log || (permitted && LoggedOnce(s, s'))
  {
    hide ResolveClient, ResolveScopes, Format, RefreshEligible, RefreshTokens.RootRow;
  }

  lemma CodeGrounds(cfg: Config, s: State, req: AuthCodes.Request, scope: Option<string>, permitted: bool, d: Draws)
    ensures var s' := DoCodeGrant(cfg, s, req, scope, permitted, d);
      s'.log == s.log
      || (permitted && AuthCodes.Redeemable(s.codes, req.code, s.now)
          && AuthCodes.Bound(cfg.digests, s.codes[req.code], req) && LoggedOnce(s, s'))
  {
    hide IssueTokens, AuthCodes.Challenge;
    var r := AuthCodes.Redeem(s.codes, req.code, s.now);
    if r.1.Some? {
      var row := r.1.value;
      IssueGrounds(cfg, s.(codes := r.0), row.userId, row.tenantId, Some(row.clientId),
                   if Truthy(scope) then scope else row.scope, row.sid, true, permitted, d);
    }
  }

  lemma RefreshGrounds(cfg: Config, s: State, plain: RefreshTokens.Plaintext, clientId: string, authenticated: bool,
                       scope: Option<string>, permitted: bool, d: Draws)
    ensures var s' := DoRefresh(cfg, s, plain, clientId, authenticated, scope, permitted, d);
      var found := FindByClientIdOrAlias(cfg.directory, clientId);
      s'.log == s.log
      || (permitted && authenticated && found.Ok? && UsableToken(s, plain, found.value.clientId) && LoggedOnce(s, s'))
  {
    hide RefreshTokens.RotateCall, FindByClientIdOrAlias, FindByAlias, UsableToken, Parse;
    var found := FindByClientIdOrAlias(cfg.directory, clientId);
    if found.Ok? {
      RotationNeedsUsable(cfg, s, plain, found.value.clientId, scope, d);
    }
  }

  lemma RotationNeedsUsable(cfg: Config, s: State, plain: RefreshTokens.Plaintext, clientId: ClientId,
                            scope: Option<string>, d: Draws)
    ensures var outcome :=
      RefreshTokens.RotateCall(cfg.refresh, s.tokens, s.now, plain, clientId, scope, d.tokenId, d.plain).1;
      outcome.Rotated? || outcome.Replayed? ==> UsableToken(s, plain, clientId)
  {
    hide RefreshTokens.GrantedScope, RefreshTokens.HasChild, RefreshTokens.InGrace, RefreshTokens.ClampExpiry;
  }
}
