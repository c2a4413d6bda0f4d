/**
 What the authorization flow grants: a code that the endpoint sent is exchanged for tokens with
 the scopes it was sent for, and the refresh token among them can be used.
 */
module AuthFlowProgress {
  import opened Wrappers
  import opened Scopes
  import opened AuthorizeRequests
  import opened Consents
  import opened LoginSessions
  import opened AuthFlow
  import opened AuthFlowInvariants
  import opened AuthFlowTheorems
  import AuthCodes
  import RefreshTokens
  import Runs = RefreshTokenRuns
  import TokenRevocation

  // ---------------------------------------------------------------------------------------
  // The refresh-token table in every reachable state
  // ---------------------------------------------------------------------------------------

  lemma RevokingKeepsTable(cfg: Config, t: RefreshTokens.Table, t': RefreshTokens.Table)
    requires Runs.TableOk(cfg.refresh, t) && TokenRevocation.OnlyRevokes(t, t')
    ensures Runs.TableOk(cfg.refresh, t')
  {
    Runs.RevokeOk(cfg.refresh, t, t');
  }

  lemma RotationKeepsTable(cfg: Config, t: RefreshTokens.Table, now: int, plain: RefreshTokens.Plaintext,
                           clientId: string, requested: Option<string>, newId: RefreshTokens.Id,
                           newPlain: RefreshTokens.Plaintext)
    requires Runs.TableOk(cfg.refresh, t) && newId !in t && !RefreshTokens.HashIn(t, RefreshTokens.Sha256(newPlain))
    ensures Runs.TableOk(cfg.refresh, RefreshTokens.RotateCall(cfg.refresh, t, now, plain, clientId, requested,
        newId, newPlain).0)
  {
    hide RefreshTokens.GrantedScope, RefreshTokens.InGrace, RefreshTokens.HasChild, RefreshTokens.HashIn,
      RefreshTokens.MarkUsed, RefreshTokens.RevokeFamilyRows, Runs.TableOk, RefreshTokens.ChildRow;
    var found := RefreshTokens.FindByHash(t, RefreshTokens.Sha256(plain));
    if found.Some? {
      FoundInTable(t, RefreshTokens.Sha256(plain));
      var id, row := found.value, t[found.value];
      Runs.FamilyRevocationOk(cfg.refresh, t, row.familyId);
      if !RefreshTokens.Unusable(row, clientId, now) && row.usedAt.None? {
        Runs.MarkUsedOk(cfg.refresh, t, id, now);
        var granted := RefreshTokens.GrantedScope(requested, row.scope);
        var used := RefreshTokens.MarkUsed(t, id, now);
        if granted.Ok? && !RefreshTokens.HasChild(used, id) {
          ChildKeepsTable(cfg, t, now, id, requested, newId, newPlain);
        }
      }
    }
  }

  lemma ChildKeepsTable(cfg: Config, t: RefreshTokens.Table, now: int, id: RefreshTokens.Id,
                        requested: Option<string>, newId: RefreshTokens.Id, newPlain: RefreshTokens.Plaintext)
    requires Runs.TableOk(cfg.refresh, t) && newId !in t && !RefreshTokens.HashIn(t, RefreshTokens.Sha256(newPlain))
    requires id in t && t[id].usedAt.None? && now <= t[id].expiresAt
    requires !RefreshTokens.HasChild(RefreshTokens.MarkUsed(t, id, now), id)
    requires RefreshTokens.GrantedScope(requested, t[id].scope).Ok?
    ensures var child := RefreshTokens.ChildRow(id, t[id], newPlain, RefreshTokens.GrantedScope(requested, t[id].scope).value,
                           RefreshTokens.ClampExpiry(now, cfg.refresh.slidingMs, t[id].absoluteExpiresAt), now);
      Runs.TableOk(cfg.refresh, RefreshTokens.MarkUsed(t, id, now)[newId := child])
  {
    hide Runs.AllParentsOk, Runs.AllUnique, RefreshTokens.GrantedScope, RefreshTokens.HasChild,
      Runs.NarrowerScope;
    var used := RefreshTokens.MarkUsed(t, id, now);
    Runs.MarkUsedOk(cfg.refresh, t, id, now);
    Runs.GrantedScopeNarrower(requested, t[id].scope);
    assert Runs.RowOk(cfg.refresh, t[id]);
    Runs.InsertOk(cfg.refresh, used, newId,
      RefreshTokens.ChildRow(id, t[id], newPlain, RefreshTokens.GrantedScope(requested, t[id].scope).value,
                             RefreshTokens.ClampExpiry(now, cfg.refresh.slidingMs, t[id].absoluteExpiresAt), now));
  }

  lemma FoundInTable(t: RefreshTokens.Table, h: RefreshTokens.Hash)
    ensures var found := RefreshTokens.FindByHash(t, h);
      found.Some? ==> found.value in t && t[found.value].tokenHash == h
  {}

  lemma IssuingKeepsTable(cfg: Config, s: State, userId: string, tenantId: string, oauthClientId: Option<string>,
                          requested: Option<string>, sid: Option<Sid>, codeGrant: bool, permitted: bool, d: Draws)
    requires Runs.TableOk(cfg.refresh, s.tokens) && UnseenToken(s.tokens, d)
    ensures Runs.TableOk(cfg.refresh, IssueTokens(cfg, s, userId, tenantId, oauthClientId, requested, sid,
        codeGrant, permitted, d).tokens)
  {
    hide ResolveClient, ResolveScopes, Format, RefreshEligible, Runs.TableOk, RefreshTokens.HashIn, RefreshTokens.RootRow;
    forall client, scope: string, session: Sid
      ensures Runs.TableOk(cfg.refresh, s.tokens[d.tokenId :=
        RefreshTokens.RootRow(cfg.refresh, s.now, d.plain, d.family, userId, client, tenantId, scope, Some(session))])
    {
      RootKeepsTable(cfg, s, userId, client, tenantId, scope, session, d);
    }
  }

  lemma RootKeepsTable(cfg: Config, s: State, userId: string, client: ClientId, tenantId: string, scope: string,
                       session: Sid, d: Draws)
    requires Runs.TableOk(cfg.refresh, s.tokens) && UnseenToken(s.tokens, d)
    ensures Runs.TableOk(cfg.refresh, s.tokens[d.tokenId :=
      RefreshTokens.RootRow(cfg.refresh, s.now, d.plain, d.family, userId, client, tenantId, scope, Some(session))])
  {
    Runs.InsertOk(cfg.refresh, s.tokens, d.tokenId,
      RefreshTokens.RootRow(cfg.refresh, s.now, d.plain, d.family, userId, client, tenantId, scope, Some(session)));
  }

  lemma StepKeepsTable(cfg: Config, s: State, step: Step)
    requires Runs.TableOk(cfg.refresh, s.tokens)
    ensures Runs.TableOk(cfg.refresh, Apply(cfg, s, step).tokens)
  {
    hide Runs.TableOk, DoAuthorize, DoConsent, IssueTokens, AuthCodes.Redeem, AuthCodes.Bound, RefreshTokens.RotateCall,
      RefreshTokens.HashIn, TokenRevocation.RevokedBy, TokenRevocation.TokensAfterLogout, FindByClientIdOrAlias, Refreshed;
    var d := step.draws;
    if Unseen(s, d) {
      match step.action
      case Authorize(q, ui) => AuthorizeKeepsTokens(cfg, s, q, ui, d.code);
      case DecideConsent(cookie, clientId, scope, grant) => ConsentKeepsTokens(cfg, s, cookie, clientId, scope, grant);
      case CodeGrant(req, scope, permitted) =>
        var r := AuthCodes.Redeem(s.codes, req.code, s.now);
        if r.1.Some? {
          var row := r.1.value;
          IssuingKeepsTable(cfg, s.(codes := r.0), row.userId, row.tenantId, Some(row.clientId),
                            if Truthy(scope) then scope else row.scope, row.sid, true, permitted, d);
        }
      case PasswordGrant(userId, clientId, scope, permitted) =>
        var found := FindByClientIdOrAlias(cfg.directory, clientId);
        if found.Ok? {
          IssuingKeepsTable(cfg, s, userId, found.value.tenantId, Some(clientId), scope, None, false, permitted, d);
        }
      case Exchange(userId, clientId, permitted) =>
        var found := FindByClientIdOrAlias(cfg.directory, clientId);
        if found.Ok? { IssuingKeepsTable(cfg, s, userId, found.value.tenantId, None, None, None, false, permitted, d); }
      case RefreshGrant(plain, clientId, authenticated, scope, permitted) =>
        var found := FindByClientIdOrAlias(cfg.directory, clientId);
        if found.Ok? {
          RotationKeepsTable(cfg, s.tokens, s.now, plain, found.value.clientId, scope, d.tokenId, d.plain);
          RefreshedKeepsTokens(cfg, s, plain, clientId, authenticated, scope, permitted, d);
        }
      case Logout(tenantId, refreshToken, sid) =>
        TokenRevocation.LogoutOnlyRevokes(s.tokens, tenantId, refreshToken, sid);
        RevokingKeepsTable(cfg, s.tokens, TokenRevocation.TokensAfterLogout(s.tokens, tenantId, refreshToken, sid));
      case Revoke(tenant, plain) =>
        RevokedByOnlyRevokes(s.tokens, tenant, plain);
        RevokingKeepsTable(cfg, s.tokens, TokenRevocation.RevokedBy(s.tokens, tenant, plain));
      case _ =>
    }
  }

  lemma AuthorizeKeepsTokens(cfg: Config, s: State, q: Query, ui: Signals, code: AuthCodes.Code)
    ensures DoAuthorize(cfg, s, q, ui, code).tokens == s.tokens
  {
    hide Decide, CodeRow;
  }

  lemma ConsentKeepsTokens(cfg: Config, s: State, cookie: Option<Sid>, clientId: string, scope: Option<string>,
                           grant: bool)
    ensures DoConsent(cfg, s, cookie, clientId, scope, grant).tokens == s.tokens
  {
    hide ResolveScopes, FindByClientIdOrAlias, Granted;
  }

  lemma RefreshedKeepsTokens(cfg: Config, s: State, plain: RefreshTokens.Plaintext, clientId: string,
                             authenticated: bool,
                             scope: Option<string>, permitted: bool, d: Draws)
    ensures var found := FindByClientIdOrAlias(cfg.directory, clientId);
      var s' := DoRefresh(cfg, s, plain, clientId, authenticated, scope, permitted, d);
      found.Ok? && authenticated ==>
        s'.tokens == RefreshTokens.RotateCall(cfg.refresh, s.tokens, s.now, plain, found.value.clientId, scope,
            d.tokenId, d.plain).0
  {
    hide RefreshTokens.RotateCall, FindByClientIdOrAlias, FindByAlias;
  }

  lemma {:induction false} RunKeepsTable(cfg: Config, s: State, steps: seq<Step>)
    requires Runs.TableOk(cfg.refresh, s.tokens)
    ensures Runs.TableOk(cfg.refresh, Run(cfg, s, steps).tokens)
    decreases steps
  {
    hide Apply, Runs.TableOk;
    if steps != [] {
      StepKeepsTable(cfg, s, steps[0]);
      RunKeepsTable(cfg, Apply(cfg, s, steps[0]), steps[1..]);
    }
  }

  lemma ReachableTable(cfg: Config, s: State)
    requires Reachable(cfg, s)
    ensures Runs.TableOk(cfg.refresh, s.tokens)
  {
    hide Run;
    var now, steps :| Run(cfg, Init(now), steps) == s;
    assert Runs.TableOk(cfg.refresh, Init(now).tokens);
    RunKeepsTable(cfg, Init(now), steps);
  }

  // ---------------------------------------------------------------------------------------
  // From the code to the tokens
  // ---------------------------------------------------------------------------------------

  /** The request that answers the code: its client, its redirect URI and, if a challenge was
      sent, a verifier that meets it. */
  ghost predicate Answers(cfg: Config, q: Query, v: Validated, req: AuthCodes.Request) {
    && q.clientId == Some(req.clientId)
    && (v.redirectUri != "" ==> req.redirectUri == Some(v.redirectUri))
    && (Truthy(v.codeChallenge) ==>
         Truthy(req.verifier)
         && AuthCodes.Challenge(cfg.digests, req.verifier.value, Some(v.codeChallengeMethod)) == v.codeChallenge.value)
  }

  /** A code that was sent and is answered at once yields exactly one response, in the session
      and with the scopes it was sent for, and a refresh token exactly if the client or the
      scopes allow one. */
  lemma SentCodeIsExchanged(cfg: Config, s: State, q: Query, ui: Signals, req: AuthCodes.Request, d: Draws)
    requires DirectoryOk(cfg.directory) && Decide(cfg, s, q, ui).SendCode?
    requires Answers(cfg, q, Decide(cfg, s, q, ui).request, req)
    ensures var sent := Decide(cfg, s, q, ui); var v := sent.request;
      var userId := if sent.sid in s.sessions then s.sessions[sent.sid].userId else "";
      var s2 := DoCodeGrant(cfg, DoAuthorize(cfg, s, q, ui, req.code), req, None, true, d);
      && s2.log == s.log + [CodeIssued(s.now, sent.sid, userId, req.code)]
                   + [TokenResponse(s.now, sent.sid, userId, v.client.clientId, v.client.clientId, v.scopes)]
      && s2.sessions == s.sessions
      && s2.tokens == if OFFLINE_ACCESS in v.scopes || v.client.allowRefreshToken
                      then s.tokens[d.tokenId := RefreshTokens.RootRow(cfg.refresh, s.now, d.plain, d.family, userId,
                             v.client.clientId, v.client.tenantId, Format(v.scopes), Some(sent.sid))]
                      else s.tokens
  {
    hide Decide, ValidateAuthorizeRequest, ResolveScopes, FindByClientIdOrAlias, DirectoryOk, PkceMet, AllClean, Parse,
      Join, Elements, EffectiveScopes, FirstParty, Covers, Format, ReadsBack, AuthCodes.Challenge, RefreshTokens.RootRow;
    SentCodeChecked(cfg, s, q, ui);
    ValidatedRequest(cfg.directory, q);
    var v := Decide(cfg, s, q, ui).request;
    ScopesNotEmpty(v.scopes);
    ClientIdNotEmpty(cfg.directory, q);
  }

  lemma ClientIdNotEmpty(d: Directory, q: Query)
    requires ValidateAuthorizeRequest(d, q).Ok?
    ensures Truthy(q.clientId)
  {}

  // ---------------------------------------------------------------------------------------
  // From a refresh token to the next tokens
  // ---------------------------------------------------------------------------------------

  /** The presented client id names the client the token is bound to. */
  ghost predicate OwnClient(cfg: Config, clientId: string, row: RefreshTokens.Token) {
    var found := FindByClientIdOrAlias(cfg.directory, clientId);
    found.Ok? && found.value.clientId == row.clientId
  }

  /** The default client of the token's tenant, which every refresh looks up. */
  function DefaultClient(cfg: Config, row: RefreshTokens.Token): Option<Client> {
    FindByAlias(cfg.directory, cfg.domainOf(row.tenantId))
  }

  ghost predicate InValidSession(s: State, row: RefreshTokens.Token) {
    Truthy(row.sid) && ValidAt(s.sessions, row.sid.value, s.now)
  }

  ghost predicate Answerable(cfg: Config, s: State, row: RefreshTokens.Token, permitted: bool) {
    permitted && DefaultClient(cfg, row).Some? && InValidSession(s, row)
  }

  /** In every reachable state, a live refresh token shown by its own client. If the requested
      scope is refused, the token is consumed and nothing else happens. Otherwise it is rotated,
      and the response goes out if and only if the user may have it, the tenant's default client
      exists and the session is valid; the new token is stored in either case. */
  lemma RefreshOfLiveToken(cfg: Config, s: State, id: RefreshTokens.Id, plain: RefreshTokens.Plaintext,
                           clientId: string, requested: Option<string>, permitted: bool, d: Draws)
    requires ConfigOk(cfg) && Reachable(cfg, s) && id in s.tokens && RefreshTokens.Live(s.tokens, s.now, id, plain)
    requires OwnClient(cfg, clientId, s.tokens[id])
    ensures var row := s.tokens[id];
      var s' := DoRefresh(cfg, s, plain, clientId, true, requested, permitted, d);
      match RefreshTokens.GrantedScope(requested, row.scope)
      case Err(_) => s' == s.(tokens := s.tokens[id := row.(usedAt := Some(s.now))])
      case Ok(scope) =>
        var rotated := s.(tokens := RefreshTokens.RotatedTable(cfg.refresh, s.tokens, s.now, id, d.tokenId, d.plain, scope));
        && (s'.log != s.log <==> Answerable(cfg, s, row, permitted))
        && s' == if Answerable(cfg, s, row, permitted) then Logged(rotated, Response(cfg, s, row, scope)) else rotated
  {
    hide Reachable, ConfigOk, FindByClientIdOrAlias, FindByAlias, Parse, RefreshTokens.RotateCall, RefreshTokens.Live,
      Runs.TableOk, ValidAt, RefreshTokens.ClampExpiry, RefreshTokens.GrantedScope, Refreshed, RefreshTokens.RotatedTable,
      TokenResponse;
    ReachableTable(cfg, s);
    UniqueInTable(cfg, s.tokens);
    RefreshTokens.LiveCall(cfg.refresh, s.tokens, s.now, id, plain, requested, d.tokenId, d.plain);
    var row := s.tokens[id];
    var granted := RefreshTokens.GrantedScope(requested, row.scope);
    if granted.Ok? {
      ChildOfRow(cfg, s, id, d, granted.value);
      var rotated := s.(tokens := RefreshTokens.RotatedTable(cfg.refresh, s.tokens, s.now, id, d.tokenId, d.plain,
          granted.value));
      RefreshedFromChild(cfg, rotated, row, rotated.tokens[d.tokenId], permitted, d);
    }
  }

  /** What goes out in the session of this row, with these scopes. */
  ghost function Response(cfg: Config, s: State, row: RefreshTokens.Token, scope: string): Event
    requires row.sid.Some? && DefaultClient(cfg, row).Some?
  {
    TokenResponse(s.now, row.sid.value, row.userId, row.clientId, DefaultClient(cfg, row).value.clientId, Parse(scope))
  }

  /** The child carries over what the response is made from; the row has a session. */
  lemma ChildOfRow(cfg: Config, s: State, id: RefreshTokens.Id, d: Draws, scope: string)
    requires ConfigOk(cfg) && Reachable(cfg, s) && id in s.tokens
    ensures var t := RefreshTokens.RotatedTable(cfg.refresh, s.tokens, s.now, id, d.tokenId, d.plain, scope);
      && Truthy(s.tokens[id].sid) && d.tokenId in t && SameBearer(t[d.tokenId], s.tokens[id])
      && t[d.tokenId].scope == scope
  {
    hide Reachable, ConfigOk, RefreshTokens.ClampExpiry;
    RowHasSession(cfg, s, id);
  }

  lemma RowHasSession(cfg: Config, s: State, id: RefreshTokens.Id)
    requires ConfigOk(cfg) && Reachable(cfg, s) && id in s.tokens
    ensures Truthy(s.tokens[id].sid)
  {
    hide Reachable, ConfigOk, ScopeWithin, CodesOk, LogOk, Reflects;
    ReachableInv(cfg, s);
    assert TokenOk(cfg, s.sessions, s.tokens[id]);
  }

  predicate SameBearer(a: RefreshTokens.Token, b: RefreshTokens.Token) {
    a.sid == b.sid && a.userId == b.userId && a.clientId == b.clientId && a.tenantId == b.tenantId
  }

  lemma RefreshedFromChild(cfg: Config, s: State, row: RefreshTokens.Token, child: RefreshTokens.Token,
                           permitted: bool, d: Draws)
    requires SameBearer(child, row) && Truthy(row.sid)
    ensures Refreshed(cfg, s, child, permitted, d) ==
      if Answerable(cfg, s, row, permitted) then Logged(s, Response(cfg, s, row, child.scope)) else s
  {
    hide FindByAlias, Parse, ValidAt, TokenResponse;
  }

  lemma UniqueInTable(cfg: Config, t: RefreshTokens.Table)
    requires Runs.TableOk(cfg.refresh, t)
    ensures RefreshTokens.UniqueHashes(t)
    ensures forall id :: id in t && t[id].usedAt.None? ==> !RefreshTokens.HasChild(t, id)
  {
    forall id, c | id in t && c in t && t[c].parentId == Some(id) ensures t[id].usedAt.Some? {
      assert Runs.ParentOk(t, c);
    }
  }

  /** The plaintext is that of this token, which its client may still show. */
  ghost predicate UsableBy(cfg: Config, s: State, id: RefreshTokens.Id, plain: RefreshTokens.Plaintext, clientId: string) {
    && id in s.tokens && s.tokens[id].tokenHash == RefreshTokens.Sha256(plain)
    && OwnClient(cfg, clientId, s.tokens[id])
    && !RefreshTokens.Unusable(s.tokens[id], s.tokens[id].clientId, s.now)
  }

  /** The replay is within the grace window and a child of the token exists. */
  ghost predicate Forgiven(cfg: Config, s: State, id: RefreshTokens.Id)
    requires id in s.tokens
  {
    RefreshTokens.InGrace(cfg.refresh, s.tokens[id], s.now) && RefreshTokens.HasChild(s.tokens, id)
  }

  /** In every reachable state, a used refresh token shown again by its own client before it
      expires or is revoked. Unless the replay is forgiven, its family is revoked and nothing goes
      out, whatever scope is requested. A forgiven one leaves all tables as they are and is
      answered under the same conditions as a rotation, with the scopes of the child. */
  lemma RefreshOfUsedToken(cfg: Config, s: State, id: RefreshTokens.Id, plain: RefreshTokens.Plaintext,
                           clientId: string, requested: Option<string>, permitted: bool, d: Draws)
    requires ConfigOk(cfg) && Reachable(cfg, s) && UsableBy(cfg, s, id, plain, clientId) && s.tokens[id].usedAt.Some?
    ensures var row := s.tokens[id];
      var s' := DoRefresh(cfg, s, plain, clientId, true, requested, permitted, d);
      if Forgiven(cfg, s, id) then
        var child := RefreshTokens.FindChild(s.tokens, id);
        && child.Some? && child.value in s.tokens
        && Elements(PlainWords(s.tokens[child.value].scope)) <= Elements(PlainWords(row.scope))
        && s' == if Answerable(cfg, s, row, permitted) then Logged(s, Response(cfg, s, row, s.tokens[child.value].scope)) else s
      else s' == s.(tokens := RefreshTokens.RevokeFamilyRows(s.tokens, row.familyId))
  {
    hide Reachable, ConfigOk, FindByClientIdOrAlias, FindByAlias, Parse, RefreshTokens.RotateCall, Answerable, Response,
      Runs.TableOk, RefreshTokens.Unusable, RefreshTokens.InGrace, Refreshed, RefreshTokens.RevokeFamilyRows, PlainWords;
    ReachableTable(cfg, s);
    UniqueInTable(cfg, s.tokens);
    RowHasSession(cfg, s, id);
    UsedCall(cfg, s, id, plain, requested, d);
    if Forgiven(cfg, s, id) {
      var child := RefreshTokens.FindChild(s.tokens, id).value;
      ReplayedChild(cfg, s.tokens, id, child);
      RefreshedFromChild(cfg, s, s.tokens[id], s.tokens[child], permitted, d);
      assert s.(tokens := s.tokens) == s;
    }
  }

  lemma UsedCall(cfg: Config, s: State, id: RefreshTokens.Id, plain: RefreshTokens.Plaintext,
                 requested: Option<string>, d: Draws)
    requires RefreshTokens.UniqueHashes(s.tokens) && id in s.tokens && s.tokens[id].tokenHash == RefreshTokens.Sha256(plain)
    requires s.tokens[id].usedAt.Some? && !RefreshTokens.Unusable(s.tokens[id], s.tokens[id].clientId, s.now)
    ensures RefreshTokens.RotateCall(cfg.refresh, s.tokens, s.now, plain, s.tokens[id].clientId, requested, d.tokenId, d.plain)
      == if Forgiven(cfg, s, id) then (s.tokens, RefreshTokens.Replayed(RefreshTokens.FindChild(s.tokens, id).value))
         else (RefreshTokens.RevokeFamilyRows(s.tokens, s.tokens[id].familyId), RefreshTokens.Rejected)
  {
    hide RefreshTokens.Unusable, RefreshTokens.InGrace, RefreshTokens.HasChild, RefreshTokens.RevokeFamilyRows;
    assert RefreshTokens.FindByHash(s.tokens, RefreshTokens.Sha256(plain)) == Some(id);
  }

  lemma ReplayedChild(cfg: Config, t: RefreshTokens.Table, id: RefreshTokens.Id, child: RefreshTokens.Id)
    requires Runs.TableOk(cfg.refresh, t) && id in t && child in t && t[child].parentId == Some(id)
    ensures SameBearer(t[child], t[id]) && Elements(PlainWords(t[child].scope)) <= Elements(PlainWords(t[id].scope))
  {
    hide PlainWords;
    assert Runs.ParentOk(t, child);
  }

  /** The token honours the request: unused, and nothing beyond its scope is asked for; or used,
      and the replay is forgiven. */
  ghost predicate Honoured(cfg: Config, s: State, id: RefreshTokens.Id, requested: Option<string>)
    requires id in s.tokens
  {
    if s.tokens[id].usedAt.None? then
      Truthy(requested) ==> Elements(PlainWords(requested.value)) <= Elements(PlainWords(s.tokens[id].scope))
    else Forgiven(cfg, s, id)
  }

  /** What a refresh needs: the token's own client, a token neither revoked nor expired that
      honours the request, a user who may have the tokens, the tenant's default client, and a
      valid session. */
  ghost predicate Refreshable(cfg: Config, s: State, id: RefreshTokens.Id, plain: RefreshTokens.Plaintext,
                              clientId: string, requested: Option<string>, permitted: bool)
  {
    && UsableBy(cfg, s, id, plain, clientId)
    && Honoured(cfg, s, id, requested)
    && Answerable(cfg, s, s.tokens[id], permitted)
  }

  /** In every reachable state, for any plaintext presented by anyone: the refresh is answered if
      and only if the client is authenticated and the plaintext is that of a refreshable token. */
  lemma RefreshAnsweredIff(cfg: Config, s: State, plain: RefreshTokens.Plaintext, clientId: string,
                           authenticated: bool, requested: Option<string>, permitted: bool, d: Draws)
    requires ConfigOk(cfg) && Reachable(cfg, s)
    ensures DoRefresh(cfg, s, plain, clientId, authenticated, requested, permitted, d).log != s.log
      <==> authenticated && exists id :: Refreshable(cfg, s, id, plain, clientId, requested, permitted)
    ensures Unseen(s, d) ==>
      Apply(cfg, s, Step(RefreshGrant(plain, clientId, authenticated, requested, permitted), d))
        == DoRefresh(cfg, s, plain, clientId, authenticated, requested, permitted, d)
  {
    hide Reachable, ConfigOk, FindByClientIdOrAlias, DoRefresh, Answerable, Forgiven, PlainWords, Runs.TableOk,
      RefreshTokens.Live;
    RefreshGrounds(cfg, s, plain, clientId, authenticated, requested, permitted, d);
    ReachableTable(cfg, s);
    UniqueInTable(cfg, s.tokens);
    forall id | UsableBy(cfg, s, id, plain, clientId)
      ensures DoRefresh(cfg, s, plain, clientId, true, requested, permitted, d).log != s.log
        <==> Honoured(cfg, s, id, requested) && Answerable(cfg, s, s.tokens[id], permitted)
    {
      UsableRefreshedIff(cfg, s, id, plain, clientId, requested, permitted, d);
    }
    if DoRefresh(cfg, s, plain, clientId, authenticated, requested, permitted, d).log != s.log {
      var id :| id in s.tokens && s.tokens[id].tokenHash == RefreshTokens.Sha256(plain)
                && !RefreshTokens.Unusable(s.tokens[id], FindByClientIdOrAlias(cfg.directory, clientId).value.clientId, s.now);
      assert UsableBy(cfg, s, id, plain, clientId);
      assert Refreshable(cfg, s, id, plain, clientId, requested, permitted);
    }
  }

  lemma UsableRefreshedIff(cfg: Config, s: State, id: RefreshTokens.Id, plain: RefreshTokens.Plaintext,
                           clientId: string, requested: Option<string>, permitted: bool, d: Draws)
    requires ConfigOk(cfg) && Reachable(cfg, s) && UsableBy(cfg, s, id, plain, clientId)
    requires s.tokens[id].usedAt.None? ==> !RefreshTokens.HasChild(s.tokens, id)
    ensures DoRefresh(cfg, s, plain, clientId, true, requested, permitted, d).log != s.log
      <==> Honoured(cfg, s, id, requested) && Answerable(cfg, s, s.tokens[id], permitted)
  {
    hide Reachable, ConfigOk, OwnClient, DoRefresh, Answerable, Forgiven, PlainWords, RefreshTokens.Unusable,
      RefreshTokens.RotatedTable, RefreshTokens.RevokeFamilyRows, RefreshTokens.HasChild, Response, ValidateScopeSubset;
    if s.tokens[id].usedAt.None? {
      RefreshOfLiveToken(cfg, s, id, plain, clientId, requested, permitted, d);
      if Truthy(requested) { ValidateScopeSubsetExact(requested.value, s.tokens[id].scope); }
    } else {
      RefreshOfUsedToken(cfg, s, id, plain, clientId, requested, permitted, d);
    }
  }

  // ---------------------------------------------------------------------------------------
  // The scopes of a refreshed access token and the client it names
  // ---------------------------------------------------------------------------------------

  /** The scopes listed in a response, or the scope claim of its access token. */
  datatype Part = Listed | Claimed

  /** What these scopes come to in that part. */
  function InPart(scopes: set<string>, part: Part): set<string> {
    if part.Claimed? then scopes - {OFFLINE_ACCESS} else scopes
  }

  function PartOf(e: Event, part: Part): seq<string>
    requires e.TokensIssued?
  {
    if part.Claimed? then e.claim else e.scopes
  }

  /** What was issued between the two states is within the scopes of the clients it names. */
  ghost predicate WithinNamed(cfg: Config, s: State, s': State, part: Part) {
    forall i :: |s.log| <= i < |s'.log| && s'.log[i].TokensIssued? ==>
      && s'.log[i].named in cfg.directory.clients
      && Elements(PartOf(s'.log[i], part)) <= Allowed(cfg.directory.clients[s'.log[i].named])
  }

  /** Whatever scope the client requests, this part stays within the named client. */
  ghost predicate AlwaysWithin(cfg: Config, s: State, plain: RefreshTokens.Plaintext, clientId: string, part: Part) {
    forall requested, d :: WithinNamed(cfg, s, DoRefresh(cfg, s, plain, clientId, true, requested, true, d), part)
  }

  /** In every reachable state, for a live token in a valid session whose tenant has a default
      client: whatever scope its client requests, the access token is within the scopes of the
      client it names, the default one, if and only if all scopes of the refresh token are, apart
      from the scope that access tokens never carry. */
  lemma AccessTokenWithinNamedIff(cfg: Config, s: State, id: RefreshTokens.Id, plain: RefreshTokens.Plaintext,
                                  clientId: string)
    requires ConfigOk(cfg) && Reachable(cfg, s) && id in s.tokens && RefreshTokens.Live(s.tokens, s.now, id, plain)
    requires OwnClient(cfg, clientId, s.tokens[id]) && Answerable(cfg, s, s.tokens[id], true)
    ensures var row := s.tokens[id];
      AlwaysWithin(cfg, s, plain, clientId, Claimed)
      <==> Elements(Parse(row.scope)) - {OFFLINE_ACCESS} <= Allowed(DefaultClient(cfg, row).value)
  {
    hide AlwaysWithin, Reachable, ConfigOk, RefreshTokens.Live, OwnClient, Answerable;
    PartWithinNamedIff(cfg, s, id, plain, clientId, Claimed);
  }

  /** The same for the scopes listed in the response, where that scope does appear. */
  lemma ResponseWithinNamedIff(cfg: Config, s: State, id: RefreshTokens.Id, plain: RefreshTokens.Plaintext,
                               clientId: string)
    requires ConfigOk(cfg) && Reachable(cfg, s) && id in s.tokens && RefreshTokens.Live(s.tokens, s.now, id, plain)
    requires OwnClient(cfg, clientId, s.tokens[id]) && Answerable(cfg, s, s.tokens[id], true)
    ensures var row := s.tokens[id];
      AlwaysWithin(cfg, s, plain, clientId, Listed)
      <==> Elements(Parse(row.scope)) <= Allowed(DefaultClient(cfg, row).value)
  {
    hide AlwaysWithin, Reachable, ConfigOk, RefreshTokens.Live, OwnClient, Answerable;
    PartWithinNamedIff(cfg, s, id, plain, clientId, Listed);
  }

  lemma PartWithinNamedIff(cfg: Config, s: State, id: RefreshTokens.Id, plain: RefreshTokens.Plaintext,
                           clientId: string, part: Part)
    requires ConfigOk(cfg) && Reachable(cfg, s) && id in s.tokens && RefreshTokens.Live(s.tokens, s.now, id, plain)
    requires OwnClient(cfg, clientId, s.tokens[id]) && Answerable(cfg, s, s.tokens[id], true)
    ensures var row := s.tokens[id];
      AlwaysWithin(cfg, s, plain, clientId, part)
      <==> InPart(Elements(Parse(row.scope)), part) <= Allowed(DefaultClient(cfg, row).value)
  {
    var row := s.tokens[id];
    var named := DefaultClient(cfg, row).value;
    forall requested, d
      ensures var granted := RefreshTokens.GrantedScope(requested, row.scope);
        WithinNamed(cfg, s, DoRefresh(cfg, s, plain, clientId, true, requested, true, d), part)
        <==> (granted.Ok? ==> InPart(Elements(Parse(granted.value)), part) <= Allowed(named))
    {
      OneRefreshWithinNamed(cfg, s, id, plain, clientId, requested, d, part);
    }
    hide DoRefresh, WithinNamed, Allowed, Reachable, ConfigOk, RefreshTokens.Live;
    if InPart(Elements(Parse(row.scope)), part) <= Allowed(named) {
      forall requested ensures var granted := RefreshTokens.GrantedScope(requested, row.scope);
        granted.Ok? ==> Elements(Parse(granted.value)) <= Elements(Parse(row.scope))
      {
        GrantedNarrower(cfg, s, id, requested);
      }
    } else {
      var d := Draws("", "", 0, 0, 0);
      assert RefreshTokens.GrantedScope(None, row.scope) == Ok(row.scope);
      assert !WithinNamed(cfg, s, DoRefresh(cfg, s, plain, clientId, true, None, true, d), part);
    }
  }

  lemma GrantedNarrower(cfg: Config, s: State, id: RefreshTokens.Id, requested: Option<string>)
    requires ConfigOk(cfg) && Reachable(cfg, s) && id in s.tokens
    ensures var granted := RefreshTokens.GrantedScope(requested, s.tokens[id].scope);
      granted.Ok? ==> Elements(Parse(granted.value)) <= Elements(Parse(s.tokens[id].scope))
  {
    hide Reachable, ConfigOk, CodesOk, LogOk, Reflects, Parse, PlainWords, Allowed;
    ReachableInv(cfg, s);
    assert TokenOk(cfg, s.sessions, s.tokens[id]);
    if Truthy(requested) { ValidateScopeSubsetExact(requested.value, s.tokens[id].scope); }
  }

  lemma OneRefreshWithinNamed(cfg: Config, s: State, id: RefreshTokens.Id, plain: RefreshTokens.Plaintext,
                              clientId: string, requested: Option<string>, d: Draws, part: Part)
    requires ConfigOk(cfg) && Reachable(cfg, s) && id in s.tokens && RefreshTokens.Live(s.tokens, s.now, id, plain)
    requires OwnClient(cfg, clientId, s.tokens[id]) && Answerable(cfg, s, s.tokens[id], true)
    ensures var row := s.tokens[id]; var granted := RefreshTokens.GrantedScope(requested, row.scope);
      WithinNamed(cfg, s, DoRefresh(cfg, s, plain, clientId, true, requested, true, d), part)
      <==> (granted.Ok? ==> InPart(Elements(Parse(granted.value)), part) <= Allowed(DefaultClient(cfg, row).value))
  {
    hide Reachable, RefreshTokens.Live, DoRefresh, Allowed, Parse, RefreshTokens.GrantedScope, RefreshTokens.RotatedTable,
      OwnClient, ConfigOk, FindByAlias;
    RefreshOfLiveToken(cfg, s, id, plain, clientId, requested, true, d);
    DefaultIsListed(cfg, s.tokens[id]);
    var s' := DoRefresh(cfg, s, plain, clientId, true, requested, true, d);
    if s'.log != s.log { assert s'.log[|s.log|].TokensIssued?; }
  }

  lemma DefaultIsListed(cfg: Config, row: RefreshTokens.Token)
    requires ConfigOk(cfg) && DefaultClient(cfg, row).Some?
    ensures var c := DefaultClient(cfg, row).value;
      c.clientId in cfg.directory.clients && cfg.directory.clients[c.clientId] == c
  {}

  // ---------------------------------------------------------------------------------------
  // Two runs: a refresh without, and with, a default client
  // ---------------------------------------------------------------------------------------

  /** A client with its one scope, the default client of its tenant with another, and a user. */
  datatype Names = Names(client: string, scope: string, default: string, other: string, domain: string, tenant: string,
                         user: string, sid: Sid)

  ghost predicate AllDistinct(n: Names) {
    && n.client != "" && n.sid != "" && n.client != n.default && n.client != n.domain
    && Clean(n.scope, IsSeparator) && Clean(n.other, IsSeparator)
    && n.scope != n.other && n.scope != OFFLINE_ACCESS
  }

  type Cast = n: Names | AllDistinct(n)
    ghost witness Names("portal", "reports", "default", "openid", "acme.com", "acme", "ann", "s-1")

  ghost function Asking(n: Cast): Client {
    Client(n.client, None, n.tenant, n.scope, [], false, None, true, true, false)
  }

  ghost function Default(n: Cast): Client {
    Client(n.default, Some(n.domain), n.tenant, n.other, [], false, None, false, true, false)
  }

  ghost function Setup(n: Cast, withDefault: bool): Config {
    var directory :=
      if withDefault then Directory(map[n.client := Asking(n), n.default := Default(n)], map[n.domain := n.default])
      else Directory(map[n.client := Asking(n)], map[]);
    Config(directory, (_) => false, (_) => n.domain, AuthCodes.Digests(x => x, x => x),
           RefreshTokens.Config(1000, 1000, None), 1000)
  }

  ghost function FirstRow(n: Cast): RefreshTokens.Token {
    RefreshTokens.RootRow(RefreshTokens.Config(1000, 1000, None), 0, 0, 0, n.user, n.client, n.tenant, n.scope, Some(n.sid))
  }

  /** After a password grant at time 0. */
  ghost function AfterGrant(n: Cast): State {
    State(0, map[n.sid := NewSession(0, 1000, n.user, n.tenant)], map[], map[], map[0 := FirstRow(n)], [],
          [TokensIssued(0, n.sid, n.user, n.client, n.client, [n.scope], [n.scope])])
  }

  /** A refresh of the token that the grant returned. */
  ghost function AfterRefresh(n: Cast, withDefault: bool): State {
    DoRefresh(Setup(n, withDefault), AfterGrant(n), 0, n.client, true, None, true, Draws("", "", 1, 1, 1))
  }

  lemma OneWord(w: string)
    requires Clean(w, IsSeparator)
    ensures Format([w]) == w && Parse(w) == [w] && ResolveScopes(None, w) == Ok([w])
    ensures w != OFFLINE_ACCESS ==> ScopeClaim([w]) == [w]
  {
    assert ScopeClaim([]) == [];
    assert [w][1..] == [];
    forall x, c | x in [w] && c in x ensures !IsSeparator(c) {}
    ParseOfFormat([w]);
    CanonicalForm([w]);
    ParseMeaning(w);
    assert Elements([w]) == {w};
    AscendingUnique(Sort(NonEmpty(Distinct([w]))), [w]);
    AscendingUnique(Parse(w), [w]);
    ResolveExact(None, w);
    AscendingUnique(ResolveScopes(None, w).value, [w]);
  }

  lemma SetupDirectory(n: Cast, withDefault: bool)
    ensures var cfg := Setup(n, withDefault);
      ConfigOk(cfg) && FindByClientIdOrAlias(cfg.directory, n.client) == Ok(Asking(n))
      && FindByAlias(cfg.directory, n.domain) == if withDefault then Some(Default(n)) else None
  {}

  lemma GrantIssues(n: Cast, withDefault: bool)
    ensures IssueTokens(Setup(n, withDefault), Init(0), n.user, n.tenant, Some(n.client), None, None, false, true,
                        Draws(n.sid, "", 0, 0, 0)) == AfterGrant(n)
  {
    SetupDirectory(n, withDefault);
    OneWord(n.scope);
    CleanNotEmpty(n.scope);
    hide Parse, Format, ResolveScopes, FindByClientIdOrAlias, ConfigOk, NewSession, Clean, RefreshTokens.RootRow,
      ScopeClaim, AllDistinct;
  }

  lemma GrantRuns(n: Cast, withDefault: bool)
    ensures Apply(Setup(n, withDefault), Init(0), Step(PasswordGrant(n.user, n.client, None, true), Draws(n.sid, "", 0, 0, 0)))
      == AfterGrant(n)
  {
    SetupDirectory(n, withDefault);
    GrantIssues(n, withDefault);
    hide IssueTokens, FindByClientIdOrAlias, ConfigOk, AfterGrant, Setup;
  }

  lemma CleanNotEmpty(w: string)
    requires Clean(w, IsSeparator)
    ensures w != ""
  {}

  lemma GrantReachable(n: Cast, withDefault: bool)
    ensures Reachable(Setup(n, withDefault), AfterGrant(n))
  {
    hide Apply, AfterGrant, AllDistinct, Setup;
    GrantRuns(n, withDefault);
    var step := Step(PasswordGrant(n.user, n.client, None, true), Draws(n.sid, "", 0, 0, 0));
    assert [step][1..] == [];
    assert Run(Setup(n, withDefault), Init(0), [step]) == AfterGrant(n);
  }

  lemma GrantedToken(n: Cast, withDefault: bool)
    ensures var s := AfterGrant(n);
      && s.tokens == map[0 := FirstRow(n)] && RefreshTokens.Live(s.tokens, s.now, 0, 0) && s.now == 0
      && OwnClient(Setup(n, withDefault), n.client, FirstRow(n)) && InValidSession(s, FirstRow(n))
      && DefaultClient(Setup(n, withDefault), FirstRow(n)) == if withDefault then Some(Default(n)) else None
  {
    SetupDirectory(n, withDefault);
    hide FindByClientIdOrAlias, FindByAlias, ConfigOk;
  }

  /** Without a default client the refresh consumes the token, stores a child that nobody is
      given, and answers nothing. */
  lemma RefreshLostWithoutDefault(n: Cast)
    ensures var s' := AfterRefresh(n, false);
      && Reachable(Setup(n, false), AfterGrant(n))
      && s'.log == AfterGrant(n).log && s'.tokens.Keys == {0, 1}
      && s'.tokens[0].usedAt == Some(0) && s'.tokens[1].parentId == Some(0)
  {
    hide Reachable, ConfigOk, RefreshTokens.Live, DoRefresh, Setup, AfterGrant, OwnClient, DefaultClient, AllDistinct,
      InValidSession, FirstRow;
    SetupDirectory(n, false);
    GrantReachable(n, false);
    GrantedToken(n, false);
    RefreshOfLiveToken(Setup(n, false), AfterGrant(n), 0, 0, n.client, None, true, Draws("", "", 1, 1, 1));
  }

  /** With one, the access token names the default client and carries a scope that client may
      not have. */
  lemma RefreshNamesDefault(n: Cast)
    ensures var s' := AfterRefresh(n, true);
      && Reachable(Setup(n, true), AfterGrant(n))
      && s'.log == AfterGrant(n).log + [TokensIssued(0, n.sid, n.user, n.client, n.default, [n.scope], [n.scope])]
      && n.scope !in Allowed(Default(n))
  {
    SetupDirectory(n, true);
    GrantReachable(n, true);
    GrantedToken(n, true);
    DefaultMayNot(n);
    OneWord(n.scope);
    hide Reachable, ConfigOk, RefreshTokens.Live, DoRefresh, Setup, AfterGrant, OwnClient, DefaultClient, AllDistinct,
      InValidSession, Parse, Allowed, ResolveScopes, Format, Clean, ScopeClaim, RefreshTokens.RotatedTable;
    RefreshOfLiveToken(Setup(n, true), AfterGrant(n), 0, 0, n.client, None, true, Draws("", "", 1, 1, 1));
  }

  lemma DefaultMayNot(n: Cast)
    ensures n.scope !in Allowed(Default(n))
  {
    OneWord(n.other);
    CleanNotEmpty(n.other);
    hide Parse;
    assert Allowed(Default(n)) == Elements([n.other]);
  }
}
