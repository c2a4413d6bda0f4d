/**
 Revocation in the authorization flow: all tokens of a family stand and fall together, so a
 revocation by its tenant ends a family for good.
 */
module AuthFlowRevocation {
  import opened Wrappers
  import opened AuthorizeRequests
  import opened LoginSessions
  import opened AuthFlow
  import opened AuthFlowTheorems
  import opened AuthFlowProgress
  import AuthCodes
  import RefreshTokens
  import Runs = RefreshTokenRuns
  import TokenRevocation

  // ---------------------------------------------------------------------------------------
  // What a request does to the refresh tokens
  // ---------------------------------------------------------------------------------------

  /** A first token of a new family. */
  ghost predicate AddsRoot(t: RefreshTokens.Table, t': RefreshTokens.Table, id: RefreshTokens.Id, row: RefreshTokens.Token) {
    t' == t[id := row] && id !in t && !row.revoked && forall i :: i in t ==> t[i].familyId != row.familyId
  }

  /** An unrevoked token is used. */
  ghost predicate Uses(t: RefreshTokens.Table, t': RefreshTokens.Table, id: RefreshTokens.Id, now: int) {
    id in t && !t[id].revoked && t' == RefreshTokens.MarkUsed(t, id, now)
  }

  /** And gets a child. */
  ghost predicate AddsChild(t: RefreshTokens.Table, t': RefreshTokens.Table, id: RefreshTokens.Id, now: int,
                            newId: RefreshTokens.Id, child: RefreshTokens.Token)
  {
    && id in t && !t[id].revoked && newId !in t && t' == RefreshTokens.MarkUsed(t, id, now)[newId := child]
    && child.familyId == t[id].familyId && child.sid == t[id].sid && !child.revoked
  }

  ghost predicate TokenStep(t: RefreshTokens.Table, t': RefreshTokens.Table) {
    || t' == t
    || (exists id, row :: AddsRoot(t, t', id, row))
    || (exists id, now :: Uses(t, t', id, now))
    || (exists id, now, newId, child :: AddsChild(t, t', id, now, newId, child))
    || (exists family :: t' == RefreshTokens.RevokeFamilyRows(t, family))
    || (exists sid :: t' == RefreshTokens.RevokeSidRows(t, sid))
  }

  lemma IssuingSteps(cfg: Config, s: State, userId: string, tenantId: string, oauthClientId: Option<string>,
                     requested: Option<string>, sid: Option<Sid>, codeGrant: bool, permitted: bool, d: Draws)
    requires UnseenToken(s.tokens, d)
    ensures TokenStep(s.tokens, IssueTokens(cfg, s, userId, tenantId, oauthClientId, requested, sid, codeGrant,
        permitted, d).tokens)
  {
    hide ResolveClient, RefreshTokens.HashIn, TokenStep, RefreshEligible;
    forall row: RefreshTokens.Token | row.familyId == d.family && !row.revoked
      ensures TokenStep(s.tokens, s.tokens[d.tokenId := row])
    {
      RootSteps(s.tokens, d.tokenId, row);
    }
    NoTokenStep(s.tokens);
  }

  lemma RootSteps(t: RefreshTokens.Table, id: RefreshTokens.Id, row: RefreshTokens.Token)
    requires AddsRoot(t, t[id := row], id, row)
    ensures TokenStep(t, t[id := row])
  {}

  lemma NoTokenStep(t: RefreshTokens.Table)
    ensures TokenStep(t, t)
  {}

  lemma RotationSteps(cfg: RefreshTokens.Config, t: RefreshTokens.Table, now: int, plain: RefreshTokens.Plaintext,
                      clientId: string, requested: Option<string>, newId: RefreshTokens.Id, newPlain: RefreshTokens.Plaintext)
    requires Runs.TableOk(cfg, t) && newId !in t
    ensures TokenStep(t, RefreshTokens.RotateCall(cfg, t, now, plain, clientId, requested, newId, newPlain).0)
  {
    hide RefreshTokens.GrantedScope, RefreshTokens.InGrace, RefreshTokens.HasChild, RefreshTokens.HashIn, TokenStep,
      RefreshTokens.MarkUsed, RefreshTokens.RevokeFamilyRows, Runs.TableOk;
    NoTokenStep(t);
    var found := RefreshTokens.FindByHash(t, RefreshTokens.Sha256(plain));
    FoundInTable(t, RefreshTokens.Sha256(plain));
    if found.Some? {
      var id := found.value;
      FamilySteps(t, t[id].familyId);
      if !t[id].revoked {
        SidNotEmpty(cfg, t, id);
        UseSteps(t, id, now);
        forall child: RefreshTokens.Token | child.familyId == t[id].familyId && child.sid == t[id].sid && !child.revoked
          ensures TokenStep(t, RefreshTokens.MarkUsed(t, id, now)[newId := child])
        {
          ChildSteps(t, id, now, newId, child);
        }
      }
    }
  }

  lemma SidNotEmpty(cfg: RefreshTokens.Config, t: RefreshTokens.Table, id: RefreshTokens.Id)
    requires Runs.TableOk(cfg, t) && id in t
    ensures OrNull(t[id].sid) == t[id].sid
  {
    assert Runs.RowOk(cfg, t[id]);
  }

  lemma UseSteps(t: RefreshTokens.Table, id: RefreshTokens.Id, now: int)
    requires id in t && !t[id].revoked
    ensures TokenStep(t, RefreshTokens.MarkUsed(t, id, now))
  {
    assert Uses(t, RefreshTokens.MarkUsed(t, id, now), id, now);
  }

  lemma ChildSteps(t: RefreshTokens.Table, id: RefreshTokens.Id, now: int, newId: RefreshTokens.Id, child: RefreshTokens.Token)
    requires AddsChild(t, RefreshTokens.MarkUsed(t, id, now)[newId := child], id, now, newId, child)
    ensures TokenStep(t, RefreshTokens.MarkUsed(t, id, now)[newId := child])
  {}

  lemma FamilySteps(t: RefreshTokens.Table, family: RefreshTokens.Family)
    ensures TokenStep(t, RefreshTokens.RevokeFamilyRows(t, family))
  {}

  lemma SidSteps(t: RefreshTokens.Table, sid: Sid)
    ensures TokenStep(t, RefreshTokens.RevokeSidRows(t, sid))
  {}

  lemma RevokedBySteps(t: RefreshTokens.Table, tenantId: string, plain: RefreshTokens.Plaintext)
    ensures TokenStep(t, TokenRevocation.RevokedBy(t, tenantId, plain))
  {
    hide TokenStep, RefreshTokens.RevokeFamilyRows;
    NoTokenStep(t);
    var found := RefreshTokens.FindByHash(t, RefreshTokens.Sha256(plain));
    FoundInTable(t, RefreshTokens.Sha256(plain));
    if found.Some? { FamilySteps(t, t[found.value].familyId); }
  }

  /** A request is one or two such steps; a logout may be two. */
  ghost predicate TokenSteps(t: RefreshTokens.Table, t': RefreshTokens.Table) {
    exists t1 :: TokenStep(t, t1) && TokenStep(t1, t')
  }

  lemma OneIsSteps(t: RefreshTokens.Table, t': RefreshTokens.Table)
    requires TokenStep(t, t')
    ensures TokenSteps(t, t')
  {
    NoTokenStep(t');
  }

  lemma LogoutSteps(t: RefreshTokens.Table, tenantId: Option<string>, refreshToken: Option<RefreshTokens.Plaintext>,
                    sid: Option<Sid>)
    ensures TokenSteps(t, TokenRevocation.TokensAfterLogout(t, tenantId, refreshToken, sid))
  {
    hide TokenStep, RefreshTokens.RevokeSidRows, TokenRevocation.RevokedBy;
    NoTokenStep(t);
    if Truthy(sid) { SidSteps(t, sid.value); }
    var t1 := if Truthy(sid) then RefreshTokens.RevokeSidRows(t, sid.value) else t;
    NoTokenStep(t1);
    if refreshToken.Some? && Truthy(tenantId) { RevokedBySteps(t1, tenantId.value, refreshToken.value); }
    assert TokenStep(t, t1) && TokenStep(t1, TokenRevocation.TokensAfterLogout(t, tenantId, refreshToken, sid));
  }

  lemma RequestSteps(cfg: Config, s: State, step: Step)
    requires Runs.TableOk(cfg.refresh, s.tokens)
    ensures TokenSteps(s.tokens, Apply(cfg, s, step).tokens)
  {
    hide Runs.TableOk, DoAuthorize, DoConsent, IssueTokens, AuthCodes.Redeem, AuthCodes.Bound, RefreshTokens.RotateCall,
      RefreshTokens.HashIn, TokenRevocation.RevokedBy, TokenRevocation.TokensAfterLogout, FindByClientIdOrAlias, Refreshed,
      TokenStep, TokenSteps, UnseenToken;
    var d := step.draws;
    NoTokenStep(s.tokens);
    OneIsSteps(s.tokens, s.tokens);
    if Unseen(s, d) {
      UnseenId(s.tokens, d);
      match step.action
      case Authorize(q, ui) => AuthorizeKeepsTokens(cfg, s, q, ui, d.code);
      case DecideConsent(cookie, clientId, scope, grant) => ConsentKeepsTokens(cfg, s, cookie, clientId, scope, grant);
      case CodeGrant(req, scope, permitted) =>
        var r := AuthCodes.Redeem(s.codes, req.code, s.now);
        if r.1.Some? {
          var row := r.1.value;
          IssuingSteps(cfg, s.(codes := r.0), row.userId, row.tenantId, Some(row.clientId),
                       if Truthy(scope) then scope else row.scope, row.sid, true, permitted, d);
          OneIsSteps(s.tokens, Apply(cfg, s, step).tokens);
        }
      case PasswordGrant(userId, clientId, scope, permitted) =>
        var found := FindByClientIdOrAlias(cfg.directory, clientId);
        if found.Ok? {
          IssuingSteps(cfg, s, userId, found.value.tenantId, Some(clientId), scope, None, false, permitted, d);
          OneIsSteps(s.tokens, Apply(cfg, s, step).tokens);
        }
      case Exchange(userId, clientId, permitted) =>
        var found := FindByClientIdOrAlias(cfg.directory, clientId);
        if found.Ok? {
          IssuingSteps(cfg, s, userId, found.value.tenantId, None, None, None, false, permitted, d);
          OneIsSteps(s.tokens, Apply(cfg, s, step).tokens);
        }
      case RefreshGrant(plain, clientId, authenticated, scope, permitted) =>
        var found := FindByClientIdOrAlias(cfg.directory, clientId);
        if found.Ok? && authenticated {
          RotationSteps(cfg.refresh, s.tokens, s.now, plain, found.value.clientId, scope, d.tokenId, d.plain);
          RefreshedKeepsTokens(cfg, s, plain, clientId, authenticated, scope, permitted, d);
          OneIsSteps(s.tokens, Apply(cfg, s, step).tokens);
        }
      case Logout(tenantId, refreshToken, sid) => LogoutSteps(s.tokens, tenantId, refreshToken, sid);
      case Revoke(tenant, plain) =>
        RevokedBySteps(s.tokens, tenant, plain);
        OneIsSteps(s.tokens, Apply(cfg, s, step).tokens);
      case _ =>
    }
  }

  lemma UnseenId(t: RefreshTokens.Table, d: Draws)
    requires UnseenToken(t, d)
    ensures d.tokenId !in t
  {}

  // ---------------------------------------------------------------------------------------
  // Families stand and fall together
  // ---------------------------------------------------------------------------------------

  /** If they are of one family, they are of one session, and both revoked or neither. */
  predicate Alike(a: RefreshTokens.Token, b: RefreshTokens.Token) {
    a.familyId == b.familyId ==> a.sid == b.sid && a.revoked == b.revoked
  }

  ghost predicate Together(t: RefreshTokens.Table) {
    forall a, b :: a in t && b in t ==> Alike(t[a], t[b])
  }

  lemma RootKeepsTogether(t: RefreshTokens.Table, t': RefreshTokens.Table, id: RefreshTokens.Id, row: RefreshTokens.Token)
    requires Together(t) && AddsRoot(t, t', id, row)
    ensures Together(t')
  {
    forall a, b | a in t' && b in t' ensures Alike(t'[a], t'[b]) {
      assert a in t && b in t ==> Alike(t[a], t[b]);
    }
  }

  lemma UseKeepsTogether(t: RefreshTokens.Table, t': RefreshTokens.Table, id: RefreshTokens.Id, now: int)
    requires Together(t) && Uses(t, t', id, now)
    ensures Together(t')
  {
    forall a, b | a in t' && b in t' ensures Alike(t'[a], t'[b]) {
      assert Alike(t[a], t[b]);
    }
  }

  lemma ChildKeepsTogether(t: RefreshTokens.Table, t': RefreshTokens.Table, id: RefreshTokens.Id, now: int,
                           newId: RefreshTokens.Id, child: RefreshTokens.Token)
    requires Together(t) && AddsChild(t, t', id, now, newId, child)
    ensures Together(t')
  {
    var t1 := RefreshTokens.MarkUsed(t, id, now);
    assert Uses(t, t1, id, now);
    UseKeepsTogether(t, t1, id, now);
    forall a | a in t1 ensures Alike(t1[a], child) && Alike(child, t1[a]) {
      assert Alike(t1[a], t1[id]);
    }
    forall a, b | a in t' && b in t' ensures Alike(t'[a], t'[b]) {
      assert a in t1 && b in t1 ==> Alike(t1[a], t1[b]);
    }
  }

  lemma FamilyKeepsTogether(t: RefreshTokens.Table, family: RefreshTokens.Family)
    requires Together(t)
    ensures Together(RefreshTokens.RevokeFamilyRows(t, family))
  {
    var t' := RefreshTokens.RevokeFamilyRows(t, family);
    forall a, b | a in t' && b in t' ensures Alike(t'[a], t'[b]) { assert Alike(t[a], t[b]); }
  }

  lemma SidKeepsTogether(t: RefreshTokens.Table, sid: Sid)
    requires Together(t)
    ensures Together(RefreshTokens.RevokeSidRows(t, sid))
  {
    var t' := RefreshTokens.RevokeSidRows(t, sid);
    forall a, b | a in t' && b in t' ensures Alike(t'[a], t'[b]) { assert Alike(t[a], t[b]); }
  }

  lemma StepKeepsTogether(t: RefreshTokens.Table, t': RefreshTokens.Table)
    requires Together(t) && TokenStep(t, t')
    ensures Together(t')
  {
    hide Together, AddsRoot, Uses, AddsChild, RefreshTokens.RevokeFamilyRows, RefreshTokens.RevokeSidRows;
    if id, row :| AddsRoot(t, t', id, row) {
      RootKeepsTogether(t, t', id, row);
    } else if id, now :| Uses(t, t', id, now) {
      UseKeepsTogether(t, t', id, now);
    } else if id, now, newId, child :| AddsChild(t, t', id, now, newId, child) {
      ChildKeepsTogether(t, t', id, now, newId, child);
    } else if family :| t' == RefreshTokens.RevokeFamilyRows(t, family) {
      FamilyKeepsTogether(t, family);
    } else if sid :| t' == RefreshTokens.RevokeSidRows(t, sid) {
      SidKeepsTogether(t, sid);
    }
  }

  /** The family exists and is revoked. */
  ghost predicate Fallen(t: RefreshTokens.Table, family: RefreshTokens.Family) {
    RefreshTokens.AllRevoked(t, family) && exists id :: id in t && t[id].familyId == family
  }

  lemma StepKeepsFallen(t: RefreshTokens.Table, t': RefreshTokens.Table, family: RefreshTokens.Family)
    requires Fallen(t, family) && TokenStep(t, t')
    ensures Fallen(t', family)
  {
    var id :| id in t && t[id].familyId == family;
    assert id in t' && t'[id].familyId == family;
  }

  lemma {:induction false} RunKeepsTogether(cfg: Config, s: State, steps: seq<Step>)
    requires Runs.TableOk(cfg.refresh, s.tokens) && Together(s.tokens)
    ensures Together(Run(cfg, s, steps).tokens)
    decreases steps
  {
    hide Apply, Runs.TableOk, Together, TokenStep;
    if steps != [] {
      RequestSteps(cfg, s, steps[0]);
      var t1 :| TokenStep(s.tokens, t1) && TokenStep(t1, Apply(cfg, s, steps[0]).tokens);
      StepKeepsTogether(s.tokens, t1);
      StepKeepsTogether(t1, Apply(cfg, s, steps[0]).tokens);
      StepKeepsTable(cfg, s, steps[0]);
      RunKeepsTogether(cfg, Apply(cfg, s, steps[0]), steps[1..]);
    }
  }

  lemma {:induction false} RunKeepsFallen(cfg: Config, s: State, steps: seq<Step>, family: RefreshTokens.Family)
    requires Runs.TableOk(cfg.refresh, s.tokens) && Fallen(s.tokens, family)
    ensures Fallen(Run(cfg, s, steps).tokens, family)
    decreases steps
  {
    hide Apply, Runs.TableOk, Fallen, TokenStep;
    if steps != [] {
      RequestSteps(cfg, s, steps[0]);
      var t1 :| TokenStep(s.tokens, t1) && TokenStep(t1, Apply(cfg, s, steps[0]).tokens);
      StepKeepsFallen(s.tokens, t1, family);
      StepKeepsFallen(t1, Apply(cfg, s, steps[0]).tokens, family);
      StepKeepsTable(cfg, s, steps[0]);
      RunKeepsFallen(cfg, Apply(cfg, s, steps[0]), steps[1..], family);
    }
  }

  /** In every reachable state the tokens of a family are all revoked or none is, and they belong
      to one session. */
  lemma FamiliesFallTogether(cfg: Config, s: State, a: RefreshTokens.Id, b: RefreshTokens.Id)
    requires Reachable(cfg, s) && a in s.tokens && b in s.tokens && s.tokens[a].familyId == s.tokens[b].familyId
    ensures s.tokens[a].revoked == s.tokens[b].revoked && s.tokens[a].sid == s.tokens[b].sid
  {
    hide Run, Runs.TableOk;
    var now, steps :| Run(cfg, Init(now), steps) == s;
    InitTable(cfg, now);
    RunKeepsTogether(cfg, Init(now), steps);
  }

  lemma InitTable(cfg: Config, now: int)
    ensures Runs.TableOk(cfg.refresh, Init(now).tokens)
  {}

  /** After a revocation by the token's tenant, whatever requests follow, every token of its family
      stays revoked, and no refresh with any of them is answered. */
  lemma RevocationEndsFamily(cfg: Config, s: State, id: RefreshTokens.Id, plain: RefreshTokens.Plaintext, d: Draws,
                             later: seq<Step>)
    requires Reachable(cfg, s) && Unseen(s, d)
    requires id in s.tokens && s.tokens[id].tokenHash == RefreshTokens.Sha256(plain)
    ensures var s1 := Run(cfg, Apply(cfg, s, Step(Revoke(s.tokens[id].tenantId, plain), d)), later);
      && RefreshTokens.AllRevoked(s1.tokens, s.tokens[id].familyId)
      && forall i, p, clientId, authenticated, scope, permitted, e ::
           i in s1.tokens && s1.tokens[i].familyId == s.tokens[id].familyId && s1.tokens[i].tokenHash == RefreshTokens.Sha256(p) ==>
           DoRefresh(cfg, s1, p, clientId, authenticated, scope, permitted, e).log == s1.log
  {
    hide Runs.TableOk, Reachable, Run, RefreshTokens.RotateCall, TokenRevocation.RevokedBy, Unseen, DoRefresh;
    var family := s.tokens[id].familyId;
    var s0 := Apply(cfg, s, Step(Revoke(s.tokens[id].tenantId, plain), d));
    ReachableTable(cfg, s);
    UniqueInTable(cfg, s.tokens);
    forall a | a in s.tokens && s.tokens[a].familyId == family ensures s.tokens[a].revoked == s.tokens[id].revoked {
      FamiliesFallTogether(cfg, s, a, id);
    }
    TokenRevocation.FamilyFallsIff(s.tokens, id, plain);
    RevokedBySteps(s.tokens, s.tokens[id].tenantId, plain);
    assert s0.tokens == TokenRevocation.RevokedBy(s.tokens, s.tokens[id].tenantId, plain);
    StillThere(s.tokens, s0.tokens, id);
    StepKeepsTable(cfg, s, Step(Revoke(s.tokens[id].tenantId, plain), d));
    RunKeepsFallen(cfg, s0, later, family);
    RunKeepsTable(cfg, s0, later);
    var s1 := Run(cfg, s0, later);
    UniqueInTable(cfg, s1.tokens);
    forall i, p, clientId, authenticated, scope, permitted, e |
      i in s1.tokens && s1.tokens[i].familyId == family && s1.tokens[i].tokenHash == RefreshTokens.Sha256(p)
      ensures DoRefresh(cfg, s1, p, clientId, authenticated, scope, permitted, e).log == s1.log
    {
      RevokedGetsNothing(cfg, s1, i, p, clientId, authenticated, scope, permitted, e);
    }
  }

  lemma StillThere(t: RefreshTokens.Table, t': RefreshTokens.Table, id: RefreshTokens.Id)
    requires TokenStep(t, t') && id in t
    ensures id in t' && t'[id].familyId == t[id].familyId
  {}

  lemma RevokedGetsNothing(cfg: Config, s: State, id: RefreshTokens.Id, plain: RefreshTokens.Plaintext, clientId: string,
                           authenticated: bool, scope: Option<string>, permitted: bool, d: Draws)
    requires RefreshTokens.UniqueHashes(s.tokens) && id in s.tokens && s.tokens[id].revoked
    requires s.tokens[id].tokenHash == RefreshTokens.Sha256(plain)
    ensures DoRefresh(cfg, s, plain, clientId, authenticated, scope, permitted, d).log == s.log
  {
    hide RefreshTokens.RotateCall, FindByClientIdOrAlias;
    var client := FindByClientIdOrAlias(cfg.directory, clientId);
    if client.Ok? {
      RefreshTokens.UnusableIsRejected(cfg.refresh, s.tokens, s.now, plain, client.value.clientId, scope, d.tokenId, d.plain);
    }
  }
}
