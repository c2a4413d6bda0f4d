/**
 Token revocation (RFC 7009, section 2.1) and the logout sequence over the session table and
 the refresh-token table.
 */
module TokenRevocation {
  import opened Wrappers
  import opened RefreshTokens
  import opened LoginSessions

  /** Unknown, foreign and already revoked tokens change nothing; otherwise the family falls. */
  ghost function RevokedBy(t: RefreshTokens.Table, tenantId: string, plain: Plaintext): RefreshTokens.Table {
    match FindByHash(t, Sha256(plain))
    case None => t
    case Some(id) => if t[id].tenantId != tenantId || t[id].revoked then t else RevokeFamilyRows(t, t[id].familyId)
  }

  ghost function TokensAfterLogout(t: RefreshTokens.Table, tenantId: Option<string>, refreshToken: Option<Plaintext>,
                                   sid: Option<Sid>): RefreshTokens.Table
  {
    var t1 := if Truthy(sid) then RevokeSidRows(t, sid.value) else t;
    if refreshToken.Some? && Truthy(tenantId) then RevokedBy(t1, tenantId.value, refreshToken.value) else t1
  }

  function SessionsAfterLogout(t: LoginSessions.Table, sid: Option<Sid>, now: RefreshTokens.Time): LoginSessions.Table {
    if Truthy(sid) then Invalidated(t, sid.value, now) else t
  }

  ghost predicate SidRevoked(t: RefreshTokens.Table, sid: Sid) {
    forall id :: id in t && t[id].sid == Some(sid) ==> t[id].revoked
  }

  /** Revocation only ever sets the flag. */
  ghost predicate OnlyRevokes(t: RefreshTokens.Table, t': RefreshTokens.Table) {
    && t'.Keys == t.Keys
    && forall id :: id in t ==> t'[id] == t[id].(revoked := t'[id].revoked) && (t[id].revoked ==> t'[id].revoked)
  }

  lemma LogoutOnlyRevokes(t: RefreshTokens.Table, tenantId: Option<string>, refreshToken: Option<Plaintext>,
                          sid: Option<Sid>)
    ensures OnlyRevokes(t, TokensAfterLogout(t, tenantId, refreshToken, sid))
    ensures Truthy(sid) ==> SidRevoked(TokensAfterLogout(t, tenantId, refreshToken, sid), sid.value)
  {}

  /** The plaintext is that of an unrevoked token of this tenant. */
  ghost predicate Revocable(t: RefreshTokens.Table, id: Id, tenantId: string, plain: Plaintext) {
    id in t && t[id].tokenHash == Sha256(plain) && t[id].tenantId == tenantId && !t[id].revoked
  }

  /** A revocation revokes exactly the family of such a token, and changes nothing if the plaintext
      is no such token's. */
  lemma RevocationMeaning(t: RefreshTokens.Table, tenantId: string, plain: Plaintext)
    requires UniqueHashes(t)
    ensures forall id :: Revocable(t, id, tenantId, plain) ==> FamilyRevoked(t, RevokedBy(t, tenantId, plain), t[id].familyId)
    ensures (forall id :: !Revocable(t, id, tenantId, plain)) ==> RevokedBy(t, tenantId, plain) == t
  {
    var found := FindByHash(t, Sha256(plain));
    if found.Some? { assert RevokedBy(t, tenantId, plain) != t ==> Revocable(t, found.value, tenantId, plain); }
  }

  /** Shown by its own tenant, a token brings its whole family down unless it was revoked already
      while another token of the family was not: then the call stops at the revoked row. */
  lemma FamilyFallsIff(t: RefreshTokens.Table, id: Id, plain: Plaintext)
    requires UniqueHashes(t) && id in t && t[id].tokenHash == Sha256(plain)
    ensures AllRevoked(RevokedBy(t, t[id].tenantId, plain), t[id].familyId)
       <==> !t[id].revoked || AllRevoked(t, t[id].familyId)
  {
    RevocationMeaning(t, t[id].tenantId, plain);
    assert !t[id].revoked ==> Revocable(t, id, t[id].tenantId, plain);
    hide RevokedBy;
  }

  /** A logout without a sid: the explicit token's family falls if the tenant is known, and nothing
      happens without tenant or token. With a sid the session's tokens fall as well. */
  lemma LogoutMeaning(t: RefreshTokens.Table, tenantId: Option<string>, refreshToken: Option<Plaintext>,
                      sid: Option<Sid>, id: Id)
    requires UniqueHashes(t) && id in t
    ensures var t' := TokensAfterLogout(t, tenantId, refreshToken, sid);
      && id in t'
      && (sid.Some? && sid.value != "" && t[id].sid == sid ==> t'[id].revoked)
      && (sid in [None, Some("")] ==>
           if tenantId in [None, Some("")] || refreshToken == None then t' == t
           else Revocable(t, id, tenantId.value, refreshToken.value) ==> FamilyRevoked(t, t', t[id].familyId))
  {
    if sid in [None, Some("")] && tenantId.Some? && refreshToken.Some? {
      RevocationMeaning(t, tenantId.value, refreshToken.value);
    } else {
      LogoutOnlyRevokes(t, tenantId, refreshToken, sid);
    }
  }

  class TokenRevocationService {
    const tokens: RefreshTokenService
    const sessions: LoginSessionService

    constructor (tokens: RefreshTokenService, sessions: LoginSessionService)
      ensures this.tokens == tokens && this.sessions == sessions
    {
      this.tokens, this.sessions := tokens, sessions;
    }

    method Revoke(tenantId: string, plain: Plaintext)
      modifies tokens
      ensures UniqueHashes(old(tokens.rows)) ==> tokens.rows == RevokedBy(old(tokens.rows), tenantId, plain)
      ensures UniqueHashes(old(tokens.rows)) ==> forall id :: Revocable(old(tokens.rows), id, tenantId, plain) ==>
        FamilyRevoked(old(tokens.rows), tokens.rows, old(tokens.rows)[id].familyId)
      ensures (forall id :: id in old(tokens.rows) && old(tokens.rows)[id].tokenHash == Sha256(plain) ==>
        old(tokens.rows)[id].tenantId != tenantId || old(tokens.rows)[id].revoked) ==> tokens.rows == old(tokens.rows)
    {
      if !exists i :: i in tokens.rows && tokens.rows[i].tokenHash == Sha256(plain) {
        return;
      }
      var id :| id in tokens.rows && tokens.rows[id].tokenHash == Sha256(plain);
      var record := tokens.rows[id];
      if record.tenantId != tenantId { return; }
      if record.revoked { return; }
      tokens.RevokeFamily(record.familyId);
    }

    /** With a sid: the session is invalid from now on and all its tokens are revoked. */
    method Logout(now: RefreshTokens.Time, tenantId: Option<string>, refreshToken: Option<Plaintext>, sid: Option<Sid>)
      modifies tokens, sessions
      ensures UniqueHashes(old(tokens.rows)) ==> OnlyRevokes(old(tokens.rows), tokens.rows)
      ensures UniqueHashes(old(tokens.rows)) ==>
        tokens.rows == TokensAfterLogout(old(tokens.rows), tenantId, refreshToken, sid)
      ensures sessions.rows == SessionsAfterLogout(old(sessions.rows), sid, now)
      ensures UniqueHashes(old(tokens.rows)) && Truthy(sid) ==>
        SidRevoked(tokens.rows, sid.value) && forall t :: !ValidAt(sessions.rows, sid.value, t)
    {
      if Truthy(sid) {
        sessions.InvalidateSession(sid.value, now);
        tokens.RevokeBySid(sid.value);
      }
      if refreshToken.Some? && Truthy(tenantId) {
        Revoke(tenantId.value, refreshToken.value);
      }
      LogoutOnlyRevokes(old(tokens.rows), tenantId, refreshToken, sid);
    }
  }
}
