/**
 The refresh-token table: rows, the SQL statements that touch it, and one whole
 consume-and-rotate call (RFC 6749, section 6).

 Ids, families and plaintexts are numbers drawn fresh; SHA-256 is a constructor, so it is
 injective; times are milliseconds read from a clock passed in by the caller.
 */
module RefreshTokens {
  import opened Wrappers
  import opened Scopes

  type Id = nat
  type Family = nat
  type Plaintext = nat
  type Time = int

  datatype Hash = Sha256(plaintext: Plaintext)

  datatype Token = Token(
    tokenHash: Hash,
    familyId: Family,
    parentId: Option<Id>,
    userId: string,
    clientId: string,
    tenantId: string,
    scope: string,
    sid: Option<string>,
    expiresAt: Time,
    absoluteExpiresAt: Time,
    createdAt: Time,
    revoked: bool,
    usedAt: Option<Time>)

  type Table = map<Id, Token>

  /** `graceSeconds` is `None` when the setting does not parse as a number. */
  datatype Config = Config(slidingMs: int, absoluteMs: int, graceSeconds: Option<int>)

  datatype Outcome =
    | Rejected              // invalid_grant
    | ScopeRefused          // invalid_scope, after the token was consumed
    | DuplicateChild        // the UNIQUE constraint on parent_id refused the row
    | Rotated(child: Id)
    | Replayed(child: Id)   // grace window: the caller keeps the plaintext it sent

  function GraceWindowSeconds(cfg: Config): (r: int)
    ensures 0 <= r <= 30
  {
    match cfg.graceSeconds
    case None => 0
    case Some(raw) => if raw < 0 then 0 else if raw < 30 then raw else 30
  }

  function ClampExpiry(now: Time, slidingMs: int, absoluteExpiresAt: Time): (r: Time)
    ensures r <= absoluteExpiresAt && r <= now + slidingMs
    ensures r == absoluteExpiresAt || r == now + slidingMs
  {
    if now + slidingMs < absoluteExpiresAt then now + slidingMs else absoluteExpiresAt
  }

  /** The scope of the next token; a missing or empty request keeps the record's scope. */
  function GrantedScope(requested: Option<string>, record: string): Result<string, ScopeError> {
    if requested.None? || requested.value == "" then Ok(record)
    else ValidateScopeSubset(requested.value, record)
  }

  // ---------------------------------------------------------------------------------------
  // SQL statements on the table
  // ---------------------------------------------------------------------------------------

  ghost predicate UniqueHashes(t: Table) {
    forall a, b :: a in t && b in t && t[a].tokenHash == t[b].tokenHash ==> a == b
  }

  ghost predicate UniqueParents(t: Table) {
    forall a, b :: a in t && b in t && t[a].parentId.Some? && t[a].parentId == t[b].parentId ==> a == b
  }

  ghost predicate HashIn(t: Table, h: Hash) {
    exists id :: id in t && t[id].tokenHash == h
  }

  ghost predicate HasChild(t: Table, parent: Id) {
    exists c :: c in t && t[c].parentId == Some(parent)
  }

  ghost function FindByHash(t: Table, h: Hash): Option<Id> {
    if HashIn(t, h) then
      var id :| id in t && t[id].tokenHash == h; Some(id)
    else None
  }

  ghost function FindChild(t: Table, parent: Id): Option<Id> {
    if HasChild(t, parent) then
      var c :| c in t && t[c].parentId == Some(parent); Some(c)
    else None
  }

  /** UPDATE ... SET used_at WHERE id AND used_at IS NULL */
  function MarkUsed(t: Table, id: Id, now: Time): Table {
    if id in t && t[id].usedAt.None? then t[id := t[id].(usedAt := Some(now))] else t
  }

  /** UPDATE ... SET revoked WHERE family_id */
  function RevokeFamilyRows(t: Table, family: Family): Table {
    map id | id in t :: if t[id].familyId == family then t[id].(revoked := true) else t[id]
  }

  ghost function RevokeByTokenRows(t: Table, plain: Plaintext): Table {
    match FindByHash(t, Sha256(plain))
    case None => t
    case Some(id) => RevokeFamilyRows(t, t[id].familyId)
  }

  /** UPDATE ... SET revoked WHERE sid */
  function RevokeSidRows(t: Table, sid: string): Table {
    map id | id in t :: if t[id].sid == Some(sid) then t[id].(revoked := true) else t[id]
  }

  function RootRow(cfg: Config, now: Time, plain: Plaintext, family: Family, userId: string, clientId: string,
                   tenantId: string, scope: string, sid: Option<string>): Token
  {
    var absolute := now + cfg.absoluteMs;
    Token(Sha256(plain), family, None, userId, clientId, tenantId, scope, OrNull(sid),
          ClampExpiry(now, cfg.slidingMs, absolute), absolute, now, false, None)
  }

  function ChildRow(parent: Id, existing: Token, plain: Plaintext, scope: string, expiresAt: Time, now: Time): Token {
    Token(Sha256(plain), existing.familyId, Some(parent), existing.userId, existing.clientId, existing.tenantId,
          scope, OrNull(existing.sid), expiresAt, existing.absoluteExpiresAt, now, false, None)
  }

  /** The checks made on the row before any attempt to consume it. */
  predicate Unusable(row: Token, clientId: string, now: Time) {
    row.revoked || now > row.expiresAt || now > row.absoluteExpiresAt || row.clientId != clientId
  }

  /** A replay is forgiven while the clock is within the grace window. */
  predicate InGrace(cfg: Config, row: Token, now: Time) {
    && GraceWindowSeconds(cfg) > 0
    && row.usedAt.Some?
    && now <= row.usedAt.value + GraceWindowSeconds(cfg) * 1000
  }

  // ---------------------------------------------------------------------------------------
  // One whole call, run without interference
  // ---------------------------------------------------------------------------------------

  ghost function ReplayCall(cfg: Config, t: Table, now: Time, id: Id, row: Token): (Table, Outcome) {
    if InGrace(cfg, row, now) && HasChild(t, id) then (t, Replayed(FindChild(t, id).value))
    else (RevokeFamilyRows(t, row.familyId), Rejected)
  }

  ghost function RotateCall(cfg: Config, t: Table, now: Time, plain: Plaintext, clientId: string,
                            requested: Option<string>, newId: Id, newPlain: Plaintext): (Table, Outcome)
  {
    match FindByHash(t, Sha256(plain))
    case None => (t, Rejected)
    case Some(id) =>
      var row := t[id];
      if Unusable(row, clientId, now) then (t, Rejected)
      else if row.usedAt.Some? then ReplayCall(cfg, t, now, id, row)
      else
        var used := MarkUsed(t, id, now);
        match GrantedScope(requested, row.scope)
        case Err(_) => (used, ScopeRefused)
        case Ok(scope) =>
          if HasChild(used, id) then (used, DuplicateChild)
          else (used[newId := ChildRow(id, row, newPlain, scope,
                                       ClampExpiry(now, cfg.slidingMs, row.absoluteExpiresAt), now)],
                Rotated(newId))
  }

  /** The service as the source writes it: reads, updates and inserts on one table. */
  class RefreshTokenService {
    const cfg: Config
    var rows: Table

    constructor (cfg: Config)
      ensures this.cfg == cfg && rows == map[]
    {
      this.cfg := cfg;
      rows := map[];
    }

    method Create(now: Time, id: Id, plain: Plaintext, family: Family, userId: string, clientId: string,
                  tenantId: string, scope: string, sid: Option<string>)
      modifies this
      ensures rows == old(rows)[id := RootRow(cfg, now, plain, family, userId, clientId, tenantId, scope, sid)]
      ensures rows[id].tokenHash == Sha256(plain) && rows[id].familyId == family && rows[id].parentId == None
      ensures rows[id].userId == userId && rows[id].clientId == clientId && rows[id].tenantId == tenantId
      ensures rows[id].scope == scope && rows[id].sid == if sid == Some("") then None else sid
      ensures !rows[id].revoked && rows[id].usedAt == None && rows[id].createdAt == now
      ensures rows[id].absoluteExpiresAt == now + cfg.absoluteMs
      ensures rows[id].expiresAt == now + if cfg.slidingMs < cfg.absoluteMs then cfg.slidingMs else cfg.absoluteMs
    {
      var absoluteExpiresAt := now + cfg.absoluteMs;
      var expiresAt := ClampExpiry(now, cfg.slidingMs, absoluteExpiresAt);
      var record := Token(Sha256(plain), family, None, userId, clientId, tenantId, scope, OrNull(sid),
                          expiresAt, absoluteExpiresAt, now, false, None);
      rows := rows[id := record];
    }

    /** One whole call. Hashes and parents are unique in every reachable table (RefreshTokenRuns). */
    method ConsumeAndRotate(now: Time, plain: Plaintext, clientId: string, requested: Option<string>,
                            newId: Id, newPlain: Plaintext)
      returns (outcome: Outcome)
      modifies this
      ensures UniqueHashes(old(rows)) && UniqueParents(old(rows)) ==>
        (rows, outcome) == RotateCall(cfg, old(rows), now, plain, clientId, requested, newId, newPlain)
    {
      if !exists i :: i in rows && rows[i].tokenHash == Sha256(plain) {
        return Rejected;
      }
      var id :| id in rows && rows[id].tokenHash == Sha256(plain);
      var existing := rows[id];
      if existing.revoked { return Rejected; }
      if now > existing.expiresAt { return Rejected; }
      if now > existing.absoluteExpiresAt { return Rejected; }
      if existing.clientId != clientId { return Rejected; }
      if existing.usedAt.Some? {
        outcome := HandleReplay(now, id, existing);
        return;
      }
      // UPDATE ... WHERE id = :id AND used_at IS NULL
      if rows[id].usedAt.None? {
        rows := rows[id := rows[id].(usedAt := Some(now))];
      }
      var afterUpdate := rows[id];
      var granted := GrantedScope(requested, existing.scope);
      if granted.Err? { return ScopeRefused; }
      var expiresAt := ClampExpiry(now, cfg.slidingMs, existing.absoluteExpiresAt);
      var child := Token(Sha256(newPlain), existing.familyId, Some(id), existing.userId, existing.clientId,
                         existing.tenantId, granted.value, OrNull(existing.sid), expiresAt,
                         existing.absoluteExpiresAt, now, false, None);
      if exists c :: c in rows && rows[c].parentId == Some(id) {
        return DuplicateChild;
      }
      rows := rows[newId := child];
      return Rotated(newId);
    }

    method HandleReplay(now: Time, id: Id, existing: Token) returns (outcome: Outcome)
      modifies this
      ensures UniqueParents(old(rows)) ==>
        (rows, outcome) == ReplayCall(cfg, old(rows), now, id, existing)
    {
      var grace := GraceWindowSeconds(cfg);
      if grace > 0 && existing.usedAt.Some? {
        var deadline := existing.usedAt.value + grace * 1000;
        if now <= deadline {
          if exists c :: c in rows && rows[c].parentId == Some(id) {
            var child :| child in rows && rows[child].parentId == Some(id);
            return Replayed(child);
          }
        }
      }
      RevokeFamily(existing.familyId);
      return Rejected;
    }

    method RevokeFamily(family: Family)
      modifies this
      ensures rows == RevokeFamilyRows(old(rows), family)
      ensures rows.Keys == old(rows).Keys
      ensures forall i :: i in rows ==>
        rows[i] == if old(rows)[i].familyId == family then old(rows)[i].(revoked := true) else old(rows)[i]
    {
      rows := map id | id in rows :: if rows[id].familyId == family then rows[id].(revoked := true) else rows[id];
    }

    method RevokeByToken(plain: Plaintext)
      modifies this
      ensures UniqueHashes(old(rows)) ==> rows == RevokeByTokenRows(old(rows), plain)
      ensures (forall id :: id in old(rows) ==> old(rows)[id].tokenHash != Sha256(plain)) ==> rows == old(rows)
      ensures UniqueHashes(old(rows)) ==> forall id :: id in old(rows) && old(rows)[id].tokenHash == Sha256(plain) ==>
        FamilyRevoked(old(rows), rows, old(rows)[id].familyId)
    {
      if exists i :: i in rows && rows[i].tokenHash == Sha256(plain) {
        var id :| id in rows && rows[id].tokenHash == Sha256(plain);
        RevokeFamily(rows[id].familyId);
      }
    }

    method RevokeBySid(sid: string)
      modifies this
      ensures rows == RevokeSidRows(old(rows), sid)
      ensures rows.Keys == old(rows).Keys
      ensures forall i :: i in rows ==>
        rows[i] == if old(rows)[i].sid == Some(sid) then old(rows)[i].(revoked := true) else old(rows)[i]
    {
      rows := map id | id in rows :: if rows[id].sid == Some(sid) then rows[id].(revoked := true) else rows[id];
    }
  }

  // ---------------------------------------------------------------------------------------
  // Replay detection on whole calls
  // ---------------------------------------------------------------------------------------

  ghost predicate AllRevoked(t: Table, family: Family) {
    forall id :: id in t && t[id].familyId == family ==> t[id].revoked
  }

  /** Exactly the rows of the family were revoked, and nothing else changed. */
  ghost predicate FamilyRevoked(t: Table, t': Table, family: Family) {
    && t'.Keys == t.Keys
    && forall i :: i in t ==> t'[i] == if t[i].familyId == family then t[i].(revoked := true) else t[i]
  }

  lemma MarkUsedAddsNoChild(t: Table, id: Id, now: Time, parent: Id)
    requires !HasChild(t, parent)
    ensures !HasChild(MarkUsed(t, id, now), parent)
  {}

  /** A used token shown again by its own client: outside the grace window, or before any
      child exists, the whole family falls; otherwise nothing changes, at most 30 s after use. */
  lemma ReplayOfUsedToken(cfg: Config, t: Table, now: Time, id: Id, plain: Plaintext, clientId: string,
                          requested: Option<string>, newId: Id, newPlain: Plaintext)
    requires UniqueHashes(t) && id in t && t[id].tokenHash == Sha256(plain)
    requires t[id].usedAt.Some? && !Unusable(t[id], clientId, now)
    ensures var (t', outcome) := RotateCall(cfg, t, now, plain, clientId, requested, newId, newPlain);
      if InGrace(cfg, t[id], now) && HasChild(t, id) then
        && t' == t && outcome.Replayed?
        && outcome.child in t && t[outcome.child].parentId == Some(id)
        && now <= t[id].usedAt.value + 30_000
      else
        && outcome == Rejected && AllRevoked(t', t[id].familyId)
        && t'.Keys == t.Keys
        && forall i :: i in t ==> t'[i] == t[i].(revoked := t[i].revoked || t[i].familyId == t[id].familyId)
  {}

  /** A used, unexpired, unrevoked token shown again by its own client is forgiven exactly if it
      has a child, a positive window is configured, and no more than that window, cut to 30 s,
      has passed since its use. Otherwise its family is revoked. */
  lemma ReplayForgivenIff(cfg: Config, t: Table, now: Time, id: Id, plain: Plaintext, clientId: string,
                          requested: Option<string>, newId: Id, newPlain: Plaintext)
    requires UniqueHashes(t) && id in t && t[id].tokenHash == Sha256(plain) && t[id].usedAt.Some?
    requires !t[id].revoked && now <= t[id].expiresAt && now <= t[id].absoluteExpiresAt && t[id].clientId == clientId
    ensures var (t', outcome) := RotateCall(cfg, t, now, plain, clientId, requested, newId, newPlain);
      && (outcome.Replayed? <==>
           && (exists c :: c in t && t[c].parentId == Some(id))
           && cfg.graceSeconds.Some? && cfg.graceSeconds.value > 0
           && now <= t[id].usedAt.value + (if cfg.graceSeconds.value < 30 then cfg.graceSeconds.value else 30) * 1000)
      && (outcome.Replayed? ==> t' == t && outcome.child in t && t[outcome.child].parentId == Some(id))
      && (!outcome.Replayed? ==> outcome == Rejected && FamilyRevoked(t, t', t[id].familyId))
  {}

  /** A plaintext that is no token's, or is a token's that is revoked, expired or another client's,
      is rejected without any change. */
  lemma UnusableIsRejected(cfg: Config, t: Table, now: Time, plain: Plaintext, clientId: string,
                           requested: Option<string>, newId: Id, newPlain: Plaintext)
    requires forall id :: id in t && t[id].tokenHash == Sha256(plain) ==>
      t[id].revoked || now > t[id].expiresAt || now > t[id].absoluteExpiresAt || t[id].clientId != clientId
    ensures RotateCall(cfg, t, now, plain, clientId, requested, newId, newPlain) == (t, Rejected)
  {}

  /** The request names no scope, or none beyond the record. */
  ghost predicate WithinRecord(requested: Option<string>, record: string) {
    requested.Some? && requested.value != "" ==> Elements(PlainWords(requested.value)) <= Elements(PlainWords(record))
  }

  /** The child of `row`: bound like it, with the requested scope or its own, and an expiry that is
      the earlier of the sliding and the absolute one. */
  ghost predicate IsChild(cfg: Config, child: Token, id: Id, row: Token, now: Time, plain: Plaintext,
                          requested: Option<string>)
  {
    && child.tokenHash == Sha256(plain) && child.parentId == Some(id) && child.familyId == row.familyId
    && child.userId == row.userId && child.clientId == row.clientId && child.tenantId == row.tenantId
    && child.sid == (if row.sid == Some("") then None else row.sid)
    && child.absoluteExpiresAt == row.absoluteExpiresAt && child.createdAt == now
    && child.expiresAt == (if now + cfg.slidingMs < row.absoluteExpiresAt then now + cfg.slidingMs else row.absoluteExpiresAt)
    && !child.revoked && child.usedAt == None
    && (if requested in [None, Some("")] then child.scope == row.scope
        else Elements(PlainWords(child.scope)) == Elements(PlainWords(requested.value)))
  }

  /** What a call with an unused, usable, childless token does: with a request within the record
      the token is used and gets a child; otherwise it is used all the same, and refused. */
  lemma UnusedIsRotatedIff(cfg: Config, t: Table, now: Time, id: Id, plain: Plaintext, clientId: string,
                           requested: Option<string>, newId: Id, newPlain: Plaintext)
    requires UniqueHashes(t) && id in t && t[id].tokenHash == Sha256(plain) && newId !in t
    requires !t[id].revoked && now <= t[id].expiresAt && now <= t[id].absoluteExpiresAt && t[id].clientId == clientId
    requires t[id].usedAt.None? && forall c :: c in t ==> t[c].parentId != Some(id)
    ensures var (t', outcome) := RotateCall(cfg, t, now, plain, clientId, requested, newId, newPlain);
      var used := t[id := t[id].(usedAt := Some(now))];
      && (outcome == Rotated(newId) <==> WithinRecord(requested, t[id].scope))
      && (outcome == Rotated(newId) ==>
           newId in t' && t' == used[newId := t'[newId]] && IsChild(cfg, t'[newId], id, t[id], now, newPlain, requested))
      && (outcome != Rotated(newId) ==> outcome == ScopeRefused && t' == used)
  {
    LiveCall(cfg, t, now, id, plain, requested, newId, newPlain);
    if requested.Some? { ValidateScopeSubsetExact(requested.value, t[id].scope); }
    hide PlainWords, RotateCall, ValidateScopeSubset;
  }

  /** Inside the window the first caller's child is still good: its own rotation succeeds. */
  lemma FirstCallersChildStaysUsable(cfg: Config, t: Table, now: Time, plain: Plaintext, clientId: string,
                                     requested: Option<string>, n1: Id, p1: Plaintext,
                                     later: Time, childPlain: Plaintext, newId: Id, newPlain: Plaintext)
    requires UniqueHashes(t) && newId !in t
    requires RotateCall(cfg, t, now, plain, clientId, requested, n1, p1).1.Replayed?
    requires var child := RotateCall(cfg, t, now, plain, clientId, requested, n1, p1).1.child;
      child in t && t[child].tokenHash == Sha256(childPlain) && t[child].usedAt.None?
      && !Unusable(t[child], clientId, later) && !HasChild(t, child)
    ensures var t' := RotateCall(cfg, t, now, plain, clientId, requested, n1, p1).0;
      RotateCall(cfg, t', later, childPlain, clientId, None, newId, newPlain).1 == Rotated(newId)
  {}

  // ---------------------------------------------------------------------------------------
  // Rotation of a live token, with and without an acceptable scope
  // ---------------------------------------------------------------------------------------

  /** A token that its own client can rotate now. */
  ghost predicate Live(t: Table, now: Time, id: Id, plain: Plaintext) {
    && id in t && t[id].tokenHash == Sha256(plain)
    && !Unusable(t[id], t[id].clientId, now)
    && t[id].usedAt.None? && !HasChild(t, id)
  }

  /** The table after rotating it to `newId` with this scope. */
  ghost function RotatedTable(cfg: Config, t: Table, now: Time, id: Id, newId: Id, newPlain: Plaintext,
                              scope: string): Table
    requires id in t
  {
    var child := ChildRow(id, t[id], newPlain, scope, ClampExpiry(now, cfg.slidingMs, t[id].absoluteExpiresAt), now);
    t[id := t[id].(usedAt := Some(now))][newId := child]
  }

  lemma LiveCall(cfg: Config, t: Table, now: Time, id: Id, plain: Plaintext, requested: Option<string>,
                 newId: Id, newPlain: Plaintext)
    requires UniqueHashes(t) && Live(t, now, id, plain)
    ensures RotateCall(cfg, t, now, plain, t[id].clientId, requested, newId, newPlain)
      == match GrantedScope(requested, t[id].scope)
         case Ok(scope) => (RotatedTable(cfg, t, now, id, newId, newPlain, scope), Rotated(newId))
         case Err(_) => (t[id := t[id].(usedAt := Some(now))], ScopeRefused)
  {
    assert FindByHash(t, Sha256(plain)) == Some(id);
    MarkUsedAddsNoChild(t, id, now, id);
  }

  /** A live token is refused its scope exactly if the request names one beyond the record. It is
      consumed all the same, and has no child. */
  lemma RefusedScopeConsumes(cfg: Config, t: Table, now: Time, id: Id, plain: Plaintext, requested: Option<string>,
                             newId: Id, newPlain: Plaintext)
    requires UniqueHashes(t) && Live(t, now, id, plain)
    ensures var (t', outcome) := RotateCall(cfg, t, now, plain, t[id].clientId, requested, newId, newPlain);
      && (outcome == ScopeRefused <==>
            Truthy(requested) && !(Elements(PlainWords(requested.value)) <= Elements(PlainWords(t[id].scope))))
      && (outcome == ScopeRefused ==> t' == t[id := t[id].(usedAt := Some(now))] && !HasChild(t', id))
      && (outcome != ScopeRefused ==> outcome == Rotated(newId) && newId in t' && t'[newId].parentId == Some(id))
  {
    LiveCall(cfg, t, now, id, plain, requested, newId, newPlain);
    if Truthy(requested) { ValidateScopeSubsetExact(requested.value, t[id].scope); }
    MarkUsedAddsNoChild(t, id, now, id);
  }

  /** So one request for too much costs its client the family: the next time the token is shown,
      with whatever scope, at whatever time before it expires, the whole family is revoked. */
  lemma RefusedScopeDoomsFamily(cfg: Config, t: Table, now: Time, id: Id, plain: Plaintext, requested: Option<string>,
                                n1: Id, p1: Plaintext, later: Time, again: Option<string>, n2: Id, p2: Plaintext)
    requires UniqueHashes(t) && Live(t, now, id, plain)
    requires RotateCall(cfg, t, now, plain, t[id].clientId, requested, n1, p1).1 == ScopeRefused
    requires !Unusable(t[id], t[id].clientId, later)
    ensures var t1 := RotateCall(cfg, t, now, plain, t[id].clientId, requested, n1, p1).0;
      var (t2, outcome) := RotateCall(cfg, t1, later, plain, t[id].clientId, again, n2, p2);
      outcome == Rejected && AllRevoked(t2, t[id].familyId)
  {
    RefusedScopeConsumes(cfg, t, now, id, plain, requested, n1, p1);
    var t1 := RotateCall(cfg, t, now, plain, t[id].clientId, requested, n1, p1).0;
    ReplayOfUsedToken(cfg, t1, later, id, plain, t[id].clientId, again, n2, p2);
  }
}
