/**
 The signing-key table of all tenants: rotation, trimming to a maximum, retirement after an
 overlap window, and its two readers, key lookup and the published key set (RFC 7517, section 5).

 A kid is a digest prefix of tenant and version, taken as injective. Key pairs are numbers.
 */
module SigningKeys {
  import opened Wrappers

  type Id = nat
  type Tenant = string
  type Time = int

  datatype Kid = Kid(tenant: Tenant, version: int)

  datatype Key = Key(
    tenantId: Tenant,
    keyVersion: int,
    kid: Kid,
    publicKey: nat,
    isCurrent: bool,
    supersededAt: Option<Time>,
    deactivatedAt: Option<Time>)

  type Table = map<Id, Key>

  datatype Jwk = Jwk(kid: Kid, publicKey: nat)

  datatype Error = NotFound

  // ---------------------------------------------------------------------------------------
  // Queries
  // ---------------------------------------------------------------------------------------

  function KeysOf(t: Table, tenant: Tenant): set<Id> {
    set k | k in t && t[k].tenantId == tenant
  }

  function CurrentKeys(t: Table, tenant: Tenant): set<Id> {
    set k | k in t && t[k].tenantId == tenant && t[k].isCurrent
  }

  function ActiveKeys(t: Table, tenant: Tenant): set<Id> {
    set k | k in t && t[k].tenantId == tenant && t[k].deactivatedAt.None?
  }

  /** Keys of the same tenant with a higher version. */
  function NewerKeys(t: Table, id: Id): set<Id>
    requires id in t
  {
    set k | k in t && t[k].tenantId == t[id].tenantId && t[k].keyVersion > t[id].keyVersion
  }

  function NewerActive(t: Table, id: Id): set<Id>
    requires id in t
  {
    set k | k in t && t[k].tenantId == t[id].tenantId && t[k].keyVersion > t[id].keyVersion
            && t[k].deactivatedAt.None?
  }

  /** ORDER BY key_version ASC */
  predicate Ascending(t: Table, list: seq<Id>) {
    && (forall k :: k in list ==> k in t)
    && (forall i, j :: 0 <= i < j < |list| ==> t[list[i]].keyVersion < t[list[j]].keyVersion)
  }

  /** `list` is the answer of a find over the active keys of a tenant in version order. */
  ghost predicate ActiveListing(t: Table, tenant: Tenant, list: seq<Id>) {
    && Ascending(t, list)
    && (forall k :: k in list <==> k in ActiveKeys(t, tenant))
  }

  ghost predicate DistinctVersions(t: Table) {
    forall a, b | a in t && b in t :: t[a].tenantId == t[b].tenantId && t[a].keyVersion == t[b].keyVersion ==> a == b
  }

  ghost predicate KidsOk(t: Table) {
    forall k :: k in t ==> t[k].kid == Kid(t[k].tenantId, t[k].keyVersion)
  }

  ghost predicate Found(t: Table, kid: Kid, tenant: Tenant) {
    exists k :: k in t && t[k].kid == kid && t[k].tenantId == tenant && t[k].deactivatedAt.None?
  }

  /** Exactly the keys chosen are deactivated, and nothing else changes. */
  ghost predicate Deactivates(t: Table, t': Table, now: Time, chosen: Id --> bool)
    requires forall k :: k in t ==> chosen.requires(k)
  {
    && t'.Keys == t.Keys
    && (forall k :: k in t && chosen(k) ==> t'[k] == t[k].(deactivatedAt := Some(now)))
    && (forall k :: k in t && !chosen(k) ==> t'[k] == t[k])
  }

  /** Looking up this kid can only answer with this public key. */
  ghost predicate Answers(t: Table, kid: Kid, tenant: Tenant, publicKey: nat) {
    Found(t, kid, tenant)
    && forall k :: k in t && t[k].kid == kid && t[k].tenantId == tenant && t[k].deactivatedAt.None? ==> t[k].publicKey == publicKey
  }

  // ---------------------------------------------------------------------------------------
  // Statements
  // ---------------------------------------------------------------------------------------

  /** UPDATE ... SET is_current = false, superseded_at WHERE tenant_id AND is_current */
  function Supersede(t: Table, tenant: Tenant, now: Time): Table {
    map k | k in t ::
      if t[k].tenantId == tenant && t[k].isCurrent
      then t[k].(isCurrent := false, supersededAt := Some(now)) else t[k]
  }

  function NewKey(tenant: Tenant, version: int, publicKey: nat): Key {
    Key(tenant, version, Kid(tenant, version), publicKey, true, None, None)
  }

  function Deactivate(t: Table, id: Id, now: Time): Table {
    if id in t then t[id := t[id].(deactivatedAt := Some(now))] else t
  }

  /** The kid column is UNIQUE. */
  ghost predicate KidTaken(t: Table, kid: Kid) {
    exists k :: k in t && t[k].kid == kid
  }

  ghost predicate IsMaxVersion(t: Table, tenant: Tenant, version: int) {
    && (forall k :: k in KeysOf(t, tenant) ==> t[k].keyVersion <= version)
    && (if KeysOf(t, tenant) == {} then version == 0
        else exists k :: k in KeysOf(t, tenant) && t[k].keyVersion == version)
  }

  /** The part of a listing beyond the maximum: `slice(0, length - maxKeys)`. */
  function Excess(list: seq<Id>, maxKeys: int): (r: seq<Id>)
    ensures |r| == if |list| <= maxKeys then 0 else if maxKeys >= 0 then |list| - maxKeys else |list|
    ensures r <= list
  {
    if |list| > maxKeys then
      if maxKeys >= 0 then list[..|list| - maxKeys] else list
    else []
  }

  /** The effect of a whole trim: a key goes iff at least `maxKeys` active keys are newer. */
  function Trimmed(t: Table, tenant: Tenant, maxKeys: int, now: Time): Table {
    map k | k in t ::
      if k in ActiveKeys(t, tenant) && |NewerActive(t, k)| >= maxKeys
      then t[k].(deactivatedAt := Some(now)) else t[k]
  }

  predicate Expired(key: Key, ttlSeconds: int, now: Time) {
    key.supersededAt.Some? && key.supersededAt.value + ttlSeconds * 1000 < now
  }

  /** The effect of a whole cron run. */
  function Retired(t: Table, ttlSeconds: int, now: Time): Table {
    map k | k in t ::
      if !t[k].isCurrent && t[k].deactivatedAt.None? && Expired(t[k], ttlSeconds, now)
      then t[k].(deactivatedAt := Some(now)) else t[k]
  }

  // ---------------------------------------------------------------------------------------
  // Listings and counting
  // ---------------------------------------------------------------------------------------

  function Ids(list: seq<Id>): set<Id> {
    set k | k in list
  }

  lemma {:induction false} ListingCardinality(list: seq<Id>)
    requires forall i, j :: 0 <= i < j < |list| ==> list[i] != list[j]
    ensures |Ids(list)| == |list|
  {
    if list != [] {
      var init, last := list[..|list| - 1], list[|list| - 1];
      ListingCardinality(init);
      assert list == init + [last] && last !in Ids(init);
      assert Ids(list) == Ids(init) + {last};
    }
  }

  lemma SubsetCardinality<T>(a: set<T>, b: set<T>)
    requires a <= b
    ensures |a| <= |b|
  {
    assert |b| == |a| + |b - a| by { assert b == a + (b - a); }
  }

  lemma AscendingDistinct(t: Table, list: seq<Id>)
    requires Ascending(t, list)
    ensures forall i, j :: 0 <= i < j < |list| ==> list[i] != list[j]
  {}

  /** In a version-ordered listing, what follows an entry is exactly its newer active keys. */
  lemma NewerInListing(t: Table, tenant: Tenant, list: seq<Id>, i: nat)
    requires ActiveListing(t, tenant, list) && i < |list|
    ensures |NewerActive(t, list[i])| == |list| - 1 - i
  {
    var rest := list[i + 1..];
    AscendingDistinct(t, list);
    ListingCardinality(rest);
    assert list[i] in ActiveKeys(t, tenant);
    forall k | k in NewerActive(t, list[i]) ensures k in Ids(rest) {
      assert k in ActiveKeys(t, tenant);
      var j :| 0 <= j < |list| && list[j] == k;
      assert rest[j - i - 1] == k;
    }
    forall k | k in Ids(rest) ensures k in NewerActive(t, list[i]) {
      var j :| 0 <= j < |rest| && rest[j] == k;
      assert list[i + 1 + j] == k;
      assert k in ActiveKeys(t, tenant);
    }
    assert NewerActive(t, list[i]) == Ids(rest);
  }

  /** The excess of a listing is the set of keys with at least `maxKeys` newer active keys. */
  lemma ExcessMeaning(t: Table, tenant: Tenant, list: seq<Id>, maxKeys: int)
    requires ActiveListing(t, tenant, list)
    ensures forall k :: k in Excess(list, maxKeys) <==>
      k in t && k in ActiveKeys(t, tenant) && |NewerActive(t, k)| >= maxKeys
  {
    var excess := Excess(list, maxKeys);
    forall k | k in excess ensures k in ActiveKeys(t, tenant) && |NewerActive(t, k)| >= maxKeys {
      var i :| 0 <= i < |excess| && excess[i] == k;
      NewerInListing(t, tenant, list, i);
    }
    forall k | k in t && k in ActiveKeys(t, tenant) && |NewerActive(t, k)| >= maxKeys ensures k in excess {
      assert k in list;
      var i :| 0 <= i < |list| && list[i] == k;
      NewerInListing(t, tenant, list, i);
      assert excess[i] == k;
    }
  }

  /** After a trim at most `maxKeys` keys of the listing are left. */
  lemma ListingAfterExcess(t: Table, tenant: Tenant, list: seq<Id>, maxKeys: nat)
    requires ActiveListing(t, tenant, list)
    ensures |ActiveKeys(t, tenant) - Ids(Excess(list, maxKeys))| <= maxKeys
  {
    var excess := Excess(list, maxKeys);
    var kept := list[|excess|..];
    AscendingDistinct(t, list);
    ListingCardinality(kept);
    assert list == excess + kept;
    assert forall k :: k in ActiveKeys(t, tenant) ==> k in excess || k in kept;
    SubsetCardinality(ActiveKeys(t, tenant) - Ids(excess), Ids(kept));
  }

  /** A non-empty set of ids has a member of least version. */
  lemma LeastVersion(t: Table, ids: set<Id>) returns (m: Id)
    requires ids != {} && forall k :: k in ids ==> k in t
    ensures m in ids && forall k :: k in ids ==> t[m].keyVersion <= t[k].keyVersion
    decreases |ids|
  {
    m :| m in ids;
    if ids != {m} {
      var rest := ids - {m};
      assert rest != {};
      var least := LeastVersion(t, rest);
      if t[least].keyVersion < t[m].keyVersion { m := least; }
    }
  }

  // ---------------------------------------------------------------------------------------
  // The service and its readers
  // ---------------------------------------------------------------------------------------

  class KeyManagementService {
    const maxKeys: int
    const ttlSeconds: int
    var keys: Table

    constructor (maxKeys: int, ttlSeconds: int)
      ensures this.maxKeys == maxKeys && this.ttlSeconds == ttlSeconds && keys == map[]
    {
      this.maxKeys, this.ttlSeconds, keys := maxKeys, ttlSeconds, map[];
    }

    method CreateInitialKey(id: Id, tenant: Tenant, publicKey: nat)
      modifies this
      ensures keys == old(keys)[id := NewKey(tenant, 1, publicKey)]
      ensures keys[id].tenantId == tenant && keys[id].keyVersion == 1 && keys[id].kid == Kid(tenant, 1)
      ensures keys[id].publicKey == publicKey && keys[id].isCurrent
      ensures keys[id].supersededAt == None && keys[id].deactivatedAt == None
      ensures (forall k :: k in old(keys) && k != id ==> old(keys)[k].kid != Kid(tenant, 1)) ==>
        Answers(keys, Kid(tenant, 1), tenant, publicKey)
    {
      keys := keys[id := Key(tenant, 1, Kid(tenant, 1), publicKey, true, None, None)];
    }

    method GetCurrentSigningKey(tenant: Tenant) returns (r: Result<Kid, Error>)
      ensures r.Err? <==> CurrentKeys(keys, tenant) == {}
      ensures r.Ok? ==> exists k :: k in CurrentKeys(keys, tenant) && keys[k].kid == r.value
    {
      if exists k :: k in keys && keys[k].tenantId == tenant && keys[k].isCurrent {
        var k :| k in keys && keys[k].tenantId == tenant && keys[k].isCurrent;
        assert k in CurrentKeys(keys, tenant);
        return Ok(keys[k].kid);
      }
      return Err(NotFound);
    }

    method GetPublicKeyByKid(kid: Kid, tenant: Tenant) returns (r: Result<nat, Error>)
      ensures r.Ok? <==> Found(keys, kid, tenant)
      ensures r.Ok? ==> exists k :: k in ActiveKeys(keys, tenant) && keys[k].kid == kid && keys[k].publicKey == r.value
      ensures forall pk: nat :: Answers(keys, kid, tenant, pk) ==> r == Ok(pk)
    {
      if exists k :: k in keys && keys[k].kid == kid && keys[k].tenantId == tenant && keys[k].deactivatedAt.None? {
        var k :| k in keys && keys[k].kid == kid && keys[k].tenantId == tenant && keys[k].deactivatedAt.None?;
        assert k in ActiveKeys(keys, tenant);
        return Ok(keys[k].publicKey);
      }
      return Err(NotFound);
    }

    /** find({where: {tenantId, deactivatedAt: IsNull()}, order: {keyVersion: 'ASC'}}) */
    method ListActive(tenant: Tenant) returns (list: seq<Id>)
      requires DistinctVersions(keys)
      ensures ActiveListing(keys, tenant, list)
    {
      var rest := ActiveKeys(keys, tenant);
      list := [];
      while rest != {}
        invariant rest <= ActiveKeys(keys, tenant)
        invariant forall k :: k in ActiveKeys(keys, tenant) <==> k in list || k in rest
        invariant forall k :: k in list ==> k in keys && k !in rest
        invariant Ascending(keys, list)
        invariant forall a, b :: a in list && b in rest ==> keys[a].keyVersion < keys[b].keyVersion
        decreases rest
      {
        ghost var least := LeastVersion(keys, rest);
        var m :| m in rest && forall k :: k in rest ==> keys[m].keyVersion <= keys[k].keyVersion;
        list := list + [m];
        rest := rest - {m};
      }
    }

    method EnforceMaxKeys(tenant: Tenant, now: Time)
      requires DistinctVersions(keys)
      modifies this
      ensures keys == Trimmed(old(keys), tenant, maxKeys, now)
      ensures Deactivates(old(keys), keys, now, (k: Id) requires k in old(keys) =>
        old(keys)[k].tenantId == tenant && old(keys)[k].deactivatedAt == None && |NewerActive(old(keys), k)| >= maxKeys)
    {
      var activeKeys := ListActive(tenant);
      ExcessMeaning(keys, tenant, activeKeys, maxKeys);
      if |activeKeys| > maxKeys {
        DeactivateEach(Excess(activeKeys, maxKeys), now);
      }
    }

    method DeactivateEach(doomed: seq<Id>, now: Time)
      requires forall k :: k in doomed ==> k in keys
      modifies this
      ensures keys == map k | k in old(keys) ::
        if k in doomed then old(keys)[k].(deactivatedAt := Some(now)) else old(keys)[k]
    {
      for i := 0 to |doomed|
        invariant keys.Keys == old(keys).Keys
        invariant forall k :: k in keys ==>
          keys[k] == if k in doomed[..i] then old(keys)[k].(deactivatedAt := Some(now)) else old(keys)[k]
      {
        keys := keys[doomed[i] := keys[doomed[i]].(deactivatedAt := Some(now))];
      }
      assert doomed[..|doomed|] == doomed;
    }

    /** One whole rotation; the clock is read once on entry and once while trimming. */
    method RotateKey(tenant: Tenant, now: Time, id: Id, publicKey: nat, later: Time) returns (r: Result<Id, Error>)
      requires DistinctVersions(keys) && id !in keys
      modifies this
      ensures CurrentKeys(old(keys), tenant) == {} ==> r == Err(NotFound) && keys == old(keys)
      ensures CurrentKeys(old(keys), tenant) != {} ==>
        && r == Ok(id)
        && exists v :: IsMaxVersion(old(keys), tenant, v)
                       && keys == Trimmed(Supersede(old(keys), tenant, now)[id := NewKey(tenant, v + 1, publicKey)],
                                          tenant, maxKeys, later)
      ensures r.Ok? ==> Rotated(old(keys), keys, tenant, now, id, publicKey, maxKeys, later)
      ensures r.Ok? && maxKeys >= 1 && KidsOk(old(keys)) ==>
        Answers(keys, keys[id].kid, tenant, publicKey)
    {
      hide Rotated, SupersededRow, Answers, Trimmed, NewerActive, Deactivates, Supersede, IsMaxVersion,
        DistinctVersions, KidsOk;
      if !exists k :: k in keys && keys[k].tenantId == tenant && keys[k].isCurrent {
        return Err(NotFound);
      }
      ghost var current :| current in keys && keys[current].tenantId == tenant && keys[current].isCurrent;
      assert current in CurrentKeys(keys, tenant);
      keys := Supersede(keys, tenant, now);
      SupersedeKeepsVersions(old(keys), tenant, now);
      var version := HighestVersion(tenant);
      keys := keys[id := Key(tenant, version + 1, Kid(tenant, version + 1), publicKey, true, None, None)];
      assert keys == Supersede(old(keys), tenant, now)[id := NewKey(tenant, version + 1, publicKey)];
      ghost var inserted := keys;
      NextVersionIsNew(Supersede(old(keys), tenant, now), tenant, id, version, publicKey);
      EnforceMaxKeys(tenant, later);
      RotationMeaning(old(keys), inserted, tenant, now, id, version, publicKey, maxKeys, later);
      if maxKeys >= 1 && KidsOk(old(keys)) {
        NewKeyAnswers(old(keys), keys, tenant, now, id, publicKey, maxKeys, later);
      }
      return Ok(id);
    }

    method HighestVersion(tenant: Tenant) returns (version: int)
      ensures IsMaxVersion(keys, tenant, version)
    {
      var rest := KeysOf(keys, tenant);
      if rest == {} { return 0; }
      var first :| first in rest;
      version := keys[first].keyVersion;
      while rest != {}
        invariant rest <= KeysOf(keys, tenant)
        invariant exists k :: k in KeysOf(keys, tenant) && keys[k].keyVersion == version
        invariant forall k :: k in KeysOf(keys, tenant) && k !in rest ==> keys[k].keyVersion <= version
        decreases rest
      {
        var k :| k in rest;
        if keys[k].keyVersion > version { version := keys[k].keyVersion; }
        rest := rest - {k};
      }
    }

    /** The cron job: superseded keys past the overlap window, over all tenants. */
    method DeactivateExpiredKeys(now: Time)
      modifies this
      ensures keys == Retired(old(keys), ttlSeconds, now)
      ensures Deactivates(old(keys), keys, now, (k: Id) requires k in old(keys) =>
        !old(keys)[k].isCurrent && old(keys)[k].deactivatedAt == None
        && old(keys)[k].supersededAt.Some? && old(keys)[k].supersededAt.value + ttlSeconds * 1000 < now)
    {
      var candidates := set k | k in keys && !keys[k].isCurrent && keys[k].supersededAt.Some? && keys[k].deactivatedAt.None?;
      var rest := candidates;
      while rest != {}
        invariant rest <= candidates && keys.Keys == old(keys).Keys
        invariant forall k :: k in keys ==>
          keys[k] == if k in candidates - rest && Expired(old(keys)[k], ttlSeconds, now)
                     then old(keys)[k].(deactivatedAt := Some(now)) else old(keys)[k]
        decreases rest
      {
        var k :| k in rest;
        if keys[k].supersededAt.value + ttlSeconds * 1000 < now {
          keys := keys[k := keys[k].(deactivatedAt := Some(now))];
        }
        rest := rest - {k};
      }
    }

    /** The published key set lists exactly the kids that lookup accepts, in strictly
        increasing version order, each with the public key of its row. */
    method GetJwks(tenant: Tenant) returns (jwks: seq<Jwk>)
      requires DistinctVersions(keys) && KidsOk(keys)
      ensures forall kid :: Found(keys, kid, tenant) <==> exists j :: j in jwks && j.kid == kid
      ensures forall j :: j in jwks ==> Answers(keys, j.kid, tenant, j.publicKey)
      ensures forall i, j :: 0 <= i < j < |jwks| ==> jwks[i].kid.version < jwks[j].kid.version
    {
      var list := ListActive(tenant);
      jwks := [];
      for i := 0 to |list|
        invariant |jwks| == i
        invariant forall j :: 0 <= j < i ==> jwks[j] == Jwk(keys[list[j]].kid, keys[list[j]].publicKey)
      {
        jwks := jwks + [Jwk(keys[list[i]].kid, keys[list[i]].publicKey)];
      }
      forall kid | Found(keys, kid, tenant) ensures exists j :: j in jwks && j.kid == kid {
        var k :| k in keys && keys[k].kid == kid && keys[k].tenantId == tenant && keys[k].deactivatedAt.None?;
        assert k in ActiveKeys(keys, tenant);
        var j :| 0 <= j < |list| && list[j] == k;
        assert jwks[j].kid == kid;
      }
      forall j | j in jwks ensures Answers(keys, j.kid, tenant, j.publicKey) {
        var i :| 0 <= i < |jwks| && jwks[i] == j;
        assert list[i] in ActiveKeys(keys, tenant);
      }
    }
  }

  /** The new key is the next version, current, with this public key; the one that was current is
      superseded now; of the active keys exactly those with at least the maximum of newer active
      ones, the new one included, are deactivated; nothing else changes. */
  ghost predicate Rotated(t: Table, t': Table, tenant: Tenant, now: Time, id: Id, publicKey: nat, maxKeys: int, later: Time) {
    && id !in t && t'.Keys == t.Keys + {id}
    && t'[id].tenantId == tenant && t'[id].publicKey == publicKey && t'[id].isCurrent && t'[id].supersededAt == None
    && t'[id].kid == Kid(tenant, t'[id].keyVersion) && IsMaxVersion(t, tenant, t'[id].keyVersion - 1)
    && (t'[id].deactivatedAt == if maxKeys <= 0 then Some(later) else None)
    && (forall k :: k in t ==> SupersededRow(t, t', tenant, now, maxKeys, later, k))
  }

  ghost predicate SupersededRow(t: Table, t': Table, tenant: Tenant, now: Time, maxKeys: int, later: Time, k: Id)
    requires k in t && k in t'
  {
    && t'[k].(isCurrent := t[k].isCurrent, supersededAt := t[k].supersededAt, deactivatedAt := t[k].deactivatedAt) == t[k]
    && t'[k].isCurrent == (t[k].isCurrent && t[k].tenantId != tenant)
    && t'[k].supersededAt == (if t[k].isCurrent && t[k].tenantId == tenant then Some(now) else t[k].supersededAt)
    && t'[k].deactivatedAt ==
       (if t[k].tenantId == tenant && t[k].deactivatedAt == None && |NewerActive(t, k)| + 1 >= maxKeys then Some(later)
        else t[k].deactivatedAt)
  }

  lemma RotationMeaning(t: Table, t2: Table, tenant: Tenant, now: Time, id: Id, version: int, publicKey: nat,
                        maxKeys: int, later: Time)
    requires id !in t && IsMaxVersion(t, tenant, version)
    requires t2 == Supersede(t, tenant, now)[id := Key(tenant, version + 1, Kid(tenant, version + 1), publicKey,
        true, None, None)]
    ensures Rotated(t, Trimmed(t2, tenant, maxKeys, later), tenant, now, id, publicKey, maxKeys, later)
  {
    NoneNewer(t, t2, tenant, id, version);
    assert id in ActiveKeys(t2, tenant);
    hide NewerActive, IsMaxVersion, Trimmed;
    TrimmedRow(t2, tenant, maxKeys, later, id);
    forall k | k in t
      ensures SupersededRow(t, Trimmed(t2, tenant, maxKeys, later), tenant, now, maxKeys, later, k)
    {
      assert t2[k] == Supersede(t, tenant, now)[k];
      if t[k].tenantId == tenant { NewerByOne(t, t2, tenant, id, version, k); }
      TrimmedRow(t2, tenant, maxKeys, later, k);
    }
  }

  lemma SupersedeKeepsVersions(t: Table, tenant: Tenant, now: Time)
    ensures var t' := Supersede(t, tenant, now);
      && t'.Keys == t.Keys && KeysOf(t', tenant) == KeysOf(t, tenant)
      && (forall v :: IsMaxVersion(t', tenant, v) <==> IsMaxVersion(t, tenant, v))
      && (DistinctVersions(t) ==> DistinctVersions(t'))
  {
    var t' := Supersede(t, tenant, now);
    assert KeysOf(t', tenant) == KeysOf(t, tenant);
    forall v ensures IsMaxVersion(t', tenant, v) <==> IsMaxVersion(t, tenant, v) {
      if k :| k in KeysOf(t, tenant) && t[k].keyVersion == v { assert k in KeysOf(t', tenant) && t'[k].keyVersion == v; }
      if k :| k in KeysOf(t', tenant) && t'[k].keyVersion == v { assert k in KeysOf(t, tenant) && t[k].keyVersion == v; }
    }
  }

  lemma NextVersionIsNew(t: Table, tenant: Tenant, id: Id, version: int, publicKey: nat)
    requires DistinctVersions(t) && IsMaxVersion(t, tenant, version) && id !in t
    ensures DistinctVersions(t[id := NewKey(tenant, version + 1, publicKey)])
  {
    forall k | k in t && t[k].tenantId == tenant ensures t[k].keyVersion <= version { assert k in KeysOf(t, tenant); }
  }

  lemma TrimmedRow(t: Table, tenant: Tenant, maxKeys: int, now: Time, k: Id)
    requires k in t
    ensures var t' := Trimmed(t, tenant, maxKeys, now);
      && t'.Keys == t.Keys
      && t'[k] == t[k].(deactivatedAt :=
           if t[k].tenantId == tenant && t[k].deactivatedAt == None && |NewerActive(t, k)| >= maxKeys then Some(now)
           else t[k].deactivatedAt)
  {}

  /** The lookup of the new key's kid answers with its public key. */
  lemma NewKeyAnswers(t: Table, t': Table, tenant: Tenant, now: Time, id: Id, publicKey: nat, maxKeys: int, later: Time)
    requires Rotated(t, t', tenant, now, id, publicKey, maxKeys, later) && maxKeys >= 1
    requires KidsOk(t)
    ensures Answers(t', t'[id].kid, tenant, publicKey)
  {
    hide NewerActive;
    var version := t'[id].keyVersion - 1;
    forall k | k in t && t[k].tenantId == tenant ensures t'[k].kid != Kid(tenant, version + 1) {
      assert k in KeysOf(t, tenant) && t[k].keyVersion <= version;
      assert SupersededRow(t, t', tenant, now, maxKeys, later, k);
    }
  }

  lemma NoneNewer(t: Table, t2: Table, tenant: Tenant, id: Id, version: int)
    requires id !in t && IsMaxVersion(t, tenant, version) && t2.Keys == t.Keys + {id}
    requires t2[id].tenantId == tenant && t2[id].keyVersion == version + 1
    requires forall k :: k in t ==> t2[k].tenantId == t[k].tenantId && t2[k].keyVersion == t[k].keyVersion
    ensures NewerActive(t2, id) == {}
  {
    forall j | j in t2 && t2[j].tenantId == tenant ensures t2[j].keyVersion <= version + 1 {
      if j != id { assert j in KeysOf(t, tenant); }
    }
  }

  lemma NewerByOne(t: Table, t2: Table, tenant: Tenant, id: Id, version: int, k: Id)
    requires id !in t && IsMaxVersion(t, tenant, version) && t2.Keys == t.Keys + {id} && k in t && t[k].tenantId == tenant
    requires t2[id].tenantId == tenant && t2[id].keyVersion == version + 1 && t2[id].deactivatedAt == None
    requires forall j :: j in t ==>
      t2[j].tenantId == t[j].tenantId && t2[j].keyVersion == t[j].keyVersion && t2[j].deactivatedAt == t[j].deactivatedAt
    ensures |NewerActive(t2, k)| == |NewerActive(t, k)| + 1
  {
    assert k in KeysOf(t, tenant);
    assert NewerActive(t2, k) == NewerActive(t, k) + {id};
  }
}
