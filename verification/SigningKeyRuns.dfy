/**
 Rotations and cron runs of all tenants, interleaved statement by statement.

 A rotation is the compare-and-swap UPDATE, the version read, the INSERT, the listing and one
 UPDATE per excess key; a cron run is a listing, a clock read and one UPDATE per expired key.
 Lists fetched from the table may be stale by the time they are used.
 */
module SigningKeyRuns {
  import opened Wrappers
  import opened SigningKeys

  datatype Config = Config(maxKeys: int, ttlSeconds: int)

  /** A row the cron job fetched, with the timestamp it saw. */
  datatype Candidate = Candidate(id: Id, supersededAt: Time)

  datatype Process =
    | Rotating(tenant: Tenant, now: Time)
    | Reading(tenant: Tenant)
    | Inserting(tenant: Tenant, version: int)
    | Listing(tenant: Tenant)
    | Trimming(tenant: Tenant, pending: seq<Id>)
    | Swept(candidates: seq<Candidate>)
    | Retiring(now: Time, candidates: seq<Candidate>)
    | Done

  datatype State = State(keys: Table, procs: map<nat, Process>, clock: Time)

  datatype Step =
    | Tick(ms: nat)
    | CreateInitial(id: Id, tenant: Tenant, publicKey: nat)
    | StartRotate(p: nat, tenant: Tenant)
    | Swap(p: nat)
    | ReadVersion(p: nat, version: int)
    | InsertKey(p: nat, id: Id, publicKey: nat)
    | ListActive(p: nat, list: seq<Id>)
    | TrimOne(p: nat)
    | Sweep(p: nat, candidates: seq<Candidate>)
    | ReadClock(p: nat)
    | RetireOne(p: nat)

  function Goto(s: State, p: nat, q: Process): State {
    s.(procs := s.procs[p := q])
  }

  ghost predicate SweepAnswer(t: Table, list: seq<Candidate>) {
    && (forall c :: c in list ==> c.id in t && !t[c.id].isCurrent && t[c.id].deactivatedAt.None?
                                  && t[c.id].supersededAt == Some(c.supersededAt))
    && (forall k :: k in t && !t[k].isCurrent && t[k].deactivatedAt.None? && t[k].supersededAt.Some?
          ==> Candidate(k, t[k].supersededAt.value) in list)
  }

  ghost function DoCreate(s: State, id: Id, tenant: Tenant, publicKey: nat): State {
    if id in s.keys || KidTaken(s.keys, Kid(tenant, 1)) then s
    else s.(keys := s.keys[id := NewKey(tenant, 1, publicKey)])
  }

  ghost function DoSwap(s: State, p: nat): State {
    if p !in s.procs || !s.procs[p].Rotating? then s
    else
      var q := s.procs[p];
      if CurrentKeys(s.keys, q.tenant) == {} then Goto(s, p, Done)
      else Goto(s, p, Reading(q.tenant)).(keys := Supersede(s.keys, q.tenant, q.now))
  }

  ghost function DoReadVersion(s: State, p: nat, version: int): State {
    if p !in s.procs || !s.procs[p].Reading? || !IsMaxVersion(s.keys, s.procs[p].tenant, version) then s
    else Goto(s, p, Inserting(s.procs[p].tenant, version))
  }

  ghost function DoInsert(s: State, p: nat, id: Id, publicKey: nat): State {
    if p !in s.procs || !s.procs[p].Inserting? || id in s.keys then s
    else
      var q := s.procs[p];
      if KidTaken(s.keys, Kid(q.tenant, q.version + 1)) then Goto(s, p, Done)
      else Goto(s, p, Listing(q.tenant)).(keys := s.keys[id := NewKey(q.tenant, q.version + 1, publicKey)])
  }

  ghost function DoList(cfg: Config, s: State, p: nat, list: seq<Id>): State {
    if p !in s.procs || !s.procs[p].Listing? || !ActiveListing(s.keys, s.procs[p].tenant, list) then s
    else Goto(s, p, Trimming(s.procs[p].tenant, Excess(list, cfg.maxKeys)))
  }

  function DoTrim(s: State, p: nat): State {
    if p !in s.procs || !s.procs[p].Trimming? then s
    else
      var q := s.procs[p];
      if q.pending == [] then Goto(s, p, Done)
      else Goto(s, p, Trimming(q.tenant, q.pending[1..])).(keys := Deactivate(s.keys, q.pending[0], s.clock))
  }

  ghost function DoSweep(s: State, p: nat, list: seq<Candidate>): State {
    if p in s.procs || !SweepAnswer(s.keys, list) then s else Goto(s, p, Swept(list))
  }

  function DoRetire(cfg: Config, s: State, p: nat): State {
    if p !in s.procs || !s.procs[p].Retiring? then s
    else
      var q := s.procs[p];
      if q.candidates == [] then Goto(s, p, Done)
      else
        var c := q.candidates[0];
        var s' := Goto(s, p, Retiring(q.now, q.candidates[1..]));
        if c.supersededAt + cfg.ttlSeconds * 1000 < q.now then s'.(keys := Deactivate(s.keys, c.id, q.now)) else s'
  }

  ghost function Apply(cfg: Config, s: State, a: Step): State {
    match a
    case Tick(ms) => s.(clock := s.clock + ms)
    case CreateInitial(id, tenant, publicKey) => DoCreate(s, id, tenant, publicKey)
    case StartRotate(p, tenant) => if p in s.procs then s else Goto(s, p, Rotating(tenant, s.clock))
    case Swap(p) => DoSwap(s, p)
    case ReadVersion(p, version) => DoReadVersion(s, p, version)
    case InsertKey(p, id, publicKey) => DoInsert(s, p, id, publicKey)
    case ListActive(p, list) => DoList(cfg, s, p, list)
    case TrimOne(p) => DoTrim(s, p)
    case Sweep(p, list) => DoSweep(s, p, list)
    case ReadClock(p) =>
      if p in s.procs && s.procs[p].Swept? then Goto(s, p, Retiring(s.clock, s.procs[p].candidates)) else s
    case RetireOne(p) => DoRetire(cfg, s, p)
  }

  ghost function Run(cfg: Config, s: State, steps: seq<Step>): State
    decreases |steps|
  {
    if steps == [] then s else Run(cfg, Apply(cfg, s, steps[0]), steps[1..])
  }

  function Start(clock: Time): State {
    State(map[], map[], clock)
  }

  // ---------------------------------------------------------------------------------------
  // The invariant, in five parts
  // ---------------------------------------------------------------------------------------

  /** Rotations that won the swap and have not inserted yet. */
  function Winners(s: State, tenant: Tenant): set<nat> {
    set p | p in s.procs && (s.procs[p].Reading? || s.procs[p].Inserting?) && s.procs[p].tenant == tenant
  }

  /** Rotations that inserted and have not finished trimming. */
  function Untrimmed(s: State, tenant: Tenant): set<nat> {
    set p | p in s.procs && (s.procs[p].Listing? || s.procs[p].Trimming?) && s.procs[p].tenant == tenant
  }

  function Trimmers(s: State, tenant: Tenant): set<nat> {
    set p | p in s.procs && s.procs[p].Trimming? && s.procs[p].tenant == tenant
  }

  function PendingOf(s: State, ps: set<nat>): set<Id> {
    set p, k | p in ps && p in s.procs && s.procs[p].Trimming? && k in s.procs[p].pending :: k
  }

  /** Versions of a tenant are 1..n without gaps or repeats, and name their kids. */
  ghost predicate VersionsOk(t: Table) {
    && (forall k :: k in t ==> t[k].keyVersion >= 1 && t[k].kid == Kid(t[k].tenantId, t[k].keyVersion))
    && DistinctVersions(t)
    && Gapless(t)
  }

  ghost predicate Gapless(t: Table) {
    forall k, v {:trigger HasVersion(t, t[k].tenantId, v)} :: k in t && 1 <= v < t[k].keyVersion ==> HasVersion(t, t[k].tenantId, v)
  }

  ghost predicate HasVersion(t: Table, tenant: Tenant, version: int) {
    exists k :: k in t && t[k].tenantId == tenant && t[k].keyVersion == version
  }

  /** A current key is the newest, not superseded and not deactivated. */
  ghost predicate FlagsOk(t: Table) {
    && (forall k :: k in t ==> (t[k].isCurrent <==> t[k].supersededAt.None?))
    && (forall k :: k in t && t[k].isCurrent ==> t[k].deactivatedAt.None? && NewerKeys(t, k) == {})
  }

  /** The right to be current: one per initialised tenant, held by a key or by a winner. */
  ghost predicate TokenOk(s: State, tenant: Tenant) {
    |CurrentKeys(s.keys, tenant)| + |Winners(s, tenant)| == if KeysOf(s.keys, tenant) == {} then 0 else 1
  }

  predicate CandidateOk(t: Table, c: Candidate) {
    c.id in t && t[c.id].supersededAt == Some(c.supersededAt)
  }

  ghost predicate ProcOk(cfg: Config, s: State, q: Process) {
    match q
    case Inserting(tenant, version) => IsMaxVersion(s.keys, tenant, version)
    case Trimming(tenant, pending) =>
      forall k :: k in pending ==> k in s.keys && |NewerKeys(s.keys, k)| >= cfg.maxKeys
    case Swept(candidates) => forall c :: c in candidates ==> CandidateOk(s.keys, c)
    case Retiring(now, candidates) =>
      now <= s.clock && forall c :: c in candidates ==> CandidateOk(s.keys, c)
    case _ => true
  }

  /** Why a key may be inactive. */
  ghost predicate DeactivationOk(cfg: Config, s: State, k: Id)
    requires k in s.keys
  {
    s.keys[k].deactivatedAt.Some? ==>
      |NewerKeys(s.keys, k)| >= cfg.maxKeys || Expired(s.keys[k], cfg.ttlSeconds, s.clock)
  }

  ghost predicate BoundFor(cfg: Config, s: State, tenant: Tenant, ps: set<nat>) {
    |ActiveKeys(s.keys, tenant) - PendingOf(s, ps)| <= cfg.maxKeys + |Untrimmed(s, tenant) - ps|
  }

  /** For every set of trimming rotations: the active keys outside their pending lists are at
      most the maximum plus the other rotations still to trim. */
  ghost predicate TrimBound(cfg: Config, s: State, tenant: Tenant) {
    forall ps {:trigger BoundFor(cfg, s, tenant, ps)} :: ps <= Trimmers(s, tenant) ==> BoundFor(cfg, s, tenant, ps)
  }

  ghost predicate AllTokensOk(s: State) {
    forall tenant :: TokenOk(s, tenant)
  }

  ghost predicate AllProcsOk(cfg: Config, s: State) {
    forall p :: p in s.procs ==> ProcOk(cfg, s, s.procs[p])
  }

  ghost predicate AllDeactivationsOk(cfg: Config, s: State) {
    forall k :: k in s.keys ==> DeactivationOk(cfg, s, k)
  }

  ghost predicate AllBoundsOk(cfg: Config, s: State) {
    forall tenant :: TrimBound(cfg, s, tenant)
  }

  ghost predicate Inv(cfg: Config, s: State) {
    && VersionsOk(s.keys) && FlagsOk(s.keys) && AllTokensOk(s)
    && AllProcsOk(cfg, s) && AllDeactivationsOk(cfg, s) && AllBoundsOk(cfg, s)
  }

  // ---------------------------------------------------------------------------------------
  // The three statements on the table
  // ---------------------------------------------------------------------------------------

  /** Rows stay, keep tenant, version and kid, and a supersession time never changes. */
  ghost predicate Evolves(t: Table, t': Table) {
    forall k :: k in t ==>
      && k in t' && t'[k].tenantId == t[k].tenantId && t'[k].keyVersion == t[k].keyVersion
      && t'[k].kid == t[k].kid && (t[k].supersededAt.Some? ==> t'[k].supersededAt == t[k].supersededAt)
  }

  lemma NewerGrows(t: Table, t': Table, k: Id)
    requires Evolves(t, t') && k in t
    ensures |NewerKeys(t, k)| <= |NewerKeys(t', k)|
  {
    SubsetCardinality(NewerKeys(t, k), NewerKeys(t', k));
  }

  lemma NewerSame(t: Table, t': Table, k: Id)
    requires Evolves(t, t') && t'.Keys == t.Keys && k in t
    ensures NewerKeys(t', k) == NewerKeys(t, k)
  {}

  lemma VersionsSame(t: Table, t': Table)
    requires VersionsOk(t) && Evolves(t, t') && t'.Keys == t.Keys
    ensures VersionsOk(t')
  {
    forall k, v | k in t' && 1 <= v < t'[k].keyVersion ensures HasVersion(t', t'[k].tenantId, v) {
      assert HasVersion(t, t[k].tenantId, v);
      var k' :| k' in t && t[k'].tenantId == t[k].tenantId && t[k'].keyVersion == v;
      assert k' in t';
    }
  }

  lemma SupersedeTable(t: Table, tenant: Tenant, now: Time)
    requires VersionsOk(t) && FlagsOk(t)
    ensures var t' := Supersede(t, tenant, now);
      && VersionsOk(t') && FlagsOk(t') && Evolves(t, t') && t'.Keys == t.Keys
      && CurrentKeys(t', tenant) == {}
      && (forall x :: x != tenant ==> CurrentKeys(t', x) == CurrentKeys(t, x))
      && (forall x :: KeysOf(t', x) == KeysOf(t, x) && ActiveKeys(t', x) == ActiveKeys(t, x))
      && (forall k :: k in t ==> t'[k].deactivatedAt == t[k].deactivatedAt)
  {
    var t' := Supersede(t, tenant, now);
    VersionsSame(t, t');
    forall k | k in t' && t'[k].isCurrent ensures NewerKeys(t', k) == {} { NewerSame(t, t', k); }
  }

  lemma DeactivateTable(t: Table, id: Id, now: Time)
    requires VersionsOk(t) && FlagsOk(t) && id in t && !t[id].isCurrent
    ensures var t' := Deactivate(t, id, now);
      && VersionsOk(t') && FlagsOk(t') && Evolves(t, t') && t'.Keys == t.Keys
      && (forall x :: KeysOf(t', x) == KeysOf(t, x) && CurrentKeys(t', x) == CurrentKeys(t, x))
      && (forall x :: ActiveKeys(t', x) == ActiveKeys(t, x) - {id})
  {
    var t' := Deactivate(t, id, now);
    VersionsSame(t, t');
    forall k | k in t' && t'[k].isCurrent ensures NewerKeys(t', k) == {} { NewerSame(t, t', k); }
  }

  /** `t'` has one more row, the new current and active key of `tenant`. */
  ghost predicate Gains(t: Table, t': Table, tenant: Tenant, id: Id) {
    && VersionsOk(t') && FlagsOk(t') && Evolves(t, t')
    && id !in t && t'.Keys == t.Keys + {id} && t'[id].deactivatedAt.None?
    && (forall k :: k in t ==> t'[k] == t[k])
    && CurrentKeys(t', tenant) == {id} && KeysOf(t', tenant) == KeysOf(t, tenant) + {id}
    && ActiveKeys(t', tenant) == ActiveKeys(t, tenant) + {id}
    && (forall x :: x != tenant ==>
          CurrentKeys(t', x) == CurrentKeys(t, x) && KeysOf(t', x) == KeysOf(t, x) && ActiveKeys(t', x) == ActiveKeys(t, x))
  }

  /** The next version after the maximum, for a tenant without a current key. */
  lemma InsertTable(t: Table, id: Id, tenant: Tenant, version: int, publicKey: nat)
    requires VersionsOk(t) && FlagsOk(t) && id !in t
    requires IsMaxVersion(t, tenant, version) && CurrentKeys(t, tenant) == {}
    ensures Gains(t, t[id := NewKey(tenant, version + 1, publicKey)], tenant, id)
  {
    InsertVersions(t, id, tenant, version, publicKey);
    InsertFlags(t, id, tenant, version, publicKey);
    InsertQueries(t, id, tenant, version, publicKey);
  }

  lemma InsertFlags(t: Table, id: Id, tenant: Tenant, version: int, publicKey: nat)
    requires FlagsOk(t) && id !in t && IsMaxVersion(t, tenant, version) && CurrentKeys(t, tenant) == {}
    ensures FlagsOk(t[id := NewKey(tenant, version + 1, publicKey)])
  {
    var t' := t[id := NewKey(tenant, version + 1, publicKey)];
    forall k | k in t' && t'[k].isCurrent ensures NewerKeys(t', k) == {} {
      if k == id {
        assert forall x :: x in KeysOf(t, tenant) ==> t[x].keyVersion <= version;
        assert forall x :: x in NewerKeys(t', id) ==> x in KeysOf(t, tenant);
      } else {
        assert k !in CurrentKeys(t, tenant);
        assert NewerKeys(t', k) == NewerKeys(t, k);
      }
    }
  }

  lemma InsertQueries(t: Table, id: Id, tenant: Tenant, version: int, publicKey: nat)
    requires id !in t && CurrentKeys(t, tenant) == {}
    ensures var t' := t[id := NewKey(tenant, version + 1, publicKey)];
      && CurrentKeys(t', tenant) == {id} && KeysOf(t', tenant) == KeysOf(t, tenant) + {id}
      && ActiveKeys(t', tenant) == ActiveKeys(t, tenant) + {id}
      && (forall x :: x != tenant ==>
            CurrentKeys(t', x) == CurrentKeys(t, x) && KeysOf(t', x) == KeysOf(t, x) && ActiveKeys(t', x) == ActiveKeys(t, x))
  {}

  lemma InsertVersions(t: Table, id: Id, tenant: Tenant, version: int, publicKey: nat)
    requires VersionsOk(t) && id !in t && IsMaxVersion(t, tenant, version)
    ensures version >= 0 && VersionsOk(t[id := NewKey(tenant, version + 1, publicKey)])
    ensures !KidTaken(t, Kid(tenant, version + 1))
  {
    var t' := t[id := NewKey(tenant, version + 1, publicKey)];
    assert forall k :: k in t && t[k].tenantId == tenant ==> k in KeysOf(t, tenant);
    forall k, v | k in t' && 1 <= v < t'[k].keyVersion ensures HasVersion(t', t'[k].tenantId, v) {
      if k != id {
        assert HasVersion(t, t[k].tenantId, v);
        var k' :| k' in t && t[k'].tenantId == t[k].tenantId && t[k'].keyVersion == v;
        assert t'[k'] == t[k'];
      } else {
        var top :| top in KeysOf(t, tenant) && t[top].keyVersion == version;
        if v < version { assert HasVersion(t, t[top].tenantId, v); }
        var k' :| k' in t && t[k'].tenantId == tenant && t[k'].keyVersion == v;
        assert t'[k'] == t[k'];
      }
    }
  }

  // ---------------------------------------------------------------------------------------
  // Stability of what other processes rely on
  // ---------------------------------------------------------------------------------------

  lemma MaxStable(t: Table, t': Table, tenant: Tenant, version: int)
    requires IsMaxVersion(t, tenant, version) && Evolves(t, t') && KeysOf(t', tenant) == KeysOf(t, tenant)
    ensures IsMaxVersion(t', tenant, version)
  {}

  lemma ProcStable(cfg: Config, s: State, s': State, q: Process)
    requires ProcOk(cfg, s, q) && Evolves(s.keys, s'.keys) && s.clock <= s'.clock
    requires q.Inserting? ==> KeysOf(s'.keys, q.tenant) == KeysOf(s.keys, q.tenant)
    ensures ProcOk(cfg, s', q)
  {
    match q
    case Inserting(tenant, version) => MaxStable(s.keys, s'.keys, tenant, version);
    case Trimming(tenant, pending) =>
      forall k | k in pending ensures k in s'.keys && |NewerKeys(s'.keys, k)| >= cfg.maxKeys {
        NewerGrows(s.keys, s'.keys, k);
      }
    case _ =>
  }

  lemma DeactivationStable(cfg: Config, s: State, s': State, k: Id)
    requires k in s.keys && DeactivationOk(cfg, s, k) && Evolves(s.keys, s'.keys) && s.clock <= s'.clock
    requires s'.keys[k].deactivatedAt == s.keys[k].deactivatedAt
    ensures DeactivationOk(cfg, s', k)
  {
    NewerGrows(s.keys, s'.keys, k);
  }

  // ---------------------------------------------------------------------------------------
  // The invariant step by step
  // ---------------------------------------------------------------------------------------

  predicate Contends(q: Process) {
    q.Reading? || q.Inserting?
  }

  predicate Trims(q: Process) {
    q.Listing? || q.Trimming?
  }

  lemma ProcsStable(cfg: Config, s: State, s': State, p: nat, q: Process)
    requires AllProcsOk(cfg, s) && s'.procs == s.procs[p := q] && ProcOk(cfg, s', q)
    requires Evolves(s.keys, s'.keys) && s.clock <= s'.clock
    requires forall i :: i in s.procs && i != p && s.procs[i].Inserting? ==>
      KeysOf(s'.keys, s.procs[i].tenant) == KeysOf(s.keys, s.procs[i].tenant)
    ensures AllProcsOk(cfg, s')
  {
    forall i | i in s'.procs ensures ProcOk(cfg, s', s'.procs[i]) {
      if i != p { ProcStable(cfg, s, s', s.procs[i]); }
    }
  }

  lemma DeactivationsStable(cfg: Config, s: State, s': State)
    requires AllDeactivationsOk(cfg, s) && Evolves(s.keys, s'.keys) && s.clock <= s'.clock
    requires forall k :: k in s'.keys ==>
      (k in s.keys && s'.keys[k].deactivatedAt == s.keys[k].deactivatedAt) || DeactivationOk(cfg, s', k)
    ensures AllDeactivationsOk(cfg, s')
  {
    forall k | k in s'.keys ensures DeactivationOk(cfg, s', k) {
      if k in s.keys && s'.keys[k].deactivatedAt == s.keys[k].deactivatedAt { DeactivationStable(cfg, s, s', k); }
    }
  }

  /** No process starts or stops competing, and no key changes hands. */
  lemma TokensSame(s: State, s': State, p: nat, q: Process)
    requires AllTokensOk(s) && s'.procs == s.procs[p := q]
    requires Contends(q) <==> p in s.procs && Contends(s.procs[p])
    requires Contends(q) ==> q.tenant == s.procs[p].tenant
    requires forall x :: CurrentKeys(s'.keys, x) == CurrentKeys(s.keys, x) && KeysOf(s'.keys, x) == KeysOf(s.keys, x)
    ensures AllTokensOk(s')
  {
    forall x ensures TokenOk(s', x) {
      assert TokenOk(s, x);
      assert Winners(s', x) == Winners(s, x);
    }
  }

  lemma PendingSame(s: State, s': State, p: nat, q: Process, ps: set<nat>)
    requires s'.procs == s.procs[p := q]
    requires !q.Trimming? && (p in s.procs ==> !s.procs[p].Trimming?)
    ensures PendingOf(s', ps) == PendingOf(s, ps)
  {
    forall k | k in PendingOf(s', ps) ensures k in PendingOf(s, ps) {
      var i :| i in ps && i in s'.procs && s'.procs[i].Trimming? && k in s'.procs[i].pending;
      assert s.procs[i] == s'.procs[i];
    }
    forall k | k in PendingOf(s, ps) ensures k in PendingOf(s', ps) {
      var i :| i in ps && i in s.procs && s.procs[i].Trimming? && k in s.procs[i].pending;
      assert s'.procs[i] == s.procs[i];
    }
  }

  /** No process enters or leaves trimming; active keys can only become fewer. */
  lemma BoundsSame(cfg: Config, s: State, s': State, p: nat, q: Process)
    requires AllBoundsOk(cfg, s) && s'.procs == s.procs[p := q]
    requires !Trims(q) && (p in s.procs ==> !Trims(s.procs[p]))
    requires forall x :: ActiveKeys(s'.keys, x) <= ActiveKeys(s.keys, x)
    ensures AllBoundsOk(cfg, s')
  {
    forall x ensures TrimBound(cfg, s', x) {
      assert TrimBound(cfg, s, x);
      assert Untrimmed(s', x) == Untrimmed(s, x) && Trimmers(s', x) == Trimmers(s, x);
      forall ps | ps <= Trimmers(s, x)
        ensures ActiveKeys(s'.keys, x) - PendingOf(s', ps) <= ActiveKeys(s.keys, x) - PendingOf(s, ps)
      {
        PendingSame(s, s', p, q, ps);
      }
      SameTrimmers(cfg, s, s', x);
    }
  }

  /** The trim bound survives when no process enters or leaves trimming and no key is added. */
  lemma SameTrimmers(cfg: Config, s: State, s': State, tenant: Tenant)
    requires TrimBound(cfg, s, tenant)
    requires Untrimmed(s', tenant) == Untrimmed(s, tenant) && Trimmers(s', tenant) == Trimmers(s, tenant)
    requires forall ps :: ps <= Trimmers(s, tenant) ==>
      ActiveKeys(s'.keys, tenant) - PendingOf(s', ps) <= ActiveKeys(s.keys, tenant) - PendingOf(s, ps)
    ensures TrimBound(cfg, s', tenant)
  {
    forall ps | ps <= Trimmers(s', tenant)
      ensures BoundFor(cfg, s', tenant, ps)
    {
      assert BoundFor(cfg, s, tenant, ps);
      SubsetCardinality(ActiveKeys(s'.keys, tenant) - PendingOf(s', ps), ActiveKeys(s.keys, tenant) - PendingOf(s, ps));
    }
  }

  /** A step of one process that leaves the table alone. */
  lemma LocalStep(cfg: Config, s: State, p: nat, q: Process)
    requires Inv(cfg, s) && ProcOk(cfg, s, q)
    requires !Trims(q) && (p in s.procs ==> !Trims(s.procs[p]))
    requires Contends(q) <==> p in s.procs && Contends(s.procs[p])
    requires Contends(q) ==> q.tenant == s.procs[p].tenant
    ensures Inv(cfg, Goto(s, p, q))
  {
    var s' := Goto(s, p, q);
    ProcStable(cfg, s, s', q);
    ProcsStable(cfg, s, s', p, q);
    DeactivationsStable(cfg, s, s');
    TokensSame(s, s', p, q);
    BoundsSame(cfg, s, s', p, q);
  }

  lemma TickStep(cfg: Config, s: State, ms: nat)
    requires Inv(cfg, s)
    ensures Inv(cfg, s.(clock := s.clock + ms))
  {
    var s' := s.(clock := s.clock + ms);
    forall i | i in s.procs ensures ProcOk(cfg, s', s.procs[i]) { ProcStable(cfg, s, s', s.procs[i]); }
    DeactivationsStable(cfg, s, s');
    forall x ensures TokenOk(s', x) { assert TokenOk(s, x) && Winners(s', x) == Winners(s, x); }
    forall x ensures TrimBound(cfg, s', x) {
      assert TrimBound(cfg, s, x) && Untrimmed(s', x) == Untrimmed(s, x) && Trimmers(s', x) == Trimmers(s, x);
      assert forall ps :: PendingOf(s', ps) == PendingOf(s, ps);
      SameTrimmers(cfg, s, s', x);
    }
  }

  lemma SwapStep(cfg: Config, s: State, p: nat)
    requires Inv(cfg, s)
    ensures Inv(cfg, DoSwap(s, p))
  {
    if p !in s.procs || !s.procs[p].Rotating? { return; }
    var q := s.procs[p];
    var s' := DoSwap(s, p);
    if CurrentKeys(s.keys, q.tenant) == {} {
      LocalStep(cfg, s, p, Done);
    } else {
      SupersedeTable(s.keys, q.tenant, q.now);
      ProcsStable(cfg, s, s', p, Reading(q.tenant));
      DeactivationsStable(cfg, s, s');
      SwapTokens(s, s', p);
      BoundsSame(cfg, s, s', p, Reading(q.tenant));
    }
  }

  /** The right to be current passes from the superseded key to the winner. */
  lemma SwapTokens(s: State, s': State, p: nat)
    requires AllTokensOk(s) && p in s.procs && s.procs[p].Rotating?
    requires var tenant := s.procs[p].tenant;
      && s'.procs == s.procs[p := Reading(tenant)]
      && CurrentKeys(s.keys, tenant) != {} && CurrentKeys(s'.keys, tenant) == {}
      && forall x :: KeysOf(s'.keys, x) == KeysOf(s.keys, x) && (x != tenant ==> CurrentKeys(s'.keys, x) == CurrentKeys(s.keys, x))
    ensures AllTokensOk(s')
  {
    var tenant := s.procs[p].tenant;
    forall x ensures TokenOk(s', x) {
      assert TokenOk(s, x);
      if x == tenant {
        assert |CurrentKeys(s.keys, x)| >= 1;
        assert Winners(s, x) == {};
        assert Winners(s', x) == {p};
      } else {
        assert Winners(s', x) == Winners(s, x);
      }
    }
  }

  lemma WinnersAfterInsert(s: State, s': State, p: nat, x: Tenant)
    requires p in s.procs && s.procs[p].Inserting? && s'.procs == s.procs[p := Listing(s.procs[p].tenant)]
    ensures Winners(s', x) == Winners(s, x) - {p}
    ensures x != s.procs[p].tenant ==> Winners(s', x) == Winners(s, x)
  {}

  /** The winner inserts: the new key takes the right to be current from it. */
  lemma InsertTokens(s: State, s': State, p: nat, id: Id)
    requires AllTokensOk(s) && p in s.procs && s.procs[p].Inserting?
    requires var tenant := s.procs[p].tenant;
      && s'.procs == s.procs[p := Listing(tenant)]
      && CurrentKeys(s'.keys, tenant) == {id} && KeysOf(s'.keys, tenant) == KeysOf(s.keys, tenant) + {id}
      && forall x :: x != tenant ==>
           CurrentKeys(s'.keys, x) == CurrentKeys(s.keys, x) && KeysOf(s'.keys, x) == KeysOf(s.keys, x)
    ensures AllTokensOk(s')
  {
    var tenant := s.procs[p].tenant;
    forall x ensures TokenOk(s', x) {
      assert TokenOk(s, x);
      if x == tenant {
        OneWinner(s, p);
      }
      WinnersAfterInsert(s, s', p, x);
    }
  }

  /** While a rotation is between its swap and its insert it is alone, and no key is current. */
  lemma OneWinner(s: State, p: nat)
    requires AllTokensOk(s) && p in s.procs && Contends(s.procs[p])
    ensures Winners(s, s.procs[p].tenant) == {p} && CurrentKeys(s.keys, s.procs[p].tenant) == {}
  {
    var tenant := s.procs[p].tenant;
    assert TokenOk(s, tenant);
    assert p in Winners(s, tenant);
    assert |Winners(s, tenant) - {p}| == |Winners(s, tenant)| - 1;
    assert Winners(s, tenant) - {p} == {};
  }

  lemma InsertSets(s: State, s': State, p: nat)
    requires p in s.procs && s.procs[p].Inserting? && s'.procs == s.procs[p := Listing(s.procs[p].tenant)]
    ensures var x := s.procs[p].tenant;
      && Untrimmed(s', x) == Untrimmed(s, x) + {p} && p !in Untrimmed(s, x)
      && Trimmers(s', x) == Trimmers(s, x) && p !in Trimmers(s, x)
  {}

  lemma AddOne<T>(a: set<T>, b: set<T>, x: T)
    ensures |(a + {x}) - b| <= |a - b| + 1
    ensures x !in a && x !in b ==> |(a + {x}) - b| == |a - b| + 1
  {
    SubsetCardinality((a + {x}) - b, (a - b) + {x});
    if x !in b { assert (a + {x}) - b == (a - b) + {x}; }
  }

  /** One more active key, one more rotation still to trim. */
  lemma InsertBound(cfg: Config, s: State, s': State, p: nat, id: Id)
    requires p in s.procs && s.procs[p].Inserting? && TrimBound(cfg, s, s.procs[p].tenant)
    requires var tenant := s.procs[p].tenant;
      && s'.procs == s.procs[p := Listing(tenant)]
      && ActiveKeys(s'.keys, tenant) == ActiveKeys(s.keys, tenant) + {id}
    ensures TrimBound(cfg, s', s.procs[p].tenant)
  {
    var x := s.procs[p].tenant;
    InsertSets(s, s', p);
    forall ps | ps <= Trimmers(s', x)
      ensures BoundFor(cfg, s', x, ps)
    {
      assert BoundFor(cfg, s, x, ps);
      PendingSame(s, s', p, Listing(x), ps);
      AddOne(ActiveKeys(s.keys, x), PendingOf(s, ps), id);
      AddOne(Untrimmed(s, x), ps, p);
    }
  }

  lemma InsertBounds(cfg: Config, s: State, s': State, p: nat, id: Id)
    requires AllBoundsOk(cfg, s) && p in s.procs && s.procs[p].Inserting?
    requires var tenant := s.procs[p].tenant;
      && s'.procs == s.procs[p := Listing(tenant)]
      && ActiveKeys(s'.keys, tenant) == ActiveKeys(s.keys, tenant) + {id}
      && forall x :: x != tenant ==> ActiveKeys(s'.keys, x) == ActiveKeys(s.keys, x)
    ensures AllBoundsOk(cfg, s')
  {
    var tenant := s.procs[p].tenant;
    forall x ensures TrimBound(cfg, s', x) {
      assert TrimBound(cfg, s, x);
      if x == tenant {
        InsertBound(cfg, s, s', p, id);
      } else {
        assert Untrimmed(s', x) == Untrimmed(s, x) && Trimmers(s', x) == Trimmers(s, x);
        forall ps | ps <= Trimmers(s, x)
          ensures ActiveKeys(s'.keys, x) - PendingOf(s', ps) <= ActiveKeys(s.keys, x) - PendingOf(s, ps)
        {
          PendingSame(s, s', p, Listing(tenant), ps);
        }
        SameTrimmers(cfg, s, s', x);
      }
    }
  }

  lemma OthersDoNotInsert(cfg: Config, s: State, p: nat)
    requires AllTokensOk(s) && p in s.procs && Contends(s.procs[p])
    ensures forall i :: i in s.procs && i != p && s.procs[i].Inserting? ==> s.procs[i].tenant != s.procs[p].tenant
  {
    OneWinner(s, p);
    assert forall i :: i in s.procs && s.procs[i].Inserting? && s.procs[i].tenant == s.procs[p].tenant ==>
      i in Winners(s, s.procs[p].tenant);
  }

  /** The winner's INSERT meets no taken kid. */
  lemma WinnerInserts(s: State, p: nat, id: Id, publicKey: nat)
    requires VersionsOk(s.keys) && p in s.procs && s.procs[p].Inserting? && id !in s.keys
    requires IsMaxVersion(s.keys, s.procs[p].tenant, s.procs[p].version)
    ensures var q := s.procs[p];
      DoInsert(s, p, id, publicKey)
        == State(s.keys[id := NewKey(q.tenant, q.version + 1, publicKey)], s.procs[p := Listing(q.tenant)], s.clock)
  {}

  lemma InsertStep(cfg: Config, s: State, p: nat, id: Id, publicKey: nat)
    requires Inv(cfg, s)
    ensures Inv(cfg, DoInsert(s, p, id, publicKey))
  {
    if p in s.procs && s.procs[p].Inserting? && id !in s.keys {
      assert ProcOk(cfg, s, s.procs[p]);
      OneWinner(s, p);
      WinnerInserts(s, p, id, publicKey);
      InsertRowKept(cfg, s, p, id, publicKey);
    }
  }

  lemma InsertRowKept(cfg: Config, s: State, p: nat, id: Id, publicKey: nat)
    requires VersionsOk(s.keys) && FlagsOk(s.keys) && p in s.procs && s.procs[p].Inserting? && id !in s.keys
    requires IsMaxVersion(s.keys, s.procs[p].tenant, s.procs[p].version)
    requires CurrentKeys(s.keys, s.procs[p].tenant) == {}
    requires AllTokensOk(s) && AllProcsOk(cfg, s) && AllDeactivationsOk(cfg, s) && AllBoundsOk(cfg, s)
    ensures var q := s.procs[p];
      Inv(cfg, State(s.keys[id := NewKey(q.tenant, q.version + 1, publicKey)], s.procs[p := Listing(q.tenant)], s.clock))
  {
    hide *;
    var q := s.procs[p];
    InsertTable(s.keys, id, q.tenant, q.version, publicKey);
    InsertKept(cfg, s, s.keys[id := NewKey(q.tenant, q.version + 1, publicKey)], p, id);
  }

  lemma InsertKept(cfg: Config, s: State, t': Table, p: nat, id: Id)
    requires AllTokensOk(s) && AllProcsOk(cfg, s) && AllDeactivationsOk(cfg, s) && AllBoundsOk(cfg, s)
    requires p in s.procs && s.procs[p].Inserting? && Gains(s.keys, t', s.procs[p].tenant, id)
    ensures Inv(cfg, State(t', s.procs[p := Listing(s.procs[p].tenant)], s.clock))
  {
    var s' := State(t', s.procs[p := Listing(s.procs[p].tenant)], s.clock);
    OthersDoNotInsert(cfg, s, p);
    ProcsStable(cfg, s, s', p, Listing(s.procs[p].tenant));
    DeactivationsStable(cfg, s, s');
    InsertTokens(s, s', p, id);
    InsertBounds(cfg, s, s', p, id);
  }

  /** A first key for a tenant without keys. */
  lemma CreateStep(cfg: Config, s: State, id: Id, tenant: Tenant, publicKey: nat)
    requires Inv(cfg, s) && cfg.maxKeys >= 1
    ensures Inv(cfg, DoCreate(s, id, tenant, publicKey))
  {
    if id !in s.keys && !KidTaken(s.keys, Kid(tenant, 1)) {
      FirstKey(s, id, tenant, publicKey);
      CreateKept(cfg, s, s.keys[id := NewKey(tenant, 1, publicKey)], id, tenant);
    }
  }

  lemma FirstKey(s: State, id: Id, tenant: Tenant, publicKey: nat)
    requires VersionsOk(s.keys) && FlagsOk(s.keys) && AllTokensOk(s)
    requires id !in s.keys && !KidTaken(s.keys, Kid(tenant, 1))
    ensures KeysOf(s.keys, tenant) == {} && Gains(s.keys, s.keys[id := NewKey(tenant, 1, publicKey)], tenant, id)
  {
    FirstVersionExists(s.keys, tenant);
    NoRightWithoutKeys(s, tenant);
    InsertTable(s.keys, id, tenant, 0, publicKey);
  }

  lemma CreateKept(cfg: Config, s: State, t': Table, id: Id, tenant: Tenant)
    requires AllTokensOk(s) && AllProcsOk(cfg, s) && AllDeactivationsOk(cfg, s) && AllBoundsOk(cfg, s)
    requires cfg.maxKeys >= 1 && KeysOf(s.keys, tenant) == {}
    requires Gains(s.keys, t', tenant, id)
    ensures Inv(cfg, s.(keys := t'))
  {
    var s' := s.(keys := t');
    NoRightWithoutKeys(s, tenant);
    CreateProcs(cfg, s, s', tenant);
    DeactivationsStable(cfg, s, s');
    CreateTokens(s, s', id, tenant);
    CreateBounds(cfg, s, s', id, tenant);
  }

  lemma NoRightWithoutKeys(s: State, tenant: Tenant)
    requires AllTokensOk(s) && KeysOf(s.keys, tenant) == {}
    ensures CurrentKeys(s.keys, tenant) == {} && IsMaxVersion(s.keys, tenant, 0)
    ensures forall i :: i in s.procs && s.procs[i].Inserting? ==> s.procs[i].tenant != tenant
  {
    assert TokenOk(s, tenant);
    assert Winners(s, tenant) == {};
    assert forall i :: i in s.procs && s.procs[i].Inserting? && s.procs[i].tenant == tenant ==> i in Winners(s, tenant);
  }

  lemma CreateProcs(cfg: Config, s: State, s': State, tenant: Tenant)
    requires AllProcsOk(cfg, s) && s'.procs == s.procs && s'.clock == s.clock && Evolves(s.keys, s'.keys)
    requires forall i :: i in s.procs && s.procs[i].Inserting? ==> s.procs[i].tenant != tenant
    requires forall x :: x != tenant ==> KeysOf(s'.keys, x) == KeysOf(s.keys, x)
    ensures AllProcsOk(cfg, s')
  {
    forall i | i in s.procs ensures ProcOk(cfg, s', s.procs[i]) { ProcStable(cfg, s, s', s.procs[i]); }
  }

  lemma CreateBounds(cfg: Config, s: State, s': State, id: Id, tenant: Tenant)
    requires AllBoundsOk(cfg, s) && cfg.maxKeys >= 1 && s'.procs == s.procs
    requires KeysOf(s.keys, tenant) == {} && ActiveKeys(s'.keys, tenant) == ActiveKeys(s.keys, tenant) + {id}
    requires forall x :: x != tenant ==> ActiveKeys(s'.keys, x) == ActiveKeys(s.keys, x)
    ensures AllBoundsOk(cfg, s')
  {
    forall x ensures TrimBound(cfg, s', x) {
      assert TrimBound(cfg, s, x);
      CreateBound(cfg, s, s', id, tenant, x);
    }
  }

  lemma CreateTokens(s: State, s': State, id: Id, tenant: Tenant)
    requires AllTokensOk(s) && s'.procs == s.procs && KeysOf(s.keys, tenant) == {}
    requires CurrentKeys(s'.keys, tenant) == {id} && KeysOf(s'.keys, tenant) == {id}
    requires forall x :: x != tenant ==>
      CurrentKeys(s'.keys, x) == CurrentKeys(s.keys, x) && KeysOf(s'.keys, x) == KeysOf(s.keys, x)
    ensures AllTokensOk(s')
  {
    forall x ensures TokenOk(s', x) {
      assert TokenOk(s, x) && Winners(s', x) == Winners(s, x);
    }
  }

  lemma FirstVersionExists(t: Table, tenant: Tenant)
    requires VersionsOk(t)
    ensures KeysOf(t, tenant) == {} || KidTaken(t, Kid(tenant, 1))
  {
    if k :| k in KeysOf(t, tenant) {
      if t[k].keyVersion > 1 { assert HasVersion(t, tenant, 1); }
    }
  }

  lemma CreateBound(cfg: Config, s: State, s': State, id: Id, tenant: Tenant, x: Tenant)
    requires TrimBound(cfg, s, x) && cfg.maxKeys >= 1 && s'.procs == s.procs
    requires KeysOf(s.keys, tenant) == {} && ActiveKeys(s'.keys, tenant) == ActiveKeys(s.keys, tenant) + {id}
    requires x != tenant ==> ActiveKeys(s'.keys, x) == ActiveKeys(s.keys, x)
    ensures TrimBound(cfg, s', x)
  {
    assert Untrimmed(s', x) == Untrimmed(s, x) && Trimmers(s', x) == Trimmers(s, x);
    assert forall ps :: PendingOf(s', ps) == PendingOf(s, ps);
    if x == tenant {
      assert ActiveKeys(s.keys, x) == {} by {
        assert forall k :: k in ActiveKeys(s.keys, x) ==> k in KeysOf(s.keys, x);
      }
      forall ps | ps <= Trimmers(s', x)
        ensures BoundFor(cfg, s', x, ps)
      {
        SubsetCardinality(ActiveKeys(s'.keys, x) - PendingOf(s', ps), {id});
      }
    } else {
      SameTrimmers(cfg, s, s', x);
    }
  }

  // --- trimming

  /** At the listing, what lies outside the excess fits the maximum. */
  lemma ListBounds(cfg: Config, s: State, s': State, p: nat, list: seq<Id>)
    requires AllBoundsOk(cfg, s) && cfg.maxKeys >= 0 && p in s.procs && s.procs[p].Listing?
    requires ActiveListing(s.keys, s.procs[p].tenant, list)
    requires s' == Goto(s, p, Trimming(s.procs[p].tenant, Excess(list, cfg.maxKeys)))
    ensures AllBoundsOk(cfg, s')
  {
    var tenant := s.procs[p].tenant;
    forall x ensures TrimBound(cfg, s', x) {
      assert TrimBound(cfg, s, x) && Untrimmed(s', x) == Untrimmed(s, x);
      forall ps | ps <= Trimmers(s', x)
        ensures BoundFor(cfg, s', x, ps)
      {
        if p in ps {
          ListingAfterExcess(s.keys, tenant, list, cfg.maxKeys);
          assert forall k :: k in Excess(list, cfg.maxKeys) ==> k in s'.procs[p].pending;
          SubsetCardinality(ActiveKeys(s'.keys, x) - PendingOf(s', ps), ActiveKeys(s.keys, x) - Ids(Excess(list, cfg.maxKeys)));
        } else {
          assert ps <= Trimmers(s, x) && BoundFor(cfg, s, x, ps);
          PendingWithout(s, s', p, ps);
        }
      }
    }
  }

  lemma PendingWithout(s: State, s': State, p: nat, ps: set<nat>)
    requires p !in ps && forall i :: i != p ==> (i in s.procs <==> i in s'.procs)
    requires forall i :: i != p && i in s.procs ==> s'.procs[i] == s.procs[i]
    ensures PendingOf(s', ps) == PendingOf(s, ps)
  {}

  lemma ListStep(cfg: Config, s: State, p: nat, list: seq<Id>)
    requires Inv(cfg, s) && cfg.maxKeys >= 0
    ensures Inv(cfg, DoList(cfg, s, p, list))
  {
    var s' := DoList(cfg, s, p, list);
    if s' != s {
      var tenant := s.procs[p].tenant;
      ExcessMeaning(s.keys, tenant, list, cfg.maxKeys);
      forall k | k in Excess(list, cfg.maxKeys) ensures k in s.keys && |NewerKeys(s.keys, k)| >= cfg.maxKeys {
        SubsetCardinality(NewerActive(s.keys, k), NewerKeys(s.keys, k));
      }
      ProcsStable(cfg, s, s', p, s'.procs[p]);
      DeactivationsStable(cfg, s, s');
      TokensSame(s, s', p, s'.procs[p]);
      ListBounds(cfg, s, s', p, list);
    }
  }

  lemma FinishSets(s: State, s': State, p: nat, x: Tenant)
    requires p in s.procs && s.procs[p].Trimming? && s' == Goto(s, p, Done)
    ensures Trimmers(s', x) == Trimmers(s, x) - {p} && Untrimmed(s', x) == Untrimmed(s, x) - {p}
    ensures p in Trimmers(s, x) <==> x == s.procs[p].tenant
    ensures p in Untrimmed(s, x) <==> x == s.procs[p].tenant
  {}

  lemma EmptyPendingAddsNothing(s: State, p: nat, ps: set<nat>)
    requires p in s.procs && s.procs[p].Trimming? && s.procs[p].pending == []
    ensures PendingOf(s, ps + {p}) == PendingOf(s, ps)
  {}

  /** Finishing with an empty list: the bound for `ps` follows from the bound for `ps + {p}`. */
  lemma FinishTrimFor(cfg: Config, s: State, s': State, p: nat, x: Tenant, ps: set<nat>)
    requires TrimBound(cfg, s, x) && p in s.procs && s.procs[p].Trimming? && s.procs[p].pending == []
    requires s' == Goto(s, p, Done) && ps <= Trimmers(s', x)
    ensures BoundFor(cfg, s', x, ps)
  {
    FinishSets(s, s', p, x);
    assert p !in ps;
    PendingWithout(s, s', p, ps);
    EmptyPendingAddsNothing(s, p, ps);
    var more := if x == s.procs[p].tenant then ps + {p} else ps;
    assert more <= Trimmers(s, x) by { LargerSubset(Trimmers(s, x), Trimmers(s', x), p, ps); }
    assert BoundFor(cfg, s, x, more);
    DropOne(Untrimmed(s, x), p, ps);
  }

  lemma LargerSubset(big: set<nat>, small: set<nat>, p: nat, ps: set<nat>)
    requires small == big - {p} && ps <= small
    ensures p in big ==> ps + {p} <= big
    ensures ps <= big
  {}

  lemma DropOne(u: set<nat>, p: nat, ps: set<nat>)
    ensures (u - {p}) - ps == u - (ps + {p})
    ensures p !in u ==> u - {p} == u
  {}

  lemma FinishTrim(cfg: Config, s: State, s': State, p: nat)
    requires AllBoundsOk(cfg, s) && p in s.procs && s.procs[p].Trimming? && s.procs[p].pending == []
    requires s' == Goto(s, p, Done)
    ensures AllBoundsOk(cfg, s')
  {
    forall x ensures TrimBound(cfg, s', x) {
      assert TrimBound(cfg, s, x);
      forall ps | ps <= Trimmers(s', x)
        ensures BoundFor(cfg, s', x, ps)
      {
        FinishTrimFor(cfg, s, s', p, x, ps);
      }
    }
  }

  /** The key leaves the active set as it leaves the pending list. */
  lemma TrimBounds(cfg: Config, s: State, s': State, p: nat)
    requires AllBoundsOk(cfg, s) && p in s.procs && s.procs[p].Trimming? && s.procs[p].pending != []
    requires var q := s.procs[p];
      && s'.procs == s.procs[p := Trimming(q.tenant, q.pending[1..])]
      && forall x :: ActiveKeys(s'.keys, x) == ActiveKeys(s.keys, x) - {q.pending[0]}
    ensures AllBoundsOk(cfg, s')
  {
    var q := s.procs[p];
    forall x ensures TrimBound(cfg, s', x) {
      assert TrimBound(cfg, s, x);
      assert Untrimmed(s', x) == Untrimmed(s, x) && Trimmers(s', x) == Trimmers(s, x);
      forall ps | ps <= Trimmers(s, x)
        ensures ActiveKeys(s'.keys, x) - PendingOf(s', ps) <= ActiveKeys(s.keys, x) - PendingOf(s, ps)
      {
        forall k | k in PendingOf(s, ps) && k != q.pending[0] ensures k in PendingOf(s', ps) {
          var i :| i in ps && i in s.procs && s.procs[i].Trimming? && k in s.procs[i].pending;
          assert k in s'.procs[i].pending;
        }
      }
      SameTrimmers(cfg, s, s', x);
    }
  }

  lemma NotNewestNotCurrent(cfg: Config, t: Table, k: Id)
    requires FlagsOk(t) && k in t && cfg.maxKeys >= 1 && |NewerKeys(t, k)| >= cfg.maxKeys
    ensures !t[k].isCurrent
  {}

  lemma TrimFinishes(cfg: Config, s: State, p: nat)
    requires Inv(cfg, s) && p in s.procs && s.procs[p].Trimming? && s.procs[p].pending == []
    ensures Inv(cfg, Goto(s, p, Done))
  {
    var s' := Goto(s, p, Done);
    ProcsStable(cfg, s, s', p, Done);
    DeactivationsStable(cfg, s, s');
    TokensSame(s, s', p, Done);
    FinishTrim(cfg, s, s', p);
  }

  lemma TrimDeactivates(cfg: Config, s: State, p: nat)
    requires Inv(cfg, s) && cfg.maxKeys >= 1 && p in s.procs && s.procs[p].Trimming? && s.procs[p].pending != []
    ensures Inv(cfg, DoTrim(s, p))
  {
    var s' := DoTrim(s, p);
    var q := s.procs[p];
    var k := q.pending[0];
    assert ProcOk(cfg, s, q);
    NotNewestNotCurrent(cfg, s.keys, k);
    DeactivateTable(s.keys, k, s.clock);
    assert ProcOk(cfg, s, Trimming(q.tenant, q.pending[1..]));
    ProcStable(cfg, s, s', Trimming(q.tenant, q.pending[1..]));
    ProcsStable(cfg, s, s', p, s'.procs[p]);
    NewerGrows(s.keys, s'.keys, k);
    DeactivationsStable(cfg, s, s');
    TokensSame(s, s', p, s'.procs[p]);
    TrimBounds(cfg, s, s', p);
  }

  lemma TrimStep(cfg: Config, s: State, p: nat)
    requires Inv(cfg, s) && cfg.maxKeys >= 1
    ensures Inv(cfg, DoTrim(s, p))
  {
    if p in s.procs && s.procs[p].Trimming? {
      if s.procs[p].pending == [] { TrimFinishes(cfg, s, p); } else { TrimDeactivates(cfg, s, p); }
    }
  }

  // --- the cron job

  lemma RetireStep(cfg: Config, s: State, p: nat)
    requires Inv(cfg, s)
    ensures Inv(cfg, DoRetire(cfg, s, p))
  {
    if p in s.procs && s.procs[p].Retiring? {
      var q := s.procs[p];
      var s' := DoRetire(cfg, s, p);
      assert ProcOk(cfg, s, q);
      if q.candidates == [] {
        LocalStep(cfg, s, p, Done);
      } else {
        var c := q.candidates[0];
        assert c in q.candidates && q.now <= s.clock && CandidateOk(s.keys, c);
        assert ProcOk(cfg, s, Retiring(q.now, q.candidates[1..]));
        if c.supersededAt + cfg.ttlSeconds * 1000 < q.now {
          DeactivateTable(s.keys, c.id, q.now);
          ProcStable(cfg, s, s', Retiring(q.now, q.candidates[1..]));
          assert Expired(s'.keys[c.id], cfg.ttlSeconds, s'.clock);
          ProcsStable(cfg, s, s', p, s'.procs[p]);
          DeactivationsStable(cfg, s, s');
          TokensSame(s, s', p, s'.procs[p]);
          BoundsSame(cfg, s, s', p, s'.procs[p]);
        } else {
          LocalStep(cfg, s, p, s'.procs[p]);
        }
      }
    }
  }

  /** Steps that only move a program counter outside trimming. */
  lemma OtherSteps(cfg: Config, s: State, a: Step)
    requires Inv(cfg, s) && (a.StartRotate? || a.ReadVersion? || a.Sweep? || a.ReadClock?)
    ensures Inv(cfg, Apply(cfg, s, a))
  {
    var s' := Apply(cfg, s, a);
    if s' != s {
      assert a.p in s.procs ==> ProcOk(cfg, s, s.procs[a.p]);
      LocalStep(cfg, s, a.p, s'.procs[a.p]);
    }
  }

  lemma StepKeepsInv(cfg: Config, s: State, a: Step)
    requires Inv(cfg, s) && cfg.maxKeys >= 1
    ensures Inv(cfg, Apply(cfg, s, a))
  {
    match a
    case Tick(ms) => TickStep(cfg, s, ms);
    case CreateInitial(id, tenant, publicKey) => CreateStep(cfg, s, id, tenant, publicKey);
    case Swap(p) => SwapStep(cfg, s, p);
    case InsertKey(p, id, publicKey) => InsertStep(cfg, s, p, id, publicKey);
    case ListActive(p, list) => ListStep(cfg, s, p, list);
    case TrimOne(p) => TrimStep(cfg, s, p);
    case RetireOne(p) => RetireStep(cfg, s, p);
    case _ => OtherSteps(cfg, s, a);
  }

  lemma StartInv(cfg: Config, clock: Time)
    requires cfg.maxKeys >= 0
    ensures Inv(cfg, Start(clock))
  {}

  lemma {:induction false} RunKeepsInv(cfg: Config, s: State, steps: seq<Step>)
    requires Inv(cfg, s) && cfg.maxKeys >= 1
    ensures Inv(cfg, Run(cfg, s, steps))
    decreases |steps|
  {
    if steps != [] {
      StepKeepsInv(cfg, s, steps[0]);
      RunKeepsInv(cfg, Apply(cfg, s, steps[0]), steps[1..]);
    }
  }
}
