/**
 Main results on signing keys: one right to be current per tenant, gapless versions, a bound on
 the active keys at every point of every interleaving, and how long a signed token verifies.
 The maximum number of active keys is taken to be at least one.
 */
module SigningKeyTheorems {
  import opened Wrappers
  import opened SigningKeys
  import opened SigningKeyRuns

  /** Conservation: current keys plus rotations between swap and insert number exactly one per
      tenant that has keys, so a tenant never has two current keys. */
  lemma OneCurrentOrOneWinner(cfg: Config, clock: Time, steps: seq<Step>, tenant: Tenant)
    requires cfg.maxKeys >= 1
    ensures var s := Run(cfg, Start(clock), steps);
      |CurrentKeys(s.keys, tenant)| + |Winners(s, tenant)| == if KeysOf(s.keys, tenant) == {} then 0 else 1
  {
    StartInv(cfg, clock);
    RunKeepsInv(cfg, Start(clock), steps);
    assert TokenOk(Run(cfg, Start(clock), steps), tenant);
  }

  /** The version read in step 2 is still the maximum at the INSERT, whatever ran in between;
      the INSERT never meets a taken kid and makes the next version the current key. */
  lemma ReadVersionStillMaximum(cfg: Config, clock: Time, steps: seq<Step>, p: nat, id: Id, publicKey: nat)
    requires cfg.maxKeys >= 1
    requires var s := Run(cfg, Start(clock), steps); p in s.procs && s.procs[p].Inserting? && id !in s.keys
    ensures var s := Run(cfg, Start(clock), steps);
      var q := s.procs[p];
      && IsMaxVersion(s.keys, q.tenant, q.version)
      && DoInsert(s, p, id, publicKey).keys == s.keys[id := NewKey(q.tenant, q.version + 1, publicKey)]
      && CurrentKeys(DoInsert(s, p, id, publicKey).keys, q.tenant) == {id}
  {
    StartInv(cfg, clock);
    RunKeepsInv(cfg, Start(clock), steps);
    var s := Run(cfg, Start(clock), steps);
    assert ProcOk(cfg, s, s.procs[p]);
    OneWinner(s, p);
    WinnerInserts(s, p, id, publicKey);
    InsertQueries(s.keys, id, s.procs[p].tenant, s.procs[p].version, publicKey);
  }

  /** The versions of the tenant are exactly 1..n. */
  ghost predicate VersionsUpTo(t: Table, tenant: Tenant, n: nat) {
    && (forall k :: k in KeysOf(t, tenant) ==> 1 <= t[k].keyVersion <= n)
    && (forall v {:trigger HasVersion(t, tenant, v)} :: 1 <= v <= n ==> HasVersion(t, tenant, v))
  }

  /** Versions of a tenant are consecutive from 1, no version repeats, and a kid names one key. */
  lemma VersionsConsecutive(cfg: Config, clock: Time, steps: seq<Step>, tenant: Tenant)
    requires cfg.maxKeys >= 1
    ensures exists n: nat :: VersionsUpTo(Run(cfg, Start(clock), steps).keys, tenant, n)
    ensures var t := Run(cfg, Start(clock), steps).keys;
      && DistinctVersions(t)
      && (forall a, b | a in t && b in t :: t[a].kid == t[b].kid ==> a == b)
  {
    StartInv(cfg, clock);
    RunKeepsInv(cfg, Start(clock), steps);
    HighestVersionBounds(Run(cfg, Start(clock), steps).keys, tenant);
  }

  lemma HighestVersionBounds(t: Table, tenant: Tenant)
    requires VersionsOk(t)
    ensures exists n: nat :: VersionsUpTo(t, tenant, n)
  {
    if KeysOf(t, tenant) == {} {
      assert VersionsUpTo(t, tenant, 0);
    } else {
      var top := HighestKey(t, KeysOf(t, tenant));
      assert HasVersion(t, tenant, t[top].keyVersion);
      assert VersionsUpTo(t, tenant, t[top].keyVersion);
    }
  }

  lemma HighestKey(t: Table, ids: set<Id>) returns (m: Id)
    requires ids != {} && forall k :: k in ids ==> k in t
    ensures m in ids && forall k :: k in ids ==> t[k].keyVersion <= t[m].keyVersion
    decreases |ids|
  {
    m :| m in ids;
    if ids != {m} {
      var rest := ids - {m};
      assert rest != {};
      var top := HighestKey(t, rest);
      if t[top].keyVersion > t[m].keyVersion { m := top; }
    }
  }

  // ---------------------------------------------------------------------------------------
  // Public keys
  // ---------------------------------------------------------------------------------------

  /** The step inserts this row with this public key. */
  predicate Inserts(a: Step, k: Id, publicKey: nat) {
    || (a.CreateInitial? && a.id == k && a.publicKey == publicKey)
    || (a.InsertKey? && a.id == k && a.publicKey == publicKey)
  }

  /** No step removes a key or changes its tenant, version, kid or public key; one that adds a key
      gives it the public key of the step. */
  lemma StepKeepsPublicKeys(cfg: Config, s: State, a: Step, k: Id)
    ensures var s' := Apply(cfg, s, a);
      && (k in s.keys ==>
           && k in s'.keys && s'.keys[k].publicKey == s.keys[k].publicKey && s'.keys[k].kid == s.keys[k].kid
           && s'.keys[k].tenantId == s.keys[k].tenantId && s'.keys[k].keyVersion == s.keys[k].keyVersion)
      && (k !in s.keys && k in s'.keys ==> Inserts(a, k, s'.keys[k].publicKey))
  {
    hide IsMaxVersion, ActiveListing, SweepAnswer, KidTaken, Excess, CurrentKeys;
  }

  /** The key was not there before the `i`-th step, which inserted it with its public key. */
  ghost predicate InsertedAt(cfg: Config, s: State, steps: seq<Step>, k: Id, publicKey: nat, i: int) {
    0 <= i < |steps| && k !in Run(cfg, s, steps[..i]).keys && Inserts(steps[i], k, publicKey)
  }

  /** Over every run a key keeps the public key of the one step that inserted it. */
  lemma {:induction false} PublicKeyIsInserted(cfg: Config, s: State, steps: seq<Step>, k: Id)
    ensures var s' := Run(cfg, s, steps);
      && (k in s.keys ==> k in s'.keys && s'.keys[k].publicKey == s.keys[k].publicKey)
      && (k !in s.keys && k in s'.keys ==> exists i :: InsertedAt(cfg, s, steps, k, s'.keys[k].publicKey, i))
    decreases |steps|
  {
    hide Apply, Inserts;
    if steps != [] {
      var s1 := Apply(cfg, s, steps[0]);
      var s' := Run(cfg, s, steps);
      StepKeepsPublicKeys(cfg, s, steps[0], k);
      PublicKeyIsInserted(cfg, s1, steps[1..], k);
      if k !in s.keys && k in s'.keys {
        if k in s1.keys {
          assert steps[..0] == [];
          assert InsertedAt(cfg, s, steps, k, s'.keys[k].publicKey, 0);
        } else {
          var i :| InsertedAt(cfg, s1, steps[1..], k, s'.keys[k].publicKey, i);
          assert steps[..i + 1][1..] == steps[1..][..i] && steps[..i + 1][0] == steps[0];
          assert InsertedAt(cfg, s, steps, k, s'.keys[k].publicKey, i + 1);
        }
      }
    }
  }

  /** While a key is not deactivated, the lookup of its kid answers with the public key of the step
      that inserted it, and with no other. */
  lemma LookupAnswersInserted(cfg: Config, clock: Time, steps: seq<Step>, k: Id)
    requires cfg.maxKeys >= 1
    requires var s := Run(cfg, Start(clock), steps); k in s.keys && s.keys[k].deactivatedAt.None?
    ensures var key := Run(cfg, Start(clock), steps).keys[k];
      && Answers(Run(cfg, Start(clock), steps).keys, key.kid, key.tenantId, key.publicKey)
      && exists i :: InsertedAt(cfg, Start(clock), steps, k, key.publicKey, i)
  {
    hide Run, InsertedAt;
    VersionsConsecutive(cfg, clock, steps, Run(cfg, Start(clock), steps).keys[k].tenantId);
    PublicKeyIsInserted(cfg, Start(clock), steps, k);
  }

  /** At every point of every interleaving of rotations and cron runs: active keys are at most
      the maximum plus the rotations that inserted and have not finished trimming. */
  lemma ActiveKeysBounded(cfg: Config, clock: Time, steps: seq<Step>, tenant: Tenant)
    requires cfg.maxKeys >= 1
    ensures var s := Run(cfg, Start(clock), steps);
      |ActiveKeys(s.keys, tenant)| <= cfg.maxKeys + |Untrimmed(s, tenant)|
  {
    StartInv(cfg, clock);
    RunKeepsInv(cfg, Start(clock), steps);
    var s := Run(cfg, Start(clock), steps);
    assert TrimBound(cfg, s, tenant) && BoundFor(cfg, s, tenant, {});
    assert PendingOf(s, {}) == {};
    assert ActiveKeys(s.keys, tenant) - {} == ActiveKeys(s.keys, tenant);
    assert Untrimmed(s, tenant) - {} == Untrimmed(s, tenant);
  }

  /** The current key is never deactivated, even by a trim acting on a stale list, so a token
      signed with it is found by its kid. */
  lemma CurrentKeyActive(cfg: Config, clock: Time, steps: seq<Step>, k: Id)
    requires cfg.maxKeys >= 1
    requires var t := Run(cfg, Start(clock), steps).keys; k in t && t[k].isCurrent
    ensures var t := Run(cfg, Start(clock), steps).keys; Found(t, t[k].kid, t[k].tenantId)
  {
    StartInv(cfg, clock);
    RunKeepsInv(cfg, Start(clock), steps);
  }

  /** The assumption on the maximum is exact: a trim spares the current key iff it is positive. */
  lemma TrimSparesCurrentIff(t: Table, k: Id, maxKeys: int, now: Time)
    requires FlagsOk(t) && k in t && t[k].isCurrent
    ensures Trimmed(t, t[k].tenantId, maxKeys, now)[k].deactivatedAt.None? <==> maxKeys >= 1
  {
    assert NewerActive(t, k) <= NewerKeys(t, k);
    assert |NewerActive(t, k)| == 0;
    assert k in ActiveKeys(t, t[k].tenantId);
  }

  /** A token signed no later than its key was superseded finds that key until the token's
      lifetime ends, unless at least `maxKeys` newer keys were created. */
  lemma SigningKeyOutlivesToken(cfg: Config, clock: Time, steps: seq<Step>, k: Id, signedAt: Time)
    requires cfg.maxKeys >= 1
    requires var s := Run(cfg, Start(clock), steps);
      && k in s.keys
      && (s.keys[k].supersededAt.Some? ==> signedAt <= s.keys[k].supersededAt.value)
      && s.clock <= signedAt + cfg.ttlSeconds * 1000
      && |NewerKeys(s.keys, k)| < cfg.maxKeys
    ensures var t := Run(cfg, Start(clock), steps).keys; Found(t, t[k].kid, t[k].tenantId)
  {
    StartInv(cfg, clock);
    RunKeepsInv(cfg, Start(clock), steps);
    var s := Run(cfg, Start(clock), steps);
    assert DeactivationOk(cfg, s, k);
  }

  // ---------------------------------------------------------------------------------------
  // Exactly which signings are safe
  // ---------------------------------------------------------------------------------------

  /** After these steps, while a token signed now is valid and fewer than `maxKeys` newer keys
      were created, the key is found. */
  ghost predicate FoundAfter(cfg: Config, s: State, k: Id, steps: seq<Step>)
    requires k in s.keys
  {
    var s' := Run(cfg, s, steps);
    && k in s'.keys
    && (s'.clock <= s.clock + cfg.ttlSeconds * 1000 && |NewerKeys(s'.keys, k)| < cfg.maxKeys ==>
          Found(s'.keys, s.keys[k].kid, s.keys[k].tenantId))
  }

  /** No rotation of the tenant that has not swapped yet read the clock before `since`. */
  ghost predicate NoEarlierRotation(s: State, tenant: Tenant, since: Time) {
    forall p :: p in s.procs && s.procs[p].Rotating? && s.procs[p].tenant == tenant ==> s.procs[p].now >= since
  }

  /** The key was not superseded before `since`, and no rotation under way can still do so. */
  ghost predicate KeptSince(s: State, k: Id, since: Time) {
    && k in s.keys && since <= s.clock
    && (s.keys[k].supersededAt.Some? ==> s.keys[k].supersededAt.value >= since)
    && NoEarlierRotation(s, s.keys[k].tenantId, since)
  }

  lemma StepKeepsSince(cfg: Config, s: State, a: Step, k: Id, since: Time)
    requires KeptSince(s, k, since)
    ensures var s' := Apply(cfg, s, a);
      KeptSince(s', k, since) && s'.keys[k].kid == s.keys[k].kid && s'.keys[k].tenantId == s.keys[k].tenantId
  {}

  lemma {:induction false} RunKeepsSince(cfg: Config, s: State, steps: seq<Step>, k: Id, since: Time)
    requires KeptSince(s, k, since)
    ensures var s' := Run(cfg, s, steps);
      KeptSince(s', k, since) && s'.keys[k].kid == s.keys[k].kid && s'.keys[k].tenantId == s.keys[k].tenantId
    decreases |steps|
  {
    hide Apply;
    if steps != [] {
      StepKeepsSince(cfg, s, steps[0], k, since);
      RunKeepsSince(cfg, Apply(cfg, s, steps[0]), steps[1..], k, since);
    }
  }

  lemma SafeSigning(cfg: Config, s: State, k: Id, steps: seq<Step>)
    requires Inv(cfg, s) && cfg.maxKeys >= 1 && k in s.keys && s.keys[k].isCurrent
    requires NoEarlierRotation(s, s.keys[k].tenantId, s.clock)
    ensures FoundAfter(cfg, s, k, steps)
  {
    RunKeepsSince(cfg, s, steps, k, s.clock);
    RunKeepsInv(cfg, s, steps);
    var s' := Run(cfg, s, steps);
    assert DeactivationOk(cfg, s', k);
  }

  /** The cron answer for a table, with one of its rows in front. */
  lemma SweepAnswerFrom(t: Table, first: Id) returns (list: seq<Candidate>)
    requires first in t && !t[first].isCurrent && t[first].deactivatedAt.None? && t[first].supersededAt.Some?
    ensures SweepAnswer(t, list) && list != [] && list[0] == Candidate(first, t[first].supersededAt.value)
  {
    var due := set k | k in t && !t[k].isCurrent && t[k].deactivatedAt.None? && t[k].supersededAt.Some?;
    list := [Candidate(first, t[first].supersededAt.value)];
    var rest := due;
    while rest != {}
      invariant rest <= due && list != [] && list[0] == Candidate(first, t[first].supersededAt.value)
      invariant forall c :: c in list ==> c.id in due && t[c.id].supersededAt.value == c.supersededAt
      invariant forall k :: k in due - rest ==> Candidate(k, t[k].supersededAt.value) in list
      decreases |rest|
    {
      var k :| k in rest;
      list, rest := list + [Candidate(k, t[k].supersededAt.value)], rest - {k};
    }
    assert due - rest == due;
  }

  /** A rotation that read the clock before the signing wins the swap, and a cron run at the very
      end of the token's lifetime retires the key. */
  lemma UnsafeSigning(cfg: Config, s: State, k: Id, p: nat) returns (steps: seq<Step>)
    requires Inv(cfg, s) && cfg.maxKeys >= 1 && cfg.ttlSeconds >= 0 && k in s.keys && s.keys[k].isCurrent
    requires p in s.procs && s.procs[p].Rotating? && s.procs[p].tenant == s.keys[k].tenantId && s.procs[p].now < s.clock
    ensures !FoundAfter(cfg, s, k, steps)
  {
    hide Supersede, Inv, DoSwap, SweepAnswer, NewerKeys, Found, Apply;
    var ms := cfg.ttlSeconds * 1000;
    SwapSupersedes(cfg, s, k, p);
    var s2 := DoSwap(s, p).(clock := s.clock + ms);
    var list := SweepAnswerFrom(s2.keys, k);
    var q := FreshNumber(s2.procs.Keys);
    steps := [Swap(p), Tick(ms), Sweep(q, list), ReadClock(q), RetireOne(q)];
    SwapThenRetire(cfg, s, p, ms, q, list);
  }

  lemma SwapThenRetire(cfg: Config, s: State, p: nat, ms: nat, q: nat, list: seq<Candidate>)
    requires DoSwap(s, p).clock == s.clock
    requires var s2 := DoSwap(s, p).(clock := s.clock + ms); q !in s2.procs && SweepAnswer(s2.keys, list)
    requires list != [] && list[0].supersededAt + cfg.ttlSeconds * 1000 < s.clock + ms
    ensures var s' := Run(cfg, s, [Swap(p), Tick(ms), Sweep(q, list), ReadClock(q), RetireOne(q)]);
      s'.clock == s.clock + ms && s'.keys == Deactivate(DoSwap(s, p).keys, list[0].id, s.clock + ms)
  {
    hide DoSwap, SweepAnswer, Deactivate;
    var s2 := DoSwap(s, p).(clock := s.clock + ms);
    Run5(cfg, s, [Swap(p), Tick(ms), Sweep(q, list), ReadClock(q), RetireOne(q)]);
    SweepAndRead(cfg, s2, q, list);
  }

  /** Winning the swap keeps the rows, and the key cannot be found once it is deactivated. */
  lemma SwapSupersedes(cfg: Config, s: State, k: Id, p: nat)
    requires Inv(cfg, s) && k in s.keys && s.keys[k].isCurrent
    requires p in s.procs && s.procs[p].Rotating? && s.procs[p].tenant == s.keys[k].tenantId
    ensures var t := DoSwap(s, p).keys;
      && DoSwap(s, p).clock == s.clock && t.Keys == s.keys.Keys
      && !t[k].isCurrent && t[k].supersededAt == Some(s.procs[p].now) && t[k].deactivatedAt.None?
      && forall at :: NewerKeys(Deactivate(t, k, at), k) == {}
                      && !Found(Deactivate(t, k, at), s.keys[k].kid, s.keys[k].tenantId)
  {
    assert k in CurrentKeys(s.keys, s.keys[k].tenantId);
    assert NewerKeys(s.keys, k) == {};
    var t := DoSwap(s, p).keys;
    forall at ensures NewerKeys(Deactivate(t, k, at), k) == NewerKeys(s.keys, k)
      && !Found(Deactivate(t, k, at), s.keys[k].kid, s.keys[k].tenantId)
    {
      var t' := Deactivate(t, k, at);
      forall j | j in t' && t'[j].kid == s.keys[k].kid ensures j == k {
        assert t'[j].kid == s.keys[j].kid && t'[j].keyVersion == s.keys[j].keyVersion;
      }
    }
  }

  lemma SweepAndRead(cfg: Config, s: State, q: nat, list: seq<Candidate>)
    requires q !in s.procs && SweepAnswer(s.keys, list)
    ensures Apply(cfg, Apply(cfg, s, Sweep(q, list)), ReadClock(q)) == Goto(s, q, Retiring(s.clock, list))
  {
    assert Goto(Goto(s, q, Swept(list)), q, Retiring(s.clock, list)).procs == Goto(s, q, Retiring(s.clock, list)).procs;
  }

  lemma Run5(cfg: Config, s: State, steps: seq<Step>)
    requires |steps| == 5
    ensures var s3 := Apply(cfg, Apply(cfg, Apply(cfg, s, steps[0]), steps[1]), steps[2]);
      Run(cfg, s, steps) == Apply(cfg, Apply(cfg, s3, steps[3]), steps[4])
  {
    hide Apply;
    RunSplit(cfg, s, steps, 3);
    assert steps[..3] == [steps[0], steps[1], steps[2]] && steps[3..] == [steps[3], steps[4]];
    Run3(cfg, s, steps[0], steps[1], steps[2]);
    Run2(cfg, Run(cfg, s, steps[..3]), steps[3], steps[4]);
  }

  /** A token signed now with the current key keeps its key in every continuation exactly if no
      rotation of the tenant read the clock earlier than now and has yet to swap. */
  lemma SigningSafeIff(cfg: Config, s: State, k: Id)
    requires Inv(cfg, s) && cfg.maxKeys >= 1 && cfg.ttlSeconds >= 0 && k in s.keys && s.keys[k].isCurrent
    ensures (forall steps :: FoundAfter(cfg, s, k, steps)) <==> NoEarlierRotation(s, s.keys[k].tenantId, s.clock)
  {
    if NoEarlierRotation(s, s.keys[k].tenantId, s.clock) {
      forall steps ensures FoundAfter(cfg, s, k, steps) { SafeSigning(cfg, s, k, steps); }
    } else {
      var p :| p in s.procs && s.procs[p].Rotating? && s.procs[p].tenant == s.keys[k].tenantId && s.procs[p].now < s.clock;
      var steps := UnsafeSigning(cfg, s, k, p);
    }
  }

  // A run in which a token is signed between the clock read and the swap.

  const CFG := Config(3, 3600)
  const BEFORE: seq<Step> := [CreateInitial(0, "t", 0), StartRotate(0, "t"), Tick(5_000)]
  const AFTER: seq<Step> := [Swap(0), Tick(3_596_000), Sweep(1, [Candidate(0, 0)]), ReadClock(1), RetireOne(1)]
  const SUPERSEDED: Key := NewKey("t", 1, 0).(isCurrent := false, supersededAt := Some(0))
  const AT_SIGNING := State(map[0 := NewKey("t", 1, 0)], map[0 := Rotating("t", 0)], 5_000)
  const AT_SWEEP := State(map[0 := SUPERSEDED], map[0 := Reading("t"), 1 := Swept([Candidate(0, 0)])], 3_601_000)

  lemma RunToSigning()
    ensures Run(CFG, Start(0), BEFORE) == AT_SIGNING
  {}

  lemma RunToSweep()
    ensures Run(CFG, AT_SIGNING, [Swap(0), Tick(3_596_000), Sweep(1, [Candidate(0, 0)])]) == AT_SWEEP
  {
    var swapped := State(map[0 := SUPERSEDED], map[0 := Reading("t")], 5_000);
    assert 0 in CurrentKeys(AT_SIGNING.keys, "t");
    assert DoSwap(AT_SIGNING, 0) == swapped;
    assert SweepAnswer(swapped.keys, [Candidate(0, 0)]);
    assert DoSweep(swapped.(clock := 3_601_000), 1, [Candidate(0, 0)]) == AT_SWEEP;
    Run3(CFG, AT_SIGNING, Swap(0), Tick(3_596_000), Sweep(1, [Candidate(0, 0)]));
  }

  lemma RunToRetired()
    ensures Run(CFG, AT_SWEEP, [ReadClock(1), RetireOne(1)]).keys == map[0 := SUPERSEDED.(deactivatedAt := Some(3_601_000))]
    ensures Run(CFG, AT_SWEEP, [ReadClock(1), RetireOne(1)]).clock == 3_601_000
  {}

  /** The bound on the signing time matters: the supersession time is read before the swap, so
      a token signed in between with the still current key can lose it early. Here the key is
      current at 5 s and gone at 3601 s, within the 3600 s lifetime of a token signed at 5 s. */
  lemma SignedDuringSwapLosesKey()
    ensures var s1 := Run(CFG, Start(0), BEFORE);
      var s2 := Run(CFG, s1, AFTER);
      && 0 in s1.keys && s1.keys[0].isCurrent && s1.clock == 5_000
      && s2.clock < 5_000 + CFG.ttlSeconds * 1000
      && !Found(s2.keys, s1.keys[0].kid, "t")
  {
    RunToSigning();
    RunSplit(CFG, AT_SIGNING, AFTER, 3);
    assert AFTER[..3] == [Swap(0), Tick(3_596_000), Sweep(1, [Candidate(0, 0)])];
    assert AFTER[3..] == [ReadClock(1), RetireOne(1)];
    RunToSweep();
    RunToRetired();
  }

  lemma Run2(cfg: Config, s: State, a: Step, b: Step)
    ensures Run(cfg, s, [a, b]) == Apply(cfg, Apply(cfg, s, a), b)
  {
    assert [a, b][1..] == [b];
    assert [b][1..] == [];
    assert Run(cfg, Apply(cfg, s, a), [b]) == Run(cfg, Apply(cfg, Apply(cfg, s, a), b), []);
  }

  lemma Run3(cfg: Config, s: State, a: Step, b: Step, c: Step)
    ensures Run(cfg, s, [a, b, c]) == Apply(cfg, Apply(cfg, Apply(cfg, s, a), b), c)
  {
    assert [a, b, c][1..] == [b, c];
    Run2(cfg, Apply(cfg, s, a), b, c);
  }

  lemma {:induction false} RunSplit(cfg: Config, s: State, steps: seq<Step>, n: nat)
    requires n <= |steps|
    ensures Run(cfg, s, steps) == Run(cfg, Run(cfg, s, steps[..n]), steps[n..])
    decreases n
  {
    if n == 0 {
      assert steps[0..] == steps;
    } else {
      RunSplit(cfg, Apply(cfg, s, steps[0]), steps[1..], n - 1);
      assert steps[..n][1..] == steps[1..][..n - 1] && steps[1..][n - 1..] == steps[n..];
    }
  }
}
