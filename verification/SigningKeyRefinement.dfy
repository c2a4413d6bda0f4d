/**
 The rotation and the cron run that `SigningKeys` takes as one call are the statements of
 `SigningKeyRuns` with nothing in between.
 */
module SigningKeyRefinement {
  import opened Wrappers
  import opened SigningKeys
  import opened SigningKeyRuns
  import opened SigningKeyTheorems

  /** The keys chosen have been deactivated at this time. */
  ghost function DeactivatedAll(t: Table, chosen: set<Id>, now: Time): Table {
    map k | k in t :: if k in chosen then t[k].(deactivatedAt := Some(now)) else t[k]
  }

  function Repeated(a: Step, n: nat): seq<Step> {
    seq(n, _ => a)
  }

  lemma RunRepeated(cfg: Config, s: State, a: Step, n: nat)
    requires n > 0
    ensures Run(cfg, s, Repeated(a, n)) == Run(cfg, Apply(cfg, s, a), Repeated(a, n - 1))
  {
    assert Repeated(a, n)[1..] == Repeated(a, n - 1);
  }

  /** Trimming key by key deactivates exactly the pending keys. */
  lemma {:induction false} TrimsRun(cfg: Config, s: State, p: nat, tenant: Tenant, pending: seq<Id>)
    requires p in s.procs && s.procs[p] == Trimming(tenant, pending) && forall k :: k in pending ==> k in s.keys
    ensures Run(cfg, s, Repeated(TrimOne(p), |pending| + 1))
         == State(DeactivatedAll(s.keys, Ids(pending), s.clock), s.procs[p := Done], s.clock)
    decreases |pending|
  {
    var s1 := Apply(cfg, s, TrimOne(p));
    RunRepeated(cfg, s, TrimOne(p), |pending| + 1);
    if pending == [] {
      assert Repeated(TrimOne(p), 0) == [];
      assert DeactivatedAll(s.keys, Ids(pending), s.clock) == s.keys;
    } else {
      TrimsRun(cfg, s1, p, tenant, pending[1..]);
      assert Ids(pending) == {pending[0]} + Ids(pending[1..]);
      assert DeactivatedAll(s1.keys, Ids(pending[1..]), s.clock) == DeactivatedAll(s.keys, Ids(pending), s.clock);
    }
  }

  function RotationSteps(p: nat, tenant: Tenant, id: Id, publicKey: nat, version: int, list: seq<Id>, maxKeys: int): seq<Step> {
    [StartRotate(p, tenant), Swap(p), ReadVersion(p, version), InsertKey(p, id, publicKey), ListActive(p, list)]
    + Repeated(TrimOne(p), |Excess(list, maxKeys)| + 1)
  }

  /** The table just before the trim. */
  ghost function WithNext(t: Table, tenant: Tenant, now: Time, id: Id, version: int, publicKey: nat): Table {
    Supersede(t, tenant, now)[id := NewKey(tenant, version + 1, publicKey)]
  }

  lemma FirstFive(cfg: Config, s: State, p: nat, tenant: Tenant, id: Id, publicKey: nat, version: int, list: seq<Id>)
    requires p !in s.procs && id !in s.keys && CurrentKeys(s.keys, tenant) != {} && IsMaxVersion(s.keys, tenant, version)
    requires !KidTaken(s.keys, Kid(tenant, version + 1))
    requires ActiveListing(WithNext(s.keys, tenant, s.clock, id, version, publicKey), tenant, list)
    ensures Run(cfg, s, [StartRotate(p, tenant), Swap(p), ReadVersion(p, version), InsertKey(p, id, publicKey),
        ListActive(p, list)])
      == State(WithNext(s.keys, tenant, s.clock, id, version, publicKey),
               s.procs[p := Trimming(tenant, Excess(list, cfg.maxKeys))], s.clock)
  {
    hide ActiveListing, Excess, CurrentKeys, IsMaxVersion, KidTaken, Supersede, Apply;
    SupersedeKeepsVersions(s.keys, tenant, s.clock);
    SupersedeKeepsKids(s.keys, tenant, s.clock);
    var s1 := Goto(s, p, Rotating(tenant, s.clock));
    var s2 := State(Supersede(s.keys, tenant, s.clock), s1.procs[p := Reading(tenant)], s.clock);
    var s3 := Goto(s2, p, Inserting(tenant, version));
    var s4 := State(WithNext(s.keys, tenant, s.clock, id, version, publicKey), s3.procs[p := Listing(tenant)], s.clock);
    var s5 := Goto(s4, p, Trimming(tenant, Excess(list, cfg.maxKeys)));
    OneByOne(cfg, s, p, tenant, id, publicKey, version, list);
    Run5(cfg, s, [StartRotate(p, tenant), Swap(p), ReadVersion(p, version), InsertKey(p, id, publicKey), ListActive(p, list)]);
    assert s5.procs == s.procs[p := Trimming(tenant, Excess(list, cfg.maxKeys))];
  }

  lemma OneByOne(cfg: Config, s: State, p: nat, tenant: Tenant, id: Id, publicKey: nat, version: int, list: seq<Id>)
    ensures p !in s.procs ==> Apply(cfg, s, StartRotate(p, tenant)) == Goto(s, p, Rotating(tenant, s.clock))
    ensures forall s1: State ::
      p in s1.procs && s1.procs[p] == Rotating(tenant, s.clock) && CurrentKeys(s1.keys, tenant) != {} ==>
      Apply(cfg, s1, Swap(p)) == Goto(s1, p, Reading(tenant)).(keys := Supersede(s1.keys, tenant, s.clock))
    ensures forall s1: State :: p in s1.procs && s1.procs[p] == Reading(tenant) && IsMaxVersion(s1.keys, tenant, version) ==>
      Apply(cfg, s1, ReadVersion(p, version)) == Goto(s1, p, Inserting(tenant, version))
    ensures forall s1: State ::
      p in s1.procs && s1.procs[p] == Inserting(tenant, version) && id !in s1.keys
      && !KidTaken(s1.keys, Kid(tenant, version + 1)) ==>
      Apply(cfg, s1, InsertKey(p, id, publicKey))
        == Goto(s1, p, Listing(tenant)).(keys := s1.keys[id := NewKey(tenant, version + 1, publicKey)])
    ensures forall s1: State :: p in s1.procs && s1.procs[p] == Listing(tenant) && ActiveListing(s1.keys, tenant, list) ==>
      Apply(cfg, s1, ListActive(p, list)) == Goto(s1, p, Trimming(tenant, Excess(list, cfg.maxKeys)))
  {
    hide ActiveListing, Excess, CurrentKeys, IsMaxVersion, KidTaken, Supersede, NewKey;
  }

  lemma SupersedeKeepsKids(t: Table, tenant: Tenant, now: Time)
    ensures forall kid :: KidTaken(Supersede(t, tenant, now), kid) <==> KidTaken(t, kid)
  {
    var t' := Supersede(t, tenant, now);
    forall kid ensures KidTaken(t', kid) <==> KidTaken(t, kid) {
      if k :| k in t && t[k].kid == kid { assert k in t' && t'[k].kid == kid; }
      if k :| k in t' && t'[k].kid == kid { assert k in t && t[k].kid == kid; }
    }
  }

  /** A rotation that nothing interrupts: the new key is the next version and current, the old one
      is superseded, and exactly the excess is trimmed, as in one call. */
  lemma RotationIsItsSteps(cfg: Config, s: State, p: nat, tenant: Tenant, id: Id, publicKey: nat, version: int, list: seq<Id>)
    requires p !in s.procs && id !in s.keys && CurrentKeys(s.keys, tenant) != {} && IsMaxVersion(s.keys, tenant, version)
    requires !KidTaken(s.keys, Kid(tenant, version + 1))
    requires ActiveListing(WithNext(s.keys, tenant, s.clock, id, version, publicKey), tenant, list)
    ensures var s' := Run(cfg, s, RotationSteps(p, tenant, id, publicKey, version, list, cfg.maxKeys));
      && s' == State(Trimmed(WithNext(s.keys, tenant, s.clock, id, version, publicKey), tenant, cfg.maxKeys, s.clock),
                     s.procs[p := Done], s.clock)
      && Rotated(s.keys, s'.keys, tenant, s.clock, id, publicKey, cfg.maxKeys, s.clock)
  {
    var t := WithNext(s.keys, tenant, s.clock, id, version, publicKey);
    var first := [StartRotate(p, tenant), Swap(p), ReadVersion(p, version), InsertKey(p, id, publicKey), ListActive(p, list)];
    var excess := Excess(list, cfg.maxKeys);
    var steps := RotationSteps(p, tenant, id, publicKey, version, list, cfg.maxKeys);
    assert steps[..5] == first && steps[5..] == Repeated(TrimOne(p), |excess| + 1);
    RunSplit(cfg, s, steps, 5);
    FirstFive(cfg, s, p, tenant, id, publicKey, version, list);
    ExcessMeaning(t, tenant, list, cfg.maxKeys);
    var s5 := State(t, s.procs[p := Trimming(tenant, excess)], s.clock);
    hide Run, Apply;
    TrimsRun(cfg, s5, p, tenant, excess);
    assert s5.procs[p := Done] == s.procs[p := Done];
    ExcessTrimmed(t, tenant, list, cfg.maxKeys, s.clock);
    RotationMeaning(s.keys, t, tenant, s.clock, id, version, publicKey, cfg.maxKeys, s.clock);
  }

  lemma ExcessTrimmed(t: Table, tenant: Tenant, list: seq<Id>, maxKeys: int, now: Time)
    requires ActiveListing(t, tenant, list)
    ensures DeactivatedAll(t, Ids(Excess(list, maxKeys)), now) == Trimmed(t, tenant, maxKeys, now)
  {
    ExcessMeaning(t, tenant, list, maxKeys);
    hide Excess, NewerActive, ActiveListing;
  }

  /** Without a current key the rotation ends at the swap and changes no key. */
  lemma NoRotationWithoutCurrent(cfg: Config, s: State, p: nat, tenant: Tenant)
    requires p !in s.procs && CurrentKeys(s.keys, tenant) == {}
    ensures Run(cfg, s, [StartRotate(p, tenant), Swap(p)]) == State(s.keys, s.procs[p := Done], s.clock)
  {
    Run2(cfg, s, StartRotate(p, tenant), Swap(p));
    assert s.procs[p := Rotating(tenant, s.clock)][p := Done] == s.procs[p := Done];
  }

  /** The candidates that are past the overlap window. */
  ghost function Overdue(candidates: seq<Candidate>, ttlSeconds: int, now: Time): set<Id> {
    set c | c in candidates && c.supersededAt + ttlSeconds * 1000 < now :: c.id
  }

  lemma {:induction false} RetiresRun(cfg: Config, s: State, p: nat, now: Time, candidates: seq<Candidate>)
    requires p in s.procs && s.procs[p] == Retiring(now, candidates) && forall c :: c in candidates ==> c.id in s.keys
    ensures Run(cfg, s, Repeated(RetireOne(p), |candidates| + 1))
         == State(DeactivatedAll(s.keys, Overdue(candidates, cfg.ttlSeconds, now), now), s.procs[p := Done], s.clock)
    decreases |candidates|
  {
    hide Apply, Overdue, DeactivatedAll;
    RunRepeated(cfg, s, RetireOne(p), |candidates| + 1);
    if candidates == [] {
      assert Repeated(RetireOne(p), 0) == [];
      RetiresEnd(cfg, s, p, now);
    } else {
      OneRetired(cfg, s, p, now, candidates);
      RetiresRun(cfg, Apply(cfg, s, RetireOne(p)), p, now, candidates[1..]);
    }
  }

  lemma RetiresEnd(cfg: Config, s: State, p: nat, now: Time)
    requires p in s.procs && s.procs[p] == Retiring(now, [])
    ensures Apply(cfg, s, RetireOne(p)) == State(DeactivatedAll(s.keys, Overdue([], cfg.ttlSeconds, now), now),
        s.procs[p := Done], s.clock)
  {
    assert DeactivatedAll(s.keys, Overdue([], cfg.ttlSeconds, now), now) == s.keys;
  }

  lemma OneRetired(cfg: Config, s: State, p: nat, now: Time, candidates: seq<Candidate>)
    requires p in s.procs && s.procs[p] == Retiring(now, candidates) && candidates != []
    requires forall c :: c in candidates ==> c.id in s.keys
    ensures var s1 := Apply(cfg, s, RetireOne(p));
      && p in s1.procs && s1.procs[p] == Retiring(now, candidates[1..]) && s1.procs[p := Done] == s.procs[p := Done]
      && s1.clock == s.clock && (forall c :: c in candidates[1..] ==> c.id in s1.keys)
      && DeactivatedAll(s1.keys, Overdue(candidates[1..], cfg.ttlSeconds, now), now)
           == DeactivatedAll(s.keys, Overdue(candidates, cfg.ttlSeconds, now), now)
  {
    var s1 := Apply(cfg, s, RetireOne(p));
    var c := candidates[0];
    assert Overdue(candidates, cfg.ttlSeconds, now) ==
      (if c.supersededAt + cfg.ttlSeconds * 1000 < now then {c.id} else {}) + Overdue(candidates[1..], cfg.ttlSeconds, now);
    hide Overdue;
    assert DeactivatedAll(s1.keys, Overdue(candidates[1..], cfg.ttlSeconds, now), now)
        == DeactivatedAll(s.keys, Overdue(candidates, cfg.ttlSeconds, now), now);
  }

  /** A cron run that nothing interrupts retires exactly the keys that the one call retires. */
  lemma RetirementIsItsSteps(cfg: Config, s: State, p: nat, list: seq<Candidate>)
    requires p !in s.procs && SweepAnswer(s.keys, list)
    ensures Run(cfg, s, [Sweep(p, list), ReadClock(p)] + Repeated(RetireOne(p), |list| + 1))
         == State(Retired(s.keys, cfg.ttlSeconds, s.clock), s.procs[p := Done], s.clock)
  {
    var steps := [Sweep(p, list), ReadClock(p)] + Repeated(RetireOne(p), |list| + 1);
    var s2 := State(s.keys, s.procs[p := Retiring(s.clock, list)], s.clock);
    RunSplit(cfg, s, steps, 2);
    assert steps[..2] == [Sweep(p, list), ReadClock(p)] && steps[2..] == Repeated(RetireOne(p), |list| + 1);
    Run2(cfg, s, Sweep(p, list), ReadClock(p));
    assert s.procs[p := Swept(list)][p := Retiring(s.clock, list)] == s2.procs;
    RetiresRun(cfg, s2, p, s.clock, list);
    assert s2.procs[p := Done] == s.procs[p := Done];
    OverdueRetired(s.keys, list, cfg.ttlSeconds, s.clock);
  }

  lemma OverdueRetired(t: Table, list: seq<Candidate>, ttlSeconds: int, now: Time)
    requires SweepAnswer(t, list)
    ensures DeactivatedAll(t, Overdue(list, ttlSeconds, now), now) == Retired(t, ttlSeconds, now)
  {
    forall k | k in t
      ensures k in Overdue(list, ttlSeconds, now) <==> !t[k].isCurrent && t[k].deactivatedAt.None? && Expired(t[k],
          ttlSeconds, now)
    {
      if !t[k].isCurrent && t[k].deactivatedAt.None? && t[k].supersededAt.Some? {
        assert Candidate(k, t[k].supersededAt.value) in list;
      }
    }
  }
}
