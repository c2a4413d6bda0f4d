/**
 Main results on refresh-token families: every family is one chain, bindings never change
 along it, and exactly when a revoked family can come back to life.
 */
module RefreshTokenTheorems {
  import opened Wrappers
  import opened Scopes
  import opened RefreshTokens
  import opened RefreshTokenRuns

  // ---------------------------------------------------------------------------------------
  // Every family is a single chain
  // ---------------------------------------------------------------------------------------

  /** `c` lists the tokens of the family from the root to the tail, each the child of the last. */
  ghost predicate IsChain(t: Table, family: Family, c: seq<Id>) {
    && |c| > 0
    && (forall i :: 0 <= i < |c| ==> c[i] in t && t[c[i]].familyId == family)
    && (forall id :: id in t && t[id].familyId == family ==> id in c)
    && t[c[0]].parentId == None
    && (forall i :: 0 < i < |c| ==> t[c[i]].parentId == Some(c[i - 1]))
  }

  ghost predicate Chained(t: Table, family: Family) {
    exists c :: IsChain(t, family, c)
  }

  lemma ChainSurvivesUpdate(t: Table, t': Table, family: Family, c: seq<Id>)
    requires IsChain(t, family, c) && Evolves(t, t')
    requires forall id :: id in t' && t'[id].familyId == family ==> id in t
    ensures IsChain(t', family, c)
  {}

  /** A childless token of the family is the tail, so its new child extends the chain. */
  lemma ChainGrows(t: Table, family: Family, c: seq<Id>, parent: Id, id: Id, row: Token)
    requires IsChain(t, family, c) && id !in t
    requires parent in t && t[parent].familyId == family && !HasChild(t, parent)
    requires row.parentId == Some(parent) && row.familyId == family
    ensures IsChain(t[id := row], family, c + [id])
  {
    forall k | 0 <= k < |c| - 1 ensures c[k] != parent { assert t[c[k + 1]].parentId == Some(c[k]); }
    assert c[|c| - 1] == parent;
  }

  lemma ChildExtendsChain(s: State, t': Table, r: nat, id: Id)
    requires ChildAdded(s, t', r, id) && RequestOk(s.tokens, s.requests[r])
    requires Chained(s.tokens, t'[id].familyId)
    ensures Chained(t', t'[id].familyId)
  {
    var c :| IsChain(s.tokens, t'[id].familyId, c);
    ChainGrows(s.tokens, t'[id].familyId, c, s.requests[r].id, id, t'[id]);
  }

  lemma ChainStep(s: State, s': State, family: Family)
    requires Shape(s, s') && Chained(s.tokens, family)
    requires forall r :: r in s.requests ==> RequestOk(s.tokens, s.requests[r])
    ensures Chained(s'.tokens, family)
  {
    if r, id :| ChildAdded(s, s'.tokens, r, id) && s'.tokens[id].familyId == family {
      ChildExtendsChain(s, s'.tokens, r, id);
    } else {
      var c :| IsChain(s.tokens, family, c);
      assert c[0] in s.tokens;
      ChainSurvivesUpdate(s.tokens, s'.tokens, family, c);
    }
  }

  lemma NewTokenChained(s: State, s': State, id: Id)
    requires Shape(s, s') && id !in s.tokens && id in s'.tokens
    requires forall r :: r in s.requests ==> RequestOk(s.tokens, s.requests[r])
    requires forall i :: i in s.tokens ==> Chained(s.tokens, s.tokens[i].familyId)
    ensures Chained(s'.tokens, s'.tokens[id].familyId)
  {
    if r :| ChildAdded(s, s'.tokens, r, id) {
      assert RequestOk(s.tokens, s.requests[r]);
      assert Chained(s.tokens, s.tokens[s.requests[r].id].familyId);
      ChildExtendsChain(s, s'.tokens, r, id);
    } else {
      assert RootAdded(s.tokens, s'.tokens, id);
      assert IsChain(s'.tokens, s'.tokens[id].familyId, [id]);
    }
  }

  ghost predicate AllChained(t: Table) {
    forall i :: i in t ==> Chained(t, t[i].familyId)
  }

  lemma StepKeepsChains(cfg: Config, s: State, a: Step)
    requires Inv(cfg, s) && AllChained(s.tokens)
    ensures AllChained(Apply(cfg, s, a).tokens)
  {
    var s' := Apply(cfg, s, a);
    StepKeepsInv(cfg, s, a);
    StepShape(cfg, s, a);
    hide Apply, Chained;
    forall i | i in s'.tokens ensures Chained(s'.tokens, s'.tokens[i].familyId) {
      if i in s.tokens {
        assert CopyOf(s'.tokens, i, s.tokens[i]);
        ChainStep(s, s', s.tokens[i].familyId);
      } else {
        NewTokenChained(s, s', i);
      }
    }
  }

  lemma {:induction false} RunKeepsChains(cfg: Config, s: State, steps: seq<Step>)
    requires Inv(cfg, s) && AllChained(s.tokens)
    ensures AllChained(Run(cfg, s, steps).tokens)
    decreases |steps|
  {
    hide Inv, Apply, AllChained;
    if steps != [] {
      StepKeepsInv(cfg, s, steps[0]);
      StepKeepsChains(cfg, s, steps[0]);
      RunKeepsChains(cfg, Apply(cfg, s, steps[0]), steps[1..]);
    }
  }

  // ---------------------------------------------------------------------------------------
  // What holds along a chain
  // ---------------------------------------------------------------------------------------

  /** From an earlier to a later token: same bindings, narrower scope. */
  lemma {:induction false} AlongChain(cfg: Config, t: Table, family: Family, c: seq<Id>, i: nat, j: nat)
    requires TableOk(cfg, t) && IsChain(t, family, c) && i <= j < |c|
    ensures SameGrant(t[c[j]], t[c[i]]) && NarrowerScope(t[c[j]].scope, t[c[i]].scope)
    decreases j - i
  {
    if i < j {
      AlongChain(cfg, t, family, c, i, j - 1);
      assert ParentOk(t, c[j]);
    }
  }

  /** Only the tail of a chain can be unused. */
  lemma OnlyTailUnused(t: Table, family: Family, c: seq<Id>)
    requires AllParentsOk(t) && IsChain(t, family, c)
    ensures forall i :: 0 <= i < |c| - 1 ==> t[c[i]].usedAt.Some?
    ensures forall id :: id in t && t[id].familyId == family && t[id].usedAt.None? ==> id == c[|c| - 1]
  {
    forall i | 0 <= i < |c| - 1 ensures t[c[i]].usedAt.Some? {
      assert ParentOk(t, c[i + 1]) && t[c[i + 1]].parentId == Some(c[i]);
    }
    forall id | id in t && t[id].familyId == family && t[id].usedAt.None? ensures id == c[|c| - 1] {
      var i :| 0 <= i < |c| && c[i] == id;
    }
  }

  ghost predicate Lineage(cfg: Config, t: Table, c: seq<Id>)
    requires |c| > 0 && forall i :: 0 <= i < |c| ==> c[i] in t
  {
    var root := t[c[0]];
    && (forall i :: 0 <= i < |c| - 1 ==> t[c[i]].usedAt.Some?)
    && (forall i, j :: 0 <= i <= j < |c| ==>
          SameGrant(t[c[j]], t[c[i]]) && NarrowerScope(t[c[j]].scope, t[c[i]].scope))
    && (forall i :: 0 <= i < |c| ==> t[c[i]].expiresAt <= root.createdAt + cfg.absoluteMs)
    && (forall i :: 0 <= i < |c| && t[c[i]].usedAt.Some? ==>
          t[c[i]].usedAt.value <= root.createdAt + cfg.absoluteMs)
  }

  lemma ChainLineage(cfg: Config, t: Table, family: Family, c: seq<Id>)
    requires TableOk(cfg, t) && IsChain(t, family, c)
    ensures Lineage(cfg, t, c)
  {
    OnlyTailUnused(t, family, c);
    forall i, j | 0 <= i <= j < |c|
      ensures SameGrant(t[c[j]], t[c[i]]) && NarrowerScope(t[c[j]].scope, t[c[i]].scope)
    {
      AlongChain(cfg, t, family, c, i, j);
    }
    assert forall i :: 0 <= i < |c| ==> RowOk(cfg, t[c[i]]);
  }

  /** In every interleaving each family is one chain: all but the tail are used, user, client,
      tenant, session and absolute expiry never change, scopes only narrow, and no token is
      alive or consumed later than the root's creation plus the absolute lifetime. */
  lemma FamiliesAreChains(cfg: Config, clock: Time, steps: seq<Step>, id: Id)
    requires id in Run(cfg, Start(clock), steps).tokens
    ensures var t := Run(cfg, Start(clock), steps).tokens;
      exists c :: IsChain(t, t[id].familyId, c) && Lineage(cfg, t, c)
  {
    RunKeepsInv(cfg, Start(clock), steps);
    RunKeepsChains(cfg, Start(clock), steps);
    var t := Run(cfg, Start(clock), steps).tokens;
    var c :| IsChain(t, t[id].familyId, c);
    ChainLineage(cfg, t, t[id].familyId, c);
  }

  /** Each parent is rotated successfully by at most one request, in every interleaving. */
  lemma OneWinnerPerParent(cfg: Config, clock: Time, steps: seq<Step>, r1: nat, r2: nat, c1: Id, c2: Id)
    requires var s := Run(cfg, Start(clock), steps);
      && r1 in s.requests && Won(s.requests[r1], c1)
      && r2 in s.requests && Won(s.requests[r2], c2)
      && c1 in s.tokens && c2 in s.tokens && s.tokens[c1].parentId == s.tokens[c2].parentId
    ensures r1 == r2 && c1 == c2
  {
    RunKeepsInv(cfg, Start(clock), steps);
    var s := Run(cfg, Start(clock), steps);
    assert RequestOk(s.tokens, s.requests[r1]);
  }

  /** The re-read cannot tell the winner of the UPDATE from a loser: every request that reaches
      it goes on to the INSERT, and the UNIQUE constraint on parent_id alone decides. */
  lemma ReReadNeverDetectsLoser(cfg: Config, clock: Time, steps: seq<Step>, r: nat)
    requires var s := Run(cfg, Start(clock), steps); r in s.requests && s.requests[r].Confirming?
    ensures var s := Run(cfg, Start(clock), steps); DoConfirm(s, r).requests[r].Preparing?
  {
    RunKeepsInv(cfg, Start(clock), steps);
    var s := Run(cfg, Start(clock), steps);
    assert RequestOk(s.tokens, s.requests[r]);
  }

  // ---------------------------------------------------------------------------------------
  // Revocation against requests already under way
  // ---------------------------------------------------------------------------------------

  /** What a revocation is aimed at. */
  datatype Target = OfFamily(family: Family) | OfSession(session: string)

  predicate Hits(g: Target, row: Token) {
    match g
    case OfFamily(family) => row.familyId == family
    case OfSession(session) => row.sid == Some(session)
  }

  ghost predicate HitsRevoked(t: Table, g: Target) {
    forall id :: id in t && Hits(g, t[id]) ==> t[id].revoked
  }

  /** The step creates a first token of the session. A family is never founded twice. */
  predicate Founds(a: Step, g: Target) {
    g.OfSession? && a.Create? && OrNull(a.sid) == Some(g.session)
  }

  ghost predicate NoFounding(steps: seq<Step>, g: Target) {
    forall i :: 0 <= i < |steps| ==> !Founds(steps[i], g)
  }

  ghost predicate NoCreation(steps: seq<Step>) {
    forall i :: 0 <= i < |steps| ==> !steps[i].Create?
  }

  /** A request that has read a childless token, unrevoked at the time, and can still insert its
      child. */
  ghost predicate Eligible(s: State, r: nat, g: Target) {
    && r in s.requests
    && match s.requests[r]
       case Found(id, existing, clientId, requested) =>
         && Hits(g, existing) && !HasChild(s.tokens, id) && existing.usedAt.None?
         && !Unusable(existing, clientId, s.clock) && GrantedScope(requested, existing.scope).Ok?
       case Consuming(id, existing, _, requested) =>
         Hits(g, existing) && !HasChild(s.tokens, id) && GrantedScope(requested, existing.scope).Ok?
       case Confirming(id, existing, requested) =>
         Hits(g, existing) && !HasChild(s.tokens, id) && GrantedScope(requested, existing.scope).Ok?
       case Preparing(id, existing, requested) =>
         Hits(g, existing) && !HasChild(s.tokens, id) && GrantedScope(requested, existing.scope).Ok?
       case Inserting(id, existing, _, _) =>
         Hits(g, existing) && !HasChild(s.tokens, id)
       case _ => false
  }

  ghost predicate FamilyExists(t: Table, family: Family) {
    exists id :: id in t && t[id].familyId == family
  }

  /** A family that exists, or a session with a name. */
  ghost predicate Aimed(t: Table, g: Target) {
    match g
    case OfFamily(family) => FamilyExists(t, family)
    case OfSession(session) => session != ""
  }

  /** Revoked, and no request under way can add to it. */
  ghost predicate Down(s: State, g: Target) {
    && Aimed(s.tokens, g) && HitsRevoked(s.tokens, g)
    && forall r :: !Eligible(s, r, g)
  }

  lemma HasChildMonotone(t: Table, t': Table, id: Id)
    requires HasChild(t, id) && Evolves(t, t')
    ensures HasChild(t', id)
  {}

  /** No root that this step adds is hit. */
  ghost predicate RootsMiss(s: State, s': State, g: Target) {
    forall id :: RootAdded(s.tokens, s'.tokens, id) ==> !Hits(g, s'.tokens[id])
  }

  lemma UnfoundedRootsMiss(cfg: Config, s: State, a: Step, g: Target)
    requires Inv(cfg, s) && Aimed(s.tokens, g) && !Founds(a, g)
    ensures RootsMiss(s, Apply(cfg, s, a), g)
  {
    if a.Insert? {
      InsertAddsChild(s, a.r, a.newId, a.plain);
    } else if !a.Create? {
      OthersKeepKeys(cfg, s, a);
    }
  }

  lemma DownKeepsRevoked(s: State, s': State, g: Target)
    requires Shape(s, s') && Down(s, g) && RootsMiss(s, s', g)
    ensures Aimed(s'.tokens, g) && HitsRevoked(s'.tokens, g)
  {
    if g.OfFamily? {
      var member :| member in s.tokens && s.tokens[member].familyId == g.family;
      assert CopyOf(s'.tokens, member, s.tokens[member]);
    }
    forall r, i | ChildAdded(s, s'.tokens, r, i) ensures !Hits(g, s'.tokens[i]) {
      assert !Eligible(s, r, g);
    }
    forall id | id in s'.tokens && Hits(g, s'.tokens[id]) ensures s'.tokens[id].revoked {
      if id in s.tokens { assert CopyOf(s'.tokens, id, s.tokens[id]); }
    }
  }

  lemma DownKeepsIneligible(s: State, s': State, g: Target, r: nat)
    requires Shape(s, s') && Down(s, g) && Moves(s, s', r)
    ensures !Eligible(s', r, g)
  {
    assert !Eligible(s, r, g);
    if r in s'.requests && r in s.requests && !s.requests[r].Revoking? && !s.requests[r].Done? {
      if HasChild(s.tokens, s.requests[r].id) {
        HasChildMonotone(s.tokens, s'.tokens, s.requests[r].id);
      }
    }
  }

  lemma DownStep(cfg: Config, s: State, a: Step, g: Target)
    requires Inv(cfg, s) && Down(s, g) && !Founds(a, g)
    ensures Down(Apply(cfg, s, a), g)
  {
    var s' := Apply(cfg, s, a);
    StepShape(cfg, s, a);
    UnfoundedRootsMiss(cfg, s, a, g);
    DownKeepsRevoked(s, s', g);
    RequestsStay(cfg, s, a);
    forall r ensures !Eligible(s', r, g) {
      StepMoves(cfg, s, a, r);
      DownKeepsIneligible(s, s', g, r);
    }
  }

  /** What a request begun after the revocation can still be doing with such tokens. */
  ghost predicate Hopeless(t: Table, q: Request, g: Target) {
    match q
    case Found(_, existing, _, _) => Hits(g, existing) ==> existing.revoked
    case Done(Rotated(c)) => c in t && !Hits(g, t[c])
    case Done(Replayed(c)) => c in t && !Hits(g, t[c])
    case Done(_) => true
    case _ => !Hits(g, q.existing)
  }

  lemma HopelessStep(s: State, s': State, g: Target, r: nat)
    requires AllParentsOk(s.tokens) && Shape(s, s') && Down(s, g) && Moves(s, s', r)
    requires r in s'.requests
    requires r in s.requests ==> RequestOk(s.tokens, s.requests[r]) && Hopeless(s.tokens, s.requests[r], g)
    ensures Hopeless(s'.tokens, s'.requests[r], g)
  {
    if r in s.requests {
      match s.requests[r]
      case Done(Rotated(c)) => assert CopyOf(s'.tokens, c, s.tokens[c]);
      case Done(Replayed(c)) => assert CopyOf(s'.tokens, c, s.tokens[c]);
      case SeekingChild(id, existing) =>
        if HasChild(s.tokens, id) {
          var c := FindChild(s.tokens, id).value;
          assert ParentOk(s.tokens, c) && CopyOf(s'.tokens, c, s.tokens[c]);
        }
      case _ =>
    }
  }

  /** Once a family or a session is revoked with nothing eligible in flight, it stays revoked for
      ever and no request begun later gets a token of it, whatever else runs. */
  lemma {:induction false} RevokedStaysDown(cfg: Config, s: State, steps: seq<Step>, g: Target, earlier: set<nat>)
    requires Inv(cfg, s) && Down(s, g) && NoFounding(steps, g)
    requires forall r :: r in s.requests && r !in earlier ==> Hopeless(s.tokens, s.requests[r], g)
    ensures var s' := Run(cfg, s, steps);
      && HitsRevoked(s'.tokens, g)
      && forall r :: r in s'.requests && r !in earlier ==> Hopeless(s'.tokens, s'.requests[r], g)
    decreases |steps|
  {
    hide Inv, Down, Apply, Hopeless, Founds, HitsRevoked;
    if steps == [] {
      DownIsRevoked(s, g);
    } else {
      var s' := Apply(cfg, s, steps[0]);
      StepKeepsInv(cfg, s, steps[0]);
      DownStep(cfg, s, steps[0], g);
      forall r | r in s'.requests && r !in earlier ensures Hopeless(s'.tokens, s'.requests[r], g) {
        StepKeepsHopeless(cfg, s, steps[0], g, r);
      }
      assert forall i :: 0 <= i < |steps| - 1 ==> steps[1..][i] == steps[i + 1];
      RevokedStaysDown(cfg, s', steps[1..], g, earlier);
    }
  }

  lemma DownIsRevoked(s: State, g: Target)
    requires Down(s, g)
    ensures HitsRevoked(s.tokens, g)
  {}

  lemma StepKeepsHopeless(cfg: Config, s: State, a: Step, g: Target, r: nat)
    requires Inv(cfg, s) && Down(s, g) && r in Apply(cfg, s, a).requests
    requires r in s.requests ==> Hopeless(s.tokens, s.requests[r], g)
    ensures var s' := Apply(cfg, s, a); Hopeless(s'.tokens, s'.requests[r], g)
  {
    StepShape(cfg, s, a);
    RequestsStay(cfg, s, a);
    StepMoves(cfg, s, a, r);
    hide Apply, Shape, Moves, Hopeless, Down;
    HopelessStep(s, Apply(cfg, s, a), g, r);
  }

  function Stage(q: Request): nat {
    match q
    case Found(_, _, _, _) => 5
    case Consuming(_, _, _, _) => 4
    case Confirming(_, _, _) => 3
    case Preparing(_, _, _) => 2
    case Inserting(_, _, _, _) => 1
    case _ => 0
  }

  function NextStep(r: nat, q: Request): Step {
    match q
    case Found(_, _, _, _) => Check(r)
    case Consuming(_, _, _, _) => Consume(r)
    case Confirming(_, _, _) => Confirm(r)
    case _ => Prepare(r)
  }

  lemma EligibleAdvances(cfg: Config, s: State, r: nat, g: Target)
    requires Eligible(s, r, g) && !s.requests[r].Inserting? && RequestOk(s.tokens, s.requests[r])
    ensures var s' := Apply(cfg, s, NextStep(r, s.requests[r]));
      Eligible(s', r, g) && Stage(s'.requests[r]) < Stage(s.requests[r])
  {
    var q := s.requests[r];
    var s' := Apply(cfg, s, NextStep(r, q));
    if q.Consuming? {
      assert s' == DoConsume(s, r);
      MarkUsedAddsNoChild(s.tokens, q.id, q.now, q.id);
    } else {
      assert s'.tokens == s.tokens;
    }
  }

  /** An eligible request left to itself inserts an unrevoked child. */
  lemma {:induction false} EligibleRegains(cfg: Config, s: State, r: nat, g: Target) returns (steps: seq<Step>)
    requires Inv(cfg, s) && Eligible(s, r, g) && Aimed(s.tokens, g)
    ensures !HitsRevoked(Run(cfg, s, steps).tokens, g) && NoFounding(steps, g) && NoCreation(steps)
    decreases Stage(s.requests[r])
  {
    hide Inv, Eligible, Apply, HitsRevoked, RequestOk, Aimed, Stage, NextStep, Founds;
    EligibleInFlight(cfg, s, r, g);
    if s.requests[r].Inserting? {
      steps := InsertRegains(cfg, s, r, g);
    } else {
      var a := NextStep(r, s.requests[r]);
      StepKeepsInv(cfg, s, a);
      EligibleAdvances(cfg, s, r, g);
      StepKeepsAim(cfg, s, a, g);
      var rest := EligibleRegains(cfg, Apply(cfg, s, a), r, g);
      steps := [a] + rest;
      assert steps[1..] == rest;
    }
  }

  lemma EligibleInFlight(cfg: Config, s: State, r: nat, g: Target)
    requires Inv(cfg, s) && Eligible(s, r, g)
    ensures r in s.requests && RequestOk(s.tokens, s.requests[r])
    ensures !Founds(NextStep(r, s.requests[r]), g) && !NextStep(r, s.requests[r]).Create?
  {}

  lemma InsertRegains(cfg: Config, s: State, r: nat, g: Target) returns (steps: seq<Step>)
    requires Eligible(s, r, g) && Aimed(s.tokens, g) && s.requests[r].Inserting?
    ensures !HitsRevoked(Run(cfg, s, steps).tokens, g) && NoFounding(steps, g) && NoCreation(steps)
  {
    var id := FreshNumber(s.tokens.Keys);
    var plain := FreshNumber(set i | i in s.tokens :: s.tokens[i].tokenHash.plaintext);
    assert !HashIn(s.tokens, Sha256(plain));
    steps := [Insert(r, id, plain)];
    assert steps[1..] == [];
    var s' := DoInsert(s, r, id, plain);
    assert Run(cfg, s, steps) == s';
    assert id in s'.tokens && Hits(g, s'.tokens[id]) && !s'.tokens[id].revoked;
  }

  lemma StepKeepsAim(cfg: Config, s: State, a: Step, g: Target)
    requires Inv(cfg, s) && Aimed(s.tokens, g)
    ensures Aimed(Apply(cfg, s, a).tokens, g)
  {
    StepShape(cfg, s, a);
    if g.OfFamily? {
      var member :| member in s.tokens && s.tokens[member].familyId == g.family;
      assert CopyOf(Apply(cfg, s, a).tokens, member, s.tokens[member]);
    }
  }

  /** Exactly when a revocation is final: what was revoked can regain a live token if and only if
      some request had read a token of it before the revocation, which is childless, and asks for
      an acceptable scope. Revocation claims therefore hold for requests run one at a time. */
  lemma FinalIff(cfg: Config, s: State, g: Target)
    requires Inv(cfg, s) && Aimed(s.tokens, g) && HitsRevoked(s.tokens, g)
    ensures (exists steps :: NoFounding(steps, g) && !HitsRevoked(Run(cfg, s, steps).tokens, g))
       <==> (exists r :: Eligible(s, r, g))
  {
    if r :| Eligible(s, r, g) {
      var steps := EligibleRegains(cfg, s, r, g);
      assert NoFounding(steps, g) && !HitsRevoked(Run(cfg, s, steps).tokens, g);
    } else {
      forall steps | NoFounding(steps, g) ensures HitsRevoked(Run(cfg, s, steps).tokens, g) {
        RevokedStaysDown(cfg, s, steps, g, s.requests.Keys);
      }
    }
  }

  /** For a family, over all runs. */
  lemma RevocationFinalIff(cfg: Config, s: State, family: Family)
    requires Inv(cfg, s) && FamilyExists(s.tokens, family) && AllRevoked(s.tokens, family)
    ensures (exists steps :: !AllRevoked(Run(cfg, s, steps).tokens, family))
       <==> (exists r :: Eligible(s, r, OfFamily(family)))
  {
    hide Inv, Run, Eligible;
    FinalIff(cfg, s, OfFamily(family));
    assert forall steps :: NoFounding(steps, OfFamily(family));
    assert forall t :: HitsRevoked(t, OfFamily(family)) == AllRevoked(t, family);
  }

  /** For all tokens of a session, as revoked at logout, over all runs in which no new family is
      started in that session. */
  lemma SessionRevocationFinalIff(cfg: Config, s: State, session: string)
    requires Inv(cfg, s) && session != ""
    ensures var s1 := s.(tokens := RevokeSidRows(s.tokens, session)); var g := OfSession(session);
      (exists steps :: NoFounding(steps, g) && !HitsRevoked(Run(cfg, s1, steps).tokens, g))
      <==> (exists r :: Eligible(s1, r, g))
  {
    hide Inv, Run, Eligible, NoFounding;
    StepKeepsInv(cfg, s, RevokeSid(session));
    FinalIff(cfg, s.(tokens := RevokeSidRows(s.tokens, session)), OfSession(session));
  }

  // ---------------------------------------------------------------------------------------
  // One call at a time
  // ---------------------------------------------------------------------------------------

  function CallSteps(r: nat, plain: Plaintext, clientId: string, requested: Option<string>,
                     newId: Id, newPlain: Plaintext): seq<Step>
  {
    [Find(r, plain, clientId, requested), Check(r), Consume(r), Confirm(r), Prepare(r),
     Insert(r, newId, newPlain), CheckGrace(r), SeekChild(r), RevokeReplayed(r)]
  }

  ghost function Apply3(cfg: Config, s: State, a: Step, b: Step, c: Step): State {
    Apply(cfg, Apply(cfg, Apply(cfg, s, a), b), c)
  }

  lemma RunTakes3(cfg: Config, s: State, steps: seq<Step>)
    requires |steps| >= 3
    ensures Run(cfg, s, steps) == Run(cfg, Apply3(cfg, s, steps[0], steps[1], steps[2]), steps[3..])
  {
    var s1 := Apply(cfg, s, steps[0]);
    var s2 := Apply(cfg, s1, steps[1]);
    assert steps[1..][0] == steps[1] && steps[1..][1..] == steps[2..];
    assert steps[2..][0] == steps[2] && steps[2..][1..] == steps[3..];
    assert Run(cfg, s, steps) == Run(cfg, s1, steps[1..]);
    assert Run(cfg, s1, steps[1..]) == Run(cfg, s2, steps[2..]);
  }

  lemma RunTakes9(cfg: Config, s: State, steps: seq<Step>)
    requires |steps| == 9
    ensures var s1 := Apply3(cfg, s, steps[0], steps[1], steps[2]);
      var s2 := Apply3(cfg, s1, steps[3], steps[4], steps[5]);
      Run(cfg, s, steps) == Apply3(cfg, s2, steps[6], steps[7], steps[8])
  {
    var s1 := Apply3(cfg, s, steps[0], steps[1], steps[2]);
    var s2 := Apply3(cfg, s1, steps[3], steps[4], steps[5]);
    RunTakes3(cfg, s, steps);
    RunTakes3(cfg, s1, steps[3..]);
    RunTakes3(cfg, s2, steps[3..][3..]);
  }

  lemma ConsumeKeepsFresh(s: State, r: nat, plain: Plaintext, clientId: string, requested: Option<string>,
                          newId: Id, newPlain: Plaintext)
    requires newId !in s.tokens && !HashIn(s.tokens, Sha256(newPlain))
    ensures var s1 := AfterConsume(s, r, plain, clientId, requested);
      newId !in s1.tokens && !HashIn(s1.tokens, Sha256(newPlain))
  {}

  /** Reading, checking and consuming. */
  ghost function AfterConsume(s: State, r: nat, plain: Plaintext, clientId: string, requested: Option<string>): State {
    match FindByHash(s.tokens, Sha256(plain))
    case None => Goto(s, r, Done(Rejected))
    case Some(id) =>
      var row := s.tokens[id];
      if Unusable(row, clientId, s.clock) then Goto(s, r, Done(Rejected))
      else if row.usedAt.Some? then Goto(s, r, Replaying(id, row))
      else Goto(s, r, Confirming(id, row, requested)).(tokens := MarkUsed(s.tokens, id, s.clock))
  }

  lemma FindAndCheck(s: State, r: nat, plain: Plaintext, clientId: string, requested: Option<string>)
    requires r !in s.requests
    ensures DoCheck(DoFind(s, r, plain, clientId, requested), r) == Goto(s, r,
      match FindByHash(s.tokens, Sha256(plain))
      case None => Done(Rejected)
      case Some(id) =>
        var row := s.tokens[id];
        if Unusable(row, clientId, s.clock) then Done(Rejected)
        else if row.usedAt.Some? then Replaying(id, row)
        else Consuming(id, row, s.clock, requested))
  {
    hide Unusable;
  }

  lemma FirstThree(cfg: Config, s: State, r: nat, plain: Plaintext, clientId: string, requested: Option<string>)
    requires r !in s.requests
    ensures Apply3(cfg, s, Find(r, plain, clientId, requested), Check(r), Consume(r))
         == AfterConsume(s, r, plain, clientId, requested)
  {
    hide Unusable, MarkUsed, FindByHash, DoFind, DoCheck;
    FindAndCheck(s, r, plain, clientId, requested);
    var s2 := DoCheck(DoFind(s, r, plain, clientId, requested), r);
    assert Apply3(cfg, s, Find(r, plain, clientId, requested), Check(r), Consume(r)) == DoConsume(s2, r);
  }

  /** Confirming, choosing the scope and inserting. */
  ghost predicate MiddleResult(cfg: Config, s: State, s': State, r: nat, newId: Id, newPlain: Plaintext)
    requires r in s.requests
  {
    match s.requests[r]
    case Confirming(id, row, requested) =>
      id in s.tokens && s.tokens[id].usedAt.Some? ==>
        s' == (match GrantedScope(requested, row.scope)
               case Err(_) => Goto(s, r, Done(ScopeRefused))
               case Ok(scope) =>
                 if HasChild(s.tokens, id) then Goto(s, r, Done(DuplicateChild))
                 else
                   var child := ChildRow(id, row, newPlain, scope,
                     ClampExpiry(s.clock, cfg.slidingMs, row.absoluteExpiresAt), s.clock);
                   Goto(s, r, Done(Rotated(newId))).(tokens := s.tokens[newId := child]))
    case Replaying(_, _) => s' == s
    case Done(_) => s' == s
    case _ => true
  }

  lemma MiddleThree(cfg: Config, s: State, r: nat, newId: Id, newPlain: Plaintext)
    requires r in s.requests && newId !in s.tokens && !HashIn(s.tokens, Sha256(newPlain))
    ensures MiddleResult(cfg, s, Apply3(cfg, s, Confirm(r), Prepare(r), Insert(r, newId, newPlain)), r, newId, newPlain)
  {
    hide GrantedScope, HasChild, HashIn, ClampExpiry;
    var s1 := DoConfirm(s, r);
    var s2 := DoPrepare(cfg, s1, r);
    assert Apply3(cfg, s, Confirm(r), Prepare(r), Insert(r, newId, newPlain)) == DoInsert(s2, r, newId, newPlain);
  }

  /** Handling a replay. */
  ghost predicate LastResult(cfg: Config, s: State, s': State, r: nat)
    requires r in s.requests
  {
    match s.requests[r]
    case Replaying(id, row) =>
      var (t, outcome) := ReplayCall(cfg, s.tokens, s.clock, id, row);
      s' == Goto(s, r, Done(outcome)).(tokens := t)
    case Done(_) => s' == s
    case _ => true
  }

  lemma LastThree(cfg: Config, s: State, r: nat)
    requires r in s.requests
    ensures LastResult(cfg, s, Apply3(cfg, s, CheckGrace(r), SeekChild(r), RevokeReplayed(r)), r)
  {
    hide InGrace, HasChild, RevokeFamilyRows;
    var s1 := DoCheckGrace(cfg, s, r);
    var s2 := DoSeekChild(s1, r);
    assert Apply3(cfg, s, CheckGrace(r), SeekChild(r), RevokeReplayed(r)) == DoRevokeReplayed(s2, r);
  }

  lemma ReplayPhases(cfg: Config, s: State, s2: State, s3: State, r: nat, plain: Plaintext, clientId: string,
                       requested: Option<string>, newId: Id, newPlain: Plaintext)
    requires r !in s.requests && !AfterConsume(s, r, plain, clientId, requested).requests[r].Confirming?
    requires MiddleResult(cfg, AfterConsume(s, r, plain, clientId, requested), s2, r, newId, newPlain)
    requires r in s2.requests && LastResult(cfg, s2, s3, r)
    ensures var (t, outcome) := RotateCall(cfg, s.tokens, s.clock, plain, clientId, requested, newId, newPlain);
      s3 == State(t, s.requests[r := Done(outcome)], s.clock)
  {
    var s1 := AfterConsume(s, r, plain, clientId, requested);
    assert s2 == s1;
    assert s1.requests[r := s3.requests[r]] == s.requests[r := s3.requests[r]];
  }

  lemma RotatePhases(cfg: Config, s: State, s2: State, s3: State, r: nat, plain: Plaintext, clientId: string,
                       requested: Option<string>, newId: Id, newPlain: Plaintext)
    requires r !in s.requests && AfterConsume(s, r, plain, clientId, requested).requests[r].Confirming?
    requires MiddleResult(cfg, AfterConsume(s, r, plain, clientId, requested), s2, r, newId, newPlain)
    requires r in s2.requests && LastResult(cfg, s2, s3, r)
    ensures var (t, outcome) := RotateCall(cfg, s.tokens, s.clock, plain, clientId, requested, newId, newPlain);
      s3 == State(t, s.requests[r := Done(outcome)], s.clock)
  {
    var s1 := AfterConsume(s, r, plain, clientId, requested);
    assert s2.requests[r].Done? && s3 == s2;
    assert s1.requests[r := s3.requests[r]] == s.requests[r := s3.requests[r]];
  }

  lemma PhasesMakeCall(cfg: Config, s: State, s2: State, s3: State, r: nat, plain: Plaintext, clientId: string,
                       requested: Option<string>, newId: Id, newPlain: Plaintext)
    requires r !in s.requests
    requires MiddleResult(cfg, AfterConsume(s, r, plain, clientId, requested), s2, r, newId, newPlain)
    requires r in s2.requests && LastResult(cfg, s2, s3, r)
    ensures var (t, outcome) := RotateCall(cfg, s.tokens, s.clock, plain, clientId, requested, newId, newPlain);
      s3 == State(t, s.requests[r := Done(outcome)], s.clock)
  {
    if AfterConsume(s, r, plain, clientId, requested).requests[r].Confirming? {
      RotatePhases(cfg, s, s2, s3, r, plain, clientId, requested, newId, newPlain);
    } else {
      ReplayPhases(cfg, s, s2, s3, r, plain, clientId, requested, newId, newPlain);
    }
  }

  /** The interleaved steps refine to the whole call when nothing runs in between. */
  lemma CallIsItsSteps(cfg: Config, s: State, r: nat, plain: Plaintext, clientId: string,
                       requested: Option<string>, newId: Id, newPlain: Plaintext)
    requires r !in s.requests && newId !in s.tokens && !HashIn(s.tokens, Sha256(newPlain))
    ensures var (t, outcome) := RotateCall(cfg, s.tokens, s.clock, plain, clientId, requested, newId, newPlain);
      Run(cfg, s, CallSteps(r, plain, clientId, requested, newId, newPlain))
        == State(t, s.requests[r := Done(outcome)], s.clock)
  {
    RunTakes9(cfg, s, CallSteps(r, plain, clientId, requested, newId, newPlain));
    FirstThree(cfg, s, r, plain, clientId, requested);
    ConsumeKeepsFresh(s, r, plain, clientId, requested, newId, newPlain);
    var s1 := AfterConsume(s, r, plain, clientId, requested);
    MiddleThree(cfg, s1, r, newId, newPlain);
    var s2 := Apply3(cfg, s1, Confirm(r), Prepare(r), Insert(r, newId, newPlain));
    Apply3Keeps(cfg, s1, Confirm(r), Prepare(r), Insert(r, newId, newPlain));
    LastThree(cfg, s2, r);
    var s3 := Apply3(cfg, s2, CheckGrace(r), SeekChild(r), RevokeReplayed(r));
    PhasesMakeCall(cfg, s, s2, s3, r, plain, clientId, requested, newId, newPlain);
  }

  lemma Apply3Keeps(cfg: Config, s: State, a: Step, b: Step, c: Step)
    ensures s.requests.Keys <= Apply3(cfg, s, a, b, c).requests.Keys
  {
    RequestsStay(cfg, s, a);
    RequestsStay(cfg, Apply(cfg, s, a), b);
    RequestsStay(cfg, Apply(cfg, Apply(cfg, s, a), b), c);
  }

  /** The conditions under which a presented token is a replay that is not forgiven, while no
      request under way can still add to its family. */
  ghost predicate Unforgiven(cfg: Config, s: State, id: Id, plain: Plaintext, clientId: string) {
    && id in s.tokens && s.tokens[id].tokenHash == Sha256(plain)
    && s.tokens[id].usedAt.Some? && !Unusable(s.tokens[id], clientId, s.clock)
    && !(InGrace(cfg, s.tokens[id], s.clock) && HasChild(s.tokens, id))
    && forall i :: !Eligible(s, i, OfFamily(s.tokens[id].familyId))
  }

  lemma RevokedRowsBringDown(s: State, s1: State, r: nat, family: Family)
    requires FamilyExists(s.tokens, family) && (forall i :: !Eligible(s, i, OfFamily(family)))
    requires s1 == State(RevokeFamilyRows(s.tokens, family), s.requests[r := Done(Rejected)], s.clock)
    ensures Down(s1, OfFamily(family))
  {
    var t := s1.tokens;
    var member :| member in s.tokens && s.tokens[member].familyId == family;
    assert member in t && t[member].familyId == family;
    forall id ensures HasChild(t, id) == HasChild(s.tokens, id) {
      forall c | c in s.tokens ensures t[c].parentId == s.tokens[c].parentId {}
    }
    forall i ensures !Eligible(s1, i, OfFamily(family)) {
      assert !Eligible(s, i, OfFamily(family));
    }
  }

  lemma ReplayBringsDown(cfg: Config, s: State, r: nat, id: Id, plain: Plaintext, clientId: string,
                         requested: Option<string>, newId: Id, newPlain: Plaintext)
    requires Inv(cfg, s) && Unforgiven(cfg, s, id, plain, clientId)
    requires r !in s.requests && newId !in s.tokens && !HashIn(s.tokens, Sha256(newPlain))
    ensures var s1 := Run(cfg, s, CallSteps(r, plain, clientId, requested, newId, newPlain));
      s1.requests == s.requests[r := Done(Rejected)] && Down(s1, OfFamily(s.tokens[id].familyId))
  {
    hide Run, Down, Eligible, CallSteps;
    CallIsItsSteps(cfg, s, r, plain, clientId, requested, newId, newPlain);
    assert FindByHash(s.tokens, Sha256(plain)) == Some(id);
    RevokedRowsBringDown(s, Run(cfg, s, CallSteps(r, plain, clientId, requested, newId, newPlain)), r, s.tokens[id].familyId);
  }

  /** Replay detection end to end: a used token shown again by its client, outside the window
      or before any child exists, while no request under way can add to the family, revokes it
      for ever: whatever runs later, interleaved or not, no new request obtains a token of it. */
  lemma ReplayEndsFamily(cfg: Config, s: State, r: nat, id: Id, plain: Plaintext, clientId: string,
                         requested: Option<string>, newId: Id, newPlain: Plaintext, later: seq<Step>)
    requires Inv(cfg, s) && Unforgiven(cfg, s, id, plain, clientId)
    requires r !in s.requests && newId !in s.tokens && !HashIn(s.tokens, Sha256(newPlain))
    ensures var family := s.tokens[id].familyId;
      var s1 := Run(cfg, s, CallSteps(r, plain, clientId, requested, newId, newPlain));
      var s2 := Run(cfg, s1, later);
      && s1.requests == s.requests[r := Done(Rejected)]
      && AllRevoked(s2.tokens, family)
      && forall i :: i in s2.requests && i !in s1.requests ==> Hopeless(s2.tokens, s2.requests[i], OfFamily(family))
  {
    hide Inv, Run, Down, Eligible, CallSteps, Hopeless;
    var steps := CallSteps(r, plain, clientId, requested, newId, newPlain);
    var g := OfFamily(s.tokens[id].familyId);
    RunKeepsInv(cfg, s, steps);
    ReplayBringsDown(cfg, s, r, id, plain, clientId, requested, newId, newPlain);
    RevokedStaysDown(cfg, Run(cfg, s, steps), later, g, Run(cfg, s, steps).requests.Keys);
  }
}
