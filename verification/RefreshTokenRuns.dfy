/**
 Any number of refresh requests interleaved statement by statement on one table.

 Each request is a program counter with the locals it carries from one `await` to the next;
 every step below is one SQL statement or one stretch of local computation. A disabled step
 leaves the state as it is, so a run is simply a sequence of steps.
 */
module RefreshTokenRuns {
  import opened Wrappers
  import opened Scopes
  import opened RefreshTokens

  datatype Request =
    | Found(id: Id, existing: Token, clientId: string, requested: Option<string>)
    | Consuming(id: Id, existing: Token, now: Time, requested: Option<string>)
    | Confirming(id: Id, existing: Token, requested: Option<string>)
    | Preparing(id: Id, existing: Token, requested: Option<string>)
    | Inserting(id: Id, existing: Token, scope: string, expiresAt: Time)
    | Replaying(id: Id, existing: Token)
    | SeekingChild(id: Id, existing: Token)
    | Revoking(existing: Token)
    | Done(outcome: Outcome)

  datatype State = State(tokens: Table, requests: map<nat, Request>, clock: Time)

  datatype Step =
    | Tick(ms: nat)
    | Create(newId: Id, plain: Plaintext, family: Family, userId: string, clientId: string, tenantId: string,
             scope: string, sid: Option<string>)
    | Find(r: nat, plain: Plaintext, clientId: string, requested: Option<string>)
    | Check(r: nat)
    | Consume(r: nat)
    | Confirm(r: nat)
    | Prepare(r: nat)
    | Insert(r: nat, newId: Id, plain: Plaintext)
    | CheckGrace(r: nat)
    | SeekChild(r: nat)
    | RevokeReplayed(r: nat)
    | RevokeFamily(family: Family)
    | RevokeSid(session: string)

  ghost function Goto(s: State, r: nat, req: Request): State {
    s.(requests := s.requests[r := req])
  }

  predicate At(s: State, r: nat) {
    r in s.requests
  }

  ghost function DoCreate(cfg: Config, s: State, a: Step): State
    requires a.Create?
  {
    if a.newId in s.tokens || HashIn(s.tokens, Sha256(a.plain))
       || (exists id :: id in s.tokens && s.tokens[id].familyId == a.family)
    then s
    else s.(tokens := s.tokens[a.newId :=
      RootRow(cfg, s.clock, a.plain, a.family, a.userId, a.clientId, a.tenantId, a.scope, a.sid)])
  }

  ghost function DoFind(s: State, r: nat, plain: Plaintext, clientId: string, requested: Option<string>): State {
    if At(s, r) then s
    else match FindByHash(s.tokens, Sha256(plain))
      case None => Goto(s, r, Done(Rejected))
      case Some(id) => Goto(s, r, Found(id, s.tokens[id], clientId, requested))
  }

  ghost function DoCheck(s: State, r: nat): State {
    if !At(s, r) || !s.requests[r].Found? then s
    else
      var q := s.requests[r];
      if Unusable(q.existing, q.clientId, s.clock) then Goto(s, r, Done(Rejected))
      else if q.existing.usedAt.Some? then Goto(s, r, Replaying(q.id, q.existing))
      else Goto(s, r, Consuming(q.id, q.existing, s.clock, q.requested))
  }

  ghost function DoConsume(s: State, r: nat): State {
    if !At(s, r) || !s.requests[r].Consuming? then s
    else
      var q := s.requests[r];
      Goto(s, r, Confirming(q.id, q.existing, q.requested)).(tokens := MarkUsed(s.tokens, q.id, q.now))
  }

  /** The re-read after the UPDATE: it sees the row used, whoever used it. */
  ghost function DoConfirm(s: State, r: nat): State {
    if !At(s, r) || !s.requests[r].Confirming? then s
    else
      var q := s.requests[r];
      if q.id !in s.tokens || s.tokens[q.id].usedAt.None?
      then Goto(s, r, Replaying(q.id, q.existing))
      else Goto(s, r, Preparing(q.id, q.existing, q.requested))
  }

  ghost function DoPrepare(cfg: Config, s: State, r: nat): State {
    if !At(s, r) || !s.requests[r].Preparing? then s
    else
      var q := s.requests[r];
      match GrantedScope(q.requested, q.existing.scope)
      case Err(_) => Goto(s, r, Done(ScopeRefused))
      case Ok(scope) =>
        Goto(s, r, Inserting(q.id, q.existing, scope,
                             ClampExpiry(s.clock, cfg.slidingMs, q.existing.absoluteExpiresAt)))
  }

  ghost function DoInsert(s: State, r: nat, newId: Id, plain: Plaintext): State {
    if !At(s, r) || !s.requests[r].Inserting? || newId in s.tokens || HashIn(s.tokens, Sha256(plain)) then s
    else
      var q := s.requests[r];
      if HasChild(s.tokens, q.id) then Goto(s, r, Done(DuplicateChild))
      else
        Goto(s, r, Done(Rotated(newId))).(
          tokens := s.tokens[newId := ChildRow(q.id, q.existing, plain, q.scope, q.expiresAt, s.clock)])
  }

  ghost function DoCheckGrace(cfg: Config, s: State, r: nat): State {
    if !At(s, r) || !s.requests[r].Replaying? then s
    else
      var q := s.requests[r];
      if InGrace(cfg, q.existing, s.clock) then Goto(s, r, SeekingChild(q.id, q.existing))
      else Goto(s, r, Revoking(q.existing))
  }

  ghost function DoSeekChild(s: State, r: nat): State {
    if !At(s, r) || !s.requests[r].SeekingChild? then s
    else
      var q := s.requests[r];
      match FindChild(s.tokens, q.id)
      case Some(c) => Goto(s, r, Done(Replayed(c)))
      case None => Goto(s, r, Revoking(q.existing))
  }

  ghost function DoRevokeReplayed(s: State, r: nat): State {
    if !At(s, r) || !s.requests[r].Revoking? then s
    else Goto(s, r, Done(Rejected)).(tokens := RevokeFamilyRows(s.tokens, s.requests[r].existing.familyId))
  }

  ghost function Apply(cfg: Config, s: State, a: Step): State {
    match a
    case Tick(ms) => s.(clock := s.clock + ms)
    case Create(_, _, _, _, _, _, _, _) => DoCreate(cfg, s, a)
    case Find(r, plain, clientId, requested) => DoFind(s, r, plain, clientId, requested)
    case Check(r) => DoCheck(s, r)
    case Consume(r) => DoConsume(s, r)
    case Confirm(r) => DoConfirm(s, r)
    case Prepare(r) => DoPrepare(cfg, s, r)
    case Insert(r, newId, plain) => DoInsert(s, r, newId, plain)
    case CheckGrace(r) => DoCheckGrace(cfg, s, r)
    case SeekChild(r) => DoSeekChild(s, r)
    case RevokeReplayed(r) => DoRevokeReplayed(s, r)
    case RevokeFamily(f) => s.(tokens := RevokeFamilyRows(s.tokens, f))
    case RevokeSid(sid) => s.(tokens := RevokeSidRows(s.tokens, sid))
  }

  ghost function Run(cfg: Config, s: State, steps: seq<Step>): State
    decreases |steps|
  {
    if steps == [] then s else Run(cfg, Apply(cfg, s, steps[0]), steps[1..])
  }

  function Start(clock: Time): State {
    State(map[], map[], clock)
  }

  // ---------------------------------------------------------------------------------------
  // The invariant
  // ---------------------------------------------------------------------------------------

  /** Bound once at the root and copied ever after. */
  predicate SameGrant(a: Token, b: Token) {
    && a.familyId == b.familyId && a.userId == b.userId && a.clientId == b.clientId
    && a.tenantId == b.tenantId && a.sid == b.sid && a.absoluteExpiresAt == b.absoluteExpiresAt
  }

  predicate NarrowerScope(child: string, parent: string) {
    && Elements(PlainWords(child)) <= Elements(PlainWords(parent))
    && (ReadsBack(parent) ==> ReadsBack(child))
  }

  predicate ChildOf(child: Token, parent: Token) {
    SameGrant(child, parent) && parent.usedAt.Some? && NarrowerScope(child.scope, parent.scope)
  }

  predicate RowOk(cfg: Config, row: Token) {
    && row.expiresAt <= row.absoluteExpiresAt
    && (row.usedAt.Some? ==> row.usedAt.value <= row.expiresAt)
    && row.sid != Some("")
    && (row.parentId.None? ==> row.absoluteExpiresAt == row.createdAt + cfg.absoluteMs)
  }

  ghost predicate ParentOk(t: Table, id: Id)
    requires id in t
  {
    t[id].parentId.Some? ==> t[id].parentId.value in t && ChildOf(t[id], t[t[id].parentId.value])
  }

  ghost predicate OneRoot(t: Table) {
    forall a, b | a in t && b in t && t[a].parentId.None? && t[b].parentId.None? ::
      t[a].familyId == t[b].familyId ==> a == b
  }

  ghost predicate AllRowsOk(cfg: Config, t: Table) {
    forall id :: id in t ==> RowOk(cfg, t[id])
  }

  ghost predicate AllParentsOk(t: Table) {
    forall id :: id in t ==> ParentOk(t, id)
  }

  ghost predicate AllUnique(t: Table) {
    UniqueHashes(t) && UniqueParents(t) && OneRoot(t)
  }

  ghost predicate TableOk(cfg: Config, t: Table) {
    AllRowsOk(cfg, t) && AllParentsOk(t) && AllUnique(t)
  }

  /** Equal in every column but `used_at` and `revoked`. */
  predicate SameBinding(a: Token, b: Token) {
    && SameGrant(a, b) && a.tokenHash == b.tokenHash && a.parentId == b.parentId
    && a.scope == b.scope && a.expiresAt == b.expiresAt && a.createdAt == b.createdAt
  }

  /** `existing` is an earlier copy of the row: only `usedAt` and `revoked` may have moved on. */
  predicate CopyOf(t: Table, id: Id, existing: Token) {
    && id in t
    && SameBinding(t[id], existing)
    && (existing.revoked ==> t[id].revoked)
    && (existing.usedAt.Some? ==> t[id].usedAt == existing.usedAt)
  }

  predicate Consumed(t: Table, id: Id, existing: Token) {
    CopyOf(t, id, existing) && t[id].usedAt.Some?
  }

  predicate RequestOk(t: Table, q: Request) {
    match q
    case Found(id, existing, _, _) => CopyOf(t, id, existing)
    case Consuming(id, existing, now, _) => CopyOf(t, id, existing) && now <= existing.expiresAt
    case Confirming(id, existing, _) => Consumed(t, id, existing)
    case Preparing(id, existing, _) => Consumed(t, id, existing)
    case Inserting(id, existing, scope, expiresAt) =>
      && Consumed(t, id, existing) && NarrowerScope(scope, existing.scope)
      && expiresAt <= existing.absoluteExpiresAt
    case Replaying(id, existing) => CopyOf(t, id, existing)
    case SeekingChild(id, existing) => CopyOf(t, id, existing)
    case Revoking(_) => true
    case Done(Rotated(c)) => c in t && t[c].parentId.Some?
    case Done(Replayed(c)) => c in t && t[c].parentId.Some?
    case Done(_) => true
  }

  predicate Won(q: Request, child: Id) {
    q == Done(Rotated(child))
  }

  ghost predicate Inv(cfg: Config, s: State) {
    && TableOk(cfg, s.tokens)
    && (forall r :: r in s.requests ==> RequestOk(s.tokens, s.requests[r]))
    && (forall r1, r2, c | r1 in s.requests && r2 in s.requests ::
          Won(s.requests[r1], c) && Won(s.requests[r2], c) ==> r1 == r2)
  }

  /** How rows change over time: they stay, keep their bindings, and never un-use or un-revoke. */
  ghost predicate Evolves(t: Table, t': Table) {
    forall id :: id in t ==> CopyOf(t', id, t[id])
  }

  lemma RequestOkStable(t: Table, t': Table, q: Request)
    requires RequestOk(t, q) && Evolves(t, t')
    ensures RequestOk(t', q)
  {}

  lemma GrantedScopeNarrower(requested: Option<string>, record: string)
    ensures GrantedScope(requested, record).Ok? ==> NarrowerScope(GrantedScope(requested, record).value, record)
  {
    if requested.Some? {
      ValidateScopeSubsetExact(requested.value, record);
    }
  }

  // One lemma per kind of change to the table.

  lemma InsertKeepsParents(t: Table, id: Id, row: Token)
    requires AllParentsOk(t) && id !in t
    requires row.parentId.Some? ==> row.parentId.value in t && ChildOf(row, t[row.parentId.value])
    ensures AllParentsOk(t[id := row])
  {}

  lemma InsertKeepsUnique(t: Table, id: Id, row: Token)
    requires AllUnique(t) && id !in t && !HashIn(t, row.tokenHash)
    requires row.parentId.Some? ==> !HasChild(t, row.parentId.value)
    requires row.parentId.None? ==> forall i :: i in t ==> t[i].familyId != row.familyId
    ensures AllUnique(t[id := row])
  {}

  /** Statements that only set `used_at` or `revoked`. */
  lemma UpdateKeepsParents(t: Table, t': Table)
    requires AllParentsOk(t) && t'.Keys == t.Keys && Evolves(t, t')
    ensures AllParentsOk(t')
  {}

  lemma UpdateKeepsUnique(t: Table, t': Table)
    requires AllUnique(t) && t'.Keys == t.Keys && Evolves(t, t')
    ensures AllUnique(t')
  {}

  lemma InsertOk(cfg: Config, t: Table, id: Id, row: Token)
    requires TableOk(cfg, t) && id !in t && RowOk(cfg, row) && !HashIn(t, row.tokenHash)
    requires match row.parentId
      case None => forall i :: i in t ==> t[i].familyId != row.familyId
      case Some(p) => p in t && ChildOf(row, t[p]) && !HasChild(t, p)
    ensures TableOk(cfg, t[id := row]) && Evolves(t, t[id := row])
  {
    InsertKeepsParents(t, id, row);
    InsertKeepsUnique(t, id, row);
  }

  lemma MarkUsedOk(cfg: Config, t: Table, id: Id, now: Time)
    requires TableOk(cfg, t) && id in t && now <= t[id].expiresAt
    ensures TableOk(cfg, MarkUsed(t, id, now)) && Evolves(t, MarkUsed(t, id, now))
    ensures MarkUsed(t, id, now)[id].usedAt.Some?
  {
    UpdateKeepsParents(t, MarkUsed(t, id, now));
    UpdateKeepsUnique(t, MarkUsed(t, id, now));
  }

  lemma RevokeOk(cfg: Config, t: Table, t': Table)
    requires TableOk(cfg, t) && t'.Keys == t.Keys
    requires forall id :: id in t ==> t'[id] == t[id] || t'[id] == t[id].(revoked := true)
    ensures TableOk(cfg, t') && Evolves(t, t')
  {
    UpdateKeepsParents(t, t');
    UpdateKeepsUnique(t, t');
  }

  // One lemma per step. Every step changes at most one request and the table.

  ghost predicate Kept(cfg: Config, s: State, s': State) {
    Inv(cfg, s') && Evolves(s.tokens, s'.tokens)
  }

  lemma TableStep(cfg: Config, s: State, s': State)
    requires Inv(cfg, s) && s'.requests == s.requests
    requires TableOk(cfg, s'.tokens) && Evolves(s.tokens, s'.tokens)
    ensures Kept(cfg, s, s')
  {
    forall r | r in s'.requests ensures RequestOk(s'.tokens, s'.requests[r]) {
      RequestOkStable(s.tokens, s'.tokens, s.requests[r]);
    }
  }

  lemma RequestStep(cfg: Config, s: State, s': State, r: nat, q: Request)
    requires Inv(cfg, s) && s'.requests == s.requests[r := q]
    requires TableOk(cfg, s'.tokens) && Evolves(s.tokens, s'.tokens) && RequestOk(s'.tokens, q)
    requires forall c :: Won(q, c) ==> c !in s.tokens
    ensures Kept(cfg, s, s')
  {
    forall i | i in s'.requests ensures RequestOk(s'.tokens, s'.requests[i]) {
      if i != r { RequestOkStable(s.tokens, s'.tokens, s.requests[i]); }
    }
    forall i, c | i in s.requests && Won(s.requests[i], c) ensures c in s.tokens {
      assert RequestOk(s.tokens, s.requests[i]);
    }
  }

  lemma EvolvesReflexive(t: Table)
    ensures Evolves(t, t)
  {}

  lemma CreateKeepsInv(cfg: Config, s: State, a: Step)
    requires Inv(cfg, s) && a.Create?
    ensures Kept(cfg, s, DoCreate(cfg, s, a))
  {
    var s' := DoCreate(cfg, s, a);
    EvolvesReflexive(s.tokens);
    if s' != s {
      InsertOk(cfg, s.tokens, a.newId, s'.tokens[a.newId]);
      TableStep(cfg, s, s');
    }
  }

  lemma FindKeepsInv(cfg: Config, s: State, r: nat, plain: Plaintext, clientId: string, requested: Option<string>)
    requires Inv(cfg, s)
    ensures Kept(cfg, s, DoFind(s, r, plain, clientId, requested))
  {
    var s' := DoFind(s, r, plain, clientId, requested);
    EvolvesReflexive(s.tokens);
    if !At(s, r) { RequestStep(cfg, s, s', r, s'.requests[r]); }
  }

  predicate IsLocal(a: Step) {
    a.Check? || a.Confirm? || a.Prepare? || a.CheckGrace? || a.SeekChild?
  }

  /** The steps that move one request and leave the table alone. */
  lemma LocalMove(cfg: Config, s: State, a: Step)
    requires IsLocal(a) && Apply(cfg, s, a) != s
    requires RequestOk(s.tokens, s.requests[a.r])
    ensures var s' := Apply(cfg, s, a);
      && a.r in s'.requests && s' == s.(requests := s.requests[a.r := s'.requests[a.r]])
      && RequestOk(s.tokens, s'.requests[a.r])
      && forall c :: !Won(s'.requests[a.r], c)
  {
    var q := s.requests[a.r];
    if q.Preparing? { GrantedScopeNarrower(q.requested, q.existing.scope); }
  }

  lemma LocalKeepsInv(cfg: Config, s: State, a: Step)
    requires Inv(cfg, s) && IsLocal(a)
    ensures Kept(cfg, s, Apply(cfg, s, a))
  {
    EvolvesReflexive(s.tokens);
    if Apply(cfg, s, a) != s {
      assert RequestOk(s.tokens, s.requests[a.r]);
      LocalMove(cfg, s, a);
      RequestStep(cfg, s, Apply(cfg, s, a), a.r, Apply(cfg, s, a).requests[a.r]);
    }
  }

  lemma ConsumeKeepsInv(cfg: Config, s: State, r: nat)
    requires Inv(cfg, s)
    ensures Kept(cfg, s, DoConsume(s, r))
  {
    var s' := DoConsume(s, r);
    EvolvesReflexive(s.tokens);
    if s' != s {
      var q := s.requests[r];
      assert RequestOk(s.tokens, q);
      MarkUsedOk(cfg, s.tokens, q.id, q.now);
      assert CopyOf(s'.tokens, q.id, s.tokens[q.id]);
      RequestStep(cfg, s, s', r, s'.requests[r]);
    }
  }

  lemma InsertKeepsInv(cfg: Config, s: State, r: nat, newId: Id, plain: Plaintext)
    requires Inv(cfg, s)
    ensures Kept(cfg, s, DoInsert(s, r, newId, plain))
  {
    var s' := DoInsert(s, r, newId, plain);
    EvolvesReflexive(s.tokens);
    if s' != s {
      var q := s.requests[r];
      assert RequestOk(s.tokens, q);
      assert RowOk(cfg, s.tokens[q.id]);
      if s'.tokens != s.tokens {
        InsertOk(cfg, s.tokens, newId, s'.tokens[newId]);
      }
      RequestStep(cfg, s, s', r, s'.requests[r]);
    }
  }

  lemma RevokeKeepsInv(cfg: Config, s: State, a: Step)
    requires Inv(cfg, s) && (a.RevokeFamily? || a.RevokeSid?)
    ensures Kept(cfg, s, Apply(cfg, s, a))
  {
    RevokeOk(cfg, s.tokens, Apply(cfg, s, a).tokens);
    hide TableOk, RequestOk, Evolves, RevokeFamilyRows, RevokeSidRows, Kept;
    TableStep(cfg, s, Apply(cfg, s, a));
  }

  lemma RevokeReplayedKeepsInv(cfg: Config, s: State, r: nat)
    requires Inv(cfg, s)
    ensures Kept(cfg, s, DoRevokeReplayed(s, r))
  {
    hide TableOk, Evolves, RevokeFamilyRows, Kept;
    EvolvesReflexive(s.tokens);
    if At(s, r) && s.requests[r].Revoking? {
      FamilyRevocationOk(cfg, s.tokens, s.requests[r].existing.familyId);
      RequestStep(cfg, s, DoRevokeReplayed(s, r), r, Done(Rejected));
    } else {
      TableStep(cfg, s, s);
    }
  }

  lemma FamilyRevocationOk(cfg: Config, t: Table, family: Family)
    requires TableOk(cfg, t)
    ensures TableOk(cfg, RevokeFamilyRows(t, family)) && Evolves(t, RevokeFamilyRows(t, family))
  {
    RevokeOk(cfg, t, RevokeFamilyRows(t, family));
  }

  lemma StepKeepsInv(cfg: Config, s: State, a: Step)
    requires Inv(cfg, s)
    ensures Kept(cfg, s, Apply(cfg, s, a))
  {
    match a
    case Tick(_) => EvolvesReflexive(s.tokens); TableStep(cfg, s, Apply(cfg, s, a));
    case Create(_, _, _, _, _, _, _, _) => CreateKeepsInv(cfg, s, a);
    case Find(r, plain, clientId, requested) => FindKeepsInv(cfg, s, r, plain, clientId, requested);
    case Consume(r) => ConsumeKeepsInv(cfg, s, r);
    case Insert(r, newId, plain) => InsertKeepsInv(cfg, s, r, newId, plain);
    case RevokeReplayed(r) => RevokeReplayedKeepsInv(cfg, s, r);
    case RevokeFamily(_) => RevokeKeepsInv(cfg, s, a);
    case RevokeSid(_) => RevokeKeepsInv(cfg, s, a);
    case _ => LocalKeepsInv(cfg, s, a);
  }

  lemma {:induction false} RunKeepsInv(cfg: Config, s: State, steps: seq<Step>)
    requires Inv(cfg, s)
    ensures Inv(cfg, Run(cfg, s, steps)) && Evolves(s.tokens, Run(cfg, s, steps).tokens)
    decreases |steps|
  {
    if steps != [] {
      StepKeepsInv(cfg, s, steps[0]);
      RunKeepsInv(cfg, Apply(cfg, s, steps[0]), steps[1..]);
    }
  }

  // ---------------------------------------------------------------------------------------
  // What one step can do, without naming the step
  // ---------------------------------------------------------------------------------------

  ghost predicate RootAdded(t: Table, t': Table, id: Id) {
    && id !in t && id in t' && t' == t[id := t'[id]]
    && t'[id].parentId.None? && !t'[id].revoked
    && forall i :: i in t ==> t[i].familyId != t'[id].familyId
  }

  ghost predicate ChildAdded(s: State, t': Table, r: nat, id: Id) {
    && r in s.requests && s.requests[r].Inserting?
    && var q := s.requests[r];
    && id !in s.tokens && id in t' && t' == s.tokens[id := t'[id]]
    && !HasChild(s.tokens, q.id)
    && t'[id].parentId == Some(q.id) && t'[id].familyId == q.existing.familyId && !t'[id].revoked
    && t'[id].sid == OrNull(q.existing.sid)
  }

  ghost predicate Shape(s: State, s': State) {
    && Evolves(s.tokens, s'.tokens) && s.clock <= s'.clock
    && (|| s'.tokens.Keys == s.tokens.Keys
        || (exists id :: RootAdded(s.tokens, s'.tokens, id))
        || (exists r, id :: ChildAdded(s, s'.tokens, r, id)))
  }

  lemma CreateAddsRoot(cfg: Config, s: State, a: Step)
    requires a.Create?
    ensures DoCreate(cfg, s, a) == s || RootAdded(s.tokens, DoCreate(cfg, s, a).tokens, a.newId)
  {}

  lemma InsertAddsChild(s: State, r: nat, id: Id, plain: Plaintext)
    ensures DoInsert(s, r, id, plain).tokens == s.tokens || ChildAdded(s, DoInsert(s, r, id, plain).tokens, r, id)
  {}

  lemma OthersKeepKeys(cfg: Config, s: State, a: Step)
    requires !a.Create? && !a.Insert?
    ensures Apply(cfg, s, a).tokens.Keys == s.tokens.Keys
  {}

  lemma StepShape(cfg: Config, s: State, a: Step)
    requires Inv(cfg, s)
    ensures Shape(s, Apply(cfg, s, a))
  {
    StepKeepsInv(cfg, s, a);
    if a.Create? {
      CreateAddsRoot(cfg, s, a);
    } else if a.Insert? {
      InsertAddsChild(s, a.r, a.newId, a.plain);
    } else {
      OthersKeepKeys(cfg, s, a);
    }
  }

  /** How the program counter of request `r` may change in one step. */
  ghost predicate Moves(s: State, s': State, r: nat) {
    r in s'.requests ==>
      var q' := s'.requests[r];
      if r !in s.requests then
        q' == Done(Rejected) || (q'.Found? && q'.id in s.tokens && q'.existing == s.tokens[q'.id])
      else
        var q := s.requests[r];
        || q' == q
        || match q
           case Found(id, existing, clientId, requested) =>
             || q' == Done(Rejected)
             || (!Unusable(existing, clientId, s.clock) && q' == Replaying(id, existing))
             || (&& !Unusable(existing, clientId, s.clock) && existing.usedAt.None?
                 && q' == Consuming(id, existing, s.clock, requested))
           case Consuming(id, existing, _, requested) => q' == Confirming(id, existing, requested)
           case Confirming(id, existing, requested) =>
             q' == Replaying(id, existing) || q' == Preparing(id, existing, requested)
           case Preparing(id, existing, requested) =>
             || q' == Done(ScopeRefused)
             || (&& GrantedScope(requested, existing.scope).Ok?
                 && q'.Inserting? && q'.id == id && q'.existing == existing)
           case Inserting(_, _, _, _) =>
             q' == Done(DuplicateChild) || (q'.Done? && q'.outcome.Rotated? && ChildAdded(s, s'.tokens, r, q'.outcome.child))
           case Replaying(id, existing) => q' == SeekingChild(id, existing) || q' == Revoking(existing)
           case SeekingChild(id, existing) =>
             || q' == Revoking(existing)
             || (FindChild(s.tokens, id).Some? && q' == Done(Replayed(FindChild(s.tokens, id).value)))
           case Revoking(_) => q' == Done(Rejected)
           case Done(_) => false
  }

  lemma StepMoves(cfg: Config, s: State, a: Step, r: nat)
    requires r in s.requests ==> r in Apply(cfg, s, a).requests
    ensures Moves(s, Apply(cfg, s, a), r)
  {
    if a.Insert? { InsertAddsChild(s, a.r, a.newId, a.plain); }
  }

  lemma RequestsStay(cfg: Config, s: State, a: Step)
    ensures s.requests.Keys <= Apply(cfg, s, a).requests.Keys
  {
  }
}
