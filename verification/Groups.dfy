/**
 Groups of users and roles, and their copy in the role table: a user holds from groups what some
 group of the tenant grants to its members. Membership changes keep that copy up to date row by
 row.
 */
module Groups {
  import opened Wrappers
  import opened Roles

  type GroupId = nat

  type TenantMap = GroupId -> TenantId

  /** Members and roles of groups, and the role table. */
  datatype Tables = Tables(users: set<(GroupId, UserId)>, roles: set<(GroupId, RoleId)>, rows: Roles.Table)

  ghost function Members(t: Tables, g: GroupId): set<UserId> {
    set p | p in t.users && p.0 == g :: p.1
  }

  ghost function Held(t: Tables, g: GroupId): set<RoleId> {
    set p | p in t.roles && p.0 == g :: p.1
  }

  ghost function Product(tenant: TenantId, users: set<UserId>, roles: set<RoleId>): set<Key> {
    set u, r | u in users && r in roles :: (tenant, u, r)
  }

  function ToUsers(g: GroupId, users: set<UserId>): set<(GroupId, UserId)> {
    set u | u in users :: (g, u)
  }

  function ToRoles(g: GroupId, roles: set<RoleId>): set<(GroupId, RoleId)> {
    set r | r in roles :: (g, r)
  }

  // ---------------------------------------------------------------------------------------
  // What the operations do when they end normally
  // ---------------------------------------------------------------------------------------

  ghost function RolesAdded(t: Tables, tenant: TenantId, g: GroupId, ids: set<RoleId>): Tables {
    Tables(t.users, t.roles + ToRoles(g, ids), Saved(t.rows, Product(tenant, Members(t, g), ids - Held(t, g)), true))
  }

  ghost function RolesRemoved(t: Tables, tenant: TenantId, g: GroupId, ids: set<RoleId>): Tables {
    Tables(t.users, t.roles - ToRoles(g, ids), t.rows - Product(tenant, Members(t, g), ids * Held(t, g)))
  }

  ghost function UsersAdded(t: Tables, tenant: TenantId, g: GroupId, users: set<UserId>): Tables {
    Tables(t.users + ToUsers(g, users), t.roles, Saved(t.rows, Product(tenant, users - Members(t, g), Held(t, g)), true))
  }

  ghost function UsersRemoved(t: Tables, tenant: TenantId, g: GroupId, users: set<UserId>): Tables {
    Tables(t.users - ToUsers(g, users), t.roles, t.rows - Product(tenant, users * Members(t, g), Held(t, g)))
  }

  ghost function GroupDeleted(t: Tables, tenant: TenantId, g: GroupId): Tables {
    Tables(t.users - ToUsers(g, Members(t, g)), t.roles - ToRoles(g, Held(t, g)),
           t.rows - Product(tenant, Members(t, g), Held(t, g)))
  }

  // ---------------------------------------------------------------------------------------
  // The copy
  // ---------------------------------------------------------------------------------------

  /** The group grants this user this role in its tenant. */
  ghost predicate Grants(tenantOf: TenantMap, t: Tables, g: GroupId, k: Key) {
    tenantOf(g) == k.0 && (g, k.1) in t.users && (g, k.2) in t.roles
  }

  ghost predicate Granted(tenantOf: TenantMap, t: Tables, k: Key) {
    exists g :: Grants(tenantOf, t, g, k)
  }

  ghost predicate FromGroup(t: Tables, k: Key) {
    k in t.rows && t.rows[k]
  }

  /** The rows that come from groups are the union over groups of users and roles. */
  ghost predicate UpToDate(tenantOf: TenantMap, t: Tables) {
    forall k: Key :: FromGroup(t, k) <==> Granted(tenantOf, t, k)
  }

  /** No other group grants one of these pairs. */
  ghost predicate OnlyHere(tenantOf: TenantMap, t: Tables, g: GroupId, keys: set<Key>) {
    forall k, h :: k in keys && Grants(tenantOf, t, h, k) ==> h == g
  }

  lemma AddedGrants(tenantOf: TenantMap, t: Tables, t': Tables, g: GroupId, keys: set<Key>, k: Key)
    requires forall h :: Grants(tenantOf, t', h, k) <==> Grants(tenantOf, t, h, k) || (h == g && k in keys)
    ensures Granted(tenantOf, t', k) <==> Granted(tenantOf, t, k) || k in keys
  {
    assert k in keys ==> Grants(tenantOf, t', g, k);
    if Granted(tenantOf, t, k) {
      var h :| Grants(tenantOf, t, h, k);
      assert Grants(tenantOf, t', h, k);
    }
  }

  lemma RolesAddedKeepUpToDate(tenantOf: TenantMap, t: Tables, g: GroupId, ids: set<RoleId>)
    requires UpToDate(tenantOf, t)
    ensures UpToDate(tenantOf, RolesAdded(t, tenantOf(g), g, ids))
  {
    var t' := RolesAdded(t, tenantOf(g), g, ids);
    forall k: Key ensures FromGroup(t', k) <==> Granted(tenantOf, t', k) {
      assert FromGroup(t, k) <==> Granted(tenantOf, t, k);
      AddedGrants(tenantOf, t, t', g, Product(tenantOf(g), Members(t, g), ids), k);
      assert k in Product(tenantOf(g), Members(t, g), ids * Held(t, g)) ==> Grants(tenantOf, t, g, k);
    }
  }

  lemma UsersAddedKeepUpToDate(tenantOf: TenantMap, t: Tables, g: GroupId, users: set<UserId>)
    requires UpToDate(tenantOf, t)
    ensures UpToDate(tenantOf, UsersAdded(t, tenantOf(g), g, users))
  {
    var t' := UsersAdded(t, tenantOf(g), g, users);
    forall k: Key ensures FromGroup(t', k) <==> Granted(tenantOf, t', k) {
      assert FromGroup(t, k) <==> Granted(tenantOf, t, k);
      AddedGrants(tenantOf, t, t', g, Product(tenantOf(g), users, Held(t, g)), k);
      assert k in Product(tenantOf(g), users * Members(t, g), Held(t, g)) ==> Grants(tenantOf, t, g, k);
    }
  }

  /** Taking the pairs of `keys` from group `g` alone. */
  lemma TakenUpToDateIff(tenantOf: TenantMap, t: Tables, t': Tables, g: GroupId, keys: set<Key>)
    requires UpToDate(tenantOf, t) && t'.rows == t.rows - keys
    requires forall k, h :: Grants(tenantOf, t', h, k) <==> Grants(tenantOf, t, h, k) && !(h == g && k in keys)
    requires forall k :: k in keys ==> Grants(tenantOf, t, g, k)
    ensures UpToDate(tenantOf, t') <==> OnlyHere(tenantOf, t, g, keys)
  {
    if OnlyHere(tenantOf, t, g, keys) {
      forall k: Key ensures FromGroup(t', k) <==> Granted(tenantOf, t', k) {
        assert FromGroup(t, k) <==> Granted(tenantOf, t, k);
        if k !in keys && Granted(tenantOf, t, k) {
          var h :| Grants(tenantOf, t, h, k);
          assert Grants(tenantOf, t', h, k);
        }
      }
    }
    if UpToDate(tenantOf, t') {
      forall k, h | k in keys && Grants(tenantOf, t, h, k) ensures h == g {
        assert h != g ==> Grants(tenantOf, t', h, k);
        assert !FromGroup(t', k);
      }
    }
  }

  /** Removing roles leaves the copy right exactly if no other group grants a removed pair. */
  lemma RolesRemovedUpToDateIff(tenantOf: TenantMap, t: Tables, g: GroupId, ids: set<RoleId>)
    requires UpToDate(tenantOf, t)
    ensures UpToDate(tenantOf, RolesRemoved(t, tenantOf(g), g, ids)) <==>
      OnlyHere(tenantOf, t, g, Product(tenantOf(g), Members(t, g), ids * Held(t, g)))
  {
    var keys := Product(tenantOf(g), Members(t, g), ids * Held(t, g));
    TakenUpToDateIff(tenantOf, t, RolesRemoved(t, tenantOf(g), g, ids), g, keys);
  }

  lemma UsersRemovedUpToDateIff(tenantOf: TenantMap, t: Tables, g: GroupId, users: set<UserId>)
    requires UpToDate(tenantOf, t)
    ensures UpToDate(tenantOf, UsersRemoved(t, tenantOf(g), g, users)) <==>
      OnlyHere(tenantOf, t, g, Product(tenantOf(g), users * Members(t, g), Held(t, g)))
  {
    var keys := Product(tenantOf(g), users * Members(t, g), Held(t, g));
    TakenUpToDateIff(tenantOf, t, UsersRemoved(t, tenantOf(g), g, users), g, keys);
  }

  /** Deleting a group leaves the copy right exactly if no other group grants one of its pairs. */
  lemma GroupDeletedUpToDateIff(tenantOf: TenantMap, t: Tables, g: GroupId)
    requires UpToDate(tenantOf, t)
    ensures UpToDate(tenantOf, GroupDeleted(t, tenantOf(g), g)) <==>
      OnlyHere(tenantOf, t, g, Product(tenantOf(g), Members(t, g), Held(t, g)))
  {
    var keys := Product(tenantOf(g), Members(t, g), Held(t, g));
    TakenUpToDateIff(tenantOf, t, GroupDeleted(t, tenantOf(g), g), g, keys);
  }

  // ---------------------------------------------------------------------------------------
  // Round trips and direct rows
  // ---------------------------------------------------------------------------------------

  /** Adding roles and removing them again restores every table exactly if none of them was held
      by the group before and no member had one of them in any way. */
  lemma AddThenRemoveRoles(t: Tables, tenant: TenantId, g: GroupId, ids: set<RoleId>)
    ensures RolesRemoved(RolesAdded(t, tenant, g, ids), tenant, g, ids) == t <==>
      Held(t, g) !! ids && t.rows.Keys !! Product(tenant, Members(t, g), ids)
  {}

  lemma AddThenRemoveUsers(t: Tables, tenant: TenantId, g: GroupId, users: set<UserId>)
    ensures UsersRemoved(UsersAdded(t, tenant, g, users), tenant, g, users) == t <==>
      Members(t, g) !! users && t.rows.Keys !! Product(tenant, users, Held(t, g))
  {}

  /** The direct rows are as before. */
  ghost predicate DirectKept(t: Tables, t': Tables) {
    forall k :: k in t.rows && !t.rows[k] ==> k in t'.rows && !t'.rows[k]
  }

  /** Adding roles spares direct rows exactly if no member had a new role directly: such a row
      turns into one from a group, and is lost when the role leaves the group. */
  lemma AddedRolesSpareDirectRowsIff(t: Tables, tenant: TenantId, g: GroupId, ids: set<RoleId>)
    ensures DirectKept(t, RolesAdded(t, tenant, g, ids)) <==>
      forall k :: k in Product(tenant, Members(t, g), ids - Held(t, g)) && k in t.rows ==> t.rows[k]
  {}

  /** With the copy right, removals only take rows that came from groups. */
  lemma RemovedRolesSpareDirectRows(tenantOf: TenantMap, t: Tables, g: GroupId, ids: set<RoleId>)
    requires UpToDate(tenantOf, t)
    ensures DirectKept(t, RolesRemoved(t, tenantOf(g), g, ids))
    ensures AllHeld(t.rows, Product(tenantOf(g), Members(t, g), ids * Held(t, g)), true)
  {
    forall k | k in Product(tenantOf(g), Members(t, g), ids * Held(t, g)) ensures FromGroup(t, k) {
      assert Grants(tenantOf, t, g, k);
    }
  }

  lemma RemovedUsersSpareDirectRows(tenantOf: TenantMap, t: Tables, g: GroupId, users: set<UserId>)
    requires UpToDate(tenantOf, t)
    ensures DirectKept(t, UsersRemoved(t, tenantOf(g), g, users))
    ensures AllHeld(t.rows, Product(tenantOf(g), users * Members(t, g), Held(t, g)), true)
  {
    forall k | k in Product(tenantOf(g), users * Members(t, g), Held(t, g)) ensures FromGroup(t, k) {
      assert Grants(tenantOf, t, g, k);
    }
  }

  lemma AddedUsersSpareDirectRowsIff(t: Tables, tenant: TenantId, g: GroupId, users: set<UserId>)
    ensures DirectKept(t, UsersAdded(t, tenant, g, users)) <==>
      forall k :: k in Product(tenant, users - Members(t, g), Held(t, g)) && k in t.rows ==> t.rows[k]
  {}

  // ---------------------------------------------------------------------------------------
  // Whole runs of operations that end normally
  // ---------------------------------------------------------------------------------------

  /** Changes of groups, and direct grants, withdrawals and updates of a user's roles. */
  datatype Op =
    | AddRolesOp(g: GroupId, ids: set<RoleId>)
    | RemoveRolesOp(g: GroupId, ids: set<RoleId>)
    | AddUsersOp(g: GroupId, users: set<UserId>)
    | RemoveUsersOp(g: GroupId, users: set<UserId>)
    | DeleteOp(g: GroupId)
    | GrantOp(tenant: TenantId, user: UserId, ids: set<RoleId>)
    | WithdrawOp(tenant: TenantId, user: UserId, ids: set<RoleId>)
    | UpdateOp(tenant: TenantId, user: UserId, names: set<string>)

  ghost function Perform(d: Directory, tenantOf: TenantMap, t: Tables, op: Op): Tables {
    match op
    case AddRolesOp(g, ids) => RolesAdded(t, tenantOf(g), g, ids)
    case RemoveRolesOp(g, ids) => RolesRemoved(t, tenantOf(g), g, ids)
    case AddUsersOp(g, users) => UsersAdded(t, tenantOf(g), g, users)
    case RemoveUsersOp(g, users) => UsersRemoved(t, tenantOf(g), g, users)
    case DeleteOp(g) => GroupDeleted(t, tenantOf(g), g)
    case GrantOp(tenant, user, ids) => t.(rows := Saved(t.rows, RowsOf(tenant, user, ids), false))
    case WithdrawOp(tenant, user, ids) => t.(rows := t.rows - RowsOf(tenant, user, ids))
    case UpdateOp(tenant, user, names) => t.(rows := Updated(d, t.rows, tenant, user, names))
  }

  /** The roles an update takes away, and those it adds. */
  ghost function Unwanted(d: Directory, t: Tables, tenant: TenantId, user: UserId, names: set<string>): set<Key> {
    RowsOf(tenant, user, MemberRoles(d, t.rows, tenant, user) - Named(d, tenant, names))
  }

  ghost function Wanting(d: Directory, t: Tables, tenant: TenantId, user: UserId, names: set<string>): set<Key> {
    RowsOf(tenant, user, Named(d, tenant, names) - MemberRoles(d, t.rows, tenant, user))
  }

  /** The operation ends normally; group operations do whenever the copy is right. */
  ghost predicate Ends(d: Directory, t: Tables, op: Op) {
    match op
    case WithdrawOp(tenant, user, ids) => AllHeld(t.rows, RowsOf(tenant, user, ids), false)
    case UpdateOp(tenant, user, names) => AllHeld(t.rows, Unwanted(d, t, tenant, user, names), false)
    case _ => true
  }

  /** No other group grants what is taken from a group, and no group grants what is granted
      directly. */
  ghost predicate KeepsCopy(tenantOf: TenantMap, t: Tables, op: Op) {
    match op
    case RemoveRolesOp(g, ids) => OnlyHere(tenantOf, t, g, Product(tenantOf(g), Members(t, g), ids * Held(t, g)))
    case RemoveUsersOp(g, users) => OnlyHere(tenantOf, t, g, Product(tenantOf(g), users * Members(t, g), Held(t, g)))
    case DeleteOp(g) => OnlyHere(tenantOf, t, g, Product(tenantOf(g), Members(t, g), Held(t, g)))
    case GrantOp(tenant, user, ids) => forall k :: k in RowsOf(tenant, user, ids) ==> !Granted(tenantOf, t, k)
    case _ => true
  }

  /** Exactly then an operation that ends normally leaves the copy right. */
  lemma OpUpToDateIff(d: Directory, tenantOf: TenantMap, t: Tables, op: Op)
    requires UpToDate(tenantOf, t) && Ends(d, t, op)
    ensures UpToDate(tenantOf, Perform(d, tenantOf, t, op)) <==> KeepsCopy(tenantOf, t, op)
  {
    match op
    case AddRolesOp(g, ids) => RolesAddedKeepUpToDate(tenantOf, t, g, ids);
    case AddUsersOp(g, users) => UsersAddedKeepUpToDate(tenantOf, t, g, users);
    case RemoveRolesOp(g, ids) => RolesRemovedUpToDateIff(tenantOf, t, g, ids);
    case RemoveUsersOp(g, users) => UsersRemovedUpToDateIff(tenantOf, t, g, users);
    case DeleteOp(g) => GroupDeletedUpToDateIff(tenantOf, t, g);
    case GrantOp(tenant, user, ids) => RowsUpToDateIff(tenantOf, t, Saved(t.rows, RowsOf(tenant, user, ids),
        false), RowsOf(tenant, user, ids));
    case WithdrawOp(tenant, user, ids) => RowsUpToDateIff(tenantOf, t, t.rows - RowsOf(tenant, user, ids), {});
    case UpdateOp(tenant, user, names) =>
      UpdateSparesGroupRows(d, t.rows, tenant, user, names);
      RowsUpToDateIff(tenantOf, t, Updated(d, t.rows, tenant, user, names), {});
  }

  /** Groups unchanged, and of the group rows exactly those in `lost` gone. */
  lemma RowsUpToDateIff(tenantOf: TenantMap, t: Tables, rows: Roles.Table, lost: set<Key>)
    requires UpToDate(tenantOf, t)
    requires forall k: Key :: (k in rows && rows[k]) <==> FromGroup(t, k) && k !in lost
    ensures UpToDate(tenantOf, t.(rows := rows)) <==> forall k :: k in lost ==> !Granted(tenantOf, t, k)
  {
    var t' := t.(rows := rows);
    forall k ensures Granted(tenantOf, t', k) == Granted(tenantOf, t, k) {
      forall g ensures Grants(tenantOf, t', g, k) == Grants(tenantOf, t, g, k) {}
      if g :| Grants(tenantOf, t, g, k) { assert Grants(tenantOf, t', g, k); }
    }
    forall k ensures FromGroup(t', k) <==> FromGroup(t, k) && k !in lost {}
  }

  ghost function Direct(t: Tables): set<Key> {
    set k | k in t.rows && !t.rows[k]
  }

  /** What the direct rows should be afterwards: only direct operations change them. */
  ghost function DirectAfter(d: Directory, t: Tables, op: Op): set<Key> {
    match op
    case GrantOp(tenant, user, ids) => Direct(t) + RowsOf(tenant, user, ids)
    case WithdrawOp(tenant, user, ids) => Direct(t) - RowsOf(tenant, user, ids)
    case UpdateOp(tenant, user, names) =>
      Direct(t) - Unwanted(d, t, tenant, user, names) + Wanting(d, t, tenant, user, names)
    case _ => Direct(t)
  }

  /** No new member has a role of the group directly, and no member a new role. */
  ghost predicate SparesDirect(tenantOf: TenantMap, t: Tables, op: Op) {
    match op
    case AddRolesOp(g, ids) => Direct(t) !! Product(tenantOf(g), Members(t, g), ids - Held(t, g))
    case AddUsersOp(g, users) => Direct(t) !! Product(tenantOf(g), users - Members(t, g), Held(t, g))
    case _ => true
  }

  /** Exactly then the direct rows are what they should be. */
  lemma OpDirectIff(d: Directory, tenantOf: TenantMap, t: Tables, op: Op)
    requires UpToDate(tenantOf, t) && Ends(d, t, op)
    ensures Direct(Perform(d, tenantOf, t, op)) == DirectAfter(d, t, op) <==> SparesDirect(tenantOf, t, op)
  {
    match op
    case AddRolesOp(g, ids) =>
      SavedDirect(t.rows, Product(tenantOf(g), Members(t, g), ids - Held(t, g)), true);
    case AddUsersOp(g, users) =>
      SavedDirect(t.rows, Product(tenantOf(g), users - Members(t, g), Held(t, g)), true);
    case RemoveRolesOp(g, ids) => RemovedRolesSpareDirectRows(tenantOf, t, g, ids);
    case RemoveUsersOp(g, users) => RemovedUsersSpareDirectRows(tenantOf, t, g, users);
    case DeleteOp(g) =>
      RemovedRolesSpareDirectRows(tenantOf, t, g, Held(t, g));
      assert Held(t, g) * Held(t, g) == Held(t, g);
    case GrantOp(tenant, user, ids) => SavedDirect(t.rows, RowsOf(tenant, user, ids), false);
    case WithdrawOp(tenant, user, ids) =>
    case UpdateOp(tenant, user, names) =>
      SavedDirect(t.rows, Wanting(d, t, tenant, user, names), false);
      assert Unwanted(d, t, tenant, user, names) !! Wanting(d, t, tenant, user, names);
  }

  lemma SavedDirect(rows: Roles.Table, keys: set<Key>, fromGroup: bool)
    ensures var saved := Saved(rows, keys, fromGroup);
      (set k | k in saved && !saved[k]) == (set k | k in rows && !rows[k]) - keys + if fromGroup then {} else keys
  {}

  ghost function PerformAll(d: Directory, tenantOf: TenantMap, t: Tables, ops: seq<Op>): Tables
    decreases ops
  {
    if ops == [] then t else PerformAll(d, tenantOf, Perform(d, tenantOf, t, ops[0]), ops[1..])
  }

  /** Every operation ends normally and keeps the copy. */
  ghost predicate CopyAlong(d: Directory, tenantOf: TenantMap, t: Tables, ops: seq<Op>)
    decreases ops
  {
    ops == [] || (Ends(d, t, ops[0]) && KeepsCopy(tenantOf, t, ops[0])
                  && CopyAlong(d, tenantOf, Perform(d, tenantOf, t, ops[0]), ops[1..]))
  }

  ghost predicate DirectAlong(d: Directory, tenantOf: TenantMap, t: Tables, ops: seq<Op>)
    decreases ops
  {
    ops == [] || (SparesDirect(tenantOf, t, ops[0])
                  && DirectAlong(d, tenantOf, Perform(d, tenantOf, t, ops[0]), ops[1..]))
  }

  predicate OnGroups(op: Op) {
    !op.GrantOp? && !op.WithdrawOp? && !op.UpdateOp?
  }

  /** Over any run of group operations, direct grants, withdrawals and updates that end normally,
      the copy is right after every one of them if nothing taken from a group is granted by
      another and nothing granted directly is granted by a group. */
  lemma {:induction false} RunKeepsUpToDate(d: Directory, tenantOf: TenantMap, t: Tables, ops: seq<Op>)
    requires UpToDate(tenantOf, t) && CopyAlong(d, tenantOf, t, ops)
    ensures UpToDate(tenantOf, PerformAll(d, tenantOf, t, ops))
    decreases ops
  {
    hide UpToDate, Perform, KeepsCopy, Ends;
    if ops != [] {
      OpUpToDateIff(d, tenantOf, t, ops[0]);
      RunKeepsUpToDate(d, tenantOf, Perform(d, tenantOf, t, ops[0]), ops[1..]);
    }
  }

  /** If besides no addition to a group meets a direct row, group operations never change the
      direct rows: a run of them leaves exactly the direct rows there were. */
  lemma {:induction false} GroupRunsSpareDirectRows(d: Directory, tenantOf: TenantMap, t: Tables, ops: seq<Op>)
    requires UpToDate(tenantOf, t) && CopyAlong(d, tenantOf, t, ops) && DirectAlong(d, tenantOf, t, ops)
    requires forall i :: 0 <= i < |ops| ==> OnGroups(ops[i])
    ensures Direct(PerformAll(d, tenantOf, t, ops)) == Direct(t)
    decreases ops
  {
    hide UpToDate, Perform, KeepsCopy, Ends, Direct, SparesDirect;
    if ops != [] {
      var t' := Perform(d, tenantOf, t, ops[0]);
      OpUpToDateIff(d, tenantOf, t, ops[0]);
      OpDirectIff(d, tenantOf, t, ops[0]);
      GroupRunsSpareDirectRows(d, tenantOf, t', ops[1..]);
    }
  }

  /** With direct operations among them, the direct rows change in each step by what that step
      writes and by nothing else. */
  lemma {:induction false} RunsKeepDirectRows(d: Directory, tenantOf: TenantMap, t: Tables, ops: seq<Op>, n: nat)
    requires UpToDate(tenantOf, t) && CopyAlong(d, tenantOf, t, ops) && DirectAlong(d, tenantOf, t, ops) && n < |ops|
    ensures var before := PerformAll(d, tenantOf, t, ops[..n]);
      Direct(PerformAll(d, tenantOf, t, ops[..n + 1])) == DirectAfter(d, before, ops[n])
    decreases n
  {
    hide UpToDate, Perform, KeepsCopy, Ends, Direct, SparesDirect, DirectAfter;
    var t' := Perform(d, tenantOf, t, ops[0]);
    OpUpToDateIff(d, tenantOf, t, ops[0]);
    if n == 0 {
      OpDirectIff(d, tenantOf, t, ops[0]);
      assert ops[..1][1..] == [];
    } else {
      RunsKeepDirectRows(d, tenantOf, t', ops[1..], n - 1);
      assert ops[..n][1..] == ops[1..][..n - 1] && ops[..n + 1][1..] == ops[1..][..n];
    }
  }

  /** No two groups grant the same pair. */
  ghost predicate Disjoint(tenantOf: TenantMap, t: Tables) {
    forall g, h, k :: Grants(tenantOf, t, g, k) && Grants(tenantOf, t, h, k) ==> g == h
  }

  /** Then every group operation keeps the copy. */
  lemma DisjointKeepsCopy(tenantOf: TenantMap, t: Tables, op: Op)
    requires Disjoint(tenantOf, t) && OnGroups(op)
    ensures KeepsCopy(tenantOf, t, op)
  {
    match op
    case RemoveRolesOp(g, ids) => ProductGranted(tenantOf, t, g, Members(t, g), ids * Held(t, g));
    case RemoveUsersOp(g, users) => ProductGranted(tenantOf, t, g, users * Members(t, g), Held(t, g));
    case DeleteOp(g) => ProductGranted(tenantOf, t, g, Members(t, g), Held(t, g));
    case _ =>
  }

  lemma ProductGranted(tenantOf: TenantMap, t: Tables, g: GroupId, users: set<UserId>, ids: set<RoleId>)
    requires users <= Members(t, g) && ids <= Held(t, g)
    ensures forall k :: k in Product(tenantOf(g), users, ids) ==> Grants(tenantOf, t, g, k)
  {}

  /** A direct grant over a pair that a group grants takes the group's row over: the next removal
      of that role from the group then finds the row missing. */
  lemma GrantOverGroupRowBlocksRemoval(tenantOf: TenantMap, t: Tables, g: GroupId, k: Key, ids: set<RoleId>)
    requires Grants(tenantOf, t, g, k) && k.2 in ids
    ensures var rows := Saved(t.rows, RowsOf(k.0, k.1, {k.2}), false);
      !AllHeld(rows, Product(tenantOf(g), Members(t, g), ids * Held(t, g)), true)
  {
    var rows := Saved(t.rows, RowsOf(k.0, k.1, {k.2}), false);
    assert k.1 in Members(t, g) && k.2 in Held(t, g) by { assert (g, k.1) in t.users && (g, k.2) in t.roles; }
    assert (k.0, k.1, k.2) == k && k in RowsOf(k.0, k.1, {k.2}) && !rows[k];
    assert k in Product(tenantOf(g), Members(t, g), ids * Held(t, g));
  }

  /** Without disjointness it does go wrong: two groups grant the same role to the same user,
      and taking it from one group takes the shared row. */
  lemma SharedPairIsLost(tenantOf: TenantMap)
    requires tenantOf(1) == tenantOf(2)
    ensures var t := Tables({(1, 7), (2, 7)}, {(1, 9), (2, 9)}, map[(tenantOf(1), 7, 9) := true]);
      UpToDate(tenantOf, t) && !UpToDate(tenantOf, RolesRemoved(t, tenantOf(1), 1, {9}))
  {
    var k := (tenantOf(1), 7, 9);
    var t := Tables({(1, 7), (2, 7)}, {(1, 9), (2, 9)}, map[k := true]);
    assert Grants(tenantOf, t, 1, k) && Grants(tenantOf, t, 2, k);
    RolesRemovedUpToDateIff(tenantOf, t, 1, {9});
    assert 7 in Members(t, 1) && 9 in {9} * Held(t, 1) by {
      assert (1, 7) in t.users && (1, 9) in t.roles;
    }
    assert k in Product(tenantOf(1), Members(t, 1), {9} * Held(t, 1));
  }

  /** An addition that an unknown name interrupts has stored the group's new roles but given them
      to nobody; the copy is still right exactly if the members had them from groups anyway. */
  lemma InterruptedAddUpToDateIff(tenantOf: TenantMap, t: Tables, g: GroupId, ids: set<RoleId>)
    requires UpToDate(tenantOf, t)
    ensures UpToDate(tenantOf, t.(roles := t.roles + ToRoles(g, ids))) <==>
      forall k :: k in Product(tenantOf(g), Members(t, g), ids) ==> Granted(tenantOf, t, k)
  {
    var t' := t.(roles := t.roles + ToRoles(g, ids));
    var keys := Product(tenantOf(g), Members(t, g), ids);
    forall k: Key ensures (FromGroup(t', k) <==> Granted(tenantOf, t', k)) <==> (k in keys ==> Granted(tenantOf, t, k)) {
      assert FromGroup(t, k) <==> Granted(tenantOf, t, k);
      AddedGrants(tenantOf, t, t', g, keys, k);
    }
  }

  /** The same for an addition of users that an unknown address interrupts. */
  lemma InterruptedAddUsersUpToDateIff(tenantOf: TenantMap, t: Tables, g: GroupId, users: set<UserId>)
    requires UpToDate(tenantOf, t)
    ensures UpToDate(tenantOf, t.(users := t.users + ToUsers(g, users))) <==>
      forall k :: k in Product(tenantOf(g), users, Held(t, g)) ==> Granted(tenantOf, t, k)
  {
    var t' := t.(users := t.users + ToUsers(g, users));
    var keys := Product(tenantOf(g), users, Held(t, g));
    forall k: Key ensures (FromGroup(t', k) <==> Granted(tenantOf, t', k)) <==> (k in keys ==> Granted(tenantOf, t, k)) {
      assert FromGroup(t, k) <==> Granted(tenantOf, t, k);
      AddedGrants(tenantOf, t, t', g, keys, k);
    }
  }

  // ---------------------------------------------------------------------------------------
  // The service
  // ---------------------------------------------------------------------------------------

  datatype Error = RoleNotFound | UserNotFound | RowMissing

  datatype Done = Done

  /** Some of these rows are gone, and nothing else changed. */
  ghost predicate OnlyTaken(t: Roles.Table, t': Roles.Table, keys: set<Key>) {
    t.Keys - keys <= t'.Keys <= t.Keys && forall k :: k in t' ==> t'[k] == t[k]
  }

  lemma TakenInPart(t: Roles.Table, tenant: TenantId, taken: set<UserId>, u: UserId, all: set<UserId>,
                    ids: set<RoleId>, some: set<RoleId>, t': Roles.Table)
    requires taken + {u} <= all && some <= ids
    requires t' == (t - Product(tenant, taken, ids)) - RowsOf(tenant, u, some)
    ensures OnlyTaken(t, t', Product(tenant, all, ids))
  {}

  lemma PrefixSubset(ids: seq<RoleId>, i: nat)
    requires i <= |ids|
    ensures SetOf(ids[..i]) <= SetOf(ids)
  {}

  lemma NoProduct(t: Roles.Table, tenant: TenantId, ids: set<RoleId>)
    ensures Product(tenant, {}, ids) == {} && Saved(t, {}, true) == t && t - {} == t && AllHeld(t, {}, true)
  {}

  lemma ProductMore(tenant: TenantId, users: set<UserId>, u: UserId, ids: set<RoleId>)
    ensures Product(tenant, users + {u}, ids) == Product(tenant, users, ids) + RowsOf(tenant, u, ids)
    ensures u !in users ==> Product(tenant, users, ids) !! RowsOf(tenant, u, ids)
  {}

  lemma SavedTwice(t: Roles.Table, a: set<Key>, b: set<Key>)
    ensures Saved(Saved(t, a, true), b, true) == Saved(t, a + b, true)
  {}

  /** Whether rows can still be taken does not depend on other rows taken before. */
  lemma TakenTwice(t: Roles.Table, a: set<Key>, b: set<Key>)
    requires a !! b && AllHeld(t, a, true)
    ensures AllHeld(t - a, b, true) <==> AllHeld(t, a + b, true)
    ensures (t - a) - b == t - (a + b)
  {}

  class GroupService {
    const tenantOf: TenantMap
    const roleService: RoleService
    const emails: map<string, UserId>
    var groups: set<GroupId>
    var users: set<(GroupId, UserId)>
    var roles: set<(GroupId, RoleId)>

    constructor (tenantOf: TenantMap, roleService: RoleService, emails: map<string, UserId>)
      ensures this.tenantOf == tenantOf && this.roleService == roleService && this.emails == emails
      ensures groups == {} && users == {} && roles == {}
    {
      this.tenantOf, this.roleService, this.emails := tenantOf, roleService, emails;
      groups, users, roles := {}, {}, {};
    }

    ghost function Now(): Tables
      reads this, roleService
    {
      Tables(users, roles, roleService.rows)
    }

    ghost predicate Known(g: GroupId, names: seq<string>) {
      forall n :: n in names ==> (tenantOf(g), n) in roleService.directory.byName
    }

    ghost predicate KnownUsers(addresses: seq<string>) {
      forall e :: e in addresses ==> e in emails
    }

    ghost function RolesNamed(g: GroupId, names: seq<string>): set<RoleId> {
      Named(roleService.directory, tenantOf(g), SetOf(names))
    }

    ghost function UsersNamed(es: seq<string>): set<UserId> {
      set e | e in es && e in emails :: emails[e]
    }

    /** Gives the roles to every one of the users. */
    method GiveAll(tenant: TenantId, to: set<UserId>, ids: seq<RoleId>)
      modifies roleService
      ensures roleService.rows == Saved(old(roleService.rows), Product(tenant, to, SetOf(ids)), true)
    {
      hide Saved, Product, RowsOf, SetOf;
      var rest := to;
      assert to - rest == {};
      NoProduct(roleService.rows, tenant, SetOf(ids));
      while rest != {}
        invariant rest <= to
        invariant roleService.rows == Saved(old(roleService.rows), Product(tenant, to - rest, SetOf(ids)), true)
        decreases |rest|
      {
        var u :| u in rest;
        ProductMore(tenant, to - rest, u, SetOf(ids));
        SavedTwice(old(roleService.rows), Product(tenant, to - rest, SetOf(ids)), RowsOf(tenant, u, SetOf(ids)));
        roleService.AddRoles(u, tenant, ids, true);
        assert to - (rest - {u}) == (to - rest) + {u};
        rest := rest - {u};
      }
      assert to - {} == to;
    }

    /** Takes the roles from every one of the users, or raises at the first missing row. */
    method TakeAll(tenant: TenantId, from: set<UserId>, ids: seq<RoleId>) returns (ok: bool)
      requires Distinct(ids)
      modifies roleService
      ensures ok <==> AllHeld(old(roleService.rows), Product(tenant, from, SetOf(ids)), true)
      ensures ok ==> roleService.rows == old(roleService.rows) - Product(tenant, from, SetOf(ids))
      ensures OnlyTaken(old(roleService.rows), roleService.rows, Product(tenant, from, SetOf(ids)))
    {
      hide Product, RowsOf, SetOf, AllHeld, Distinct;
      var rest := from;
      assert from - rest == {};
      NoProduct(roleService.rows, tenant, SetOf(ids));
      while rest != {}
        invariant rest <= from
        invariant roleService.rows == old(roleService.rows) - Product(tenant, from - rest, SetOf(ids))
        invariant AllHeld(old(roleService.rows), Product(tenant, from - rest, SetOf(ids)), true)
        decreases |rest|
      {
        var u :| u in rest;
        var taken := from - rest;
        ProductMore(tenant, taken, u, SetOf(ids));
        TakenTwice(old(roleService.rows), Product(tenant, taken, SetOf(ids)), RowsOf(tenant, u, SetOf(ids)));
        assert from - (rest - {u}) == taken + {u};
        rest := rest - {u};
        ghost var before := roleService.rows;
        ok := roleService.RemoveRoles(u, tenant, ids, true);
        if !ok {
          ghost var i :| 0 <= i < |ids| && roleService.rows == before - RowsOf(tenant, u, SetOf(ids[..i]));
          PrefixSubset(ids, i);
          TakenInPart(old(roleService.rows), tenant, taken, u, from, SetOf(ids), SetOf(ids[..i]), roleService.rows);
          HeldInPart(old(roleService.rows), tenant, taken + {u}, from, SetOf(ids));
          return false;
        }
      }
      assert from - {} == from;
      ok := true;
    }

    method AddRoles(g: GroupId, names: seq<string>) returns (r: Result<Done, Error>)
      requires DirectoryOk(roleService.directory)
      modifies this, roleService
      ensures groups == old(groups)
      ensures r.Ok? <==> Known(g, names)
      ensures r.Ok? ==> Now() == RolesAdded(old(Now()), tenantOf(g), g, RolesNamed(g, names))
      ensures r.Err? ==> r.error == RoleNotFound && exists i | 0 <= i < |names| ::
        && Known(g, names[..i]) && (tenantOf(g), names[i]) !in roleService.directory.byName
        && Now() == old(Now()).(roles := old(roles) + ToRoles(g, RolesNamed(g, names[..i])))
    {
      hide Named, SetOf, ToRoles, Held;
      ghost var t := Now();
      ghost var d := roleService.directory;
      var oRole: seq<RoleId> := [];
      NoneNamed(d, tenantOf(g));
      NothingListed(t, g);
      for i := 0 to |names|
        invariant Known(g, names[..i]) && users == t.users && groups == old(groups) && roleService.rows == t.rows
        invariant roles == t.roles + ToRoles(g, RolesNamed(g, names[..i]))
        invariant SetOf(oRole) == RolesNamed(g, names[..i]) - Held(t, g)
      {
        if (tenantOf(g), names[i]) !in roleService.directory.byName {
          return Err(RoleNotFound);
        }
        var role := roleService.directory.byName[(tenantOf(g), names[i])];
        NamedGrows(d, tenantOf(g), names, i);
        ListedOnceMore(t, g, RolesNamed(g, names[..i]), role);
        SetOfMore(oRole, role);
        if (g, role) !in roles {
          roles := roles + {(g, role)};
          oRole := oRole + [role];
        }
      }
      assert names[..|names|] == names;
      var members := set p | p in users && p.0 == g :: p.1;
      GiveAll(tenantOf(g), members, oRole);
      r := Ok(Done.Done);
    }

    /** Ends normally exactly if the names are known and every member has the group's roles among
        them from a group. */
    method RemoveRoles(g: GroupId, names: seq<string>) returns (r: Result<Done, Error>)
      requires DirectoryOk(roleService.directory)
      modifies this, roleService
      ensures groups == old(groups)
      ensures var keys := Product(tenantOf(g), old(Members(Now(), g)), RolesNamed(g, names) * old(Held(Now(), g)));
        r.Ok? <==> Known(g, names) && AllHeld(old(roleService.rows), keys, true)
      ensures r.Ok? ==> Now() == RolesRemoved(old(Now()), tenantOf(g), g, RolesNamed(g, names))
      ensures r.Err? ==> r.error == if Known(g, names) then RowMissing else RoleNotFound
      ensures r == Err(RoleNotFound) ==> exists i | 0 <= i < |names| ::
        && Known(g, names[..i]) && (tenantOf(g), names[i]) !in roleService.directory.byName
        && Now() == old(Now()).(roles := old(roles) - ToRoles(g, RolesNamed(g, names[..i])))
      ensures var keys := Product(tenantOf(g), old(Members(Now(), g)), RolesNamed(g, names) * old(Held(Now(), g)));
        r == Err(RowMissing) ==>
          && users == old(users) && roles == old(roles) - ToRoles(g, RolesNamed(g, names))
          && OnlyTaken(old(roleService.rows), roleService.rows, keys)
      ensures UpToDate(tenantOf, old(Now())) ==> (r.Ok? <==> Known(g, names))
    {
      hide Named, SetOf, ToRoles, Held, AllHeld, Product, UpToDate, OnlyTaken;
      ghost var t := Now();
      ghost var d := roleService.directory;
      if UpToDate(tenantOf, t) { RemovedRolesSpareDirectRows(tenantOf, t, g, RolesNamed(g, names)); }
      var oRole: seq<RoleId> := [];
      NoneNamed(d, tenantOf(g));
      NothingListed(t, g);
      for i := 0 to |names|
        invariant Known(g, names[..i]) && users == t.users && groups == old(groups) && roleService.rows == t.rows
        invariant roles == t.roles - ToRoles(g, RolesNamed(g, names[..i]))
        invariant SetOf(oRole) == RolesNamed(g, names[..i]) * Held(t, g) && Distinct(oRole)
      {
        if (tenantOf(g), names[i]) !in roleService.directory.byName {
          return Err(RoleNotFound);
        }
        var role := roleService.directory.byName[(tenantOf(g), names[i])];
        NamedGrows(d, tenantOf(g), names, i);
        ListedOnceMore(t, g, RolesNamed(g, names[..i]), role);
        SetOfMore(oRole, role);
        if (g, role) in roles {
          roles := roles - {(g, role)};
          oRole := oRole + [role];
        }
      }
      assert names[..|names|] == names;
      var members := set p | p in users && p.0 == g :: p.1;
      var ok := TakeAll(tenantOf(g), members, oRole);
      r := if ok then Ok(Done.Done) else Err(RowMissing);
    }

    /** An unknown user ends the call with new members stored that have not been given the
        group's roles. */
    method AddUser(g: GroupId, es: seq<string>) returns (r: Result<Done, Error>)
      modifies this, roleService
      ensures groups == old(groups)
      ensures r.Ok? <==> KnownUsers(es)
      ensures r.Ok? ==> Now() == UsersAdded(old(Now()), tenantOf(g), g, UsersNamed(es))
      ensures r.Err? ==> r.error == UserNotFound && exists i | 0 <= i < |es| ::
        && KnownUsers(es[..i]) && es[i] !in emails
        && Now() == old(Now()).(users := old(users) + ToUsers(g, UsersNamed(es[..i])))
    {
      hide SetOf, ToUsers, Members;
      ghost var t := Now();
      var oUser: set<UserId> := {};
      NothingListed(t, g);
      assert UsersNamed(es[..0]) == {};
      for i := 0 to |es|
        invariant KnownUsers(es[..i]) && roles == t.roles && groups == old(groups) && roleService.rows == t.rows
        invariant users == t.users + ToUsers(g, UsersNamed(es[..i]))
        invariant oUser == UsersNamed(es[..i]) - Members(t, g)
      {
        if es[i] !in emails {
          return Err(UserNotFound);
        }
        var user := emails[es[i]];
        assert UsersNamed(es[..i + 1]) == UsersNamed(es[..i]) + {user};
        UserListedOnceMore(t, g, UsersNamed(es[..i]), user);
        if (g, user) !in users {
          users := users + {(g, user)};
          oUser := oUser + {user};
        }
      }
      assert es[..|es|] == es;
      var groupRoles := InSomeOrder(set p | p in roles && p.0 == g :: p.1);
      GiveAll(tenantOf(g), oUser, groupRoles);
      r := Ok(Done.Done);
    }

    method RemoveUser(g: GroupId, es: seq<string>) returns (r: Result<Done, Error>)
      modifies this, roleService
      ensures groups == old(groups)
      ensures var keys := Product(tenantOf(g), UsersNamed(es) * old(Members(Now(), g)), old(Held(Now(), g)));
        r.Ok? <==> KnownUsers(es) && AllHeld(old(roleService.rows), keys, true)
      ensures r.Ok? ==> Now() == UsersRemoved(old(Now()), tenantOf(g), g, UsersNamed(es))
      ensures r.Err? ==> r.error == if KnownUsers(es) then RowMissing else UserNotFound
      ensures r == Err(UserNotFound) ==> exists i | 0 <= i < |es| ::
        && KnownUsers(es[..i]) && es[i] !in emails
        && Now() == old(Now()).(users := old(users) - ToUsers(g, UsersNamed(es[..i])))
      ensures var keys := Product(tenantOf(g), UsersNamed(es) * old(Members(Now(), g)), old(Held(Now(), g)));
        r == Err(RowMissing) ==>
          && roles == old(roles) && users == old(users) - ToUsers(g, UsersNamed(es))
          && OnlyTaken(old(roleService.rows), roleService.rows, keys)
      ensures UpToDate(tenantOf, old(Now())) ==> (r.Ok? <==> KnownUsers(es))
    {
      hide SetOf, ToUsers, Members, AllHeld, Product, UpToDate, OnlyTaken;
      ghost var t := Now();
      if UpToDate(tenantOf, t) { RemovedUsersSpareDirectRows(tenantOf, t, g, UsersNamed(es)); }
      var oUser: set<UserId> := {};
      NothingListed(t, g);
      assert UsersNamed(es[..0]) == {};
      for i := 0 to |es|
        invariant KnownUsers(es[..i]) && roles == t.roles && groups == old(groups) && roleService.rows == t.rows
        invariant users == t.users - ToUsers(g, UsersNamed(es[..i]))
        invariant oUser == UsersNamed(es[..i]) * Members(t, g)
      {
        if es[i] !in emails {
          return Err(UserNotFound);
        }
        var user := emails[es[i]];
        assert UsersNamed(es[..i + 1]) == UsersNamed(es[..i]) + {user};
        UserListedOnceMore(t, g, UsersNamed(es[..i]), user);
        if (g, user) in users {
          users := users - {(g, user)};
          oUser := oUser + {user};
        }
      }
      assert es[..|es|] == es;
      var groupRoles := InSomeOrder(set p | p in roles && p.0 == g :: p.1);
      var ok := TakeAll(tenantOf(g), oUser, groupRoles);
      r := if ok then Ok(Done.Done) else Err(RowMissing);
    }

    /** The roles of the group are roles of its tenant; `emailOf` gives its members' addresses. */
    ghost predicate Listed(g: GroupId, emailOf: map<UserId, string>)
      reads this
    {
      && (forall p :: p in roles && p.0 == g ==>
            p.1 in roleService.directory.roles && roleService.directory.roles[p.1].0 == tenantOf(g))
      && (forall p :: p in users && p.0 == g ==>
            p.1 in emailOf && emailOf[p.1] in emails && emails[emailOf[p.1]] == p.1)
    }

    lemma MembersByEmail(es: seq<string>, members: set<UserId>, emailOf: map<UserId, string>)
      requires forall u :: u in members ==> u in emailOf && emailOf[u] in emails && emails[emailOf[u]] == u
      requires SetOf(es) == set u | u in members && u in emailOf :: emailOf[u]
      ensures KnownUsers(es) && UsersNamed(es) == members
    {
      forall u | u in members ensures emailOf[u] in es { assert emailOf[u] in SetOf(es); }
      forall e | e in es ensures exists u :: u in members && emailOf[u] == e { assert e in SetOf(es); }
    }

    /** First all roles leave the group, then all members, then the group goes. With the copy
        right the call ends normally; everything the group granted is taken, and no more. */
    method DeleteById(g: GroupId, emailOf: map<UserId, string>) returns (r: Result<Done, Error>)
      requires DirectoryOk(roleService.directory) && Listed(g, emailOf)
      modifies this, roleService
      ensures UpToDate(tenantOf, old(Now())) ==> r.Ok?
      ensures var keys := Product(tenantOf(g), old(Members(Now(), g)), old(Held(Now(), g)));
        && (r.Ok? <==> AllHeld(old(roleService.rows), keys, true))
        && (r.Err? ==>
             && r.error == RowMissing && groups == old(groups) && users == old(users)
             && roles == old(roles) - ToRoles(g, old(Held(Now(), g)))
             && OnlyTaken(old(roleService.rows), roleService.rows, keys))
      ensures r.Ok? ==> groups == old(groups) - {g} && Now() == GroupDeleted(old(Now()), tenantOf(g), g)
    {
      hide Product, AllHeld, UpToDate;
      ghost var t := Now();
      var held := set p | p in roles && p.0 == g :: p.1;
      var roleNames := InSomeOrder(NamesOf(roleService.directory, held));
      NamesOfGroup(roleService.directory, tenantOf(g), held, roleNames);
      assert RolesNamed(g, roleNames) * Held(t, g) == Held(t, g);
      r := RemoveRoles(g, roleNames);
      if r.Err? { return; }
      ghost var t1 := Now();
      NothingHeld(t, t1, tenantOf(g), g);
      var members := set p | p in users && p.0 == g :: p.1;
      var es := InSomeOrder(set u | u in members && u in emailOf :: emailOf[u]);
      MembersByEmail(es, members, emailOf);
      r := RemoveUser(g, es);
      if r.Err? { return; }
      assert members * Members(t1, g) == members;
      groups := groups - {g};
    }
  }

  lemma UserListedOnceMore(t: Tables, g: GroupId, done: set<UserId>, u: UserId)
    ensures ToUsers(g, done + {u}) == ToUsers(g, done) + {(g, u)}
    ensures (g, u) in t.users + ToUsers(g, done) <==> u in Members(t, g) || u in done
    ensures (g, u) in t.users - ToUsers(g, done) <==> u in Members(t, g) && u !in done
  {}

  /** The names of the group's roles stand for exactly those roles. */
  lemma NamesOfGroup(d: Directory, tenant: TenantId, held: set<RoleId>, names: seq<string>)
    requires DirectoryOk(d) && SetOf(names) == NamesOf(d, held)
    requires forall r :: r in held ==> r in d.roles && d.roles[r].0 == tenant
    ensures Named(d, tenant, SetOf(names)) == held
    ensures forall n :: n in names ==> (tenant, n) in d.byName
  {
    forall n | n in names ensures (tenant, n) in d.byName { assert n in SetOf(names); }
    forall r | r in held ensures d.roles[r].1 in SetOf(names) { assert d.roles[r].1 in NamesOf(d, held); }
  }

  /** A group without roles grants nothing, so taking its members takes no row. */
  lemma NothingHeld(t: Tables, t1: Tables, tenant: TenantId, g: GroupId)
    requires t1.roles == t.roles - ToRoles(g, Held(t, g)) && t1.users == t.users
    ensures Held(t1, g) == {} && Members(t1, g) == Members(t, g)
    ensures forall us :: Product(tenant, us, Held(t1, g)) == {}
    ensures AllHeld(t1.rows, {}, true)
  {}

  lemma NothingListed(t: Tables, g: GroupId)
    ensures SetOf<RoleId>([]) == {} && Distinct<RoleId>([])
    ensures t.roles + ToRoles(g, {}) == t.roles && t.roles - ToRoles(g, {}) == t.roles
    ensures t.users + ToUsers(g, {}) == t.users && t.users - ToUsers(g, {}) == t.users
  {}

  lemma ListedOnceMore(t: Tables, g: GroupId, done: set<RoleId>, r: RoleId)
    ensures ToRoles(g, done + {r}) == ToRoles(g, done) + {(g, r)}
    ensures (g, r) in t.roles + ToRoles(g, done) <==> r in Held(t, g) || r in done
    ensures (g, r) in t.roles - ToRoles(g, done) <==> r in Held(t, g) && r !in done
  {}

  lemma HeldInPart(t: Roles.Table, tenant: TenantId, some: set<UserId>, all: set<UserId>, ids: set<RoleId>)
    requires some <= all && !AllHeld(t, Product(tenant, some, ids), true)
    ensures !AllHeld(t, Product(tenant, all, ids), true)
  {}
}
