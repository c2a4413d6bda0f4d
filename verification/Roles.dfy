/**
 The roles of users in tenants. A row says whether it was granted directly or through a group;
 that flag is not part of the key, so a user holds a role in a tenant in one way only.

 `roles` gives the tenant and name of every role and `byName` finds it; names are unique within a
 tenant. Roles a user holds in a tenant that belong to another tenant (app-owned roles) are
 never touched by the operations on names.
 */
module Roles {
  import opened Wrappers

  type TenantId = nat
  type UserId = nat
  type RoleId = nat

  type Key = (TenantId, UserId, RoleId)

  /** Row key to `from_group`. */
  type Table = map<Key, bool>

  datatype Directory = Directory(roles: map<RoleId, (TenantId, string)>, byName: map<(TenantId, string), RoleId>)

  ghost predicate DirectoryOk(d: Directory) {
    && (forall k :: k in d.byName ==> d.byName[k] in d.roles && d.roles[d.byName[k]] == k)
    && (forall r :: r in d.roles ==> d.roles[r] in d.byName && d.byName[d.roles[r]] == r)
  }

  ghost function RowsOf(tenant: TenantId, user: UserId, roles: set<RoleId>): set<Key> {
    set r | r in roles :: (tenant, user, r)
  }

  /** Rows written with the given flag, over whatever was there. */
  ghost function Saved(t: Table, keys: set<Key>, fromGroup: bool): Table {
    map k | k in t.Keys + keys :: if k in keys then fromGroup else t[k]
  }

  /** All of the rows are there and were granted this way. */
  ghost predicate AllHeld(t: Table, keys: set<Key>, fromGroup: bool) {
    forall k :: k in keys ==> k in t && t[k] == fromGroup
  }

  ghost predicate Distinct<T>(xs: seq<T>) {
    forall i, j :: 0 <= i < j < |xs| ==> xs[i] != xs[j]
  }

  ghost function SetOf<T>(xs: seq<T>): set<T> {
    set x | x in xs
  }

  /** The roles of the tenant with these names. */
  ghost function Named(d: Directory, tenant: TenantId, names: set<string>): set<RoleId> {
    set r | r in d.roles && d.roles[r].0 == tenant && d.roles[r].1 in names
  }

  function MemberRoles(d: Directory, t: Table, tenant: TenantId, user: UserId): set<RoleId> {
    set r | r in d.roles && d.roles[r].0 == tenant && (tenant, user, r) in t
  }

  /** What `updateUserRoles` leaves: exactly the requested roles that exist, the kept ones with
      the flag they had, new ones granted directly. */
  ghost function Updated(d: Directory, t: Table, tenant: TenantId, user: UserId, names: set<string>): Table {
    var wanted := Named(d, tenant, names);
    var unwanted := RowsOf(tenant, user, MemberRoles(d, t, tenant, user) - wanted);
    Saved(t, RowsOf(tenant, user, wanted - MemberRoles(d, t, tenant, user)), false) - unwanted
  }

  class RoleService {
    const directory: Directory
    var rows: Table

    ghost predicate Valid() {
      DirectoryOk(directory)
    }

    constructor (directory: Directory)
      ensures this.directory == directory && rows == map[]
    {
      this.directory := directory;
      rows := map[];
    }

    /** Roles given as entities. */
    method AddRoles(user: UserId, tenant: TenantId, ids: seq<RoleId>, fromGroup: bool)
      modifies this
      ensures rows == Saved(old(rows), RowsOf(tenant, user, SetOf(ids)), fromGroup)
    {
      hide Saved, RowsOf, SetOf;
      NothingSaved(rows, tenant, user, fromGroup);
      for i := 0 to |ids|
        invariant rows == Saved(old(rows), RowsOf(tenant, user, SetOf(ids[..i])), fromGroup)
      {
        SavedOneMore(old(rows), tenant, user, SetOf(ids[..i]), ids[i], fromGroup);
        IdsOneMore(ids, i);
        rows := rows[(tenant, user, ids[i]) := fromGroup];
      }
      assert ids[..|ids|] == ids;
    }

    /** Roles given by name: unknown names are skipped. */
    method AddNamedRoles(user: UserId, tenant: TenantId, names: seq<string>, fromGroup: bool)
      requires Valid()
      modifies this
      ensures rows == Saved(old(rows), RowsOf(tenant, user, Named(directory, tenant, SetOf(names))), fromGroup)
    {
      hide Saved, RowsOf, Named, SetOf;
      NothingSaved(rows, tenant, user, fromGroup);
      NoneNamed(directory, tenant);
      for i := 0 to |names|
        invariant rows == Saved(old(rows), RowsOf(tenant, user, Named(directory, tenant, SetOf(names[..i]))), fromGroup)
      {
        ghost var done := Named(directory, tenant, SetOf(names[..i]));
        NamedGrows(directory, tenant, names, i);
        if (tenant, names[i]) in directory.byName {
          var role := directory.byName[(tenant, names[i])];
          SavedOneMore(old(rows), tenant, user, done, role, fromGroup);
          rows := rows[(tenant, user, role) := fromGroup];
        } else {
          assert done + {} == done;
        }
      }
      assert names[..|names|] == names;
    }

    /** Removes row by row; a row that is not there (any more) raises. */
    method RemoveRoles(user: UserId, tenant: TenantId, ids: seq<RoleId>, fromGroup: bool) returns (ok: bool)
      modifies this
      ensures Removal(old(rows), tenant, user, ids, fromGroup, ok, rows)
    {
      for i := 0 to |ids|
        invariant rows == old(rows) - RowsOf(tenant, user, SetOf(ids[..i]))
        invariant Distinct(ids[..i]) && AllHeld(old(rows), RowsOf(tenant, user, SetOf(ids[..i])), fromGroup)
      {
        var k := (tenant, user, ids[i]);
        if k !in rows || rows[k] != fromGroup {
          if ids[i] !in ids[..i] { assert k in RowsOf(tenant, user, SetOf(ids)); }
          return false;
        }
        NotYetGone(tenant, user, ids[..i], ids[i], rows);
        rows := rows - {k};
        assert SetOf(ids[..i + 1]) == SetOf(ids[..i]) + {ids[i]};
        assert RowsOf(tenant, user, SetOf(ids[..i + 1])) == RowsOf(tenant, user, SetOf(ids[..i])) + {k};
      }
      assert ids[..|ids|] == ids;
      ok := true;
    }

    /** Ends normally exactly if every role to be withdrawn was granted directly. Then the user
        holds exactly the requested roles that exist; otherwise still at least those. */
    method UpdateUserRoles(names: seq<string>, tenant: TenantId, user: UserId) returns (r: Option<set<RoleId>>)
      requires Valid()
      modifies this
      ensures var wanted := Named(directory, tenant, SetOf(names));
        var member := MemberRoles(directory, old(rows), tenant, user);
        && (r.Some? <==> AllHeld(old(rows), RowsOf(tenant, user, member - wanted), false))
        && (r.Some? ==> r.value == wanted && rows == Updated(directory, old(rows), tenant, user, SetOf(names)))
        && wanted <= MemberRoles(directory, rows, tenant, user) <= member + wanted
    {
      hide Saved, RowsOf, Named, SetOf, MemberRoles, AllHeld, Updated, NamesOf, Distinct, Removal, KnownIds;
      var memberRoles := MemberRoles(directory, rows, tenant, user);
      var previous := NamesOf(directory, memberRoles);
      var toAdd := Missing(names, previous);
      NamesOfMembers(directory, rows, tenant, user, toAdd, names);
      AddNamedRoles(user, tenant, toAdd, false);
      ghost var added := rows;
      var toRemove := InSomeOrder(set n | n in previous && n !in names);
      KnownIdsMeaning(directory, tenant, toRemove);
      ghost var ids := KnownIds(directory, tenant, toRemove);
      var ok := RemoveNamedRoles(user, tenant, toRemove, false);
      assert Removal(added, tenant, user, ids, false, ok, rows);
      Outcome(directory, old(rows), tenant, user, SetOf(names), ids, ok, rows);
      if !ok { return None; }
      return Some(MemberRoles(directory, rows, tenant, user));
    }

    /** Names are looked up one by one; unknown ones are skipped. */
    method RemoveNamedRoles(user: UserId, tenant: TenantId, names: seq<string>, fromGroup: bool) returns (ok: bool)
      requires Valid()
      modifies this
      ensures Removal(old(rows), tenant, user, KnownIds(directory, tenant, names), fromGroup, ok, rows)
    {
      var ids: seq<RoleId> := [];
      for i := 0 to |names|
        invariant ids == KnownIds(directory, tenant, names[..i])
      {
        if (tenant, names[i]) in directory.byName {
          ids := ids + [directory.byName[(tenant, names[i])]];
        }
        assert names[..i + 1][..i] == names[..i];
      }
      assert names[..|names|] == names;
      ok := RemoveRoles(user, tenant, ids, fromGroup);
    }
  }

  /** Removing row by row: all of them, if each was there once with this flag; else a first part. */
  ghost predicate Removal(t: Table, tenant: TenantId, user: UserId, ids: seq<RoleId>, fromGroup: bool, ok: bool,
                          t': Table)
  {
    && (ok <==> Distinct(ids) && AllHeld(t, RowsOf(tenant, user, SetOf(ids)), fromGroup))
    && (ok ==> t' == t - RowsOf(tenant, user, SetOf(ids)))
    && (!ok ==> exists i | 0 <= i < |ids| ::
         && t' == t - RowsOf(tenant, user, SetOf(ids[..i]))
         && Distinct(ids[..i]) && AllHeld(t, RowsOf(tenant, user, SetOf(ids[..i])), fromGroup)
         && (ids[i] in ids[..i] || (tenant, user, ids[i]) !in t || t[(tenant, user, ids[i])] != fromGroup))
  }

  /** The ids of the names that exist, in order. */
  function KnownIds(d: Directory, tenant: TenantId, names: seq<string>): seq<RoleId> {
    if names == [] then []
    else
      var n := names[|names| - 1];
      KnownIds(d, tenant, names[..|names| - 1]) + if (tenant, n) in d.byName then [d.byName[(tenant, n)]] else []
  }

  lemma SetOfMore<T>(xs: seq<T>, x: T)
    ensures SetOf(xs + [x]) == SetOf(xs) + {x}
    ensures Distinct(xs) && x !in SetOf(xs) ==> Distinct(xs + [x])
  {}

  lemma {:induction false} KnownIdsMeaning(d: Directory, tenant: TenantId, names: seq<string>)
    requires DirectoryOk(d)
    ensures SetOf(KnownIds(d, tenant, names)) == Named(d, tenant, SetOf(names))
    ensures Distinct(names) ==> Distinct(KnownIds(d, tenant, names))
  {
    if names != [] {
      var i := |names| - 1;
      KnownIdsMeaning(d, tenant, names[..i]);
      NamedGrows(d, tenant, names, i);
      assert names[..i + 1] == names;
      if Distinct(names) && (tenant, names[i]) in d.byName {
        var id := d.byName[(tenant, names[i])];
        assert names[i] !in SetOf(names[..i]);
        assert id !in SetOf(KnownIds(d, tenant, names[..i]));
      }
    }
  }

  /** What the additions followed by the removals amount to. */
  lemma Outcome(d: Directory, t: Table, tenant: TenantId, user: UserId, names: set<string>, ids: seq<RoleId>,
                ok: bool, t': Table)
    requires Distinct(ids) && SetOf(ids) == MemberRoles(d, t, tenant, user) - Named(d, tenant, names)
    requires Removal(Saved(t, RowsOf(tenant, user, Named(d, tenant, names) - MemberRoles(d, t, tenant, user)), false),
                     tenant, user, ids, false, ok, t')
    ensures var wanted := Named(d, tenant, names); var member := MemberRoles(d, t, tenant, user);
      && (ok <==> AllHeld(t, RowsOf(tenant, user, member - wanted), false))
      && (ok ==> t' == Updated(d, t, tenant, user, names) && MemberRoles(d, t', tenant, user) == wanted)
      && wanted <= MemberRoles(d, t', tenant, user) <= member + wanted
  {}

  /** The requested names that are not there yet, in the order and as often as requested. */
  method Missing(names: seq<string>, present: set<string>) returns (r: seq<string>)
    ensures forall n :: n in r <==> n in names && n !in present
  {
    r := [];
    for i := 0 to |names|
      invariant forall n :: n in r <==> n in names[..i] && n !in present
    {
      if names[i] !in present { r := r + [names[i]]; }
    }
  }

  /** What a set or a table yields, in whatever order it yields it. */
  method InSomeOrder<T(==)>(xs: set<T>) returns (r: seq<T>)
    ensures SetOf(r) == xs && Distinct(r)
  {
    r := [];
    var rest := xs;
    while rest != {}
      invariant SetOf(r) + rest == xs && SetOf(r) !! rest && Distinct(r)
      decreases |rest|
    {
      var x :| x in rest;
      SetOfMore(r, x);
      r, rest := r + [x], rest - {x};
    }
  }

  function NamesOf(d: Directory, roles: set<RoleId>): set<string> {
    set r | r in roles && r in d.roles :: d.roles[r].1
  }

  lemma NothingSaved(t: Table, tenant: TenantId, user: UserId, fromGroup: bool)
    ensures SetOf<RoleId>([]) == {} && t == Saved(t, RowsOf(tenant, user, {}), fromGroup)
  {}

  lemma NoneNamed(d: Directory, tenant: TenantId)
    ensures SetOf<string>([]) == {} && Distinct<string>([]) && Named(d, tenant, {}) == {}
  {}

  lemma SavedOneMore(t: Table, tenant: TenantId, user: UserId, roles: set<RoleId>, r: RoleId, fromGroup: bool)
    ensures Saved(t, RowsOf(tenant, user, roles + {r}), fromGroup)
         == Saved(t, RowsOf(tenant, user, roles), fromGroup)[(tenant, user, r) := fromGroup]
  {}

  lemma IdsOneMore(ids: seq<RoleId>, i: nat)
    requires i < |ids|
    ensures SetOf(ids[..i + 1]) == SetOf(ids[..i]) + {ids[i]}
  {}

  lemma NotYetGone(tenant: TenantId, user: UserId, ids: seq<RoleId>, r: RoleId, t: Table)
    requires (tenant, user, r) in t && t.Keys !! RowsOf(tenant, user, SetOf(ids))
    ensures r !in ids
  {}

  lemma NamedGrows(d: Directory, tenant: TenantId, names: seq<string>, i: nat)
    requires DirectoryOk(d) && i < |names|
    ensures Named(d, tenant, SetOf(names[..i + 1])) ==
      Named(d, tenant, SetOf(names[..i]))
      + if (tenant, names[i]) in d.byName then {d.byName[(tenant, names[i])]} else {}
  {}

  /** The names to add and to remove stand for the roles to add and to remove. */
  lemma NamesOfMembers(d: Directory, t: Table, tenant: TenantId, user: UserId, toAdd: seq<string>, names: seq<string>)
    requires DirectoryOk(d)
    requires forall n :: n in toAdd <==> n in names && n !in NamesOf(d, MemberRoles(d, t, tenant, user))
    ensures var member := MemberRoles(d, t, tenant, user);
      var wanted := Named(d, tenant, SetOf(names));
      && Named(d, tenant, SetOf(toAdd)) == wanted - member
      && var rest := set n | n in NamesOf(d, member) && n !in names;
         Named(d, tenant, rest) == member - wanted && forall n :: n in rest ==> (tenant, n) in d.byName
  {}

  /** A second update with the same names changes nothing. */
  lemma UpdateIdempotent(d: Directory, t: Table, tenant: TenantId, user: UserId, names: set<string>)
    requires DirectoryOk(d)
    ensures var t' := Updated(d, t, tenant, user, names);
      MemberRoles(d, t', tenant, user) == Named(d, tenant, names) && Updated(d, t', tenant, user, names) == t'
  {}

  /** Rows of other users, other tenants and roles owned elsewhere stay, and kept roles keep
      their flag. */
  lemma UpdateKeepsTheRest(d: Directory, t: Table, tenant: TenantId, user: UserId, names: set<string>, k: Key)
    requires DirectoryOk(d)
    ensures var t' := Updated(d, t, tenant, user, names);
      && (k.0 != tenant || k.1 != user || k.2 !in d.roles || d.roles[k.2].0 != tenant ==>
           (k in t <==> k in t') && (k in t ==> t'[k] == t[k]))
      && (k in t && k in t' ==> t'[k] == t[k])
      && (k in t' && k !in t ==> !t'[k])
  {}

  /** An update that ends normally leaves the rows that came from groups exactly as they were. */
  lemma UpdateSparesGroupRows(d: Directory, t: Table, tenant: TenantId, user: UserId, names: set<string>)
    requires AllHeld(t, RowsOf(tenant, user, MemberRoles(d, t, tenant, user) - Named(d, tenant, names)), false)
    ensures var t' := Updated(d, t, tenant, user, names);
      forall k :: (k in t && t[k]) <==> (k in t' && t'[k])
  {}
}
