/**
 A user's consent to a client: one record per user and client, widened by every grant.
 */
module Consents {
  import opened Wrappers
  import opened Scopes

  type Key = (string, string)   // user, client

  datatype Consent = Consent(grantedScopes: string, version: nat)

  type Table = map<Key, Consent>

  function GrantedSet(c: Consent): set<string> {
    Elements(Parse(c.grantedScopes))
  }

  /** The record covers everything asked for. */
  predicate Covers(t: Table, k: Key, requested: set<string>) {
    k in t && requested <= GrantedSet(t[k])
  }

  function Granted(t: Table, k: Key, approved: seq<string>): Table {
    if k in t then
      t[k := Consent(Format(Union(Parse(t[k].grantedScopes), approved)), t[k].version + 1)]
    else t[k := Consent(Format(approved), 1)]
  }

  class ConsentService {
    var rows: Table

    constructor ()
      ensures rows == map[]
    {
      rows := map[];
    }

    method CheckConsent(userId: string, clientId: string, requested: seq<string>) returns (consentRequired: bool)
      ensures consentRequired <==> !Covers(rows, (userId, clientId), Elements(requested))
    {
      if (userId, clientId) !in rows {
        return true;
      }
      var granted := Parse(rows[(userId, clientId)].grantedScopes);
      consentRequired := !forall scope :: scope in requested ==> scope in granted;
      assert forall scope :: scope in requested <==> scope in Elements(requested);
      assert forall scope :: scope in granted <==> scope in Elements(granted);
    }

    method GrantConsent(userId: string, clientId: string, approved: seq<string>)
      modifies this
      ensures rows == Granted(old(rows), (userId, clientId), approved)
    {
      var k := (userId, clientId);
      if k !in rows {
        rows := rows[k := Consent(Format(approved), 1)];
      } else {
        var consent := rows[k];
        var merged := Union(Parse(consent.grantedScopes), approved);
        rows := rows[k := Consent(Format(merged), consent.version + 1)];
      }
    }
  }

  // ---------------------------------------------------------------------------------------
  // What the records amount to
  // ---------------------------------------------------------------------------------------

  lemma CleanIsSeparatorFree(xs: seq<string>)
    requires AllClean(xs, IsSeparator)
    ensures SeparatorFree(xs) && "" !in Elements(xs)
  {}

  /** A grant widens the record by exactly the approved scopes and touches no other record. */
  lemma GrantWidens(t: Table, k: Key, approved: seq<string>)
    requires AllClean(approved, IsSeparator)
    ensures var t' := Granted(t, k, approved);
      && t'.Keys == t.Keys + {k}
      && GrantedSet(t'[k]) == (if k in t then GrantedSet(t[k]) else {}) + Elements(approved)
      && t'[k].version == (if k in t then t[k].version else 0) + 1
      && forall j :: j in t && j != k ==> t'[j] == t[j]
  {
    CleanIsSeparatorFree(approved);
    if k in t {
      var before := Parse(t[k].grantedScopes);
      ParseMeaning(t[k].grantedScopes);
      CleanIsSeparatorFree(before);
      UnionMeaning(before, approved);
      var merged := Union(before, approved);
      forall x, c | x in merged && c in x ensures !IsSeparator(c) {
        assert x in Elements(merged);
        assert x in before || x in approved;
      }
      ParseOfFormat(merged);
    } else {
      ParseOfFormat(approved);
    }
  }

  datatype Grant = Grant(key: Key, scopes: seq<string>)

  /** All scopes granted for `k`, and how often. */
  function GrantedIn(grants: seq<Grant>, k: Key): set<string> {
    if grants == [] then {}
    else
      var last := grants[|grants| - 1];
      GrantedIn(grants[..|grants| - 1], k) + (if last.key == k then Elements(last.scopes) else {})
  }

  function TimesGranted(grants: seq<Grant>, k: Key): nat {
    if grants == [] then 0
    else TimesGranted(grants[..|grants| - 1], k) + (if grants[|grants| - 1].key == k then 1 else 0)
  }

  /** The table is what the grants made in this order leave behind. */
  ghost predicate Reflects(t: Table, grants: seq<Grant>) {
    forall k :: ReflectsAt(t, grants, k)
  }

  ghost predicate ReflectsAt(t: Table, grants: seq<Grant>, k: Key) {
    && (k in t <==> TimesGranted(grants, k) > 0)
    && (k in t ==> GrantedSet(t[k]) == GrantedIn(grants, k) && t[k].version == TimesGranted(grants, k))
    && (k !in t ==> GrantedIn(grants, k) == {})
  }

  /** Consent covers a request exactly if something was ever granted for this user and client, and
      everything asked for was. */
  lemma CoveredIff(t: Table, grants: seq<Grant>, k: Key, requested: set<string>)
    requires Reflects(t, grants)
    ensures Covers(t, k, requested) <==>
      (exists i :: 0 <= i < |grants| && grants[i].key == k)
      && forall w :: w in requested ==> exists i :: 0 <= i < |grants| && grants[i].key == k && w in grants[i].scopes
  {
    assert ReflectsAt(t, grants, k);
    GrantedInIff(grants, k);
  }

  lemma {:induction false} GrantedInIff(grants: seq<Grant>, k: Key)
    ensures TimesGranted(grants, k) > 0 <==> exists i :: 0 <= i < |grants| && grants[i].key == k
    ensures forall w :: w in GrantedIn(grants, k) <==>
      exists i :: 0 <= i < |grants| && grants[i].key == k && w in grants[i].scopes
  {
    if grants != [] {
      var init, last := grants[..|grants| - 1], grants[|grants| - 1];
      GrantedInIff(init, k);
      assert grants == init + [last];
      forall i | 0 <= i < |init| ensures grants[i] == init[i] {}
    }
  }

  lemma GrantReflected(t: Table, grants: seq<Grant>, g: Grant)
    requires Reflects(t, grants) && AllClean(g.scopes, IsSeparator)
    ensures Reflects(Granted(t, g.key, g.scopes), grants + [g])
  {
    var t' := Granted(t, g.key, g.scopes);
    GrantWidens(t, g.key, g.scopes);
    assert (grants + [g])[..|grants|] == grants;
    hide Granted, GrantedSet;
    forall k ensures ReflectsAt(t', grants + [g], k) {
      assert ReflectsAt(t, grants, k);
    }
  }
}
