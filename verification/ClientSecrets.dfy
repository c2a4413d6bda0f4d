/**
 The secrets of one client: rotation with a 24 h overlap, and which secrets are accepted when.

 scrypt is a constructor, so it is injective in secret and salt; expiry dates keep their
 milliseconds when they are written as ISO strings.
 */
module ClientSecrets {
  import opened Wrappers

  type Time = int

  const DAY_MS: int := 24 * 60 * 60 * 1000

  datatype Hash = Scrypt(secret: string, salt: string)

  datatype Entry = Entry(hash: Hash, salt: string, createdAt: Time, expiresAt: Option<Time>)

  datatype Secrets = Secrets(isPublic: bool, entries: seq<Entry>)

  function NewEntry(secret: string, salt: string, now: Time): Entry {
    Entry(Scrypt(secret, salt), salt, now, None)
  }

  function Expiring(e: Entry, at: Time): Entry {
    if e.expiresAt.None? then e.(expiresAt := Some(at)) else e
  }

  function Created(isPublic: bool, secret: string, salt: string, now: Time): Secrets {
    Secrets(isPublic, if isPublic then [] else [NewEntry(secret, salt, now)])
  }

  function Rotated(c: Secrets, secret: string, salt: string, now: Time): Secrets {
    var expiring := seq(|c.entries|, i requires 0 <= i < |c.entries| => Expiring(c.entries[i], now + DAY_MS));
    Secrets(false, expiring + [NewEntry(secret, salt, now)])
  }

  /** The entry is compared with the presented secret at all. */
  predicate Considered(e: Entry, now: Time) {
    e.expiresAt.None? || now <= e.expiresAt.value
  }

  predicate Matches(e: Entry, secret: string) {
    Scrypt(secret, e.salt) == e.hash
  }

  ghost predicate Accepts(entries: seq<Entry>, secret: string, now: Time) {
    exists i :: 0 <= i < |entries| && Considered(entries[i], now) && Matches(entries[i], secret)
  }

  class ClientRecord {
    var isPublic: bool
    var clientSecrets: seq<Entry>

    function Contents(): Secrets
      reads this
    {
      Secrets(isPublic, clientSecrets)
    }

    /** The secret list and the flag of a newly created client. */
    constructor (isPublic: bool, secret: string, salt: string, now: Time)
      ensures Contents() == Created(isPublic, secret, salt, now)
    {
      this.isPublic := isPublic;
      clientSecrets := [];
      if !isPublic {
        clientSecrets := [Entry(Scrypt(secret, salt), salt, now, None)];
      }
    }

    method RotateSecret(secret: string, salt: string, now: Time)
      modifies this
      ensures Contents() == Rotated(old(Contents()), secret, salt, now)
    {
      if isPublic {
        isPublic := false;
      }
      var expiresAt := now + 24 * 60 * 60 * 1000;
      for i := 0 to |clientSecrets|
        invariant !isPublic && |clientSecrets| == |old(clientSecrets)|
        invariant forall j :: 0 <= j < i ==> clientSecrets[j] == Expiring(old(clientSecrets)[j], expiresAt)
        invariant forall j :: i <= j < |clientSecrets| ==> clientSecrets[j] == old(clientSecrets)[j]
      {
        if clientSecrets[i].expiresAt.None? {
          clientSecrets := clientSecrets[i := clientSecrets[i].(expiresAt := Some(expiresAt))];
        }
      }
      clientSecrets := clientSecrets + [Entry(Scrypt(secret, salt), salt, now, None)];
    }

    method ValidateClientSecret(secret: string, now: Time) returns (ok: bool)
      ensures ok <==> isPublic || Accepts(clientSecrets, secret, now)
    {
      if isPublic {
        return true;
      }
      for i := 0 to |clientSecrets|
        invariant forall j :: 0 <= j < i ==> !(Considered(clientSecrets[j], now) && Matches(clientSecrets[j], secret))
      {
        var entry := clientSecrets[i];
        if entry.expiresAt.Some? && entry.expiresAt.value < now {
          continue;
        }
        if Scrypt(secret, entry.salt) == entry.hash {
          return true;
        }
      }
      return false;
    }
  }

  // ---------------------------------------------------------------------------------------
  // Any sequence of rotations
  // ---------------------------------------------------------------------------------------

  datatype Rotation = Rotation(secret: string, salt: string, at: Time)

  function RotatedAll(c: Secrets, rs: seq<Rotation>): Secrets
    decreases rs
  {
    if rs == [] then c else RotatedAll(Rotated(c, rs[0].secret, rs[0].salt, rs[0].at), rs[1..])
  }

  /** Each entry but the last expires a day after the next one was created; the last does not
      expire; every entry was made from its secret and salt. */
  ghost predicate Chained(c: Secrets) {
    && (forall i :: 0 <= i < |c.entries| - 1 ==> c.entries[i].expiresAt == Some(c.entries[i + 1].createdAt + DAY_MS))
    && (c.entries != [] ==> c.entries[|c.entries| - 1].expiresAt.None?)
    && (!c.isPublic ==> c.entries != [])
    && (forall i :: 0 <= i < |c.entries| ==> c.entries[i].hash.salt == c.entries[i].salt)
  }

  /** Later lists keep every entry in its place, and an expiry that was set. */
  ghost predicate Extends(c: Secrets, c': Secrets) {
    && |c.entries| <= |c'.entries|
    && forall i :: 0 <= i < |c.entries| ==>
         && c'.entries[i].(expiresAt := None) == c.entries[i].(expiresAt := None)
         && (c.entries[i].expiresAt.Some? ==> c'.entries[i].expiresAt == c.entries[i].expiresAt)
  }

  lemma RotationKeepsChain(c: Secrets, r: Rotation)
    requires Chained(c)
    ensures var c' := Rotated(c, r.secret, r.salt, r.at); Chained(c') && Extends(c, c')
  {
    var c' := Rotated(c, r.secret, r.salt, r.at);
    forall i | 0 <= i < |c'.entries| - 1 ensures c'.entries[i].expiresAt == Some(c'.entries[i + 1].createdAt + DAY_MS) {
      assert c'.entries[i] == Expiring(c.entries[i], r.at + DAY_MS);
    }
  }

  lemma {:induction false} RotationsKeepChain(c: Secrets, rs: seq<Rotation>)
    requires Chained(c)
    ensures Chained(RotatedAll(c, rs)) && Extends(c, RotatedAll(c, rs))
    decreases rs
  {
    if rs != [] {
      var c1 := Rotated(c, rs[0].secret, rs[0].salt, rs[0].at);
      RotationKeepsChain(c, rs[0]);
      RotationsKeepChain(c1, rs[1..]);
      assert Extends(c1, RotatedAll(c, rs));
    }
  }

  /** A client that has ever had a secret has exactly one that does not expire: the last. */
  lemma OneLastingSecret(isPublic: bool, secret: string, salt: string, at: Time, rs: seq<Rotation>, i: nat)
    requires var c := RotatedAll(Created(isPublic, secret, salt, at), rs); i < |c.entries|
    ensures var c := RotatedAll(Created(isPublic, secret, salt, at), rs);
      && (c.entries[i].expiresAt.None? <==> i == |c.entries| - 1)
      && (isPublic && rs == [] ==> c.isPublic)
  {
    RotationsKeepChain(Created(isPublic, secret, salt, at), rs);
    var c := RotatedAll(Created(isPublic, secret, salt, at), rs);
    assert i < |c.entries| - 1 ==> c.entries[i].expiresAt == Some(c.entries[i + 1].createdAt + DAY_MS);
  }

  /** After any rotations, a secret is accepted exactly if it is the current one, or was
      superseded no more than 24 h ago: its entry is considered up to and including the moment
      one day after the next entry was created, and never after. A client that was never given
      a secret is public and accepts anything. */
  lemma AcceptedSecrets(isPublic: bool, secret: string, salt: string, at: Time, rs: seq<Rotation>, i: nat, now: Time)
    requires var c := RotatedAll(Created(isPublic, secret, salt, at), rs); i < |c.entries|
    ensures var c := RotatedAll(Created(isPublic, secret, salt, at), rs);
      && (Considered(c.entries[i], now) <==> i == |c.entries| - 1 || now <= c.entries[i + 1].createdAt + DAY_MS)
      && (forall presented :: Matches(c.entries[i], presented) <==> presented == c.entries[i].hash.secret)
  {
    RotationsKeepChain(Created(isPublic, secret, salt, at), rs);
  }

  /** The secrets of the entries are those handed out, in order, with their times. */
  lemma {:induction false} EntriesAreRotations(c: Secrets, rs: seq<Rotation>, k: nat)
    requires k < |rs|
    ensures var c' := RotatedAll(c, rs);
      && |c'.entries| == |c.entries| + |rs| && !c'.isPublic
      && c'.entries[|c.entries| + k].(expiresAt := None) == NewEntry(rs[k].secret, rs[k].salt, rs[k].at)
    decreases rs
  {
    var c1 := Rotated(c, rs[0].secret, rs[0].salt, rs[0].at);
    if k > 0 {
      EntriesAreRotations(c1, rs[1..], k - 1);
    } else if |rs| > 1 {
      EntriesAreRotations(c1, rs[1..], 0);
      AddedEntryStays(c1, rs[1..], |c.entries|);
    }
  }

  lemma {:induction false} AddedEntryStays(c: Secrets, rs: seq<Rotation>, i: nat)
    requires i < |c.entries|
    ensures i < |RotatedAll(c, rs).entries|
    ensures RotatedAll(c, rs).entries[i].(expiresAt := None) == c.entries[i].(expiresAt := None)
    decreases rs
  {
    if rs != [] {
      AddedEntryStays(Rotated(c, rs[0].secret, rs[0].salt, rs[0].at), rs[1..], i);
    }
  }

  // ---------------------------------------------------------------------------------------
  // Which secrets are accepted, in terms of what was handed out
  // ---------------------------------------------------------------------------------------

  /** The secrets a client was given, in order; a public one starts with none. */
  function HandedOut(isPublic: bool, secret: string, salt: string, at: Time, rs: seq<Rotation>): seq<Rotation> {
    (if isPublic then [] else [Rotation(secret, salt, at)]) + rs
  }

  /** The `i`-th secret handed out, which is the last or was replaced no more than a day ago. */
  ghost predicate Good(handed: seq<Rotation>, i: int, secret: string, now: Time) {
    0 <= i < |handed| && handed[i].secret == secret && (i == |handed| - 1 || now <= handed[i + 1].at + 86_400_000)
  }

  lemma {:induction false} EntriesAreHandedOut(isPublic: bool, secret: string, salt: string, at: Time,
      rs: seq<Rotation>, i: nat)
    requires i < |HandedOut(isPublic, secret, salt, at, rs)|
    ensures var h := HandedOut(isPublic, secret, salt, at, rs);
      var es := RotatedAll(Created(isPublic, secret, salt, at), rs).entries;
      && |es| == |h|
      && es[i].(expiresAt := None) == Entry(Scrypt(h[i].secret, h[i].salt), h[i].salt, h[i].at, None)
  {
    var c := Created(isPublic, secret, salt, at);
    if rs != [] { EntriesAreRotations(c, rs, 0); }
    if i < |c.entries| {
      AddedEntryStays(c, rs, i);
    } else {
      EntriesAreRotations(c, rs, i - |c.entries|);
    }
  }

  /** A client whose first secret was given at creation, or that started public, and was rotated
      any number of times, accepts a presented secret exactly if it never had one, or if that is
      the current one or one replaced no more than 24 hours ago. */
  lemma AcceptedIff(isPublic: bool, secret: string, salt: string, at: Time, rs: seq<Rotation>, presented: string, now: Time)
    ensures var c := RotatedAll(Created(isPublic, secret, salt, at), rs);
      var h := HandedOut(isPublic, secret, salt, at, rs);
      && (c.isPublic <==> h == [])
      && (Accepts(c.entries, presented, now) <==> exists i :: Good(h, i, presented, now))
  {
    var c := RotatedAll(Created(isPublic, secret, salt, at), rs);
    var h := HandedOut(isPublic, secret, salt, at, rs);
    RotationsKeepChain(Created(isPublic, secret, salt, at), rs);
    if rs != [] { EntriesAreRotations(Created(isPublic, secret, salt, at), rs, 0); }
    if h != [] { EntriesAreHandedOut(isPublic, secret, salt, at, rs, 0); }
    forall i | 0 <= i < |h|
      ensures |c.entries| == |h|
      ensures Considered(c.entries[i], now) && Matches(c.entries[i], presented) <==> Good(h, i, presented, now)
    {
      EntriesAreHandedOut(isPublic, secret, salt, at, rs, i);
      if i + 1 < |h| { EntriesAreHandedOut(isPublic, secret, salt, at, rs, i + 1); }
    }
  }
}
