/**
 Authorization codes: issue, redemption in its one-statement and its three-step form, the
 cleanup job, and the checks of the code grant (RFC 6749, sections 4.1.2 and 4.1.3; RFC 7636,
 section 4.6).

 The digests of RFC 7636 are arbitrary functions. Generated codes do not repeat.
 */
module AuthCodes {
  import opened Wrappers

  type Code = string
  type Time = int

  const LIFETIME_MS: int := 5 * 60 * 1000

  datatype AuthCode = AuthCode(
    clientId: string,
    redirectUri: Option<string>,
    codeChallenge: Option<string>,
    transform: Option<string>,
    userId: string,
    tenantId: string,
    scope: Option<string>,
    sid: Option<string>,
    expiresAt: Time,
    usedAt: Option<Time>,
    used: bool)

  type Table = map<Code, AuthCode>

  datatype Digests = Digests(s256: string -> string, owh32: string -> string)

  datatype Request = Request(code: Code, clientId: string, redirectUri: Option<string>, verifier: Option<string>)

  function Challenge(d: Digests, verifier: string, transform: Option<string>): string {
    if transform == Some("S256") then d.s256(verifier)
    else if transform == Some("OWH32") then d.owh32(verifier)
    else verifier
  }

  /** The request comes from the client, redirect URI and verifier the code is bound to. */
  predicate Bound(d: Digests, row: AuthCode, req: Request) {
    && req.clientId == row.clientId
    && (Truthy(row.redirectUri) ==> req.redirectUri == row.redirectUri)
    && (Truthy(row.codeChallenge) ==>
         Truthy(req.verifier) && Challenge(d, req.verifier.value, row.transform) == row.codeChallenge.value)
  }

  /** The same, said of what the code was created with: its client; its redirect URI, if it has one;
      and, if it has a challenge, a verifier whose digest by the code's method is that challenge. */
  ghost predicate Answers(d: Digests, row: AuthCode, req: Request) {
    && req.clientId == row.clientId
    && (row.redirectUri in [None, Some("")] || req.redirectUri == row.redirectUri)
    && (row.codeChallenge in [None, Some("")]
        || (&& req.verifier.Some? && req.verifier.value != ""
            && row.codeChallenge == Some(match row.transform
                 case None => req.verifier.value
                 case Some(m) => if m == "S256" then d.s256(req.verifier.value)
                                 else if m == "OWH32" then d.owh32(req.verifier.value) else req.verifier.value)))
  }

  lemma BoundIff(d: Digests, row: AuthCode, req: Request)
    ensures Bound(d, row, req) <==> Answers(d, row, req)
  {}

  // ---------------------------------------------------------------------------------------
  // Statements
  // ---------------------------------------------------------------------------------------

  /** The six digits, or the long random string if the digits are taken. */
  function ChosenCode(t: Table, otp: Code, long: Code): Code {
    if otp in t then long else otp
  }

  function NewRow(now: Time, clientId: string, challenge: Option<string>, transform: Option<string>, userId: string,
                  tenantId: string, redirectUri: Option<string>, scope: Option<string>, sid: Option<string>): AuthCode
  {
    AuthCode(clientId, OrNull(redirectUri), challenge, transform, userId, tenantId, OrNull(scope), OrNull(sid),
             now + LIFETIME_MS, None, false)
  }

  predicate Redeemable(t: Table, code: Code, now: Time) {
    code in t && !t[code].used && t[code].expiresAt > now
  }

  function Spent(row: AuthCode, now: Time): AuthCode {
    row.(used := true, usedAt := Some(now))
  }

  /** A redemption that nothing interrupts. */
  function Redeem(t: Table, code: Code, now: Time): (Table, Option<AuthCode>) {
    if Redeemable(t, code, now) then (t[code := Spent(t[code], now)], Some(Spent(t[code], now))) else (t, None)
  }

  /** DELETE ... WHERE expires_at < now OR used */
  function WithoutStale(t: Table, now: Time): Table {
    map c | c in t && !(t[c].expiresAt < now || t[c].used) :: t[c]
  }

  /** The service and the code grant on one table. */
  class AuthCodeService {
    const digests: Digests
    const sqlite: bool
    var rows: Table

    constructor (digests: Digests, sqlite: bool)
      ensures this.digests == digests && this.sqlite == sqlite && rows == map[]
    {
      this.digests, this.sqlite := digests, sqlite;
      rows := map[];
    }

    method CreateAuthToken(now: Time, otp: Code, long: Code, clientId: string, challenge: Option<string>,
                           transform: Option<string>, userId: string, tenantId: string, redirectUri: Option<string>,
                           scope: Option<string>, sid: Option<string>)
      returns (code: Code)
      modifies this
      ensures code == ChosenCode(old(rows), otp, long)
      ensures code == if otp in old(rows) then long else otp
      ensures code in rows
      ensures rows[code].clientId == clientId && rows[code].userId == userId && rows[code].tenantId == tenantId
      ensures rows[code].codeChallenge == challenge && rows[code].transform == transform
      ensures rows[code].redirectUri == (if redirectUri == Some("") then None else redirectUri)
      ensures rows[code].scope == (if scope == Some("") then None else scope)
      ensures rows[code].sid == (if sid == Some("") then None else sid)
      ensures rows[code].expiresAt == now + 300_000 && !rows[code].used && rows[code].usedAt == None
      ensures rows == old(rows)[code := NewRow(now, clientId, challenge, transform, userId, tenantId, redirectUri, scope, sid)]
    {
      code := otp;
      if code in rows {
        code := long;
      }
      rows := rows[code := AuthCode(clientId, OrNull(redirectUri), challenge, transform, userId, tenantId,
                                    OrNull(scope), OrNull(sid), now + LIFETIME_MS, None, false)];
    }

    /** Both forms do the same when nothing comes between their statements. */
    method RedeemAuthCode(code: Code, now: Time) returns (r: Option<AuthCode>)
      modifies this
      ensures (rows, r) == Redeem(old(rows), code, now)
      ensures r.Some? <==> code in old(rows) && !old(rows)[code].used && now < old(rows)[code].expiresAt
      ensures r.Some? ==> r.value == old(rows)[code].(used := true, usedAt := Some(now)) && rows == old(rows)[code := r.value]
      ensures r.None? ==> rows == old(rows)
    {
      if sqlite {
        r := RedeemSqlite(code, now);
      } else {
        r := RedeemPostgres(code, now);
      }
    }

    method RedeemPostgres(code: Code, now: Time) returns (r: Option<AuthCode>)
      modifies this
      ensures (rows, r) == Redeem(old(rows), code, now)
    {
      r := None;
      if code in rows && !rows[code].used && rows[code].expiresAt > now {
        rows := rows[code := rows[code].(used := true, usedAt := Some(now))];
        r := Some(rows[code]);
      }
    }

    method RedeemSqlite(code: Code, now: Time) returns (r: Option<AuthCode>)
      modifies this
      ensures (rows, r) == Redeem(old(rows), code, now)
    {
      if code !in rows || rows[code].expiresAt <= now {
        return None;
      }
      var affected := 0;
      if code in rows && !rows[code].used {
        rows := rows[code := rows[code].(used := true, usedAt := Some(now))];
        affected := 1;
      }
      if affected == 0 {
        return None;
      }
      r := if code in rows then Some(rows[code]) else None;
    }

    method DeleteExpiredAuthCodes(now: Time)
      modifies this
      ensures rows == WithoutStale(old(rows), now)
      ensures forall c :: c in rows <==> c in old(rows) && !old(rows)[c].used && now <= old(rows)[c].expiresAt
      ensures forall c :: c in rows ==> rows[c] == old(rows)[c]
    {
      rows := map c | c in rows && !(rows[c].expiresAt < now || rows[c].used) :: rows[c];
    }

    /** The exchange: the code is spent if it was redeemable, whatever the checks say, and the
        caller gets on to token issuance exactly if it also passes them. */
    method HandleCodeGrant(req: Request, now: Time) returns (r: Option<AuthCode>)
      modifies this
      ensures rows == Redeem(old(rows), req.code, now).0
      ensures r.Some? <==> Redeemable(old(rows), req.code, now) && Bound(digests, old(rows)[req.code], req)
      ensures r.Some? ==> r.value == Spent(old(rows)[req.code], now)
      ensures r.Some? ==> !Redeemable(rows, req.code, now)
      ensures r.Some? <==>
        && req.code in old(rows) && !old(rows)[req.code].used && now < old(rows)[req.code].expiresAt
        && Answers(digests, old(rows)[req.code], req)
    {
      if req.code in rows { BoundIff(digests, rows[req.code], req); }
      var redeemed := RedeemAuthCode(req.code, now);
      if redeemed.None? { return None; }
      var authCode := redeemed.value;
      if req.clientId != authCode.clientId { return None; }
      if Truthy(authCode.redirectUri) {
        if !Truthy(req.redirectUri) { return None; }
        if req.redirectUri != authCode.redirectUri { return None; }
      }
      if Truthy(authCode.codeChallenge) {
        if !Truthy(req.verifier) { return None; }
        if Challenge(digests, req.verifier.value, authCode.transform) != authCode.codeChallenge.value { return None; }
      }
      return Some(authCode);
    }
  }

  // ---------------------------------------------------------------------------------------
  // Any number of exchanges and the cleanup job, interleaved statement by statement
  // ---------------------------------------------------------------------------------------

  type Pid = nat

  datatype Phase =
    | Arrived
    | Found(at: Time)                       // three-step form: the row was read and had not expired
    | Marked(at: Time)                      // three-step form: the UPDATE hit the row
    | Redeemed(at: Time, row: AuthCode)
    | Responded(at: Time, row: AuthCode)    // a token response
    | Burnt                                 // redeemed, then refused
    | Refused                               // never redeemed

  datatype Exchange = Exchange(req: Request, phase: Phase)

  /** `created` remembers every row as it was first stored. */
  datatype State = State(now: Time, rows: Table, created: Table, exchanges: map<Pid, Exchange>)

  datatype Action =
    | Tick(ms: nat)
    | Create(otp: Code, long: Code, clientId: string, challenge: Option<string>, transform: Option<string>,
             userId: string, tenantId: string, redirectUri: Option<string>, scope: Option<string>, sid: Option<string>)
    | Arrive(pid: Pid, req: Request)
    | RedeemInOne(pid: Pid)
    | Find(pid: Pid)
    | Mark(pid: Pid)
    | Refetch(pid: Pid)
    | Check(pid: Pid, issued: bool)         // the grant's checks, then token issuance, which may fail
    | Cleanup

  predicate At(s: State, pid: Pid, p: Phase -> bool) {
    pid in s.exchanges && p(s.exchanges[pid].phase)
  }

  function Moved(s: State, pid: Pid, phase: Phase): State
    requires pid in s.exchanges
  {
    s.(exchanges := s.exchanges[pid := s.exchanges[pid].(phase := phase)])
  }

  function Apply(d: Digests, sqlite: bool, s: State, a: Action): State {
    match a
    case Tick(ms) => s.(now := s.now + ms)
    case Create(otp, long, clientId, challenge, transform, userId, tenantId, redirectUri, scope, sid) =>
      var code := ChosenCode(s.rows, otp, long);
      var row := NewRow(s.now, clientId, challenge, transform, userId, tenantId, redirectUri, scope, sid);
      if code in s.created then s else s.(rows := s.rows[code := row], created := s.created[code := row])
    case Arrive(pid, req) =>
      if pid in s.exchanges then s else s.(exchanges := s.exchanges[pid := Exchange(req, Arrived)])
    case RedeemInOne(pid) =>
      if sqlite || !At(s, pid, (p: Phase) => p.Arrived?) then s else
        var (t, r) := Redeem(s.rows, s.exchanges[pid].req.code, s.now);
        Moved(s, pid, if r.Some? then Redeemed(s.now, r.value) else Refused).(rows := t)
    case Find(pid) =>
      if !sqlite || !At(s, pid, (p: Phase) => p.Arrived?) then s else
        var code := s.exchanges[pid].req.code;
        Moved(s, pid, if code !in s.rows || s.rows[code].expiresAt <= s.now then Refused else Found(s.now))
    case Mark(pid) =>
      if !At(s, pid, (p: Phase) => p.Found?) then s else
        var code := s.exchanges[pid].req.code;
        if code in s.rows && !s.rows[code].used then
          var at := s.exchanges[pid].phase.at;
          Moved(s, pid, Marked(at)).(rows := s.rows[code := Spent(s.rows[code], at)])
        else Moved(s, pid, Refused)
    case Refetch(pid) =>
      if !At(s, pid, (p: Phase) => p.Marked?) then s else
        var code := s.exchanges[pid].req.code;
        Moved(s, pid, if code in s.rows then Redeemed(s.exchanges[pid].phase.at, s.rows[code]) else Burnt)
    case Check(pid, issued) =>
      if !At(s, pid, (p: Phase) => p.Redeemed?) then s else
        var e := s.exchanges[pid];
        Moved(s, pid, if issued && Bound(d, e.phase.row, e.req) then Responded(e.phase.at, e.phase.row) else Burnt)
    case Cleanup => s.(rows := WithoutStale(s.rows, s.now))
  }

  function Run(d: Digests, sqlite: bool, s: State, actions: seq<Action>): State
    decreases actions
  {
    if actions == [] then s else Run(d, sqlite, Apply(d, sqlite, s, actions[0]), actions[1..])
  }

  function Init(now: Time): State {
    State(now, map[], map[], map[])
  }

  // ---------------------------------------------------------------------------------------
  // The invariant
  // ---------------------------------------------------------------------------------------

  /** This exchange is the one that spent its code. */
  predicate Spender(e: Exchange) {
    e.phase.Marked? || e.phase.Redeemed? || e.phase.Responded? || e.phase.Burnt?
  }

  predicate SpenderOf(s: State, pid: Pid, code: Code) {
    pid in s.exchanges && s.exchanges[pid].req.code == code && Spender(s.exchanges[pid])
  }

  /** The row is the one stored at creation, apart from having been used. */
  predicate SameBinding(row: AuthCode, created: AuthCode) {
    row.(used := created.used, usedAt := created.usedAt) == created
  }

  ghost predicate RowsOk(s: State) {
    forall c :: c in s.rows ==> c in s.created && SameBinding(s.rows[c], s.created[c])
  }

  /** A spent code is spent for good. */
  ghost predicate SpenderOk(s: State, e: Exchange) {
    Spender(e) ==> e.req.code in s.created && (e.req.code in s.rows ==> s.rows[e.req.code].used)
  }

  ghost predicate SpendersOk(s: State) {
    forall pid :: pid in s.exchanges ==> SpenderOk(s, s.exchanges[pid])
  }

  ghost predicate ExchangeOk(d: Digests, s: State, e: Exchange) {
    && (e.phase.Found? || e.phase.Marked? || e.phase.Redeemed? || e.phase.Responded? ==>
         e.req.code in s.created && e.phase.at <= s.now && e.phase.at < s.created[e.req.code].expiresAt)
    && (e.phase.Redeemed? || e.phase.Responded? ==> SameBinding(e.phase.row, s.created[e.req.code]))
    && (e.phase.Responded? ==> Bound(d, e.phase.row, e.req))
  }

  ghost predicate ExchangesOk(d: Digests, s: State) {
    forall pid :: pid in s.exchanges ==> ExchangeOk(d, s, s.exchanges[pid])
  }

  ghost predicate OneSpender(s: State) {
    forall p, q, c :: SpenderOf(s, p, c) && SpenderOf(s, q, c) ==> p == q
  }

  ghost predicate Inv(d: Digests, s: State) {
    RowsOk(s) && SpendersOk(s) && ExchangesOk(d, s) && OneSpender(s)
  }

  /** What any stretch of steps leaves in place: no code comes back or is unspent, an exchange
      that spent its code stays the one that did, and a finished one stays finished. */
  ghost predicate StepsOn(s: State, s': State) {
    TablesStepOn(s, s') && ExchangesStepOn(s, s')
  }

  ghost predicate TablesStepOn(s: State, s': State) {
    && s.now <= s'.now
    && s.created.Keys <= s'.created.Keys && (forall c :: c in s.created ==> s'.created[c] == s.created[c])
    && (forall c :: c in s.created && c in s'.rows ==> c in s.rows && (s.rows[c].used ==> s'.rows[c].used))
  }

  ghost predicate ExchangesStepOn(s: State, s': State) {
    && (forall p, c :: SpenderOf(s, p, c) ==> SpenderOf(s', p, c))
    && (forall p :: p in s.exchanges && (s.exchanges[p].phase.Burnt? || s.exchanges[p].phase.Responded?) ==>
          p in s'.exchanges && s'.exchanges[p] == s.exchanges[p])
  }

  /** The exchange that a redeeming step moves. */
  function Mover(a: Action): Option<Pid> {
    match a
    case RedeemInOne(pid) => Some(pid)
    case Mark(pid) => Some(pid)
    case _ => None
  }

  /** A new spender found the row unused. */
  lemma OnlyUnusedIsSpent(d: Digests, sqlite: bool, s: State, a: Action, p: Pid, c: Code)
    requires SpenderOf(Apply(d, sqlite, s, a), p, c)
    ensures SpenderOf(s, p, c) || (c in s.rows && !s.rows[c].used && Mover(a) == Some(p))
  {}

  lemma StepKeepsOneSpender(d: Digests, sqlite: bool, s: State, a: Action)
    requires SpendersOk(s) && OneSpender(s)
    ensures OneSpender(Apply(d, sqlite, s, a))
  {
    var s' := Apply(d, sqlite, s, a);
    forall p, q, c | SpenderOf(s', p, c) && SpenderOf(s', q, c) ensures p == q {
      OnlyUnusedIsSpent(d, sqlite, s, a, p, c);
      OnlyUnusedIsSpent(d, sqlite, s, a, q, c);
      hide Apply;
      assert SpenderOf(s, p, c) ==> SpenderOk(s, s.exchanges[p]);
      assert SpenderOf(s, q, c) ==> SpenderOk(s, s.exchanges[q]);
    }
  }

  lemma StepKeepsRows(d: Digests, sqlite: bool, s: State, a: Action)
    requires RowsOk(s)
    ensures RowsOk(Apply(d, sqlite, s, a))
  {}

  /** The exchange that a step moved is in order. */
  lemma MovedIsOk(d: Digests, sqlite: bool, s: State, a: Action, pid: Pid)
    requires RowsOk(s) && SpendersOk(s) && ExchangesOk(d, s)
    requires var s' := Apply(d, sqlite, s, a);
      pid in s'.exchanges && (pid !in s.exchanges || s'.exchanges[pid] != s.exchanges[pid])
    ensures var s' := Apply(d, sqlite, s, a);
      SpenderOk(s', s'.exchanges[pid]) && ExchangeOk(d, s', s'.exchanges[pid])
  {
    if pid in s.exchanges { assert SpenderOk(s, s.exchanges[pid]) && ExchangeOk(d, s, s.exchanges[pid]); }
  }

  lemma OthersStayOk(d: Digests, s: State, s': State, e: Exchange)
    requires StepsOn(s, s') && SpenderOk(s, e) && ExchangeOk(d, s, e)
    ensures SpenderOk(s', e) && ExchangeOk(d, s', e)
  {}

  lemma StepKeepsExchanges(d: Digests, sqlite: bool, s: State, a: Action)
    requires RowsOk(s) && SpendersOk(s) && ExchangesOk(d, s)
    requires StepsOn(s, Apply(d, sqlite, s, a))
    ensures SpendersOk(Apply(d, sqlite, s, a)) && ExchangesOk(d, Apply(d, sqlite, s, a))
  {
    hide Apply, StepsOn, RowsOk, SpenderOk, ExchangeOk;
    var s' := Apply(d, sqlite, s, a);
    forall pid | pid in s'.exchanges ensures SpenderOk(s', s'.exchanges[pid]) && ExchangeOk(d, s', s'.exchanges[pid]) {
      if pid in s.exchanges && s'.exchanges[pid] == s.exchanges[pid] {
        OthersStayOk(d, s, s', s.exchanges[pid]);
      } else {
        MovedIsOk(d, sqlite, s, a, pid);
      }
    }
  }

  lemma TablesStep(d: Digests, sqlite: bool, s: State, a: Action)
    requires RowsOk(s)
    ensures TablesStepOn(s, Apply(d, sqlite, s, a))
  {}

  lemma ExchangesStep(d: Digests, sqlite: bool, s: State, a: Action)
    ensures ExchangesStepOn(s, Apply(d, sqlite, s, a))
  {}

  lemma StepKeepsInv(d: Digests, sqlite: bool, s: State, a: Action)
    requires Inv(d, s)
    ensures Inv(d, Apply(d, sqlite, s, a)) && StepsOn(s, Apply(d, sqlite, s, a))
  {
    hide Apply, RowsOk, SpendersOk, ExchangesOk, OneSpender, TablesStepOn, ExchangesStepOn;
    TablesStep(d, sqlite, s, a);
    ExchangesStep(d, sqlite, s, a);
    assert StepsOn(s, Apply(d, sqlite, s, a));
    StepKeepsRows(d, sqlite, s, a);
    StepKeepsExchanges(d, sqlite, s, a);
    StepKeepsOneSpender(d, sqlite, s, a);
  }

  lemma StepsOnTwice(s: State, s1: State, s2: State)
    requires StepsOn(s, s1) && StepsOn(s1, s2)
    ensures StepsOn(s, s2)
  {}

  lemma {:induction false} RunKeepsInv(d: Digests, sqlite: bool, s: State, actions: seq<Action>)
    requires Inv(d, s)
    ensures Inv(d, Run(d, sqlite, s, actions)) && StepsOn(s, Run(d, sqlite, s, actions))
    decreases actions
  {
    hide Apply, Inv;
    if actions != [] {
      var s1 := Apply(d, sqlite, s, actions[0]);
      StepKeepsInv(d, sqlite, s, actions[0]);
      RunKeepsInv(d, sqlite, s1, actions[1..]);
      StepsOnTwice(s, s1, Run(d, sqlite, s, actions));
    }
  }

  // ---------------------------------------------------------------------------------------
  // Theorems over all interleavings
  // ---------------------------------------------------------------------------------------

  ghost predicate Reachable(d: Digests, sqlite: bool, s: State) {
    exists now, actions :: Run(d, sqlite, Init(now), actions) == s
  }

  lemma ReachableInv(d: Digests, sqlite: bool, s: State)
    requires Reachable(d, sqlite, s)
    ensures Inv(d, s)
  {
    var now, actions :| Run(d, sqlite, Init(now), actions) == s;
    assert Inv(d, Init(now));
    RunKeepsInv(d, sqlite, Init(now), actions);
  }

  predicate RespondedFor(s: State, pid: Pid, code: Code) {
    pid in s.exchanges && s.exchanges[pid].req.code == code && s.exchanges[pid].phase.Responded?
  }

  /** A code yields at most one token response, in either form and in every interleaving. */
  lemma OneResponsePerCode(d: Digests, sqlite: bool, s: State, p: Pid, q: Pid, code: Code)
    requires Reachable(d, sqlite, s) && RespondedFor(s, p, code) && RespondedFor(s, q, code)
    ensures p == q
  {
    ReachableInv(d, sqlite, s);
    assert SpenderOf(s, p, code) && SpenderOf(s, q, code);
  }

  /** An exchange that redeemed the code and then failed leaves it burnt: no later step of any
      run gives a response for it. */
  lemma FailedExchangeBurns(d: Digests, sqlite: bool, s: State, p: Pid, later: seq<Action>, q: Pid)
    requires Reachable(d, sqlite, s) && p in s.exchanges && s.exchanges[p].phase.Burnt?
    ensures !RespondedFor(Run(d, sqlite, s, later), q, s.exchanges[p].req.code)
  {
    var s' := Run(d, sqlite, s, later);
    var code := s.exchanges[p].req.code;
    ReachableInv(d, sqlite, s);
    RunKeepsInv(d, sqlite, s, later);
    assert SpenderOf(s, p, code);
    if RespondedFor(s', q, code) {
      assert SpenderOf(s', p, code) && SpenderOf(s', q, code);
      assert false;
    }
  }

  /** Once a response went out, the code is not redeemable in any later state. */
  lemma SpentStaysSpent(d: Digests, sqlite: bool, s: State, p: Pid, code: Code, later: seq<Action>)
    requires Reachable(d, sqlite, s) && SpenderOf(s, p, code)
    ensures var s' := Run(d, sqlite, s, later); !Redeemable(s'.rows, code, s'.now)
  {
    var s' := Run(d, sqlite, s, later);
    ReachableInv(d, sqlite, s);
    RunKeepsInv(d, sqlite, s, later);
    assert SpenderOf(s', p, code);
    assert SpenderOk(s', s'.exchanges[p]);
  }

  /** A response went to the client, redirect URI and verifier the code was issued for, and
      the code had been seen before its expiry. */
  lemma ResponseIsBound(d: Digests, sqlite: bool, s: State, p: Pid)
    requires Reachable(d, sqlite, s) && p in s.exchanges && s.exchanges[p].phase.Responded?
    ensures var e := s.exchanges[p];
      && e.req.code in s.created
      && Bound(d, s.created[e.req.code], e.req) && Answers(d, s.created[e.req.code], e.req)
      && SameBinding(e.phase.row, s.created[e.req.code])
      && e.phase.at < s.created[e.req.code].expiresAt
  {
    ReachableInv(d, sqlite, s);
    assert ExchangeOk(d, s, s.exchanges[p]);
    BoundIff(d, s.created[s.exchanges[p].req.code], s.exchanges[p].req);
  }

  /** With an injective digest the verifier is the one the challenge was made from. */
  lemma ResponseKnowsVerifier(d: Digests, sqlite: bool, s: State, p: Pid, original: string)
    requires Reachable(d, sqlite, s) && p in s.exchanges && s.exchanges[p].phase.Responded?
    requires forall x, y :: d.s256(x) == d.s256(y) ==> x == y
    requires var code := s.exchanges[p].req.code;
      code in s.created && s.created[code].transform == Some("S256")
      && s.created[code].codeChallenge == Some(d.s256(original)) && d.s256(original) != ""
    ensures s.exchanges[p].req.verifier == Some(original)
  {
    ResponseIsBound(d, sqlite, s, p);
  }

  /** The three statements in a row do what the one statement does. */
  lemma ThreeStepsRefineOne(d: Digests, s: State, p: Pid)
    requires p in s.exchanges && s.exchanges[p].phase.Arrived?
    ensures Run(d, true, s, [Find(p), Mark(p), Refetch(p)]) == Run(d, false, s, [RedeemInOne(p)])
  {
    var s1 := Apply(d, true, s, Find(p));
    var s2 := Apply(d, true, s1, Mark(p));
    var s3 := Apply(d, true, s2, Refetch(p));
    RunThree(d, true, s, Find(p), Mark(p), Refetch(p));
    RunOne(d, false, s, RedeemInOne(p));
    assert s3.exchanges == Apply(d, false, s, RedeemInOne(p)).exchanges;
  }

  lemma RunOne(d: Digests, sqlite: bool, s: State, a: Action)
    ensures Run(d, sqlite, s, [a]) == Apply(d, sqlite, s, a)
  {}

  lemma RunThree(d: Digests, sqlite: bool, s: State, a: Action, b: Action, c: Action)
    ensures Run(d, sqlite, s, [a, b, c]) == Apply(d, sqlite, Apply(d, sqlite, Apply(d, sqlite, s, a), b), c)
  {
    hide Apply;
    assert [a, b, c][1..] == [b, c] && [b, c][1..] == [c];
    RunOne(d, sqlite, Apply(d, sqlite, Apply(d, sqlite, s, a), b), c);
  }

  /** A code that nobody redeems is redeemable for exactly five minutes from its creation. */
  lemma CodeLasts(d: Digests, sqlite: bool, s: State, a: Action, ms: nat)
    requires a.Create? && ChosenCode(s.rows, a.otp, a.long) !in s.created
    ensures var s' := Apply(d, sqlite, Apply(d, sqlite, s, a), Tick(ms));
      var code := if a.otp in s.rows then a.long else a.otp;
      Redeemable(s'.rows, code, s'.now) <==> ms < 300_000
  {}

  /** An exchange that nothing interrupts succeeds exactly if the code is stored, unused,
      unexpired and bound to the request. */
  lemma UninterruptedExchange(d: Digests, s: State, p: Pid, issued: bool)
    requires p in s.exchanges && s.exchanges[p].phase.Arrived?
    ensures var code := s.exchanges[p].req.code;
      var s' := Apply(d, false, Apply(d, false, s, RedeemInOne(p)), Check(p, issued));
      RespondedFor(s', p, code) <==>
        code in s.rows && !s.rows[code].used && s.now < s.rows[code].expiresAt
        && Answers(d, s.rows[code], s.exchanges[p].req) && issued
  {
    var code := s.exchanges[p].req.code;
    if code in s.rows {
      BoundIff(d, s.rows[code], s.exchanges[p].req);
      BoundIff(d, Spent(s.rows[code], s.now), s.exchanges[p].req);
    }
    hide Bound, Answers;
  }
}
