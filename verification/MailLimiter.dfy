/**
 The per-user mail limiter. An address that does not normalize, or that no user has, is refused;
 normalizing the address is not part of the model.
 */
module MailLimiter {
  import opened Wrappers

  type Time = int

  const DAY_MS: int := 24 * 60 * 60 * 1000
  const MAX_EMAILS_PER_DAY := 3

  /** The two columns of a user that the limiter keeps. */
  datatype Counter = Counter(emailCount: int, resetAt: Option<Time>)

  /** The counter after a call, and whether the mail was let through. */
  function Admit(c: Counter, now: Time): (Counter, bool) {
    var expired := c.resetAt.Some? && now - c.resetAt.value > DAY_MS;
    var count := if expired then 0 else c.emailCount;
    var resetAt := if expired || c.resetAt.None? then Some(now) else c.resetAt;
    if count >= MAX_EMAILS_PER_DAY then (c, false) else (Counter(count + 1, resetAt), true)
  }

  class MailService {
    var users: map<string, Counter>

    constructor ()
      ensures users == map[]
    {
      users := map[];
    }

    /** `email` is the normalized address. A refused call saves nothing. */
    method IsRateLimitExceeded(email: Option<string>, now: Time) returns (exceeded: bool)
      modifies this
      ensures email.None? || email.value !in old(users) ==> exceeded && users == old(users)
      ensures email.Some? && email.value in old(users) ==>
        var (counter, admitted) := Admit(old(users)[email.value], now);
        exceeded == !admitted && users == old(users)[email.value := counter]
      ensures email.Some? && email.value in old(users) ==>
        var user := old(users)[email.value];
        var over := user.resetAt.Some? && now > user.resetAt.value + 86_400_000;
        && (exceeded <==> user.emailCount >= 3 && !over)
        && (exceeded ==> users == old(users))
        && (!exceeded ==> users == old(users)[email.value :=
             Counter((if over then 0 else user.emailCount) + 1,
                 if over || user.resetAt.None? then Some(now) else user.resetAt)])
    {
      if email.None? || email.value !in users {
        return true;
      }
      var user := users[email.value];
      if user.resetAt.Some? && now - user.resetAt.value > 24 * 60 * 60 * 1000 {
        user := user.(emailCount := 0, resetAt := Some(now));
      } else if user.resetAt.None? {
        user := user.(resetAt := Some(now));
      }
      if user.emailCount >= MAX_EMAILS_PER_DAY {
        assert users == users[email.value := users[email.value]];
        return true;
      }
      user := user.(emailCount := user.emailCount + 1);
      users := users[email.value := user];
      return false;
    }
  }

  // ---------------------------------------------------------------------------------------
  // Any sequence of calls for one user
  // ---------------------------------------------------------------------------------------

  ghost predicate Ascending(times: seq<Time>) {
    forall i, j :: 0 <= i < j < |times| ==> times[i] <= times[j]
  }

  const FRESH_USER := Counter(0, None)

  function Front<T>(s: seq<T>): seq<T>
    requires s != []
  {
    s[..|s| - 1]
  }

  function Last<T>(s: seq<T>): T
    requires s != []
  {
    s[|s| - 1]
  }

  /** The counter after calls at these times. */
  function After(times: seq<Time>): Counter {
    if times == [] then FRESH_USER else Admit(After(Front(times)), Last(times)).0
  }

  /** The times at which a mail was let through. */
  function Admitted(times: seq<Time>): seq<Time> {
    if times == [] then []
    else Admitted(Front(times)) + if Admit(After(Front(times)), Last(times)).1 then [Last(times)] else []
  }

  function CountWithin(times: seq<Time>, from: Time, to: Time): nat {
    if times == [] then 0
    else CountWithin(Front(times), from, to) + if from <= Last(times) <= to then 1 else 0
  }

  /** Every sixth mail is more than a day after the first of the six. */
  ghost predicate Paced(sent: seq<Time>) {
    forall i {:trigger sent[i]} :: 5 <= i < |sent| ==> sent[i - 5] + DAY_MS < sent[i]
  }

  /** The current window began with the mail `emailCount` from the end; the third mail before
      that was more than a day earlier. */
  ghost predicate WindowOk(c: Counter, sent: seq<Time>) {
    match c.resetAt
    case None => c.emailCount == 0 && sent == []
    case Some(start) =>
      && 1 <= c.emailCount <= MAX_EMAILS_PER_DAY && c.emailCount <= |sent|
      && var p := |sent| - c.emailCount;
         && sent[p] == start && Last(sent) <= start + DAY_MS
         && (p >= 1 ==> sent[p - 1] < start)
         && (p >= 3 ==> sent[p - 3] + DAY_MS < start)
  }

  lemma NoCalls()
    ensures WindowOk(FRESH_USER, []) && Paced([])
  {}

  lemma AscendingFront(times: seq<Time>)
    requires Ascending(times) && times != []
    ensures Ascending(Front(times)) && forall i :: 0 <= i < |times| ==> times[i] <= Last(times)
  {}

  lemma {:induction false} CallsKeepPace(times: seq<Time>)
    requires Ascending(times)
    ensures var sent := Admitted(times);
      && WindowOk(After(times), sent) && Paced(sent) && Ascending(sent)
      && (sent != [] ==> times != [] && Last(sent) <= Last(times))
  {
    hide Admit, WindowOk, Paced;
    if times == [] {
      NoCalls();
    } else {
      AscendingFront(times);
      CallsKeepPace(Front(times));
      OneCallKeepsPace(After(Front(times)), Admitted(Front(times)), Last(times));
    }
  }

  lemma OneCallKeepsPace(c: Counter, sent: seq<Time>, now: Time)
    requires WindowOk(c, sent) && Paced(sent) && Ascending(sent) && (sent != [] ==> Last(sent) <= now)
    ensures var (c', admitted) := Admit(c, now);
      var sent' := sent + if admitted then [now] else [];
      WindowOk(c', sent') && Paced(sent') && Ascending(sent') && (sent' != [] ==> Last(sent') <= now)
  {
    hide WindowOk, Paced, Ascending;
    if Admit(c, now).1 {
      WindowMore(c, sent, now);
      if |sent| >= 5 { FiveBack(c, sent, now); }
      PacedMore(sent, now);
    } else {
      assert Admit(c, now).0 == c;
      assert sent + [] == sent;
    }
  }

  lemma WindowMore(c: Counter, sent: seq<Time>, now: Time)
    requires WindowOk(c, sent) && Ascending(sent) && (sent != [] ==> Last(sent) <= now) && Admit(c, now).1
    ensures WindowOk(Admit(c, now).0, sent + [now])
  {}

  /** A mail let through now is more than a day after the fifth mail before it. */
  lemma FiveBack(c: Counter, sent: seq<Time>, now: Time)
    requires WindowOk(c, sent) && Ascending(sent) && |sent| >= 5 && Last(sent) <= now && Admit(c, now).1
    ensures sent[|sent| - 5] + DAY_MS < now
  {}

  lemma PacedMore(sent: seq<Time>, now: Time)
    requires Paced(sent) && Ascending(sent) && (sent != [] ==> Last(sent) <= now)
    requires |sent| >= 5 ==> sent[|sent| - 5] + DAY_MS < now
    ensures Paced(sent + [now]) && Ascending(sent + [now])
  {}

  /** What comes before the span does not count. */
  lemma {:induction false} CountAfter(sent: seq<Time>, k: nat, from: Time, to: Time)
    requires k <= |sent| && forall i :: 0 <= i < k ==> sent[i] < from
    ensures CountWithin(sent, from, to) <= |sent| - k
    ensures (forall i :: k <= i < |sent| ==> from <= sent[i] <= to) ==> CountWithin(sent, from, to) == |sent| - k
  {
    if sent != [] { CountAfter(Front(sent), if k < |sent| then k else k - 1, from, to); }
  }

  lemma {:induction false} PacedCount(sent: seq<Time>, from: Time)
    requires Paced(sent) && Ascending(sent)
    ensures CountWithin(sent, from, from + DAY_MS) <= 5
  {
    if sent != [] {
      var m := |sent|;
      if Last(sent) > from + DAY_MS {
        PacedCount(Front(sent), from);
      } else if m > 5 {
        assert sent[m - 1 - 5] + DAY_MS < sent[m - 1];
        CountAfter(sent, m - 5, from, from + DAY_MS);
      } else {
        CountAfter(sent, 0, from, from + DAY_MS);
      }
    }
  }

  /** Whatever the calls, no closed span of 24 h lets more than five mails through. */
  lemma AtMostFiveADay(times: seq<Time>, from: Time)
    requires Ascending(times)
    ensures CountWithin(Admitted(times), from, from + DAY_MS) <= 5
  {
    CallsKeepPace(times);
    PacedCount(Admitted(times), from);
  }

  /** The limiter's own window has let through as many mails as the counter says, at most three. */
  lemma WindowHoldsThree(times: seq<Time>)
    requires Ascending(times) && After(times).resetAt.Some?
    ensures var c := After(times);
      times != [] && CountWithin(Admitted(times), c.resetAt.value, Last(times)) == c.emailCount <= MAX_EMAILS_PER_DAY
  {
    hide After, Admitted, Paced, CountWithin;
    CallsKeepPace(times);
    var c := After(times);
    var sent := Admitted(times);
    assert sent != [];
    CountAfter(sent, |sent| - c.emailCount, c.resetAt.value, Last(times));
  }

  /** A call lets its mail through exactly if no window is open, or the window began more than a day
      ago, or fewer than three mails were let through since it began. A mail let through opens a
      window if none was open or the last is over; otherwise the window stays. */
  lemma AdmittedIff(times: seq<Time>, now: Time)
    requires Ascending(times + [now])
    ensures var start := After(times).resetAt; var more := times + [now];
      var open := start.Some? && now <= start.value + 86_400_000;
      && (Admitted(more) == Admitted(times) + [now] <==> !open || CountWithin(Admitted(times), start.value, now) < 3)
      && (Admitted(more) != Admitted(times) + [now] ==> Admitted(more) == Admitted(times) && After(more) == After(times))
      && (Admitted(more) == Admitted(times) + [now] ==> After(more).resetAt == if open then start else Some(now))
  {
    hide After, Admitted, Paced, CountWithin;
    assert Ascending(times) by { assert forall i :: 0 <= i < |times| ==> (times + [now])[i] == times[i]; }
    OneMore(times, now);
    CallsKeepPace(times);
    assert |Admitted(times) + [now]| != |Admitted(times)|;
    var c := After(times);
    var sent := Admitted(times);
    if c.resetAt.Some? {
      assert (times + [now])[|times|] == now && (times + [now])[|times| - 1] == Last(times);
      CountAfter(sent, |sent| - c.emailCount, c.resetAt.value, now);
    }
  }

  lemma OneMore(times: seq<Time>, now: Time)
    ensures After(times + [now]) == Admit(After(times), now).0
    ensures Admitted(times + [now]) == Admitted(times) + if Admit(After(times), now).1 then [now] else []
  {}

  /** Five can be reached: one mail opens a window, two follow at its very end, three more at
      the start of the next. */
  lemma FiveInADay()
    ensures exists times :: Ascending(times) && CountWithin(Admitted(times), DAY_MS, DAY_MS + DAY_MS) == 5
  {
    hide After, Admitted, CountWithin;
    var d := DAY_MS;
    var t6 := [0, d, d, d + 1, d + 1] + [d + 1];
    FirstThree();
    OneMore([0, d, d], d + 1);
    assert [0, d, d] + [d + 1] == [0, d, d, d + 1];
    OneMore([0, d, d, d + 1], d + 1);
    assert [0, d, d, d + 1] + [d + 1] == [0, d, d, d + 1, d + 1];
    OneMore([0, d, d, d + 1, d + 1], d + 1);
    assert Admitted(t6) == t6;
    CountAfter(t6, 1, d, d + d);
    assert Ascending(t6);
  }

  lemma FirstThree()
    ensures var times := [0, DAY_MS, DAY_MS]; Admitted(times) == times && After(times) == Counter(3, Some(0))
  {
    hide CountWithin;
    OneMore([], 0);
    assert [] + [0] == [0];
    OneMore([0], DAY_MS);
    assert [0] + [DAY_MS] == [0, DAY_MS];
    OneMore([0, DAY_MS], DAY_MS);
    assert [0, DAY_MS] + [DAY_MS] == [0, DAY_MS, DAY_MS];
  }

  // ---------------------------------------------------------------------------------------
  // The switch
  // ---------------------------------------------------------------------------------------

  datatype Setting = Flag(on: bool) | Text(text: string)

  /** An environment variable as the configuration returns it: `true` and `false` become flags. */
  function Read(env: map<string, string>, key: string, default: string): Setting {
    if key !in env then Text(default)
    else if env[key] == "true" then Flag(true)
    else if env[key] == "false" then Flag(false)
    else Text(env[key])
  }

  predicate TruthySetting(s: Setting) {
    match s
    case Flag(on) => on
    case Text(text) => text != ""
  }

  predicate LimiterRuns(env: map<string, string>) {
    !TruthySetting(Read(env, "DISABLE_MAIL_RATE_LIMIT", "false"))
  }

  /** The default is the text "false", which counts as true: the limiter runs exactly if the
      variable is set to false or to nothing. */
  lemma LimiterRunsIff(env: map<string, string>)
    ensures LimiterRuns(env) <==>
      "DISABLE_MAIL_RATE_LIMIT" in env && env["DISABLE_MAIL_RATE_LIMIT"] in ["false", ""]
  {}
}
