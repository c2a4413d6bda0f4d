/**
 A logout against requests under way, statement by statement: the session check, the insert of a
 refresh token and the response of a request are separate steps, as are the two statements of the
 logout, and the refresh requests of `RefreshTokenRuns` run among them.

 Requests are numbered. Which client asks, what a code was for and whether a request fails for
 another reason is left open: a request may give up at any point.
 */
module LogoutRuns {
  import opened Wrappers
  import opened LoginSessions
  import opened RefreshTokenTheorems
  import RefreshTokens
  import Runs = RefreshTokenRuns

  datatype Config = Config(refresh: RefreshTokens.Config, sessionSeconds: int)

  /** `saves` tells whether a refresh token is still to be stored. */
  datatype Flight =
    | Asked(given: Option<Sid>, saves: bool)
    | Admitted(sid: Sid, saves: bool)
    | Answered(sid: Sid)
    | Refused

  datatype State = State(sessions: LoginSessions.Table, refresh: Runs.State, flights: map<nat, Flight>)

  datatype Step =
    | SignIn(sid: Sid, userId: string, tenantId: string)
    | Ask(r: nat, given: Option<Sid>, saves: bool)   // a cookie was read, or a code redeemed
    | AskByPassword(r: nat, sid: Sid, userId: string, tenantId: string, saves: bool)
    | Rotate(statement: Runs.Step)                   // of a refresh or a revocation; or time passes
    | Resume(r: nat)                                 // a refresh goes on with the record it was given
    | Check(r: nat, random: Sid)
    | Save(r: nat, root: Runs.Step)
    | Answer(r: nat)
    | GiveUp(r: nat)
    | Invalidate(sid: Sid)

  function Goto(s: State, r: nat, f: Flight): State {
    s.(flights := s.flights[r := f])
  }

  predicate At(s: State, r: nat, f: Flight) {
    r in s.flights && s.flights[r] == f
  }

  predicate Unnumbered(s: State, r: nat) {
    r !in s.flights && r !in s.refresh.requests
  }

  function DoSignIn(cfg: Config, s: State, sid: Sid, userId: string, tenantId: string): State {
    if sid == "" || sid in s.sessions then s
    else s.(sessions := s.sessions[sid := NewSession(s.refresh.clock, cfg.sessionSeconds, userId, tenantId)])
  }

  /** The session of the row that the rotation, or a forgiven replay, returned. */
  function DoResume(s: State, r: nat): State {
    if r in s.flights || r !in s.refresh.requests then s
    else match s.refresh.requests[r]
      case Done(Rotated(c)) => if c in s.refresh.tokens then Goto(s, r, Asked(s.refresh.tokens[c].sid, false)) else s
      case Done(Replayed(c)) => if c in s.refresh.tokens then Goto(s, r, Asked(s.refresh.tokens[c].sid, false)) else s
      case _ => s
  }

  /** A request without a session goes on under a random id. */
  function DoCheck(s: State, r: nat, random: Sid): State {
    if r !in s.flights || !s.flights[r].Asked? then s
    else
      var f := s.flights[r];
      if Truthy(f.given) then
        if ValidAt(s.sessions, f.given.value, s.refresh.clock) then Goto(s, r, Admitted(f.given.value, f.saves))
        else Goto(s, r, Refused)
      else if random == "" || random in s.sessions then s
      else Goto(s, r, Admitted(random, f.saves))
  }

  ghost function DoSave(cfg: Config, s: State, r: nat, root: Runs.Step): State {
    if r !in s.flights || !root.Create? || root.sid.None? || s.flights[r] != Admitted(root.sid.value, true)
       || Runs.DoCreate(cfg.refresh, s.refresh, root) == s.refresh
    then s
    else Goto(s, r, Admitted(root.sid.value, false)).(refresh := Runs.DoCreate(cfg.refresh, s.refresh, root))
  }

  function DoAnswer(s: State, r: nat): State {
    if r in s.flights && s.flights[r].Admitted? && !s.flights[r].saves then Goto(s, r, Answered(s.flights[r].sid)) else s
  }

  ghost function Apply(cfg: Config, s: State, a: Step): State {
    match a
    case SignIn(sid, userId, tenantId) => DoSignIn(cfg, s, sid, userId, tenantId)
    case Ask(r, given, saves) => if Unnumbered(s, r) then Goto(s, r, Asked(given, saves)) else s
    case AskByPassword(r, sid, userId, tenantId, saves) =>
      var s1 := DoSignIn(cfg, s, sid, userId, tenantId);
      if Unnumbered(s, r) && s1 != s then Goto(s1, r, Admitted(sid, saves)) else s
    case Rotate(statement) =>
      if statement.Create? then s else s.(refresh := Runs.Apply(cfg.refresh, s.refresh, statement))
    case Resume(r) => DoResume(s, r)
    case Check(r, random) => DoCheck(s, r, random)
    case Save(r, root) => DoSave(cfg, s, r, root)
    case Answer(r) => DoAnswer(s, r)
    case GiveUp(r) => if r in s.flights && !s.flights[r].Answered? then Goto(s, r, Refused) else s
    case Invalidate(sid) => s.(sessions := Invalidated(s.sessions, sid, s.refresh.clock))
  }

  ghost function Run(cfg: Config, s: State, steps: seq<Step>): State
    decreases |steps|
  {
    if steps == [] then s else Run(cfg, Apply(cfg, s, steps[0]), steps[1..])
  }

  // ---------------------------------------------------------------------------------------
  // Which requests can still answer
  // ---------------------------------------------------------------------------------------

  /** What the first statement of the logout leaves behind. */
  ghost predicate Ended(s: State, sid: Sid) {
    sid in s.sessions && s.sessions[sid].invalidatedAt.Some?
  }

  /** Past its session check in this session, and not answered yet. */
  predicate InFlight(s: State, r: nat, sid: Sid) {
    At(s, r, Admitted(sid, true)) || At(s, r, Admitted(sid, false))
  }

  /** Nobody passed the check meanwhile, and only those past it were answered. */
  ghost predicate NoneJoins(s: State, s': State, sid: Sid) {
    && (forall r :: InFlight(s', r, sid) ==> InFlight(s, r, sid))
    && (forall r :: At(s', r, Answered(sid)) ==> InFlight(s, r, sid) || At(s, r, Answered(sid)))
  }

  lemma EndedStep(cfg: Config, s: State, a: Step, sid: Sid)
    requires Ended(s, sid)
    ensures Ended(Apply(cfg, s, a), sid)
    ensures NoneJoins(s, Apply(cfg, s, a), sid)
  {
    hide Runs.Apply, Runs.DoCreate;
  }

  lemma {:induction false} EndedRun(cfg: Config, s: State, steps: seq<Step>, sid: Sid)
    requires Ended(s, sid)
    ensures Ended(Run(cfg, s, steps), sid)
    ensures NoneJoins(s, Run(cfg, s, steps), sid)
    decreases |steps|
  {
    hide Apply, Ended;
    if steps != [] {
      EndedStep(cfg, s, steps[0], sid);
      EndedRun(cfg, Apply(cfg, s, steps[0]), steps[1..], sid);
    }
  }

  lemma RunOne(cfg: Config, s: State, a: Step)
    ensures Run(cfg, s, [a]) == Apply(cfg, s, a)
  {
    assert [a][1..] == [];
  }

  lemma {:induction false} RunTwice(cfg: Config, s: State, a: seq<Step>, b: seq<Step>)
    ensures Run(cfg, s, a + b) == Run(cfg, Run(cfg, s, a), b)
    decreases |a|
  {
    hide Apply;
    if a == [] {
      assert a + b == b;
    } else {
      assert (a + b)[1..] == a[1..] + b;
      RunTwice(cfg, Apply(cfg, s, a[0]), a[1..], b);
    }
  }

  /** A first token of a session that no row or family collides with. */
  lemma FreshRoot(s: Runs.State, sid: Sid) returns (root: Runs.Step)
    ensures root.Create? && root.sid == Some(sid)
    ensures root.newId !in s.tokens && !RefreshTokens.HashIn(s.tokens, RefreshTokens.Sha256(root.plain))
    ensures forall id :: id in s.tokens ==> s.tokens[id].familyId != root.family
  {
    var id := FreshNumber(s.tokens.Keys);
    var hashes := set i | i in s.tokens :: s.tokens[i].tokenHash.plaintext;
    var plain := FreshNumber(hashes);
    var families := set i | i in s.tokens :: s.tokens[i].familyId;
    var family := FreshNumber(families);
    assert forall i :: i in s.tokens ==> s.tokens[i].familyId in families && s.tokens[i].tokenHash.plaintext in hashes;
    root := Runs.Create(id, plain, family, "", "", "", "", Some(sid));
  }

  /** A request past its session check, left to itself, stores its refresh token and answers. */
  lemma AdmittedAnswers(cfg: Config, s: State, r: nat, sid: Sid) returns (steps: seq<Step>)
    requires InFlight(s, r, sid)
    ensures At(Run(cfg, s, steps), r, Answered(sid))
  {
    if s.flights[r].saves {
      var root := FreshRoot(s.refresh, sid);
      steps := [Save(r, root)] + [Answer(r)];
      RunTwice(cfg, s, [Save(r, root)], [Answer(r)]);
      RunOne(cfg, s, Save(r, root));
      RunOne(cfg, Apply(cfg, s, Save(r, root)), Answer(r));
      assert root.newId in Runs.DoCreate(cfg.refresh, s.refresh, root).tokens;
    } else {
      steps := [Answer(r)];
      RunOne(cfg, s, Answer(r));
    }
  }

  /** Some continuation answers the request in this session. */
  ghost predicate MayBeAnswered(cfg: Config, s: State, r: nat, sid: Sid) {
    exists steps :: At(Run(cfg, s, steps), r, Answered(sid))
  }

  /** Exactly the requests past their session check can still answer: once a logout has
      invalidated the session, a request that has not answered can be answered for that session
      in some continuation if and only if it had passed the check, whatever other requests do and
      whether or not the tokens are revoked by then. */
  lemma StillAnsweredIff(cfg: Config, s: State, r: nat, sid: Sid)
    requires Ended(s, sid) && !At(s, r, Answered(sid))
    ensures MayBeAnswered(cfg, s, r, sid) <==> InFlight(s, r, sid)
  {
    hide Run;
    if InFlight(s, r, sid) {
      var steps := AdmittedAnswers(cfg, s, r, sid);
      assert At(Run(cfg, s, steps), r, Answered(sid));
    } else {
      forall steps ensures !At(Run(cfg, s, steps), r, Answered(sid)) {
        EndedRun(cfg, s, steps, sid);
      }
    }
  }

  // ---------------------------------------------------------------------------------------
  // Which requests can still store a live token
  // ---------------------------------------------------------------------------------------

  predicate Saving(s: State, r: nat, sid: Sid) {
    At(s, r, Admitted(sid, true))
  }

  /** The session has ended, its tokens are revoked, and no request under way can add one. */
  ghost predicate Shut(s: State, sid: Sid) {
    Ended(s, sid) && Down(s.refresh, OfSession(sid)) && forall r :: !Saving(s, r, sid)
  }

  lemma StepOfRefresh(cfg: Config, s: State, a: Step)
    ensures var s' := Apply(cfg, s, a);
      || s'.refresh == s.refresh
      || (a.Rotate? && !a.statement.Create? && s'.refresh == Runs.Apply(cfg.refresh, s.refresh, a.statement))
      || (&& a.Save? && a.root.Create? && a.root.sid.Some? && Saving(s, a.r, a.root.sid.value)
          && s'.refresh == Runs.Apply(cfg.refresh, s.refresh, a.root))
  {
    hide Runs.DoCreate;
  }

  lemma StepKeepsInv(cfg: Config, s: State, a: Step)
    requires Runs.Inv(cfg.refresh, s.refresh)
    ensures Runs.Inv(cfg.refresh, Apply(cfg, s, a).refresh)
  {
    hide Apply, Runs.Apply, Runs.Inv, Runs.Evolves;
    StepOfRefresh(cfg, s, a);
    if a.Rotate? {
      Runs.StepKeepsInv(cfg.refresh, s.refresh, a.statement);
    } else if a.Save? {
      Runs.StepKeepsInv(cfg.refresh, s.refresh, a.root);
    }
  }

  lemma NobodyStartsSaving(cfg: Config, s: State, a: Step, sid: Sid)
    requires Ended(s, sid)
    ensures forall r :: Saving(Apply(cfg, s, a), r, sid) ==> Saving(s, r, sid)
  {
    hide Runs.Apply, Runs.DoCreate;
  }

  lemma ShutStep(cfg: Config, s: State, a: Step, sid: Sid)
    requires Runs.Inv(cfg.refresh, s.refresh) && Shut(s, sid)
    ensures Shut(Apply(cfg, s, a), sid)
  {
    hide Apply, Ended, Down, Runs.Apply, Runs.Inv, Saving;
    EndedStep(cfg, s, a, sid);
    NobodyStartsSaving(cfg, s, a, sid);
    StepOfRefresh(cfg, s, a);
    if a.Rotate? && !a.statement.Create? {
      DownStep(cfg.refresh, s.refresh, a.statement, OfSession(sid));
    } else if a.Save? && a.root.Create? && a.root.sid.Some? && a.root.sid != Some(sid) {
      DownStep(cfg.refresh, s.refresh, a.root, OfSession(sid));
    }
  }

  lemma {:induction false} ShutRun(cfg: Config, s: State, steps: seq<Step>, sid: Sid)
    requires Runs.Inv(cfg.refresh, s.refresh) && Shut(s, sid)
    ensures Shut(Run(cfg, s, steps), sid)
    decreases |steps|
  {
    hide Apply, Shut, Runs.Inv;
    if steps != [] {
      ShutStep(cfg, s, steps[0], sid);
      StepKeepsInv(cfg, s, steps[0]);
      ShutRun(cfg, Apply(cfg, s, steps[0]), steps[1..], sid);
    }
  }

  /** Steps of the refresh requests alone. */
  function Rotations(steps: seq<Runs.Step>): seq<Step> {
    seq(|steps|, i requires 0 <= i < |steps| => Rotate(steps[i]))
  }

  lemma {:induction false} RotationsRun(cfg: Config, s: State, steps: seq<Runs.Step>)
    requires NoCreation(steps)
    ensures Run(cfg, s, Rotations(steps)) == s.(refresh := Runs.Run(cfg.refresh, s.refresh, steps))
    decreases |steps|
  {
    hide Runs.Apply;
    if steps != [] {
      assert !steps[0].Create?;
      assert forall i :: 0 <= i < |steps| - 1 ==> steps[1..][i] == steps[i + 1];
      assert Rotations(steps)[1..] == Rotations(steps[1..]);
      RotationsRun(cfg, Apply(cfg, s, Rotate(steps[0])), steps[1..]);
    }
  }

  lemma SavingRegains(cfg: Config, s: State, r: nat, sid: Sid) returns (steps: seq<Step>)
    requires Saving(s, r, sid) && sid != ""
    ensures !HitsRevoked(Run(cfg, s, steps).refresh.tokens, OfSession(sid))
  {
    var root := FreshRoot(s.refresh, sid);
    steps := [Save(r, root)];
    RunOne(cfg, s, Save(r, root));
    var t := Apply(cfg, s, Save(r, root)).refresh.tokens;
    assert root.newId in Runs.DoCreate(cfg.refresh, s.refresh, root).tokens;
    assert root.newId in t && Hits(OfSession(sid), t[root.newId]) && !t[root.newId].revoked;
  }

  /** A refresh that can still insert its child, or a request that has yet to store its root. */
  ghost predicate CanAddToken(s: State, sid: Sid) {
    (exists r :: Eligible(s.refresh, r, OfSession(sid))) || (exists r :: Saving(s, r, sid))
  }

  /** Some continuation has an unrevoked refresh token of the session. */
  ghost predicate MayHoldToken(cfg: Config, s: State, sid: Sid) {
    exists steps :: !HitsRevoked(Run(cfg, s, steps).refresh.tokens, OfSession(sid))
  }

  /** After both statements of the logout, an unrevoked refresh token of the session can appear
      in some continuation if and only if a refresh had read one before it was revoked and can
      still insert its child, or a request past its session check has yet to store its first
      token. */
  lemma LogoutTokensIff(cfg: Config, s: State, sid: Sid)
    requires Runs.Inv(cfg.refresh, s.refresh) && Ended(s, sid) && sid != ""
    requires HitsRevoked(s.refresh.tokens, OfSession(sid))
    ensures MayHoldToken(cfg, s, sid) <==> CanAddToken(s, sid)
  {
    hide Run, Runs.Inv, Eligible, HitsRevoked, Saving, Ended;
    var g := OfSession(sid);
    if r :| Eligible(s.refresh, r, g) {
      var statements := EligibleRegains(cfg.refresh, s.refresh, r, g);
      RotationsRun(cfg, s, statements);
      assert !HitsRevoked(Run(cfg, s, Rotations(statements)).refresh.tokens, g);
    } else if r :| Saving(s, r, sid) {
      var steps := SavingRegains(cfg, s, r, sid);
      assert !HitsRevoked(Run(cfg, s, steps).refresh.tokens, g);
    } else {
      forall steps ensures HitsRevoked(Run(cfg, s, steps).refresh.tokens, g) {
        ShutRun(cfg, s, steps, sid);
      }
    }
  }

  lemma {:induction false} RunKeepsInv(cfg: Config, s: State, steps: seq<Step>)
    requires Runs.Inv(cfg.refresh, s.refresh)
    ensures Runs.Inv(cfg.refresh, Run(cfg, s, steps).refresh)
    decreases |steps|
  {
    hide Apply, Runs.Inv;
    if steps != [] {
      StepKeepsInv(cfg, s, steps[0]);
      RunKeepsInv(cfg, Apply(cfg, s, steps[0]), steps[1..]);
    }
  }

  /** The two statements of a logout, with anything in between. */
  ghost function LoggedOut(cfg: Config, s: State, sid: Sid, between: seq<Step>): State {
    Apply(cfg, Run(cfg, Apply(cfg, s, Invalidate(sid)), between), Rotate(Runs.RevokeSid(sid)))
  }

  lemma InvalidationEnds(cfg: Config, s: State, sid: Sid)
    requires sid in s.sessions
    ensures var s' := Apply(cfg, s, Invalidate(sid));
      Ended(s', sid) && s'.flights == s.flights && s'.refresh == s.refresh
  {}

  lemma RevocationHits(cfg: Config, s: State, sid: Sid)
    ensures HitsRevoked(Apply(cfg, s, Rotate(Runs.RevokeSid(sid))).refresh.tokens, OfSession(sid))
  {}

  lemma AfterLogout(cfg: Config, s: State, sid: Sid, between: seq<Step>)
    requires Runs.Inv(cfg.refresh, s.refresh) && sid in s.sessions
    ensures var s1 := LoggedOut(cfg, s, sid, between);
      && Runs.Inv(cfg.refresh, s1.refresh) && Ended(s1, sid) && HitsRevoked(s1.refresh.tokens, OfSession(sid))
      && forall r :: InFlight(s1, r, sid) ==> InFlight(s, r, sid)
  {
    hide Run, Runs.Inv, HitsRevoked, Ended, Apply;
    var s0 := Apply(cfg, s, Invalidate(sid));
    var s2 := Run(cfg, s0, between);
    InvalidationEnds(cfg, s, sid);
    EndedRun(cfg, s0, between, sid);
    RunKeepsInv(cfg, s0, between);
    StepKeepsInv(cfg, s2, Rotate(Runs.RevokeSid(sid)));
    EndedStep(cfg, s2, Rotate(Runs.RevokeSid(sid)), sid);
    RevocationHits(cfg, s2, sid);
  }

  /** What a logout leaves open, whatever ran between its statements: the requests that can still
      answer are exactly those in flight past their session check, which they had passed before
      the logout began; and an unrevoked token can appear exactly through an eligible refresh or
      a request that has yet to store its first token. */
  lemma LogoutFinalIff(cfg: Config, s: State, sid: Sid, between: seq<Step>)
    requires Runs.Inv(cfg.refresh, s.refresh) && sid in s.sessions && sid != ""
    ensures var s1 := LoggedOut(cfg, s, sid, between);
      && (forall r :: InFlight(s1, r, sid) ==> InFlight(s, r, sid))
      && (forall r :: !At(s1, r, Answered(sid)) ==>
           (MayBeAnswered(cfg, s1, r, sid) <==> InFlight(s1, r, sid)))
      && (MayHoldToken(cfg, s1, sid) <==> CanAddToken(s1, sid))
  {
    hide Run, Runs.Inv, Eligible, HitsRevoked, Saving, Ended, LoggedOut, InFlight, MayBeAnswered,
      MayHoldToken, CanAddToken;
    var s1 := LoggedOut(cfg, s, sid, between);
    AfterLogout(cfg, s, sid, between);
    forall r | !At(s1, r, Answered(sid))
      ensures MayBeAnswered(cfg, s1, r, sid) <==> InFlight(s1, r, sid)
    {
      StillAnsweredIff(cfg, s1, r, sid);
    }
    LogoutTokensIff(cfg, s1, sid);
  }
}
