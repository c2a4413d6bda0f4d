/**
 The requests that `AuthFlow` takes in one step are the statements of `LogoutRuns` with nothing
 in between.
 */
module LogoutRefinement {
  import opened Wrappers
  import opened Scopes
  import opened AuthorizeRequests
  import opened LoginSessions
  import opened LogoutRuns
  import Flow = AuthFlow
  import FlowInvariants = AuthFlowInvariants
  import RefreshTokens
  import Runs = RefreshTokenRuns
  import RefreshTokenTheorems
  import TokenRevocation

  function Settings(cfg: Flow.Config): Config {
    Config(cfg.refresh, cfg.sessionSeconds)
  }

  /** The flow's tables with these requests under way. */
  function Interleaved(f: Flow.State, requests: map<nat, Runs.Request>, flights: map<nat, Flight>): State {
    State(f.sessions, Runs.State(f.tokens, requests, f.now), flights)
  }

  /** Tables and clock are those of the flow, and request `r` was answered exactly if it logged
      something. */
  ghost predicate SameOutcome(s: State, f: Flow.State, f': Flow.State, r: nat) {
    && s.sessions == f'.sessions && s.refresh.tokens == f'.tokens && s.refresh.clock == f'.now
    && (r in s.flights && s.flights[r].Answered? <==> f'.log != f.log)
  }

  function RootOf(d: Flow.Draws, userId: string, clientId: ClientId, tenantId: string, scopes: seq<string>,
      sid: Sid): Runs.Step {
    Runs.Create(d.tokenId, d.plain, d.family, userId, clientId, tenantId, Format(scopes), Some(sid))
  }

  /** The root that the grant stores, if its client and scopes allow one. */
  ghost predicate Stores(cfg: Flow.Config, tenantId: string, oauthClientId: Option<string>, requested: Option<string>,
                         userId: string, d: Flow.Draws, sid: Sid, saves: bool, root: Runs.Step)
  {
    var client := Flow.ResolveClient(cfg, tenantId, oauthClientId);
    && client.Some?
    && var resolved := ResolveScopes(requested, EffectiveScopes(client.value));
       && resolved.Ok?
       && saves == Flow.RefreshEligible(resolved.value, client.value)
       && root == RootOf(d, userId, client.value.clientId, tenantId, resolved.value, sid)
  }

  lemma RunThree(cfg: Config, s: State, a: Step, b: Step, c: Step)
    ensures Run(cfg, s, [a, b, c]) == Apply(cfg, Apply(cfg, Apply(cfg, s, a), b), c)
  {
    hide Apply;
    assert [a, b, c] == [a] + ([b] + [c]);
    RunTwice(cfg, s, [a], [b] + [c]);
    RunTwice(cfg, Apply(cfg, s, a), [b], [c]);
    RunOne(cfg, s, a);
    RunOne(cfg, Apply(cfg, s, a), b);
    RunOne(cfg, Apply(cfg, Apply(cfg, s, a), b), c);
  }

  lemma SavedRoot(cfg: Flow.Config, s: State, f: Flow.State, r: nat, d: Flow.Draws, userId: string, clientId: ClientId,
                  tenantId: string, scopes: seq<string>, sid: Sid, saves: bool)
    requires At(s, r, Admitted(sid, saves)) && Flow.UnseenToken(f.tokens, d)
    requires s.refresh.tokens == f.tokens && s.refresh.clock == f.now
    ensures var s' := Apply(Settings(cfg), s, Save(r, RootOf(d, userId, clientId, tenantId, scopes, sid)));
      && At(s', r, Admitted(sid, false)) && s'.sessions == s.sessions && s'.refresh.clock == s.refresh.clock
      && s'.refresh.tokens == if saves then
           f.tokens[d.tokenId := RefreshTokens.RootRow(cfg.refresh, f.now, d.plain, d.family, userId, clientId, tenantId,
                                                       Format(scopes), Some(sid))]
         else f.tokens
  {
    hide Format, RefreshTokens.RootRow, RefreshTokens.HashIn;
    var root := RootOf(d, userId, clientId, tenantId, scopes, sid);
    var refresh' := Runs.DoCreate(cfg.refresh, s.refresh, root);
    assert d.tokenId in refresh'.tokens;
  }

  lemma AskedAndChecked(cfg: Config, s: State, r: nat, given: Option<Sid>, random: Sid, saves: bool)
    requires Unnumbered(s, r) && random != "" && random !in s.sessions
    ensures var s' := Apply(cfg, Apply(cfg, s, Ask(r, given, saves)), Check(r, random));
      s' == Goto(s, r, if !Truthy(given) then Admitted(random, saves)
                       else if ValidAt(s.sessions, given.value, s.refresh.clock) then Admitted(given.value, saves)
                       else Refused)
  {
    hide ValidAt;
  }

  lemma RunFour(cfg: Config, s: State, a: Step, b: Step, c: Step, d: Step)
    ensures Run(cfg, s, [a, b, c, d]) == Apply(cfg, Apply(cfg, Apply(cfg, Apply(cfg, s, a), b), c), d)
  {
    hide Apply;
    assert [a, b, c, d] == [a] + [b, c, d];
    RunTwice(cfg, s, [a], [b, c, d]);
    RunOne(cfg, s, a);
    RunThree(cfg, Apply(cfg, s, a), b, c, d);
  }

  lemma RefusedStays(cfg: Config, s: State, r: nat, root: Runs.Step)
    requires At(s, r, Refused)
    ensures Apply(cfg, Apply(cfg, s, Save(r, root)), Answer(r)) == s
  {
    hide Runs.DoCreate;
  }

  lemma AdmittedIsAnswered(cfg: Config, s: State, r: nat, sid: Sid)
    requires At(s, r, Admitted(sid, false))
    ensures Apply(cfg, s, Answer(r)) == Goto(s, r, Answered(sid))
  {}

  /** What the flow does with a code's session. */
  lemma IssuedInFlow(cfg: Flow.Config, f: Flow.State, userId: string, tenantId: string, oauthClientId: Option<string>,
                     requested: Option<string>, given: Option<Sid>, d: Flow.Draws, saves: bool, root: Runs.Step)
    requires Stores(cfg, tenantId, oauthClientId, requested, userId, d,
        if Truthy(given) then given.value else d.sid, saves, root)
    ensures root.Create?
    ensures var f' := Flow.IssueTokens(cfg, f, userId, tenantId, oauthClientId, requested, given, true, true, d);
      var passes := Truthy(given) ==> ValidAt(f.sessions, given.value, f.now);
      && f'.sessions == f.sessions && f'.now == f.now && (f'.log != f.log <==> passes)
      && f'.tokens == if passes && saves then
           f.tokens[d.tokenId := RefreshTokens.RootRow(cfg.refresh, f.now, d.plain, d.family, userId, root.clientId, tenantId,
                                                       root.scope, root.sid)]
         else f.tokens
  {
    hide Flow.ResolveClient, ResolveScopes, Format, Flow.RefreshEligible, RefreshTokens.RootRow, Flow.TokenResponse, ValidAt;
    var f' := Flow.IssueTokens(cfg, f, userId, tenantId, oauthClientId, requested, given, true, true, d);
    assert f'.log != f.log <==> |f'.log| == |f.log| + 1;
  }

  /** The code exchange: after redeeming the code, session check, insert and response. */
  lemma ExchangeIsItsSteps(cfg: Flow.Config, f: Flow.State, requests: map<nat, Runs.Request>, flights: map<nat, Flight>,
                           r: nat, userId: string, tenantId: string, oauthClientId: Option<string>,
                           requested: Option<string>, given: Option<Sid>, d: Flow.Draws, saves: bool, root: Runs.Step)
    requires Flow.Unseen(f, d) && Unnumbered(Interleaved(f, requests, flights), r)
    requires Stores(cfg, tenantId, oauthClientId, requested, userId, d,
        if Truthy(given) then given.value else d.sid, saves, root)
    ensures var s := Interleaved(f, requests, flights);
      var f' := Flow.IssueTokens(cfg, f, userId, tenantId, oauthClientId, requested, given, true, true, d);
      SameOutcome(Run(Settings(cfg), s, [Ask(r, given, saves), Check(r, d.sid), Save(r, root), Answer(r)]), f, f', r)
  {
    hide Flow.ResolveClient, ResolveScopes, Format, Flow.RefreshEligible, RefreshTokens.RootRow,
      RefreshTokens.HashIn, Runs.DoCreate,
      Flow.IssueTokens, ValidAt;
    IssuedInFlow(cfg, f, userId, tenantId, oauthClientId, requested, given, d, saves, root);
    var s := Interleaved(f, requests, flights);
    var sid := if Truthy(given) then given.value else d.sid;
    var client := Flow.ResolveClient(cfg, tenantId, oauthClientId).value;
    var scopes := ResolveScopes(requested, EffectiveScopes(client)).value;
    var cfg' := Settings(cfg);
    RunFour(cfg', s, Ask(r, given, saves), Check(r, d.sid), Save(r, root), Answer(r));
    AskedAndChecked(cfg', s, r, given, d.sid, saves);
    var s2 := Apply(cfg', Apply(cfg', s, Ask(r, given, saves)), Check(r, d.sid));
    hide Apply;
    if Truthy(given) && !ValidAt(f.sessions, sid, f.now) {
      RefusedStays(cfg', s2, r, root);
    } else {
      SavedRoot(cfg, s2, f, r, d, userId, client.clientId, tenantId, scopes, sid, saves);
      AdmittedIsAnswered(cfg', Apply(cfg', s2, Save(r, root)), r, sid);
    }
  }

  /** A password grant: a new session, insert and response. */
  lemma PasswordIsItsSteps(cfg: Flow.Config, f: Flow.State, requests: map<nat, Runs.Request>, flights: map<nat, Flight>,
                           r: nat, userId: string, tenantId: string, oauthClientId: Option<string>,
                           requested: Option<string>, d: Flow.Draws, saves: bool, root: Runs.Step)
    requires Flow.Unseen(f, d) && Unnumbered(Interleaved(f, requests, flights), r)
    requires Stores(cfg, tenantId, oauthClientId, requested, userId, d, d.sid, saves, root)
    ensures var s := Interleaved(f, requests, flights);
      var f' := Flow.IssueTokens(cfg, f, userId, tenantId, oauthClientId, requested, None, false, true, d);
      SameOutcome(Run(Settings(cfg), s, [AskByPassword(r, d.sid, userId, tenantId, saves), Save(r, root), Answer(r)]), f, f', r)
  {
    hide Flow.ResolveClient, ResolveScopes, Format, Flow.RefreshEligible, RefreshTokens.RootRow,
      RefreshTokens.HashIn, Runs.DoCreate,
      Flow.TokenResponse;
    var s := Interleaved(f, requests, flights);
    var client := Flow.ResolveClient(cfg, tenantId, oauthClientId).value;
    var scopes := ResolveScopes(requested, EffectiveScopes(client)).value;
    var cfg' := Settings(cfg);
    RunThree(cfg', s, AskByPassword(r, d.sid, userId, tenantId, saves), Save(r, root), Answer(r));
    var s1 := Apply(cfg', s, AskByPassword(r, d.sid, userId, tenantId, saves));
    SavedRoot(cfg, s1, f, r, d, userId, client.clientId, tenantId, scopes, d.sid, saves);
  }

  /** Where the authorize endpoint sends a code, the check and the response in its session. */
  lemma AuthorizeIsItsSteps(cfg: Flow.Config, f: Flow.State, requests: map<nat, Runs.Request>, flights: map<nat, Flight>,
                            r: nat, q: Query, ui: Flow.Signals, code: string, random: Sid)
    requires DirectoryOk(cfg.directory) && Flow.Decide(cfg, f, q, ui).SendCode?
    requires Unnumbered(Interleaved(f, requests, flights), r)
    ensures var s := Interleaved(f, requests, flights);
      var f' := Flow.DoAuthorize(cfg, f, q, ui, code);
      var s' := Run(Settings(cfg), s, [Ask(r, ui.sidCookie, false), Check(r, random), Answer(r)]);
      SameOutcome(s', f, f', r) && At(s', r, Answered(Flow.Decide(cfg, f, q, ui).sid))
  {
    hide Flow.Decide, DirectoryOk, Flow.CodeRow, FindByClientIdOrAlias, ValidateAuthorizeRequest, FlowInvariants.CodeOk,
      Runs.Apply, Runs.DoCreate;
    FlowInvariants.SentCodeChecked(cfg, f, q, ui);
    FlowInvariants.SentCodeIsOk(cfg, f, q, ui);
    RunThree(Settings(cfg), Interleaved(f, requests, flights), Ask(r, ui.sidCookie, false), Check(r, random), Answer(r));
  }

  /** The statements of a refresh; `goesOn` tells whether user and default client are in order. */
  function RefreshSteps(r: nat, plain: RefreshTokens.Plaintext, clientId: ClientId, requested: Option<string>,
                        d: Flow.Draws, goesOn: bool): seq<Step>
  {
    Rotations(RefreshTokenTheorems.CallSteps(r, plain, clientId, requested, d.tokenId, d.plain))
    + LastSteps(r, d.sid, goesOn)
  }

  ghost predicate Returned(t: RefreshTokens.Table, outcome: RefreshTokens.Outcome) {
    (outcome.Rotated? || outcome.Replayed?) && outcome.child in t
  }

  function LastSteps(r: nat, random: Sid, goesOn: bool): seq<Step> {
    if goesOn then [Resume(r), Check(r, random), Answer(r)] else [Resume(r), GiveUp(r), Answer(r)]
  }

  /** From the outcome of the rotation on. */
  lemma RefreshEnds(cfg: Config, s: State, r: nat, outcome: RefreshTokens.Outcome, random: Sid, goesOn: bool)
    requires r !in s.flights && r in s.refresh.requests && s.refresh.requests[r] == Runs.Done(outcome)
    requires random != "" && random !in s.sessions
    ensures var s' := Run(cfg, s, LastSteps(r, random, goesOn));
      && s'.sessions == s.sessions && s'.refresh == s.refresh
      && (r in s'.flights && s'.flights[r].Answered?
          <==> goesOn && Returned(s.refresh.tokens, outcome)
               && var sid := s.refresh.tokens[outcome.child].sid;
                  (Truthy(sid) ==> ValidAt(s.sessions, sid.value, s.refresh.clock)))
  {
    hide ValidAt, Runs.Apply, Runs.DoCreate;
    var rest := LastSteps(r, random, goesOn);
    RunThree(cfg, s, rest[0], rest[1], rest[2]);
  }

  lemma RefreshedLogsIff(cfg: Flow.Config, s: Flow.State, row: RefreshTokens.Token, permitted: bool, d: Flow.Draws)
    ensures var s' := Flow.Refreshed(cfg, s, row, permitted, d);
      && s'.sessions == s.sessions && s'.tokens == s.tokens && s'.now == s.now
      && (s'.log != s.log
          <==> permitted && FindByAlias(cfg.directory, cfg.domainOf(row.tenantId)).Some?
               && (Truthy(row.sid) ==> ValidAt(s.sessions, row.sid.value, s.now)))
  {
    hide FindByAlias, ValidAt, Parse, Flow.TokenResponse;
    var s' := Flow.Refreshed(cfg, s, row, permitted, d);
    assert s'.log != s.log <==> |s'.log| == |s.log| + 1;
  }

  lemma RefreshLogsIff(cfg: Flow.Config, f: Flow.State, plain: RefreshTokens.Plaintext, clientId: string,
                       requested: Option<string>, permitted: bool, d: Flow.Draws)
    requires FindByClientIdOrAlias(cfg.directory, clientId).Ok?
    ensures var (t, outcome) := RefreshTokens.RotateCall(cfg.refresh, f.tokens, f.now, plain,
                                  FindByClientIdOrAlias(cfg.directory, clientId).value.clientId, requested, d.tokenId, d.plain);
      var f' := Flow.DoRefresh(cfg, f, plain, clientId, true, requested, permitted, d);
      && f'.sessions == f.sessions && f'.tokens == t && f'.now == f.now
      && (f'.log != f.log
          <==> Returned(t, outcome) && permitted && FindByAlias(cfg.directory, cfg.domainOf(t[outcome.child].tenantId)).Some?
               && (Truthy(t[outcome.child].sid) ==> ValidAt(f.sessions, t[outcome.child].sid.value, f.now)))
  {
    hide FindByClientIdOrAlias, FindByAlias, RefreshTokens.RotateCall, ValidAt, Flow.Refreshed;
    var (t, outcome) := RefreshTokens.RotateCall(cfg.refresh, f.tokens, f.now, plain,
                          FindByClientIdOrAlias(cfg.directory, clientId).value.clientId, requested, d.tokenId, d.plain);
    if Returned(t, outcome) { RefreshedLogsIff(cfg, f.(tokens := t), t[outcome.child], permitted, d); }
  }

  /** A refresh: the statements of the rotation, then session check and response for the record. */
  lemma RefreshIsItsSteps(cfg: Flow.Config, f: Flow.State, requests: map<nat, Runs.Request>, flights: map<nat, Flight>,
                          r: nat, plain: RefreshTokens.Plaintext, clientId: string, requested: Option<string>,
                          permitted: bool, d: Flow.Draws, goesOn: bool)
    requires Flow.Unseen(f, d) && Unnumbered(Interleaved(f, requests, flights), r)
    requires FindByClientIdOrAlias(cfg.directory, clientId).Ok?
    requires var (t, outcome) := RefreshTokens.RotateCall(cfg.refresh, f.tokens, f.now, plain,
                                   FindByClientIdOrAlias(cfg.directory, clientId).value.clientId, requested,
                                   d.tokenId, d.plain);
      Returned(t, outcome) ==>
        (goesOn <==> permitted && FindByAlias(cfg.directory, cfg.domainOf(t[outcome.child].tenantId)).Some?)
    ensures var s := Interleaved(f, requests, flights);
      var f' := Flow.DoRefresh(cfg, f, plain, clientId, true, requested, permitted, d);
      var client := FindByClientIdOrAlias(cfg.directory, clientId).value.clientId;
      SameOutcome(Run(Settings(cfg), s, RefreshSteps(r, plain, client, requested, d, goesOn)), f, f', r)
  {
    hide FindByClientIdOrAlias, FindByAlias, RefreshTokens.RotateCall, Flow.DoRefresh, RefreshTokens.HashIn,
      ValidAt, Run, Runs.Run,
      RefreshTokenTheorems.CallSteps, Rotations, LastSteps;
    var s := Interleaved(f, requests, flights);
    var cfg' := Settings(cfg);
    var client := FindByClientIdOrAlias(cfg.directory, clientId).value.clientId;
    var calls := RefreshTokenTheorems.CallSteps(r, plain, client, requested, d.tokenId, d.plain);
    RunTwice(cfg', s, Rotations(calls), LastSteps(r, d.sid, goesOn));
    CallsCreateNothing(r, plain, client, requested, d);
    RotationsRun(cfg', s, calls);
    RefreshTokenTheorems.CallIsItsSteps(cfg.refresh, s.refresh, r, plain, client, requested, d.tokenId, d.plain);
    RefreshLogsIff(cfg, f, plain, clientId, requested, permitted, d);
    var outcome := RefreshTokens.RotateCall(cfg.refresh, f.tokens, f.now, plain, client, requested, d.tokenId, d.plain).1;
    RefreshEnds(cfg', Run(cfg', s, Rotations(calls)), r, outcome, d.sid, goesOn);
  }

  lemma CallsCreateNothing(r: nat, plain: RefreshTokens.Plaintext, clientId: ClientId, requested: Option<string>, d: Flow.Draws)
    ensures RefreshTokenTheorems.NoCreation(RefreshTokenTheorems.CallSteps(r, plain, clientId, requested, d.tokenId, d.plain))
  {}

  lemma SessionLogoutIsItsSteps(cfg: Flow.Config, f: Flow.State, requests: map<nat, Runs.Request>,
                                flights: map<nat, Flight>, tenantId: Option<string>, sid: Sid)
    requires sid != ""
    ensures LoggedOut(Settings(cfg), Interleaved(f, requests, flights), sid, [])
      == Interleaved(Flow.DoLogout(f, tenantId, None, Some(sid)), requests, flights)
  {}

  lemma FoundInTable(t: RefreshTokens.Table, h: RefreshTokens.Hash)
    ensures var found := RefreshTokens.FindByHash(t, h); found.Some? ==> found.value in t
  {}

  /** The revocation endpoint: one statement, or none if the token is not there to be revoked. */
  lemma RevocationIsItsStep(cfg: Flow.Config, f: Flow.State, requests: map<nat, Runs.Request>, flights: map<nat, Flight>,
                            tenantId: string, plain: RefreshTokens.Plaintext)
    returns (steps: seq<Step>)
    ensures |steps| <= 1
    ensures Run(Settings(cfg), Interleaved(f, requests, flights), steps)
      == Interleaved(f.(tokens := TokenRevocation.RevokedBy(f.tokens, tenantId, plain)), requests, flights)
  {
    hide RefreshTokens.FindByHash, RefreshTokens.RevokeFamilyRows;
    var found := RefreshTokens.FindByHash(f.tokens, RefreshTokens.Sha256(plain));
    FoundInTable(f.tokens, RefreshTokens.Sha256(plain));
    if found.Some? && f.tokens[found.value].tenantId == tenantId && !f.tokens[found.value].revoked {
      var step := Rotate(Runs.RevokeFamily(f.tokens[found.value].familyId));
      steps := [step];
      RunOne(Settings(cfg), Interleaved(f, requests, flights), step);
    } else {
      steps := [];
    }
  }

  /** A logout with a sid: both its statements and, if an explicit token is there to be revoked,
      the revocation of its family. */
  lemma LogoutIsItsSteps(cfg: Flow.Config, f: Flow.State, requests: map<nat, Runs.Request>, flights: map<nat, Flight>,
                         tenantId: Option<string>, refreshToken: Option<RefreshTokens.Plaintext>, sid: Sid)
    returns (rest: seq<Step>)
    requires sid != ""
    ensures |rest| <= 1 && (refreshToken.None? ==> rest == [])
    ensures var f' := Flow.DoLogout(f, tenantId, refreshToken, Some(sid));
      Run(Settings(cfg), LoggedOut(Settings(cfg), Interleaved(f, requests, flights), sid, []), rest)
        == Interleaved(f', requests, flights)
  {
    hide TokenRevocation.RevokedBy, RefreshTokens.RevokeSidRows, LoggedOut, Apply;
    SessionLogoutIsItsSteps(cfg, f, requests, flights, tenantId, sid);
    rest := [];
    if refreshToken.Some? && Truthy(tenantId) {
      var f1 := Flow.DoLogout(f, tenantId, None, Some(sid));
      rest := RevocationIsItsStep(cfg, f1, requests, flights, tenantId.value, refreshToken.value);
    }
  }
}
