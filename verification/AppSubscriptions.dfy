/**
 Subscribing a tenant to an app and unsubscribing it, recursively over the apps that the remote
 endpoints name in their answers.

 The answer of the n-th remote call is `script(n)`: any list of names, a body without names, or
 a failure. Apps are identified by id; `byName` is the unique name column. A tenant has at most
 one row per app: a row is only inserted after the lookup found none.
 */
module AppSubscriptions {
  import opened Wrappers

  type AppId = nat
  type TenantId = nat
  type UserId = nat
  type RoleId = nat

  datatype App = App(name: string, owner: TenantId, onboardingEnabled: bool,
                     onboardingCallbackUrl: Option<string>, appUrl: string)

  datatype Status = Success | Pending | Canceled | Failed

  datatype Error = OwnApplication | InProgress | RequestFailed | AppNotFound(name: string)

  datatype Subscription = Subscription(status: Status, message: Option<Error>)

  type Table = map<(TenantId, AppId), Subscription>

  datatype UserRole = UserRole(tenantId: TenantId, userId: UserId, roleId: RoleId)

  datatype Answer = HttpError | NoNames | Names(names: seq<string>)

  /** `onboardingCallbackUrl || appUrl`, and whether there is anything to call. */
  predicate HasEndpoint(app: App) {
    && app.onboardingEnabled
    && (Truthy(app.onboardingCallbackUrl) || app.appUrl != "")
  }

  // ---------------------------------------------------------------------------------------
  // Effects on the subscription table
  // ---------------------------------------------------------------------------------------

  ghost predicate SameRow(before: Table, after: Table, k: (TenantId, AppId)) {
    && (k in before <==> k in after)
    && (k in before ==> after[k] == before[k])
  }

  /** An app that got a row had none or a failed one; the new row is successful or, if an
      exception ended the call, failed with its message. */
  ghost predicate NewRow(before: Table, after: Table, tenant: TenantId, a: AppId, thrown: Option<Error>) {
    && ((tenant, a) in before ==> before[(tenant, a)].status == Failed)
    && (tenant, a) in after
    && (after[(tenant, a)] == Subscription(Success, None)
        || (thrown.Some? && after[(tenant, a)] == Subscription(Failed, thrown)))
  }

  /** Exactly the apps in `added` got a row. */
  ghost predicate SubscribeEffect(before: Table, after: Table, tenant: TenantId, added: set<AppId>,
                                  thrown: Option<Error>)
  {
    && (forall k: (TenantId, AppId) :: (k.0 != tenant || k.1 !in added) ==> SameRow(before, after, k))
    && (forall a :: a in added ==> NewRow(before, after, tenant, a, thrown))
  }

  lemma SubscribeEffectsCompose(t0: Table, t1: Table, t2: Table, tenant: TenantId,
                                f1: set<AppId>, f2: set<AppId>, thrown: Option<Error>)
    requires SubscribeEffect(t0, t1, tenant, f1, None) && SubscribeEffect(t1, t2, tenant, f2, thrown)
    ensures SubscribeEffect(t0, t2, tenant, f1 + f2, thrown)
  {}

  /** Rows of the tenant may go, and only for apps in `gone` or if they had failed; what stays
      is unchanged. All rows in `gone` went. */
  ghost predicate UnsubscribeEffect(before: Table, after: Table, tenant: TenantId, gone: set<AppId>) {
    && (forall k: (TenantId, AppId) :: k in after ==> k in before && after[k] == before[k])
    && (forall k: (TenantId, AppId) :: k in before && k !in after ==>
          k.0 == tenant && (k.1 in gone || before[k].status == Failed))
    && (forall a :: a in gone ==> (tenant, a) !in after)
  }

  lemma UnsubscribeEffectsCompose(t0: Table, t1: Table, t2: Table, tenant: TenantId, g1: set<AppId>, g2: set<AppId>)
    requires UnsubscribeEffect(t0, t1, tenant, g1) && UnsubscribeEffect(t1, t2, tenant, g2)
    ensures UnsubscribeEffect(t0, t2, tenant, g1 + g2)
  {}

  /** A row that is neither pending nor failed. */
  ghost predicate Settled(t: Table, tenant: TenantId, a: AppId) {
    (tenant, a) in t && (t[(tenant, a)].status == Success || t[(tenant, a)].status == Canceled)
  }

  ghost predicate FailedWith(t: Table, tenant: TenantId, a: AppId, error: Error) {
    (tenant, a) in t && t[(tenant, a)] == Subscription(Failed, Some(error))
  }

  /** A row of an app on the way: created by this call and not failed. */
  ghost predicate Live(t: Table, tenant: TenantId, a: AppId) {
    (tenant, a) in t && (t[(tenant, a)].status == Success || t[(tenant, a)].status == Pending)
  }

  // ---------------------------------------------------------------------------------------
  // Dependencies learnt from the answers
  // ---------------------------------------------------------------------------------------

  type Answers = map<AppId, seq<string>>

  /** `name` is an app and that app is in `apps`. */
  ghost predicate Resolves(byName: map<string, AppId>, name: string, apps: set<AppId>) {
    name in byName && byName[name] in apps
  }

  ghost predicate Closed(byName: map<string, AppId>, names: seq<string>, apps: set<AppId>) {
    forall n {:trigger n in names} :: n in names ==> Resolves(byName, n, apps)
  }

  ghost predicate DependsOn(byName: map<string, AppId>, answers: Answers, a: AppId, b: AppId) {
    a in answers && exists n :: n in answers[a] && n in byName && byName[n] == b
  }

  /** No app depends on itself or on one that finished after it. */
  ghost predicate Ordered(byName: map<string, AppId>, answers: Answers, finished: seq<AppId>) {
    forall i, j :: 0 <= i <= j < |finished| ==> !DependsOn(byName, answers, finished[i], finished[j])
  }

  /** A path along dependencies through the given apps. */
  ghost predicate IsPath(byName: map<string, AppId>, answers: Answers, among: set<AppId>, p: seq<AppId>) {
    && (forall i :: 0 <= i < |p| ==> p[i] in among)
    && (forall i :: 0 <= i < |p| - 1 ==> DependsOn(byName, answers, p[i], p[i + 1]))
  }

  /** The finishing order falls along every path, so no path returns to where it began. */
  lemma {:induction false} PathFalls(byName: map<string, AppId>, answers: Answers, finished: seq<AppId>,
                                     among: set<AppId>, p: seq<AppId>, i: nat)
    requires Ordered(byName, answers, finished) && (forall a :: a in among ==> a in finished)
    requires IsPath(byName, answers, among, p)
    requires |p| >= 2 && i < |finished| && finished[i] == p[0]
    ensures forall j :: i <= j < |finished| ==> finished[j] != p[|p| - 1]
    decreases |p|
  {
    assert DependsOn(byName, answers, p[0], p[1]);
    if |p| > 2 {
      var k :| 0 <= k < |finished| && finished[k] == p[1];
      forall x | 0 <= x < |p| - 2 ensures DependsOn(byName, answers, p[1..][x], p[1..][x + 1]) {
        assert DependsOn(byName, answers, p[x + 1], p[x + 2]);
      }
      PathFalls(byName, answers, finished, among, p[1..], k);
    }
  }

  ghost predicate NoCycle(byName: map<string, AppId>, answers: Answers, among: set<AppId>) {
    forall p {:trigger IsPath(byName, answers, among, p)} ::
      |p| >= 2 && IsPath(byName, answers, among, p) ==> p[0] != p[|p| - 1]
  }

  lemma OrderedHasNoCycle(byName: map<string, AppId>, answers: Answers, finished: seq<AppId>, among: set<AppId>)
    requires Ordered(byName, answers, finished) && forall a :: a in among ==> a in finished
    ensures NoCycle(byName, answers, among)
  {
    forall p | |p| >= 2 && IsPath(byName, answers, among, p) ensures p[0] != p[|p| - 1] {
      var i :| 0 <= i < |finished| && finished[i] == p[0];
      PathFalls(byName, answers, finished, among, p, i);
    }
  }

  // ---------------------------------------------------------------------------------------
  // What a whole recursive call may do
  // ---------------------------------------------------------------------------------------

  /** The table, with what was visited, reached, answered and finished so far. */
  datatype Progress = Progress(subs: Table, userRoles: set<UserRole>, visited: set<AppId>, reached: set<AppId>,
                               answers: Answers, finished: seq<AppId>)

  /** Every app that answered for `a` is settled. */
  ghost predicate DependenciesSettled(byName: map<string, AppId>, tenant: TenantId, s: Progress, a: AppId) {
    forall b :: DependsOn(byName, s.answers, a, b) ==> Settled(s.subs, tenant, b)
  }

  /** Kept while no exception is under way. */
  ghost predicate Going(byName: map<string, AppId>, tenant: TenantId, s: Progress) {
    && (forall a :: a in s.visited ==> Live(s.subs, tenant, a))
    && s.answers.Keys <= s.visited
    && (forall a {:trigger a in s.finished} :: a in s.finished ==>
          Settled(s.subs, tenant, a) && DependenciesSettled(byName, tenant, s, a))
    && Ordered(byName, s.answers, s.finished)
  }

  ghost predicate SameAnswers(before: Answers, after: Answers) {
    before.Keys <= after.Keys && forall a :: a in before ==> after[a] == before[a]
  }

  ghost predicate NewAnswersClosed(byName: map<string, AppId>, before: Answers, s: Progress) {
    forall a {:trigger a in s.answers} :: a in s.answers && a !in before ==> Closed(byName, s.answers[a], s.reached)
  }

  /** A stretch of subscribing that ended normally. */
  ghost predicate Subscribed(byName: map<string, AppId>, tenant: TenantId, s: Progress, s': Progress) {
    && s.visited <= s'.visited
    && s.reached <= s'.reached
    && SubscribeEffect(s.subs, s'.subs, tenant, s'.visited - s.visited, None)
    && SameAnswers(s.answers, s'.answers)
    && NewAnswersClosed(byName, s.answers, s')
    && (forall a :: a in s'.reached && a !in s.reached ==> Settled(s'.subs, tenant, a))
    && s.finished <= s'.finished
    && (forall a :: a in s'.visited && a !in s.visited ==> a in s'.finished)
    && s'.userRoles == s.userRoles
  }

  /** One that an exception ended. */
  ghost predicate SubscribeFailed(tenant: TenantId, s: Progress, s': Progress, error: Error) {
    && s.visited <= s'.visited
    && SubscribeEffect(s.subs, s'.subs, tenant, s'.visited - s.visited, Some(error))
    && s'.userRoles == s.userRoles
  }

  lemma SettledStays(t: Table, t': Table, tenant: TenantId, added: set<AppId>, thrown: Option<Error>, a: AppId)
    requires SubscribeEffect(t, t', tenant, added, thrown) && Settled(t, tenant, a)
    ensures Settled(t', tenant, a) && a !in added
  {}

  lemma SubscribedTwice(byName: map<string, AppId>, tenant: TenantId, s: Progress, s1: Progress, s2: Progress)
    requires Subscribed(byName, tenant, s, s1) && Subscribed(byName, tenant, s1, s2)
    ensures Subscribed(byName, tenant, s, s2)
  {
    SubscribeEffectsCompose(s.subs, s1.subs, s2.subs, tenant, s1.visited - s.visited, s2.visited - s1.visited, None);
    assert (s1.visited - s.visited) + (s2.visited - s1.visited) == s2.visited - s.visited;
    forall a | a in s2.reached && a !in s.reached ensures Settled(s2.subs, tenant, a) {
      if a in s1.reached { SettledStays(s1.subs, s2.subs, tenant, s2.visited - s1.visited, None, a); }
    }
    forall a | a in s2.answers && a !in s.answers ensures Closed(byName, s2.answers[a], s2.reached) {
      if a in s1.answers {
        forall n | n in s2.answers[a] ensures Resolves(byName, n, s2.reached) {
          assert n in s1.answers[a];
        }
      }
    }
  }

  lemma SubscribedThenFailed(byName: map<string, AppId>, tenant: TenantId, s: Progress, s1: Progress, s2: Progress,
                               error: Error)
    requires Subscribed(byName, tenant, s, s1) && SubscribeFailed(tenant, s1, s2, error)
    ensures SubscribeFailed(tenant, s, s2, error)
  {
    SubscribeEffectsCompose(s.subs, s1.subs, s2.subs, tenant, s1.visited - s.visited, s2.visited - s1.visited, Some(error));
    assert (s1.visited - s.visited) + (s2.visited - s1.visited) == s2.visited - s.visited;
  }

  /** The state in which the row of `app` has just been created. */
  function Started(s: Progress, tenant: TenantId, app: AppId): Progress {
    s.(subs := s.subs[(tenant, app) := Subscription(Pending, None)], visited := s.visited + {app},
       reached := s.reached + {app})
  }

  ghost predicate Startable(s: Progress, tenant: TenantId, app: AppId) {
    && app !in s.visited
    && ((tenant, app) in s.subs ==> s.subs[(tenant, app)].status == Failed)
  }

  lemma StartKeepsGoing(byName: map<string, AppId>, tenant: TenantId, s: Progress, app: AppId)
    requires Going(byName, tenant, s) && Startable(s, tenant, app)
    ensures Going(byName, tenant, Started(s, tenant, app))
    ensures app !in s.answers && app !in s.finished
  {}

  /** From the start of one app to its finish. */
  lemma FinishKeepsGoing(byName: map<string, AppId>, tenant: TenantId, s: Progress, app: AppId, s2: Progress)
    requires Going(byName, tenant, s) && Startable(s, tenant, app)
    requires Subscribed(byName, tenant, Started(s, tenant, app), s2) && Going(byName, tenant, s2)
    requires DependenciesSettled(byName, tenant, s2, app)
    ensures var s3 := s2.(subs := s2.subs[(tenant, app) := Subscription(Success, None)], finished := s2.finished + [app]);
      Going(byName, tenant, s3) && Subscribed(byName, tenant, s, s3)
  {
    var s1 := Started(s, tenant, app);
    var s3 := s2.(subs := s2.subs[(tenant, app) := Subscription(Success, None)], finished := s2.finished + [app]);
    assert SameRow(s1.subs, s2.subs, (tenant, app));
    FinishedStaysOrdered(byName, tenant, s2, app);
    forall a | a in s3.visited ensures Live(s3.subs, tenant, a) {
      assert Live(s2.subs, tenant, a);
    }
    forall a | a in s3.finished ensures Settled(s3.subs, tenant, a) && DependenciesSettled(byName, tenant, s3, a) {
      if a != app { assert a in s2.finished; }
    }
    forall a | a in s3.reached && a !in s.reached ensures Settled(s3.subs, tenant, a) {
      if a != app { assert a in s2.reached && a !in s1.reached; }
    }
    forall a | a in s3.visited && a !in s.visited ensures a in s3.finished {
      if a == app { assert s3.finished[|s2.finished|] == app; } else { assert a in s2.finished; }
    }
    FinishEffect(tenant, s, app, s2, s3.subs, None);
  }

  lemma FinishEffect(tenant: TenantId, s: Progress, app: AppId, s2: Progress, t3: Table,
                     thrown: Option<Error>)
    requires Startable(s, tenant, app) && s.visited + {app} <= s2.visited
    requires SubscribeEffect(Started(s, tenant, app).subs, s2.subs, tenant, s2.visited - (s.visited + {app}), thrown)
    requires t3 == s2.subs[(tenant, app) := Subscription(if thrown.None? then Success else Failed, thrown)]
    ensures SubscribeEffect(s.subs, t3, tenant, s2.visited - s.visited, thrown)
  {
    var s1 := Started(s, tenant, app);
    forall k: (TenantId, AppId) | k.0 != tenant || k.1 !in s2.visited - s.visited ensures SameRow(s.subs, t3, k) {
      assert SameRow(s1.subs, s2.subs, k);
    }
    forall a | a in s2.visited - s.visited ensures NewRow(s.subs, t3, tenant, a, thrown) {
      if a != app { assert NewRow(s1.subs, s2.subs, tenant, a, thrown); }
    }
  }

  lemma FinishedStaysOrdered(byName: map<string, AppId>, tenant: TenantId, s: Progress, app: AppId)
    requires Going(byName, tenant, s) && DependenciesSettled(byName, tenant, s, app) && !Settled(s.subs, tenant, app)
    ensures Ordered(byName, s.answers, s.finished + [app])
  {
    var f := s.finished + [app];
    forall i, j | 0 <= i <= j < |f| ensures !DependsOn(byName, s.answers, f[i], f[j]) {
      if j < |s.finished| {
        assert f[i] == s.finished[i] && f[j] == s.finished[j];
      } else if i < |s.finished| {
        assert f[i] in s.finished;
      }
    }
  }

  lemma NothingSubscribed(byName: map<string, AppId>, tenant: TenantId, s: Progress, names: seq<string>)
    ensures Subscribed(byName, tenant, s, s) && NamesDone(byName, tenant, names, 0, s)
    ensures forall error :: SubscribeFailed(tenant, s, s, error)
  {}

  lemma SettledReached(byName: map<string, AppId>, tenant: TenantId, s: Progress, app: AppId)
    requires Settled(s.subs, tenant, app)
    ensures var s' := s.(reached := s.reached + {app});
      Subscribed(byName, tenant, s, s') && (Going(byName, tenant, s) ==> Going(byName, tenant, s'))
  {}

  lemma GuardNeedsUnlive(byName: map<string, AppId>, tenant: TenantId, s: Progress, app: AppId)
    requires app in s.visited && !Live(s.subs, tenant, app)
    ensures !Going(byName, tenant, s)
  {}

  lemma FailureRecorded(tenant: TenantId, s: Progress, app: AppId, s2: Progress, error: Error)
    requires Startable(s, tenant, app) && SubscribeFailed(tenant, Started(s, tenant, app), s2, error)
    ensures SubscribeFailed(tenant, s, s2.(subs := s2.subs[(tenant, app) := Subscription(Failed, Some(error))]), error)
  {
    FinishEffect(tenant, s, app, s2, s2.subs[(tenant, app) := Subscription(Failed, Some(error))], Some(error));
  }

  /** The state in which the answer of `app` has just been recorded. */
  ghost function Answered(s: Progress, app: AppId, names: seq<string>): Progress {
    s.(answers := s.answers[app := names])
  }

  lemma AnswerKeepsGoing(byName: map<string, AppId>, tenant: TenantId, s: Progress, app: AppId, names: seq<string>)
    requires Going(byName, tenant, s) && app in s.visited && app !in s.finished
    ensures Going(byName, tenant, Answered(s, app, names))
  {}

  /** All names of an answer have been dealt with. */
  ghost predicate NamesDone(byName: map<string, AppId>, tenant: TenantId, names: seq<string>, count: nat, s: Progress) {
    forall j {:trigger names[j]} :: 0 <= j < count && j < |names| ==>
      Resolves(byName, names[j], s.reached) && Settled(s.subs, tenant, byName[names[j]])
  }

  lemma AnswerFollowed(byName: map<string, AppId>, tenant: TenantId, s: Progress, app: AppId, names: seq<string>,
                       s2: Progress)
    requires app !in s.answers && Subscribed(byName, tenant, Answered(s, app, names), s2)
    requires NamesDone(byName, tenant, names, |names|, s2)
    ensures Subscribed(byName, tenant, s, s2) && DependenciesSettled(byName, tenant, s2, app)
  {}

  lemma AnswerThenFailed(tenant: TenantId, s: Progress, app: AppId, names: seq<string>, s2: Progress, error: Error)
    requires SubscribeFailed(tenant, Answered(s, app, names), s2, error)
    ensures SubscribeFailed(tenant, s, s2, error)
  {}

  /** An app that answered no names, or was not asked, depends on nothing. */
  lemma NothingSettled(byName: map<string, AppId>, tenant: TenantId, s: Progress, app: AppId)
    ensures app !in s.answers ==> DependenciesSettled(byName, tenant, s, app)
  {}

  lemma NextNameDone(byName: map<string, AppId>, tenant: TenantId, names: seq<string>, i: nat, s: Progress,
                     s': Progress)
    requires i < |names| && NamesDone(byName, tenant, names, i, s) && Subscribed(byName, tenant, s, s')
    requires Resolves(byName, names[i], s'.reached) && Settled(s'.subs, tenant, byName[names[i]])
    ensures NamesDone(byName, tenant, names, i + 1, s')
  {}

  /** The user roles of the tenant that belong to none of these apps, and all other tenants' roles. */
  ghost function RolesWithout(roleApp: map<RoleId, AppId>, roles: set<UserRole>, tenant: TenantId,
                              apps: set<AppId>): set<UserRole>
  {
    set ur | ur in roles && !(ur.tenantId == tenant && ur.roleId in roleApp && roleApp[ur.roleId] in apps)
  }

  /** The rows that are left once the reached apps are unsubscribed; pending ones stay. */
  ghost function RowsWithout(t: Table, tenant: TenantId, reached: set<AppId>): Table {
    map k | k in t && !(k.0 == tenant && k.1 in reached && t[k].status != Pending) :: t[k]
  }

  ghost function SettledAmong(t: Table, tenant: TenantId, reached: set<AppId>): set<AppId> {
    set a | a in reached && Settled(t, tenant, a)
  }

  /** The row of `a` has gone, or still belongs to an app further up, or was pending all along. */
  ghost predicate Dropped(tenant: TenantId, s: Progress, t: Table, a: AppId) {
    (tenant, a) !in t || a in s.visited || t[(tenant, a)].status == Pending
  }

  /** What was visited, and every row that went, belongs to an app that was reached. */
  ghost predicate OnlyReached(s: Progress, s': Progress) {
    && s.reached <= s'.reached
    && s'.visited - s.visited <= s'.reached
    && (forall k: (TenantId, AppId) :: k in s.subs && k !in s'.subs ==> k.1 in s'.reached)
  }

  ghost predicate UnsubscribedTables(roleApp: map<RoleId, AppId>, tenant: TenantId, s: Progress, s': Progress) {
    && s.visited <= s'.visited
    && UnsubscribeEffect(s.subs, s'.subs, tenant, s'.visited - s.visited)
    && (forall a :: a in s'.visited - s.visited ==> Settled(s.subs, tenant, a))
    && s'.userRoles == RolesWithout(roleApp, s.userRoles, tenant, s'.visited - s.visited)
    && s'.answers.Keys <= s'.visited
  }

  /** A stretch of unsubscribing that ended normally. */
  ghost predicate Unsubscribed(byName: map<string, AppId>, roleApp: map<RoleId, AppId>, tenant: TenantId,
                               s: Progress, s': Progress)
  {
    && UnsubscribedTables(roleApp, tenant, s, s')
    && OnlyReached(s, s')
    && SameAnswers(s.answers, s'.answers)
    && NewAnswersClosed(byName, s.answers, s')
    && (forall a :: a in s'.reached && a !in s.reached ==> Dropped(tenant, s, s'.subs, a))
    && (forall a :: a in s'.reached && a !in s.reached && Settled(s.subs, tenant, a) ==> a in s'.visited)
  }

  /** The apps among those visited meanwhile whose row has gone. */
  ghost function Gone(tenant: TenantId, s: Progress, s': Progress): set<AppId> {
    set a | a in s'.visited - s.visited && (tenant, a) !in s'.subs
  }

  /** One that an exception ended: the visited apps that still have their row have the message in
      it, and their roles stay; the others lost both. */
  ghost predicate UnsubscribeFailed(roleApp: map<RoleId, AppId>, tenant: TenantId, s: Progress, s': Progress, error: Error) {
    && s.visited <= s'.visited
    && OnlyReached(s, s')
    && (forall k: (TenantId, AppId) :: k in s'.subs ==> k in s.subs)
    && (forall k: (TenantId, AppId) :: k in s'.subs ==>
          s'.subs[k] == if k.0 == tenant && k.1 in s'.visited - s.visited then s.subs[k].(message := Some(error)) else s.subs[k])
    && (forall k: (TenantId, AppId) :: k in s.subs && k !in s'.subs ==>
          k.0 == tenant && (k.1 in s'.visited - s.visited || s.subs[k].status == Failed))
    && (forall a :: a in s'.visited - s.visited ==> Settled(s.subs, tenant, a))
    && s'.userRoles == RolesWithout(roleApp, s.userRoles, tenant, Gone(tenant, s, s'))
  }

  lemma UnsubscribedTwice(byName: map<string, AppId>, roleApp: map<RoleId, AppId>, tenant: TenantId,
                          s: Progress, s1: Progress, s2: Progress)
    requires Unsubscribed(byName, roleApp, tenant, s, s1) && Unsubscribed(byName, roleApp, tenant, s1, s2)
    ensures Unsubscribed(byName, roleApp, tenant, s, s2)
  {
    assert (s1.visited - s.visited) + (s2.visited - s1.visited) == s2.visited - s.visited;
    UnsubscribeEffectsCompose(s.subs, s1.subs, s2.subs, tenant, s1.visited - s.visited, s2.visited - s1.visited);
    forall a | a in s2.reached && a !in s.reached
      ensures Dropped(tenant, s, s2.subs, a) && (Settled(s.subs, tenant, a) ==> a in s2.visited)
    {
      if a in s1.reached { assert Dropped(tenant, s, s1.subs, a); } else { assert Dropped(tenant, s1, s2.subs, a); }
    }
    forall a | a in s2.answers && a !in s.answers ensures Closed(byName, s2.answers[a], s2.reached) {
      if a in s1.answers {
        forall n | n in s2.answers[a] ensures Resolves(byName, n, s2.reached) {
          assert n in s1.answers[a];
        }
      }
    }
  }

  /** The state in which `app` has just been marked as visited. */
  ghost function Marked(s: Progress, app: AppId): Progress {
    s.(visited := s.visited + {app}, reached := s.reached + {app})
  }

  /** The state in which the row of `app` and the roles taken from it have just been deleted. */
  ghost function Deleted(roleApp: map<RoleId, AppId>, s: Progress, tenant: TenantId, app: AppId): Progress {
    s.(subs := s.subs - {(tenant, app)}, userRoles := RolesWithout(roleApp, s.userRoles, tenant, {app}))
  }

  lemma DeletionFinishes(byName: map<string, AppId>, roleApp: map<RoleId, AppId>, tenant: TenantId,
                         s: Progress, app: AppId, s2: Progress)
    requires app !in s.visited && Settled(s.subs, tenant, app)
    requires Unsubscribed(byName, roleApp, tenant, Marked(s, app), s2)
    ensures Unsubscribed(byName, roleApp, tenant, s, Deleted(roleApp, s2, tenant, app))
  {
    var s1 := Marked(s, app);
    var s3 := Deleted(roleApp, s2, tenant, app);
    assert s2.visited - s.visited == (s2.visited - s1.visited) + {app};
    forall a | a in s3.reached && a !in s.reached
      ensures Dropped(tenant, s, s3.subs, a) && (Settled(s.subs, tenant, a) ==> a in s3.visited)
    {
      if a != app { assert Dropped(tenant, s1, s2.subs, a); }
    }
  }

  lemma UnsubscriptionAnswerFollowed(byName: map<string, AppId>, roleApp: map<RoleId, AppId>, tenant: TenantId,
                                     s: Progress, app: AppId, names: seq<string>, s2: Progress)
    requires app !in s.answers && Unsubscribed(byName, roleApp, tenant, Answered(s, app, names), s2)
    requires forall j {:trigger names[j]} :: 0 <= j < |names| ==> Resolves(byName, names[j], s2.reached)
    ensures Unsubscribed(byName, roleApp, tenant, s, s2)
  {}

  lemma NothingUnsubscribed(byName: map<string, AppId>, roleApp: map<RoleId, AppId>, tenant: TenantId, s: Progress)
    requires s.answers.Keys <= s.visited
    ensures Unsubscribed(byName, roleApp, tenant, s, s)
    ensures forall error :: UnsubscribeFailed(roleApp, tenant, s, s, error)
  {}

  lemma OnlyReachedGrows(byName: map<string, AppId>, roleApp: map<RoleId, AppId>, tenant: TenantId, s: Progress,
                         s': Progress)
    requires Unsubscribed(byName, roleApp, tenant, s, s')
    ensures s.reached <= s'.reached && s'.answers.Keys <= s'.visited
  {}

  lemma UnsubscriptionAnswerFailed(byName: map<string, AppId>, roleApp: map<RoleId, AppId>, tenant: TenantId,
                                   s: Progress, app: AppId, names: seq<string>, s1: Progress, s2: Progress,
                                   error: Error)
    requires Unsubscribed(byName, roleApp, tenant, Answered(s, app, names), s1)
    requires UnsubscribeFailed(roleApp, tenant, s1, s2, error)
    ensures UnsubscribeFailed(roleApp, tenant, s, s2, error)
  {
    assert Gone(tenant, s, s2) == (s1.visited - s.visited) + Gone(tenant, s1, s2);
  }

  /** The cases in which the call itself ends before anything is asked. */
  lemma RowLeftAlone(byName: map<string, AppId>, roleApp: map<RoleId, AppId>, tenant: TenantId, s: Progress, app: AppId)
    requires s.answers.Keys <= s.visited
    ensures var s' := s.(reached := s.reached + {app});
      (tenant, app) !in s.subs || s.subs[(tenant, app)].status == Pending
      || (app in s.visited && s.subs[(tenant, app)].status != Failed)
      ==> Unsubscribed(byName, roleApp, tenant, s, s')
    ensures var s' := s.(reached := s.reached + {app}, subs := s.subs - {(tenant, app)});
      (tenant, app) in s.subs && s.subs[(tenant, app)].status == Failed ==> Unsubscribed(byName, roleApp, tenant, s, s')
  {}

  lemma OffboardingFailureRecorded(roleApp: map<RoleId, AppId>, tenant: TenantId, s: Progress, app: AppId,
                                   s2: Progress, error: Error)
    requires Settled(s.subs, tenant, app) && app !in s.visited
    requires UnsubscribeFailed(roleApp, tenant, Marked(s, app), s2, error)
    ensures (tenant, app) in s2.subs
    ensures UnsubscribeFailed(roleApp, tenant, s,
      s2.(subs := s2.subs[(tenant, app) := s2.subs[(tenant, app)].(message := Some(error))]), error)
  {
    var s1 := Marked(s, app);
    var s3 := s2.(subs := s2.subs[(tenant, app) := s2.subs[(tenant, app)].(message := Some(error))]);
    assert s2.visited - s.visited == (s2.visited - s1.visited) + {app};
    assert Gone(tenant, s, s3) == Gone(tenant, s1, s2);
    hide Gone, RolesWithout, Settled;
    forall k: (TenantId, AppId) | k in s3.subs
      ensures k in s.subs
      ensures s3.subs[k] == if k.0 == tenant && k.1 in s3.visited - s.visited then s.subs[k].(message := Some(error)) else s.subs[k]
    {
      assert k.0 == tenant && k.1 == app ==> k == (tenant, app);
    }
  }

  // ---------------------------------------------------------------------------------------
  // The calls of endpoints
  // ---------------------------------------------------------------------------------------

  type Script = nat -> Answer

  datatype World = World(apps: map<AppId, App>, byName: map<string, AppId>, roleApp: map<RoleId, AppId>, script: Script)

  /** How many calls were made, and which apps were asked in this one, call by call. */
  datatype Trace = Trace(calls: nat, asked: seq<AppId>)

  datatype Snap = Snap(p: Progress, tr: Trace)

  function Last(xs: seq<AppId>): AppId
    requires xs != []
  {
    xs[|xs| - 1]
  }

  ghost predicate Distinct(xs: seq<AppId>) {
    forall i, j :: 0 <= i < j < |xs| ==> xs[i] != xs[j]
  }

  /** What was kept of the answer of `a`. */
  ghost predicate Heard(answers: Answers, a: AppId, answer: Answer) {
    if answer.Names? then a in answers && answers[a] == answer.names else a !in answers
  }

  /** Every visited app that has an endpoint was asked exactly once, and its answer was kept. */
  ghost predicate Recorded(w: World, s: Snap, visited: set<AppId>) {
    && |s.tr.asked| <= s.tr.calls && Distinct(s.tr.asked)
    && (forall a :: a in s.tr.asked <==> a in visited && a in w.apps && HasEndpoint(w.apps[a]))
    && (forall i :: 0 <= i < |s.tr.asked| ==>
          Heard(s.p.answers, s.tr.asked[i], w.script(s.tr.calls - |s.tr.asked| + i)))
    && (forall a :: a in s.p.answers ==> a in s.tr.asked)
  }

  /** No call failed, or just the last did. */
  ghost predicate CallsAnswered(script: Script, from: nat, to: nat, failed: bool) {
    && from <= to
    && (forall n :: from <= n < to ==> (script(n) == HttpError <==> failed && n == to - 1))
    && (failed ==> from < to)
  }

  ghost predicate NamedBy(byName: map<string, AppId>, answer: Answer, a: AppId) {
    answer.Names? && exists name :: name in answer.names && name in byName && byName[name] == a
  }

  /** The app is named in an answer to one of these calls. */
  ghost predicate NamedIn(w: World, from: nat, to: nat, a: AppId) {
    exists n :: from <= n < to && NamedBy(w.byName, w.script(n), a)
  }

  /** A root, or an app that an answer named. */
  ghost predicate Met(w: World, from: nat, to: nat, roots: set<AppId>, a: AppId) {
    a in roots || NamedIn(w, from, to, a)
  }

  lemma MetInMore(w: World, from: nat, to: nat, from': nat, to': nat, roots: set<AppId>, a: AppId)
    requires Met(w, from, to, roots, a) && from' <= from && to <= to'
    ensures Met(w, from', to', roots, a)
  {}

  lemma NamesAreMet(w: World, n: nat, to: nat, roots: set<AppId>, name: string)
    requires n < to && w.script(n).Names? && name in w.script(n).names && name in w.byName
    ensures Met(w, n, to, roots, w.byName[name])
  {
    assert NamedBy(w.byName, w.script(n), w.byName[name]);
  }

  /** A stretch of calls in which, apart from `roots`, only what the answers named was reached. */
  ghost predicate Called(w: World, roots: set<AppId>, s: Snap, s': Snap, failed: bool) {
    && s.tr.asked <= s'.tr.asked
    && s'.tr.calls - |s'.tr.asked| == s.tr.calls - |s.tr.asked|
    && CallsAnswered(w.script, s.tr.calls, s'.tr.calls, failed)
    && s.p.visited <= s'.p.visited && s.p.reached <= s'.p.reached && s'.p.visited - s.p.visited <= s'.p.reached
    && forall a :: a in s'.p.reached - s.p.reached ==> Met(w, s.tr.calls, s'.tr.calls, roots, a)
  }

  lemma CalledTwice(w: World, roots: set<AppId>, s: Snap, s1: Snap, next: AppId, s2: Snap, failed: bool)
    requires Called(w, roots, s, s1, false) && Called(w, {next}, s1, s2, failed)
    requires Met(w, s.tr.calls, s1.tr.calls, roots, next)
    ensures Called(w, roots, s, s2, failed)
  {
    hide Met;
    forall a | a in s2.p.reached - s.p.reached ensures Met(w, s.tr.calls, s2.tr.calls, roots, a) {
      if a in s1.p.reached || a == next {
        MetInMore(w, s.tr.calls, s1.tr.calls, s.tr.calls, s2.tr.calls, roots, a);
      } else {
        OthersMet(w, s1.tr.calls, s2.tr.calls, next, a, roots);
        MetInMore(w, s1.tr.calls, s2.tr.calls, s.tr.calls, s2.tr.calls, roots, a);
      }
    }
  }

  lemma OthersMet(w: World, from: nat, to: nat, next: AppId, a: AppId, roots: set<AppId>)
    requires Met(w, from, to, {next}, a) && a != next
    ensures Met(w, from, to, roots, a)
  {}

  lemma NoRoots(w: World, from: nat, to: nat, app: AppId)
    ensures forall a :: Met(w, from, to, {}, a) ==> Met(w, from, to, {app}, a)
  {}

  /** The root counts as reached before anything was asked. */
  lemma RootCounted(w: World, s: Snap, app: AppId, s1: Snap, s2: Snap, failed: bool)
    requires s1.tr == s.tr && s1.p.visited == s.p.visited + {app} && s1.p.reached == s.p.reached + {app}
    requires Called(w, {}, s1, s2, failed)
    ensures Called(w, {app}, s, s2, failed) && app in s2.p.visited
  {
    hide NamedIn;
    NoRoots(w, s.tr.calls, s2.tr.calls, app);
    assert forall a :: a in s2.p.reached - s.p.reached ==> a == app || a in s2.p.reached - s1.p.reached;
  }

  /** The state after asking one more app. */
  ghost function AskedOnce(w: World, s: Snap, app: AppId): Snap {
    var answer := w.script(s.tr.calls);
    Snap(if answer.Names? then Answered(s.p, app, answer.names) else s.p, Trace(s.tr.calls + 1, s.tr.asked + [app]))
  }

  lemma AskingIsRecorded(w: World, s: Snap, app: AppId)
    requires Recorded(w, s, s.p.visited - {app}) && app in s.p.visited && app in w.apps && HasEndpoint(w.apps[app])
    ensures app !in s.p.answers
    ensures var s' := AskedOnce(w, s, app);
      Recorded(w, s', s'.p.visited) && Called(w, {}, s, s', w.script(s.tr.calls).HttpError?)
  {
    var s' := AskedOnce(w, s, app);
    var asked := s'.tr.asked;
    forall i | 0 <= i < |asked| ensures Heard(s'.p.answers, asked[i], w.script(s'.tr.calls - |asked| + i)) {
      if i < |s.tr.asked| {
        assert s.tr.asked[i] in s.tr.asked;
        assert Heard(s.p.answers, s.tr.asked[i], w.script(s.tr.calls - |s.tr.asked| + i));
      } else {
        assert app !in s.p.answers;
      }
    }
    forall a ensures a in asked <==> a in s.tr.asked || a == app {}
  }

  /** An app without an endpoint is not asked. */
  lemma NotAskedIsRecorded(w: World, s: Snap, app: AppId)
    requires Recorded(w, s, s.p.visited - {app}) && app in w.apps && !HasEndpoint(w.apps[app])
    ensures Recorded(w, s, s.p.visited)
  {}

  lemma RecordedDepends(w: World, s: Snap, s': Snap, visited: set<AppId>)
    requires Recorded(w, s, visited) && s'.tr == s.tr && s'.p.answers == s.p.answers
    ensures Recorded(w, s', visited)
  {}

  lemma CalledDepends(w: World, roots: set<AppId>, s: Snap, s1: Snap, s2: Snap, failed: bool)
    requires Called(w, roots, s, s1, failed)
    requires s2.tr == s1.tr && s2.p.visited == s1.p.visited && s2.p.reached == s1.p.reached
    ensures Called(w, roots, s, s2, failed)
  {}

  /** The apps with an endpoint: enabled, and with a callback address or an address. */
  ghost function Callable(apps: map<AppId, App>, among: set<AppId>): set<AppId> {
    set a | a in among && a in apps && apps[a].onboardingEnabled
            && (apps[a].onboardingCallbackUrl !in [None, Some("")] || apps[a].appUrl != "")
  }

  lemma AskedAreCallable(w: World, s: Snap)
    requires Recorded(w, s, s.p.visited)
    ensures Listed(s.tr.asked) == Callable(w.apps, s.p.visited)
    ensures |s.tr.asked| == |Callable(w.apps, s.p.visited)|
  {
    DistinctCount(s.tr.asked);
  }

  ghost function Listed(xs: seq<AppId>): set<AppId> {
    set a | a in xs
  }

  lemma {:induction false} DistinctCount(xs: seq<AppId>)
    requires Distinct(xs)
    ensures |Listed(xs)| == |xs|
  {
    if xs != [] {
      var init, last := xs[..|xs| - 1], xs[|xs| - 1];
      DistinctCount(init);
      assert xs == init + [last] && last !in Listed(init);
      assert Listed(xs) == Listed(init) + {last};
    }
  }

  /** Whatever any answer named has been reached. */
  ghost predicate AnswersFollowed(w: World, from: nat, to: nat, reached: set<AppId>) {
    forall n :: from <= n < to && w.script(n).Names? ==> Closed(w.byName, w.script(n).names, reached)
  }

  /** The kept answers are those to the calls. */
  ghost predicate AnswersKept(w: World, s: Snap) {
    && |s.tr.asked| <= s.tr.calls
    && forall i :: 0 <= i < |s.tr.asked| ==>
         Heard(s.p.answers, s.tr.asked[i], w.script(s.tr.calls - |s.tr.asked| + i))
  }

  lemma KeptAreFollowed(w: World, s: Snap)
    requires Recorded(w, s, s.p.visited)
    requires forall a {:trigger a in s.p.answers} :: a in s.p.answers ==> Closed(w.byName, s.p.answers[a], s.p.reached)
    ensures AnswersKept(w, s) && AnswersFollowed(w, s.tr.calls - |s.tr.asked|, s.tr.calls, s.p.reached)
  {
    var from := s.tr.calls - |s.tr.asked|;
    forall n | from <= n < s.tr.calls && w.script(n).Names? ensures Closed(w.byName, w.script(n).names, s.p.reached) {
      assert Heard(s.p.answers, s.tr.asked[n - from], w.script(from + (n - from)));
    }
  }

  // ---------------------------------------------------------------------------------------
  // Why a call ends with an exception
  // ---------------------------------------------------------------------------------------

  ghost predicate IsPending(t: Table, tenant: TenantId, a: AppId) {
    (tenant, a) in t && t[(tenant, a)].status == Pending
  }

  /** What happened if the exception is this one. A subscription in progress was there before, or
      belongs to an app that is being subscribed further up. */
  ghost predicate Grounds(w: World, tenant: TenantId, from: nat, to: nat, roots: set<AppId>, t: Table,
                          visited: set<AppId>, error: Error)
  {
    match error
    case RequestFailed => from < to && w.script(to - 1) == HttpError
    case AppNotFound(name) => name !in w.byName && exists n :: from <= n < to && w.script(n).Names? && name in w.script(n).names
    case OwnApplication => exists a :: Met(w, from, to, roots, a) && a in w.apps && w.apps[a].owner == tenant
    case InProgress => exists a :: Met(w, from, to, roots, a) && (IsPending(t, tenant, a) || a in visited)
  }

  lemma GroundsWiden(w: World, tenant: TenantId, from: nat, mid: nat, to: nat, next: set<AppId>, roots: set<AppId>,
                     t: Table, t': Table, visited: set<AppId>, error: Error)
    requires from <= mid <= to && Grounds(w, tenant, mid, to, next, t', visited, error)
    requires forall a :: a in next ==> Met(w, from, mid, roots, a)
    requires forall a :: IsPending(t', tenant, a) ==> IsPending(t, tenant, a) || a in visited
    ensures Grounds(w, tenant, from, to, roots, t, visited, error)
  {
    forall a | Met(w, mid, to, next, a) ensures Met(w, from, to, roots, a) {
      if a in next { MetInMore(w, from, mid, from, to, roots, a); }
    }
  }

  // ---------------------------------------------------------------------------------------
  // Subscribing, from one state to another
  // ---------------------------------------------------------------------------------------

  /** What was reached in addition belongs to other tenants. */
  ghost predicate Foreign(apps: map<AppId, App>, tenant: TenantId, before: set<AppId>, after: set<AppId>) {
    forall a :: a in after - before ==> a in apps && apps[a].owner != tenant
  }

  /** A failed request has left its message in the row of the app that was asked, unless that is
      the app `own`, which is still under way. */
  ghost predicate Blamed(tenant: TenantId, s: Snap, own: set<AppId>, thrown: Option<Error>) {
    thrown == Some(RequestFailed) ==>
      s.tr.asked != [] && (Last(s.tr.asked) in own || FailedWith(s.p.subs, tenant, Last(s.tr.asked), RequestFailed))
  }

  ghost predicate SubscribeStep(w: World, tenant: TenantId, roots: set<AppId>, own: set<AppId>, s: Snap, s': Snap,
                                thrown: Option<Error>)
  {
    && s'.p.visited <= w.apps.Keys
    && Recorded(w, s', s'.p.visited)
    && Called(w, roots, s, s', thrown == Some(RequestFailed))
    && Foreign(w.apps, tenant, s.p.reached, s'.p.reached)
    && Blamed(tenant, s', own, thrown)
  }

  /** What holds in addition where no exception is under way at the start. */
  ghost predicate SubscribeLive(w: World, tenant: TenantId, roots: set<AppId>, s: Snap, s': Snap, thrown: Option<Error>) {
    match thrown
    case None => Going(w.byName, tenant, s'.p) && Subscribed(w.byName, tenant, s.p, s'.p)
    case Some(error) =>
      && SubscribeFailed(tenant, s.p, s'.p, error)
      && Grounds(w, tenant, s.tr.calls, s'.tr.calls, roots, s.p.subs, s'.p.visited, error)
  }

  function Thrown<T>(r: Result<T, Error>): Option<Error> {
    if r.Ok? then None else Some(r.error)
  }

  /** Nothing happens, or only `app` is reached; an exception concerns `app` itself. */
  lemma NothingStarted(w: World, tenant: TenantId, s: Snap, app: AppId, error: Error)
    requires s.p.visited <= w.apps.Keys && Recorded(w, s, s.p.visited) && app in w.apps && error != RequestFailed
    ensures SubscribeStep(w, tenant, {app}, {}, s, s, Some(error))
    ensures error == OwnApplication && w.apps[app].owner == tenant ==> SubscribeLive(w, tenant, {app}, s, s, Some(error))
    ensures error == InProgress && IsPending(s.p.subs, tenant, app) ==> SubscribeLive(w, tenant, {app}, s, s, Some(error))
  {
    hide Recorded;
    assert Met(w, s.tr.calls, s.tr.calls, {app}, app);
  }

  lemma AlreadySettled(w: World, tenant: TenantId, s: Snap, app: AppId)
    requires s.p.visited <= w.apps.Keys && Recorded(w, s, s.p.visited) && app in w.apps && w.apps[app].owner != tenant
    ensures var s' := Snap(s.p.(reached := s.p.reached + {app}), s.tr);
      && SubscribeStep(w, tenant, {app}, {}, s, s', None)
      && (Settled(s.p.subs, tenant, app) && Going(w.byName, tenant, s.p) ==> SubscribeLive(w, tenant, {app}, s, s', None))
  {
    hide Going;
    if Settled(s.p.subs, tenant, app) { SettledReached(w.byName, tenant, s.p, app); }
  }

  /** A failed row was deleted, and the app found visited: nothing else has happened. */
  lemma GuardTaken(w: World, tenant: TenantId, s: Snap, app: AppId, t: Table)
    requires s.p.visited <= w.apps.Keys && Recorded(w, s, s.p.visited)
    ensures SubscribeStep(w, tenant, {app}, {}, s, Snap(s.p.(subs := t), s.tr), None)
  {}

  /** The app in hand ends: with a successful row, or with the message of an exception. */
  ghost function Finished(s: Progress, tenant: TenantId, app: AppId, thrown: Option<Error>): Progress {
    match thrown
    case None => s.(subs := s.subs[(tenant, app) := Subscription(Success, None)], finished := s.finished + [app])
    case Some(error) => s.(subs := s.subs[(tenant, app) := Subscription(Failed, Some(error))])
  }

  lemma AppFinishes(w: World, tenant: TenantId, s: Snap, app: AppId, s2: Snap, thrown: Option<Error>)
    requires app in w.apps && w.apps[app].owner != tenant && app !in s.p.visited
    requires SubscribeStep(w, tenant, {}, {app}, Snap(Started(s.p, tenant, app), s.tr), s2, thrown)
    ensures SubscribeStep(w, tenant, {app}, {}, s, Snap(Finished(s2.p, tenant, app, thrown), s2.tr), thrown)
  {
    hide Recorded, Called, Met;
    RootCounted(w, s, app, Snap(Started(s.p, tenant, app), s.tr), s2, thrown == Some(RequestFailed));
    var s3 := Snap(Finished(s2.p, tenant, app, thrown), s2.tr);
    RecordedDepends(w, s2, s3, s2.p.visited);
    CalledDepends(w, {app}, s, s2, s3, thrown == Some(RequestFailed));
  }

  lemma AppFinishesLive(w: World, tenant: TenantId, s: Snap, app: AppId, s2: Snap, thrown: Option<Error>)
    requires Going(w.byName, tenant, s.p) && Startable(s.p, tenant, app) && s.tr.calls <= s2.tr.calls && app in s2.p.visited
    requires SubscribeLive(w, tenant, {}, Snap(Started(s.p, tenant, app), s.tr), s2, thrown)
    requires thrown.None? ==> DependenciesSettled(w.byName, tenant, s2.p, app)
    ensures SubscribeLive(w, tenant, {app}, s, Snap(Finished(s2.p, tenant, app, thrown), s2.tr), thrown)
    ensures thrown.None? ==> Settled(Finished(s2.p, tenant, app, thrown).subs, tenant, app)
  {
    hide Going, Subscribed, SubscribeFailed, DependenciesSettled, Grounds;
    match thrown
    case None => FinishKeepsGoing(w.byName, tenant, s.p, app, s2.p);
    case Some(error) =>
      FailureRecorded(tenant, s.p, app, s2.p, error);
      GroundsWiden(w, tenant, s.tr.calls, s.tr.calls, s2.tr.calls, {}, {app}, s.p.subs, Started(s.p, tenant, app).subs,
                   s2.p.visited, error);
  }

  // ---------------------------------------------------------------------------------------
  // Following the answer of one endpoint
  // ---------------------------------------------------------------------------------------

  lemma NothingToAsk(w: World, tenant: TenantId, s: Snap, app: AppId)
    requires s.p.visited <= w.apps.Keys && app in w.apps && !HasEndpoint(w.apps[app]) && Recorded(w, s, s.p.visited - {app})
    ensures SubscribeStep(w, tenant, {}, {app}, s, s, None)
    ensures Going(w.byName, tenant, s.p) && app !in s.p.answers ==>
      SubscribeLive(w, tenant, {}, s, s, None) && DependenciesSettled(w.byName, tenant, s.p, app)
  {
    hide Going;
    NotAskedIsRecorded(w, s, app);
    NothingSubscribed(w.byName, tenant, s.p, []);
  }

  /** The endpoint was asked: its answer is a failure, has no names, or has names to follow. */
  lemma EndpointAsked(w: World, tenant: TenantId, s: Snap, app: AppId, names: seq<string>)
    requires Recorded(w, s, s.p.visited - {app}) && app in s.p.visited && s.p.visited <= w.apps.Keys && HasEndpoint(w.apps[app])
    ensures var s' := AskedOnce(w, s, app);
      var thrown := if w.script(s.tr.calls) == HttpError then Some(RequestFailed) else None;
      && SubscribeStep(w, tenant, {}, {app}, s, s', thrown)
      && (Going(w.byName, tenant, s.p) && app !in s.p.finished ==>
           && (thrown.Some? ==> SubscribeLive(w, tenant, {}, s, s', thrown))
           && (thrown.None? ==> SubscribeLive(w, tenant, {}, Snap(s'.p, s.tr), s', thrown))
           && (w.script(s.tr.calls) == NoNames ==>
                SubscribeLive(w, tenant, {}, s, s', None) && DependenciesSettled(w.byName, tenant, s'.p, app))
           && NamesDone(w.byName, tenant, names, 0, s'.p))
  {
    hide Going, Recorded;
    AskingIsRecorded(w, s, app);
    NothingSubscribed(w.byName, tenant, s.p, names);
    var answer := w.script(s.tr.calls);
    if answer.Names? {
      if Going(w.byName, tenant, s.p) && app !in s.p.finished {
        AnswerKeepsGoing(w.byName, tenant, s.p, app, answer.names);
      }
      NothingSubscribed(w.byName, tenant, Answered(s.p, app, answer.names), names);
    }
  }

  lemma NameUnknown(w: World, tenant: TenantId, s: Snap, s1: Snap, app: AppId, s2: Snap, name: string)
    requires s1 == AskedOnce(w, s, app) && w.script(s.tr.calls).Names? && name in w.script(s.tr.calls).names && name !in w.byName
    requires SubscribeStep(w, tenant, {}, {app}, s, s2, None) && s1.tr.calls <= s2.tr.calls
    ensures SubscribeStep(w, tenant, {}, {app}, s, s2, Some(AppNotFound(name)))
    ensures SubscribeLive(w, tenant, {}, Snap(s1.p, s.tr), s2, None) ==>
      SubscribeLive(w, tenant, {}, s, s2, Some(AppNotFound(name)))
  {
    hide Recorded, Called, Foreign, Going, Subscribed;
    if SubscribeLive(w, tenant, {}, Snap(s1.p, s.tr), s2, None) {
      NothingSubscribed(w.byName, tenant, s2.p, []);
      SubscribedThenFailed(w.byName, tenant, s1.p, s2.p, s2.p, AppNotFound(name));
    }
  }

  /** One more named app was subscribed, or an exception came up from it. */
  lemma NameFollowed(w: World, tenant: TenantId, s: Snap, app: AppId, s1: Snap, next: AppId, s2: Snap, thrown: Option<Error>)
    requires SubscribeStep(w, tenant, {}, {app}, s, s1, None) && SubscribeStep(w, tenant, {next}, {}, s1, s2, thrown)
    requires Met(w, s.tr.calls, s1.tr.calls, {}, next)
    ensures SubscribeStep(w, tenant, {}, {app}, s, s2, thrown) && s1.tr.calls <= s2.tr.calls
  {
    hide Recorded, Met;
    CalledTwice(w, {}, s, s1, next, s2, thrown == Some(RequestFailed));
  }

  lemma NameFollowedLive(w: World, tenant: TenantId, s: Snap, s0: Snap, app: AppId, names: seq<string>, i: nat,
                         s1: Snap, s2: Snap, thrown: Option<Error>)
    requires w.script(s.tr.calls) == Names(names) && s0 == Snap(Answered(s.p, app, names), s.tr)
    requires s.tr.calls < s1.tr.calls <= s2.tr.calls && i < |names| && names[i] in w.byName
    requires SubscribeLive(w, tenant, {}, s0, s1, None) && NamesDone(w.byName, tenant, names, i, s1.p)
    requires SubscribeLive(w, tenant, {w.byName[names[i]]}, s1, s2, thrown)
    requires thrown.None? ==> w.byName[names[i]] in s2.p.reached && Settled(s2.p.subs, tenant, w.byName[names[i]])
    ensures thrown.None? ==> SubscribeLive(w, tenant, {}, s0, s2, None) && NamesDone(w.byName, tenant, names, i + 1, s2.p)
    ensures thrown.Some? ==> SubscribeLive(w, tenant, {}, s, s2, thrown)
  {
    hide Going, Subscribed, SubscribeFailed, Grounds, NamesDone, Met;
    var next := w.byName[names[i]];
    match thrown
    case None =>
      SubscribedTwice(w.byName, tenant, s0.p, s1.p, s2.p);
      NextNameDone(w.byName, tenant, names, i, s1.p, s2.p);
    case Some(error) =>
      SubscribedThenFailed(w.byName, tenant, s0.p, s1.p, s2.p, error);
      AnswerThenFailed(tenant, s.p, app, names, s2.p, error);
      NoNewPending(w.byName, tenant, s0.p, s1.p);
      NamesAreMet(w, s.tr.calls, s1.tr.calls, {}, names[i]);
      GroundsWiden(w, tenant, s.tr.calls, s1.tr.calls, s2.tr.calls, {next}, {}, s.p.subs, s1.p.subs, s2.p.visited, error);
  }

  lemma AnswerFollowedLive(w: World, tenant: TenantId, s: Snap, app: AppId, names: seq<string>, s2: Snap)
    requires app !in s.p.answers && SubscribeLive(w, tenant, {}, Snap(Answered(s.p, app, names), s.tr), s2, None)
    requires NamesDone(w.byName, tenant, names, |names|, s2.p)
    ensures SubscribeLive(w, tenant, {}, s, s2, None) && DependenciesSettled(w.byName, tenant, s2.p, app)
  {
    hide Going, Subscribed, DependenciesSettled, NamesDone;
    AnswerFollowed(w.byName, tenant, s.p, app, names, s2.p);
  }

  lemma LiveIsGoing(w: World, tenant: TenantId, roots: set<AppId>, s: Snap, s': Snap)
    requires SubscribeLive(w, tenant, roots, s, s', None)
    ensures Going(w.byName, tenant, s'.p)
  {}

  lemma StepGrows(w: World, tenant: TenantId, roots: set<AppId>, own: set<AppId>, s: Snap, s': Snap, thrown: Option<Error>)
    requires SubscribeStep(w, tenant, roots, own, s, s', thrown)
    ensures s.p.visited <= s'.p.visited <= w.apps.Keys && s.p.reached <= s'.p.reached
    ensures s.tr.calls <= s'.tr.calls && Recorded(w, s', s'.p.visited)
  {
    hide Recorded;
  }

  /** Subscribing leaves no pending row that was not there. */
  lemma NoNewPending(byName: map<string, AppId>, tenant: TenantId, s: Progress, s': Progress)
    requires Subscribed(byName, tenant, s, s')
    ensures forall a :: IsPending(s'.subs, tenant, a) ==> IsPending(s.subs, tenant, a)
  {
    forall a | IsPending(s'.subs, tenant, a) ensures IsPending(s.subs, tenant, a) {
      assert a in s'.visited - s.visited ==> NewRow(s.subs, s'.subs, tenant, a, None);
      assert a !in s'.visited - s.visited ==> SameRow(s.subs, s'.subs, (tenant, a));
    }
  }

  // ---------------------------------------------------------------------------------------
  // Unsubscribing, from one state to another
  // ---------------------------------------------------------------------------------------

  /** A failed request was made for an app that still has its row, or for `own`. */
  ghost predicate Kept(tenant: TenantId, s: Snap, s': Snap, own: set<AppId>, thrown: Option<Error>) {
    thrown == Some(RequestFailed) ==>
      && s'.tr.asked != []
      && (Last(s'.tr.asked) in own
          || (Last(s'.tr.asked) in s'.p.visited - s.p.visited && (tenant, Last(s'.tr.asked)) in s'.p.subs))
  }

  ghost predicate UnsubscribeStep(w: World, tenant: TenantId, roots: set<AppId>, own: set<AppId>, s: Snap, s': Snap,
                                  thrown: Option<Error>)
  {
    && s'.p.visited <= w.apps.Keys
    && Recorded(w, s', s'.p.visited)
    && Called(w, roots, s, s', thrown == Some(RequestFailed))
    && Kept(tenant, s, s', own, thrown)
    && match thrown
       case None => Unsubscribed(w.byName, w.roleApp, tenant, s.p, s'.p)
       case Some(error) =>
         && UnsubscribeFailed(w.roleApp, tenant, s.p, s'.p, error)
         && (error.RequestFailed? || error.AppNotFound?)
         && Grounds(w, tenant, s.tr.calls, s'.tr.calls, roots, s.p.subs, s'.p.visited, error)
  }

  lemma AnsweredAreVisited(w: World, s: Snap, visited: set<AppId>)
    requires Recorded(w, s, visited)
    ensures s.p.answers.Keys <= visited
  {}

  /** The row is not there, or stays, or had failed and goes. */
  lemma NothingTakenUp(w: World, tenant: TenantId, s: Snap, app: AppId)
    requires s.p.visited <= w.apps.Keys && Recorded(w, s, s.p.visited)
    ensures var s' := Snap(s.p.(reached := s.p.reached + {app}), s.tr);
      (tenant, app) !in s.p.subs || s.p.subs[(tenant, app)].status == Pending
      || (app in s.p.visited && s.p.subs[(tenant, app)].status != Failed)
      ==> UnsubscribeStep(w, tenant, {app}, {}, s, s', None)
    ensures var s' := Snap(s.p.(reached := s.p.reached + {app}, subs := s.p.subs - {(tenant, app)}), s.tr);
      (tenant, app) in s.p.subs && s.p.subs[(tenant, app)].status == Failed ==>
        UnsubscribeStep(w, tenant, {app}, {}, s, s', None)
  {
    hide Unsubscribed;
    AnsweredAreVisited(w, s, s.p.visited);
    RowLeftAlone(w.byName, w.roleApp, tenant, s.p, app);
  }

  /** The app in hand ends: without its row and roles, or with the message of an exception. */
  ghost function TakenDown(w: World, s: Progress, tenant: TenantId, app: AppId, thrown: Option<Error>): Progress
    requires thrown.Some? ==> (tenant, app) in s.subs
  {
    match thrown
    case None => Deleted(w.roleApp, s, tenant, app)
    case Some(error) => s.(subs := s.subs[(tenant, app) := s.subs[(tenant, app)].(message := Some(error))])
  }

  lemma AppTakenDown(w: World, tenant: TenantId, s: Snap, app: AppId, s2: Snap, thrown: Option<Error>)
    requires app !in s.p.visited && Settled(s.p.subs, tenant, app)
    requires UnsubscribeStep(w, tenant, {}, {app}, Snap(Marked(s.p, app), s.tr), s2, thrown)
    ensures thrown.Some? ==> (tenant, app) in s2.p.subs && app in s2.p.visited
    ensures UnsubscribeStep(w, tenant, {app}, {}, s, Snap(TakenDown(w, s2.p, tenant, app, thrown), s2.tr), thrown)
  {
    hide Unsubscribed, UnsubscribeFailed, Recorded, Grounds, Met;
    RootCounted(w, s, app, Snap(Marked(s.p, app), s.tr), s2, thrown == Some(RequestFailed));
    match thrown
    case None =>
      DeletionFinishes(w.byName, w.roleApp, tenant, s.p, app, s2.p);
      RecordedDepends(w, s2, Snap(TakenDown(w, s2.p, tenant, app, thrown), s2.tr), s2.p.visited);
    case Some(error) =>
      OffboardingFailureRecorded(w.roleApp, tenant, s.p, app, s2.p, error);
      NoRoots(w, s.tr.calls, s2.tr.calls, app);
      GroundsWiden(w, tenant, s.tr.calls, s.tr.calls, s2.tr.calls, {}, {app}, s.p.subs, s.p.subs, s2.p.visited, error);
      RecordedDepends(w, s2, Snap(TakenDown(w, s2.p, tenant, app, thrown), s2.tr), s2.p.visited);
  }

  lemma NothingToAskDown(w: World, tenant: TenantId, s: Snap, app: AppId)
    requires s.p.visited <= w.apps.Keys && app in w.apps && !HasEndpoint(w.apps[app]) && Recorded(w, s, s.p.visited - {app})
    ensures UnsubscribeStep(w, tenant, {}, {app}, s, s, None)
  {
    NotAskedIsRecorded(w, s, app);
    AnsweredAreVisited(w, s, s.p.visited);
    NothingUnsubscribed(w.byName, w.roleApp, tenant, s.p);
  }

  /** As long as names of the answer are still to be followed, the claim starts after the answer. */
  lemma EndpointAskedDown(w: World, tenant: TenantId, s: Snap, app: AppId)
    requires Recorded(w, s, s.p.visited - {app}) && app in s.p.visited && s.p.visited <= w.apps.Keys && HasEndpoint(w.apps[app])
    ensures var s' := AskedOnce(w, s, app);
      && app !in s.p.answers && Called(w, {}, s, s', w.script(s.tr.calls).HttpError?) && Recorded(w, s', s'.p.visited)
      && Unsubscribed(w.byName, w.roleApp, tenant, s'.p, s'.p)
      && (w.script(s.tr.calls) == HttpError ==> UnsubscribeStep(w, tenant, {}, {app}, s, s', Some(RequestFailed)))
      && (w.script(s.tr.calls) == NoNames ==> UnsubscribeStep(w, tenant, {}, {app}, s, s', None))
  {
    hide Recorded, Unsubscribed, UnsubscribeFailed;
    AskingIsRecorded(w, s, app);
    AnsweredAreVisited(w, AskedOnce(w, s, app), s.p.visited);
    AnsweredAreVisited(w, s, s.p.visited - {app});
    NothingUnsubscribed(w.byName, w.roleApp, tenant, s.p);
    NothingUnsubscribed(w.byName, w.roleApp, tenant, AskedOnce(w, s, app).p);
  }

  /** Between two names of the answer. */
  ghost predicate Following(w: World, tenant: TenantId, s: Snap, app: AppId, names: seq<string>, i: nat, s1: Snap) {
    && s1.p.visited <= w.apps.Keys && Recorded(w, s1, s1.p.visited)
    && Called(w, {}, s, s1, false) && s.tr.calls < s1.tr.calls
    && Unsubscribed(w.byName, w.roleApp, tenant, Answered(s.p, app, names), s1.p)
    && forall j {:trigger names[j]} :: 0 <= j < i && j < |names| ==> Resolves(w.byName, names[j], s1.p.reached)
  }

  lemma NameUnknownDown(w: World, tenant: TenantId, s: Snap, app: AppId, names: seq<string>, i: nat, s1: Snap)
    requires w.script(s.tr.calls) == Names(names) && i < |names| && names[i] !in w.byName
    requires Following(w, tenant, s, app, names, i, s1)
    ensures UnsubscribeStep(w, tenant, {}, {app}, s, s1, Some(AppNotFound(names[i])))
  {
    hide Recorded, Called, Unsubscribed, UnsubscribeFailed;
    AnsweredAreVisited(w, s1, s1.p.visited);
    NothingUnsubscribed(w.byName, w.roleApp, tenant, s1.p);
    UnsubscriptionAnswerFailed(w.byName, w.roleApp, tenant, s.p, app, names, s1.p, s1.p, AppNotFound(names[i]));
    CalledUnfailed(w, s, s1);
  }

  lemma CalledUnfailed(w: World, s: Snap, s1: Snap)
    requires Called(w, {}, s, s1, false)
    ensures s.tr.calls <= s1.tr.calls && s.p.visited <= s1.p.visited && s.p.reached <= s1.p.reached
  {}

  lemma NameFollowedDown(w: World, tenant: TenantId, s: Snap, app: AppId, names: seq<string>, i: nat, s1: Snap,
                         s2: Snap, thrown: Option<Error>)
    requires w.script(s.tr.calls) == Names(names) && i < |names| && names[i] in w.byName
    requires Following(w, tenant, s, app, names, i, s1)
    requires UnsubscribeStep(w, tenant, {w.byName[names[i]]}, {}, s1, s2, thrown)
    requires thrown.None? ==> w.byName[names[i]] in s2.p.reached
    ensures thrown.None? ==> Following(w, tenant, s, app, names, i + 1, s2)
    ensures thrown.Some? ==> UnsubscribeStep(w, tenant, {}, {app}, s, s2, thrown)
  {
    hide Recorded, Called, Unsubscribed, UnsubscribeFailed, Met;
    var next := w.byName[names[i]];
    NamesAreMet(w, s.tr.calls, s1.tr.calls, {}, names[i]);
    CalledTwice(w, {}, s, s1, next, s2, thrown == Some(RequestFailed));
    CalledUnfailed(w, s, s1);
    CalledGrows(w, {next}, s1, s2, thrown == Some(RequestFailed));
    match thrown
    case None => UnsubscribedTwice(w.byName, w.roleApp, tenant, Answered(s.p, app, names), s1.p, s2.p);
    case Some(error) =>
      UnsubscriptionAnswerFailed(w.byName, w.roleApp, tenant, s.p, app, names, s1.p, s2.p, error);
      assert Grounds(w, tenant, s.tr.calls, s2.tr.calls, {}, s.p.subs, s2.p.visited, error);
  }

  lemma CalledGrows(w: World, roots: set<AppId>, s: Snap, s': Snap, failed: bool)
    requires Called(w, roots, s, s', failed)
    ensures s.tr.calls <= s'.tr.calls && s.p.visited <= s'.p.visited && s.p.reached <= s'.p.reached
  {}

  lemma AnswerFollowedDown(w: World, tenant: TenantId, s: Snap, app: AppId, names: seq<string>, s2: Snap)
    requires app !in s.p.answers && Following(w, tenant, s, app, names, |names|, s2)
    ensures UnsubscribeStep(w, tenant, {}, {app}, s, s2, None)
  {
    hide Recorded, Called, Unsubscribed;
    UnsubscriptionAnswerFollowed(w.byName, w.roleApp, tenant, s.p, app, names, s2.p);
  }

  lemma AnswerToFollow(w: World, tenant: TenantId, s: Snap, app: AppId, names: seq<string>)
    requires w.script(s.tr.calls) == Names(names) && s.p.visited <= w.apps.Keys
    requires var s1 := AskedOnce(w, s, app);
      Recorded(w, s1, s1.p.visited) && Called(w, {}, s, s1, false) && Unsubscribed(w.byName, w.roleApp, tenant, s1.p, s1.p)
    ensures Following(w, tenant, s, app, names, 0, AskedOnce(w, s, app))
  {
    hide Recorded, Called, Unsubscribed;
  }

  lemma FollowingIsRecorded(w: World, tenant: TenantId, s: Snap, app: AppId, names: seq<string>, i: nat, s1: Snap)
    requires Following(w, tenant, s, app, names, i, s1)
    ensures Recorded(w, s1, s1.p.visited)
  {
    hide Recorded, Called, Unsubscribed;
  }

  lemma DownGrows(w: World, tenant: TenantId, roots: set<AppId>, own: set<AppId>, s: Snap, s': Snap, thrown: Option<Error>)
    requires UnsubscribeStep(w, tenant, roots, own, s, s', thrown)
    ensures s.p.visited <= s'.p.visited && s.p.reached <= s'.p.reached
  {
    hide Recorded, Unsubscribed, UnsubscribeFailed, Grounds;
  }

  // ---------------------------------------------------------------------------------------
  // Whole calls
  // ---------------------------------------------------------------------------------------

  ghost predicate Scratch(s: Snap) {
    s.p.visited == {} && s.p.reached == {} && s.p.answers == map[] && s.p.finished == [] && s.tr.asked == []
  }

  lemma FromScratch(w: World, tenant: TenantId, s: Snap)
    requires Scratch(s)
    ensures Recorded(w, s, {}) && Going(w.byName, tenant, s.p)
  {}

  lemma SubscribedFromScratch(w: World, tenant: TenantId, app: AppId, s: Snap, s': Snap, thrown: Option<Error>)
    requires Scratch(s) && SubscribeStep(w, tenant, {app}, {}, s, s', thrown) && SubscribeLive(w, tenant, {app}, s, s', thrown)
    ensures s'.p.userRoles == s.p.userRoles && SubscribeEffect(s.p.subs, s'.p.subs, tenant, s'.p.visited, thrown)
    ensures Listed(s'.tr.asked) == Callable(w.apps, s'.p.visited)
    ensures s'.tr.calls - s.tr.calls == |s'.tr.asked| == |Callable(w.apps, s'.p.visited)|
    ensures CallsAnswered(w.script, s.tr.calls, s'.tr.calls, thrown == Some(RequestFailed)) && Blamed(tenant, s', {}, thrown)
    ensures s'.p.visited <= s'.p.reached
    ensures forall a :: a in s'.p.reached ==>
      a in w.apps && w.apps[a].owner != tenant && Met(w, s.tr.calls, s'.tr.calls, {app}, a)
    ensures thrown.None? ==>
      && (forall a :: a in s'.p.reached ==> Settled(s'.p.subs, tenant, a))
      && AnswersFollowed(w, s.tr.calls, s'.tr.calls, s'.p.reached)
      && AnswersKept(w, s') && NoCycle(w.byName, s'.p.answers, s'.p.visited)
    ensures thrown.Some? ==> Grounds(w, tenant, s.tr.calls, s'.tr.calls, {app}, s.p.subs, s'.p.visited, thrown.value)
  {
    hide Recorded, Grounds, Met, SubscribeEffect, CallsAnswered, AnswersFollowed, AnswersKept, Callable, NoCycle, Closed;
    assert s'.p.visited - {} == s'.p.visited && s'.p.reached - {} == s'.p.reached;
    AskedAreCallable(w, s');
    if thrown.None? {
      OrderedHasNoCycle(w.byName, s'.p.answers, s'.p.finished, s'.p.visited);
      KeptAreFollowed(w, s');
    }
  }

  /** After an exception: the apps taken up that still have a row have the message in it; other
      rows stay, but for those of reached apps that had failed. */
  ghost predicate RowsMarked(before: Table, after: Table, tenant: TenantId, reached: set<AppId>, taken: set<AppId>,
                             error: Error)
  {
    && (forall k: (TenantId, AppId) :: k in after ==> k in before)
    && (forall k: (TenantId, AppId) :: k in after ==>
          after[k] == if k.0 == tenant && k.1 in taken then before[k].(message := Some(error)) else before[k])
    && (forall k: (TenantId, AppId) :: k in before && k !in after ==>
          k.0 == tenant && k.1 in reached && (k.1 in taken || before[k].status == Failed))
  }

  lemma UnsubscribedFromScratch(w: World, tenant: TenantId, app: AppId, s: Snap, s': Snap, thrown: Option<Error>)
    requires Scratch(s) && UnsubscribeStep(w, tenant, {app}, {}, s, s', thrown)
    ensures Listed(s'.tr.asked) == Callable(w.apps, s'.p.visited)
    ensures s'.tr.calls - s.tr.calls == |s'.tr.asked| == |Callable(w.apps, s'.p.visited)|
    ensures CallsAnswered(w.script, s.tr.calls, s'.tr.calls, thrown == Some(RequestFailed)) && Kept(tenant, s, s', {}, thrown)
    ensures forall a :: a in s'.p.visited ==> a in s'.p.reached && Settled(s.p.subs, tenant, a)
    ensures forall a :: a in s'.p.reached ==> Met(w, s.tr.calls, s'.tr.calls, {app}, a)
    ensures thrown.None? ==>
      && AnswersFollowed(w, s.tr.calls, s'.tr.calls, s'.p.reached)
      && s'.p.visited == SettledAmong(s.p.subs, tenant, s'.p.reached)
      && s'.p.subs == RowsWithout(s.p.subs, tenant, s'.p.reached)
      && s'.p.userRoles == RolesWithout(w.roleApp, s.p.userRoles, tenant, s'.p.visited)
    ensures thrown.Some? ==>
      && (thrown.value.RequestFailed? || thrown.value.AppNotFound?)
      && Grounds(w, tenant, s.tr.calls, s'.tr.calls, {app}, s.p.subs, s'.p.visited, thrown.value)
      && s'.p.userRoles == RolesWithout(w.roleApp, s.p.userRoles, tenant,
                            set a | a in s'.p.visited && (tenant, a) !in s'.p.subs)
      && RowsMarked(s.p.subs, s'.p.subs, tenant, s'.p.reached, s'.p.visited, thrown.value)
  {
    hide Recorded, Grounds, Met, CallsAnswered, AnswersFollowed, Callable, Closed, RolesWithout;
    assert s'.p.visited - {} == s'.p.visited && s'.p.reached - {} == s'.p.reached;
    AskedAreCallable(w, s');
    if thrown.None? {
      KeptAreFollowed(w, s');
      RowsFromScratch(w, tenant, s, s');
    } else {
      assert Gone(tenant, s.p, s'.p) == set a | a in s'.p.visited && (tenant, a) !in s'.p.subs;
    }
  }

  lemma RowsFromScratch(w: World, tenant: TenantId, s: Snap, s': Snap)
    requires Scratch(s) && Unsubscribed(w.byName, w.roleApp, tenant, s.p, s'.p)
    ensures s'.p.visited == SettledAmong(s.p.subs, tenant, s'.p.reached)
    ensures s'.p.subs == RowsWithout(s.p.subs, tenant, s'.p.reached)
  {
    hide RolesWithout, Closed;
    assert s'.p.visited - {} == s'.p.visited;
    forall k: (TenantId, AppId) | k in s.p.subs && k in s'.p.subs && k.0 == tenant && k.1 in s'.p.reached
      ensures s.p.subs[k].status == Pending
    {
      assert Dropped(tenant, s.p, s'.p.subs, k.1);
    }
  }

  // ---------------------------------------------------------------------------------------
  // The service
  // ---------------------------------------------------------------------------------------

  class AppSubscriptionService {
    const apps: map<AppId, App>
    const byName: map<string, AppId>
    const roleApp: map<RoleId, AppId>
    const script: Script
    var subs: Table
    var userRoles: set<UserRole>
    var calls: nat
    ghost var reached: set<AppId>
    ghost var answers: Answers
    ghost var finished: seq<AppId>
    ghost var asked: seq<AppId>

    /** Every name belongs to an app. */
    predicate Valid() {
      forall n :: n in byName ==> byName[n] in apps
    }

    ghost function Around(): World {
      World(apps, byName, roleApp, script)
    }

    ghost function Now(visited: set<AppId>): Snap
      reads this
    {
      Snap(Progress(subs, userRoles, visited, reached, answers, finished), Trace(calls, asked))
    }

    constructor (apps: map<AppId, App>, byName: map<string, AppId>, roleApp: map<RoleId, AppId>, script: Script)
      ensures subs == map[] && userRoles == {} && calls == 0
      ensures this.apps == apps && this.byName == byName && this.roleApp == roleApp && this.script == script
    {
      this.apps, this.byName, this.roleApp, this.script := apps, byName, roleApp, script;
      subs, userRoles, calls := map[], {}, 0;
    }

    /** The request to the app's endpoint. */
    method Fetch() returns (answer: Answer)
      modifies this`calls
      ensures calls == old(calls) + 1 && answer == script(old(calls))
    {
      answer := script(calls);
      calls := calls + 1;
    }

    method SubscribeApp(tenant: TenantId, app: AppId, visited: set<AppId>)
      returns (r: Result<Subscription, Error>, visited': set<AppId>, ghost guardTaken: bool)
      requires Valid() && app in apps && visited <= apps.Keys && Recorded(Around(), Now(visited), visited)
      modifies this
      ensures visited <= visited' <= apps.Keys
      ensures SubscribeStep(Around(), tenant, {app}, {}, old(Now(visited)), Now(visited'), Thrown(r))
      ensures Going(byName, tenant, old(Now(visited)).p) ==>
        && !guardTaken
        && SubscribeLive(Around(), tenant, {app}, old(Now(visited)), Now(visited'), Thrown(r))
        && (r.Ok? ==> app in reached && Settled(subs, tenant, app) && subs[(tenant, app)] == r.value)
        && (r.Err? && app in visited' && app !in visited ==> FailedWith(subs, tenant, app, r.error))
      decreases apps.Keys - visited, 0
    {
      hide Going, SubscribeStep, SubscribeLive, DependenciesSettled, Recorded;
      ghost var w, s := Around(), Now(visited);
      visited', guardTaken := visited, false;
      if tenant == apps[app].owner {
        NothingStarted(w, tenant, s, app, OwnApplication);
        return Err(OwnApplication), visited, false;
      }
      AlreadySettled(w, tenant, s, app);
      if (tenant, app) in subs {
        var existingSub := subs[(tenant, app)];
        if existingSub.status == Pending {
          NothingStarted(w, tenant, s, app, InProgress);
          return Err(InProgress), visited, false;
        }
        if existingSub.status == Failed {
          subs := subs - {(tenant, app)};
        } else {
          reached := reached + {app};
          return Ok(existingSub), visited, false;
        }
      }
      if app in visited {
        GuardNeedsUnlive(byName, tenant, s.p, app);
        GuardTaken(w, tenant, s, app, subs);
        return Ok(Subscription(Failed, None)), visited, true; // the row that was found, if any, is no longer stored
      }
      visited' := visited + {app};
      reached := reached + {app};
      subs := subs[(tenant, app) := Subscription(Pending, None)];
      ghost var s1 := Now(visited');
      assert s1.p == Started(s.p, tenant, app) && s1.tr == s.tr;
      if Going(byName, tenant, s.p) { StartKeepsGoing(byName, tenant, s.p, app); }
      assert visited' - {app} == visited;
      RecordedDepends(w, s, s1, visited);
      var onboarded: Result<bool, Error>;
      onboarded, visited', guardTaken := CallOnboardEndpoint(tenant, app, visited');
      ghost var s2 := Now(visited');
      AppFinishes(w, tenant, s, app, s2, Thrown(onboarded));
      StepGrows(w, tenant, {}, {app}, s1, s2, Thrown(onboarded));
      if Going(byName, tenant, s.p) { AppFinishesLive(w, tenant, s, app, s2, Thrown(onboarded)); }
      match onboarded
      case Ok(onboardSucceeded) =>
        if onboardSucceeded {
          subs := subs[(tenant, app) := Subscription(Success, None)];
        }
        finished := finished + [app];
        r := Ok(subs[(tenant, app)]);
      case Err(error) =>
        subs := subs[(tenant, app) := Subscription(Failed, Some(error))];
        r := Err(error);
    }

    method CallOnboardEndpoint(tenant: TenantId, app: AppId, visited: set<AppId>)
      returns (r: Result<bool, Error>, visited': set<AppId>, ghost guardTaken: bool)
      requires Valid() && app in apps && visited <= apps.Keys && app in visited
      requires Recorded(Around(), Now(visited), visited - {app})
      modifies this
      ensures visited <= visited' <= apps.Keys && (r.Ok? ==> r.value)
      ensures SubscribeStep(Around(), tenant, {}, {app}, old(Now(visited)), Now(visited'), Thrown(r))
      ensures Going(byName, tenant, old(Now(visited)).p) && app !in old(answers) && app !in old(finished) ==>
        && !guardTaken
        && SubscribeLive(Around(), tenant, {}, old(Now(visited)), Now(visited'), Thrown(r))
        && (r.Ok? ==> DependenciesSettled(byName, tenant, Now(visited').p, app))
      decreases apps.Keys - visited, 1
    {
      hide Going, SubscribeStep, SubscribeLive, DependenciesSettled, Recorded, NamesDone, Met;
      ghost var w, s := Around(), Now(visited);
      visited', guardTaken := visited, false;
      if !HasEndpoint(apps[app]) {
        NothingToAsk(w, tenant, s, app);
        return Ok(true), visited, false;
      }
      ghost var live := Going(byName, tenant, s.p) && app !in answers && app !in finished;
      var answer := Fetch();
      asked := asked + [app];
      EndpointAsked(w, tenant, s, app, if answer.Names? then answer.names else []);
      if answer.HttpError? {
        return Err(RequestFailed), visited, false;
      }
      r := Ok(true);
      if answer.Names? {
        var names := answer.names;
        answers := answers[app := names];
        ghost var s0 := Snap(Answered(s.p, app, names), s.tr);
        var i := 0;
        while i < |names|
          invariant i <= |names| && visited <= visited' <= apps.Keys && s.tr.calls < calls
          invariant SubscribeStep(w, tenant, {}, {app}, s, Now(visited'), None)
          invariant live ==> !guardTaken && SubscribeLive(w, tenant, {}, s0, Now(visited'), None)
          invariant live ==> NamesDone(byName, tenant, names, i, Now(visited').p)
        {
          ghost var s1 := Now(visited');
          if names[i] !in byName {
            NameUnknown(w, tenant, s, AskedOnce(w, s, app), app, s1, names[i]);
            return Err(AppNotFound(names[i])), visited', guardTaken;
          }
          StepGrows(w, tenant, {}, {app}, s, s1, None);
          if live { LiveIsGoing(w, tenant, {}, s0, s1); }
          var nested;
          ghost var taken;
          nested, visited', taken := SubscribeApp(tenant, byName[names[i]], visited');
          guardTaken := guardTaken || taken;
          NamesAreMet(w, s.tr.calls, s1.tr.calls, {}, names[i]);
          NameFollowed(w, tenant, s, app, s1, byName[names[i]], Now(visited'), Thrown(nested));
          if live { NameFollowedLive(w, tenant, s, s0, app, names, i, s1, Now(visited'), Thrown(nested)); }
          if nested.Err? {
            return Err(nested.error), visited', guardTaken;
          }
          i := i + 1;
        }
        if live { AnswerFollowedLive(w, tenant, s, app, names, Now(visited')); }
      }
    }

    method Unsubscribe(tenant: TenantId, app: AppId, visited: set<AppId>)
      returns (r: Result<bool, Error>, visited': set<AppId>)
      requires Valid() && app in apps && visited <= apps.Keys && Recorded(Around(), Now(visited), visited)
      modifies this
      ensures visited <= visited' <= apps.Keys
      ensures UnsubscribeStep(Around(), tenant, {app}, {}, old(Now(visited)), Now(visited'), Thrown(r))
      ensures r.Ok? ==> app in reached
      ensures r.Ok? ==> r.value == !((tenant, app) in old(subs) && old(subs)[(tenant, app)].status != Failed
                                     && (old(subs)[(tenant, app)].status == Pending || app in visited))
      ensures r.Err? ==> app in visited' - visited && (tenant, app) in subs
      decreases apps.Keys - visited, 0
    {
      hide UnsubscribeStep, Recorded;
      ghost var w, s := Around(), Now(visited);
      visited' := visited;
      reached := reached + {app};
      NothingTakenUp(w, tenant, s, app);
      if (tenant, app) !in subs {
        return Ok(true), visited;
      }
      var existingSub := subs[(tenant, app)];
      if existingSub.status == Failed {
        subs := subs - {(tenant, app)};
        return Ok(true), visited;
      }
      if existingSub.status == Pending {
        return Ok(false), visited;
      }
      if app in visited {
        return Ok(false), visited;
      }
      visited' := visited + {app};
      ghost var s1 := Now(visited');
      assert s1.p == Marked(s.p, app) && s1.tr == s.tr && visited' - {app} == visited;
      RecordedDepends(w, s, s1, visited);
      var offboarded;
      offboarded, visited' := CallOffboardingEndpoint(tenant, app, visited');
      ghost var s2 := Now(visited');
      AppTakenDown(w, tenant, s, app, s2, Thrown(offboarded));
      match offboarded
      case Ok(_) =>
        userRoles := set ur | ur in userRoles && !(ur.tenantId == tenant && ur.roleId in roleApp && roleApp[ur.roleId] == app);
        subs := subs - {(tenant, app)};
        assert Now(visited').p == Deleted(roleApp, s2.p, tenant, app);
        DownGrows(w, tenant, {}, {app}, s1, s2, None);
        r := Ok(true);
      case Err(error) =>
        subs := subs[(tenant, app) := subs[(tenant, app)].(message := Some(error))];
        r := Err(error);
    }

    method CallOffboardingEndpoint(tenant: TenantId, app: AppId, visited: set<AppId>)
      returns (r: Result<bool, Error>, visited': set<AppId>)
      requires Valid() && app in apps && visited <= apps.Keys && app in visited
      requires Recorded(Around(), Now(visited), visited - {app})
      modifies this
      ensures visited <= visited' <= apps.Keys
      ensures UnsubscribeStep(Around(), tenant, {}, {app}, old(Now(visited)), Now(visited'), Thrown(r))
      decreases apps.Keys - visited, 1
    {
      hide UnsubscribeStep, Recorded, Following, Called, Unsubscribed;
      ghost var w, s := Around(), Now(visited);
      visited' := visited;
      if !HasEndpoint(apps[app]) {
        NothingToAskDown(w, tenant, s, app);
        return Ok(true), visited;
      }
      EndpointAskedDown(w, tenant, s, app);
      var answer := Fetch();
      asked := asked + [app];
      if answer.HttpError? {
        return Err(RequestFailed), visited;
      }
      r := Ok(true);
      if answer.Names? {
        var names := answer.names;
        answers := answers[app := names];
        assert Now(visited) == AskedOnce(w, s, app);
        AnswerToFollow(w, tenant, s, app, names);
        var i := 0;
        while i < |names|
          invariant i <= |names| && visited <= visited' <= apps.Keys
          invariant Following(w, tenant, s, app, names, i, Now(visited'))
        {
          ghost var s1 := Now(visited');
          if names[i] !in byName {
            NameUnknownDown(w, tenant, s, app, names, i, s1);
            return Err(AppNotFound(names[i])), visited';
          }
          FollowingIsRecorded(w, tenant, s, app, names, i, s1);
          var nested;
          nested, visited' := Unsubscribe(tenant, byName[names[i]], visited');
          NameFollowedDown(w, tenant, s, app, names, i, s1, Now(visited'), Thrown(nested));
          if nested.Err? {
            return Err(nested.error), visited';
          }
          i := i + 1;
        }
        AnswerFollowedDown(w, tenant, s, app, names, Now(visited'));
      }
    }

    // -------------------------------------------------------------------------------------
    // The calls made by the controller: nothing visited yet
    // -------------------------------------------------------------------------------------

    /** Whatever the endpoints answer, the call ends. `added` are the apps that got a new row.
        Those of them that have an endpoint are asked once each, and nobody else is; the first
        failed request ends the call, with the message in the row of the app that was asked.
        On a normal return every app that was reached holds a settled row, everything the
        answers named was reached, and the new subscriptions have no dependency cycle. */
    method SubscribeToApp(tenant: TenantId, app: AppId)
      returns (r: Result<Subscription, Error>, ghost added: set<AppId>, ghost guardTaken: bool)
      requires Valid() && app in apps
      modifies this
      ensures !guardTaken && userRoles == old(userRoles)
      ensures forall k: (TenantId, AppId) :: k.0 != tenant || k.1 !in added ==>
        (k in subs <==> k in old(subs)) && (k in subs ==> subs[k] == old(subs)[k])
      ensures forall a :: a in added ==>
        && ((tenant, a) in old(subs) ==> old(subs)[(tenant, a)].status == Failed) && (tenant, a) in subs
        && (subs[(tenant, a)] == Subscription(Success, None)
            || (r.Err? && subs[(tenant, a)] == Subscription(Failed, Some(r.error))))
      ensures Listed(asked) == Callable(apps, added)
      ensures calls - old(calls) == |asked| == |Callable(apps, added)|
      ensures CallsAnswered(script, old(calls), calls, r == Err(RequestFailed))
      ensures r == Err(RequestFailed) ==> asked != [] && FailedWith(subs, tenant, Last(asked), RequestFailed)
      ensures added <= reached
      ensures forall a :: a in reached ==>
        a in apps && apps[a].owner != tenant && Met(Around(), old(calls), calls, {app}, a)
      ensures r.Ok? ==>
        && app in reached && (tenant, app) in subs && subs[(tenant, app)] == r.value
        && (forall a :: a in reached ==> Settled(subs, tenant, a))
        && AnswersFollowed(Around(), old(calls), calls, reached)
        && AnswersKept(Around(), Now(added)) && NoCycle(byName, answers, added)
      ensures r.Err? ==> Grounds(Around(), tenant, old(calls), calls, {app}, old(subs), added, r.error)
      ensures r.Err? && app in added ==> FailedWith(subs, tenant, app, r.error)
    {
      hide Going, SubscribeStep, SubscribeLive, Recorded;
      reached, answers, finished, asked := {}, map[], [], [];
      ghost var w, s := Around(), Now({});
      FromScratch(w, tenant, s);
      var visited;
      r, visited, guardTaken := SubscribeApp(tenant, app, {});
      added := visited;
      SubscribedFromScratch(w, tenant, app, s, Now(visited), Thrown(r));
    }

    /** Whatever the endpoints answer, the call ends. `taken` are the apps that it took up: those
        with an endpoint are asked once each, and the first failed request ends the call. On a
        normal return everything the answers named was reached; of the rows exactly those of the
        reached apps are gone, unless pending; and of the tenant's user roles exactly those of
        the reached apps that had a settled row. After an exception the apps taken up that still
        have their row, among them the one that was asked last if its request failed, have the
        message in it and kept their roles. */
    method UnsubscribeFromApp(tenant: TenantId, app: AppId) returns (r: Result<bool, Error>, ghost taken: set<AppId>)
      requires Valid() && app in apps
      modifies this
      ensures forall a :: a in taken ==>
        a in reached && (tenant, a) in old(subs) && old(subs)[(tenant, a)].status in {Success, Canceled}
      ensures Listed(asked) == Callable(apps, taken)
      ensures calls - old(calls) == |asked| == |Callable(apps, taken)|
      ensures CallsAnswered(script, old(calls), calls, r == Err(RequestFailed))
      ensures forall a :: a in reached ==> Met(Around(), old(calls), calls, {app}, a)
      ensures r.Ok? ==>
        && app in reached && AnswersFollowed(Around(), old(calls), calls, reached)
        && taken == SettledAmong(old(subs), tenant, reached)
        && (forall k: (TenantId, AppId) ::
             k in subs <==> k in old(subs) && !(k.0 == tenant && k.1 in reached && old(subs)[k].status != Pending))
        && (forall k: (TenantId, AppId) :: k in subs ==> subs[k] == old(subs)[k])
        && (forall ur :: ur in userRoles <==>
             ur in old(userRoles) && !(ur.tenantId == tenant && ur.roleId in roleApp && roleApp[ur.roleId] in taken))
        && (r.value <==> !((tenant, app) in old(subs) && old(subs)[(tenant, app)].status == Pending))
      ensures r.Err? ==>
        && app in taken && (tenant, app) in subs
        && (r.error.RequestFailed? || r.error.AppNotFound?)
        && Grounds(Around(), tenant, old(calls), calls, {app}, old(subs), taken, r.error)
        && (forall ur :: ur in userRoles <==>
             ur in old(userRoles)
             && !(ur.tenantId == tenant && ur.roleId in roleApp && roleApp[ur.roleId] in taken && (tenant, roleApp[ur.roleId]) !in subs))
        && RowsMarked(old(subs), subs, tenant, reached, taken, r.error)
      ensures r == Err(RequestFailed) ==> asked != [] && Last(asked) in taken && (tenant, Last(asked)) in subs
    {
      hide UnsubscribeStep, Recorded;
      reached, answers, finished, asked := {}, map[], [], [];
      ghost var w, s := Around(), Now({});
      FromScratch(w, tenant, s);
      var visited;
      r, visited := Unsubscribe(tenant, app, {});
      taken := visited;
      UnsubscribedFromScratch(w, tenant, app, s, Now(visited), Thrown(r));
    }
  }
}
