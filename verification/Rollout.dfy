/** switchTraffic and drainStale in internal/deploy/rollout.go, call by call, as a thread of the
  * switching machine: between any two of its calls everyone else may do anything. */
module Rollout {
  import opened Text
  import opened Wrappers
  import opened Routing
  import opened ProxyConfig
  import opened Switching

  // What another actor can do to the state while this operation is under way.
  predicate Foreign(s: State, a: AppId, e: Event) {
    match e
    case Begin(b, _) => b != a
    case Activate(b) => b != a
    case Abort(b) => b != a
    case ListStale(b, _) => b != a
    case DrainStop(b, _) => b != a
    case DrainDone(b) => b != a
    case Lock(actor) => actor != Switch(a)
    case PlanApp(_, _) => !Holds(s, a)
    case Build => !Holds(s, a)
    case PostOk => !Holds(s, a)
    case JobError => !Holds(s, a)
    case ReadBack(_) => !Holds(s, a)
    case DaemonRestart => false
    case _ => true
  }

  predicate Holds(s: State, a: AppId) { s.job.Some? && s.job.value.actor == Switch(a) }

  ghost predicate ForeignRun(s: State, a: AppId, es: seq<Event>)
    decreases |es|
  {
    es == [] || (Enabled(s, es[0]) && Foreign(s, a, es[0]) && ForeignRun(Next(s, es[0]), a, es[1..]))
  }

  // The activations of the application, oldest first.
  function ActsOf(s: State, a: AppId): seq<ReleaseId> {
    if a in s.history then s.history[a] else []
  }

  // What others leave alone.
  ghost predicate Relies(s: State, s': State, a: AppId) {
    && s'.apps == s.apps && s.host.Keys <= s'.host.Keys && s.history.Keys <= s'.history.Keys
    && (a in s'.ops <==> a in s.ops) && (a in s.ops ==> s'.ops[a] == s.ops[a])
    && (Holds(s, a) ==> s'.job == s.job)
    && (a in s.history ==> s'.history[a] == s.history[a])
  }

  lemma OthersStep(s: State, a: AppId, e: Event)
    requires Enabled(s, e) && Foreign(s, a, e)
    ensures Relies(s, Next(s, e), a)
  {
    hide OpenPositions, StaleOn, CreatedFor, NextActivate, NextDrainStop, Upstreams, Listing, Built, Positions;
    match e
    case Lock(actor) => OthersLock(s, a, actor);
    case PlanApp(_, _) => OthersJob(s, a, e);
    case Build => OthersJob(s, a, e);
    case PostOk => OthersJob(s, a, e);
    case JobError => OthersEnd(s, a, false);
    case ReadBack(readable) => OthersEnd(s, a, readable && s.live == s.job.value.routes);
    case ListStale(_, _) => OthersOp(s, a, e);
    case DrainStop(b, stopped) => OthersStop(s, a, b, stopped);
    case Activate(b) => OthersActivate(s, a, b);
    case Begin(_, _) => OthersOp(s, a, e);
    case Abort(_) => OthersOp(s, a, e);
    case DrainDone(_) => OthersOp(s, a, e);
    case _ =>
  }

  lemma OthersLock(s: State, a: AppId, actor: Actor)
    requires Enabled(s, Lock(actor)) && actor != Switch(a)
    ensures Relies(s, NextLock(s, actor), a)
  {
    hide OpenPositions;
  }

  lemma OthersJob(s: State, a: AppId, e: Event)
    requires Enabled(s, e) && !Holds(s, a) && (e.PlanApp? || e.Build? || e.PostOk?)
    ensures Relies(s, Next(s, e), a)
  {
    hide Relies, NextPlan, NextBuild, NextPost;
    var s' := Next(s, e);
    match e
    case PlanApp(b, listing) => PlanParts(s, s.job.value, b, listing); SameParts(s, s', a);
    case Build => BuildParts(s, s.job.value); SameParts(s, s', a);
    case PostOk => PostParts(s, s.job.value); SameParts(s, s', a);
  }

  predicate SameBut(s: State, s': State) {
    s'.apps == s.apps && s'.host == s.host && s'.history == s.history && s'.ops == s.ops
  }

  lemma PlanParts(s: State, j: Job, a: AppId, listing: Option<seq<Replica>>)
    requires a in j.deps && a in s.apps && a in s.history && j.deps[a] < |s.history[a]|
    ensures SameBut(s, NextPlan(s, j, a, listing))
  {
    hide Planned, Upstreams;
  }

  lemma BuildParts(s: State, j: Job)
    ensures SameBut(s, NextBuild(s, j))
  {
    hide Carried;
    if j.actor == Watcher && j.routes.Keys <= s.live.Keys {
    } else {
      var routes := if j.actor == Watcher then j.routes + Carried(s.live, j.skipped) else j.routes;
      assert NextBuild(s, j) == s.(job := Some(j.(stage := Ready, routes := routes)));
    }
  }

  lemma PostParts(s: State, j: Job)
    ensures SameBut(s, NextPost(s, j))
  {
  }

  lemma SameParts(s: State, s': State, a: AppId)
    requires SameBut(s, s') && !Holds(s, a)
    ensures Relies(s, s', a)
  {
  }

  lemma OthersEnd(s: State, a: AppId, ok: bool)
    requires s.job.Some? && !Holds(s, a)
    ensures Relies(s, EndJob(s, ok), a)
  {
  }

  lemma OthersOp(s: State, a: AppId, e: Event)
    requires Enabled(s, e) && Foreign(s, a, e)
    requires e.Begin? || e.Abort? || e.ListStale? || e.DrainDone?
    ensures Relies(s, Next(s, e), a)
  {
    hide StaleOn;
  }

  lemma OthersActivate(s: State, a: AppId, b: AppId)
    requires b in s.ops && b in s.history && b != a
    ensures Relies(s, NextActivate(s, b), a)
  {
  }

  lemma OthersStop(s: State, a: AppId, b: AppId, stopped: set<nat>)
    requires Enabled(s, DrainStop(b, stopped)) && b != a
    ensures Relies(s, NextDrainStop(s, b, stopped), a)
  {
    hide CreatedFor, StopContainers;
  }

  lemma {:induction false} OthersRun(s: State, a: AppId, es: seq<Event>)
    requires ForeignRun(s, a, es)
    ensures Runs(s, es) && Relies(s, After(s, es), a)
    decreases |es|
  {
    hide Enabled, Next, Foreign, Relies;
    if es == [] {
      ReliesSame(s, a);
    } else {
      OthersStep(s, a, es[0]);
      OthersRun(Next(s, es[0]), a, es[1..]);
      ReliesThen(s, Next(s, es[0]), After(s, es), a);
    }
  }

  lemma ReliesSame(s: State, a: AppId)
    ensures Relies(s, s, a)
  {
  }

  lemma ReliesThen(s: State, t: State, u: State, a: AppId)
    requires Relies(s, t, a) && Relies(t, u, a)
    ensures Relies(s, u, a)
  {
  }

  // Applications stay as they are, and activation histories only grow.
  ghost predicate Grows(s: State, s': State) { s'.apps == s.apps && Longer(s.history, s'.history) }

  lemma StepGrows(s: State, e: Event)
    requires Enabled(s, e)
    ensures Grows(s, Next(s, e))
  {
    hide NextPlan, NextBuild, NextPost, NextLock, NextActivate, NextDrainStop, EndJob, StaleOn, CreatedFor, Grows;
    match e
    case PlanApp(b, listing) => PlanParts(s, s.job.value, b, listing); GrowsSame(s, Next(s, e));
    case Build => BuildParts(s, s.job.value); GrowsSame(s, Next(s, e));
    case PostOk => PostParts(s, s.job.value); GrowsSame(s, Next(s, e));
    case JobError => EndGrows(s, false);
    case ReadBack(readable) => EndGrows(s, readable && s.live == s.job.value.routes);
    case Lock(actor) => LockGrows(s, actor);
    case Activate(b) => ActivateGrows(s, b);
    case DrainStop(b, stopped) => StopGrows(s, b, stopped);
    case _ => GrowsSame(s, Next(s, e));
  }

  lemma GrowsSame(s: State, s': State)
    requires s'.apps == s.apps && s'.history == s.history
    ensures Grows(s, s')
  {
  }

  lemma GrowsThen(s: State, t: State, u: State)
    requires Grows(s, t) && Grows(t, u)
    ensures Grows(s, u)
  {
  }

  lemma EndGrows(s: State, ok: bool)
    requires s.job.Some?
    ensures Grows(s, EndJob(s, ok))
  {
    hide EndedOps;
  }

  lemma LockGrows(s: State, actor: Actor)
    requires Locker(s, actor)
    ensures Grows(s, NextLock(s, actor))
  {
    hide OpenPositions;
  }

  lemma ActivateGrows(s: State, a: AppId)
    requires a in s.ops && a in s.history
    ensures Grows(s, NextActivate(s, a))
  {
  }

  lemma StopGrows(s: State, a: AppId, stopped: set<nat>)
    requires a in s.ops && s.ops[a].phase.Draining? && s.ops[a].phase.stale != [] && a in s.host
    ensures Grows(s, NextDrainStop(s, a, stopped))
  {
    hide StopContainers;
  }

  lemma {:induction false} RunGrows(s: State, es: seq<Event>)
    requires Runs(s, es)
    ensures Grows(s, After(s, es))
    decreases |es|
  {
    hide Enabled, Next, Grows;
    if es == [] {
      GrowsSame(s, s);
    } else {
      StepGrows(s, es[0]);
      RunGrows(Next(s, es[0]), es[1..]);
      GrowsThen(s, Next(s, es[0]), After(s, es));
    }
  }

  /** The machine as one thread sees it: its own calls, and whatever the others do in between. */
  class Machine {
    ghost const start: State
    ghost var s: State
    ghost var past: seq<Event>

    // What the others do from each state, as long as this operation is not done.
    ghost const others: State -> seq<Event>

    ghost predicate Valid()
      reads this
    {
      Init(start) && Runs(start, past) && After(start, past) == s
    }

    ghost constructor (s: State, others: State -> seq<Event>)
      requires Init(s)
      ensures Valid() && this.s == s && this.others == others
    {
      start, this.s, past, this.others := s, s, [], others;
    }

    ghost method Call(e: Event)
      requires Valid() && Enabled(s, e)
      modifies this
      ensures past == old(past) + [e]
      ensures Valid() && s == Next(old(s), e) && s.apps == old(s.apps) && Grows(old(s), s)
    {
      hide Next, Enabled, Init;
      StepGrows(s, e);
      RunNone(Next(s, e));
      RunOne(s, e, []);
      RunsConcat(start, past, [e]);
      s, past := Next(s, e), past + [e];
    }

    // Waiting for the mutex.
    ghost method Acquire(a: AppId, releases: State -> seq<Event>)
      requires Valid() && !Holds(s, a) && Releases(s, a, releases(s))
      modifies this
      ensures old(past) <= past
      ensures Valid() && Relies(old(s), s, a) && s.job.None? && s.apps == old(s.apps) && Grows(old(s), s)
    {
      hide Relies, Init;
      OthersRun(s, a, releases(s));
      RunsConcat(start, past, releases(s));
      RunGrows(s, releases(s));
      past := past + releases(s);
      s := After(s, releases(s));
    }

    // The others' turn while this operation holds the mutex.
    ghost method Pause(a: AppId, r: ReleaseId)
      requires Valid() && Placed(s) && Ours(s, a, r, Reconciling) && Holds(s, a) && ForeignRun(s, a, others(s))
      modifies this
      ensures old(past) <= past
      ensures Valid() && Placed(s) && Ours(s, a, r, Reconciling) && s.job == old(s.job) && s.apps == old(s.apps) && Grows(old(s), s)
      ensures a in old(s.history) ==> a in s.history && ActsOf(s, a) == ActsOf(old(s), a)
    {
      hide Init, Relies, Placed, Ours, Grows;
      Yield(a);
      ReliesKeeps(old(s), s, a, r, Reconciling);
    }

    // The others' turn between two calls.
    ghost method Turn(a: AppId, r: ReleaseId, p: Phase)
      requires Valid() && Placed(s) && Ours(s, a, r, p) && a in s.apps && ForeignRun(s, a, others(s))
      modifies this
      ensures old(past) <= past
      ensures Valid() && Placed(s) && Ours(s, a, r, p) && s.apps == old(s.apps)
      ensures a in s.history && a in old(s.history) && s.history[a] == old(s.history[a])
    {
      hide Init, Placed, Ours;
      HasHost(s, a);
      Yield(a);
      ReliesKeeps(old(s), s, a, r, p);
    }

    ghost method Yield(a: AppId)
      requires Valid() && ForeignRun(s, a, others(s))
      modifies this
      ensures old(past) <= past
      ensures Valid() && Relies(old(s), s, a) && Grows(old(s), s)
    {
      hide Relies, Init, Grows;
      OthersRun(s, a, others(s));
      RunGrows(s, others(s));
      RunsConcat(start, past, others(s));
      past := past + others(s);
      s := After(s, others(s));
    }
  }

  predicate ListedAfter(past: seq<Event>, es: seq<Event>, a: AppId) {
    es <= past && |es| < |past| && past[|es|].PlanApp? && past[|es|].app == a
  }

  // The run has been in this state; in this state it listed the application's containers; in
  // this state a load read back.
  ghost predicate Passed(start: State, past: seq<Event>, t: State) {
    exists es :: es <= past && Leads(start, es, t)
  }

  ghost predicate Lists(start: State, past: seq<Event>, t: State, a: AppId) {
    exists es :: ListedAfter(past, es, a) && Leads(start, es, t)
  }

  ghost predicate ReadsBack(start: State, past: seq<Event>, t: State, readable: bool) {
    exists es :: es + [ReadBack(readable)] <= past && Leads(start, es, t)
  }

  ghost predicate Leads(start: State, es: seq<Event>, t: State) { Runs(start, es) && After(start, es) == t }

  lemma MachineSkips(start: State, past: seq<Event>)
    requires Init(start) && Runs(start, past)
    ensures SkipsOk(After(start, past).live, After(start, past).job)
  {
    RunSkips(start, past);
  }

  lemma MachineInv(start: State, past: seq<Event>)
    requires Init(start) && Runs(start, past)
    ensures Inv(After(start, past))
  {
    InitInv(start);
    RunKeeps(start, past);
  }

  // ---- switchTraffic ----

  /** How the calls of one switch go: the gate, the reads and the load inside Reconcile, and the
    * listing and the stops of drainStale. */
  datatype Calls = Calls(
    gate: bool,
    activates: bool,              // SetActiveRelease is stored
    deployments: bool,             // ActiveDeployments can be read
    listing: AppId -> bool,        // ListReplicas answers for this application
    builds: bool, posts: bool, readable: bool,
    hostListed: bool, sleeps: bool,
    stops: ReleaseId -> bool,      // StopRelease stops all containers of the release
    reaches: ReleaseId -> set<nat>) // those it has stopped when it fails

  // The calls of a load that come before its read-back.
  predicate Works(c: Calls) { c.deployments && c.builds && c.posts }

  // What drainStale did: the state it listed the host in, what it listed, what it went on to
  // stop, and where in the run the stops are.
  datatype Drain = Drain(at: State, listed: seq<ReleaseId>, stopped: seq<ReleaseId>, stops: seq<nat>)

  // The calls of a drain that has this to stop.
  predicate Drains(c: Calls, listed: seq<ReleaseId>) {
    c.hostListed && (listed == [] || (c.sleeps && forall q :: q in listed ==> c.stops(q)))
  }

  datatype SwitchError = GateFailed | NotActivated | ReconcileFailed | Skipped | DrainFailed

  predicate Ours(s: State, a: AppId, r: ReleaseId, p: Phase) {
    a in s.ops && s.ops[a] == Op(r, p)
  }

  // Every application has its place in the host's and the history's tables.
  predicate Placed(s: State) { s.apps.Keys <= s.host.Keys && s.apps.Keys <= s.history.Keys }

  /** The others never take part in this operation, and a lock they hold is given back. */
  ghost predicate Scheduled(others: State -> seq<Event>, releases: State -> seq<Event>, a: AppId) {
    && (forall t: State :: ForeignRun(t, a, others(t)))
    && (forall t: State :: Holds(t, a) || Releases(t, a, releases(t)))
  }

  ghost predicate Releases(t: State, a: AppId, es: seq<Event>) {
    ForeignRun(t, a, es) && Freed(t, a, es)
  }

  ghost predicate Freed(t: State, a: AppId, es: seq<Event>)
    requires ForeignRun(t, a, es)
  {
    OthersRun(t, a, es);
    After(t, es).job.None?
  }

  // Others that do nothing of their own, and a load of theirs that ends as soon as it can.
  function Idle(t: State): seq<Event> { [] }

  function Yields(t: State): seq<Event> {
    if t.job.None? then [] else if t.job.value.stage == Posted then [ReadBack(false)] else [JobError]
  }

  /** There are such others. */
  lemma SomeSchedule(a: AppId)
    ensures Scheduled(Idle, Yields, a)
  {
    hide EndedOps;
    forall t: State ensures Holds(t, a) || Releases(t, a, Yields(t)) {
      if !Holds(t, a) && t.job.Some? {
        var e := Yields(t)[0];
        assert Enabled(t, e) && Foreign(t, a, e) && Yields(t) == [e] && [e][1..] == [];
        assert ForeignRun(Next(t, e), a, []);
        assert ForeignRun(t, a, [e]);
        OthersRun(t, a, [e]);
        assert After(Next(t, e), []).job.None?;
      }
    }
  }

  // The load under way is this operation's, at this stage.
  predicate Loading(s: State, a: AppId, r: ReleaseId, stage: Stage) {
    Ours(s, a, r, Reconciling) && Holds(s, a) && s.job.value.stage == stage
  }

  lemma ReliesKeeps(s: State, s': State, a: AppId, r: ReleaseId, p: Phase)
    requires Relies(s, s', a) && Placed(s)
    ensures Placed(s') && s'.apps == s.apps
    ensures Ours(s, a, r, p) ==> Ours(s', a, r, p)
    ensures Holds(s, a) ==> s'.job == s.job
    ensures a in s.history ==> a in s'.history && s'.history[a] == s.history[a]
  {
  }

  // What upstreamsFor makes of the application's containers; listing them can fail.
  function Choice(s: State, a: AppId, r: ReleaseId, listed: bool): Result<seq<Dial>, SkipReason>
    requires a in s.apps
  {
    var app := s.apps[a];
    Upstreams(Deployment(a, r, app.domain, app.port, app.replicas), if listed && a in s.host then Some(Listing(s.host[a])) else None)
  }

  // A load is about the applications with an open activation and a domain.
  predicate InScope(s: State, b: AppId) {
    b in s.apps && b in s.history && s.history[b] != [] && s.apps[b].domain != ""
  }

  function ActiveOf(s: State, b: AppId): ReleaseId
    requires InScope(s, b)
  {
    s.history[b][|s.history[b]| - 1]
  }

  // The load routes the application to what its containers in that state give for the release
  // that was active in the state first, or skips it if they give nothing.
  predicate Settled(first: State, plan: State, j: Job, b: AppId, listed: bool)
    requires InScope(first, b) && b in plan.apps
  {
    match Choice(plan, b, ActiveOf(first, b), listed)
    case Ok(ups) => b !in j.skipped && b in j.routes && j.routes[b] == Served(|first.history[b]| - 1, ups)
    case Err(_) => b in j.skipped && b !in j.routes
  }

  // Everything in scope is still to be listed or settled, and nothing else is in the load.
  ghost predicate SettledAll(first: State, plans: map<AppId, State>, j: Job, c: Calls) {
    && j.deps == OpenPositions(first)
    && (forall b :: b in j.pending || b in j.skipped || b in j.routes ==> InScope(first, b))
    && (forall b :: InScope(first, b) && b !in j.pending ==>
          b in plans && plans[b].apps == first.apps && Settled(first, plans[b], j, b, c.listing(b)))
    && j.pending !! j.skipped && j.pending !! j.routes.Keys
  }

  // The proxy routes the application to this release, the last one activated.
  predicate Serving(s: State, a: AppId, r: ReleaseId) {
    && a in s.live && a in s.history && s.live[a].pos == |s.history[a]| - 1
    && s.history[a][s.live[a].pos] == r
  }

  lemma LockSettles(s: State, a: AppId, r: ReleaseId, c: Calls)
    requires Inv(s) && Placed(s) && Ours(s, a, r, Activated) && s.job.None?
    ensures a in s.apps && a in s.history && s.history[a] != [] && s.history[a][|s.history[a]| - 1] == r
    ensures Enabled(s, Lock(Switch(a))) && Next(s, Lock(Switch(a))).job.Some?
    ensures SettledAll(s, map[], Next(s, Lock(Switch(a))).job.value, c)
  {
    hide HostOk, DrainedStopped, LoadsOk, Undrained, TableOk, TopOk, JobInv, Positions, Settled;
    assert OpOk(s.apps, s.history, s.top, Owner(s.job), a, s.ops[a]);
  }

  lemma PlanSettles(s: State, b: AppId, first: State, plans: map<AppId, State>, c: Calls)
    requires s.job.Some? && b in s.job.value.pending && Grows(first, s) && SettledAll(first, plans, s.job.value, c)
    ensures var e := PlanApp(b, if c.listing(b) && b in s.host then Some(Listing(s.host[b])) else None);
      Enabled(s, e) ==> Next(s, e).job.Some? && SettledAll(first, plans[b := s], Next(s, e).job.value, c)
  {
    hide Upstreams, Listing, SettledAll;
    var j := s.job.value;
    ScopeReads(first, s, plans, j, b, c);
    SettledOne(first, s, plans, j, b, c);
  }

  // What the load has read of an application still to be listed.
  lemma ScopeReads(first: State, s: State, plans: map<AppId, State>, j: Job, b: AppId, c: Calls)
    requires b in j.pending && Grows(first, s) && SettledAll(first, plans, j, c)
    ensures InScope(first, b) && b in s.apps && b in j.deps && b in s.history && j.deps[b] < |s.history[b]|
    ensures j.deps[b] == |first.history[b]| - 1
    ensures var d := DeploymentOf(s, b, j.deps[b]);
      d == Deployment(b, ActiveOf(first, b), s.apps[b].domain, s.apps[b].port, s.apps[b].replicas)
  {
    hide Settled;
    assert first.history[b] <= s.history[b];
  }

  lemma SettledOne(first: State, s: State, plans: map<AppId, State>, j: Job, b: AppId, c: Calls)
    requires InScope(first, b) && b in j.pending && b in j.deps && Grows(first, s) && SettledAll(first, plans, j, c)
    requires b in s.apps && j.deps[b] == |first.history[b]| - 1
    ensures SettledAll(first, plans[b := s], Planned(j, b, Choice(s, b, ActiveOf(first, b), c.listing(b))), c)
  {
    hide Choice, OpenPositions;
  }

  predicate SameLoad(j: Job, j': Job) {
    j'.deps == j.deps && j'.pending == j.pending && j'.routes == j.routes && j'.skipped == j.skipped
  }

  lemma SameSettled(first: State, plans: map<AppId, State>, j: Job, j': Job, c: Calls)
    requires SettledAll(first, plans, j, c) && SameLoad(j, j')
    ensures SettledAll(first, plans, j', c)
  {
    hide Choice, OpenPositions;
  }

  // What the load has put live when it is read back.
  lemma PostedServes(s: State, a: AppId, r: ReleaseId)
    requires Inv(s) && SkipsOk(s.live, s.job) && Loading(s, a, r, Posted)
    ensures a in s.apps
    ensures a in s.job.value.skipped ==> a !in s.live
    ensures s.live == s.job.value.routes || s.live == map[]
    ensures s.apps[a].domain != "" ==> (Serving(s, a, r) <==> s.live == s.job.value.routes && a !in s.job.value.skipped)
  {
    hide HostOk, DrainedStopped, LoadsOk, Undrained, TableOk, TopOk;
    assert OpOk(s.apps, s.history, s.top, Owner(s.job), a, s.ops[a]);
  }

  lemma LockStep(s: State, a: AppId, r: ReleaseId)
    requires Ours(s, a, r, Activated) && s.job.None? && Placed(s)
    ensures Enabled(s, Lock(Switch(a))) && Placed(Next(s, Lock(Switch(a))))
    ensures Loading(Next(s, Lock(Switch(a))), a, r, Planning)
    ensures Next(s, Lock(Switch(a))).history == s.history
  {
    hide OpenPositions;
  }

  lemma PlanStep(s: State, a: AppId, r: ReleaseId, b: AppId, listed: bool)
    requires Inv(s) && Placed(s) && Loading(s, a, r, Planning) && b in s.job.value.pending
    ensures var e := PlanApp(b, if listed && b in s.host then Some(Listing(s.host[b])) else None);
      && Enabled(s, e) && Placed(Next(s, e)) && Loading(Next(s, e), a, r, Planning)
      && Next(s, e).job.value.pending == s.job.value.pending - {b}
      && Next(s, e).history == s.history
  {
    hide HostOk, DrainedStopped, LoadsOk, Undrained, TableOk, TopOk, OpsOk, SwitchJobOk, Upstreams, Listing;
    assert b in s.job.value.deps;
  }

  lemma BuildStep(s: State, a: AppId, r: ReleaseId)
    requires Placed(s) && Loading(s, a, r, Planning) && s.job.value.pending == {}
    ensures Enabled(s, Build) && Placed(Next(s, Build)) && Loading(Next(s, Build), a, r, Ready)
    ensures SameLoad(s.job.value, Next(s, Build).job.value)
    ensures Next(s, Build).history == s.history
  {
    hide Carried;
  }

  lemma PostStep(s: State, a: AppId, r: ReleaseId)
    requires Placed(s) && Loading(s, a, r, Ready)
    ensures Enabled(s, PostOk) && Placed(Next(s, PostOk)) && Loading(Next(s, PostOk), a, r, Posted)
    ensures SameLoad(s.job.value, Next(s, PostOk).job.value)
    ensures Next(s, PostOk).history == s.history
  {
    hide Positions;
  }

  lemma ErrorStep(s: State, a: AppId, r: ReleaseId)
    requires Placed(s) && (Loading(s, a, r, Planning) || Loading(s, a, r, Ready))
    ensures Enabled(s, JobError) && Placed(Next(s, JobError)) && a !in Next(s, JobError).ops
    ensures Next(s, JobError).history == s.history
  {
  }

  lemma ReadBackStep(s: State, a: AppId, r: ReleaseId, readable: bool)
    requires Placed(s) && Loading(s, a, r, Posted)
    ensures Enabled(s, ReadBack(readable)) && Placed(Next(s, ReadBack(readable)))
    ensures Next(s, ReadBack(readable)).history == s.history
    ensures var s' := Next(s, ReadBack(readable));
      if readable && s.live == s.job.value.routes && a !in s.job.value.skipped then Ours(s', a, r, Routed) else a !in s'.ops
  {
  }

  // The read-back finds what was loaded.
  predicate Landed(c: Calls, seen: State) {
    c.readable && seen.job.Some? && seen.live == seen.job.value.routes
  }

  /** How a load of which every call works ends: first is the state it reads the deployments in,
    * plans those it lists each application's containers in, seen the one it is read back in. */
  ghost predicate Outcome(error: Option<SwitchError>, first: State, plans: map<AppId, State>, seen: State, a: AppId, r: ReleaseId, c: Calls) {
    && seen.job.Some? && seen.apps == first.apps && a in first.apps
    && a in first.history && first.history[a] != [] && first.history[a][|first.history[a]| - 1] == r
    && seen.job.value.pending == {} && SettledAll(first, plans, seen.job.value, c)
    && (seen.live == seen.job.value.routes || seen.live == map[])
    && (error == Some(ReconcileFailed) <==> !Landed(c, seen))
    && (error == Some(Skipped) <==> Landed(c, seen) && a in seen.job.value.skipped)
    && (a in seen.job.value.skipped ==> a !in seen.live)
    && (first.apps[a].domain != "" ==>
          (Serving(seen, a, r) <==> seen.live == seen.job.value.routes && a !in seen.job.value.skipped))
  }

  // The run has read the deployments in first, and listed each application in its plan.
  ghost predicate PlannedBy(start: State, past: seq<Event>, first: State, plans: map<AppId, State>, a: AppId) {
    Locks(start, past, first, a) && ListsAll(start, past, plans)
  }

  ghost predicate Locks(start: State, past: seq<Event>, first: State, a: AppId) {
    exists es :: es + [Lock(Switch(a))] <= past && Leads(start, es, first)
  }

  ghost predicate ListsAll(start: State, past: seq<Event>, plans: map<AppId, State>) {
    forall b :: b in plans ==> Lists(start, past, plans[b], b)
  }

  lemma StillPlanned(start: State, past: seq<Event>, more: seq<Event>, first: State, plans: map<AppId, State>, a: AppId)
    requires past <= more && PlannedBy(start, past, first, plans, a)
    ensures PlannedBy(start, more, first, plans, a)
  {
    hide Lists, Leads;
    forall b | b in plans ensures Lists(start, more, plans[b], b) { StillListed(start, past, more, plans[b], b); }
  }

  lemma ListsMore(start: State, past: seq<Event>, more: seq<Event>, first: State, plans: map<AppId, State>, a: AppId, b: AppId, t: State, e: Event)
    requires PlannedBy(start, past, first, plans, a) && Runs(start, past) && After(start, past) == t
    requires e.PlanApp? && e.app == b && more == past + [e]
    ensures PlannedBy(start, more, first, plans[b := t], a)
  {
    hide Lists, Locks, Runs, After;
    StillPlanned(start, past, more, first, plans, a);
    JustLists(start, past, more, t, b);
  }

  lemma JustLists(start: State, past: seq<Event>, more: seq<Event>, t: State, b: AppId)
    requires Runs(start, past) && After(start, past) == t && |more| == |past| + 1 && past <= more
    requires more[|past|].PlanApp? && more[|past|].app == b
    ensures Lists(start, more, t, b)
  {
    assert ListedAfter(more, past, b) && Leads(start, past, t);
  }

  lemma JustLocked(start: State, past: seq<Event>, more: seq<Event>, t: State, a: AppId)
    requires Runs(start, past) && After(start, past) == t && more == past + [Lock(Switch(a))]
    ensures PlannedBy(start, more, t, map[], a)
  {
    assert past + [Lock(Switch(a))] <= more && Leads(start, past, t);
  }

  // The loop over the deployments: each application is listed in some state of its own.
  ghost method PlanAll(m: Machine, a: AppId, r: ReleaseId, c: Calls, first: State) returns (plans: map<AppId, State>)
    requires m.Valid() && Placed(m.s) && Loading(m.s, a, r, Planning) && a in m.s.history
    requires forall t: State :: ForeignRun(t, a, m.others(t))
    requires Grows(first, m.s) && PlannedBy(m.start, m.past, first, map[], a) && SettledAll(first, map[], m.s.job.value, c)
    modifies m
    ensures m.Valid() && Placed(m.s) && Loading(m.s, a, r, Planning) && m.s.job.value.pending == {}
    ensures m.s.apps == old(m.s.apps) && old(m.past) <= m.past
    ensures a in m.s.history && ActsOf(m.s, a) == ActsOf(old(m.s), a)
    ensures PlannedBy(m.start, m.past, first, plans, a) && SettledAll(first, plans, m.s.job.value, c)
  {
    hide Next, Enabled, Init, Relies, Ours, Placed, Inv, SkipsOk, SettledAll, PlannedBy, Grows;
    plans := map[];
    while m.s.job.value.pending != {}
      invariant m.Valid() && Placed(m.s) && Loading(m.s, a, r, Planning) && m.s.apps == old(m.s.apps)
      invariant a in m.s.history && ActsOf(m.s, a) == ActsOf(old(m.s), a)
      invariant old(m.past) <= m.past && Grows(first, m.s)
      invariant PlannedBy(m.start, m.past, first, plans, a) && SettledAll(first, plans, m.s.job.value, c)
      decreases m.s.job.value.pending
    {
      var b :| b in m.s.job.value.pending;
      plans := PlanOne(m, a, r, c, first, plans, b);
    }
  }

  ghost method PlanOne(m: Machine, a: AppId, r: ReleaseId, c: Calls, first: State, plans: map<AppId, State>, b: AppId)
    returns (more: map<AppId, State>)
    requires m.Valid() && Placed(m.s) && Loading(m.s, a, r, Planning) && a in m.s.history
    requires forall t: State :: ForeignRun(t, a, m.others(t))
    requires Grows(first, m.s) && PlannedBy(m.start, m.past, first, plans, a) && SettledAll(first, plans, m.s.job.value, c)
    requires b in m.s.job.value.pending
    modifies m
    ensures m.Valid() && Placed(m.s) && Loading(m.s, a, r, Planning)
    ensures m.s.job.value.pending == old(m.s.job.value.pending) - {b}
    ensures m.s.apps == old(m.s.apps) && old(m.past) <= m.past && Grows(first, m.s)
    ensures a in m.s.history && ActsOf(m.s, a) == ActsOf(old(m.s), a)
    ensures PlannedBy(m.start, m.past, first, more, a) && SettledAll(first, more, m.s.job.value, c)
  {
    hide Next, Enabled, Init, Relies, Ours, Placed, Inv, SkipsOk, SettledAll, PlannedBy, Grows, Runs, After;
    MachineInv(m.start, m.past);
    PlanStep(m.s, a, r, b, c.listing(b));
    PlanSettles(m.s, b, first, plans, c);
    ghost var t, past, e := m.s, m.past, PlanApp(b, if c.listing(b) && b in m.s.host then Some(Listing(m.s.host[b])) else None);
    m.Call(e);
    ListsMore(m.start, past, m.past, first, plans, a, b, t, e);
    GrowsThen(first, t, m.s);
    more := plans[b := t];
    ghost var u := m.s;
    past := m.past;
    m.Pause(a, r);
    GrowsThen(first, u, m.s);
    StillPlanned(m.start, past, m.past, first, more, a);
  }

  // Build and post; the operation still holds the lock.
  ghost method Post(m: Machine, a: AppId, r: ReleaseId, c: Calls, first: State, plans: map<AppId, State>)
    requires m.Valid() && Placed(m.s) && Loading(m.s, a, r, Planning) && m.s.job.value.pending == {} && a in m.s.history
    requires forall t: State :: ForeignRun(t, a, m.others(t))
    requires SettledAll(first, plans, m.s.job.value, c)
    modifies m
    ensures m.Valid() && Placed(m.s) && Loading(m.s, a, r, Posted) && m.s.job.value.pending == {}
    ensures m.s.apps == old(m.s.apps) && old(m.past) <= m.past
    ensures a in m.s.history && ActsOf(m.s, a) == ActsOf(old(m.s), a)
    ensures SettledAll(first, plans, m.s.job.value, c)
  {
    hide Next, Enabled, Init, Relies, Ours, Placed, Inv, SettledAll, Grows;
    var j := m.s.job.value;
    BuildStep(m.s, a, r);
    m.Call(Build);
    m.Pause(a, r);
    PostStep(m.s, a, r);
    m.Call(PostOk);
    m.Pause(a, r);
    SameSettled(first, plans, j, m.s.job.value, c);
  }

  // A call before the read-back fails: the operation ends.
  ghost method GiveUp(m: Machine, a: AppId, r: ReleaseId)
    requires m.Valid() && Placed(m.s) && (Loading(m.s, a, r, Planning) || Loading(m.s, a, r, Ready))
    modifies m
    ensures m.Valid() && Placed(m.s) && a !in m.s.ops && m.s.apps == old(m.s.apps) && old(m.past) <= m.past
    ensures ActsOf(m.s, a) == ActsOf(old(m.s), a)
  {
    hide Next, Enabled, Init, Relies, Ours, Placed, Inv;
    ErrorStep(m.s, a, r);
    m.Call(JobError);
  }

  // The mutex is waited for and taken, and the deployments are read.
  ghost method TakeLock(m: Machine, a: AppId, r: ReleaseId, c: Calls, releases: State -> seq<Event>) returns (first: State)
    requires m.Valid() && Placed(m.s) && Ours(m.s, a, r, Activated) && !Holds(m.s, a) && a in m.s.history
    requires Scheduled(m.others, releases, a)
    modifies m
    ensures m.Valid() && Placed(m.s) && Loading(m.s, a, r, Planning) && a in m.s.history
    ensures m.s.apps == old(m.s.apps) == first.apps && old(m.past) <= m.past && a in m.s.apps
    ensures a in first.history && first.history[a] != [] && first.history[a][|first.history[a]| - 1] == r
    ensures Grows(first, m.s) && PlannedBy(m.start, m.past, first, map[], a) && SettledAll(first, map[], m.s.job.value, c)
    ensures ActsOf(m.s, a) == ActsOf(old(m.s), a)
  {
    hide Next, Enabled, Init, Relies, Ours, Placed, Inv, SettledAll, Scheduled, Releases, Grows, PlannedBy;
    Schedule(m.others, releases, a);
    FreesLock(m.others, releases, a, m.s);
    m.Acquire(a, releases);
    ReliesKeeps(old(m.s), m.s, a, r, Activated);
    MachineInv(m.start, m.past);
    LockSettles(m.s, a, r, c);
    LockStep(m.s, a, r);
    first := m.s;
    ghost var past := m.past;
    m.Call(Lock(Switch(a)));
    JustLocked(m.start, past, m.past, first, a);
    ghost var u := m.s;
    past := m.past;
    m.Pause(a, r);
    GrowsThen(first, u, m.s);
    StillPlanned(m.start, past, m.past, first, map[], a);
  }

  /** Reconcile on behalf of this operation: whatever the others do, it either leaves the
    * operation routed or ends it. If every call works it fails iff what is live at the
    * read-back, the state seen, is not what was loaded. The load routes every application with
    * an open activation and a domain to what its containers give, in the state in which they are
    * listed, and skips it iff they give nothing; then no route of it is live any more, not even
    * the one it had. */
  ghost method Reconcile(m: Machine, a: AppId, r: ReleaseId, c: Calls, releases: State -> seq<Event>)
    returns (error: Option<SwitchError>, first: State, plans: map<AppId, State>, seen: State)
    requires m.Valid() && Placed(m.s) && Ours(m.s, a, r, Activated) && !Holds(m.s, a) && a in m.s.history
    requires Scheduled(m.others, releases, a)
    modifies m
    ensures m.Valid() && Placed(m.s) && m.s.apps == old(m.s.apps) && a in m.s.apps && old(m.past) <= m.past
    ensures if error.None? then Ours(m.s, a, r, Routed) else a !in m.s.ops
    ensures error.None? || error == Some(ReconcileFailed) || error == Some(Skipped)
    ensures !Works(c) ==> error == Some(ReconcileFailed)
    ensures Works(c) ==>
      && ReadsBack(m.start, m.past, seen, c.readable) && Loading(seen, a, r, Posted) && seen.apps == m.s.apps
      && PlannedBy(m.start, m.past, first, plans, a) && Outcome(error, first, plans, seen, a, r, c)
    ensures ActsOf(m.s, a) == ActsOf(old(m.s), a)
  {
    hide Next, Enabled, Init, Relies, Ours, Placed, Inv, SkipsOk, SettledAll, Serving, Outcome, Scheduled, Releases, PlannedBy, Grows;
    Schedule(m.others, releases, a);
    first := TakeLock(m, a, r, c, releases);
    plans, seen := map[], first;
    if !c.deployments {
      GiveUp(m, a, r);
      return Some(ReconcileFailed), first, plans, seen;
    }
    plans := PlanAll(m, a, r, c, first);
    if !c.builds {
      GiveUp(m, a, r);
      return Some(ReconcileFailed), first, plans, seen;
    }
    if !c.posts {
      BuildStep(m.s, a, r);
      m.Call(Build);
      m.Pause(a, r);
      GiveUp(m, a, r);
      return Some(ReconcileFailed), first, plans, seen;
    }
    ghost var past := m.past;
    Post(m, a, r, c, first, plans);
    seen := m.s;
    assert Leads(m.start, m.past, seen);
    error := ReadBackNow(m, a, r, c, first, plans);
    StillPlanned(m.start, past, m.past, first, plans, a);
    assert ReadsBack(m.start, m.past, seen, c.readable);
  }

  ghost method ReadBackNow(m: Machine, a: AppId, r: ReleaseId, c: Calls, first: State, plans: map<AppId, State>)
    returns (error: Option<SwitchError>)
    requires m.Valid() && Placed(m.s) && Loading(m.s, a, r, Posted) && m.s.job.value.pending == {}
    requires first.apps == m.s.apps && SettledAll(first, plans, m.s.job.value, c)
    requires a in first.history && first.history[a] != [] && first.history[a][|first.history[a]| - 1] == r
    modifies m
    ensures m.Valid() && Placed(m.s) && m.s.apps == old(m.s.apps) && m.past == old(m.past) + [ReadBack(c.readable)]
    ensures if error.None? then Ours(m.s, a, r, Routed) else a !in m.s.ops
    ensures error.None? || error == Some(ReconcileFailed) || error == Some(Skipped)
    ensures Outcome(error, first, plans, old(m.s), a, r, c)
    ensures ActsOf(m.s, a) == ActsOf(old(m.s), a)
  {
    hide Next, Enabled, Init, Relies, Ours, Placed, Inv, SkipsOk, SettledAll, Serving, Grows;
    MachineInv(m.start, m.past);
    MachineSkips(m.start, m.past);
    PostedServes(m.s, a, r);
    ReadBackStep(m.s, a, r, c.readable);
    error := if !Landed(c, m.s) then Some(ReconcileFailed) else if a in m.s.job.value.skipped then Some(Skipped) else None;
    m.Call(ReadBack(c.readable));
  }

  lemma FreesLock(others: State -> seq<Event>, releases: State -> seq<Event>, a: AppId, t: State)
    requires Scheduled(others, releases, a) && !Holds(t, a)
    ensures Releases(t, a, releases(t))
  {
  }

  // ---- drainStale ----

  function StaleReleases(cs: seq<Container>, active: ReleaseId): seq<ReleaseId> {
    if cs == [] then []
    else
      var rest, r := StaleReleases(cs[1..], active), cs[0].release;
      if r == active || r == "" || r in rest then rest else [r] + rest
  }

  // The releases on the host but the active one, each once, in order.
  function StaleList(cs: seq<Container>, active: ReleaseId): seq<ReleaseId> {
    SortStrings(StaleReleases(cs, active))
  }

  lemma {:induction false} StaleReleasesAre(cs: seq<Container>, active: ReleaseId)
    ensures StaleOn(cs, active, StaleReleases(cs, active)) && Distinct(StaleReleases(cs, active))
  {
    if cs != [] {
      StaleReleasesAre(cs[1..], active);
      assert cs == [cs[0]] + cs[1..];
      StaleMore(cs[0], cs[1..], active, StaleReleases(cs[1..], active), StaleReleases(cs, active));
    }
  }

  /** The stop list is exactly the releases on the host other than the active one, each once
    * and sorted. */
  lemma StaleListIs(cs: seq<Container>, active: ReleaseId)
    ensures StaleOn(cs, active, StaleList(cs, active))
    ensures Distinct(StaleList(cs, active)) && SortedStrings(StaleList(cs, active))
  {
    hide SortStrings, StaleReleases;
    StaleReleasesAre(cs, active);
    SortKeepsMembers(StaleReleases(cs, active));
    SortStringsSorts(StaleReleases(cs, active));
  }

  lemma StaleMore(c: Container, cs: seq<Container>, active: ReleaseId, rest: seq<ReleaseId>, all: seq<ReleaseId>)
    requires StaleOn(cs, active, rest)
    requires all == if c.release == active || c.release == "" || c.release in rest then rest else [c.release] + rest
    ensures StaleOn([c] + cs, active, all)
  {
    var more := [c] + cs;
    assert c in more && forall d :: d in cs ==> d in more;
    forall r ensures r in all <==> r != active && r != "" && exists d :: d in more && d.release == r {
      if r == c.release { assert c in more && c.release == r; }
      if exists d :: d in cs && d.release == r {
        var d :| d in cs && d.release == r;
        assert d in more;
      }
    }
  }

  // The ids of a release's containers.
  function IdsOf(cs: seq<Container>, r: ReleaseId): set<nat> {
    set c | c in cs && c.release == r :: c.id
  }

  lemma ListStep(s: State, a: AppId, r: ReleaseId)
    requires Placed(s) && a in s.host && Ours(s, a, r, Routed)
    ensures var e := ListStale(a, StaleList(s.host[a], r));
      && Enabled(s, e) && Placed(Next(s, e))
      && Next(s, e).apps == s.apps && r !in e.stale
      && if e.stale == [] then a !in Next(s, e).ops else Ours(Next(s, e), a, r, Draining(e.stale))
  {
    StaleListIs(s.host[a], r);
    hide StaleList;
  }

  lemma StopStep(s: State, a: AppId, r: ReleaseId, stale: seq<ReleaseId>, ids: set<nat>)
    requires Placed(s) && a in s.host && Ours(s, a, r, Draining(stale)) && stale != [] && ids <= IdsOf(s.host[a], stale[0])
    ensures var e := DrainStop(a, ids);
      && Enabled(s, e) && Placed(Next(s, e)) && Ours(Next(s, e), a, r, Draining(stale[1..])) && Next(s, e).apps == s.apps
  {
    assert forall id :: id in ids ==> id in IdsOf(s.host[a], stale[0]);
    hide StopContainers;
  }

  lemma EndStep(s: State, a: AppId, r: ReleaseId, p: Phase)
    requires Placed(s) && Ours(s, a, r, p) && p != Reconciling
    ensures Enabled(s, Abort(a)) && Placed(Next(s, Abort(a))) && a !in Next(s, Abort(a)).ops
    ensures Next(s, Abort(a)).history == s.history && Next(s, Abort(a)).apps == s.apps
    ensures p == Draining([]) ==> Enabled(s, DrainDone(a)) && Placed(Next(s, DrainDone(a))) && a !in Next(s, DrainDone(a)).ops
  {
  }

  // The activations after switching to r: r is not repeated.
  function SwitchedTo(acts: seq<ReleaseId>, r: ReleaseId): seq<ReleaseId> {
    if acts != [] && acts[|acts| - 1] == r then acts else acts + [r]
  }

  lemma ActivateNow(s: State, a: AppId, r: ReleaseId)
    requires Placed(s) && a in s.apps && Ours(s, a, r, Starting) && !Holds(s, a)
    ensures Enabled(s, Activate(a)) && Placed(Next(s, Activate(a))) && Ours(Next(s, Activate(a)), a, r, Activated)
    ensures !Holds(Next(s, Activate(a)), a) && Next(s, Activate(a)).apps == s.apps
    ensures a in s.history && a in Next(s, Activate(a)).history
    ensures ActsOf(Next(s, Activate(a)), a) == SwitchedTo(ActsOf(s, a), r)
  {
  }

  // No load is this operation's while it is not reconciling.
  lemma NotHolding(s: State, a: AppId, r: ReleaseId, p: Phase)
    requires Inv(s) && Ours(s, a, r, p) && p != Reconciling
    ensures !Holds(s, a)
  {
    hide HostOk, DrainedStopped, LoadsOk, Undrained, TableOk, TopOk, JobOk;
  }

  lemma HasHost(s: State, a: AppId)
    requires Placed(s) && a in s.apps
    ensures a in s.host && a in s.history
  {
  }

  // The release is active, and the last load that routed the application routed it.
  predicate LastRouted(s: State, a: AppId, r: ReleaseId) {
    && a in s.apps && a in s.history && s.history[a] != [] && s.history[a][|s.history[a]| - 1] == r
    && (s.apps[a].domain != "" ==> a in s.top && s.top[a] == |s.history[a]| - 1)
  }

  lemma SwitchedRouted(s: State, a: AppId, r: ReleaseId, p: Phase)
    requires Inv(s) && Ours(s, a, r, p) && Switched(p)
    ensures LastRouted(s, a, r)
  {
    hide HostOk, DrainedStopped, LoadsOk, Undrained, TableOk, TopOk, JobInv;
  }

  lemma EndKeepsRouted(s: State, a: AppId, r: ReleaseId, e: Event)
    requires LastRouted(s, a, r) && Enabled(s, e)
    requires e == Abort(a) || e == DrainDone(a) || (e.ListStale? && e.app == a)
    ensures LastRouted(Next(s, e), a, r)
  {
    hide StaleOn;
  }

  // The stop list is read from the host before the window; the releases stopped are that list.
  predicate Drained(d: Drain, a: AppId, r: ReleaseId, c: Calls) {
    && (if c.hostListed then a in d.at.host && Ours(d.at, a, r, Routed) && d.listed == StaleList(d.at.host[a], r) else d.listed == [])
    && d.stopped == (if c.sleeps then d.listed else []) && r !in d.listed
  }

  // Before and after a stop of this release: the ids stopped are those of its containers, all of
  // them or, if the call fails, the ones it reaches; those are drained, and no longer run.
  ghost predicate Stops(t: State, u: State, ids: set<nat>, a: AppId, q: ReleaseId, c: Calls) {
    && a in t.host && a in u.host
    && (forall id :: id in ids <==> (exists x :: x in t.host[a] && x.release == q && x.id == id) && (c.stops(q) || id in c.reaches(q)))
    && ids <= u.drained
    && (forall x :: x in u.host[a] && x.id in ids ==> !x.running)
    && (c.stops(q) ==> forall x :: x in u.host[a] && x.release == q ==> !x.running)
  }

  // The call at place k of the run is that stop.
  ghost predicate StoppedAt(start: State, past: seq<Event>, k: nat, a: AppId, q: ReleaseId, c: Calls) {
    exists t, u, ids :: k < |past| && past[k] == DrainStop(a, ids)
      && Leads(start, past[..k], t) && Leads(start, past[..k + 1], u) && Stops(t, u, ids, a, q, c)
  }

  // The host is listed in the state at, at place k of the run, and every stop comes after.
  ghost predicate ListedFirst(start: State, past: seq<Event>, at: State, k: nat, a: AppId, listed: seq<ReleaseId>, stops: seq<nat>) {
    && k < |past| && past[k] == ListStale(a, listed) && Leads(start, past[..k], at)
    && forall i :: 0 <= i < |stops| ==> k < stops[i]
  }

  lemma StillFirst(start: State, past: seq<Event>, more: seq<Event>, at: State, k: nat, a: AppId, listed: seq<ReleaseId>, stops: seq<nat>)
    requires past <= more && ListedFirst(start, past, at, k, a, listed, [])
    requires forall i :: 0 <= i < |stops| ==> |past| <= stops[i]
    ensures ListedFirst(start, more, at, k, a, listed, stops)
  {
    assert more[..k] == past[..k] && more[k] == past[k];
  }

  lemma JustListed(start: State, past: seq<Event>, more: seq<Event>, at: State, a: AppId, listed: seq<ReleaseId>)
    requires Runs(start, past) && After(start, past) == at && more == past + [ListStale(a, listed)]
    ensures ListedFirst(start, more, at, |past|, a, listed, [])
  {
    assert more[..|past|] == past;
    assert Leads(start, past, at);
  }

  // Each of these releases is stopped, one after the other.
  ghost predicate StopsInOrder(start: State, past: seq<Event>, ks: seq<nat>, a: AppId, qs: seq<ReleaseId>, c: Calls) {
    && |ks| == |qs|
    && (forall i :: 0 <= i < |ks| ==> ks[i] < |past| && StoppedAt(start, past, ks[i], a, qs[i], c))
    && (forall i, j :: 0 <= i < j < |ks| ==> ks[i] < ks[j])
  }

  lemma StillStopped(start: State, past: seq<Event>, more: seq<Event>, ks: seq<nat>, a: AppId, qs: seq<ReleaseId>, c: Calls)
    requires past <= more && StopsInOrder(start, past, ks, a, qs, c)
    ensures StopsInOrder(start, more, ks, a, qs, c)
  {
    hide Stops, Leads;
    forall i | 0 <= i < |ks| ensures StoppedAt(start, more, ks[i], a, qs[i], c) {
      assert StoppedAt(start, past, ks[i], a, qs[i], c);
      assert more[..ks[i]] == past[..ks[i]] && more[..ks[i] + 1] == past[..ks[i] + 1] && more[ks[i]] == past[ks[i]];
    }
  }

  lemma OneMoreStop(start: State, past: seq<Event>, ks: seq<nat>, a: AppId, qs: seq<ReleaseId>, q: ReleaseId, c: Calls, ids: set<nat>)
    requires StopsInOrder(start, past, ks, a, qs, c)
    requires Runs(start, past) && Runs(start, past + [DrainStop(a, ids)])
    requires Stops(After(start, past), After(start, past + [DrainStop(a, ids)]), ids, a, q, c)
    ensures StopsInOrder(start, past + [DrainStop(a, ids)], ks + [|past|], a, qs + [q], c)
  {
    hide Stops, Runs, After;
    var more := past + [DrainStop(a, ids)];
    StillStopped(start, past, more, ks, a, qs, c);
    assert more[..|past|] == past && more[..|past| + 1] == more;
    assert Leads(start, more[..|past|], After(start, past)) && Leads(start, more[..|past| + 1], After(start, more));
    assert StoppedAt(start, more, |past|, a, q, c);
    hide StoppedAt;
  }

  // What a stop does to the host.
  lemma StopDoes(t: State, a: AppId, r: ReleaseId, stale: seq<ReleaseId>, ids: set<nat>, c: Calls)
    requires a in t.host && Ours(t, a, r, Draining(stale)) && stale != []
    requires ids == if c.stops(stale[0]) then IdsOf(t.host[a], stale[0]) else c.reaches(stale[0]) * IdsOf(t.host[a], stale[0])
    ensures Stops(t, NextDrainStop(t, a, ids), ids, a, stale[0], c)
  {
    hide StopContainers;
    var cs := StopContainers(t.host[a], ids);
    forall x | x in cs ensures (x.id in ids ==> !x.running) && (c.stops(stale[0]) && x.release == stale[0] ==> !x.running) {
      StoppedIn(t.host[a], ids, x);
    }
    forall id ensures id in ids <==>
      (exists x :: x in t.host[a] && x.release == stale[0] && x.id == id) && (c.stops(stale[0]) || id in c.reaches(stale[0]))
    {
      IdIn(t.host[a], stale[0], id);
    }
  }

  lemma IdIn(cs: seq<Container>, q: ReleaseId, id: nat)
    ensures id in IdsOf(cs, q) <==> exists x :: x in cs && x.release == q && x.id == id
  {
  }

  /** drainStale: the list of stale releases is read from the host before the window, and the
    * releases stopped, in its order, are those of that list and no others, all of them unless
    * the window is cut short; one that cannot be stopped does not keep the others. It fails iff
    * the host could not be listed, the window was cut short or a release did not stop. The
    * release switched to is still the last one routed. */
  ghost method DrainStale(m: Machine, a: AppId, r: ReleaseId, c: Calls)
    returns (error: Option<SwitchError>, d: Drain)
    requires m.Valid() && Placed(m.s) && Ours(m.s, a, r, Routed) && a in m.s.apps
    requires forall t: State :: ForeignRun(t, a, m.others(t))
    modifies m
    ensures m.Valid() && Placed(m.s) && a !in m.s.ops && LastRouted(m.s, a, r)
    ensures old(m.past) <= m.past && m.s.apps == old(m.s.apps)
    ensures Passed(m.start, m.past, d.at) && Drained(d, a, r, c)
    ensures StopsInOrder(m.start, m.past, d.stops, a, d.stopped, c)
    ensures c.hostListed ==> exists k :: ListedFirst(m.start, m.past, d.at, k, a, d.listed, d.stops)
    ensures error == if Drains(c, d.listed) then None else Some(DrainFailed)
  {
    hide Next, Enabled, Init, Relies, Ours, Placed, Inv, StaleList, IdsOf, LastRouted, Leads, StopsInOrder, ListedFirst;
    m.Turn(a, r, Routed);
    HasHost(m.s, a);
    MachineInv(m.start, m.past);
    SwitchedRouted(m.s, a, r, Routed);
    var at, listed, stopped, stops := m.s, [], [], [];
    ghost var past := m.past;
    assert Passed(m.start, past, at) by { PassedNow(m.start, past); }
    if c.hostListed {
      listed := StaleList(m.s.host[a], r);
      ListStep(m.s, a, r);
      EndKeepsRouted(m.s, a, r, ListStale(a, listed));
      ghost var k := |m.past|;
      m.Call(ListStale(a, listed));
      JustListed(m.start, past, m.past, at, a, listed);
      ghost var then_ := m.past;
      if listed == [] {
        error := None;
      } else {
        error, stops := Window(m, a, r, c, listed);
        if c.sleeps { stopped := listed; }
      }
      StillFirst(m.start, then_, m.past, at, k, a, listed, stops);
    } else {
      error := BreakOff(m, a, r, Routed);
    }
    if stopped == [] { NoStops(m.start, m.past, a, c); }
    d := Drain(at, listed, stopped, stops);
    StillListed(m.start, past, m.past, at, a);
  }

  lemma NoStops(start: State, past: seq<Event>, a: AppId, c: Calls)
    ensures StopsInOrder(start, past, [], a, [], c)
  {
  }

  lemma PassedNow(start: State, past: seq<Event>)
    requires Runs(start, past)
    ensures Passed(start, past, After(start, past))
  {
    assert Leads(start, past, After(start, past));
  }

  // The drain ends early; the load has been routed.
  ghost method BreakOff(m: Machine, a: AppId, r: ReleaseId, p: Phase) returns (error: Option<SwitchError>)
    requires m.Valid() && Placed(m.s) && Ours(m.s, a, r, p) && Switched(p) && a in m.s.apps
    modifies m
    ensures m.Valid() && Placed(m.s) && a !in m.s.ops && LastRouted(m.s, a, r)
    ensures old(m.past) <= m.past && m.s.apps == old(m.s.apps)
    ensures error == Some(DrainFailed)
  {
    hide Next, Enabled, Init, Relies, Ours, Placed, Inv, LastRouted;
    MachineInv(m.start, m.past);
    SwitchedRouted(m.s, a, r, p);
    EndStep(m.s, a, r, p);
    EndKeepsRouted(m.s, a, r, Abort(a));
    m.Call(Abort(a));
    error := Some(DrainFailed);
  }

  // The window, and what comes after it.
  ghost method Window(m: Machine, a: AppId, r: ReleaseId, c: Calls, listed: seq<ReleaseId>)
    returns (error: Option<SwitchError>, stops: seq<nat>)
    requires m.Valid() && Placed(m.s) && Ours(m.s, a, r, Draining(listed)) && a in m.s.apps
    requires forall t: State :: ForeignRun(t, a, m.others(t))
    modifies m
    ensures m.Valid() && Placed(m.s) && a !in m.s.ops && LastRouted(m.s, a, r)
    ensures old(m.past) <= m.past && m.s.apps == old(m.s.apps)
    ensures error == if c.sleeps && forall q :: q in listed ==> c.stops(q) then None else Some(DrainFailed)
    ensures StopsInOrder(m.start, m.past, stops, a, if c.sleeps then listed else [], c)
    ensures forall i :: 0 <= i < |stops| ==> |old(m.past)| <= stops[i]
  {
    hide Init, Ours, Placed, Inv, LastRouted, StopsInOrder;
    m.Turn(a, r, Draining(listed));
    if c.sleeps {
      error, stops := StopAll(m, a, r, c, listed);
    } else {
      error := BreakOff(m, a, r, Draining(listed));
      stops := [];
      NoStops(m.start, m.past, a, c);
    }
  }

  // The window is over: the listed releases are stopped in order, whether or not each one stops.
  ghost method StopAll(m: Machine, a: AppId, r: ReleaseId, c: Calls, listed: seq<ReleaseId>)
    returns (error: Option<SwitchError>, stops: seq<nat>)
    requires m.Valid() && Placed(m.s) && Ours(m.s, a, r, Draining(listed)) && a in m.s.apps
    requires forall t: State :: ForeignRun(t, a, m.others(t))
    modifies m
    ensures m.Valid() && Placed(m.s) && a !in m.s.ops && LastRouted(m.s, a, r)
    ensures old(m.past) <= m.past && m.s.apps == old(m.s.apps)
    ensures error == if forall q :: q in listed ==> c.stops(q) then None else Some(DrainFailed)
    ensures StopsInOrder(m.start, m.past, stops, a, listed, c) && forall i :: 0 <= i < |stops| ==> |old(m.past)| <= stops[i]
  {
    hide Next, Enabled, Init, Relies, Ours, Placed, Inv, StaleList, IdsOf, LastRouted, StopsInOrder, Stops;
    error, stops := None, [];
    NoStops(m.start, m.past, a, c);
    var stopped: seq<ReleaseId>, stale := [], listed;
    assert [] + listed == listed;
    while stale != []
      invariant m.Valid() && Placed(m.s) && a in m.s.apps && Ours(m.s, a, r, Draining(stale))
      invariant old(m.past) <= m.past && m.s.apps == old(m.s.apps)
      invariant stopped + stale == listed
      invariant error == if forall q :: q in stopped ==> c.stops(q) then None else Some(DrainFailed)
      invariant StopsInOrder(m.start, m.past, stops, a, stopped, c) && forall i :: 0 <= i < |stops| ==> |old(m.past)| <= stops[i]
      decreases |stale|
    {
      var q := stale[0];
      ghost var k := |m.past|;
      var ok := StopOne(m, a, r, c, stale, stops, stopped);
      if !ok { error := Some(DrainFailed); }
      assert stopped + stale == stopped + [q] + stale[1..];
      assert forall p :: p in stopped + [q] <==> p in stopped || p == q;
      stops, stopped, stale := stops + [k], stopped + [q], stale[1..];
    }
    assert stopped + [] == stopped;
    ghost var past := m.past;
    Finish(m, a, r);
    StillStopped(m.start, past, m.past, stops, a, stopped, c);
  }

  ghost method Finish(m: Machine, a: AppId, r: ReleaseId)
    requires m.Valid() && Placed(m.s) && Ours(m.s, a, r, Draining([]))
    modifies m
    ensures m.Valid() && Placed(m.s) && a !in m.s.ops && LastRouted(m.s, a, r)
    ensures old(m.past) <= m.past && m.s.apps == old(m.s.apps)
  {
    hide Next, Enabled, Init, Ours, Placed, Inv, LastRouted;
    MachineInv(m.start, m.past);
    SwitchedRouted(m.s, a, r, Draining([]));
    EndStep(m.s, a, r, Draining([]));
    EndKeepsRouted(m.s, a, r, DrainDone(a));
    m.Call(DrainDone(a));
  }

  // The next release of the list is stopped; then the others may go on.
  ghost method StopOne(m: Machine, a: AppId, r: ReleaseId, c: Calls, stale: seq<ReleaseId>, stops: seq<nat>, stopped: seq<ReleaseId>)
    returns (ok: bool)
    requires m.Valid() && Placed(m.s) && Ours(m.s, a, r, Draining(stale)) && stale != [] && a in m.s.apps
    requires StopsInOrder(m.start, m.past, stops, a, stopped, c)
    requires forall t: State :: ForeignRun(t, a, m.others(t))
    modifies m
    ensures m.Valid() && Placed(m.s) && Ours(m.s, a, r, Draining(stale[1..])) && m.s.apps == old(m.s.apps)
    ensures old(m.past) <= m.past
    ensures ok <==> c.stops(stale[0])
    ensures StopsInOrder(m.start, m.past, stops + [|old(m.past)|], a, stopped + [stale[0]], c)
  {
    hide Next, Enabled, Init, Ours, Placed, IdsOf, StopsInOrder, Stops, Runs, After;
    HasHost(m.s, a);
    var q := stale[0];
    var all := IdsOf(m.s.host[a], q);
    var ids := if c.stops(q) then all else c.reaches(q) * all;
    StopStep(m.s, a, r, stale, ids);
    StopDoes(m.s, a, r, stale, ids, c);
    m.Call(DrainStop(a, ids));
    StopNext(old(m.s), a, ids);
    OneMoreStop(m.start, old(m.past), stops, a, stopped, q, c, ids);
    ghost var past := m.past;
    m.Turn(a, r, Draining(stale[1..]));
    StillStopped(m.start, past, m.past, stops + [|old(m.past)|], a, stopped + [q], c);
    ok := c.stops(q);
  }

  lemma StopNext(t: State, a: AppId, ids: set<nat>)
    requires Enabled(t, DrainStop(a, ids))
    ensures Next(t, DrainStop(a, ids)) == NextDrainStop(t, a, ids)
  {
  }

  // The gate and SetActiveRelease: the release is activated, or the operation has ended.
  ghost method GateAndActivate(m: Machine, a: AppId, r: ReleaseId, go: bool)
    requires m.Valid() && Placed(m.s) && Ours(m.s, a, r, Starting) && a in m.s.apps
    requires forall t: State :: ForeignRun(t, a, m.others(t))
    modifies m
    ensures m.Valid() && Placed(m.s) && m.s.apps == old(m.s.apps) && old(m.past) <= m.past
    ensures go ==> Ours(m.s, a, r, Activated) && !Holds(m.s, a) && a in m.s.history
    ensures !go ==> a !in m.s.ops
    ensures ActsOf(m.s, a) == if go then SwitchedTo(ActsOf(old(m.s), a), r) else ActsOf(old(m.s), a)
  {
    hide Next, Enabled, Init, Relies, Ours, Placed, Inv;
    HasHost(m.s, a);
    m.Turn(a, r, Starting);
    if go {
      MachineInv(m.start, m.past);
      NotHolding(m.s, a, r, Starting);
      ActivateNow(m.s, a, r);
      m.Call(Activate(a));
    } else {
      EndStep(m.s, a, r, Starting);
      m.Call(Abort(a));
    }
  }

  /** switchTraffic, whatever everyone else does between its calls: each call is a step the
    * machine allows there, so everything proved of the machine's runs holds of it. A failed
    * gate or activation leaves the activation history as it was, a failed load leaves the release
    * activated; nothing is stopped unless the load put this application's routes live; then the
    * release switched to is active, is the last one any load has routed, and is never among the
    * stopped. skipped are the applications that load skipped: if there are any the answer is a
    * SkippedError, joined with the drain's error if there is one. */
  ghost method SwitchTraffic(m: Machine, a: AppId, r: ReleaseId, c: Calls, releases: State -> seq<Event>)
    returns (error: Option<SwitchError>, skipped: set<AppId>, d: Drain, first: State, plans: map<AppId, State>, seen: State)
    requires m.Valid() && Placed(m.s) && Ours(m.s, a, r, Starting) && a in m.s.apps
    requires Scheduled(m.others, releases, a)
    modifies m
    ensures m.Valid() && a !in m.s.ops && a in m.s.apps
    ensures error == Some(GateFailed) <==> !c.gate
    ensures error == Some(NotActivated) <==> c.gate && !c.activates
    ensures c.gate && c.activates && !Works(c) ==> error == Some(ReconcileFailed)
    ensures c.gate && c.activates && Works(c) ==>
      && ReadsBack(m.start, m.past, seen, c.readable) && Loading(seen, a, r, Posted) && seen.apps == m.s.apps
      && PlannedBy(m.start, m.past, first, plans, a)
      && Outcome(if error == Some(DrainFailed) then None else error, first, plans, seen, a, r, c)
    ensures error in {Some(GateFailed), Some(NotActivated)} ==> ActsOf(m.s, a) == ActsOf(old(m.s), a)
    ensures error in {Some(ReconcileFailed), Some(Skipped)} ==> ActsOf(m.s, a) == SwitchedTo(ActsOf(old(m.s), a), r)
    ensures error !in {None, Some(DrainFailed)} ==> d.stopped == []
    ensures error in {None, Some(DrainFailed)} ==>
      && LastRouted(m.s, a, r) && Passed(m.start, m.past, d.at) && Drained(d, a, r, c) && r !in d.stopped
      && StopsInOrder(m.start, m.past, d.stops, a, d.stopped, c)
      && (c.hostListed ==> exists k :: ListedFirst(m.start, m.past, d.at, k, a, d.listed, d.stops))
      && (error == None <==> Drains(c, d.listed))
    ensures error in {None, Some(DrainFailed), Some(Skipped)} ==> seen.job.Some? && skipped == seen.job.value.skipped
    ensures error !in {None, Some(DrainFailed), Some(Skipped)} ==> skipped == {}
  {
    hide Next, Enabled, Init, Relies, Ours, Placed, Inv, Scheduled, LastRouted, StaleList, Outcome, PlannedBy, Passed, Drains, ReadsBack, StopsInOrder, ListedFirst;
    Schedule(m.others, releases, a);
    first, plans, seen, d := m.s, map[], m.s, Drain(m.s, [], [], []);
    GateAndActivate(m, a, r, c.gate && c.activates);
    if !c.gate || !c.activates {
      return Some(if !c.gate then GateFailed else NotActivated), {}, d, first, plans, seen;
    }
    error, first, plans, seen := Reconcile(m, a, r, c, releases);
    if Works(c) { OutcomeSkips(error, first, plans, seen, a, r, c); }
    skipped := if error in {None, Some(Skipped)} then seen.job.value.skipped else {};
    if error.Some? { return error, skipped, d, first, plans, seen; }
    ghost var before := m.past;
    error, d := DrainStale(m, a, r, c);
    StillPlanned(m.start, before, m.past, first, plans, a);
    StillListed(m.start, before, m.past, seen, a);
  }

  lemma OutcomeSkips(error: Option<SwitchError>, first: State, plans: map<AppId, State>, seen: State, a: AppId, r: ReleaseId, c: Calls)
    requires Outcome(error, first, plans, seen, a, r, c)
    ensures seen.job.Some?
  {
    hide SettledAll, Serving;
  }

  lemma StillListed(start: State, past: seq<Event>, more: seq<Event>, t: State, a: AppId)
    requires past <= more
    ensures Lists(start, past, t, a) ==> Lists(start, more, t, a)
    ensures Passed(start, past, t) ==> Passed(start, more, t)
    ensures forall readable :: ReadsBack(start, past, t, readable) ==> ReadsBack(start, more, t, readable)
  {
    hide Leads;
    if Lists(start, past, t, a) {
      var es :| ListedAfter(past, es, a) && Leads(start, es, t);
      assert ListedAfter(more, es, a);
    }
  }

  lemma Schedule(others: State -> seq<Event>, releases: State -> seq<Event>, a: AppId)
    requires Scheduled(others, releases, a)
    ensures forall t: State :: ForeignRun(t, a, others(t))
  {
  }
}
