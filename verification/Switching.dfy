/** The traffic-switching core as a transition system: internal/deploy/rollout.go and
  * internal/deploy/reconcile.go run against the activation history, the host's containers
  * and the live proxy, all of which other actors change at the same time.
  *
  * An event is one call the code makes, or one change from outside. A load is the steps the
  * reconciler's mutex holds together: read the deployments, list each application's
  * containers, post, read back; everything else may happen in between. */
module Switching {
  import opened Wrappers
  import opened ProxyConfig
  import opened Routing

  // ---- State ----

  // Domain, port and replica count are fixed while the machine runs; domains are unique.
  datatype App = App(domain: Host, port: nat, replicas: nat)

  // A container is known by its id; the address it shows is its own, unusable, or none yet.
  datatype Container = Container(id: nat, release: ReleaseId, index: nat, running: bool, shown: Option<IpText>)

  // Where a deploy or rollback of one application stands.
  datatype Phase =
    | Starting                           // creating and starting replicas, waiting at the gate
    | Activated                          // SetActiveRelease done
    | Reconciling                        // inside Reconcile, holding the mutex
    | Routed                             // Reconcile succeeded and did not skip this application
    | Draining(stale: seq<ReleaseId>)    // the stop list is fixed, the window has begun

  datatype Op = Op(release: ReleaseId, phase: Phase)

  datatype Actor = Switch(app: AppId) | Healer | Watcher | Startup

  datatype Stage = Planning | Ready | Posted

  // Upstreams on their way to the proxy or in it; pos is the position in the activation
  // history of the release they were planned for. No step branches on pos.
  datatype Served = Served(pos: nat, ups: seq<Dial>)

  type Table = map<AppId, Served>

  // The load holding the mutex: the open history positions it read, the applications not yet
  // listed, and the plan so far.
  datatype Job = Job(actor: Actor, stage: Stage, deps: map<AppId, nat>, pending: set<AppId>,
                     routes: Table, skipped: set<AppId>)

  type History = map<AppId, seq<ReleaseId>>
  type Hosts = map<AppId, seq<Container>>
  // Which application and release a container was created for.
  type Origins = map<nat, (AppId, ReleaseId)>

  datatype State = State(
    apps: map<AppId, App>,
    host: Hosts,
    history: History,             // every activation, oldest first; the last one is active
    live: Table,     // the proxy's routes; a domain stands for its application
    ops: map<AppId, Op>,          // at most one deploy or rollback per application
    heal: Option<(AppId, ReleaseId)>,
    job: Option<Job>,
    // History variables: no step branches on them.
    origin: Origins, nextId: nat,
    drained: set<nat>,            // stopped by drainStale and not started since
    top: map<AppId, nat>,         // the position in the last load that routed the application
    loads: seq<map<AppId, nat>>)  // the positions of every load that reached the proxy

  // ---- Events ----

  datatype Event =
    | Begin(app: AppId, release: ReleaseId)
    | Create(app: AppId, release: ReleaseId, index: nat)
    | Start(app: AppId, k: nat, shown: Option<IpText>)
    | StopSurplus(app: AppId, k: nat)
    | Activate(app: AppId)
    | Abort(app: AppId)
    | HealBegin(app: AppId)
    | HealEnd
    | Lock(actor: Actor)
    | PlanApp(app: AppId, listing: Option<seq<Replica>>)
    | Build
    | PostOk
    | JobError
    | ReadBack(readable: bool)
    | ListStale(app: AppId, stale: seq<ReleaseId>)
    | DrainStop(app: AppId, stopped: set<nat>)
    | DrainDone(app: AppId)
    | Crash(app: AppId, k: nat)
    | ProxyRestart
    | DaemonRestart

  function Listing(cs: seq<Container>): seq<Replica> {
    if cs == [] then []
    else [Replica(cs[0].release, cs[0].index, cs[0].running, cs[0].shown)] + Listing(cs[1..])
  }

  function DeploymentOf(s: State, a: AppId, pos: nat): Deployment
    requires a in s.apps && a in s.history && pos < |s.history[a]|
  {
    Deployment(a, s.history[a][pos], s.apps[a].domain, s.apps[a].port, s.apps[a].replicas)
  }

  // ensureReplicas and Run start containers of the operation's release; Heal of the healed one.
  predicate Entitled(s: State, a: AppId, r: ReleaseId) {
    (a in s.ops && s.ops[a] == Op(r, Starting)) || s.heal == Some((a, r))
  }

  predicate Locker(s: State, actor: Actor) {
    match actor
    case Switch(a) => a in s.ops && s.ops[a].phase == Activated
    case Healer => s.heal.Some?
    case Watcher => true
    case Startup => true
  }

  predicate IsContainer(s: State, a: AppId, k: nat) {
    a in s.host && k < |s.host[a]|
  }

  // The releases drainStale will stop: every one on the host but the active one.
  ghost predicate StaleOn(cs: seq<Container>, active: ReleaseId, stale: seq<ReleaseId>) {
    forall r :: r in stale <==> r != active && r != "" && exists c :: c in cs && c.release == r
  }

  // StopRelease may stop some of the release's containers and fail at another.
  ghost predicate CreatedFor(cs: seq<Container>, r: ReleaseId, ids: set<nat>) {
    forall id :: id in ids ==> exists c :: c in cs && c.id == id && c.release == r
  }

  ghost predicate Enabled(s: State, e: Event) {
    match e
    case Begin(a, r) => a in s.apps && a !in s.ops && r != ""
    case Create(a, r, _) => a in s.host && Entitled(s, a, r)
    case Start(a, k, shown) =>
      IsContainer(s, a, k) && Entitled(s, a, s.host[a][k].release)
      && (shown.Some? ==> shown.value == NotAnIp || shown.value == Ip(s.host[a][k].id))
    case StopSurplus(a, k) =>
      IsContainer(s, a, k) && a in s.apps && Entitled(s, a, s.host[a][k].release)
      && s.host[a][k].index >= s.apps[a].replicas
    case Activate(a) => a in s.ops && s.ops[a].phase == Starting && a in s.history
    case Abort(a) => a in s.ops && s.ops[a].phase != Reconciling
    case HealBegin(a) => s.heal.None? && a in s.history && s.history[a] != []
    case HealEnd => s.heal.Some?
    case Lock(actor) => s.job.None? && Locker(s, actor)
    case PlanApp(a, listing) =>
      && s.job.Some? && s.job.value.stage == Planning && a in s.job.value.pending && a in s.host
      && a in s.job.value.deps && a in s.apps && a in s.history && s.job.value.deps[a] < |s.history[a]|
      && (listing.Some? ==> multiset(listing.value) == multiset(Listing(s.host[a])))
    case Build => s.job.Some? && s.job.value.stage == Planning && s.job.value.pending == {}
    case PostOk => s.job.Some? && s.job.value.stage == Ready
    case JobError => s.job.Some? && s.job.value.stage != Posted
    case ReadBack(_) => s.job.Some? && s.job.value.stage == Posted
    case ListStale(a, stale) =>
      a in s.ops && s.ops[a].phase == Routed && a in s.host && StaleOn(s.host[a], s.ops[a].release, stale)
    case DrainStop(a, stopped) =>
      a in s.ops && s.ops[a].phase.Draining? && s.ops[a].phase.stale != [] && a in s.host
      && CreatedFor(s.host[a], s.ops[a].phase.stale[0], stopped)
    case DrainDone(a) => a in s.ops && s.ops[a].phase == Draining([])
    case Crash(a, k) => IsContainer(s, a, k)
    case ProxyRestart => true
    case DaemonRestart => true
  }

  function SetPhase(s: State, a: AppId, p: Phase): State
    requires a in s.ops
  {
    s.(ops := s.ops[a := s.ops[a].(phase := p)])
  }

  function EndOp(s: State, a: AppId): State { s.(ops := s.ops - {a}) }

  function SetContainer(s: State, a: AppId, k: nat, running: bool, shown: Option<IpText>): State
    requires IsContainer(s, a, k)
  {
    s.(host := s.host[a := s.host[a][k := s.host[a][k].(running := running, shown := shown)]])
  }

  // The owner learns whether its load succeeded; an operation that was skipped or failed ends.
  function EndedOps(ops: map<AppId, Op>, j: Job, ok: bool): map<AppId, Op> {
    match j.actor
    case Switch(a) =>
      if a !in ops then ops
      else if ok && a !in j.skipped then ops[a := ops[a].(phase := Routed)]
      else ops - {a}
    case _ => ops
  }

  function EndJob(s: State, ok: bool): State
    requires s.job.Some?
  {
    s.(job := None, ops := EndedOps(s.ops, s.job.value, ok))
  }

  function StopContainers(cs: seq<Container>, stopped: set<nat>): seq<Container> {
    if cs == [] then []
    else [if cs[0].id in stopped then cs[0].(running := false, shown := None) else cs[0]]
         + StopContainers(cs[1..], stopped)
  }

  // Repair keeps the live upstreams of the applications it had to skip.
  function Carried(live: Table, skipped: set<AppId>): Table {
    map a | a in skipped && a in live :: live[a]
  }

  function Positions(t: Table): map<AppId, nat> { map a | a in t :: t[a].pos }

  function OpenPositions(s: State): map<AppId, nat> {
    map a | a in s.history && a in s.apps && s.history[a] != [] :: |s.history[a]| - 1
  }

  function Planned(j: Job, a: AppId, res: Result<seq<Dial>, SkipReason>): Job
    requires a in j.deps
  {
    var j' := j.(pending := j.pending - {a});
    match res
    case Ok(ups) => j'.(routes := j.routes[a := Served(j.deps[a], ups)])
    case Err(_) => j'.(skipped := j.skipped + {a})
  }

  function NextActivate(s: State, a: AppId): State
    requires a in s.ops && a in s.history
  {
    var h, r := s.history[a], s.ops[a].release;
    SetPhase(s, a, Activated).(history := s.history[a := if h != [] && h[|h| - 1] == r then h else h + [r]])
  }

  function NextLock(s: State, actor: Actor): State
    requires Locker(s, actor)
  {
    var deps := OpenPositions(s);
    var j := Job(actor, Planning, deps, set a | a in deps && s.apps[a].domain != "", map[], {});
    var s' := s.(job := Some(j));
    if actor.Switch? then SetPhase(s', actor.app, Reconciling) else s'
  }

  function NextPlan(s: State, j: Job, a: AppId, listing: Option<seq<Replica>>): State
    requires a in j.deps && a in s.apps && a in s.history && j.deps[a] < |s.history[a]|
  {
    s.(job := Some(Planned(j, a, Upstreams(DeploymentOf(s, a, j.deps[a]), listing))))
  }

  // The configuration the load will post.
  function Built(live: Table, j: Job): Job {
    j.(stage := Ready, routes := if j.actor == Watcher then j.routes + Carried(live, j.skipped) else j.routes)
  }

  // Repair loads nothing when no planned host is missing from the live configuration.
  function NextBuild(s: State, j: Job): State {
    s.(job := if j.actor == Watcher && j.routes.Keys <= s.live.Keys then None else Some(Built(s.live, j)))
  }

  function NextPost(s: State, j: Job): State {
    var pos := Positions(j.routes);
    s.(live := j.routes, top := s.top + pos, loads := s.loads + [pos], job := Some(j.(stage := Posted)))
  }

  function NextDrainStop(s: State, a: AppId, stopped: set<nat>): State
    requires a in s.ops && s.ops[a].phase.Draining? && s.ops[a].phase.stale != [] && a in s.host
  {
    SetPhase(s, a, Draining(s.ops[a].phase.stale[1..])).(
      host := s.host[a := StopContainers(s.host[a], stopped)], drained := s.drained + stopped)
  }

  ghost function Next(s: State, e: Event): State
    requires Enabled(s, e)
  {
    match e
    case Begin(a, r) => s.(ops := s.ops[a := Op(r, Starting)])
    case Create(a, r, i) =>
      s.(host := s.host[a := s.host[a] + [Container(s.nextId, r, i, false, None)]],
         origin := s.origin[s.nextId := (a, r)], nextId := s.nextId + 1)
    case Start(a, k, shown) =>
      SetContainer(s, a, k, true, shown).(drained := s.drained - {s.host[a][k].id})
    case StopSurplus(a, k) => SetContainer(s, a, k, false, None)
    case Crash(a, k) => SetContainer(s, a, k, false, None)
    case Activate(a) => NextActivate(s, a)
    case Abort(a) => EndOp(s, a)
    case HealBegin(a) => s.(heal := Some((a, s.history[a][|s.history[a]| - 1])))
    case HealEnd => s.(heal := None)
    case Lock(actor) => NextLock(s, actor)
    case PlanApp(a, listing) => NextPlan(s, s.job.value, a, listing)
    case Build => NextBuild(s, s.job.value)
    case PostOk => NextPost(s, s.job.value)
    case JobError => EndJob(s, false)
    case ReadBack(readable) => EndJob(s, readable && s.live == s.job.value.routes)
    case ListStale(a, stale) => if stale == [] then EndOp(s, a) else SetPhase(s, a, Draining(stale))
    case DrainStop(a, stopped) => NextDrainStop(s, a, stopped)
    case DrainDone(a) => EndOp(s, a)
    case ProxyRestart => s.(live := map[])
    case DaemonRestart => s.(ops := map[], heal := None, job := None)
  }

  // ---- The invariant ----

  predicate Shows(c: Container) {
    c.shown.Some? ==> c.shown.value == NotAnIp || c.shown.value == Ip(c.id)
  }

  // Every container was created for the application and release it is listed under.
  ghost predicate HostOk(host: Hosts, origin: Origins, nextId: nat) {
    && (forall id :: id in origin ==> id < nextId)
    && (forall a, c :: a in host && c in host[a] ==>
          c.id in origin && origin[c.id] == (a, c.release) && Shows(c))
  }

  // The upstreams are containers of the release at that position of the application's history.
  ghost predicate ServedOk(history: History, origin: Origins, a: AppId, v: Served) {
    && a in history && v.pos < |history[a]|
    && forall u :: u in v.ups ==> u.AddrPort? && u.addr in origin && origin[u.addr] == (a, history[a][v.pos])
  }

  ghost predicate TableOk(apps: map<AppId, App>, history: History, origin: Origins, t: Table) {
    forall a :: a in t ==> a in apps && apps[a].domain != "" && ServedOk(history, origin, a, t[a])
  }

  // No stopped-and-drained container is an upstream.
  ghost predicate Undrained(t: Table, drained: set<nat>) {
    forall a, u :: a in t && u in t[a].ups && u.AddrPort? ==> u.addr !in drained
  }

  ghost predicate DrainedStopped(host: Hosts, drained: set<nat>) {
    forall a, c :: a in host && c in host[a] && c.id in drained ==> !c.running
  }

  // What a load in progress has read and planned is no older than anything loaded before it.
  ghost predicate JobOk(apps: map<AppId, App>, history: History, top: map<AppId, nat>, j: Job) {
    && (forall a :: a in j.deps ==> a in apps && a in history && j.deps[a] < |history[a]|)
    && (forall a :: a in j.deps && a in top ==> top[a] <= j.deps[a])
    && (forall a :: a in j.routes ==> a in j.deps && j.routes[a].pos <= j.deps[a])
    && (forall a :: a in j.routes && a in top ==> top[a] <= j.routes[a].pos)
    && (forall a :: a in j.deps && apps[a].domain != "" && a !in j.pending && a !in j.skipped ==>
          a in j.routes && j.routes[a].pos == j.deps[a])
    && j.pending <= j.deps.Keys && j.skipped <= j.deps.Keys
    && (forall a :: a in j.pending ==> apps[a].domain != "")
    && (j.stage != Planning ==> j.pending == {})
    && (j.stage == Posted ==> forall a :: a in j.routes ==> a in top && top[a] == j.routes[a].pos)
  }

  predicate Switched(p: Phase) { p == Routed || p.Draining? }

  function Owner(job: Option<Job>): Option<Actor> {
    if job.Some? then Some(job.value.actor) else None
  }

  // Where an operation stands fixes what is active and what has been loaded.
  ghost predicate OpOk(apps: map<AppId, App>, history: History, top: map<AppId, nat>, owner: Option<Actor>, a: AppId, o: Op) {
    && a in apps
    && (o.phase != Starting ==> a in history && history[a] != [] && history[a][|history[a]| - 1] == o.release)
    && (o.phase == Reconciling ==> owner == Some(Switch(a)))
    && (Switched(o.phase) && apps[a].domain != "" ==> a in top && top[a] == |history[a]| - 1)
    && (o.phase.Draining? ==> o.release !in o.phase.stale)
  }

  ghost predicate OpsOk(apps: map<AppId, App>, history: History, top: map<AppId, nat>, owner: Option<Actor>, ops: map<AppId, Op>) {
    forall a :: a in ops ==> OpOk(apps, history, top, owner, a, ops[a])
  }

  ghost predicate SwitchJobOk(history: History, ops: map<AppId, Op>, actor: Actor, deps: map<AppId, nat>) {
    actor.Switch? ==>
      var a := actor.app;
      && a in ops && ops[a].phase == Reconciling
      && a in deps && a in history && deps[a] == |history[a]| - 1
  }

  ghost predicate TopOk(history: History, live: Table, top: map<AppId, nat>) {
    && (forall a :: a in top ==> a in history && top[a] < |history[a]|)
    && (forall a :: a in live ==> a in top && live[a].pos == top[a])
  }

  // Along the loads made so far, no application's position goes back.
  ghost predicate LoadsOk(loads: seq<map<AppId, nat>>, top: map<AppId, nat>) {
    && (forall i, a :: 0 <= i < |loads| && a in loads[i] ==> a in top && loads[i][a] <= top[a])
    && (forall i, j, a :: 0 <= i < j < |loads| && a in loads[i] && a in loads[j] ==> loads[i][a] <= loads[j][a])
  }

  ghost predicate Inv(s: State) {
    && HostOk(s.host, s.origin, s.nextId)
    && TableOk(s.apps, s.history, s.origin, s.live)
    && TopOk(s.history, s.live, s.top)
    && LoadsOk(s.loads, s.top)
    && Undrained(s.live, s.drained)
    && DrainedStopped(s.host, s.drained)
    && (s.job.Some? ==> JobInv(s, s.job.value))
    && OpsOk(s.apps, s.history, s.top, Owner(s.job), s.ops)
  }

  ghost predicate JobInv(s: State, j: Job) {
    && JobOk(s.apps, s.history, s.top, j)
    && TableOk(s.apps, s.history, s.origin, j.routes)
    && Undrained(j.routes, s.drained)
    && SwitchJobOk(s.history, s.ops, j.actor, j.deps)
  }

  // ---- Every event keeps the invariant ----

  lemma ListingIn(cs: seq<Container>, r: Replica)
    requires r in Listing(cs)
    ensures exists c :: c in cs && r == Replica(c.release, c.index, c.running, c.shown)
  {
    if cs[0].release == r.release && cs[0].index == r.index && cs[0].running == r.running && cs[0].shown == r.address {
      assert cs[0] in cs;
    } else {
      ListingIn(cs[1..], r);
      var c :| c in cs[1..] && r == Replica(c.release, c.index, c.running, c.shown);
      assert c in cs;
    }
  }

  lemma CreateKeeps(s: State, e: Event)
    requires Inv(s) && Enabled(s, e) && e.Create?
    ensures Inv(Next(s, e))
  {
    hide HostOk, DrainedStopped, Undrained, JobOk, TopOk, LoadsOk, TableOk, OpsOk, SwitchJobOk;
    var origin := s.origin[s.nextId := (e.app, e.release)];
    AddContainer(s.host, s.origin, s.nextId, s.drained, e.app, e.release, e.index);
    NewOrigin(s.apps, s.history, s.origin, origin, s.live);
    if s.job.Some? { NewOrigin(s.apps, s.history, s.origin, origin, s.job.value.routes); }
  }

  lemma AddContainer(host: Hosts, origin: Origins, nextId: nat, drained: set<nat>, a: AppId, r: ReleaseId, i: nat)
    requires HostOk(host, origin, nextId) && DrainedStopped(host, drained) && a in host
    ensures var host' := host[a := host[a] + [Container(nextId, r, i, false, None)]];
      HostOk(host', origin[nextId := (a, r)], nextId + 1) && DrainedStopped(host', drained)
    ensures forall id :: id in origin ==> id < nextId
  {
  }

  // A new container leaves the tables right.
  lemma NewOrigin(apps: map<AppId, App>, history: History, old_: Origins, new_: Origins, t: Table)
    requires TableOk(apps, history, old_, t) && forall id :: id in old_ ==> id in new_ && new_[id] == old_[id]
    ensures TableOk(apps, history, new_, t)
  {
  }

  lemma ContainerKeeps(s: State, e: Event)
    requires Inv(s) && Enabled(s, e) && (e.Start? || e.StopSurplus? || e.Crash?)
    ensures Inv(Next(s, e))
  {
    hide TableOk, JobOk, TopOk, LoadsOk, Undrained;
    var s' := Next(s, e);
    OneContainer(s.host, s.origin, s.nextId, s.drained, e.app, e.k, s'.host[e.app][e.k]);
    if e.Start? {
      FewerDrained(s.live, s.drained, s'.drained);
      if s.job.Some? { FewerDrained(s.job.value.routes, s.drained, s'.drained); }
    }
  }

  lemma OneContainer(host: Hosts, origin: Origins, nextId: nat, drained: set<nat>, a: AppId, k: nat, c: Container)
    requires HostOk(host, origin, nextId) && DrainedStopped(host, drained)
    requires a in host && k < |host[a]| && c.id == host[a][k].id && c.release == host[a][k].release && Shows(c)
    ensures HostOk(host[a := host[a][k := c]], origin, nextId)
    ensures DrainedStopped(host[a := host[a][k := c]], if c.running then drained - {c.id} else drained)
  {
    var host' := host[a := host[a][k := c]];
    assert host[a][k] in host[a];
    assert forall b, q :: b in host' && q in host'[b] ==> q in host[b] || (b == a && q == c);
  }

  lemma FewerDrained(t: Table, drained: set<nat>, fewer: set<nat>)
    requires Undrained(t, drained) && fewer <= drained
    ensures Undrained(t, fewer)
  {
  }

  lemma BeginKeeps(s: State, a: AppId, r: ReleaseId)
    requires Inv(s) && Enabled(s, Begin(a, r))
    ensures Inv(s.(ops := s.ops[a := Op(r, Starting)]))
  {
    hide HostOk, DrainedStopped, LoadsOk, JobOk, TableOk, Undrained, TopOk, OpsOk, SwitchJobOk, OpOk;
    NotOwner(s, a, Begin(a, r));
    SetOp(s, a, Op(r, Starting));
    OpsChange(s, s.ops[a := Op(r, Starting)]);
  }

  // An operation ends while no load of its own is under way.
  lemma EndKeeps(s: State, a: AppId, e: Event)
    requires Inv(s) && Enabled(s, e) && (e.Abort? || e.DrainDone? || e.ListStale?) && a == e.app
    ensures Inv(EndOp(s, a))
  {
    hide HostOk, DrainedStopped, LoadsOk, JobOk, TableOk, Undrained, TopOk, OpsOk, SwitchJobOk, OpOk, StaleOn, Enabled;
    NotOwner(s, a, e);
    DropOp(s, a);
    OpsChange(s, s.ops - {a});
  }

  lemma ListKeeps(s: State, a: AppId, stale: seq<ReleaseId>)
    requires Inv(s) && Enabled(s, ListStale(a, stale))
    ensures Inv(SetPhase(s, a, Draining(stale)))
  {
    hide HostOk, DrainedStopped, LoadsOk, JobOk, TableOk, Undrained, TopOk, OpsOk, SwitchJobOk, OpOk, StaleOn;
    NotOwner(s, a, ListStale(a, stale));
    SetOp(s, a, s.ops[a].(phase := Draining(stale)));
    OpsChange(s, s.ops[a := s.ops[a].(phase := Draining(stale))]);
  }

  lemma OpsChange(s: State, ops: map<AppId, Op>)
    requires Inv(s) && OpsInv(s, ops)
    ensures Inv(s.(ops := ops))
  {
    hide HostOk, DrainedStopped, LoadsOk, JobOk, TableOk, Undrained, TopOk, OpsOk, SwitchJobOk;
  }

  lemma NotOwner(s: State, a: AppId, e: Event)
    requires Inv(s) && Enabled(s, e) && (e.Begin? || e.Abort? || e.ListStale? || e.DrainDone?) && a == e.app
    ensures s.job.Some? ==> s.job.value.actor != Switch(a)
    ensures e.Begin? ==> OpOk(s.apps, s.history, s.top, Owner(s.job), a, Op(e.release, Starting))
    ensures e.ListStale? ==> OpOk(s.apps, s.history, s.top, Owner(s.job), a, s.ops[a].(phase := Draining(e.stale)))
  {
    hide HostOk, DrainedStopped, LoadsOk, JobOk, TableOk, Undrained, TopOk;
  }

  ghost predicate OpsInv(s: State, ops: map<AppId, Op>) {
    && OpsOk(s.apps, s.history, s.top, Owner(s.job), ops)
    && (s.job.Some? ==> SwitchJobOk(s.history, ops, s.job.value.actor, s.job.value.deps))
  }

  lemma SetOp(s: State, a: AppId, o: Op)
    requires OpsInv(s, s.ops) && OpOk(s.apps, s.history, s.top, Owner(s.job), a, o)
    requires s.job.Some? ==> s.job.value.actor != Switch(a)
    ensures OpsInv(s, s.ops[a := o])
  {
    hide OpOk;
  }

  lemma DropOp(s: State, a: AppId)
    requires OpsInv(s, s.ops) && (s.job.Some? ==> s.job.value.actor != Switch(a))
    ensures OpsInv(s, s.ops - {a})
  {
    hide OpOk;
  }

  lemma RestartKeeps(s: State, e: Event)
    requires Inv(s) && Enabled(s, e) && (e.HealBegin? || e.HealEnd? || e.ProxyRestart? || e.DaemonRestart?)
    ensures Inv(Next(s, e))
  {
    hide HostOk, DrainedStopped, LoadsOk, JobOk, ServedOk, SwitchJobOk, OpOk;
  }

  lemma ActivateKeeps(s: State, a: AppId)
    requires Inv(s) && a in s.ops && s.ops[a].phase == Starting && a in s.history
    ensures Inv(NextActivate(s, a))
  {
    hide HostOk, DrainedStopped, LoadsOk, Undrained, TableOk, TopOk, JobOk, OpsOk, SwitchJobOk;
    var s' := NextActivate(s, a);
    LongerHistory(s.history, s'.history, s.apps, s.origin, s.top, s.live);
    if s.job.Some? {
      LongerHistory(s.history, s'.history, s.apps, s.origin, s.top, s.job.value.routes);
      LongerHistoryJob(s.history, s'.history, s.apps, s.top, s.job.value);
    }
    ActivateOps(s, a);
  }

  lemma ActivateOps(s: State, a: AppId)
    requires OpsInv(s, s.ops) && a in s.ops && s.ops[a].phase == Starting && a in s.history
    ensures OpsInv(NextActivate(s, a), NextActivate(s, a).ops)
  {
  }

  ghost predicate Longer(h: History, h': History) {
    forall a :: a in h ==> a in h' && h[a] <= h'[a]
  }

  lemma LongerHistory(h: History, h': History, apps: map<AppId, App>, origin: Origins, top: map<AppId, nat>, t: Table)
    requires Longer(h, h') && TableOk(apps, h, origin, t)
    ensures TableOk(apps, h', origin, t)
    ensures TopOk(h, t, top) ==> TopOk(h', t, top)
  {
  }

  lemma LongerHistoryJob(h: History, h': History, apps: map<AppId, App>, top: map<AppId, nat>, j: Job)
    requires Longer(h, h') && JobOk(apps, h, top, j)
    ensures JobOk(apps, h', top, j)
  {
  }

  lemma LockKeeps(s: State, actor: Actor)
    requires Inv(s) && s.job.None? && Locker(s, actor)
    ensures Inv(NextLock(s, actor))
  {
    hide HostOk, DrainedStopped, LoadsOk, Undrained, TableOk, TopOk, JobOk;
    LockReads(s, actor);
    EmptyTable(s);
    LockOps(s, actor);
  }

  lemma LockOps(s: State, actor: Actor)
    requires Inv(s) && s.job.None? && Locker(s, actor)
    ensures var s' := NextLock(s, actor);
      OpsOk(s'.apps, s'.history, s'.top, Some(actor), s'.ops) && SwitchJobOk(s'.history, s'.ops, actor, OpenPositions(s))
  {
    hide HostOk, DrainedStopped, LoadsOk, Undrained, TableOk, TopOk, JobOk;
  }

  lemma EmptyTable(s: State)
    ensures TableOk(s.apps, s.history, s.origin, map[]) && Undrained(map[], s.drained)
  {
  }

  // A fresh load reads the last positions, which no earlier load can be ahead of.
  lemma LockReads(s: State, actor: Actor)
    requires TopOk(s.history, s.live, s.top)
    ensures JobOk(s.apps, s.history, s.top,
      Job(actor, Planning, OpenPositions(s), set a | a in OpenPositions(s) && s.apps[a].domain != "", map[], {}))
  {
  }

  lemma PlanKeeps(s: State, e: Event)
    requires Inv(s) && Enabled(s, e) && e.PlanApp?
    ensures Inv(Next(s, e))
  {
    hide HostOk, DrainedStopped, LoadsOk, TopOk, Undrained, TableOk, JobOk;
    var j, a := s.job.value, e.app;
    var res := Upstreams(DeploymentOf(s, a, j.deps[a]), e.listing);
    PlanJob(s.apps, s.history, s.top, j, a, res);
    if res.Ok? {
      PlannedTable(s, j, a, e.listing.value);
    }
  }

  lemma PlanJob(apps: map<AppId, App>, history: History, top: map<AppId, nat>, j: Job, a: AppId, res: Result<seq<Dial>, SkipReason>)
    requires JobOk(apps, history, top, j) && a in j.pending && j.stage == Planning
    ensures a in j.deps && JobOk(apps, history, top, Planned(j, a, res))
  {
  }

  lemma PlannedTable(s: State, j: Job, a: AppId, reps: seq<Replica>)
    requires Inv(s) && s.job == Some(j) && a in j.pending && a in s.host
    requires a in j.deps && a in s.apps && a in s.history && j.deps[a] < |s.history[a]|
    requires multiset(reps) == multiset(Listing(s.host[a]))
    requires Upstreams(DeploymentOf(s, a, j.deps[a]), Some(reps)).Ok?
    ensures var t := j.routes[a := Served(j.deps[a], Upstreams(DeploymentOf(s, a, j.deps[a]), Some(reps)).value)];
      TableOk(s.apps, s.history, s.origin, t) && Undrained(t, s.drained)
  {
    hide LoadsOk, TopOk, HostOk, DrainedStopped, Upstreams, TableOk, Undrained;
    JobDomains(s, j, a);
    var d := DeploymentOf(s, a, j.deps[a]);
    var ups := Upstreams(d, Some(reps)).value;
    forall u | u in ups
      ensures u.AddrPort? && u.addr in s.origin && s.origin[u.addr] == (a, d.release) && u.addr !in s.drained
    {
      PlannedFrom(s, a, d, reps, u);
    }
    AddServed(s.apps, s.history, s.origin, s.drained, j.routes, a, Served(j.deps[a], ups));
  }

  lemma JobDomains(s: State, j: Job, a: AppId)
    requires JobInv(s, j) && a in j.pending
    ensures a in s.apps && s.apps[a].domain != ""
  {
  }

  lemma AddServed(apps: map<AppId, App>, history: History, origin: Origins, drained: set<nat>, t: Table, a: AppId, v: Served)
    requires TableOk(apps, history, origin, t) && Undrained(t, drained)
    requires a in apps && apps[a].domain != "" && ServedOk(history, origin, a, v)
    requires forall u :: u in v.ups ==> u.addr !in drained
    ensures TableOk(apps, history, origin, t[a := v]) && Undrained(t[a := v], drained)
  {
  }

  // A planned upstream is a running container of the release read.
  lemma PlannedFrom(s: State, a: AppId, d: Deployment, reps: seq<Replica>, u: Dial)
    requires HostOk(s.host, s.origin, s.nextId) && DrainedStopped(s.host, s.drained)
    requires a in s.host && multiset(reps) == multiset(Listing(s.host[a]))
    requires Upstreams(d, Some(reps)).Ok? && u in Upstreams(d, Some(reps)).value
    ensures u.AddrPort? && u.addr in s.origin && s.origin[u.addr] == (a, d.release) && u.addr !in s.drained
    ensures exists c :: c in s.host[a] && c.id == u.addr && c.running && c.release == d.release && c.index < d.replicas
  {
    hide Upstreams;
    RoutedFrom(d, reps, u);
    var r :| r in reps && Selected(d.release, d.replicas, r) && NewUpstream(r.address.value, d.port) == Some(u);
    assert r in multiset(reps);
    ListingIn(s.host[a], r);
  }

  lemma BuildKeeps(s: State, j: Job)
    requires Inv(s) && s.job == Some(j) && j.stage == Planning && j.pending == {}
    ensures Inv(NextBuild(s, j))
  {
    hide HostOk, DrainedStopped, LoadsOk, TopOk, Undrained, TableOk, JobOk, Built, OpsOk, SwitchJobOk;
    BuildJob(s, j);
    if NextBuild(s, j).job.None? {
      NoOwner(s, j);
    }
  }

  // The watcher's load belongs to no operation.
  lemma NoOwner(s: State, j: Job)
    requires Inv(s) && s.job == Some(j) && j.actor == Watcher
    ensures OpsOk(s.apps, s.history, s.top, None, s.ops)
  {
  }

  lemma BuildJob(s: State, j: Job)
    requires Inv(s) && s.job == Some(j) && j.stage == Planning && j.pending == {}
    ensures var b := Built(s.live, j);
      && b.actor == j.actor && b.deps == j.deps
      && TableOk(s.apps, s.history, s.origin, b.routes) && Undrained(b.routes, s.drained)
      && JobOk(s.apps, s.history, s.top, b)
  {
    hide JobOk, TableOk, Undrained, Carried, OpsOk, HostOk, DrainedStopped, LoadsOk, TopOk, SwitchJobOk;
    CarryTable(s, j);
    CarryJob(s.apps, s.history, s.live, s.top, j);
  }

  lemma CarryTable(s: State, j: Job)
    requires JobInv(s, j) && TableOk(s.apps, s.history, s.origin, s.live) && Undrained(s.live, s.drained)
    ensures var t := j.routes + Carried(s.live, j.skipped);
      TableOk(s.apps, s.history, s.origin, t) && Undrained(t, s.drained)
  {
    hide JobOk, ServedOk;
  }

  // A carried route is the last one loaded.
  lemma CarryJob(apps: map<AppId, App>, history: History, live: Table, top: map<AppId, nat>, j: Job)
    requires JobOk(apps, history, top, j) && TopOk(history, live, top) && j.stage == Planning && j.pending == {}
    ensures JobOk(apps, history, top, j.(stage := Ready))
    ensures JobOk(apps, history, top, j.(stage := Ready, routes := j.routes + Carried(live, j.skipped)))
  {
  }

  lemma PostKeeps(s: State, j: Job)
    requires Inv(s) && s.job == Some(j) && j.stage == Ready
    ensures Inv(NextPost(s, j))
  {
    hide HostOk, DrainedStopped, LoadsOk, TopOk, Undrained, TableOk, JobOk, Positions;
    PostTop(s.apps, s.history, s.live, s.top, j);
    PostLoads(s.apps, s.history, s.top, j, s.loads);
    PostOps(s, j);
  }

  lemma PostTop(apps: map<AppId, App>, history: History, live: Table, top: map<AppId, nat>, j: Job)
    requires JobOk(apps, history, top, j) && TopOk(history, live, top) && j.stage == Ready
    ensures TopOk(history, j.routes, top + Positions(j.routes))
    ensures JobOk(apps, history, top + Positions(j.routes), j.(stage := Posted))
  {
  }

  lemma PostLoads(apps: map<AppId, App>, history: History, top: map<AppId, nat>, j: Job, loads: seq<map<AppId, nat>>)
    requires JobOk(apps, history, top, j) && LoadsOk(loads, top)
    ensures LoadsOk(loads + [Positions(j.routes)], top + Positions(j.routes))
  {
    var pos, top' := Positions(j.routes), top + Positions(j.routes);
    assert forall a :: a in top ==> a in top' && top[a] <= top'[a];
  }

  lemma PostOps(s: State, j: Job)
    requires Inv(s) && s.job == Some(j)
    ensures OpsOk(s.apps, s.history, s.top + Positions(j.routes), Some(j.actor), s.ops)
  {
    hide HostOk, DrainedStopped, LoadsOk, Undrained, TableOk;
    var top := s.top + Positions(j.routes);
    forall a | a in s.ops ensures OpOk(s.apps, s.history, top, Some(j.actor), a, s.ops[a]) {
      assert a in j.routes ==> a in j.deps && j.routes[a].pos <= j.deps[a] < |s.history[a]|;
    }
  }

  lemma EndJobKeeps(s: State, j: Job, ok: bool)
    requires Inv(s) && s.job == Some(j) && (ok ==> j.stage == Posted)
    ensures Inv(EndJob(s, ok))
  {
    hide HostOk, DrainedStopped, LoadsOk, TopOk, Undrained, TableOk;
    if ok && j.actor.Switch? && j.actor.app !in j.skipped {
      LoadedLast(s, j);
    }
    hide JobOk;
  }

  // The owner's own load routed the position it had just activated.
  lemma LoadedLast(s: State, j: Job)
    requires Inv(s) && s.job == Some(j) && j.stage == Posted && j.actor.Switch? && j.actor.app !in j.skipped
    ensures var a := j.actor.app;
      a in s.apps && (s.apps[a].domain != "" ==> a in s.top && s.top[a] == |s.history[a]| - 1)
  {
    hide HostOk, DrainedStopped, LoadsOk, TopOk, Undrained, TableOk;
  }

  lemma DrainKeeps(s: State, a: AppId, stopped: set<nat>)
    requires Inv(s) && Enabled(s, DrainStop(a, stopped))
    ensures Inv(NextDrainStop(s, a, stopped))
  {
    hide LoadsOk, HostOk, DrainedStopped, Undrained, TopOk, TableOk, JobOk, CreatedFor, OpsOk, SwitchJobOk;
    DrainTables(s, a, stopped);
    DrainHost(s.host, s.origin, s.nextId, s.drained, a, stopped);
    DrainOps(s, a);
  }

  // One stale release is done with.
  lemma DrainOps(s: State, a: AppId)
    requires Inv(s) && a in s.ops && s.ops[a].phase.Draining? && s.ops[a].phase.stale != []
    ensures OpsInv(s, s.ops[a := s.ops[a].(phase := Draining(s.ops[a].phase.stale[1..]))])
  {
    hide LoadsOk, HostOk, DrainedStopped, Undrained, TopOk, TableOk, JobOk;
    var o := s.ops[a].(phase := Draining(s.ops[a].phase.stale[1..]));
    assert OpOk(s.apps, s.history, s.top, Owner(s.job), a, s.ops[a]);
    assert OpOk(s.apps, s.history, s.top, Owner(s.job), a, o);
    SetOp(s, a, o);
  }

  lemma {:induction false} StoppedIn(cs: seq<Container>, stopped: set<nat>, c: Container)
    requires c in StopContainers(cs, stopped)
    ensures (c in cs && c.id !in stopped)
         || (!c.running && c.shown == None && c.id in stopped && exists q :: q in cs && q.id == c.id && q.release == c.release)
  {
    var first := if cs[0].id in stopped then cs[0].(running := false, shown := None) else cs[0];
    assert StopContainers(cs, stopped) == [first] + StopContainers(cs[1..], stopped);
    if c == first {
      assert cs[0] in cs;
    } else {
      StoppedIn(cs[1..], stopped, c);
      assert forall q :: q in cs[1..] ==> q in cs;
    }
  }

  lemma DrainHost(host: Hosts, origin: Origins, nextId: nat, drained: set<nat>, a: AppId, stopped: set<nat>)
    requires HostOk(host, origin, nextId) && DrainedStopped(host, drained) && a in host
    requires forall id :: id in stopped ==> id in origin && origin[id].0 == a
    ensures HostOk(host[a := StopContainers(host[a], stopped)], origin, nextId)
    ensures DrainedStopped(host[a := StopContainers(host[a], stopped)], drained + stopped)
  {
    var host' := host[a := StopContainers(host[a], stopped)];
    forall b: AppId, c: Container | b in host' && c in host'[b]
      ensures c.id in origin && origin[c.id] == (b, c.release) && Shows(c) && (c.id in drained + stopped ==> !c.running)
    {
      if b == a { StoppedIn(host[a], stopped, c); }
    }
  }

  // What is live or planned for an application being drained belongs to its active release.
  lemma DrainingServes(s: State, a: AppId, t: Table)
    requires Inv(s) && a in s.ops && s.ops[a].phase.Draining? && a in t
    requires t == s.live || (s.job.Some? && t == s.job.value.routes)
    ensures a in s.history && s.history[a] != [] && t[a].pos == |s.history[a]| - 1
    ensures s.history[a][t[a].pos] == s.ops[a].release
  {
    hide LoadsOk, DrainedStopped, HostOk, Undrained;
  }

  /** The heart of the matter: when drainStale stops containers, the live routes and the
    * routes of any load under way are of the active release, not of a stale one. */
  lemma DrainTables(s: State, a: AppId, stopped: set<nat>)
    requires Inv(s) && Enabled(s, DrainStop(a, stopped))
    ensures Undrained(s.live, s.drained + stopped)
    ensures s.job.Some? ==> Undrained(s.job.value.routes, s.drained + stopped)
    ensures forall id :: id in stopped ==> id in s.origin && s.origin[id].0 == a
  {
    StoppedOrigin(s, a, stopped);
    DrainTable(s, a, stopped, s.live);
    if s.job.Some? { DrainTable(s, a, stopped, s.job.value.routes); }
  }

  lemma StoppedOrigin(s: State, a: AppId, stopped: set<nat>)
    requires HostOk(s.host, s.origin, s.nextId) && Enabled(s, DrainStop(a, stopped))
    ensures forall id :: id in stopped ==> id in s.origin && s.origin[id] == (a, s.ops[a].phase.stale[0])
  {
  }

  lemma DrainTable(s: State, a: AppId, stopped: set<nat>, t: Table)
    requires Inv(s) && a in s.ops && s.ops[a].phase.Draining? && s.ops[a].phase.stale != []
    requires t == s.live || (s.job.Some? && t == s.job.value.routes)
    requires TableOk(s.apps, s.history, s.origin, t) && Undrained(t, s.drained)
    requires forall id :: id in stopped ==> id in s.origin && s.origin[id] == (a, s.ops[a].phase.stale[0])
    ensures Undrained(t, s.drained + stopped)
  {
    hide LoadsOk, DrainedStopped, HostOk, TopOk, JobOk;
    if a in t { DrainingServes(s, a, t); }
  }

  // ---- All runs ----

  lemma StepKeeps(s: State, e: Event)
    requires Inv(s) && Enabled(s, e)
    ensures Inv(Next(s, e))
  {
    hide Inv;
    match e
    case Begin(a, r) => BeginKeeps(s, a, r);
    case Create(_, _, _) => CreateKeeps(s, e);
    case Start(_, _, _) => ContainerKeeps(s, e);
    case StopSurplus(_, _) => ContainerKeeps(s, e);
    case Activate(a) => ActivateKeeps(s, a);
    case Abort(a) => EndKeeps(s, a, e);
    case HealBegin(_) => RestartKeeps(s, e);
    case HealEnd => RestartKeeps(s, e);
    case Lock(actor) => LockKeeps(s, actor);
    case PlanApp(_, _) => PlanKeeps(s, e);
    case Build => BuildKeeps(s, s.job.value);
    case PostOk => PostKeeps(s, s.job.value);
    case JobError => EndJobKeeps(s, s.job.value, false);
    case ReadBack(readable) => EndJobKeeps(s, s.job.value, readable && s.live == s.job.value.routes);
    case ListStale(a, stale) => if stale == [] { EndKeeps(s, a, e); } else { ListKeeps(s, a, stale); }
    case DrainStop(a, stopped) => DrainKeeps(s, a, stopped);
    case DrainDone(a) => EndKeeps(s, a, e);
    case Crash(_, _) => ContainerKeeps(s, e);
    case ProxyRestart => RestartKeeps(s, e);
    case DaemonRestart => RestartKeeps(s, e);
  }

  // Nothing running, loaded or drained yet; any activation history and any containers.
  ghost predicate Init(s: State) {
    && HostOk(s.host, s.origin, s.nextId)
    && s.live == map[] && s.ops == map[] && s.heal == None && s.job == None
    && s.drained == {} && s.top == map[] && s.loads == []
  }

  // A run: every event is enabled where it happens.
  ghost predicate Runs(s: State, es: seq<Event>)
    decreases |es|
  {
    es == [] || (Enabled(s, es[0]) && Runs(Next(s, es[0]), es[1..]))
  }

  ghost function After(s: State, es: seq<Event>): State
    requires Runs(s, es)
    decreases |es|
  {
    if es == [] then s else After(Next(s, es[0]), es[1..])
  }

  lemma RunNone(s: State)
    ensures Runs(s, []) && After(s, []) == s
  {
  }

  // One event before a run.
  lemma RunOne(s: State, e: Event, es: seq<Event>)
    requires Enabled(s, e) && Runs(Next(s, e), es)
    ensures Runs(s, [e] + es) && After(s, [e] + es) == After(Next(s, e), es)
  {
    assert ([e] + es)[1..] == es;
  }

  // One run after another.
  lemma {:induction false} RunsConcat(s: State, es: seq<Event>, fs: seq<Event>)
    requires Runs(s, es) && Runs(After(s, es), fs)
    ensures Runs(s, es + fs) && After(s, es + fs) == After(After(s, es), fs)
    decreases |es|
  {
    hide Next, Enabled;
    if es == [] {
      assert es + fs == fs;
    } else {
      RunsConcat(Next(s, es[0]), es[1..], fs);
      assert (es + fs)[1..] == es[1..] + fs;
    }
  }

  lemma {:induction false} RunKeeps(s: State, es: seq<Event>)
    requires Inv(s) && Runs(s, es)
    ensures Inv(After(s, es))
    decreases |es|
  {
    hide Inv, Next, Enabled;
    if es != [] {
      StepKeeps(s, es[0]);
      RunKeeps(Next(s, es[0]), es[1..]);
    }
  }

  lemma InitInv(s: State)
    requires Init(s)
    ensures Inv(s)
  {
  }

  // ---- What a load skips ----

  // An application is skipped, routed or still to be listed. Once posted, the live routes are
  // the load's, or lost; only Repair's load routes an application it skipped.
  predicate SkipsOk(live: Table, job: Option<Job>) {
    job.Some? ==>
      var j := job.value;
      && j.pending !! j.skipped && j.pending !! j.routes.Keys
      && (j.actor != Watcher || j.stage == Planning ==> j.routes.Keys !! j.skipped)
      && (j.stage == Posted ==> live == j.routes || live == map[])
  }

  lemma SkipsStep(s: State, e: Event)
    requires Enabled(s, e) && SkipsOk(s.live, s.job)
    ensures SkipsOk(Next(s, e).live, Next(s, e).job)
  {
    hide StaleOn, CreatedFor, StopContainers, Upstreams, Listing, SkipsOk, NextPlan, NextBuild, NextPost, NextLock, EndJob, NextActivate, NextDrainStop, Entitled;
    match e
    case PlanApp(a, listing) => SkipsPlan(s, a, listing);
    case Build => SkipsBuild(s);
    case PostOk => SkipsPost(s);
    case Lock(actor) => SkipsLock(s, actor);
    case JobError => SkipsEnd(s, false);
    case ReadBack(readable) => SkipsEnd(s, readable && s.live == s.job.value.routes);
    case DaemonRestart => SkipsNone(s.live);
    case ProxyRestart => SkipsLost(s.live, s.job);
    case Activate(a) => ActivateAside(s, a);
    case DrainStop(a, stopped) => DrainAside(s, a, stopped);
    case _ =>
  }

  lemma ActivateAside(s: State, a: AppId)
    requires a in s.ops && a in s.history
    ensures NextActivate(s, a).live == s.live && NextActivate(s, a).job == s.job
  {
  }

  lemma DrainAside(s: State, a: AppId, stopped: set<nat>)
    requires a in s.ops && s.ops[a].phase.Draining? && s.ops[a].phase.stale != [] && a in s.host
    ensures NextDrainStop(s, a, stopped).live == s.live && NextDrainStop(s, a, stopped).job == s.job
  {
    hide StopContainers;
  }

  lemma SkipsNone(live: Table)
    ensures SkipsOk(live, None)
  {
  }

  lemma SkipsEnd(s: State, ok: bool)
    requires s.job.Some?
    ensures SkipsOk(EndJob(s, ok).live, EndJob(s, ok).job)
  {
    hide SkipsOk;
    SkipsNone(s.live);
    assert EndJob(s, ok).job == None && EndJob(s, ok).live == s.live;
  }

  lemma SkipsLost(live: Table, job: Option<Job>)
    requires SkipsOk(live, job)
    ensures SkipsOk(map[], job)
  {
  }

  lemma SkipsLock(s: State, actor: Actor)
    requires Locker(s, actor)
    ensures NextLock(s, actor).live == s.live && SkipsOk(s.live, NextLock(s, actor).job)
  {
  }

  lemma SkipsPlan(s: State, a: AppId, listing: Option<seq<Replica>>)
    requires Enabled(s, PlanApp(a, listing)) && SkipsOk(s.live, s.job)
    ensures var s' := NextPlan(s, s.job.value, a, listing); s'.live == s.live && SkipsOk(s.live, s'.job)
  {
    hide Upstreams, Listing;
  }

  lemma SkipsBuild(s: State)
    requires Enabled(s, Build) && SkipsOk(s.live, s.job)
    ensures NextBuild(s, s.job.value).live == s.live && SkipsOk(s.live, NextBuild(s, s.job.value).job)
  {
    hide Built, SkipsOk;
    SkipsReady(s.live, s.job.value);
    SkipsNone(s.live);
  }

  lemma SkipsReady(live: Table, j: Job)
    requires SkipsOk(live, Some(j)) && j.stage == Planning && j.pending == {}
    ensures SkipsOk(live, Some(Built(live, j)))
  {
  }

  lemma SkipsPost(s: State)
    requires Enabled(s, PostOk) && SkipsOk(s.live, s.job)
    ensures SkipsOk(NextPost(s, s.job.value).live, NextPost(s, s.job.value).job)
  {
    hide Positions;
  }

  lemma {:induction false} RunSkips(s: State, es: seq<Event>)
    requires SkipsOk(s.live, s.job) && Runs(s, es)
    ensures SkipsOk(After(s, es).live, After(s, es).job)
    decreases |es|
  {
    hide SkipsOk, Next, Enabled;
    if es != [] {
      SkipsStep(s, es[0]);
      RunSkips(Next(s, es[0]), es[1..]);
    }
  }

  /** Over every run: a load that skips an application takes away the route it had, unless the
    * load is Repair's. Nothing of it stays live, whatever release it was on. */
  lemma SkippedLosesRoute(s: State, es: seq<Event>, a: AppId)
    requires Init(s) && Runs(s, es)
    requires var t := After(s, es);
      t.job.Some? && t.job.value.stage == Posted && t.job.value.actor != Watcher && a in t.job.value.skipped
    ensures a !in After(s, es).live
  {
    hide Runs, After;
    RunSkips(s, es);
  }

  /** In every interleaving of operations, healing, repair, crashes and restarts, no container
    * that drainStale has stopped is an upstream in the live configuration. */
  lemma NoDrainedUpstream(s: State, es: seq<Event>, a: AppId, u: Dial)
    requires Init(s) && Runs(s, es)
    requires var t := After(s, es).live; a in t && u in t[a].ups
    ensures u.AddrPort? && u.addr !in After(s, es).drained
  {
    hide Runs, After, HostOk, DrainedStopped, LoadsOk, TopOk, JobInv, OpsOk;
    InitInv(s);
    RunKeeps(s, es);
  }

  /** Every live upstream is a container created for the release at the position of the
    * application's history it is routed under, and that position is the last one loaded. */
  lemma LiveUpstreamsBelong(s: State, es: seq<Event>, a: AppId)
    requires Init(s) && Runs(s, es) && a in After(s, es).live
    ensures var t := After(s, es);
      && ServedOk(t.history, t.origin, a, t.live[a])
      && a in t.top && t.top[a] == t.live[a].pos
  {
    hide Runs, After, HostOk, DrainedStopped, LoadsOk, Undrained, JobInv, OpsOk, ServedOk;
    InitInv(s);
    RunKeeps(s, es);
  }

  /** Along every run, the history position a load routes an application to never goes back,
    * carried-over routes included. */
  lemma LoadsNeverGoBack(s: State, es: seq<Event>, i: nat, j: nat, a: AppId)
    requires Init(s) && Runs(s, es) && i < j < |After(s, es).loads|
    requires a in After(s, es).loads[i] && a in After(s, es).loads[j]
    ensures After(s, es).loads[i][a] <= After(s, es).loads[j][a]
  {
    hide Runs, After, HostOk, DrainedStopped, TableOk, TopOk, Undrained, JobInv, OpsOk;
    InitInv(s);
    RunKeeps(s, es);
  }
}
