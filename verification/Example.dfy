/** One switch of one application, start to finish, as a run of the switching machine: the
  * machine's theorems speak of runs that load routes and drain containers. */
module Example {
  import opened Wrappers
  import opened Routing
  import opened ProxyConfig
  import opened Switching

  const APP := "web"
  const OLD := Container(1, "r1", 0, true, Some(Ip(1)))
  const NEW := Container(2, "r2", 0, true, Some(Ip(2)))
  const STOPPED := Container(1, "r1", 0, false, None)

  const ROUTES: Table := map[APP := Served(1, [AddrPort(2, 8080)])]

  function At(first: Container, acts: seq<ReleaseId>, live: Table, ops: map<AppId, Op>, job: Option<Job>,
              drained: set<nat>, loads: seq<map<AppId, nat>>): State {
    State(map[APP := App("web.example", 8080, 1)], map[APP := [first, NEW]], map[APP := acts], live, ops, None, job,
      map[1 := (APP, "r1"), 2 := (APP, "r2")], 3, drained, if loads == [] then map[] else map[APP := 1], loads)
  }

  function Begun(p: Phase): map<AppId, Op> { map[APP := Op("r2", p)] }

  function Load(stage: Stage, pending: set<AppId>, routes: Table): Option<Job> {
    Some(Job(Switch(APP), stage, map[APP := 1], pending, routes, {}))
  }

  const BOTH: seq<ReleaseId> := ["r1", "r2"]
  const LOADED: seq<map<AppId, nat>> := [map[APP := 1]]

  function Start(): State { At(OLD, ["r1"], map[], map[], None, {}, []) }

  function Done(): State { At(STOPPED, BOTH, ROUTES, map[], None, {1}, LOADED) }

  lemma StartsFresh()
    ensures Init(Start())
  {
  }

  lemma ActivateIt()
    ensures Enabled(Start(), Begin(APP, "r2"))
    ensures var s := Next(Start(), Begin(APP, "r2"));
      Enabled(s, Activate(APP)) && Next(s, Activate(APP)) == At(OLD, BOTH, map[], Begun(Activated), None, {}, [])
  {
    assert ["r1"] + ["r2"] == BOTH;
  }

  lemma LockIt()
    ensures var s := At(OLD, BOTH, map[], Begun(Activated), None, {}, []);
      && Enabled(s, Lock(Switch(APP)))
      && Next(s, Lock(Switch(APP))) == At(OLD, BOTH, map[], Begun(Reconciling), Load(Planning, {APP}, map[]), {}, [])
  {
    var s := At(OLD, BOTH, map[], Begun(Activated), None, {}, []);
    assert OpenPositions(s) == map[APP := 1];
    assert (set a | a in OpenPositions(s) && s.apps[a].domain != "") == {APP};
  }

  function Containers(): seq<Replica> {
    [Replica("r1", 0, true, Some(Ip(1))), Replica("r2", 0, true, Some(Ip(2)))]
  }

  lemma Listed()
    ensures Listing([OLD, NEW]) == Containers()
  {
    assert [OLD, NEW][1..] == [NEW] && [NEW][1..] == [];
    assert Listing([NEW]) == [Replica("r2", 0, true, Some(Ip(2)))] + Listing([]);
  }

  lemma SortedBoth()
    ensures SortReplicas(Containers()) == Containers()
  {
    var reps := Containers();
    assert reps[1..][1..] == [];
    assert SortReplicas(reps[1..]) == [reps[1]];
    assert [reps[0]] + [reps[1]] == reps;
  }

  lemma RoutedUpstreams()
    ensures Upstreams(Deployment(APP, "r2", "web.example", 8080, 1), Some(Containers())) == Ok([AddrPort(2, 8080)])
  {
    hide SortReplicas;
    SortedBoth();
    var d := Deployment(APP, "r2", "web.example", 8080, 1);
    var reps := Containers();
    var one := reps[..1];
    assert one[..0] == [] && one[0] == reps[0] && |one| == 1;
    assert Collect(d, []) == Ok([]);
    assert !Selected(d.release, d.replicas, reps[0]);
    assert Collect(d, one) == Ok([]);
    assert Selected(d.release, d.replicas, reps[1]) && NewUpstream(Ip(2), 8080) == Some(AddrPort(2, 8080));
    assert |reps| == 2 && reps[..|reps| - 1] == one;
    assert [] + [AddrPort(2, 8080)] == [AddrPort(2, 8080)];
  }

  lemma PlanIt()
    ensures var s := At(OLD, BOTH, map[], Begun(Reconciling), Load(Planning, {APP}, map[]), {}, []);
      && Enabled(s, PlanApp(APP, Some(Containers())))
      && Next(s, PlanApp(APP, Some(Containers()))) == At(OLD, BOTH, map[], Begun(Reconciling), Load(Planning, {}, ROUTES), {}, [])
  {
    hide Upstreams, Listing;
    Listed();
    RoutedUpstreams();
    assert {APP} - {APP} == {};
  }

  lemma BuildIt()
    ensures var s := At(OLD, BOTH, map[], Begun(Reconciling), Load(Planning, {}, ROUTES), {}, []);
      Enabled(s, Build) && Next(s, Build) == At(OLD, BOTH, map[], Begun(Reconciling), Load(Ready, {}, ROUTES), {}, [])
  {
    hide Carried;
  }

  lemma PostIt()
    ensures var s := At(OLD, BOTH, map[], Begun(Reconciling), Load(Ready, {}, ROUTES), {}, []);
      Enabled(s, PostOk) && Next(s, PostOk) == At(OLD, BOTH, ROUTES, Begun(Reconciling), Load(Posted, {}, ROUTES), {}, LOADED)
  {
    assert Positions(ROUTES) == map[APP := 1];
    assert map[] + Positions(ROUTES) == map[APP := 1];
    assert [] + [Positions(ROUTES)] == LOADED;
    hide Positions;
  }

  lemma ReadBackIt()
    ensures var s := At(OLD, BOTH, ROUTES, Begun(Reconciling), Load(Posted, {}, ROUTES), {}, LOADED);
      Enabled(s, ReadBack(true)) && Next(s, ReadBack(true)) == At(OLD, BOTH, ROUTES, Begun(Routed), None, {}, LOADED)
  {
  }

  lemma ListIt()
    ensures var s := At(OLD, BOTH, ROUTES, Begun(Routed), None, {}, LOADED);
      && Enabled(s, ListStale(APP, ["r1"]))
      && Next(s, ListStale(APP, ["r1"])) == At(OLD, BOTH, ROUTES, Begun(Draining(["r1"])), None, {}, LOADED)
  {
    assert OLD in [OLD, NEW] && NEW in [OLD, NEW];
    assert StaleOn([OLD, NEW], "r2", ["r1"]);
    hide StaleOn;
  }

  lemma StoppedOld()
    ensures CreatedFor([OLD, NEW], "r1", {1}) && StopContainers([OLD, NEW], {1}) == [STOPPED, NEW]
  {
    assert OLD in [OLD, NEW];
    assert [OLD, NEW][1..] == [NEW] && [NEW][1..] == [];
    assert StopContainers([NEW], {1}) == [NEW] + StopContainers([], {1});
  }

  lemma StopIt()
    ensures var s := At(OLD, BOTH, ROUTES, Begun(Draining(["r1"])), None, {}, LOADED);
      && Enabled(s, DrainStop(APP, {1}))
      && Next(s, DrainStop(APP, {1})) == At(STOPPED, BOTH, ROUTES, Begun(Draining([])), None, {1}, LOADED)
  {
    hide StopContainers, CreatedFor;
    StoppedOld();
    assert ["r1"][1..] == [];
    assert {} + {1} == {1};
  }

  lemma EndIt()
    ensures var s := At(STOPPED, BOTH, ROUTES, Begun(Draining([])), None, {1}, LOADED);
      Enabled(s, DrainDone(APP)) && Next(s, DrainDone(APP)) == Done()
  {
    assert Begun(Draining([])) - {APP} == map[];
  }

  /** From a fresh start, a switch from r1 to r2 runs to its end: r2's container is live, r1's
    * has been drained. */
  lemma SwitchRunsToTheEnd() returns (es: seq<Event>)
    ensures Init(Start()) && Runs(Start(), es) && After(Start(), es) == Done()
  {
    hide Next, Enabled, Runs, After, At, Begun, Load, Containers, Start, Done;
    StartsFresh();
    ActivateIt();
    LockIt();
    PlanIt();
    BuildIt();
    PostIt();
    ReadBackIt();
    ListIt();
    StopIt();
    EndIt();
    var s0 := Start();
    var s1 := Next(s0, Begin(APP, "r2"));
    var s2 := Next(s1, Activate(APP));
    var s3 := Next(s2, Lock(Switch(APP)));
    var s4 := Next(s3, PlanApp(APP, Some(Containers())));
    var s5 := Next(s4, Build);
    var s6 := Next(s5, PostOk);
    var s7 := Next(s6, ReadBack(true));
    var s8 := Next(s7, ListStale(APP, ["r1"]));
    var s9 := Next(s8, DrainStop(APP, {1}));
    es := [];
    RunNone(Done());
    RunOne(s9, DrainDone(APP), es); es := [DrainDone(APP)] + es;
    RunOne(s8, DrainStop(APP, {1}), es); es := [DrainStop(APP, {1})] + es;
    RunOne(s7, ListStale(APP, ["r1"]), es); es := [ListStale(APP, ["r1"])] + es;
    RunOne(s6, ReadBack(true), es); es := [ReadBack(true)] + es;
    RunOne(s5, PostOk, es); es := [PostOk] + es;
    RunOne(s4, Build, es); es := [Build] + es;
    RunOne(s3, PlanApp(APP, Some(Containers())), es); es := [PlanApp(APP, Some(Containers()))] + es;
    RunOne(s2, Lock(Switch(APP)), es); es := [Lock(Switch(APP))] + es;
    RunOne(s1, Activate(APP), es); es := [Activate(APP)] + es;
    RunOne(s0, Begin(APP, "r2"), es); es := [Begin(APP, "r2")] + es;
  }

  // ---- A load that skips the application it was made for ----

  const MADE := Container(3, "r3", 0, false, None)
  const UP := Container(3, "r3", 0, true, Some(Ip(3)))
  const ALL: seq<ReleaseId> := ["r1", "r2", "r3"]

  // After the switch to r2, with a container for r3.
  function Third(third: Container, acts: seq<ReleaseId>, ops: map<AppId, Op>, job: Option<Job>): State {
    Done().(host := map[APP := [STOPPED, NEW, third]], history := map[APP := acts], ops := ops, job := job,
      origin := map[1 := (APP, "r1"), 2 := (APP, "r2"), 3 := (APP, "r3")], nextId := 4)
  }

  function Deploying(p: Phase): map<AppId, Op> { map[APP := Op("r3", p)] }

  function Skipping(stage: Stage, pending: set<AppId>, skipped: set<AppId>): Option<Job> {
    Some(Job(Switch(APP), stage, map[APP := 2], pending, map[], skipped))
  }

  // The load without the application is live.
  function Unrouted(ops: map<AppId, Op>, job: Option<Job>): State {
    Third(UP, ALL, ops, job).(live := map[], loads := LOADED + [map[]])
  }

  lemma BringUp()
    ensures var s := Done();
      && Enabled(s, Begin(APP, "r3"))
      && var s1 := Next(s, Begin(APP, "r3"));
      && Enabled(s1, Create(APP, "r3", 0))
      && Next(s1, Create(APP, "r3", 0)) == Third(MADE, BOTH, Deploying(Starting), None)
  {
    assert [STOPPED, NEW] + [MADE] == [STOPPED, NEW, MADE];
  }

  lemma StartUp()
    ensures var s := Third(MADE, BOTH, Deploying(Starting), None);
      && Enabled(s, Event.Start(APP, 2, Some(Ip(3))))
      && Next(s, Event.Start(APP, 2, Some(Ip(3)))) == Third(UP, BOTH, Deploying(Starting), None)
  {
    assert [STOPPED, NEW, MADE][2 := UP] == [STOPPED, NEW, UP];
    assert {1} - {3} == {1};
  }

  lemma ActivateUp()
    ensures var s := Third(UP, BOTH, Deploying(Starting), None);
      Enabled(s, Activate(APP)) && Next(s, Activate(APP)) == Third(UP, ALL, Deploying(Activated), None)
  {
    assert BOTH + ["r3"] == ALL;
  }

  lemma LockUp()
    ensures var s := Third(UP, ALL, Deploying(Activated), None);
      && Enabled(s, Lock(Switch(APP)))
      && Next(s, Lock(Switch(APP))) == Third(UP, ALL, Deploying(Reconciling), Skipping(Planning, {APP}, {}))
  {
    var s := Third(UP, ALL, Deploying(Activated), None);
    assert OpenPositions(s) == map[APP := 2];
    assert (set a | a in OpenPositions(s) && s.apps[a].domain != "") == {APP};
  }

  // Listing the containers fails once, or r3's have just crashed.
  lemma SkipUp()
    ensures var s := Third(UP, ALL, Deploying(Reconciling), Skipping(Planning, {APP}, {}));
      && Enabled(s, PlanApp(APP, None))
      && Next(s, PlanApp(APP, None)) == Third(UP, ALL, Deploying(Reconciling), Skipping(Planning, {}, {APP}))
  {
    assert {APP} - {APP} == {} && {} + {APP} == {APP};
  }

  lemma BuildUp()
    ensures var s := Third(UP, ALL, Deploying(Reconciling), Skipping(Planning, {}, {APP}));
      Enabled(s, Build) && Next(s, Build) == Third(UP, ALL, Deploying(Reconciling), Skipping(Ready, {}, {APP}))
  {
  }

  lemma PostUp()
    ensures var s := Third(UP, ALL, Deploying(Reconciling), Skipping(Ready, {}, {APP}));
      Enabled(s, PostOk) && Next(s, PostOk) == Unrouted(Deploying(Reconciling), Skipping(Posted, {}, {APP}))
  {
    assert Positions(map[]) == map[];
    assert map[APP := 1] + map[] == map[APP := 1];
  }

  lemma ReadBackUp()
    ensures var s := Unrouted(Deploying(Reconciling), Skipping(Posted, {}, {APP}));
      Enabled(s, ReadBack(true)) && Next(s, ReadBack(true)) == Unrouted(map[], None)
  {
    assert Deploying(Reconciling) - {APP} == map[];
  }

  // From the end of the first switch to the read-back of the second.
  lemma SkippedSwitch() returns (es: seq<Event>)
    ensures Runs(Done(), es) && After(Done(), es) == Unrouted(Deploying(Reconciling), Skipping(Posted, {}, {APP}))
  {
    hide Next, Enabled, Runs, After, Third, Deploying, Skipping, Unrouted, Done;
    BringUp();
    StartUp();
    ActivateUp();
    LockUp();
    SkipUp();
    BuildUp();
    PostUp();
    var s0 := Done();
    var s1 := Next(s0, Begin(APP, "r3"));
    var s2 := Next(s1, Create(APP, "r3", 0));
    var s3 := Next(s2, Event.Start(APP, 2, Some(Ip(3))));
    var s4 := Next(s3, Activate(APP));
    var s5 := Next(s4, Lock(Switch(APP)));
    var s6 := Next(s5, PlanApp(APP, None));
    var s7 := Next(s6, Build);
    var s8 := Next(s7, PostOk);
    es := [];
    RunNone(s8);
    RunOne(s7, PostOk, es); es := [PostOk] + es;
    RunOne(s6, Build, es); es := [Build] + es;
    RunOne(s5, PlanApp(APP, None), es); es := [PlanApp(APP, None)] + es;
    RunOne(s4, Lock(Switch(APP)), es); es := [Lock(Switch(APP))] + es;
    RunOne(s3, Activate(APP), es); es := [Activate(APP)] + es;
    RunOne(s2, Event.Start(APP, 2, Some(Ip(3))), es); es := [Event.Start(APP, 2, Some(Ip(3)))] + es;
    RunOne(s1, Create(APP, "r3", 0), es); es := [Create(APP, "r3", 0)] + es;
    RunOne(s0, Begin(APP, "r3"), es); es := [Begin(APP, "r3")] + es;
  }

  /** From a fresh start: r1 is switched to r2, then r3 is deployed and its containers cannot be
    * listed once. The load removes the route to r2, and the operation ends with r2 and r3 both
    * running and nothing live. */
  lemma SkippedSwitchRuns() returns (es: seq<Event>)
    ensures Runs(Start(), es) && After(Start(), es) == Unrouted(Deploying(Reconciling), Skipping(Posted, {}, {APP}))
    ensures Runs(Start(), es + [ReadBack(true)]) && After(Start(), es + [ReadBack(true)]) == Unrouted(map[], None)
  {
    hide Next, Enabled, Runs, After, Third, Deploying, Skipping, Unrouted, Start, Done;
    var first := SwitchRunsToTheEnd();
    var second := SkippedSwitch();
    RunsConcat(Start(), first, second);
    es := first + second;
    ReadBackUp();
    var s := Unrouted(Deploying(Reconciling), Skipping(Posted, {}, {APP}));
    RunNone(Next(s, ReadBack(true)));
    RunOne(s, ReadBack(true), []);
    assert [ReadBack(true)] + [] == [ReadBack(true)];
    RunsConcat(Start(), es, [ReadBack(true)]);
  }
}
