/** internal/deploy/reconcile.go: the control plane's state mirrored into the proxy, and the
  * watcher of cmd/kadrand/proxywatch.go that repairs it. One call at a time: the mutex. */
module Reconciler {
  import opened Wrappers
  import opened ProxyConfig
  import opened Routing

  // What the host lists for an application at the moment it is asked; None is an error.
  type Listings = AppId -> Option<seq<Replica>>

  // ---- The live proxy ----

  datatype Post = Applied | AnswerLost | Refused

  /** How one load goes: the POST, what is live by the time of the read-back (None: what was
    * posted), and whether the read-back can be decoded. */
  datatype Wire = Wire(post: Post, seen: Option<Config>, readable: bool)

  class Proxy {
    var live: Config
    ghost var posts: seq<Config>

    constructor ()
      ensures live == EMPTY && posts == []
    {
      live, posts := EMPTY, [];
    }

    /** A load that reports success has seen its own routes live, and no others. */
    method Load(cfg: Config, w: Wire) returns (ok: bool)
      modifies this
      ensures posts == old(posts) + [cfg]
      ensures w.post.Refused? ==> live == old(live)
      ensures !w.post.Refused? ==> live == if w.seen.Some? then w.seen.value else cfg
      ensures ok <==> w.post.Applied? && w.readable && SameRoutes(RoutesOf(cfg), RoutesOf(live))
    {
      posts := posts + [cfg];
      if w.post.Refused? { return false; }
      live := if w.seen.Some? then w.seen.value else cfg;
      if w.post.AnswerLost? || !w.readable { return false; }
      ok := VerifyApplied(cfg, live);
    }
  }

  // ---- plan ----

  function RouteOf(d: Deployment, hosts: Listings): Result<seq<Dial>, SkipReason> {
    Upstreams(d, hosts(d.app))
  }

  datatype Plan = Plan(routes: seq<AppRoute>, skippedDomains: map<AppId, Host>, skipped: map<AppId, SkipReason>)

  function PlanOf(deps: seq<Deployment>, hosts: Listings): Plan {
    if deps == [] then Plan([], map[], map[])
    else
      var p, d := PlanOf(deps[..|deps| - 1], hosts), deps[|deps| - 1];
      if d.domain == "" then p
      else match RouteOf(d, hosts)
        case Ok(ups) => p.(routes := p.routes + [AppRoute(d.app, d.domain, ups)])
        case Err(why) => p.(skippedDomains := p.skippedDomains[d.app := d.domain], skipped := p.skipped[d.app := why])
  }

  method MakePlan(deps: seq<Deployment>, hosts: Listings) returns (p: Plan)
    ensures p == PlanOf(deps, hosts)
  {
    p := Plan([], map[], map[]);
    for i := 0 to |deps|
      invariant p == PlanOf(deps[..i], hosts)
    {
      var d := deps[i];
      assert deps[..i + 1][..i] == deps[..i];
      if d.domain == "" { continue; }
      var ups := UpstreamsFor(d, hosts(d.app));
      match ups
      case Err(why) =>
        p := p.(skippedDomains := p.skippedDomains[d.app := d.domain], skipped := p.skipped[d.app := why]);
      case Ok(u) => p := p.(routes := p.routes + [AppRoute(d.app, d.domain, u)]);
    }
    assert deps[..|deps|] == deps;
  }

  // The schema's UNIQUE constraints.
  predicate UniqueDomains(deps: seq<Deployment>) {
    forall i, j :: 0 <= i < j < |deps| && deps[i].domain != "" ==> deps[i].domain != deps[j].domain
  }

  // A deployment with a domain is routed by r.
  predicate Routes(d: Deployment, hosts: Listings, r: AppRoute) {
    d.domain != "" && r.app == d.app && r.domain == d.domain && RouteOf(d, hosts) == Ok(r.upstreams)
  }

  predicate Skips(d: Deployment, hosts: Listings) {
    d.domain != "" && RouteOf(d, hosts).Err?
  }

  // Where a domain in the plan comes from.
  ghost predicate FromDeps(deps: seq<Deployment>, hosts: Listings, p: Plan) {
    && (forall r :: r in p.routes ==> exists d :: d in deps && Routes(d, hosts, r))
    && (forall a :: a in p.skippedDomains ==> exists d :: d in deps && Skips(d, hosts) && d.app == a && d.domain == p.skippedDomains[a])
    && (forall d :: d in deps && d.domain != "" ==>
          if Skips(d, hosts) then d.app in p.skippedDomains && d.app in p.skipped
          else AppRoute(d.app, d.domain, RouteOf(d, hosts).value) in p.routes)
  }

  /** Every deployment with a domain is either routed or skipped with a reason, and nothing
    * else is in the plan; unique domains make the plan buildable. */
  lemma {:induction false} PlanFacts(deps: seq<Deployment>, hosts: Listings)
    ensures FromDeps(deps, hosts, PlanOf(deps, hosts))
    ensures UniqueDomains(deps) ==> Buildable(PlanOf(deps, hosts).routes)
  {
    hide RouteOf, Routable, Fits;
    var p := PlanOf(deps, hosts);
    if deps == [] {
      RoutableNone();
    } else {
      var n := |deps| - 1;
      var init, d := deps[..n], deps[n];
      assert deps == init + [d];
      PlanFacts(init, hosts);
      PlanStep(init, hosts, d, PlanOf(init, hosts), p);
      if UniqueDomains(deps) {
        assert UniqueDomains(init);
        if d.domain != "" && RouteOf(d, hosts).Ok? {
          NewDomainFits(init, hosts, d, PlanOf(init, hosts));
          LastRoute(p.routes);
          assert p.routes[..|p.routes| - 1] == PlanOf(init, hosts).routes;
          RoutableAdd(multiset(PlanOf(init, hosts).routes), p.routes[|p.routes| - 1]);
        }
      }
    }
  }

  lemma PlanStep(init: seq<Deployment>, hosts: Listings, d: Deployment, p: Plan, p': Plan)
    requires FromDeps(init, hosts, p)
    requires p' == (if d.domain == "" then p
      else match RouteOf(d, hosts)
        case Ok(ups) => p.(routes := p.routes + [AppRoute(d.app, d.domain, ups)])
        case Err(why) => p.(skippedDomains := p.skippedDomains[d.app := d.domain], skipped := p.skipped[d.app := why]))
    ensures FromDeps(init + [d], hosts, p')
  {
    hide RouteOf;
    var deps := init + [d];
    assert d in deps && forall e :: e in init ==> e in deps;
    forall r | r in p'.routes ensures exists e :: e in deps && Routes(e, hosts, r) {
      if r in p.routes {
        var e :| e in init && Routes(e, hosts, r);
        assert e in deps;
      } else {
        assert Routes(d, hosts, r);
      }
    }
    forall a | a in p'.skippedDomains
      ensures exists e :: e in deps && Skips(e, hosts) && e.app == a && e.domain == p'.skippedDomains[a]
    {
      if a in p.skippedDomains && p'.skippedDomains[a] == p.skippedDomains[a] {
        var e :| e in init && Skips(e, hosts) && e.app == a && e.domain == p.skippedDomains[a];
        assert e in deps;
      } else {
        assert Skips(d, hosts);
      }
    }
  }

  // Every skipped application is skipped for the reason its own containers give.
  lemma {:induction false} ReasonsAre(deps: seq<Deployment>, hosts: Listings, a: AppId)
    requires a in PlanOf(deps, hosts).skipped
    ensures exists d :: d in deps && d.domain != "" && d.app == a && RouteOf(d, hosts) == Err(PlanOf(deps, hosts).skipped[a])
  {
    hide RouteOf;
    var n := |deps| - 1;
    var init, d := deps[..n], deps[n];
    assert deps == init + [d];
    if d.domain == "" || d.app != a || RouteOf(d, hosts).Ok? {
      ReasonsAre(init, hosts, a);
      var e :| e in init && e.domain != "" && e.app == a && RouteOf(e, hosts) == Err(PlanOf(init, hosts).skipped[a]);
      assert e in deps;
    } else {
      assert d in deps;
    }
  }

  lemma NewDomainFits(init: seq<Deployment>, hosts: Listings, d: Deployment, p: Plan)
    requires UniqueDomains(init + [d]) && d.domain != "" && RouteOf(d, hosts).Ok?
    requires FromDeps(init, hosts, p)
    ensures Fits(multiset(p.routes), AppRoute(d.app, d.domain, RouteOf(d, hosts).value))
  {
    RouteNotEmpty(d, hosts);
    hide RouteOf;
    forall q | q in multiset(p.routes) ensures q.domain != d.domain {
      assert q in p.routes;
      var e :| e in init && Routes(e, hosts, q);
      var i :| 0 <= i < |init| && init[i] == e;
      assert (init + [d])[i] == e && (init + [d])[|init|] == d;
    }
  }

  lemma RouteNotEmpty(d: Deployment, hosts: Listings)
    ensures RouteOf(d, hosts).Ok? ==> RouteOf(d, hosts).value != []
  {
  }

  // The plan names no domain twice, routed and skipped together.
  ghost predicate Distinct(p: Plan) {
    && Buildable(p.routes)
    && (forall r, a :: r in p.routes && a in p.skippedDomains ==> r.domain != p.skippedDomains[a])
    && (forall a, b :: a in p.skippedDomains && b in p.skippedDomains && a != b ==> p.skippedDomains[a] != p.skippedDomains[b])
  }

  lemma SameDomain(deps: seq<Deployment>, d: Deployment, e: Deployment)
    requires UniqueDomains(deps) && d in deps && e in deps && d.domain == e.domain != ""
    ensures d == e
  {
    var i :| 0 <= i < |deps| && deps[i] == d;
    var j :| 0 <= j < |deps| && deps[j] == e;
  }

  lemma UniqueIsDistinct(deps: seq<Deployment>, hosts: Listings)
    requires UniqueDomains(deps)
    ensures Distinct(PlanOf(deps, hosts))
  {
    hide PlanOf, RouteOf, Routable, UniqueDomains;
    PlanFacts(deps, hosts);
    var p := PlanOf(deps, hosts);
    forall r, a | r in p.routes && a in p.skippedDomains ensures r.domain != p.skippedDomains[a] {
      var d :| d in deps && Routes(d, hosts, r);
      var e :| e in deps && Skips(e, hosts) && e.app == a && e.domain == p.skippedDomains[a];
      if r.domain == e.domain { SameDomain(deps, d, e); }
    }
    forall a, b | a in p.skippedDomains && b in p.skippedDomains && a != b
      ensures p.skippedDomains[a] != p.skippedDomains[b]
    {
      var d :| d in deps && Skips(d, hosts) && d.app == a && d.domain == p.skippedDomains[a];
      var e :| e in deps && Skips(e, hosts) && e.app == b && e.domain == p.skippedDomains[b];
      if d.domain == e.domain { SameDomain(deps, d, e); }
    }
  }

  // ---- Carrying the live routes of skipped applications over ----

  function CarriedRoute(p: Plan, live: Config, a: AppId): AppRoute
    requires a in p.skippedDomains
  {
    AppRoute(a, p.skippedDomains[a], LiveUpstreams(live, p.skippedDomains[a]))
  }

  // For the applications in done, extra holds the route of each with a usable live upstream.
  ghost predicate CarriedOver(p: Plan, live: Config, done: set<AppId>, extra: seq<AppRoute>) {
    && done <= p.skippedDomains.Keys
    && (forall r :: r in extra ==> r.app in done && r == CarriedRoute(p, live, r.app) && r.upstreams != [])
    && (forall a :: a in done && CarriedRoute(p, live, a).upstreams != [] ==> CarriedRoute(p, live, a) in extra)
  }

  lemma CarryOne(p: Plan, live: Config, done: set<AppId>, extra: seq<AppRoute>, a: AppId)
    requires CarriedOver(p, live, done, extra) && a in p.skippedDomains && a !in done
    ensures var r := CarriedRoute(p, live, a);
      && (r.upstreams == [] ==> CarriedOver(p, live, done + {a}, extra))
      && (r.upstreams != [] ==> CarriedOver(p, live, done + {a}, extra + [r]))
      && (r.upstreams != [] && Distinct(p) && Buildable(p.routes + extra) ==> Buildable(p.routes + extra + [r]))
  {
    hide LiveUpstreams, Routable;
    var r := CarriedRoute(p, live, a);
    if r.upstreams != [] && Distinct(p) && Buildable(p.routes + extra) {
      assert forall q :: q in multiset(p.routes + extra) <==> q in p.routes || q in extra;
      assert Fits(multiset(p.routes + extra), r);
      RoutableAdd(multiset(p.routes + extra), r);
      LastRoute(p.routes + extra + [r]);
      assert (p.routes + extra + [r])[..|p.routes + extra|] == p.routes + extra;
    }
  }

  method CarrySkipped(p: Plan, live: Config) returns (routes: seq<AppRoute>, ghost extra: seq<AppRoute>)
    ensures routes == p.routes + extra && CarriedOver(p, live, p.skippedDomains.Keys, extra)
    ensures Distinct(p) ==> Buildable(routes)
  {
    hide LiveUpstreams, Routable, CarriedOver;
    routes, extra := p.routes, [];
    assert p.routes + [] == p.routes;
    var todo := p.skippedDomains.Keys;
    ghost var done: set<AppId> := {};
    CarryNone(p, live);
    while todo != {}
      invariant done + todo == p.skippedDomains.Keys && done !! todo
      invariant routes == p.routes + extra && CarriedOver(p, live, done, extra)
      invariant Distinct(p) ==> Buildable(routes)
    {
      var a :| a in todo;
      CarryOne(p, live, done, extra, a);
      var ups := LiveUpstreams(live, p.skippedDomains[a]);
      if |ups| > 0 {
        var r := AppRoute(a, p.skippedDomains[a], ups);
        routes := routes + [r];
        extra := extra + [r];
      }
      todo, done := todo - {a}, done + {a};
    }
    assert done == p.skippedDomains.Keys;
  }

  lemma CarryNone(p: Plan, live: Config)
    ensures CarriedOver(p, live, {}, [])
  {
  }

  // ---- Reconcile and Repair ----

  datatype ReconcileError = DeploymentsUnread | Unbuildable | LiveUnread | CarriedUnbuildable | LoadFailed

  // On an error, what the caller sees of the result is not used.
  datatype RepairResult = RepairResult(error: Option<ReconcileError>, missing: set<Host>, skipped: map<AppId, SkipReason>, exact: bool)

  function Want(admin: string, p: Plan): Config { ConfigOf(admin, SortRoutes(p.routes)) }

  // The live routes are exactly these, upstreams in any order.
  ghost predicate LiveServes(live: Config, rs: seq<AppRoute>) {
    && (forall h :: h in RoutesOf(live) ==> exists r :: r in rs && r.domain == h && h != "")
    && (forall r :: r in rs && r.domain != "" ==>
          r.domain in RoutesOf(live) && multiset(RoutesOf(live)[r.domain]) == multiset(r.upstreams))
  }

  lemma ServedLive(cfg: Config, live: Config, rs: seq<AppRoute>)
    requires Serves(RoutesOf(cfg), multiset(rs)) && SameRoutes(RoutesOf(cfg), RoutesOf(live))
    ensures LiveServes(live, rs)
  {
    hide RoutesOf;
    assert RoutesOf(cfg).Keys == RoutesOf(live).Keys;
    forall h | h in RoutesOf(live) ensures exists r :: r in rs && r.domain == h && h != "" {
      assert h in RoutesOf(cfg).Keys;
      var r :| r in multiset(rs) && r.domain == h && h != "";
      assert r in rs;
    }
    forall r | r in rs && r.domain != ""
      ensures r.domain in RoutesOf(live) && multiset(RoutesOf(live)[r.domain]) == multiset(r.upstreams)
    {
      assert r in multiset(rs);
      assert r.domain in RoutesOf(cfg).Keys;
    }
  }

  // Every planned route is live once the plan and more has been loaded.
  lemma NothingMissing(admin: string, p: Plan, live: Config, rs: seq<AppRoute>)
    requires Buildable(p.routes) && LiveServes(live, rs) && p.routes <= rs
    ensures MissingHosts(Want(admin, p), live) == {}
  {
    hide RoutesOf, Want, SortRoutes, Routable, Generated;
    BuiltRoutes(admin, p.routes);
    forall h | h in RoutesOf(ConfigOf(admin, SortRoutes(p.routes))).Keys ensures h in RoutesOf(live) {
      var r :| r in multiset(p.routes) && r.domain == h && h != "";
      assert r in p.routes;
      assert r in rs;
    }
    WantIs(admin, p);
  }

  // The plan asks for this host.
  ghost predicate Asks(p: Plan, h: Host) { h != "" && exists r :: r in p.routes && r.domain == h }

  lemma MissingAre(admin: string, p: Plan, live: Config)
    requires Buildable(p.routes)
    ensures forall h :: h in MissingHosts(Want(admin, p), live) <==> Asks(p, h) && h !in RoutesOf(live)
  {
    hide RoutesOf, Want, SortRoutes, Routable, Generated;
    BuiltRoutes(admin, p.routes);
    WantIs(admin, p);
    forall h ensures h in RoutesOf(Want(admin, p)) <==> Asks(p, h) {
      if h in RoutesOf(Want(admin, p)) {
        var r :| r in multiset(p.routes) && r.domain == h && h != "";
        assert r in p.routes;
      }
      if Asks(p, h) {
        var r :| r in p.routes && r.domain == h;
        assert r in multiset(p.routes);
      }
    }
  }

  lemma WantIs(admin: string, p: Plan)
    ensures Want(admin, p) == ConfigOf(admin, SortRoutes(p.routes))
  {
  }

  // Something was posted, and the read-back did not confirm it.
  ghost predicate LoadFails(before: seq<Config>, posts: seq<Config>, live: Config, w: Wire) {
    && |posts| == |before| + 1 && posts[..|before|] == before
    && !(w.post.Applied? && w.readable && SameRoutes(RoutesOf(posts[|before|]), RoutesOf(live)))
  }

  class Reconciler {
    const admin: string
    const proxy: Proxy

    constructor (admin: string, proxy: Proxy)
      requires admin != ""
      ensures this.admin == admin && this.proxy == proxy
    {
      this.admin, this.proxy := admin, proxy;
    }

    /** A successful Reconcile leaves exactly the plan live; with unique domains it can only
      * fail to read the deployments or to load. */
    method Reconcile(deps: Option<seq<Deployment>>, hosts: Listings, w: Wire)
      returns (error: Option<ReconcileError>, skipped: map<AppId, SkipReason>)
      requires admin != ""
      modifies proxy
      ensures error == Some(DeploymentsUnread) <==> deps.None?
      ensures deps.Some? && UniqueDomains(deps.value) ==> error != Some(Unbuildable)
      ensures deps.Some? ==> skipped == PlanOf(deps.value, hosts).skipped
      ensures error in {None, Some(DeploymentsUnread), Some(Unbuildable), Some(LoadFailed)}
      ensures error == Some(Unbuildable) <==> deps.Some? && !Buildable(PlanOf(deps.value, hosts).routes)
      ensures error == Some(LoadFailed) ==> LoadFails(old(proxy.posts), proxy.posts, proxy.live, w)
      ensures error in {Some(DeploymentsUnread), Some(Unbuildable)} ==> proxy.posts == old(proxy.posts) && proxy.live == old(proxy.live)
      ensures error == None ==>
        deps.Some? && LiveServes(proxy.live, PlanOf(deps.value, hosts).routes)
      ensures error == None ==> |proxy.posts| == |old(proxy.posts)| + 1
      ensures deps.Some? && UniqueDomains(deps.value) && w == Wire(Applied, None, true) ==> error == None
    {
      hide PlanOf, Routable, LiveServes, Serves, SortRoutes, ConfigOf, RoutesOf, UniqueDomains;
      if deps.None? { return Some(DeploymentsUnread), map[]; }
      var p := MakePlan(deps.value, hosts);
      PlanFacts(deps.value, hosts);
      var cfg := BuildConfig(admin, p.routes);
      if cfg.Err? { return Some(Unbuildable), p.skipped; }
      var ok := proxy.Load(cfg.value, w);
      MatchIsEquivalence(cfg.value, cfg.value, cfg.value);
      if !ok { return Some(LoadFailed), p.skipped; }
      ServedLive(cfg.value, proxy.live, p.routes);
      return None, p.skipped;
    }

    /** Repair loads nothing when no planned host is missing. When one is, a success leaves
      * live exactly the plan plus, for every skipped application that had usable live
      * upstreams, those upstreams; then no host is missing, so the next Repair loads nothing.
      * With unique domains neither configuration it builds is refused. */
    method Repair(deps: Option<seq<Deployment>>, hosts: Listings, reachable: bool, w: Wire)
      returns (res: RepairResult)
      requires admin != ""
      modifies proxy
      ensures deps.Some? && UniqueDomains(deps.value) ==> res.error != Some(Unbuildable) && res.error != Some(CarriedUnbuildable)
      ensures res.error == Some(DeploymentsUnread) <==> deps.None?
      ensures res.error == Some(Unbuildable) <==> deps.Some? && !Buildable(PlanOf(deps.value, hosts).routes)
      ensures res.error == Some(LiveUnread) <==> deps.Some? && Buildable(PlanOf(deps.value, hosts).routes) && !reachable
      ensures res.error in {Some(DeploymentsUnread), Some(Unbuildable), Some(LiveUnread), Some(CarriedUnbuildable)} ==>
        proxy.posts == old(proxy.posts) && proxy.live == old(proxy.live)
      ensures res.error == Some(CarriedUnbuildable) ==> !Distinct(PlanOf(deps.value, hosts))
      ensures res.error == Some(LoadFailed) ==> LoadFails(old(proxy.posts), proxy.posts, proxy.live, w)
      ensures res.error == None ==> deps.Some? && reachable && res.skipped == PlanOf(deps.value, hosts).skipped
      ensures res.error == None ==> Buildable(PlanOf(deps.value, hosts).routes)
      ensures res.error == None ==> res.missing == MissingHosts(Want(admin, PlanOf(deps.value, hosts)), old(proxy.live))
      ensures res.error == None ==> MissingHosts(Want(admin, PlanOf(deps.value, hosts)), proxy.live) == {}
      ensures res.error == None ==> forall h ::
        h in res.missing <==> Asks(PlanOf(deps.value, hosts), h) && h !in RoutesOf(old(proxy.live))
      ensures res.error == None ==> forall h :: Asks(PlanOf(deps.value, hosts), h) ==> h in RoutesOf(proxy.live)
      ensures deps.Some? && UniqueDomains(deps.value) && reachable && w == Wire(Applied, None, true) ==>
        && res.error == None
        && ((exists h :: Asks(PlanOf(deps.value, hosts), h) && h !in RoutesOf(old(proxy.live))) ==>
              |proxy.posts| == |old(proxy.posts)| + 1)
      ensures res.error == None ==>
        |proxy.posts| == |old(proxy.posts)| + if exists h :: Asks(PlanOf(deps.value, hosts), h) && h !in RoutesOf(old(proxy.live)) then 1 else 0
      ensures res.missing == {} ==> proxy.posts == old(proxy.posts) && proxy.live == old(proxy.live)
      ensures res.missing != {} ==> |proxy.posts| <= |old(proxy.posts)| + 1
      ensures res.error == None && res.missing == {} ==>
        (res.exact <==> SameRoutes(RoutesOf(Want(admin, PlanOf(deps.value, hosts))), RoutesOf(proxy.live)))
      ensures res.error == None && res.missing != {} ==> res.exact && exists extra ::
        && CarriedOver(PlanOf(deps.value, hosts), old(proxy.live), PlanOf(deps.value, hosts).skippedDomains.Keys, extra)
        && LiveServes(proxy.live, PlanOf(deps.value, hosts).routes + extra)
    {
      hide PlanOf, Routable, LiveServes, Serves, SortRoutes, ConfigOf, RoutesOf, UniqueDomains, CarriedOver, Distinct, MissingHosts, SameRoutes, Asks;
      if deps.None? { return RepairResult(Some(DeploymentsUnread), {}, map[], false); }
      var p := MakePlan(deps.value, hosts);
      PlanFacts(deps.value, hosts);
      var cfg := BuildConfig(admin, p.routes);
      if cfg.Err? { return RepairResult(Some(Unbuildable), {}, p.skipped, false); }
      if !reachable { return RepairResult(Some(LiveUnread), {}, p.skipped, false); }
      var live := proxy.live;
      var missing := MissingHosts(cfg.value, live);
      MissingAre(admin, p, live);
      if missing == {} {
        var exact := VerifyApplied(cfg.value, live);
        return RepairResult(None, {}, p.skipped, exact);
      }
      var routes, extra := CarrySkipped(p, live);
      if UniqueDomains(deps.value) { UniqueIsDistinct(deps.value, hosts); }
      var cfg2 := BuildConfig(admin, routes);
      if cfg2.Err? { return RepairResult(Some(CarriedUnbuildable), missing, p.skipped, false); }
      var ok := proxy.Load(cfg2.value, w);
      MatchIsEquivalence(cfg2.value, cfg2.value, cfg2.value);
      if !ok { return RepairResult(Some(LoadFailed), missing, p.skipped, false); }
      ServedLive(cfg2.value, proxy.live, routes);
      NothingMissing(admin, p, proxy.live, routes);
      MissingAre(admin, p, proxy.live);
      return RepairResult(None, missing, p.skipped, true);
    }
  }

  // What may be carried over: an address and a port that can be dialled.
  predicate Usable(u: Dial) {
    u.AddrPort? && u.addr != 0 && 1 <= u.port <= 65535
  }

  lemma {:induction false} ValidDialsAreUsable(dials: seq<Dial>)
    ensures forall u :: u in ValidDials(dials) <==> u in dials && Usable(u)
    ensures (forall u :: u in dials ==> Usable(u)) ==> ValidDials(dials) == dials
  {
    if dials != [] {
      ValidDialsAreUsable(dials[1..]);
      assert dials == [dials[0]] + dials[1..];
      assert dials[0] in dials && forall u :: u in dials[1..] ==> u in dials;
      assert Usable(dials[0]) ==> ValidDials(dials) == [dials[0]] + ValidDials(dials[1..]);
    }
  }

  lemma {:induction false} ValidDialsCount(dials: seq<Dial>, u: Dial)
    ensures multiset(ValidDials(dials))[u] == if Usable(u) then multiset(dials)[u] else 0
  {
    if dials != [] {
      ValidDialsCount(dials[1..], u);
      assert dials == [dials[0]] + dials[1..];
      assert ValidDials(dials) == (if Usable(dials[0]) then [dials[0]] else []) + ValidDials(dials[1..]);
    }
  }

  /** What a repair load does to a skipped application: its usable live upstreams stay, all of
    * them and no others. */
  lemma SkippedKeepTheirs(p: Plan, before: Config, after: Config, extra: seq<AppRoute>, a: AppId)
    requires CarriedOver(p, before, p.skippedDomains.Keys, extra) && LiveServes(after, p.routes + extra)
    requires a in p.skippedDomains && p.skippedDomains[a] != ""
    requires var h := p.skippedDomains[a]; h in RoutesOf(before) && exists u :: u in RoutesOf(before)[h] && Usable(u)
    ensures var h := p.skippedDomains[a];
      h in RoutesOf(after)
      && forall u :: multiset(RoutesOf(after)[h])[u] == if Usable(u) then multiset(RoutesOf(before)[h])[u] else 0
    ensures var h := p.skippedDomains[a];
      (forall u :: u in RoutesOf(before)[h] ==> Usable(u)) ==>
        h in RoutesOf(after) && multiset(RoutesOf(after)[h]) == multiset(RoutesOf(before)[h])
  {
    hide RoutesOf, ValidDials;
    var h := p.skippedDomains[a];
    ValidDialsAreUsable(RoutesOf(before)[h]);
    forall u ensures multiset(ValidDials(RoutesOf(before)[h]))[u] == if Usable(u) then multiset(RoutesOf(before)[h])[u] else 0 {
      ValidDialsCount(RoutesOf(before)[h], u);
    }
    var r := CarriedRoute(p, before, a);
    assert r.upstreams != [];
    assert r in p.routes + extra;
  }

  // ---- The watcher ----

  const ALARM_AFTER := 3

  // What one tick learns: Repair failed, or it succeeded and all is well, or not quite; and
  // whether a write to the alarm table works then.
  datatype Outcome = Failed(works: bool) | Clean(works: bool) | Unclean

  function OutcomeOf(res: RepairResult, works: bool): Outcome {
    if res.error.Some? then Failed(works)
    else if res.exact && |res.skipped| == 0 then Clean(works)
    else Unclean
  }

  // The failed ticks in a row at the end.
  function Failures(outs: seq<Outcome>): nat {
    if outs == [] || !outs[|outs| - 1].Failed? then 0 else 1 + Failures(outs[..|outs| - 1])
  }

  function AlarmAfter(open: bool, outs: seq<Outcome>): bool {
    if outs == [] then open
    else match outs[|outs| - 1]
      case Failed(works) => (works && Failures(outs) >= ALARM_AFTER) || AlarmAfter(open, outs[..|outs| - 1])
      case Clean(works) => !works && AlarmAfter(open, outs[..|outs| - 1])
      case Unclean => AlarmAfter(open, outs[..|outs| - 1])
  }

  // Three ticks in a row ending with tick i failed.
  predicate ThreeFailed(outs: seq<Outcome>, i: int) {
    2 <= i < |outs| && outs[i].Failed? && outs[i - 1].Failed? && outs[i - 2].Failed?
  }

  lemma {:induction false} FailuresCount(outs: seq<Outcome>)
    ensures Failures(outs) >= ALARM_AFTER <==> |outs| >= 1 && ThreeFailed(outs, |outs| - 1)
  {
    if outs != [] && outs[|outs| - 1].Failed? {
      var one := outs[..|outs| - 1];
      if one != [] && one[|one| - 1].Failed? {
        var two := one[..|one| - 1];
        assert two != [] ==> two[|two| - 1] == outs[|outs| - 3];
        assert Failures(outs) == 2 + Failures(two);
      }
    }
  }

  // Nothing after i closed the alarm.
  predicate NoCleanAfter(outs: seq<Outcome>, i: int) {
    forall k :: i < k < |outs| && 0 <= k ==> outs[k] != Clean(true)
  }

  // Tick i raised the alarm: the third failure in a row, or a later one, and the write worked.
  predicate Raises(outs: seq<Outcome>, i: int) { ThreeFailed(outs, i) && outs[i].works }

  // Some reason to alarm, and no clean tick after it.
  ghost predicate AlarmDue(open: bool, outs: seq<Outcome>) {
    (open && NoCleanAfter(outs, -1)) || exists i :: Raises(outs, i) && NoCleanAfter(outs, i)
  }

  /** The alarm is open after a run of ticks iff it was open, or three ticks in a row failed and
    * the last of them wrote the alarm, and no tick since found every application routed and the
    * live configuration exact and wrote that. */
  lemma {:induction false} AlarmOpenIff(open: bool, outs: seq<Outcome>)
    ensures AlarmAfter(open, outs) <==> AlarmDue(open, outs)
  {
    if outs != [] {
      var n := |outs| - 1;
      var init := outs[..n];
      AlarmOpenIff(open, init);
      FailuresCount(outs);
      DueStep(open, init, outs[n]);
      assert outs == init + [outs[n]];
    }
  }

  lemma DueStep(open: bool, init: seq<Outcome>, o: Outcome)
    ensures AlarmDue(open, init + [o]) <==>
      o != Clean(true) && (AlarmDue(open, init) || Raises(init + [o], |init|))
  {
    var outs := init + [o];
    assert forall i: int :: i < |init| ==> (Raises(init, i) <==> Raises(outs, i));
    forall i: int | i < |init| ensures NoCleanAfter(outs, i) <==> NoCleanAfter(init, i) && o != Clean(true) {
      OneMore(init, o, i);
    }
    assert NoCleanAfter(outs, |init|);
    assert Raises(outs, |init|) ==> o == Failed(true);
  }

  lemma OneMore(init: seq<Outcome>, o: Outcome, i: int)
    requires i < |init|
    ensures NoCleanAfter(init + [o], i) <==> NoCleanAfter(init, i) && o != Clean(true)
  {
    var outs := init + [o];
    assert outs[|init|] == o && forall k :: 0 <= k < |init| ==> outs[k] == init[k];
    if NoCleanAfter(outs, i) {
      forall k | i < k < |init| && 0 <= k ensures init[k] != Clean(true) { assert outs[k] != Clean(true); }
    }
  }

  lemma {:induction false} SkippedKeys(deps: seq<Deployment>, hosts: Listings)
    ensures PlanOf(deps, hosts).skipped.Keys == PlanOf(deps, hosts).skippedDomains.Keys
  {
    hide RouteOf;
    if deps != [] { SkippedKeys(deps[..|deps| - 1], hosts); }
  }

  lemma CarriedFor(p: Plan, live: Config, done: set<AppId>, extra: seq<AppRoute>)
    requires CarriedOver(p, live, done, extra)
    ensures extra != [] ==> done != {}
  {
    if extra != [] { assert extra[0] in extra; }
  }

  // What an exact repair with nothing skipped knows of the live configuration.
  lemma ExactPlan(admin: string, deps: seq<Deployment>, hosts: Listings, before: Config, after: Config, res: RepairResult)
    requires var p := PlanOf(deps, hosts); Buildable(p.routes) && p.skipped == map[] && res.exact
    requires res.missing == {} ==> SameRoutes(RoutesOf(Want(admin, PlanOf(deps, hosts))), RoutesOf(after))
    requires res.missing != {} ==> exists extra ::
      && CarriedOver(PlanOf(deps, hosts), before, PlanOf(deps, hosts).skippedDomains.Keys, extra)
      && LiveServes(after, PlanOf(deps, hosts).routes + extra)
    ensures LiveServes(after, PlanOf(deps, hosts).routes)
  {
    hide PlanOf, LiveServes, SameRoutes, RoutesOf, SortRoutes, ConfigOf, Routable;
    var p := PlanOf(deps, hosts);
    if res.missing == {} {
      BuiltRoutes(admin, p.routes);
      ServedLive(Want(admin, p), after, p.routes);
    } else {
      SkippedKeys(deps, hosts);
      var extra :| CarriedOver(p, before, p.skippedDomains.Keys, extra) && LiveServes(after, p.routes + extra);
      CarriedFor(p, before, p.skippedDomains.Keys, extra);
      assert p.routes + extra == p.routes;
    }
  }

  lemma OneMoreOutcome(open: bool, outs: seq<Outcome>, o: Outcome)
    ensures Failures(outs + [o]) == if o.Failed? then Failures(outs) + 1 else 0
    ensures AlarmAfter(open, outs + [o]) == match o
      case Failed(works) => (works && Failures(outs) + 1 >= ALARM_AFTER) || AlarmAfter(open, outs)
      case Clean(works) => !works && AlarmAfter(open, outs)
      case Unclean => AlarmAfter(open, outs)
  {
    assert (outs + [o])[..|outs|] == outs;
  }

  class ProxyWatcher {
    const reconciler: Reconciler
    var failures: nat
    var alarm: bool
    ghost const wasOpen: bool
    ghost var outs: seq<Outcome>

    ghost predicate Valid()
      reads this
    {
      failures == Failures(outs) && alarm == AlarmAfter(wasOpen, outs)
    }

    // The alarm may be open already: the startup reconciliation raises the same one.
    constructor (rc: Reconciler, open: bool)
      ensures Valid() && reconciler == rc && wasOpen == open && outs == []
    {
      reconciler, failures, alarm, wasOpen, outs := rc, 0, open, open, [];
    }

    /** A tick that leaves the alarm closed where it was open has just seen every planned
      * application routed and the live configuration equal to the plan both ways. */
    method Tick(deps: Option<seq<Deployment>>, hosts: Listings, reachable: bool, w: Wire, works: bool)
      returns (ghost r: RepairResult)
      requires Valid() && reconciler.admin != ""
      modifies this, reconciler.proxy
      ensures Valid() && outs == old(outs) + [OutcomeOf(r, works)]
      ensures r.error == None ==> deps.Some? && MissingHosts(Want(reconciler.admin, PlanOf(deps.value, hosts)), reconciler.proxy.live) == {}
      ensures deps.None? || !reachable ==> r.error.Some?
      ensures r.error == None ==> forall h :: Asks(PlanOf(deps.value, hosts), h) ==> h in RoutesOf(reconciler.proxy.live)
      ensures deps.Some? && UniqueDomains(deps.value) && reachable && w == Wire(Applied, None, true) ==> r.error == None
      ensures failures == if r.error.Some? then old(failures) + 1 else 0
      ensures alarm == if r.error.Some? then old(alarm) || (works && failures >= 3)
        else old(alarm) && !(works && r.exact && r.skipped == map[])
      ensures old(alarm) && !alarm ==>
        && deps.Some? && PlanOf(deps.value, hosts).skipped == map[]
        && LiveServes(reconciler.proxy.live, PlanOf(deps.value, hosts).routes)
    {
      hide PlanOf, LiveServes, CarriedOver, SameRoutes, RoutesOf, MissingHosts, Want, Routable, Failures, AlarmAfter, UniqueDomains, Asks;
      var res := reconciler.Repair(deps, hosts, reachable, w);
      r := res;
      OneMoreOutcome(wasOpen, outs, OutcomeOf(res, works));
      outs := outs + [OutcomeOf(res, works)];
      if res.error.Some? {
        failures := failures + 1;
        if failures >= ALARM_AFTER && works { alarm := true; }
        return;
      }
      failures := 0;
      if res.exact && |res.skipped| == 0 && works {
        alarm := false;
        ExactPlan(reconciler.admin, deps.value, hosts, old(reconciler.proxy.live), reconciler.proxy.live, res);
      }
    }
  }
}
