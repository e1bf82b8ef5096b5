/** internal/proxydrv: the reverse proxy's configuration, and the comparison of what
  * was sent with what is live. */
module ProxyConfig {
  import opened Text
  import opened Wrappers

  type Host = string

  // ---- Addresses ----

  // A text that netip.ParseAddr refuses, or an address; 0 is the unspecified one.
  datatype IpText = NotAnIp | Ip(addr: nat)

  // A dial string: address and port, or anything else that can stand in a live configuration.
  datatype Dial = AddrPort(addr: nat, port: nat) | OtherDial(text: string)

  function NewUpstream(ip: IpText, port: nat): Option<Dial> {
    match ip
    case NotAnIp => None
    case Ip(addr) => if addr == 0 || port == 0 || port > 65535 then None else Some(AddrPort(addr, port))
  }

  // ---- The part of Caddy's configuration that is generated ----

  datatype Handler = Handler(name: string, upstreams: seq<Dial>)

  datatype Route = Route(hosts: seq<seq<Host>>, handle: seq<Handler>, terminal: bool)

  // The servers in the order the map is walked; a nil server has no routes.
  datatype Config = Config(adminListen: string, servers: seq<Option<seq<Route>>>)

  const EMPTY := Config("", [])

  // ---- routesByHost ----

  type Routes = map<Host, seq<Dial>>

  function HandlerDials(hs: seq<Handler>): seq<Dial> {
    if hs == [] then [] else HandlerDials(hs[..|hs| - 1]) + hs[|hs| - 1].upstreams
  }

  function AddDials(m: Routes, hosts: seq<Host>, dials: seq<Dial>): Routes {
    if hosts == [] then m
    else
      var m' := AddDials(m, hosts[..|hosts| - 1], dials);
      var h := hosts[|hosts| - 1];
      m'[h := (if h in m' then m'[h] else []) + dials]
  }

  function AddMatches(m: Routes, matches: seq<seq<Host>>, dials: seq<Dial>): Routes {
    if matches == [] then m
    else AddDials(AddMatches(m, matches[..|matches| - 1], dials), matches[|matches| - 1], dials)
  }

  function AddRoutes(m: Routes, rs: seq<Route>): Routes {
    if rs == [] then m
    else
      var r := rs[|rs| - 1];
      AddMatches(AddRoutes(m, rs[..|rs| - 1]), r.hosts, HandlerDials(r.handle))
  }

  function AddServers(servers: seq<Option<seq<Route>>>): Routes {
    if servers == [] then map[]
    else
      var m := AddServers(servers[..|servers| - 1]);
      match servers[|servers| - 1]
      case None => m
      case Some(rs) => AddRoutes(m, rs)
  }

  function RoutesOf(cfg: Config): Routes { AddServers(cfg.servers) }

  lemma Snoc<T>(s: seq<T>, i: nat)
    requires i < |s|
    ensures s[..i + 1][..i] == s[..i] && s[..i + 1][i] == s[i]
  {
  }

  method RoutesByHost(cfg: Config) returns (out: Routes)
    ensures out == RoutesOf(cfg)
  {
    out := map[];
    for i := 0 to |cfg.servers|
      invariant out == AddServers(cfg.servers[..i])
    {
      Snoc(cfg.servers, i);
      if cfg.servers[i].Some? {
        var routes := cfg.servers[i].value;
        ghost var base := out;
        for j := 0 to |routes|
          invariant out == AddRoutes(base, routes[..j])
        {
          Snoc(routes, j);
          out := RouteHosts(out, routes[j]);
        }
        assert routes[..|routes|] == routes;
      }
    }
    assert cfg.servers[..|cfg.servers|] == cfg.servers;
  }

  // The body of the loop over one server's routes.
  method RouteHosts(m: Routes, r: Route) returns (out: Routes)
    ensures out == AddMatches(m, r.hosts, HandlerDials(r.handle))
  {
    out := m;
    var dials: seq<Dial> := [];
    for i := 0 to |r.handle|
      invariant dials == HandlerDials(r.handle[..i])
    {
      Snoc(r.handle, i);
      dials := dials + r.handle[i].upstreams;
    }
    assert r.handle[..|r.handle|] == r.handle;
    for i := 0 to |r.hosts|
      invariant out == AddMatches(m, r.hosts[..i], dials)
    {
      Snoc(r.hosts, i);
      ghost var base := out;
      for j := 0 to |r.hosts[i]|
        invariant out == AddDials(base, r.hosts[i][..j], dials)
      {
        Snoc(r.hosts[i], j);
        var host := r.hosts[i][j];
        out := out[host := (if host in out then out[host] else []) + dials];
      }
      assert r.hosts[i][..|r.hosts[i]|] == r.hosts[i];
    }
    assert r.hosts[..|r.hosts|] == r.hosts;
  }

  // ---- What the host map holds ----

  function DialsOf(m: Routes, h: Host): multiset<Dial> { if h in m then multiset(m[h]) else multiset{} }

  function Times(hosts: seq<Host>, h: Host, dials: multiset<Dial>): multiset<Dial> {
    if hosts == [] then multiset{}
    else Times(hosts[..|hosts| - 1], h, dials) + if hosts[|hosts| - 1] == h then dials else multiset{}
  }

  function MatchDials(matches: seq<seq<Host>>, h: Host, dials: multiset<Dial>): multiset<Dial> {
    if matches == [] then multiset{}
    else MatchDials(matches[..|matches| - 1], h, dials) + Times(matches[|matches| - 1], h, dials)
  }

  function RouteDials(rs: seq<Route>, h: Host): multiset<Dial> {
    if rs == [] then multiset{}
    else
      var r := rs[|rs| - 1];
      RouteDials(rs[..|rs| - 1], h) + MatchDials(r.hosts, h, multiset(HandlerDials(r.handle)))
  }

  // What one server's routes send a host to, each upstream as often as it is listed for it.
  function ServerDials(s: Option<seq<Route>>, h: Host): multiset<Dial> {
    match s
    case None => multiset{}
    case Some(rs) => RouteDials(rs, h)
  }

  function AllDials(servers: seq<Option<seq<Route>>>, h: Host): multiset<Dial> {
    if servers == [] then multiset{} else AllDials(servers[..|servers| - 1], h) + ServerDials(servers[|servers| - 1], h)
  }

  predicate ListsHost(r: Route, h: Host) { exists hosts :: hosts in r.hosts && h in hosts }

  predicate RoutesHost(s: Option<seq<Route>>, h: Host) { s.Some? && exists r :: r in s.value && ListsHost(r, h) }

  lemma {:induction false} DialsAdded(m: Routes, hosts: seq<Host>, dials: seq<Dial>, h: Host)
    ensures h in AddDials(m, hosts, dials) <==> h in m || h in hosts
    ensures DialsOf(AddDials(m, hosts, dials), h) == DialsOf(m, h) + Times(hosts, h, multiset(dials))
  {
    hide DialsOf;
    if hosts != [] {
      var n := |hosts| - 1;
      DialsAdded(m, hosts[..n], dials, h);
      DialsAddedOnce(AddDials(m, hosts[..n], dials), hosts[n], dials, h);
      assert hosts == hosts[..n] + [hosts[n]];
    }
  }

  lemma DialsAddedOnce(m: Routes, host: Host, dials: seq<Dial>, h: Host)
    ensures DialsOf(m[host := (if host in m then m[host] else []) + dials], h)
      == DialsOf(m, h) + if host == h then multiset(dials) else multiset{}
  {
  }

  lemma {:induction false} MatchesAdded(m: Routes, matches: seq<seq<Host>>, dials: seq<Dial>, h: Host)
    ensures h in AddMatches(m, matches, dials) <==> h in m || exists hosts :: hosts in matches && h in hosts
    ensures DialsOf(AddMatches(m, matches, dials), h) == DialsOf(m, h) + MatchDials(matches, h, multiset(dials))
  {
    hide DialsOf, AddDials;
    if matches != [] {
      var n := |matches| - 1;
      MatchesAdded(m, matches[..n], dials, h);
      DialsAdded(AddMatches(m, matches[..n], dials), matches[n], dials, h);
      assert matches == matches[..n] + [matches[n]];
    }
  }

  lemma {:induction false} RoutesAdded(m: Routes, rs: seq<Route>, h: Host)
    ensures h in AddRoutes(m, rs) <==> h in m || exists r :: r in rs && ListsHost(r, h)
    ensures DialsOf(AddRoutes(m, rs), h) == DialsOf(m, h) + RouteDials(rs, h)
  {
    hide DialsOf, AddMatches, HandlerDials, MatchDials, ListsHost;
    if rs != [] {
      var n := |rs| - 1;
      RoutesAdded(m, rs[..n], h);
      RouteAdded(AddRoutes(m, rs[..n]), rs[n], h);
      assert rs == rs[..n] + [rs[n]];
      assert forall r :: r in rs <==> r in rs[..n] || r == rs[n];
    }
  }

  lemma RouteAdded(m: Routes, r: Route, h: Host)
    ensures h in AddMatches(m, r.hosts, HandlerDials(r.handle)) <==> h in m || ListsHost(r, h)
    ensures DialsOf(AddMatches(m, r.hosts, HandlerDials(r.handle)), h)
      == DialsOf(m, h) + MatchDials(r.hosts, h, multiset(HandlerDials(r.handle)))
  {
    hide DialsOf, AddMatches, HandlerDials;
    MatchesAdded(m, r.hosts, HandlerDials(r.handle), h);
  }

  /** A host is in the map iff some route of some server lists it, with or without upstreams; it
    * goes to the upstreams those routes give it, each as often as it is listed. */
  lemma {:induction false} HostMapIs(servers: seq<Option<seq<Route>>>, h: Host)
    ensures h in AddServers(servers) <==> exists s :: s in servers && RoutesHost(s, h)
    ensures DialsOf(AddServers(servers), h) == AllDials(servers, h)
  {
    hide DialsOf, AddRoutes, RouteDials, ListsHost;
    if servers == [] {
      NoDials(h);
    } else {
      var n := |servers| - 1;
      HostMapIs(servers[..n], h);
      if servers[n].Some? { RoutesAdded(AddServers(servers[..n]), servers[n].value, h); }
      assert servers == servers[..n] + [servers[n]];
      assert forall s :: s in servers <==> s in servers[..n] || s == servers[n];
      assert h in AddServers(servers) <==> h in AddServers(servers[..n]) || RoutesHost(servers[n], h);
    }
  }

  lemma NoDials(h: Host)
    ensures DialsOf(map[], h) == multiset{}
  {
  }

  lemma {:induction false} DialsWithout(servers: seq<Option<seq<Route>>>, i: nat, h: Host)
    requires i < |servers|
    ensures AllDials(servers, h) == AllDials(servers[..i] + servers[i + 1..], h) + ServerDials(servers[i], h)
  {
    hide ServerDials;
    var n := |servers| - 1;
    if i == n {
      assert servers[..i] + servers[i + 1..] == servers[..n];
    } else {
      DialsWithout(servers[..n], i, h);
      var rest := servers[..i] + servers[i + 1..];
      assert rest[..|rest| - 1] == servers[..n][..i] + servers[..n][i + 1..];
      assert rest[|rest| - 1] == servers[n];
    }
  }

  lemma {:induction false} DialsInAnyOrder(a: seq<Option<seq<Route>>>, b: seq<Option<seq<Route>>>, h: Host)
    requires multiset(a) == multiset(b)
    ensures AllDials(a, h) == AllDials(b, h)
    decreases |a|
  {
    hide ServerDials;
    assert |a| == |multiset(a)| == |multiset(b)| == |b|;
    if a != [] {
      var n := |a| - 1;
      assert a == a[..n] + [a[n]];
      assert a[n] in multiset(b);
      var i :| 0 <= i < |b| && b[i] == a[n];
      assert b == b[..i] + [b[i]] + b[i + 1..];
      var rest := b[..i] + b[i + 1..];
      assert multiset(rest) == multiset(b) - multiset{b[i]} == multiset(a[..n]);
      DialsWithout(b, i, h);
      DialsInAnyOrder(a[..n], rest, h);
    }
  }

  /** The order in which a configuration's servers are walked does not matter to the comparison. */
  lemma AnyWalkMatches(a: Config, b: Config)
    requires multiset(a.servers) == multiset(b.servers)
    ensures SameRoutes(RoutesOf(a), RoutesOf(b))
  {
    hide AddServers, AllDials, RoutesHost;
    forall h: Host ensures h in RoutesOf(a) <==> h in RoutesOf(b) {
      HostMapIs(a.servers, h);
      HostMapIs(b.servers, h);
      assert forall s :: s in a.servers <==> s in multiset(a.servers);
      assert forall s :: s in b.servers <==> s in multiset(b.servers);
    }
    forall h | h in RoutesOf(a) ensures multiset(RoutesOf(a)[h]) == multiset(RoutesOf(b)[h]) {
      HostMapIs(a.servers, h);
      HostMapIs(b.servers, h);
      DialsInAnyOrder(a.servers, b.servers, h);
      assert DialsOf(RoutesOf(a), h) == DialsOf(RoutesOf(b), h);
    }
  }

  // ---- Comparing sent and live ----

  /** Two lists are the same strings in any order, with the same multiplicities. */
  method SameStrings(a: seq<Dial>, b: seq<Dial>) returns (same: bool)
    ensures same <==> multiset(a) == multiset(b)
  {
    hide Counts, At;
    if |a| != |b| {
      assert |multiset(a)| != |multiset(b)|;
      return false;
    }
    var count: map<Dial, int> := map[];
    ghost var left: multiset<Dial> := multiset{};
    CountNothing();
    for i := 0 to |a|
      invariant left == multiset(a[..i]) && Counts(count, left)
    {
      TakeOneMore(a, i);
      CountUp(count, left, a[i]);
      count := count[a[i] := At(count, a[i]) + 1];
      left := left + multiset{a[i]};
    }
    assert a[..|a|] == a && b[..|b|] == b;
    for i := 0 to |b|
      invariant left + multiset(b[..i]) == multiset(a) && Counts(count, left)
    {
      TakeOneMore(b, i);
      CountDown(count, left, b[i]);
      count := count[b[i] := At(count, b[i]) - 1];
      if At(count, b[i]) < 0 {
        MoreOf(a, b, i, left);
        return false;
      }
      left := left - multiset{b[i]};
    }
    NothingLeft(a, b, left);
    return true;
  }

  // The counters are the strings of a not yet matched by a string of b.
  ghost predicate Counts(count: map<Dial, int>, left: multiset<Dial>) {
    forall d :: At(count, d) == left[d]
  }

  function At(count: map<Dial, int>, d: Dial): int {
    if d in count then count[d] else 0
  }

  lemma TakeOneMore(s: seq<Dial>, i: nat)
    requires i < |s|
    ensures multiset(s[..i + 1]) == multiset(s[..i]) + multiset{s[i]}
  {
    assert s[..i + 1] == s[..i] + [s[i]];
  }

  lemma CountNothing()
    ensures Counts(map[], multiset{})
  {
  }

  lemma CountUp(count: map<Dial, int>, left: multiset<Dial>, d: Dial)
    requires Counts(count, left)
    ensures Counts(count[d := At(count, d) + 1], left + multiset{d})
  {
  }

  lemma CountDown(count: map<Dial, int>, left: multiset<Dial>, d: Dial)
    requires Counts(count, left)
    ensures var count' := count[d := At(count, d) - 1];
      if d in left then At(count', d) >= 0 && Counts(count', left - multiset{d}) else At(count', d) < 0
  {
  }

  lemma MoreOf(a: seq<Dial>, b: seq<Dial>, i: nat, left: multiset<Dial>)
    requires i < |b| && left + multiset(b[..i]) == multiset(a) && b[i] !in left
    ensures multiset(a) != multiset(b)
  {
    TakeOneMore(b, i);
    assert b == b[..i + 1] + b[i + 1..];
    assert multiset(b)[b[i]] >= multiset(b[..i + 1])[b[i]];
  }

  lemma NothingLeft(a: seq<Dial>, b: seq<Dial>, left: multiset<Dial>)
    requires |a| == |b| && left + multiset(b) == multiset(a)
    ensures multiset(a) == multiset(b)
  {
    assert |left + multiset(b)| == |left| + |multiset(b)|;
  }

  /** The same hosts, and for each the same upstreams counted with multiplicity. */
  ghost predicate SameRoutes(a: Routes, b: Routes) {
    a.Keys == b.Keys && forall h :: h in a ==> multiset(a[h]) == multiset(b[h])
  }

  /** verifyApplied, which is also Matches: no host is missing, none is extra, and
    * every host has the same upstreams. */
  method VerifyApplied(want: Config, live: Config) returns (ok: bool)
    ensures ok <==> SameRoutes(RoutesOf(want), RoutesOf(live))
  {
    var wantRoutes := RoutesByHost(want);
    var liveRoutes := RoutesByHost(live);
    var todo := wantRoutes.Keys;
    while todo != {}
      invariant todo <= wantRoutes.Keys
      invariant forall h :: h in wantRoutes && h !in todo ==> h in liveRoutes && multiset(wantRoutes[h]) == multiset(liveRoutes[h])
    {
      var host :| host in todo;
      if host !in liveRoutes { return false; }
      var same := SameStrings(wantRoutes[host], liveRoutes[host]);
      if !same { return false; }
      todo := todo - {host};
    }
    var extra := set host | host in liveRoutes && host !in wantRoutes;
    if extra != {} {
      var host :| host in extra;
      assert host in liveRoutes.Keys && host !in wantRoutes.Keys;
      return false;
    }
    assert liveRoutes.Keys <= wantRoutes.Keys by {
      assert forall h :: h in liveRoutes.Keys && h !in wantRoutes.Keys ==> h in extra;
    }
    return true;
  }

  function MissingHosts(want: Config, live: Config): set<Host> {
    RoutesOf(want).Keys - RoutesOf(live).Keys
  }

  // The read-back comparison is an equivalence, and a match leaves no host missing.
  lemma MatchIsEquivalence(a: Config, b: Config, c: Config)
    ensures SameRoutes(RoutesOf(a), RoutesOf(a))
    ensures SameRoutes(RoutesOf(a), RoutesOf(b)) ==> SameRoutes(RoutesOf(b), RoutesOf(a))
    ensures SameRoutes(RoutesOf(a), RoutesOf(b)) && SameRoutes(RoutesOf(b), RoutesOf(c)) ==> SameRoutes(RoutesOf(a), RoutesOf(c))
    ensures SameRoutes(RoutesOf(a), RoutesOf(b)) ==> MissingHosts(a, b) == {} == MissingHosts(b, a)
  {
  }

  function ValidDials(dials: seq<Dial>): seq<Dial> {
    if dials == [] then []
    else
      var rest := ValidDials(dials[1..]);
      match dials[0]
      case OtherDial(_) => rest
      case AddrPort(addr, port) =>
        match NewUpstream(Ip(addr), port)
        case None => rest
        case Some(u) => [u] + rest
  }

  function LiveUpstreams(live: Config, host: Host): seq<Dial> {
    var m := RoutesOf(live);
    if host in m then ValidDials(m[host]) else []
  }

  // ---- BuildConfig ----

  datatype AppRoute = AppRoute(app: AppId, domain: Host, upstreams: seq<Dial>)

  datatype BuildError = NoAdmin | DuplicateDomain(domain: Host) | NoUpstreams(app: AppId)

  // sort.Slice by AppID.
  function InsertRoute(r: AppRoute, rs: seq<AppRoute>): seq<AppRoute> {
    if rs == [] || StringLeq(r.app, rs[0].app) then [r] + rs else [rs[0]] + InsertRoute(r, rs[1..])
  }

  function SortRoutes(rs: seq<AppRoute>): seq<AppRoute> {
    if rs == [] then [] else InsertRoute(rs[0], SortRoutes(rs[1..]))
  }

  predicate SortedByApp(rs: seq<AppRoute>) {
    forall i, j :: 0 <= i < j < |rs| ==> StringLeq(rs[i].app, rs[j].app)
  }

  // No application has two different routes.
  ghost predicate OneRoutePerApp(rs: seq<AppRoute>) {
    forall r, q :: r in rs && q in rs && r.app == q.app ==> r == q
  }

  lemma {:induction false} InsertSorts(r: AppRoute, rs: seq<AppRoute>)
    requires SortedByApp(rs)
    ensures multiset(InsertRoute(r, rs)) == multiset{r} + multiset(rs)
    ensures SortedByApp(InsertRoute(r, rs))
  {
    if rs != [] {
      assert rs == [rs[0]] + rs[1..];
      if StringLeq(r.app, rs[0].app) {
        SortedCons(r, rs);
      } else {
        StringOrder(r.app, rs[0].app);
        InsertSorts(r, rs[1..]);
        var t := InsertRoute(r, rs[1..]);
        assert t[0] in multiset(t);
        SortedCons(rs[0], t);
      }
    }
  }

  lemma SortedCons(r: AppRoute, rs: seq<AppRoute>)
    requires SortedByApp(rs) && (rs != [] ==> StringLeq(r.app, rs[0].app))
    ensures SortedByApp([r] + rs)
  {
    forall i | 0 < i < |rs| ensures StringLeq(r.app, rs[i].app) {
      StringTransitive(r.app, rs[0].app, rs[i].app);
    }
  }

  lemma {:induction false} SortSorts(rs: seq<AppRoute>)
    ensures SortedByApp(SortRoutes(rs)) && multiset(SortRoutes(rs)) == multiset(rs)
  {
    if rs != [] {
      SortSorts(rs[1..]);
      InsertSorts(rs[0], SortRoutes(rs[1..]));
      assert rs == [rs[0]] + rs[1..];
    }
  }

  lemma SameHead(s: seq<AppRoute>, t: seq<AppRoute>)
    requires s != [] && t != []
    requires SortedByApp(s) && SortedByApp(t) && multiset(s) == multiset(t) && OneRoutePerApp(s)
    ensures s[0] == t[0]
  {
    assert s[0] in multiset(t) && t[0] in multiset(s);
    var i :| 0 <= i < |t| && t[i] == s[0];
    var j :| 0 <= j < |s| && s[j] == t[0];
    StringOrder(s[0].app, t[0].app);
    StringOrder(s[0].app, s[0].app);
  }

  lemma {:induction false} SortedUnique(s: seq<AppRoute>, t: seq<AppRoute>)
    requires SortedByApp(s) && SortedByApp(t) && multiset(s) == multiset(t) && OneRoutePerApp(s)
    ensures s == t
  {
    hide SortedByApp, OneRoutePerApp;
    assert |s| == |multiset(s)| == |multiset(t)| == |t|;
    if s != [] {
      SameHead(s, t);
      TailKeeps(s);
      TailKeeps(t);
      SortedUnique(s[1..], t[1..]);
      assert s == [s[0]] + s[1..] && t == [t[0]] + t[1..];
    }
  }

  lemma TailKeeps(s: seq<AppRoute>)
    requires s != []
    ensures SortedByApp(s) ==> SortedByApp(s[1..])
    ensures OneRoutePerApp(s) ==> OneRoutePerApp(s[1..])
    ensures multiset(s[1..]) == multiset(s) - multiset{s[0]}
  {
    assert s == [s[0]] + s[1..];
    assert forall r :: r in s[1..] ==> r in s;
  }

  /** The order the routes are given in does not matter. */
  lemma SortForgetsOrder(a: seq<AppRoute>, b: seq<AppRoute>)
    requires multiset(a) == multiset(b) && OneRoutePerApp(a)
    ensures SortRoutes(a) == SortRoutes(b)
  {
    SortSorts(a);
    SortSorts(b);
    forall r | r in SortRoutes(a) ensures r in a {
      assert r in multiset(SortRoutes(a));
    }
    SortedUnique(SortRoutes(a), SortRoutes(b));
  }

  // No domain twice, and nothing routed to no upstream.
  ghost predicate Routable(m: multiset<AppRoute>) {
    forall r | r in m && r.domain != "" ::
      && m[r] == 1 && r.upstreams != []
      && forall q | q in m && q != r :: q.domain != r.domain
  }

  ghost predicate Buildable(rs: seq<AppRoute>) { Routable(multiset(rs)) }

  ghost predicate Fits(m: multiset<AppRoute>, r: AppRoute) {
    r.domain == "" || (r.upstreams != [] && forall q | q in m :: q.domain != r.domain)
  }

  lemma RoutableAdd(m: multiset<AppRoute>, r: AppRoute)
    ensures Routable(m + multiset{r}) <==> Routable(m) && Fits(m, r)
  {
    var m' := m + multiset{r};
    assert forall q :: q in m' <==> q in m || q == r;
    assert m'[r] == m[r] + 1;
    assert forall q :: q != r ==> m'[q] == m[q];
    if Routable(m') && r.domain != "" {
      assert r in m';
      assert m[r] == 0;
    }
  }

  lemma RoutableSub(m: multiset<AppRoute>, more: multiset<AppRoute>)
    requires Routable(m + more)
    ensures Routable(m)
  {
    assert forall q :: q in m ==> q in m + more && m[q] <= (m + more)[q];
  }

  function RouteFor(r: AppRoute): Route {
    Route([[r.domain]], [Handler("encode", []), Handler("reverse_proxy", r.upstreams)], true)
  }

  function Generated(rs: seq<AppRoute>): seq<Route> {
    if rs == [] then []
    else
      var r := rs[|rs| - 1];
      Generated(rs[..|rs| - 1]) + if r.domain == "" then [] else [RouteFor(r)]
  }

  function ConfigOf(adminListen: string, rs: seq<AppRoute>): Config {
    Config(adminListen, if Generated(rs) == [] then [] else [Some(Generated(rs))])
  }

  // What the routes ask for: each domain's upstreams.
  function Wanted(rs: seq<AppRoute>): Routes {
    if rs == [] then map[]
    else
      var m, r := Wanted(rs[..|rs| - 1]), rs[|rs| - 1];
      if r.domain == "" then m else m[r.domain := r.upstreams]
  }

  // The host map holds exactly these routes.
  ghost predicate Serves(m: Routes, rs: multiset<AppRoute>) {
    && (forall d | d in m :: exists r :: r in rs && r.domain == d && d != "")
    && (forall r | r in rs && r.domain != "" :: r.domain in m && m[r.domain] == r.upstreams)
  }

  lemma AddRouteFor(m: Routes, r: AppRoute)
    requires r.domain !in m
    ensures AddMatches(m, RouteFor(r).hosts, HandlerDials(RouteFor(r).handle)) == m[r.domain := r.upstreams]
  {
    TwoHandlers(Handler("encode", []), Handler("reverse_proxy", r.upstreams));
    var hosts := RouteFor(r).hosts;
    assert hosts[..0] == [] && hosts[0][..0] == [];
    assert AddDials(m, hosts[0], r.upstreams) == m[r.domain := [] + r.upstreams];
    assert [] + r.upstreams == r.upstreams;
  }

  lemma TwoHandlers(a: Handler, b: Handler)
    requires a.upstreams == []
    ensures HandlerDials([a, b]) == b.upstreams
  {
    assert [a, b][..1] == [a] && [a][..0] == [];
    assert HandlerDials([a]) == [] + [];
    assert [] + b.upstreams == b.upstreams;
  }

  lemma ServesNothing()
    ensures Serves(map[], multiset{})
  {
  }

  lemma ServesAdd(m: Routes, rs: multiset<AppRoute>, r: AppRoute)
    requires Serves(m, rs) && Fits(rs, r)
    ensures r.domain == "" ==> Serves(m, rs + multiset{r})
    ensures r.domain != "" ==> r.domain !in m && Serves(m[r.domain := r.upstreams], rs + multiset{r})
  {
    assert forall q :: q in rs + multiset{r} <==> q in rs || q == r;
  }

  lemma LastRoute(rs: seq<AppRoute>)
    requires rs != []
    ensures multiset(rs) == multiset(rs[..|rs| - 1]) + multiset{rs[|rs| - 1]}
  {
    assert rs == rs[..|rs| - 1] + [rs[|rs| - 1]];
  }

  lemma {:induction false} GeneratedRoutes(rs: seq<AppRoute>)
    requires Buildable(rs)
    ensures AddRoutes(map[], Generated(rs)) == Wanted(rs) && Serves(Wanted(rs), multiset(rs))
  {
    hide Routable, Fits, Serves;
    if rs == [] {
      ServesNothing();
    } else {
      var n := |rs| - 1;
      var init, r := rs[..n], rs[n];
      LastRoute(rs);
      RoutableAdd(multiset(init), r);
      GeneratedRoutes(init);
      ServesAdd(Wanted(init), multiset(init), r);
      if r.domain != "" {
        AddRouteFor(Wanted(init), r);
        assert Generated(rs)[..|Generated(init)|] == Generated(init);
      } else {
        assert Generated(rs) == Generated(init);
      }
    }
  }

  lemma OneServer(rs: seq<Route>)
    ensures AddServers([Some(rs)]) == AddRoutes(map[], rs)
  {
    assert [Some(rs)][..0] == [];
  }

  lemma BuiltRoutes(adminListen: string, rs: seq<AppRoute>)
    requires Buildable(rs)
    ensures Serves(RoutesOf(ConfigOf(adminListen, SortRoutes(rs))), multiset(rs))
  {
    hide Routable, Serves, SortRoutes;
    SortSorts(rs);
    GeneratedRoutes(SortRoutes(rs));
    OneServer(Generated(SortRoutes(rs)));
  }

  /** BuildConfig succeeds iff an admin address is given, no domain is asked for twice and
    * no domain is routed nowhere; then the host map is exactly the non-empty domains with
    * their upstreams. */
  method BuildConfig(adminListen: string, routes: seq<AppRoute>) returns (res: Result<Config, BuildError>)
    ensures res.Ok? <==> adminListen != "" && Buildable(routes)
    ensures res == Err(NoAdmin) <==> adminListen == ""
    ensures res.Err? && res.error.DuplicateDomain? ==> Twice(routes, res.error.domain)
    ensures res.Err? && res.error.NoUpstreams? ==>
      exists r :: r in routes && r.app == res.error.app && r.domain != "" && r.upstreams == []
    ensures res.Ok? ==> res.value.adminListen == adminListen
    ensures res.Ok? ==> Serves(RoutesOf(res.value), multiset(routes))
    ensures res.Ok? ==> res.value == ConfigOf(adminListen, SortRoutes(routes))
  {
    hide Routable, Serves, StringLeq;
    if adminListen == "" { return Err(NoAdmin); }
    var sorted := SortRoutes(routes);
    SortSorts(routes);
    var out: seq<Route> := [];
    var seen: map<Host, AppId> := map[];
    RoutableNone();
    for i := 0 to |sorted|
      invariant out == Generated(sorted[..i])
      invariant forall d :: d in seen <==> DomainIn(sorted[..i], d)
      invariant Buildable(sorted[..i])
    {
      var r := sorted[i];
      BuildStep(sorted, i);
      if r.domain != "" {
        assert r in multiset(sorted);
        if r.domain in seen {
          TwiceSorted(sorted, i, routes);
          return Err(DuplicateDomain(r.domain));
        }
        seen := seen[r.domain := r.app];
        if r.upstreams == [] { return Err(NoUpstreams(r.app)); }
        out := out + [RouteFor(r)];
      }
    }
    assert sorted[..|sorted|] == sorted;
    BuiltRoutes(adminListen, routes);
    return Ok(Config(adminListen, if out == [] then [] else [Some(out)]));
  }

  lemma RoutableNone()
    ensures Routable(multiset{})
  {
  }

  // Two routes, at different places, ask for the host.
  predicate Twice(rs: seq<AppRoute>, d: Host) {
    d != "" && exists i, j :: 0 <= i < j < |rs| && rs[i].domain == d && rs[j].domain == d
  }

  lemma TwiceSorted(sorted: seq<AppRoute>, i: nat, rs: seq<AppRoute>)
    requires multiset(sorted) == multiset(rs) && i < |sorted| && DomainIn(sorted[..i], sorted[i].domain)
    ensures Twice(rs, sorted[i].domain)
  {
    var a := sorted[i];
    var b :| b in sorted[..i] && b.domain == a.domain;
    assert sorted == sorted[..i] + [a] + sorted[i + 1..];
    assert multiset(sorted) == multiset(sorted[..i]) + multiset{a} + multiset(sorted[i + 1..]);
    assert b in multiset(sorted[..i]);
    assert a in multiset(rs) && b in multiset(rs);
    if a == b {
      var j, k := TwoPlaces(rs, a);
    } else {
      var j :| 0 <= j < |rs| && rs[j] == a;
      var k :| 0 <= k < |rs| && rs[k] == b;
      assert j < k || k < j;
    }
  }

  lemma {:induction false} TwoPlaces(rs: seq<AppRoute>, x: AppRoute) returns (i: nat, j: nat)
    requires multiset(rs)[x] >= 2
    ensures i < j < |rs| && rs[i] == x && rs[j] == x
  {
    var n := |rs| - 1;
    assert rs == rs[..n] + [rs[n]];
    if rs[n] == x {
      assert x in multiset(rs[..n]);
      i :| 0 <= i < n && rs[i] == x;
      j := n;
    } else {
      i, j := TwoPlaces(rs[..n], x);
    }
  }

  ghost predicate DomainIn(rs: seq<AppRoute>, d: Host) {
    d != "" && exists r :: r in rs && r.domain == d
  }

  lemma FitsByDomain(before: seq<AppRoute>, r: AppRoute)
    ensures Fits(multiset(before), r) <==> r.domain == "" || (!DomainIn(before, r.domain) && r.upstreams != [])
    ensures forall d :: DomainIn(before + [r], d) <==> DomainIn(before, d) || (d == r.domain && d != "")
  {
    assert forall q :: q in multiset(before) <==> q in before;
    assert r in before + [r];
    assert forall q :: q in before ==> q in before + [r];
  }

  lemma BuildStep(sorted: seq<AppRoute>, i: nat)
    requires i < |sorted| && Buildable(sorted[..i])
    ensures var r, before, after := sorted[i], sorted[..i], sorted[..i + 1];
      && Generated(after) == Generated(before) + (if r.domain == "" then [] else [RouteFor(r)])
      && (forall d :: DomainIn(after, d) <==> DomainIn(before, d) || (d == r.domain && d != ""))
      && (Buildable(after) <==> r.domain == "" || (!DomainIn(before, r.domain) && r.upstreams != []))
      && (!Buildable(after) ==> !Buildable(sorted))
  {
    hide Routable, Fits, DomainIn;
    var r, before, after := sorted[i], sorted[..i], sorted[..i + 1];
    assert after == before + [r] && after[..i] == before;
    LastRoute(after);
    RoutableAdd(multiset(before), r);
    FitsByDomain(before, r);
    if Buildable(sorted) {
      assert sorted == after + sorted[i + 1..];
      RoutableSub(multiset(after), multiset(sorted[i + 1..]));
    }
  }
}
