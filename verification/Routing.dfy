/** upstreamsFor in internal/deploy/reconcile.go and readyCount in internal/deploy/rollout.go:
  * which of the host's containers take traffic, and which count as healthy. */
module Routing {
  import opened Wrappers
  import opened ProxyConfig

  // A container as the host reports it; the address is missing until the network is up.
  datatype Replica = Replica(release: ReleaseId, index: nat, running: bool, address: Option<IpText>) {
    predicate Routable() { running && address.Some? }
  }

  datatype Deployment = Deployment(app: AppId, release: ReleaseId, domain: Host, port: nat, replicas: nat)

  datatype SkipReason = ListFailed | ZeroReplicas | BadAddress(index: nat) | NoneUp

  // Docker container names make (release, index) unique within an application.
  predicate UniqueReplicas(reps: seq<Replica>) {
    forall i, j :: 0 <= i < j < |reps| ==> reps[i].release != reps[j].release || reps[i].index != reps[j].index
  }

  // The containers the route is about: the active release, running with an address, within the scale.
  predicate Selected(release: ReleaseId, replicas: nat, r: Replica) {
    r.release == release && r.Routable() && r.index < replicas
  }

  function Count(release: ReleaseId, replicas: nat, reps: seq<Replica>): nat {
    if reps == [] then 0
    else Count(release, replicas, reps[1..]) + if Selected(release, replicas, reps[0]) then 1 else 0
  }

  // ---- sort.Slice by Index ----

  function InsertReplica(r: Replica, reps: seq<Replica>): seq<Replica> {
    if reps == [] || r.index <= reps[0].index then [r] + reps else [reps[0]] + InsertReplica(r, reps[1..])
  }

  function SortReplicas(reps: seq<Replica>): seq<Replica> {
    if reps == [] then [] else InsertReplica(reps[0], SortReplicas(reps[1..]))
  }

  predicate SortedByIndex(reps: seq<Replica>) {
    forall i, j :: 0 <= i < j < |reps| ==> reps[i].index <= reps[j].index
  }

  lemma SortedReplicasCons(r: Replica, reps: seq<Replica>)
    requires SortedByIndex(reps) && (reps != [] ==> r.index <= reps[0].index)
    ensures SortedByIndex([r] + reps)
  {
  }

  lemma {:induction false} InsertSorted(r: Replica, reps: seq<Replica>)
    requires SortedByIndex(reps)
    ensures SortedByIndex(InsertReplica(r, reps))
    ensures multiset(InsertReplica(r, reps)) == multiset{r} + multiset(reps)
  {
    if reps == [] || r.index <= reps[0].index {
      SortedReplicasCons(r, reps);
    } else {
      InsertSorted(r, reps[1..]);
      var t := InsertReplica(r, reps[1..]);
      assert reps == [reps[0]] + reps[1..];
      assert t[0] in multiset(t);
      SortedReplicasCons(reps[0], t);
    }
  }

  lemma {:induction false} InsertCount(rel: ReleaseId, n: nat, r: Replica, reps: seq<Replica>)
    ensures Count(rel, n, InsertReplica(r, reps)) == Count(rel, n, [r] + reps)
  {
    hide Selected;
    assert ([r] + reps)[1..] == reps;
    if reps != [] && r.index > reps[0].index {
      InsertCount(rel, n, r, reps[1..]);
      var t := InsertReplica(r, reps[1..]);
      assert ([reps[0]] + t)[1..] == t;
      assert ([r] + reps[1..])[1..] == reps[1..];
    }
  }

  lemma {:induction false} SortFacts(rel: ReleaseId, n: nat, reps: seq<Replica>)
    ensures SortedByIndex(SortReplicas(reps))
    ensures Count(rel, n, SortReplicas(reps)) == Count(rel, n, reps)
    ensures multiset(SortReplicas(reps)) == multiset(reps)
  {
    if reps != [] {
      var t := SortReplicas(reps[1..]);
      SortFacts(rel, n, reps[1..]);
      InsertSorted(reps[0], t);
      InsertCount(rel, n, reps[0], t);
      assert reps == [reps[0]] + reps[1..];
      assert ([reps[0]] + t)[1..] == t;
    }
  }

  // ---- upstreamsFor ----

  // The loop over the sorted replicas; an address that cannot be dialled stops it.
  function Collect(d: Deployment, reps: seq<Replica>): Result<seq<Dial>, SkipReason> {
    if reps == [] then Ok([])
    else
      var n := |reps| - 1;
      match Collect(d, reps[..n])
      case Err(e) => Err(e)
      case Ok(ups) =>
        if !Selected(d.release, d.replicas, reps[n]) then Ok(ups)
        else match NewUpstream(reps[n].address.value, d.port)
          case None => Err(BadAddress(reps[n].index))
          case Some(u) => Ok(ups + [u])
  }

  function Upstreams(d: Deployment, listing: Option<seq<Replica>>): Result<seq<Dial>, SkipReason> {
    match listing
    case None => Err(ListFailed)
    case Some(reps) =>
      if d.replicas == 0 then Err(ZeroReplicas)
      else match Collect(d, SortReplicas(reps))
        case Err(e) => Err(e)
        case Ok(ups) => if ups == [] then Err(NoneUp) else Ok(ups)
  }

  lemma {:induction false} CollectStops(d: Deployment, reps: seq<Replica>, i: nat)
    requires i <= |reps| && Collect(d, reps[..i]).Err?
    ensures Collect(d, reps) == Collect(d, reps[..i])
  {
    if i == |reps| {
      assert reps[..i] == reps;
    } else {
      var n := |reps| - 1;
      assert reps[..n][..i] == reps[..i];
      CollectStops(d, reps[..n], i);
    }
  }

  method UpstreamsFor(d: Deployment, listing: Option<seq<Replica>>) returns (res: Result<seq<Dial>, SkipReason>)
    ensures res == Upstreams(d, listing)
    ensures res.Ok? ==> res.value != []
  {
    if listing.None? { return Err(ListFailed); }
    if d.replicas == 0 { return Err(ZeroReplicas); }
    var reps := SortReplicas(listing.value);
    var ups: seq<Dial> := [];
    for i := 0 to |reps|
      invariant Collect(d, reps[..i]) == Ok(ups)
    {
      var rep := reps[i];
      assert reps[..i + 1][..i] == reps[..i];
      if rep.release != d.release { continue; }
      if !rep.Routable() { continue; }
      if rep.index >= d.replicas { continue; }
      var u := NewUpstream(rep.address.value, d.port);
      if u.None? {
        CollectStops(d, reps, i + 1);
        return Err(BadAddress(rep.index));
      }
      ups := ups + [u.value];
    }
    assert reps[..|reps|] == reps;
    return if ups == [] then Err(NoneUp) else Ok(ups);
  }

  /** Only running containers of the active release within the scale take traffic. */
  lemma {:induction false} CollectedFrom(d: Deployment, reps: seq<Replica>, u: Dial)
    requires Collect(d, reps).Ok? && u in Collect(d, reps).value
    ensures exists r :: r in reps && Selected(d.release, d.replicas, r) && NewUpstream(r.address.value, d.port) == Some(u)
  {
    var n := |reps| - 1;
    if u in Collect(d, reps[..n]).value {
      CollectedFrom(d, reps[..n], u);
      var r :| r in reps[..n] && Selected(d.release, d.replicas, r) && NewUpstream(r.address.value, d.port) == Some(u);
      assert r in reps;
    } else {
      assert reps[n] in reps;
    }
  }

  lemma RoutedFrom(d: Deployment, reps: seq<Replica>, u: Dial)
    requires Upstreams(d, Some(reps)).Ok? && u in Upstreams(d, Some(reps)).value
    ensures exists r :: r in reps && Selected(d.release, d.replicas, r) && NewUpstream(r.address.value, d.port) == Some(u)
  {
    SortFacts(d.release, d.replicas, reps);
    CollectedFrom(d, SortReplicas(reps), u);
    var r :| r in SortReplicas(reps) && Selected(d.release, d.replicas, r) && NewUpstream(r.address.value, d.port) == Some(u);
    assert r in multiset(reps);
  }

  // rs are the selected ones of these containers, as often as they are listed.
  ghost predicate SelectedOf(d: Deployment, reps: seq<Replica>, rs: seq<Replica>) {
    forall r: Replica :: multiset(rs)[r] == if Selected(d.release, d.replicas, r) then multiset(reps)[r] else 0
  }

  // The addresses dialled are those of rs, in that order.
  predicate DialsOf(d: Deployment, rs: seq<Replica>, ups: seq<Dial>) {
    |ups| == |rs| && forall i :: 0 <= i < |rs| ==> rs[i].address.Some? && NewUpstream(rs[i].address.value, d.port) == Some(ups[i])
  }

  lemma {:induction false} CollectedAre(d: Deployment, reps: seq<Replica>) returns (rs: seq<Replica>)
    requires Collect(d, reps).Ok? && SortedByIndex(reps)
    ensures SortedByIndex(rs) && (forall r :: r in rs ==> r in reps)
    ensures SelectedOf(d, reps, rs) && DialsOf(d, rs, Collect(d, reps).value)
  {
    hide SelectedOf;
    if reps == [] {
      rs := [];
      NoneSelected(d);
    } else {
      var n := |reps| - 1;
      var before := CollectedAre(d, reps[..n]);
      rs := if Selected(d.release, d.replicas, reps[n]) then before + [reps[n]] else before;
      SelectedMore(d, reps[..n], before, reps[n]);
      assert reps == reps[..n] + [reps[n]];
      forall i | 0 <= i < |before| ensures before[i].index <= reps[n].index {
        assert before[i] in reps[..n];
      }
    }
  }

  lemma NoneSelected(d: Deployment)
    ensures SelectedOf(d, [], [])
  {
  }

  lemma SelectedMore(d: Deployment, reps: seq<Replica>, rs: seq<Replica>, r: Replica)
    requires SelectedOf(d, reps, rs)
    ensures SelectedOf(d, reps + [r], if Selected(d.release, d.replicas, r) then rs + [r] else rs)
  {
  }

  /** The upstreams are the addresses of all the selected containers, each once, by index. */
  lemma RoutedAre(d: Deployment, reps: seq<Replica>) returns (rs: seq<Replica>)
    requires Upstreams(d, Some(reps)).Ok?
    ensures SortedByIndex(rs) && SelectedOf(d, reps, rs) && DialsOf(d, rs, Upstreams(d, Some(reps)).value)
  {
    SortFacts(d.release, d.replicas, reps);
    rs := CollectedAre(d, SortReplicas(reps));
  }

  // Every selected container's address can be dialled.
  predicate UsableAddresses(d: Deployment, reps: seq<Replica>) {
    forall r :: r in reps && Selected(d.release, d.replicas, r) ==> NewUpstream(r.address.value, d.port).Some?
  }

  predicate SomeSelected(d: Deployment, reps: seq<Replica>) {
    exists r :: r in reps && Selected(d.release, d.replicas, r)
  }

  lemma {:induction false} CollectIff(d: Deployment, reps: seq<Replica>)
    ensures Collect(d, reps).Ok? <==> UsableAddresses(d, reps)
    ensures Collect(d, reps).Ok? ==> (Collect(d, reps).value != [] <==> SomeSelected(d, reps))
  {
    if reps != [] {
      var n := |reps| - 1;
      CollectIff(d, reps[..n]);
      assert reps == reps[..n] + [reps[n]];
      assert forall r :: r in reps <==> r in reps[..n] || r == reps[n];
    }
  }

  /** An application is routed iff its containers can be listed, it is scaled to at least one
    * replica, some container of the release within the scale is running with an address, and
    * every such container's address can be dialled. */
  lemma RoutedIff(d: Deployment, listing: Option<seq<Replica>>)
    ensures Upstreams(d, listing).Ok? <==>
      listing.Some? && d.replicas > 0 && SomeSelected(d, listing.value) && UsableAddresses(d, listing.value)
  {
    hide Selected, SomeSelected, UsableAddresses, SortReplicas, SortedByIndex;
    if listing.Some? {
      SortFacts(d.release, d.replicas, listing.value);
      CollectIff(d, SortReplicas(listing.value));
      SelectedAmong(d, listing.value, SortReplicas(listing.value));
    }
  }

  // Replica k is the first selected one whose address cannot be dialled.
  predicate FirstBad(d: Deployment, reps: seq<Replica>, k: nat) {
    && k < |reps| && Selected(d.release, d.replicas, reps[k]) && NewUpstream(reps[k].address.value, d.port).None?
    && UsableAddresses(d, reps[..k])
  }

  lemma {:induction false} CollectFails(d: Deployment, reps: seq<Replica>) returns (k: nat)
    requires Collect(d, reps).Err?
    ensures FirstBad(d, reps, k) && Collect(d, reps) == Err(BadAddress(reps[k].index))
  {
    var n := |reps| - 1;
    if Collect(d, reps[..n]).Err? {
      k := CollectFails(d, reps[..n]);
      assert reps[..n][..k] == reps[..k];
    } else {
      CollectIff(d, reps[..n]);
      k := n;
    }
  }

  // A selected container at this index cannot be dialled.
  ghost predicate BadAt(d: Deployment, reps: seq<Replica>, i: nat) {
    exists r :: r in reps && Selected(d.release, d.replicas, r) && r.index == i && NewUpstream(r.address.value, d.port).None?
  }

  /** Why an application is skipped: the listing failed, it is scaled to zero, nothing of the
    * release is up, or an address cannot be dialled, and then the smallest such index is named. */
  lemma SkipReasonIs(d: Deployment, listing: Option<seq<Replica>>)
    ensures Upstreams(d, listing) == Err(ListFailed) <==> listing.None?
    ensures Upstreams(d, listing) == Err(ZeroReplicas) <==> listing.Some? && d.replicas == 0
    ensures Upstreams(d, listing) == Err(NoneUp) <==>
      listing.Some? && d.replicas > 0 && UsableAddresses(d, listing.value) && !SomeSelected(d, listing.value)
    ensures forall i :: Upstreams(d, listing) == Err(BadAddress(i)) ==>
      listing.Some? && d.replicas > 0 && BadAt(d, listing.value, i) && forall j :: BadAt(d, listing.value, j) ==> i <= j
  {
    hide Selected, SomeSelected, UsableAddresses, SortReplicas;
    if listing.Some? && d.replicas > 0 {
      var reps, sorted := listing.value, SortReplicas(listing.value);
      SortFacts(d.release, d.replicas, reps);
      CollectIff(d, sorted);
      SelectedAmong(d, reps, sorted);
      if Collect(d, sorted).Err? {
        var k := CollectFails(d, sorted);
        FirstIsLeast(d, reps, sorted, k);
      }
    }
  }

  lemma FirstIsLeast(d: Deployment, reps: seq<Replica>, sorted: seq<Replica>, k: nat)
    requires multiset(reps) == multiset(sorted) && SortedByIndex(sorted) && FirstBad(d, sorted, k)
    ensures BadAt(d, reps, sorted[k].index) && forall j :: BadAt(d, reps, j) ==> sorted[k].index <= j
  {
    assert sorted[k] in multiset(reps);
    assert forall m :: 0 <= m < k ==> sorted[..k][m] == sorted[m] && sorted[m] in sorted[..k];
    forall j | BadAt(d, reps, j) ensures sorted[k].index <= j {
      var r :| r in reps && Selected(d.release, d.replicas, r) && r.index == j && NewUpstream(r.address.value, d.port).None?;
      assert r in multiset(sorted);
      var i :| 0 <= i < |sorted| && sorted[i] == r;
    }
  }

  lemma SelectedAmong(d: Deployment, a: seq<Replica>, b: seq<Replica>)
    requires multiset(a) == multiset(b)
    ensures SomeSelected(d, a) <==> SomeSelected(d, b)
    ensures UsableAddresses(d, a) <==> UsableAddresses(d, b)
  {
    hide Selected;
    assert forall r :: r in a <==> r in multiset(a);
    assert forall r :: r in b <==> r in multiset(b);
  }

  // ---- readyCount ----

  // probe is the HTTP health check; an application without a health path always passes it.
  function Ready(release: ReleaseId, replicas: nat, reps: seq<Replica>, probe: Replica -> bool): nat {
    if reps == [] then 0
    else
      Ready(release, replicas, reps[..|reps| - 1], probe)
      + if Selected(release, replicas, reps[|reps| - 1]) && probe(reps[|reps| - 1]) then 1 else 0
  }

  // The places of the healthy replicas.
  function HealthyAt(release: ReleaseId, replicas: nat, reps: seq<Replica>, probe: Replica -> bool): set<nat> {
    set i | 0 <= i < |reps| && Selected(release, replicas, reps[i]) && probe(reps[i])
  }

  lemma {:induction false} ReadyIs(release: ReleaseId, replicas: nat, reps: seq<Replica>, probe: Replica -> bool)
    ensures Ready(release, replicas, reps, probe) == |HealthyAt(release, replicas, reps, probe)|
  {
    hide Selected;
    var all := HealthyAt(release, replicas, reps, probe);
    if reps == [] {
      assert all == {};
    } else {
      var n := |reps| - 1;
      var init := HealthyAt(release, replicas, reps[..n], probe);
      ReadyIs(release, replicas, reps[..n], probe);
      assert all == if Selected(release, replicas, reps[n]) && probe(reps[n]) then init + {n} else init;
      assert n !in init;
    }
  }

  method ReadyCount(release: ReleaseId, replicas: nat, listing: Option<seq<Replica>>, probe: Replica -> bool)
    returns (ready: nat)
    ensures ready == if listing.None? then 0 else Ready(release, replicas, listing.value, probe)
    ensures listing.Some? ==>
      var reps := listing.value;
      ready == |set i | 0 <= i < |reps|
        && reps[i].release == release && reps[i].running && reps[i].address.Some? && reps[i].index < replicas && probe(reps[i])|
  {
    ready := 0;
    if listing.None? { return; }
    var reps := listing.value;
    ReadyIs(release, replicas, reps, probe);
    assert HealthyAt(release, replicas, reps, probe) == set i | 0 <= i < |reps|
      && reps[i].release == release && reps[i].running && reps[i].address.Some? && reps[i].index < replicas && probe(reps[i]);
    for i := 0 to |reps|
      invariant ready == Ready(release, replicas, reps[..i], probe)
    {
      var rep := reps[i];
      assert reps[..i + 1][..i] == reps[..i];
      if rep.release != release { continue; }
      if rep.index >= replicas { continue; }
      if !rep.Routable() { continue; }
      if !probe(rep) { continue; }
      ready := ready + 1;
    }
    assert reps[..|reps|] == reps;
  }

  // ---- The gate and the route agree ----

  lemma {:induction false} CountSnoc(rel: ReleaseId, n: nat, reps: seq<Replica>, r: Replica)
    ensures Count(rel, n, reps + [r]) == Count(rel, n, reps) + if Selected(rel, n, r) then 1 else 0
  {
    if reps == [] {
      assert [] + [r] == [r] && [r][1..] == [];
    } else {
      CountSnoc(rel, n, reps[1..], r);
      assert (reps + [r])[1..] == reps[1..] + [r];
    }
  }

  lemma {:induction false} ReadyAtMostSelected(rel: ReleaseId, n: nat, reps: seq<Replica>, probe: Replica -> bool)
    ensures Ready(rel, n, reps, probe) <= Count(rel, n, reps)
  {
    if reps != [] {
      var init, r := reps[..|reps| - 1], reps[|reps| - 1];
      ReadyAtMostSelected(rel, n, init, probe);
      assert reps == init + [r];
      CountSnoc(rel, n, init, r);
    }
  }

  // The address of replica i of the deployment.
  ghost predicate AddressOf(d: Deployment, reps: seq<Replica>, i: nat, u: Dial) {
    exists r :: r in reps && Selected(d.release, d.replicas, r) && r.index == i
      && NewUpstream(r.address.value, d.port) == Some(u)
  }

  // On sorted replicas, the k-th upstream belongs to a replica of index at least k.
  ghost predicate InOrder(d: Deployment, reps: seq<Replica>, ups: seq<Dial>, idx: seq<nat>) {
    && |idx| == |ups|
    && (forall k :: 0 <= k < |ups| ==> k <= idx[k] < d.replicas && AddressOf(d, reps, idx[k], ups[k]))
    && (forall k :: 0 <= k < |ups| - 1 ==> idx[k] < idx[k + 1])
  }

  lemma AddressIn(d: Deployment, reps: seq<Replica>, r: Replica, i: nat, u: Dial)
    ensures AddressOf(d, reps, i, u) ==> AddressOf(d, reps + [r], i, u)
    ensures Selected(d.release, d.replicas, r) && NewUpstream(r.address.value, d.port) == Some(u)
        ==> AddressOf(d, reps + [r], r.index, u)
  {
    if AddressOf(d, reps, i, u) {
      var q :| q in reps && Selected(d.release, d.replicas, q) && q.index == i && NewUpstream(q.address.value, d.port) == Some(u);
      assert q in reps + [r];
    }
    assert r in reps + [r];
  }

  lemma InOrderKeep(d: Deployment, reps: seq<Replica>, r: Replica, ups: seq<Dial>, idx: seq<nat>)
    requires InOrder(d, reps, ups, idx)
    ensures InOrder(d, reps + [r], ups, idx)
  {
    hide AddressOf;
    forall k | 0 <= k < |ups| ensures AddressOf(d, reps + [r], idx[k], ups[k]) {
      AddressIn(d, reps, r, idx[k], ups[k]);
    }
  }

  lemma InOrderAdd(d: Deployment, reps: seq<Replica>, r: Replica, u: Dial, ups: seq<Dial>, idx: seq<nat>)
    requires InOrder(d, reps, ups, idx) && (idx != [] ==> idx[|idx| - 1] < r.index)
    requires Selected(d.release, d.replicas, r) && NewUpstream(r.address.value, d.port) == Some(u)
    ensures InOrder(d, reps + [r], ups + [u], idx + [r.index])
  {
    hide AddressOf;
    InOrderKeep(d, reps, r, ups, idx);
    AddressIn(d, reps, r, r.index, u);
  }

  // The last selected container before r has a smaller index than r.
  predicate LastIndex(d: Deployment, reps: seq<Replica>, idx: seq<nat>) {
    idx != [] ==> exists r :: r in reps && Selected(d.release, d.replicas, r) && r.index == idx[|idx| - 1]
  }

  lemma LastIndexBelow(d: Deployment, reps: seq<Replica>, r: Replica, idx: seq<nat>)
    requires SortedByIndex(reps + [r]) && UniqueReplicas(reps + [r]) && LastIndex(d, reps, idx)
    ensures LastIndex(d, reps + [r], idx)
    ensures idx != [] && Selected(d.release, d.replicas, r) ==> idx[|idx| - 1] < r.index
    ensures Selected(d.release, d.replicas, r) ==> LastIndex(d, reps + [r], idx + [r.index])
  {
    var all := reps + [r];
    assert r in all;
    if idx != [] {
      var q :| q in reps && Selected(d.release, d.replicas, q) && q.index == idx[|idx| - 1];
      assert q in all;
      var i :| 0 <= i < |reps| && reps[i] == q;
      assert all[i] == q && all[|reps|] == r;
    }
  }

  lemma {:induction false} CollectInOrder(d: Deployment, reps: seq<Replica>) returns (idx: seq<nat>)
    requires SortedByIndex(reps) && UniqueReplicas(reps) && UsableAddresses(d, reps)
    ensures Collect(d, reps).Ok?
    ensures |Collect(d, reps).value| == Count(d.release, d.replicas, reps)
    ensures InOrder(d, reps, Collect(d, reps).value, idx) && LastIndex(d, reps, idx)
  {
    hide InOrder, LastIndex, SortedByIndex, UniqueReplicas;
    idx := [];
    if reps == [] {
      NothingInOrder(d);
    } else {
      var n := |reps| - 1;
      var init, r := reps[..n], reps[n];
      assert reps == init + [r];
      CountSnoc(d.release, d.replicas, init, r);
      PrefixFacts(init, r);
      idx := CollectInOrder(d, init);
      LastIndexBelow(d, init, r, idx);
      InOrderKeep(d, init, r, Collect(d, init).value, idx);
      if Selected(d.release, d.replicas, r) {
        assert r in reps;
        InOrderAdd(d, init, r, NewUpstream(r.address.value, d.port).value, Collect(d, init).value, idx);
        idx := idx + [r.index];
      }
    }
  }

  lemma NothingInOrder(d: Deployment)
    ensures InOrder(d, [], [], []) && LastIndex(d, [], [])
  {
  }

  lemma PrefixFacts(reps: seq<Replica>, r: Replica)
    requires SortedByIndex(reps + [r]) && UniqueReplicas(reps + [r])
    ensures SortedByIndex(reps) && UniqueReplicas(reps)
  {
    assert forall i :: 0 <= i < |reps| ==> (reps + [r])[i] == reps[i];
  }

  lemma {:induction false} FullOrder(d: Deployment, reps: seq<Replica>, ups: seq<Dial>, idx: seq<nat>, k: nat)
    requires InOrder(d, reps, ups, idx) && |ups| >= d.replicas && k < |ups|
    ensures |ups| == d.replicas && idx[k] == k
    decreases |ups| - k
  {
    hide AddressOf;
    assert k <= idx[k] < d.replicas;
    if k < |ups| - 1 {
      FullOrder(d, reps, ups, idx, k + 1);
      assert idx[k] < idx[k + 1];
    }
  }

  /** When the gate sees all replicas ready, routing the same containers does not skip the
    * application and yields exactly Replicas upstreams in index order, whatever order they
    * are listed in and whatever surplus or other-release containers stand beside them. */
  lemma GateAgreesWithRouting(d: Deployment, reps: seq<Replica>, probe: Replica -> bool)
    requires UniqueReplicas(reps) && UsableAddresses(d, reps) && d.replicas >= 1
    requires Ready(d.release, d.replicas, reps, probe) >= d.replicas
    ensures Upstreams(d, Some(reps)).Ok?
    ensures |Upstreams(d, Some(reps)).value| == d.replicas
    ensures forall k :: 0 <= k < d.replicas ==> AddressOf(d, reps, k, Upstreams(d, Some(reps)).value[k])
  {
    hide AddressOf, UniqueReplicas, UsableAddresses, SortedByIndex, InOrder, SortReplicas, Selected;
    var sorted := SortReplicas(reps);
    SortFacts(d.release, d.replicas, reps);
    SortKeepsUnique(reps);
    SameContainers(d, reps, sorted);
    ReadyAtMostSelected(d.release, d.replicas, reps, probe);
    var idx := CollectInOrder(d, sorted);
    var ups := Collect(d, sorted).value;
    FullOrder(d, sorted, ups, idx, 0);
    forall k | 0 <= k < d.replicas ensures AddressOf(d, reps, k, ups[k]) {
      FullOrder(d, sorted, ups, idx, k);
      AddressAt(d, sorted, ups, idx, k);
    }
  }

  lemma AddressAt(d: Deployment, reps: seq<Replica>, ups: seq<Dial>, idx: seq<nat>, k: nat)
    requires InOrder(d, reps, ups, idx) && k < |ups|
    ensures AddressOf(d, reps, idx[k], ups[k])
  {
  }

  lemma SameContainers(d: Deployment, a: seq<Replica>, b: seq<Replica>)
    requires multiset(a) == multiset(b)
    ensures UsableAddresses(d, a) ==> UsableAddresses(d, b)
    ensures forall i, u :: AddressOf(d, b, i, u) ==> AddressOf(d, a, i, u)
  {
    assert forall r :: r in b ==> r in multiset(a);
  }

  // Uniqueness of (release, index) as a property of the multiset of containers.
  ghost predicate UniqueIn(m: multiset<Replica>) {
    forall r, q | r in m && q in m && r.release == q.release && r.index == q.index :: r == q && m[r] == 1
  }

  lemma UniqueAsMultiset(reps: seq<Replica>)
    ensures UniqueReplicas(reps) <==> UniqueIn(multiset(reps))
  {
    if UniqueIn(multiset(reps)) {
      forall i, j | 0 <= i < j < |reps| && reps[i].release == reps[j].release && reps[i].index == reps[j].index
        ensures false
      {
        assert reps[i] in multiset(reps) && reps[j] in multiset(reps);
        assert reps[i] == reps[j];
        TwiceIn(reps, i, j);
      }
    }
    if UniqueReplicas(reps) {
      forall r, q | r in multiset(reps) && q in multiset(reps) && r.release == q.release && r.index == q.index
        ensures r == q && multiset(reps)[r] == 1
      {
        var i :| 0 <= i < |reps| && reps[i] == r;
        var j :| 0 <= j < |reps| && reps[j] == q;
        OnceIn(reps, i);
      }
    }
  }

  lemma TwiceIn(reps: seq<Replica>, i: nat, j: nat)
    requires i < j < |reps| && reps[i] == reps[j]
    ensures multiset(reps)[reps[i]] >= 2
  {
    assert reps == reps[..j] + [reps[j]] + reps[j + 1..];
    assert reps[i] in multiset(reps[..j]);
  }

  lemma OnceIn(reps: seq<Replica>, i: nat)
    requires UniqueReplicas(reps) && i < |reps|
    ensures multiset(reps)[reps[i]] == 1
  {
    assert reps == reps[..i] + [reps[i]] + reps[i + 1..];
    assert reps[i] !in multiset(reps[..i]) && reps[i] !in multiset(reps[i + 1..]);
  }

  lemma SortKeepsUnique(reps: seq<Replica>)
    requires UniqueReplicas(reps)
    ensures UniqueReplicas(SortReplicas(reps))
  {
    SortFacts("", 0, reps);
    UniqueAsMultiset(reps);
    UniqueAsMultiset(SortReplicas(reps));
  }
}
