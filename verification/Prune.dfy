/** internal/api/appprune.go: which containers a prune removes, and what the following rollback
  * (ensureReplicas in internal/deploy/rollout.go) finds. No deploy of the application runs. */
module Prune {
  import opened Wrappers
  import opened Deployments
  import opened Routing
  import opened Text

  // ---- keepSet ----

  datatype PruneError = NoDeployment | HistoryUnread | ListFailed | StopFailed(release: ReleaseId) | RemoveFailed(release: ReleaseId)

  // The two releases the retention policy protects.
  function Protected(h: History): set<ReleaseId> {
    (if h.Active().Some? then {h.Active().value} else {}) + (if h.Previous().Some? then {h.Previous().value} else {})
  }

  // readable: neither query fails for a reason of its own.
  method KeepSet(h: History, readable: bool) returns (res: Result<map<ReleaseId, string>, PruneError>)
    ensures res.Ok? <==> readable && h.Active().Some?
    ensures res.Err? ==> res.error == if readable then NoDeployment else HistoryUnread
    ensures res.Ok? ==> res.value.Keys == Protected(h)
    ensures res.Ok? ==> forall r :: r in res.value ==> res.value[r] == if r == h.Active().value then "aktif" else "geri alma hedefi"
  {
    if !readable { return Err(HistoryUnread); }
    if h.Active().None? { return Err(NoDeployment); }
    var keep := map[h.Active().value := "aktif"];
    if h.Previous().Some? && h.Previous().value !in keep {
      keep := keep[h.Previous().value := "geri alma hedefi"];
    }
    return Ok(keep);
  }

  // ---- The host ----

  function Without(cs: seq<Replica>, r: ReleaseId, survivors: set<nat>): seq<Replica> {
    if cs == [] then []
    else
      var rest := Without(cs[..|cs| - 1], r, survivors);
      var c := cs[|cs| - 1];
      if c.release == r && c.index !in survivors then rest else rest + [c]
  }

  // Only the containers at these indices, or all of them.
  function Stopped(cs: seq<Replica>, r: ReleaseId, reached: Option<set<nat>>): seq<Replica> {
    if cs == [] then []
    else
      var c := cs[|cs| - 1];
      var hit := c.release == r && (reached.Some? ==> c.index in reached.value);
      Stopped(cs[..|cs| - 1], r, reached) + [if hit then c.(running := false) else c]
  }

  // A container of the release that the stop reaches no longer runs; any other is as it was.
  predicate StoppedOne(before: Replica, after: Replica, r: ReleaseId, reached: Option<set<nat>>) {
    after == if before.release == r && (reached.Some? ==> before.index in reached.value) then before.(running := false) else before
  }

  lemma {:induction false} StoppedAre(cs: seq<Replica>, r: ReleaseId, reached: Option<set<nat>>)
    ensures |Stopped(cs, r, reached)| == |cs|
    ensures forall i :: 0 <= i < |cs| ==> StoppedOne(cs[i], Stopped(cs, r, reached)[i], r, reached)
  {
    if cs != [] { StoppedAre(cs[..|cs| - 1], r, reached); }
  }

  lemma {:induction false} WithoutAre(cs: seq<Replica>, r: ReleaseId, survivors: set<nat>)
    ensures forall c :: c in Without(cs, r, survivors) <==> c in cs && (c.release == r ==> c.index in survivors)
  {
    if cs != [] {
      WithoutAre(cs[..|cs| - 1], r, survivors);
      assert cs == cs[..|cs| - 1] + [cs[|cs| - 1]];
    }
  }

  // The indices of a release that have a container.
  function Present(cs: seq<Replica>, r: ReleaseId): set<nat> {
    set c | c in cs && c.release == r :: c.index
  }

  // The containers outside a set of releases, as they stand.
  function Outside(cs: seq<Replica>, rs: set<ReleaseId>): seq<Replica> {
    if cs == [] then []
    else
      var rest, c := Outside(cs[..|cs| - 1], rs), cs[|cs| - 1];
      if c.release in rs then rest else rest + [c]
  }

  lemma {:induction false} WithoutOutside(cs: seq<Replica>, r: ReleaseId, survivors: set<nat>, rs: set<ReleaseId>)
    requires r in rs
    ensures Outside(Without(cs, r, survivors), rs) == Outside(cs, rs)
  {
    if cs != [] {
      var init, c := cs[..|cs| - 1], cs[|cs| - 1];
      WithoutOutside(init, r, survivors, rs);
      OutsideSnoc(Without(init, r, survivors), c, rs);
    }
  }

  lemma OutsideSnoc(cs: seq<Replica>, c: Replica, rs: set<ReleaseId>)
    ensures Outside(cs + [c], rs) == if c.release in rs then Outside(cs, rs) else Outside(cs, rs) + [c]
  {
    assert (cs + [c])[..|cs|] == cs;
  }

  lemma {:induction false} StoppedOutside(cs: seq<Replica>, r: ReleaseId, reached: Option<set<nat>>, rs: set<ReleaseId>)
    requires r in rs
    ensures Outside(Stopped(cs, r, reached), rs) == Outside(cs, rs)
  {
    if cs != [] {
      var init, c := cs[..|cs| - 1], cs[|cs| - 1];
      StoppedOutside(init, r, reached, rs);
      var hit := c.release == r && (reached.Some? ==> c.index in reached.value);
      OutsideSnoc(Stopped(init, r, reached), if hit then c.(running := false) else c, rs);
    }
  }

  lemma {:induction false} OutsideIn(cs: seq<Replica>, rs: set<ReleaseId>, c: Replica)
    ensures c in Outside(cs, rs) <==> c in cs && c.release !in rs
  {
    if cs != [] {
      OutsideIn(cs[..|cs| - 1], rs, c);
      assert cs == cs[..|cs| - 1] + [cs[|cs| - 1]];
    }
  }

  // No container of these releases is left.
  predicate NoneOf(cs: seq<Replica>, rs: set<ReleaseId>) {
    forall c :: c in cs ==> c.release !in rs
  }

  lemma {:induction false} WithoutNone(cs: seq<Replica>, r: ReleaseId, rs: set<ReleaseId>)
    requires NoneOf(cs, rs)
    ensures NoneOf(Without(cs, r, {}), rs + {r})
  {
    if cs != [] { WithoutNone(cs[..|cs| - 1], r, rs); }
  }

  lemma {:induction false} StoppedNone(cs: seq<Replica>, r: ReleaseId, reached: Option<set<nat>>, rs: set<ReleaseId>)
    requires NoneOf(cs, rs)
    ensures NoneOf(Stopped(cs, r, reached), rs)
  {
    if cs != [] { StoppedNone(cs[..|cs| - 1], r, reached, rs); }
  }

  /** How the executor's calls go, by release: None when the call works, else the containers a
    * failing stop still reached, and those a failing removal left behind. */
  datatype Executor = Executor(stops: ReleaseId -> Option<set<nat>>, removes: ReleaseId -> Option<set<nat>>)

  function SetRunning(cs: seq<Replica>, r: ReleaseId, i: nat, running: bool): (out: seq<Replica>)
    ensures |out| == |cs|
    ensures forall k :: 0 <= k < |cs| ==> out[k] == if cs[k].release == r && cs[k].index == i then cs[k].(running := running) else cs[k]
  {
    if cs == [] then []
    else
      var c := cs[|cs| - 1];
      SetRunning(cs[..|cs| - 1], r, i, running) + [if c.release == r && c.index == i then c.(running := running) else c]
  }

  class Host {
    var containers: seq<Replica>

    constructor (cs: seq<Replica>)
      ensures containers == cs
    {
      containers := cs;
    }

    method StopRelease(r: ReleaseId, reached: Option<set<nat>>) returns (ok: bool)
      modifies this
      ensures containers == Stopped(old(containers), r, reached) && (ok <==> reached.None?)
      ensures |containers| == |old(containers)|
      ensures forall i :: 0 <= i < |containers| ==> StoppedOne(old(containers)[i], containers[i], r, reached)
    {
      StoppedAre(containers, r, reached);
      containers := Stopped(containers, r, reached);
      return reached.None?;
    }

    method RemoveRelease(r: ReleaseId, left: Option<set<nat>>) returns (res: Result<nat, ()>)
      modifies this
      ensures res.Ok? <==> left.None?
      ensures containers == Without(old(containers), r, if left.Some? then left.value else {})
      ensures res.Ok? ==> res.value == |old(containers)| - |containers|
      ensures forall c :: c in containers <==> c in old(containers) && (c.release == r ==> left.Some? && c.index in left.value)
    {
      WithoutAre(containers, r, if left.Some? then left.value else {});
      var before := |containers|;
      WithoutShrinks(containers, r, if left.Some? then left.value else {});
      containers := Without(containers, r, if left.Some? then left.value else {});
      return if left.None? then Ok(before - |containers|) else Err(());
    }

    method CreateReplica(r: ReleaseId, i: nat, works: bool) returns (ok: bool)
      modifies this
      ensures ok <==> works
      ensures containers == if works then old(containers) + [Replica(r, i, false, None)] else old(containers)
    {
      if works { containers := containers + [Replica(r, i, false, None)]; }
      return works;
    }

    // Starts or stops the containers with this index.
    method SetReplica(r: ReleaseId, i: nat, running: bool, works: bool) returns (ok: bool)
      modifies this
      ensures ok <==> works
      ensures containers == if works then SetRunning(old(containers), r, i, running) else old(containers)
    {
      if works { containers := SetRunning(containers, r, i, running); }
      return works;
    }

    // The releases on the host that are not kept, each once, in order.
    method StaleReleases(keep: map<ReleaseId, string>) returns (stale: seq<ReleaseId>)
      ensures forall r :: r in stale <==> r !in keep && exists c :: c in containers && c.release == r
      ensures Distinct(stale) && SortedStrings(stale)
    {
      hide StringLeq, SortStrings;
      var seen: set<ReleaseId> := {};
      stale := [];
      for i := 0 to |containers|
        invariant forall r :: r in stale <==> r in seen
        invariant forall r :: r in seen <==> r !in keep && exists k :: 0 <= k < i && containers[k].release == r
        invariant Distinct(stale)
      {
        var r := containers[i].release;
        if r in keep || r in seen { continue; }
        seen := seen + {r};
        stale := stale + [r];
      }
      assert forall c :: c in containers ==> exists k :: 0 <= k < |containers| && containers[k].release == c.release;
      SortStringsSorts(stale);
      SortKeepsMembers(stale);
      stale := SortStrings(stale);
    }

    /** Removes the releases one after another, each stopped before it is removed, and ends at the
      * first failure: the ones before it are gone, the ones behind it are as they were, and what
      * a failed removal leaves no longer runs. Nothing outside the releases is touched. */
    method RemoveReleases(releases: seq<ReleaseId>, exec: Executor) returns (removed: nat, error: Option<PruneError>)
      modifies this
      ensures Outside(containers, Members(releases)) == Outside(old(containers), Members(releases))
      ensures error == None ==> NoneOf(containers, Members(releases)) && removed == |old(containers)| - |containers|
      ensures error == None <==> forall r :: r in releases ==> exec.stops(r).None? && exec.removes(r).None?
      ensures error.Some? ==> exists k :: 0 <= k < |releases| && FailedAt(old(containers), containers, releases, exec, k, error.value)
    {
      hide Outside, Stopped, Without;
      removed, error := 0, None;
      ghost var all := containers;
      for i := 0 to |releases|
        invariant Outside(containers, Members(releases)) == Outside(old(containers), Members(releases))
        invariant NoneOf(containers, Members(releases[..i]))
        invariant removed == |old(containers)| - |containers|
        invariant forall r :: r in releases[..i] ==> exec.stops(r).None? && exec.removes(r).None?
        invariant forall c :: c in containers <==> c in all && c.release !in releases[..i]
      {
        var r := releases[i];
        ghost var cs, done := containers, Members(releases[..i]);
        assert Members(releases[..i + 1]) == done + {r} by { assert releases[..i + 1] == releases[..i] + [r]; }
        StoppedOutside(cs, r, exec.stops(r), Members(releases));
        StoppedNone(cs, r, exec.stops(r), done);
        StoppedLength(cs, r, exec.stops(r));
        var ok := StopRelease(r, exec.stops(r));
        assert forall c: Replica :: c.release in releases[..i + 1] <==> c.release in releases[..i] || c.release == r;
        UntouchedBehind(all, cs, containers, releases, i);
        if !ok {
          assert FailedAt(all, containers, releases, exec, i, StopFailed(r));
          return removed, Some(StopFailed(r));
        }
        cs := containers;
        WithoutNone(cs, r, done);
        WithoutOutside(cs, r, if exec.removes(r).Some? then exec.removes(r).value else {}, Members(releases));
        var n := RemoveRelease(r, exec.removes(r));
        if n.Err? {
          assert FailedAt(all, containers, releases, exec, i, RemoveFailed(r));
          return removed, Some(RemoveFailed(r));
        }
        removed := removed + n.value;
      }
      assert releases[..|releases|] == releases;
    }

    /** A prune removes only containers outside {active, previous active}, even when it fails
      * midway; a full success leaves none outside it; a dry run or an unknown active release
      * touches nothing. */
    method PruneApp(h: History, readable: bool, listed: bool, dry: bool, exec: Executor)
      returns (stale: seq<ReleaseId>, removed: nat, error: Option<PruneError>)
      modifies this
      ensures forall c: Replica :: c.release in Protected(h) ==> (c in containers <==> c in old(containers))
      ensures forall r :: r in Protected(h) ==> Present(containers, r) == Present(old(containers), r)
      ensures error == None && !dry ==> NoneOthers(containers, Protected(h)) && removed == |old(containers)| - |containers|
      ensures dry || !readable || !listed || h.Active().None? ==> containers == old(containers)
      ensures error == None || error.value.StopFailed? || error.value.RemoveFailed? ==>
        && Distinct(stale) && SortedStrings(stale)
        && forall r :: r in stale <==> r !in Protected(h) && exists c :: c in old(containers) && c.release == r
      ensures error.Some? && (error.value.StopFailed? || error.value.RemoveFailed?) ==>
        exists k :: 0 <= k < |stale| && FailedAt(old(containers), containers, stale, exec, k, error.value)
      ensures error == None <==>
        readable && h.Active().Some? && listed && (dry || forall r :: r in stale ==> exec.stops(r).None? && exec.removes(r).None?)
    {
      hide Outside, Stopped, Without;
      stale, removed, error := [], 0, None;
      var keep := KeepSet(h, readable);
      if keep.Err? { return [], 0, Some(keep.error); }
      if !listed { return [], 0, Some(PruneError.ListFailed); }
      stale := StaleReleases(keep.value);
      if !dry {
        ghost var cs := containers;
        removed, error := RemoveReleases(stale, exec);
        assert forall r :: r in Protected(h) <==> r in keep.value;
        KeptByOutside(cs, containers, stale, Protected(h));
        if error == None { OthersGone(cs, containers, stale, Protected(h)); }
        return stale, removed, error;
      }
      return stale, 0, None;
    }
  }

  // The k-th release is where it ended.
  ghost predicate FailedAt(before: seq<Replica>, after: seq<Replica>, releases: seq<ReleaseId>, exec: Executor, k: nat, e: PruneError) {
    && k < |releases| && (e == StopFailed(releases[k]) || e == RemoveFailed(releases[k]))
    && (e == StopFailed(releases[k]) <==> exec.stops(releases[k]).Some?)
    && (forall c :: c in after ==> c.release !in releases[..k])
    && (forall c: Replica :: c.release !in releases[..k + 1] ==> (c in after <==> c in before))
    && (e == RemoveFailed(releases[k]) ==> forall c :: c in after && c.release == releases[k] ==> !c.running)
  }

  // Stopping release i has left the others alone.
  lemma UntouchedBehind(all: seq<Replica>, cs: seq<Replica>, after: seq<Replica>, releases: seq<ReleaseId>, i: nat)
    requires i < |releases| && |after| == |cs|
    requires forall k :: 0 <= k < |cs| ==> after[k].release == cs[k].release && (cs[k].release != releases[i] ==> after[k] == cs[k])
    requires forall c :: c in cs <==> c in all && c.release !in releases[..i]
    ensures forall c: Replica :: c.release !in releases[..i + 1] ==> (c in after <==> c in all)
    ensures forall c :: c in after ==> c.release !in releases[..i]
  {
    assert releases[..i + 1] == releases[..i] + [releases[i]];
    forall c: Replica | c.release !in releases[..i + 1] ensures c in after <==> c in all {
      if c in after {
        var k :| 0 <= k < |after| && after[k] == c;
        assert cs[k] == c;
      }
      if c in all {
        var k :| 0 <= k < |cs| && cs[k] == c;
        assert after[k] == c;
      }
    }
    forall c | c in after ensures c.release !in releases[..i] {
      var k :| 0 <= k < |after| && after[k] == c;
      assert cs[k] in cs;
    }
  }

  predicate NoneOthers(cs: seq<Replica>, rs: set<ReleaseId>) {
    forall c :: c in cs ==> c.release in rs
  }

  lemma {:induction false} WithoutShrinks(cs: seq<Replica>, r: ReleaseId, survivors: set<nat>)
    ensures |Without(cs, r, survivors)| <= |cs|
    ensures forall c :: c in Without(cs, r, survivors) ==> c in cs
  {
    if cs != [] {
      WithoutShrinks(cs[..|cs| - 1], r, survivors);
      assert cs == cs[..|cs| - 1] + [cs[|cs| - 1]];
    }
  }

  lemma {:induction false} StoppedLength(cs: seq<Replica>, r: ReleaseId, reached: Option<set<nat>>)
    ensures |Stopped(cs, r, reached)| == |cs|
  {
    if cs != [] { StoppedLength(cs[..|cs| - 1], r, reached); }
  }

  function Members(releases: seq<ReleaseId>): set<ReleaseId> { set r | r in releases }

  // What lies outside the removed releases is still there.
  lemma KeptByOutside(before: seq<Replica>, after: seq<Replica>, stale: seq<ReleaseId>, keep: set<ReleaseId>)
    requires Outside(after, Members(stale)) == Outside(before, Members(stale)) && forall r :: r in stale ==> r !in keep
    ensures forall c: Replica :: c.release in keep ==> (c in after <==> c in before)
    ensures forall r :: r in keep ==> Present(after, r) == Present(before, r)
  {
    forall c: Replica | c.release in keep ensures c in after <==> c in before {
      OutsideIn(before, Members(stale), c);
      OutsideIn(after, Members(stale), c);
    }
  }

  lemma OthersGone(before: seq<Replica>, after: seq<Replica>, stale: seq<ReleaseId>, keep: set<ReleaseId>)
    requires Outside(after, Members(stale)) == Outside(before, Members(stale)) && NoneOf(after, Members(stale))
    requires forall r :: r in stale <==> r !in keep && exists c :: c in before && c.release == r
    ensures NoneOthers(after, keep)
  {
    forall c | c in after ensures c.release in keep {
      OutsideIn(before, Members(stale), c);
      OutsideIn(after, Members(stale), c);
      assert c in before;
    }
  }

  // ---- The rollback after a prune ----

  // Some replica has no container and will be built from its image.
  predicate Missing(present: set<nat>, replicas: nat) {
    exists i :: 0 <= i < replicas && i !in present
  }

  // A container of the release beyond the scale.
  predicate Surplus(c: Replica, r: ReleaseId, replicas: nat) { c.release == r && c.index >= replicas }

  // The release has a container with this index.
  predicate Has(cs: seq<Replica>, r: ReleaseId, i: nat) {
    exists c :: c in cs && c.release == r && c.index == i
  }

  // All its containers with this index run, or none of them does.
  predicate AllAt(cs: seq<Replica>, r: ReleaseId, i: nat, running: bool) {
    forall c :: c in cs && c.release == r && c.index == i ==> c.running == running
  }

  // The containers of other releases are the same.
  ghost predicate OthersSame(before: seq<Replica>, after: seq<Replica>, r: ReleaseId) {
    forall c: Replica :: c.release != r ==> (c in after <==> c in before)
  }

  lemma SetRunningDoes(cs: seq<Replica>, r: ReleaseId, i: nat, running: bool)
    ensures var out := SetRunning(cs, r, i, running);
      && OthersSame(cs, out, r) && AllAt(out, r, i, running)
      && (forall k: nat :: Has(out, r, k) <==> Has(cs, r, k))
      && (forall k: nat, b :: k != i ==> (AllAt(out, r, k, b) <==> AllAt(cs, r, k, b)))
  {
    var out := SetRunning(cs, r, i, running);
    hide SetRunning;
    forall c: Replica | c.release != r || c.index != i ensures c in out <==> c in cs {
      if c in out { var k :| 0 <= k < |out| && out[k] == c; assert cs[k] == c; }
      if c in cs { var k :| 0 <= k < |cs| && cs[k] == c; assert out[k] == c; }
    }
    forall c | c in out && c.release == r && c.index == i ensures c.running == running {
      var k :| 0 <= k < |out| && out[k] == c;
    }
    if Has(out, r, i) {
      var c :| c in out && c.release == r && c.index == i;
      var k :| 0 <= k < |out| && out[k] == c;
      assert cs[k] in cs;
    }
    if Has(cs, r, i) {
      var c :| c in cs && c.release == r && c.index == i;
      var k :| 0 <= k < |cs| && cs[k] == c;
      assert out[k] in out;
    }
  }

  lemma CreateDoes(cs: seq<Replica>, r: ReleaseId, i: nat)
    ensures var out := cs + [Replica(r, i, false, None)];
      && OthersSame(cs, out, r) && Has(out, r, i)
      && (forall k: nat :: k != i ==> (Has(out, r, k) <==> Has(cs, r, k)))
      && (forall k: nat, b :: k != i ==> (AllAt(out, r, k, b) <==> AllAt(cs, r, k, b)))
  {
    var out := cs + [Replica(r, i, false, None)];
    assert Replica(r, i, false, None) in out && forall c :: c in out <==> c in cs || c == Replica(r, i, false, None);
  }

  lemma PresentHas(cs: seq<Replica>, r: ReleaseId)
    ensures forall i: nat :: i in Present(cs, r) <==> Has(cs, r, i)
  {
  }

  /** ensureReplicas on the host: starts what is there, creates what is not, and stops what is
    * beyond the scale. If it succeeds every replica within the scale has a container, and of the
    * release's containers exactly those within the scale run; containers of other releases are
    * never touched. It reports recreated iff it created one. */
  method EnsureReplicas(host: Host, listed: bool, r: ReleaseId, replicas: nat, creates: nat -> bool, starts: nat -> bool, stops: nat -> bool)
    returns (recreated: bool, ok: bool)
    modifies host
    ensures ok ==> listed && (recreated <==> Missing(Present(old(host.containers), r), replicas))
    ensures recreated <==> listed && Recreates(Present(old(host.containers), r), replicas, creates, starts)
    ensures ok <==> listed && Startable(old(host.containers), r, replicas, creates, starts, stops)
    ensures ok ==> forall i :: 0 <= i < replicas ==> Has(host.containers, r, i)
    ensures ok ==> forall c :: c in host.containers && c.release == r ==> (c.running <==> c.index < replicas)
    ensures OthersSame(old(host.containers), host.containers, r)
    ensures !listed ==> host.containers == old(host.containers)
  {
    hide AllAt, OthersSame, Has, Present, Recreates;
    OthersStay(host.containers, r);
    if !listed { return false, false; }
    var cs := host.containers;
    PresentHas(cs, r);
    recreated, ok := StartAll(host, r, replicas, creates, starts);
    if ok {
      AllRecreated(Present(cs, r), replicas, creates, starts);
      MissingHas(cs, r, replicas);
      ghost var started := host.containers;
      ok := StopSurplus(host, cs, r, replicas, stops);
      OthersThen(cs, started, host.containers, r);
      if ok { ExactlyThese(cs, host.containers, r, replicas); }
    }
  }

  // Starts the replicas within the scale, each created first where it has no container.
  method StartAll(host: Host, r: ReleaseId, replicas: nat, creates: nat -> bool, starts: nat -> bool)
    returns (recreated: bool, ok: bool)
    modifies host
    ensures recreated <==> Recreates(Present(old(host.containers), r), replicas, creates, starts)
    ensures ok <==> Reaches(Present(old(host.containers), r), replicas, creates, starts)
    ensures OthersSame(old(host.containers), host.containers, r)
    ensures ok ==> forall k: nat :: Has(host.containers, r, k) <==> k < replicas || k in Present(old(host.containers), r)
    ensures ok ==> forall k: nat :: k < replicas ==> AllAt(host.containers, r, k, true)
  {
    hide AllAt, OthersSame, Has, Present, Recreates;
    var cs := host.containers;
    var present := Present(cs, r);
    PresentHas(cs, r);
    OthersStay(cs, r);
    NoneRecreated(present, creates, starts);
    recreated := false;
    for i := 0 to replicas
      invariant recreated <==> Recreates(present, i, creates, starts)
      invariant Reaches(present, i, creates, starts)
      invariant OthersSame(cs, host.containers, r)
      invariant forall k: nat :: Has(host.containers, r, k) <==> k < i || k in present
      invariant forall k: nat :: k < i ==> AllAt(host.containers, r, k, true)
    {
      RecreatesMore(present, i, replicas, creates, starts);
      ghost var was := host.containers;
      ok := EnsureReplica(host, r, i, i in present, creates, starts);
      OthersThen(cs, was, host.containers, r);
      recreated := recreated || (i !in present && creates(i));
      if !ok { return recreated, false; }
    }
    return recreated, true;
  }

  // One replica: created if it has no container, then started.
  method EnsureReplica(host: Host, r: ReleaseId, i: nat, there: bool, creates: nat -> bool, starts: nat -> bool) returns (ok: bool)
    modifies host
    ensures ok <==> (there || creates(i)) && starts(i)
    ensures OthersSame(old(host.containers), host.containers, r)
    ensures ok ==> AllAt(host.containers, r, i, true)
    ensures ok ==> forall k: nat :: Has(host.containers, r, k) <==> Has(old(host.containers), r, k) || (k == i && !there)
    ensures ok ==> forall k: nat :: k != i ==> (AllAt(host.containers, r, k, true) <==> AllAt(old(host.containers), r, k, true))
  {
    hide AllAt, OthersSame, Has, SetRunning;
    ghost var cs := host.containers;
    OthersStay(cs, r);
    if !there {
      CreateDoes(cs, r, i);
      var made := host.CreateReplica(r, i, creates(i));
      if !made { return false; }
    }
    ghost var made := host.containers;
    SetRunningDoes(made, r, i, true);
    OthersThen(cs, made, SetRunning(made, r, i, true), r);
    ok := host.SetReplica(r, i, true, starts(i));
  }

  // Stops the release's containers beyond the scale, as they were listed before.
  method StopSurplus(host: Host, listed: seq<Replica>, r: ReleaseId, replicas: nat, stops: nat -> bool) returns (ok: bool)
    modifies host
    ensures ok <==> forall c :: c in listed && Surplus(c, r, replicas) ==> stops(c.index)
    ensures OthersSame(old(host.containers), host.containers, r)
    ensures forall k: nat :: Has(host.containers, r, k) <==> Has(old(host.containers), r, k)
    ensures forall k: nat :: k < replicas ==> (AllAt(host.containers, r, k, true) <==> AllAt(old(host.containers), r, k, true))
    ensures ok ==> forall k :: 0 <= k < |listed| && Surplus(listed[k], r, replicas) ==> AllAt(host.containers, r, listed[k].index, false)
  {
    hide AllAt, OthersSame, Has, SetRunning;
    ghost var cs := host.containers;
    OthersStay(cs, r);
    for i := 0 to |listed|
      invariant forall k :: 0 <= k < i && Surplus(listed[k], r, replicas) ==> stops(listed[k].index) && AllAt(host.containers, r, listed[k].index, false)
      invariant OthersSame(cs, host.containers, r)
      invariant forall k: nat :: Has(host.containers, r, k) <==> Has(cs, r, k)
      invariant forall k: nat :: k < replicas ==> (AllAt(host.containers, r, k, true) <==> AllAt(cs, r, k, true))
    {
      if !Surplus(listed[i], r, replicas) { continue; }
      SetRunningDoes(host.containers, r, listed[i].index, false);
      OthersThen(cs, host.containers, SetRunning(host.containers, r, listed[i].index, false), r);
      var stopped := host.SetReplica(r, listed[i].index, false, stops(listed[i].index));
      if !stopped { return false; }
    }
    return true;
  }

  lemma MissingHas(cs: seq<Replica>, r: ReleaseId, replicas: nat)
    ensures Missing(Present(cs, r), replicas) <==> exists i :: 0 <= i < replicas && !Has(cs, r, i)
  {
    PresentHas(cs, r);
  }

  lemma NoneRecreated(present: set<nat>, creates: nat -> bool, starts: nat -> bool)
    ensures !Recreates(present, 0, creates, starts) && Reaches(present, 0, creates, starts)
  {
  }

  lemma OthersStay(cs: seq<Replica>, r: ReleaseId)
    ensures OthersSame(cs, cs, r)
  {
  }

  lemma OthersThen(a: seq<Replica>, b: seq<Replica>, c: seq<Replica>, r: ReleaseId)
    requires OthersSame(a, b, r) && OthersSame(b, c, r)
    ensures OthersSame(a, c, r)
  {
  }

  lemma ExactlyThese(before: seq<Replica>, after: seq<Replica>, r: ReleaseId, replicas: nat)
    requires forall k: nat :: Has(after, r, k) <==> k < replicas || k in Present(before, r)
    requires forall k: nat :: k < replicas ==> AllAt(after, r, k, true)
    requires forall k :: 0 <= k < |before| && Surplus(before[k], r, replicas) ==> AllAt(after, r, before[k].index, false)
    ensures forall c :: c in after && c.release == r ==> (c.running <==> c.index < replicas)
  {
    forall c | c in after && c.release == r ensures c.running <==> c.index < replicas {
      assert Has(after, r, c.index);
      if c.index >= replicas {
        assert c.index in Present(before, r);
        var q :| q in before && q.release == r && q.index == c.index;
        var k :| 0 <= k < |before| && before[k] == q;
        assert Surplus(before[k], r, replicas);
      }
      assert AllAt(after, r, c.index, c.index < replicas);
    }
  }

  // The loop gets to replica i.
  predicate Reaches(present: set<nat>, i: nat, creates: nat -> bool, starts: nat -> bool) {
    forall k :: 0 <= k < i ==> starts(k) && (k in present || creates(k))
  }

  // Some replica without a container is reached and created.
  predicate Recreates(present: set<nat>, replicas: nat, creates: nat -> bool, starts: nat -> bool) {
    exists i :: 0 <= i < replicas && i !in present && creates(i) && Reaches(present, i, creates, starts)
  }

  // Once replica i is reached, whether it fails decides about those behind it.
  lemma RecreatesMore(present: set<nat>, i: nat, replicas: nat, creates: nat -> bool, starts: nat -> bool)
    requires i < replicas && Reaches(present, i, creates, starts)
    ensures Recreates(present, i + 1, creates, starts) <==> Recreates(present, i, creates, starts) || (i !in present && creates(i))
    ensures !starts(i) || !(i in present || creates(i)) ==>
      (Recreates(present, replicas, creates, starts) <==> Recreates(present, i + 1, creates, starts))
  {
    if Recreates(present, replicas, creates, starts) && !(starts(i) && (i in present || creates(i))) {
      var k :| 0 <= k < replicas && k !in present && creates(k) && Reaches(present, k, creates, starts);
      assert k <= i;
    }
  }

  lemma AllRecreated(present: set<nat>, replicas: nat, creates: nat -> bool, starts: nat -> bool)
    requires Reaches(present, replicas, creates, starts)
    ensures Recreates(present, replicas, creates, starts) <==> Missing(present, replicas)
  {
    if Missing(present, replicas) {
      var i :| 0 <= i < replicas && i !in present;
      assert Reaches(present, i, creates, starts);
    }
  }

  // Every call it has to make works.
  predicate Startable(cs: seq<Replica>, r: ReleaseId, replicas: nat, creates: nat -> bool, starts: nat -> bool, stops: nat -> bool) {
    && (forall i :: 0 <= i < replicas ==> starts(i) && (i in Present(cs, r) || creates(i)))
    && (forall c :: c in cs && Surplus(c, r, replicas) ==> stops(c.index))
  }

  lemma SameStartable(before: seq<Replica>, after: seq<Replica>, r: ReleaseId, replicas: nat, creates: nat -> bool, starts: nat -> bool, stops: nat -> bool)
    requires Present(after, r) == Present(before, r)
    requires forall c: Replica :: c.release == r ==> (c in after <==> c in before)
    ensures Startable(after, r, replicas, creates, starts, stops) <==> Startable(before, r, replicas, creates, starts, stops)
  {
  }

  /** Pruned or not, even when the prune fails midway, a rollback to the previous release finds
    * the same replicas and reports the same recreated flag; if it succeeds they run, and the
    * containers of the active release are still there. */
  method RollbackAfterPrune(host: Host, h: History, exec: Executor, replicas: nat, creates: nat -> bool, starts: nat -> bool, stops: nat -> bool)
    returns (recreated: bool, ok: bool)
    requires h.Previous().Some?
    modifies host
    ensures ok ==> (recreated <==> Missing(Present(old(host.containers), h.Previous().value), replicas))
    ensures recreated <==> Recreates(Present(old(host.containers), h.Previous().value), replicas, creates, starts)
    ensures ok <==> Startable(old(host.containers), h.Previous().value, replicas, creates, starts, stops)
    ensures ok ==> forall c :: c in host.containers && c.release == h.Previous().value ==> (c.running <==> c.index < replicas)
    ensures ok ==> forall i :: 0 <= i < replicas ==> Has(host.containers, h.Previous().value, i)
    ensures forall c: Replica :: h.Active() == Some(c.release) && h.Active() != h.Previous() ==>
      (c in host.containers <==> c in old(host.containers))
  {
    var target := h.Previous().value;
    ghost var before := host.containers;
    var stale, removed, error := host.PruneApp(h, true, true, false, exec);
    SameStartable(before, host.containers, target, replicas, creates, starts, stops);
    recreated, ok := EnsureReplicas(host, true, target, replicas, creates, starts, stops);
  }
}
