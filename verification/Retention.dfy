/** The retention policy of internal/api/appprune.go seen from the live proxy: what it protects
  * is read from the activation history, which may be ahead of what the proxy routes. */
module Retention {
  import opened Wrappers
  import opened Routing
  import opened ProxyConfig
  import S = Switching
  import D = Deployments
  import P = Prune
  import E = Example

  // What prune protects of an application, on the switching machine's history.
  function ProtectedOf(h: seq<ReleaseId>): set<ReleaseId> { P.Protected(D.History(h, h != [])) }

  /** A release is protected iff it is the active one or the one active before it. */
  lemma ProtectedIff(h: seq<ReleaseId>, r: ReleaseId)
    ensures r in ProtectedOf(h) <==> (|h| >= 1 && r == h[|h| - 1]) || (|h| >= 2 && r == h[|h| - 2])
  {
  }

  function FailedSwitch(a: AppId, r: ReleaseId): seq<S.Event> {
    [S.Begin(a, r)] + ([S.Activate(a)] + ([S.Lock(S.Switch(a))] + ([S.JobError] + [])))
  }

  // Nothing is under way for the application, and no load holds the lock.
  predicate Idle(s: S.State, a: AppId) {
    a in s.apps && a in s.history && a !in s.ops && s.job.None?
  }

  function Activated(s: S.State, a: AppId, r: ReleaseId): S.State
    requires a in s.history
  {
    s.(history := s.history[a := s.history[a] + [r]])
  }

  lemma BeginStep(s: S.State, a: AppId, r: ReleaseId)
    requires Idle(s, a) && r != ""
    ensures S.Enabled(s, S.Begin(a, r))
    ensures S.Next(s, S.Begin(a, r)) == s.(ops := s.ops[a := S.Op(r, S.Starting)])
  {
  }

  lemma ActivateStep(s: S.State, a: AppId, r: ReleaseId)
    requires a in s.history && a in s.ops && s.ops[a] == S.Op(r, S.Starting)
    requires s.history[a] != [] ==> s.history[a][|s.history[a]| - 1] != r
    ensures S.Enabled(s, S.Activate(a))
    ensures S.Next(s, S.Activate(a)) == Activated(s, a, r).(ops := s.ops[a := S.Op(r, S.Activated)])
  {
  }

  lemma FailedLoad(s: S.State, a: AppId, r: ReleaseId)
    requires s.job.None? && a in s.ops && s.ops[a] == S.Op(r, S.Activated)
    ensures S.Enabled(s, S.Lock(S.Switch(a))) && S.Enabled(S.Next(s, S.Lock(S.Switch(a))), S.JobError)
    ensures S.Next(S.Next(s, S.Lock(S.Switch(a))), S.JobError) == s.(ops := s.ops - {a})
  {
    hide S.OpenPositions;
    var s' := S.NextLock(s, S.Switch(a));
    assert s'.job.Some? && s'.job.value.actor == S.Switch(a) && s'.job.value.stage == S.Planning;
    assert s'.ops - {a} == s.ops - {a};
  }

  // A switch whose load fails leaves the new release active and the live routes as they were.
  lemma FailedSwitchRuns(s: S.State, a: AppId, r: ReleaseId)
    requires Idle(s, a) && r != "" && (s.history[a] != [] ==> s.history[a][|s.history[a]| - 1] != r)
    ensures S.Runs(s, FailedSwitch(a, r)) && S.After(s, FailedSwitch(a, r)) == Activated(s, a, r)
  {
    hide S.Runs, S.After, S.Next, S.Enabled;
    BeginStep(s, a, r);
    var s1 := S.Next(s, S.Begin(a, r));
    ActivateStep(s1, a, r);
    var s2 := S.Next(s1, S.Activate(a));
    FailedLoad(s2, a, r);
    var s3 := S.Next(s2, S.Lock(S.Switch(a)));
    var s4 := S.Next(s3, S.JobError);
    assert s4.ops == s.ops;
    assert s4 == Activated(s, a, r);
    S.RunNone(s4);
    S.RunOne(s3, S.JobError, []);
    S.RunOne(s2, S.Lock(S.Switch(a)), [S.JobError] + []);
    S.RunOne(s1, S.Activate(a), [S.Lock(S.Switch(a))] + ([S.JobError] + []));
    S.RunOne(s, S.Begin(a, r), [S.Activate(a)] + ([S.Lock(S.Switch(a))] + ([S.JobError] + [])));
  }

  /** The live release is not always protected: two switches in a row whose loads fail leave
    * the proxy on a release that is neither active nor previously active, so a prune removes
    * the containers that take the traffic. */
  lemma LiveReleaseUnprotected(s: S.State, a: AppId, r: ReleaseId, q: ReleaseId)
    requires Idle(s, a) && a in s.live && s.history[a] != []
    requires s.live[a].pos == |s.history[a]| - 1
    requires r != "" && q != "" && r != q && s.history[a][s.live[a].pos] !in {r, q}
    ensures var es := FailedSwitch(a, r) + FailedSwitch(a, q);
      && S.Runs(s, es)
      && var t := S.After(s, es);
      && t.live == s.live && t.host == s.host
      && a in t.history && t.live[a].pos < |t.history[a]|
      && t.history[a][t.live[a].pos] !in ProtectedOf(t.history[a])
  {
    hide S.Runs, S.After, FailedSwitch;
    FailedSwitchRuns(s, a, r);
    var s1 := Activated(s, a, r);
    FailedSwitchRuns(s1, a, q);
    S.RunsConcat(s, FailedSwitch(a, r), FailedSwitch(a, q));
    ProtectedIff(s.history[a] + [r] + [q], s.history[a][s.live[a].pos]);
  }

  /** After a switch that succeeded, and all through its drain, the live release is the active
    * one, hence protected. */
  lemma SwitchedIsProtected(s: S.State, es: seq<S.Event>, a: AppId)
    requires S.Init(s) && S.Runs(s, es)
    requires var t := S.After(s, es); a in t.ops && S.Switched(t.ops[a].phase) && a in t.live
    ensures var t := S.After(s, es);
      && a in t.history && t.live[a].pos == |t.history[a]| - 1
      && t.history[a][t.live[a].pos] == t.ops[a].release
      && t.ops[a].release in ProtectedOf(t.history[a])
  {
    hide S.Runs, S.After, S.HostOk, S.DrainedStopped, S.LoadsOk, S.Undrained, S.JobInv, S.ServedOk;
    S.InitInv(s);
    S.RunKeeps(s, es);
    var t := S.After(s, es);
    assert S.OpOk(t.apps, t.history, t.top, S.Owner(t.job), a, t.ops[a]);
    ProtectedIff(t.history[a], t.ops[a].release);
  }

  /** Over every run, whoever did what: the live release of an application is protected if there
    * was at most one activation since the last load that routed it. When none of the later
    * activations was of that same release, it is protected only then. */
  lemma LiveIsProtectedIff(s: S.State, es: seq<S.Event>, a: AppId)
    requires S.Init(s) && S.Runs(s, es) && a in S.After(s, es).live
    ensures var t := S.After(s, es);
      && a in t.history && t.live[a].pos < |t.history[a]|
      && var h, p := t.history[a], t.live[a].pos;
      && (|h| - p <= 2 ==> h[p] in ProtectedOf(h))
      && (h[p] !in h[p + 1..] ==> (h[p] in ProtectedOf(h) <==> |h| - p <= 2))
  {
    hide S.Runs, S.After, S.HostOk, S.DrainedStopped, S.LoadsOk, S.Undrained, S.JobInv, S.OpsOk;
    S.InitInv(s);
    S.RunKeeps(s, es);
    var t := S.After(s, es);
    var h, p := t.history[a], t.live[a].pos;
    ProtectedIff(h, h[p]);
    if |h| - p > 2 && h[p] !in h[p + 1..] {
      assert h[p + 1..][|h| - p - 2] == h[|h| - 1] && h[p + 1..][|h| - p - 3] == h[|h| - 2];
    }
  }

  /** The failing input, from a fresh start: r1 is switched to r2, then two switches whose loads
    * fail. The proxy routes to r2's running container, and a prune may remove it. */
  lemma UnprotectedRun() returns (es: seq<S.Event>)
    ensures S.Init(E.Start()) && S.Runs(E.Start(), es)
    ensures var t := S.After(E.Start(), es);
      && t.live == E.ROUTES && t.history == map[E.APP := ["r1", "r2", "r3", "r4"]]
      && t.host == E.Done().host && E.NEW in t.host[E.APP]
      && t.ops == map[] && t.job == None
      && "r2" !in ProtectedOf(t.history[E.APP])
  {
    hide S.Runs, S.After, FailedSwitch;
    var first := E.SwitchRunsToTheEnd();
    var s := E.Done();
    FailedSwitchRuns(s, E.APP, "r3");
    var s1 := Activated(s, E.APP, "r3");
    FailedSwitchRuns(s1, E.APP, "r4");
    S.RunsConcat(s, FailedSwitch(E.APP, "r3"), FailedSwitch(E.APP, "r4"));
    S.RunsConcat(E.Start(), first, FailedSwitch(E.APP, "r3") + FailedSwitch(E.APP, "r4"));
    es := first + (FailedSwitch(E.APP, "r3") + FailedSwitch(E.APP, "r4"));
    var t := Activated(s1, E.APP, "r4");
    assert s.history[E.APP] + ["r3"] + ["r4"] == ["r1", "r2", "r3", "r4"];
    assert t.history == map[E.APP := ["r1", "r2", "r3", "r4"]];
  }
}
