/** What a deploy answers, against what the proxy routes: the answer of internal/api/deploy.go to
  * the end of switchTraffic, and the machine's state at the load's read-back. */
module Answers {
  import opened Wrappers
  import opened Routing
  import opened ProxyConfig
  import opened Switching
  import opened Rollout
  import D = Deployments
  import E = Example

  // What the answer depends on: what the load skipped, or nothing when it failed.
  function LoadOf(c: Calls, seen: State): Option<set<AppId>>
    requires seen.job.Some?
  {
    if Landed(c, seen) then Some(seen.job.value.skipped) else None
  }

  /** The answer when every call before the read-back works: the states in which the application's
    * containers are listed and in which the load is read back decide it. */
  predicate AnswerAgainst(d: D.Deployed, plan: State, seen: State, a: AppId, r: ReleaseId, c: Calls, stale: seq<ReleaseId>)
    requires a in plan.apps && seen.job.Some?
  {
    var routed := Choice(plan, a, r, c.listing(a)).Ok?;
    && (d.Succeeded? && !Serving(seen, a, r) <==> Landed(c, seen) && !routed)
    && (!routed ==> a !in seen.live)
    && (!d.Succeeded? && Serving(seen, a, r) <==>
          (routed && seen.live == seen.job.value.routes && (!c.readable || (seen.job.value.skipped == {} && !Drains(c, stale)))))
  }

  /** The end of a deploy whose release is built and started, whatever the others do. It is
    * answered as a success while the proxy has no route to it iff the load landed but the
    * application's own containers gave it no route; the route it had before is gone then, too.
    * It is answered as a failure while the proxy does route to it iff the load is live but could
    * not be read back, or nothing was skipped and only the drain failed. */
  ghost method DeployEnds(m: Machine, a: AppId, r: ReleaseId, c: Calls, releases: State -> seq<Event>)
    returns (d: D.Deployed, drain: Drain, plans: map<AppId, State>, seen: State)
    requires m.Valid() && Placed(m.s) && Ours(m.s, a, r, Starting) && a in m.s.apps
    requires Scheduled(m.others, releases, a)
    modifies m
    ensures m.Valid() && a !in m.s.ops && a in m.s.apps
    ensures !(c.gate && c.activates && Works(c)) ==> d.Failed?
    ensures c.gate && c.activates && !Works(c) ==> d == D.Answered(r, D.SwitchEnd(a, None, true), true)
    ensures c.gate && c.activates && Works(c) ==>
      && ReadsBack(m.start, m.past, seen, c.readable) && Loading(seen, a, r, Posted)
      && d == D.Answered(r, D.SwitchEnd(a, LoadOf(c, seen), Drains(c, drain.listed)), true)
      && (Landed(c, seen) && a !in seen.job.value.skipped ==> Passed(m.start, m.past, drain.at) && Drained(drain, a, r, c))
    ensures c.gate && c.activates && Works(c) && m.s.apps[a].domain != "" ==>
      && a in plans && Lists(m.start, m.past, plans[a], a) && a in plans[a].apps
      && AnswerAgainst(d, plans[a], seen, a, r, c, drain.listed)
  {
    hide Init, Inv, Placed, Ours, Scheduled, PlannedBy, Outcome, Passed, LastRouted, Choice, Serving, Runs, After, Drained, Drains, ReadsBack, StopsInOrder, ListedFirst, Lists;
    var error, skipped, first;
    error, skipped, drain, first, plans, seen := SwitchTraffic(m, a, r, c, releases);
    if error == Some(SwitchError.GateFailed) {
      d := D.Deployed.Failed(r, D.RolloutError.GateFailed);
    } else if error == Some(SwitchError.NotActivated) {
      d := D.Deployed.Failed(r, D.RolloutError.NotActivated(D.BadClock));
    } else {
      var load := if error == Some(ReconcileFailed) then None else Some(skipped);
      d := D.Answered(r, D.SwitchEnd(a, load, error != Some(DrainFailed)), true);
      if Works(c) {
        Decides(if error == Some(DrainFailed) then None else error, first, plans, seen, a, r, c);
        if m.s.apps[a].domain != "" { ListsOne(m.start, m.past, first, plans, a); }
      }
      assert error.None? || error.value.DrainFailed? || error.value.Skipped? || error.value.ReconcileFailed?;
    }
  }

  lemma ListsOne(start: State, past: seq<Event>, first: State, plans: map<AppId, State>, a: AppId)
    requires PlannedBy(start, past, first, plans, a) && a in plans
    ensures Lists(start, past, plans[a], a)
  {
    hide Lists, Locks;
  }

  // What the outcome of a load says of the application itself.
  lemma Decides(error: Option<SwitchError>, first: State, plans: map<AppId, State>, seen: State, a: AppId, r: ReleaseId, c: Calls)
    requires Outcome(error, first, plans, seen, a, r, c) && a in seen.apps
    ensures seen.job.Some?
    ensures (error == Some(ReconcileFailed) <==> !Landed(c, seen)) && (error == Some(Skipped) <==> Landed(c, seen) && a in seen.job.value.skipped)
    ensures seen.apps[a].domain != "" ==>
      && a in plans && a in plans[a].apps
      && (a in seen.job.value.skipped <==> Choice(plans[a], a, r, c.listing(a)).Err?)
      && (a in seen.job.value.skipped ==> a !in seen.live)
      && (Serving(seen, a, r) <==> seen.live == seen.job.value.routes && a !in seen.job.value.skipped)
  {
    hide Choice, Serving;
    if seen.apps[a].domain != "" { assert InScope(first, a); }
  }

  // The load of the run is live and has skipped the application it was made for.
  predicate SkippedItself(t: State, a: AppId, r: ReleaseId) {
    && Holds(t, a) && t.job.value.stage == Posted && t.live == t.job.value.routes
    && a in t.ops && t.ops[a].release == r && a in t.job.value.skipped
  }

  /** The failing input: a deploy of r3 that is answered as a success although the run has taken
    * away the only route the application had. */
  lemma OutageIsASuccess() returns (fs: seq<Event>, es: seq<Event>)
    ensures Init(E.Start()) && es == fs + [ReadBack(true)] && Runs(E.Start(), fs) && Runs(E.Start(), es)
    ensures var t := After(E.Start(), fs);
      && SkippedItself(t, E.APP, "r3")
      && forall drains :: D.Answered("r3", D.SwitchEnd(E.APP, Some(t.job.value.skipped), drains), true) == D.Succeeded("r3")
    ensures var s := After(E.Start(), es);
      && s.live == map[] && s.ops == map[] && s.job == None && s.history == map[E.APP := E.ALL]
      && s.host == map[E.APP := [E.STOPPED, E.NEW, E.UP]]
  {
    hide Runs, After;
    fs := E.SkippedSwitchRuns();
    es := fs + [ReadBack(true)];
  }
}
