# Kadran: traffic switching, audit chains, resumable install, alarms and codecs

Kadran deploys containers behind a reverse proxy. Three records have to agree while deploys,
a healing supervisor and a proxy watcher change them at the same time: the activation history
in SQLite, the containers on the host, and the proxy's live configuration. Beside that stand a
hash-chained audit log with an append-only journal, an install protocol over connections that
drop, edge-triggered alarms, and three codecs. This project models those parts in Dafny and
proves what they promise. `dafny verify dfyconfig.toml` checks all of it.

| files | what they model |
|---|---|
| `Switching.dfy`, `Rollout.dfy`, `Retention.dfy`, `Example.dfy` | the switching core as a transition system over all interleavings; `switchTraffic` as one of its threads; prune's policy seen from the live proxy; two whole runs |
| `ProxyConfig.dfy`, `Routing.dfy`, `Reconciler.dfy`, `HealthGate.dfy` | the proxy configuration and its read-back, routing and readiness, `Reconcile`, `Repair` and the proxy watcher, the health gate |
| `Deployments.dfy`, `Answers.dfy`, `Prune.dfy`, `Supervisor.dfy` | releases and the activation history, deploy and rollback; what a deploy answers against what the proxy routes; prune and the rollback after it; heal throttling |
| `Audit.dfy`, `Journal.dfy`, `JournalExample.dfy`, `AuditLog.dfy` | the hash chain, the executor's journal file, an encoding that meets its laws, the two paging verifiers |
| `Upload.dfy`, `Installer.dfy`, `Follow.dfy`, `EndToEnd.dfy` | the upload server, the client, following the install log, and the client against the server |
| `Alarms.dfy` | alarm rows, notices and the disk alarm |
| `KeyBlob.dfy`, `Keys.dfy`, `LogDemux.dfy` | the SSH key blob, `authorized_keys` lines, Docker's log stream |
| `Wrappers.dfy`, `Bytes.dfy`, `Text.dfy` | shared types, big-endian integers, string operations |

## How to read it

- In the switching machine an event is one call of the code or one change from outside. A load
  is the steps the reconciler's mutex holds together: read the deployments, list each
  application's containers, build, post, read back. Everything else may happen in between:
  other applications' operations, healing, crashes, a proxy that restarts without routes, a
  daemon that restarts, calls that fail. A container is known by its id, never by an address
  that can be reused. Domains are unique, and an application's domain and replica count stay
  fixed while an operation on it runs.
- SHA-256 (FIPS 180-4) is any total function to 32 bytes. No such function is free of
  collisions, so results that rest on it end in "or here are two different inputs with the
  same digest".
- JSON lines are a codec with the laws of `Journal.JsonLines`, which some encoding has
  (`JournalExample.ToyLaws`). Base64 and the fingerprint text are functions passed in. A Go
  string is its bytes: one `char` stands for one byte.
- The network, the database, the container engine and the clock are parameters: every answer
  they can give is a case.

Where the code does not do what its documentation or its caller says, the code is modelled, an
input is given and the exact condition is proved:

- A journal file whose last line has no line feed opens, but the next append makes it
  unreadable (`Journal.UnterminatedFileBreaks`; the condition is `Journal.AppendReadsBackIff`).
  After an append whose write or sync failed, the next append does the same iff a byte of the
  line had been written (`Journal.NextAppendIff`).
- Adding a deploy key to a file whose last line has no line feed reports success, but glues the
  key to that line (`Keys.AddedBehindComment`, `Keys.AddedLineIff`).
- The comments at internal/deploy/rollout.go:472-475 and internal/deploy/reconcile.go:155-157
  let an application that a load skips keep its live route. A load of `Reconcile` takes it away
  (`Switching.SkippedLosesRoute`); only `Repair` carries it over. So a deploy that is answered
  as a success can leave an application with running containers and no route
  (`Answers.OutageIsASuccess`). That happens iff the load landed and the application's own
  containers gave it no route; and a deploy is answered as a failure although the proxy routes
  to the new release iff the load is live but could not be read back, or nothing was skipped
  and only the drain failed (`Answers.DeployEnds`, with `Routing.RoutedIff`).
- `backoff` is documented as safe from overflow because it is capped. With a cap from 2^62
  nanoseconds on it can wrap to a negative wait (`Supervisor.LargestLimitWraps`,
  `Supervisor.BackoffIsCappedIff`).
- Prune is documented as free of traffic risk because only active releases are routed. After
  two switches whose loads failed, the proxy still routes to a release that prune removes
  (`Retention.UnprotectedRun`); at most one activation since the last load that routed the
  application is the condition (`Retention.LiveIsProtectedIff`).
- With `ClearActiveRelease`, which only the repository's tests call, a release can become its
  own rollback target (`Deployments.OwnTargetIff`).
- A broken executor journal is never reported INVALID on a fixed log, only UNREACHABLE
  (`AuditLog.ExecutorChain`).

## Model

| member | source | states |
|---|---|---|
| Switching.StepKeeps | internal/deploy/rollout.go:166-552 | every call and every outside change keeps the invariant: what a load in progress has planned, what is live, where each operation stands and what has been drained fit together |
| Switching.DrainTables | internal/deploy/rollout.go:527-552 | when drainStale stops containers, neither the live routes nor those of a load under way contain them |
| Switching.DrainingServes | internal/deploy/rollout.go:458-490 | from the moment an operation drains, its application is live, and planned, only on the release just activated |
| Switching.PlannedFrom | internal/deploy/reconcile.go:260-342 | a planned upstream is the address of a container of the application that is running, within the scale and created for the release that was read, and not one that has been drained |
| Switching.CarryTable | internal/deploy/reconcile.go:183-195 | routes carried over for skipped applications bring no drained container back |
| Switching.NoDrainedUpstream | internal/deploy/rollout.go:458-552 | in every interleaving, no container stopped by drainStale is an upstream in the live configuration |
| Switching.LiveUpstreamsBelong | internal/deploy/reconcile.go:162-342 | every live upstream is a container of the release at the history position last loaded for its application |
| Switching.LoadsNeverGoBack | internal/deploy/reconcile.go:57-202 | along every run the history position loads route an application to never decreases, carried-over routes included |
| Switching.SkippedLosesRoute | internal/deploy/reconcile.go:108-129 | over every run, once a load other than a repair is posted, an application it skipped has no live route, not even the one it had |
| Example.SwitchRunsToTheEnd | internal/deploy/rollout.go:458-552 | the machine does run: a whole switch from one release to the next, ending with the new one live and the old one drained |
| Rollout.OthersRun | internal/deploy/reconcile.go:57-64 | whatever the other actors do between two calls, they leave this operation, its history and a load it holds alone |
| Rollout.SomeSchedule | internal/deploy/reconcile.go:57-64 | there are others that leave the operation alone and give the mutex back, as the theorems about it ask |
| Rollout.Reconcile | internal/deploy/reconcile.go:108-129 | under any interference Reconcile's calls are steps of the machine; it leaves the operation routed or ends it; when every call works it fails iff the read-back is not what was loaded; for every application in scope it skips exactly those whose containers, in the state in which they are listed, give no route, and the others are live on the release read; the proxy then routes to the release switched to iff the load is live and did not skip it |
| Rollout.StaleListIs | internal/deploy/rollout.go:562-582 | the stop list is exactly the releases on the host other than the active one, each once and sorted |
| Rollout.DrainStale | internal/deploy/rollout.go:527-552 | the list is read from the host before the window; then, in its order, each release of it is stopped by one call of the run: on all its containers on the host at that moment, or, where the stop fails, on those it reached; none is if the window is cut short; it fails iff the host cannot be listed, the window is cut short or a release does not stop; the release switched to is not in the list and is still the last one routed |
| Rollout.SwitchTraffic | internal/deploy/rollout.go:458-490 | gate, activate, reconcile, drain, stop under any interference: a failed gate or activation leaves the history alone, a failed load leaves the release activated, nothing is stopped unless the load succeeded and did not skip the application; then the stop calls of the run are those of the listed releases, in order, each on all the release's containers or, where it fails, on those it reached, and the release is active, the last one routed and never stopped; it ends as skipped iff the load landed and the application's containers gave it no route; the applications skipped are reported beside the drain's error |
| Retention.ProtectedIff | internal/api/appprune.go:26-37 | prune protects exactly the active release and the one active before it |
| Retention.LiveReleaseUnprotected | internal/api/appprune.go:26-49 | two switches in a row whose loads fail leave the live routes on a release that prune removes |
| Retention.SwitchedIsProtected | internal/api/appprune.go:26-49 | while a switch that has routed is draining, the live release is the active one and protected |
| Retention.LiveIsProtectedIff | internal/api/appprune.go:26-49 | over every run, operations under way or not: the live release is protected if there was at most one activation since the last load that routed the application, and, unless that release was activated again, only then |
| Retention.UnprotectedRun | internal/api/appprune.go:26-49 | the failing input: a run from a fresh start that ends with nothing under way and the proxy on a running container that prune may remove |
| ProxyConfig.RoutesByHost | internal/proxydrv/client.go:273-297 | the four nested loops build the host map as specified, nil servers skipped |
| ProxyConfig.HostMapIs | internal/proxydrv/client.go:273-297 | a host is in the map iff some route of some server lists it, and then goes to the upstreams those routes give it, each as often as it is listed |
| ProxyConfig.AnyWalkMatches | internal/proxydrv/client.go:273-297 | two walks over the same servers in any order give routes that compare as equal |
| ProxyConfig.SameStrings | internal/proxydrv/client.go:299-315 | the counting loop answers true iff the two lists are equal as multisets |
| ProxyConfig.VerifyApplied | internal/proxydrv/client.go:184-247 | no error iff both configurations give the same hosts, each with the same multiset of upstreams |
| ProxyConfig.MatchIsEquivalence | internal/proxydrv/client.go:184-247 | the read-back comparison is an equivalence, and a match leaves no host missing either way |
| ProxyConfig.BuildConfig | internal/proxydrv/config.go:184-268 | succeeds iff there is an admin address, no domain comes twice and none is routed nowhere; a domain or application it reports is one at fault; then the host map is exactly the non-empty domains with their upstreams |
| ProxyConfig.SortForgetsOrder | internal/proxydrv/config.go:184-268 | with one route per application the configuration does not depend on the order the routes are given in |
| Routing.UpstreamsFor | internal/deploy/reconcile.go:260-342 | the filter loop computes the specified upstreams or the specified reason to skip, and never an empty list |
| Routing.RoutedFrom | internal/deploy/reconcile.go:260-342 | only running containers of the active release within the scale take traffic |
| Routing.RoutedAre | internal/deploy/reconcile.go:260-342 | the upstreams are the addresses of all running containers of the release within the scale, each once, in index order |
| Routing.RoutedIff | internal/deploy/reconcile.go:260-342 | an application is routed iff its containers are listed, it is scaled to at least one, some container of the release within the scale runs with an address, and all of those addresses can be dialled |
| Routing.SkipReasonIs | internal/deploy/reconcile.go:260-342 | why an application is skipped, case by case; a container that cannot be dialled is named by the smallest such index |
| Routing.ReadyCount | internal/deploy/rollout.go:669-722 | the number of listed containers that run with an address, are of the release, within the scale and pass the probe |
| Routing.GateAgreesWithRouting | internal/deploy/rollout.go:669-722 | if the gate sees all replicas ready, routing the same containers skips nothing and yields exactly Replicas upstreams in index order, whatever else is on the host and in whatever order |
| HealthGate.AwaitReady | internal/deploy/rollout.go:628-659 | terminates, and succeeds exactly at the first measurement that completes the run of passing ones, if every earlier measurement left time |
| HealthGate.StreakCompletes | internal/deploy/rollout.go:628-659 | the running counter reaches the required number iff the last so many measurements all passed |
| Reconciler.Proxy.Load | internal/proxydrv/client.go:73-91 | success iff the POST was answered and what was read back has the same routes; a refused POST changes nothing |
| Reconciler.MakePlan | internal/deploy/reconcile.go:212-243 | the loop computes the specified plan |
| Reconciler.PlanFacts | internal/deploy/reconcile.go:212-243 | every deployment with a domain is routed or skipped with a reason, nothing else is in the plan, and unique domains make it buildable |
| Reconciler.ReasonsAre | internal/deploy/reconcile.go:212-243 | every skipped application is skipped for the reason its own containers give |
| Reconciler.CarrySkipped | internal/deploy/reconcile.go:186-192 | carries over, in any order of the map, exactly the skipped applications with usable live upstreams, and keeps the routes buildable |
| Reconciler.Reconciler.Reconcile | internal/deploy/reconcile.go:108-129 | on success the live routes are exactly the plan and one configuration was posted; it is refused as unbuildable iff the plan is, which unique domains exclude; it fails to load only after a POST that the read-back does not confirm, and a load that works is a success |
| Reconciler.Reconciler.Repair | internal/deploy/reconcile.go:162-202 | a host is missing iff the plan asks for it and it is not live; it posts one configuration iff some host is missing, and none otherwise; with readable deployments, unique domains and a load that works it succeeds; success leaves every planned host live, and after a load exactly the plan plus the carried routes; Exact iff live and plan match both ways; each error exactly in its case |
| Reconciler.ValidDialsAreUsable | internal/proxydrv/client.go:257-271 | what can be carried over is exactly the dialable addresses, and all of a list that has only those |
| Reconciler.SkippedKeepTheirs | internal/deploy/reconcile.go:183-199 | after a repair load a skipped application has its usable live upstreams, each as often as before, and no others |
| Reconciler.AlarmOpenIff | cmd/kadrand/proxywatch.go:77-107 | the alarm is open iff it was, or three ticks in a row failed and the last of them could write it, and no clean tick that could write came since |
| Reconciler.ProxyWatcher.Tick | cmd/kadrand/proxywatch.go:77-107 | after a tick that did not fail every planned host is live, and with a load that works it does not fail; one that closes the alarm has just seen nothing skipped and the live routes equal to the plan; counter and alarm follow the outcomes, failing alarm writes included |
| Deployments.IdInjective | internal/store/releases.go:102-108 | different sequence numbers give different release ids, so a new release never overwrites an old one |
| Deployments.QueriesReadHistory | internal/store/deployments.go:125-216 | the open row is the last activation, and the last closed row is the activation before it |
| Deployments.RunsKeep | internal/store/deployments.go:64-123 | over every run, clocks that go back included: at most one open row per application and it is the last; closed rows never change and end no earlier than they began; every activated release was sealed BUILT with an image; seals are final |
| Deployments.ImagesAreGiven | internal/store/releases.go:117-139 | over every run, the image of a BUILT release is the one a seal of the run gave it, or the one it was built with before, and every activated release is BUILT |
| Deployments.TargetDiffers | internal/store/deployments.go:137-151 | without ClearActiveRelease the rollback target always differs from the active release |
| Deployments.RollbackTwice | internal/store/deployments.go:64-151 | on the rows, through the two queries: after switching from p to q the target is p, and two rollbacks to the target the query gives restore the original |
| Deployments.OwnTargetIff | internal/store/deployments.go:64-151 | an activation makes a release its own rollback target iff it was taken out of traffic and put back |
| Deployments.Store.StartRelease | internal/store/releases.go:58-100 | counter and row change together, or not at all; the new row is BUILDING and every other one stays |
| Deployments.Store.SealRelease | internal/store/releases.go:117-161 | only a BUILDING release is sealed, and BUILT only with an image; exactly its status and image change, to those given |
| Deployments.Store.SetActiveRelease | internal/store/deployments.go:64-108 | closes and opens in one step or changes nothing; on success the release is BUILT and active, and the history grew by it unless it already was |
| Deployments.Store.ClearActiveRelease | internal/store/deployments.go:115-123 | closes the open row and keeps the history |
| Deployments.Store.PreviousActiveRelease | internal/store/deployments.go:137-151 | the activation before the active one, or that there is none |
| Deployments.Deploy | internal/api/deploy.go:59-162 | the history changes iff the release was accepted, built, sealed and let through, whatever the load does then; a client that cannot be told of the release ends it as FAILED; after the seal it stays BUILT with the image that was built; the answer is a success iff the rollout had no error or some application was skipped, and the message got through |
| Deployments.Rollback | internal/api/rollback.go:37-104 | from the active release to the activation before it, whose row is always found; the history changes iff both exist, the replicas come up and the gate passes; afterwards the release that was active is the next target |
| Answers.DeployEnds | internal/api/deploy.go:138-162 | on the switching machine, whatever the others do: a success without a route iff the load landed and the application's own containers gave it none, and then its old route is gone; a failure with the new release routed iff the load is live but was not read back, or nothing was skipped and only the drain failed |
| Answers.OutageIsASuccess | internal/api/deploy.go:138-162 | the failing input: a run from a fresh start that ends with the new and the old release running, nothing live, and a deploy answered as a success |
| Prune.KeepSet | internal/api/appprune.go:150-172 | exactly the active and the previous active release, or an error when the active one is not known |
| Prune.Host.StaleReleases | internal/api/appprune.go:184-207 | exactly the unkept releases on the host, each once and sorted |
| Prune.Host.RemoveReleases | internal/api/appprune.go:223-238 | touches nothing outside the given releases; success leaves none of them and counts what went; a failure is that of the first release that does not stop or go, those before it are gone and those behind it untouched |
| Prune.Host.PruneApp | internal/api/appprune.go:56-125 | never touches a protected container; full success leaves none outside the protected releases; fails exactly when a query, the listing or a release does; a dry run or an unknown active release touches nothing |
| Prune.EnsureReplicas | internal/deploy/rollout.go:294-364 | on the host: succeeds iff every replica starts, every missing one can be created and every surplus one stopped, and then exactly the release's containers within the scale run, one at least for each index; recreated iff one was created, also on a failure; other releases stay as they were |
| Prune.RollbackAfterPrune | internal/deploy/rollout.go:203-215 | after a prune, even one that failed midway, a rollback to the previous release succeeds in the same cases, reports the same recreated flag and leaves its replicas running; the active release keeps its containers |
| Supervisor.Backoff | internal/health/supervisor.go:421-430 | the doubling loop with int64 wrap-around computes the specified wait |
| Supervisor.BackoffIsCappedIff | internal/health/supervisor.go:416-430 | it is min(base * 2^(n-1), max) for all n iff some doubling of the base reaches max inside int64; otherwise some wait is negative |
| Supervisor.SmallLimitsReached | internal/health/supervisor.go:416-430 | every accepted cap below 2^62 ns is reached in time |
| Supervisor.LargestLimitWraps | internal/health/supervisor.go:193-213 | the largest cap New accepts is not: the second wait is -2 ns |
| Supervisor.Supervisor.Visit | internal/health/supervisor.go:275-346 | an attempt to heal is made iff the measurement fell short, it was at least the FailuresBeforeHeal-th failure in a row, no wait is running, and the release is still the active one and readable; then the number of attempts is one more and the failures start over; state, audit records and alarm calls are stated field by field, whether or not the calls work |
| Supervisor.Supervisor.Heal | internal/health/supervisor.go:349-414 | an attempt only for the release still active; state and calls follow the trace, and a call that fails changes nothing else |
| Supervisor.Supervisor.Cycle | internal/health/supervisor.go:240-266 | every active application is visited once, with the same duties, and afterwards only active ones keep state |
| Supervisor.HealsOnlyAfterFailures | internal/health/supervisor.go:275-304 | an attempt comes right after FailuresBeforeHeal failed measurements in a row |
| Supervisor.AttemptsAreApart | internal/health/supervisor.go:349-430 | two attempts with no healthy measurement or reset between them are at least min(base * 2^(n-1), max) apart |
| Supervisor.AlarmAtAttempt | internal/health/supervisor.go:375-408 | the alarm is raised at exactly the failed attempts numbered HealsBeforeAlarm or more |
| Supervisor.FlaggedIff | internal/health/supervisor.go:289-300 | an application is flagged unhealthy iff a run of failed measurements crossed the threshold and nothing healthy or new came since |
| Supervisor.ToldAtEnds | internal/health/supervisor.go:289-346 | unhealthy is recorded once at the crossing, healed at the first healthy measurement after it, and every healthy one clears the alarm |
| Audit.EncodeInjective | internal/audit/audit.go:185-194 | length prefixes make the encoding of fields of known kinds injective |
| Audit.PreimageInjective | internal/audit/audit.go:146-170 | equal preimages mean equal records in every hashed field |
| Audit.SealExtends | internal/audit/audit.go:174-179 | sealing at the head of a valid chain gives a valid chain |
| Audit.ValidPrefix | internal/audit/audit.go:222-248 | every prefix of an accepted chain is accepted |
| Audit.SameHeadSameChain | internal/audit/audit.go:146-248 | two non-empty accepted chains with the same head are the same records, or two of their records collide |
| Audit.Verifier.Next | internal/audit/audit.go:222-248 | accepts a record iff it follows the ones accepted so far; each of the five faults is reported iff it is the first that applies; a refusal changes nothing |
| Audit.VerifyAll | internal/audit/audit.go:262-270 | no error iff the whole slice is a valid chain; the count is the longest valid prefix, and the error is the first fault of the record behind it |
| Journal.AppendReadsBackIff | internal/exec/journal.go:132-204 | what Append writes is read back as one more record iff the file ends on a line boundary and the line fits and decodes |
| Journal.OpensIff | internal/exec/journal.go:132-163 | a file opens, with these records, iff every line is short enough, the lines that are not blank decode to these records in order, and they are a valid chain |
| Journal.StopsAt | internal/exec/journal.go:132-163 | the scan of a file that does not open ends at the first line it does not open with, having verified exactly the records before |
| Journal.UnterminatedFileBreaks | internal/exec/journal.go:132-204 | a file that opens, whose last line has no line feed, is broken by the next append |
| Journal.NextAppendIff | internal/exec/journal.go:169-204 | after an append that was kept, torn at any byte or not synced, the next one leaves a file that opens iff the first was kept or not one byte of its line was written |
| Journal.ReopensAfterTwo | internal/exec/journal.go:132-204 | the same on the journal itself: two calls, and opening it again |
| Journal.RunOfAppends | internal/exec/journal.go:132-204 | from a file that opens and ends on a line, any run of appends whose lines read back leaves a valid chain of that many more records |
| Journal.AppendAllCalls | internal/exec/journal.go:132-204 | the same on the journal itself: after any number of successful calls the head and number in memory are the file's; only a call without an action or a full file is refused |
| Journal.Journal.LoadAndVerify | internal/exec/journal.go:132-163 | opens iff no line is at fault, and then head and count are the file's |
| Journal.Journal.Append | internal/exec/journal.go:169-204 | the executor's record, stamped and numbered behind the last one, is written at the file's end, all of it or as far as the write got; head and count stay in step with what reopening would find; on any failure the memory stays as it was |
| Journal.Journal.Read | internal/exec/journal.go:224-268 | the verified records after the cursor, in order, up to the limit, 100 if there is none; an error iff a fault stands before the page is full |
| AuditLog.SelectSuffix | internal/store/store.go:340-372 | a cursor at a row selects exactly the rows behind it |
| AuditLog.ListedRows | internal/store/store.go:340-372 | a page is the rows behind the cursor in order, at most as many as asked for, 100 if no number is given and never more than 1000 |
| AuditLog.Store.AppendAudit | internal/store/store.go:242-331 | one row behind the others, stamped, numbered and linked to the last one, or, on any error, none; a table that is a valid chain stays one; each error exactly in its case |
| AuditLog.Store.VerifyAuditChain | internal/store/store.go:412-433 | paging equals one pass: if every page can be read the count is the longest valid prefix of the table, no error iff that is all of it, and the fault is that of the record behind it; an unreadable page ends it after a valid prefix |
| AuditLog.DaemonChain | internal/api/server.go:305-334 | VALID only for a valid chain, INVALID with the first record that does not follow, UNREACHABLE only when a page could not be read; if all can, VALID iff the table is a valid chain |
| AuditLog.ExecutorChain | internal/api/server.go:337-369 | VALID only with all records verified from genesis; INVALID only with a record that arrived and does not follow; UNREACHABLE only for a broken journal or a call not answered; on a faithful wire never INVALID; if every call is answered, a broken journal is UNREACHABLE and counts only whole pages of 500 |
| Upload.PartIsPrefix | internal/bootstrap/upload.go:67-99 | with dead sessions still writing, each from an offset no larger than the file, the part file is always a prefix of the archive and only grows until removed |
| Upload.OrderlyUntilRemoved | internal/bootstrap/upload.go:67-99 | offsets handed out by prepare satisfy that as long as the file is not removed |
| Upload.StaleOfferLeavesHole | internal/bootstrap/upload.go:67-99 | after a sweep an old offset leaves a hole; the digest check removes the file and the next prepare starts from zero |
| Upload.LastWriteCompletes | internal/bootstrap/upload.go:76-99 | a writer that gets all its bytes through completes the archive, and the install starts |
| Upload.OnlyTheArchiveIsInstalled | internal/bootstrap/upload.go:67-112 | from any leftover file, holes and late writers included: for a day after its digest check an install finds the very file that was checked; what an install that ended with 0 unpacked within that day, or later from that file, is the archive; or a digest check met a collision |
| Upload.SweptAfterADay | internal/bootstrap/upload.go:67-112 | the day is exact: a run from a fresh start in which the sweep a day after the check lets tar read other bytes |
| Installer.UploadArchive | internal/bootstrap/upload.go:256-303 | at most six dropped connections; success iff the last prepare reported a valid directory with the full size; every write resumes where prepare found the end; none follows a write that reported success; a dropped call with fewer than six drops and a wait that runs out is followed by another prepare; every failure is the one the last answer explains |
| Installer.ReadAnswerIs | internal/bootstrap/upload.go:230-248 | what a prepare answer reads as: a call that did not run, an exit code, a directory with a size, or anything else |
| Installer.StartInstall | internal/bootstrap/upload.go:352-367 | asks again only on a dropped connection and after a wait that ran out, at most six times |
| Installer.RunInstaller | internal/bootstrap/upload.go:319-350 | at most two uploads, the second only after a digest mismatch; success only with exit code 0 and the whole log shown, of the install its last start call led to; the failure of a follow is the one that followInstall is proved to give |
| EndToEnd.InstallArchive | internal/bootstrap/upload.go:319-350 | the client against the server, every answer being what the server did: success means an install has ended with 0 since the client's last start call, and what installs unpacked within a day of their check was the archive, or a collision was met; every digest mismatch the client is told of was one, and the file is gone |
| EndToEnd.WritesAreOffered | internal/bootstrap/upload.go:256-303 | every write of the client opens the part file at an offset the server has offered |
| EndToEnd.ExampleLives | internal/bootstrap/upload.go:83-112 | there are such a server and client: a rest is uploaded, the install starts, unpacks and ends with 0 |
| Follow.FollowScript | internal/bootstrap/upload.go:115-140 | with time passing between any two looks: the log is sent from its offset on; an exit code comes iff one of its looks finds the marker or, twice, no marker and a free lock; it comes only with the whole log after the marker, and 253 only if no marker was ever written, which takes the second look |
| Follow.FollowInstall | internal/bootstrap/upload.go:369-399 | across any dropped connections, other ssh exits and a local output that fails, the bytes counted are the first bytes of the log, each once; a success has shown the whole log and the exit code was 0; a failure the script reports means it never was and carries its code; a clean connection to the end has shown the whole log either way; every connection counted as cut was dropped or closed before the script could end |
| Follow.WholeLog | internal/bootstrap/upload.go:101-112 | if nothing writes to the log after the marker, what such a follow has shown is all there will ever be |
| Follow.CountingWriter.Write | internal/bootstrap/upload.go:305-315 | counts exactly the bytes the inner writer took, all of them unless it took fewer |
| Follow.Retrier.Cut | internal/bootstrap/upload.go:210-226 | goes on iff fewer than six connections dropped and the wait was not cut short |
| Alarms.WorstMeans | internal/store/alarms.go:144-175 | the level is critical iff a critical report came since the condition was last fine |
| Alarms.NoticedIff | internal/alarm/alarm.go:98-144 | a report is noticed iff it breaks a fine condition, mends a broken one, or makes a warning critical; only what was opened as a warning escalates |
| Alarms.EdgesInOrder | internal/alarm/alarm.go:98-144 | notices are Opened, at most one Escalated, Closed, over and over, in step with whether the condition is broken |
| Alarms.SevereNeverEscalates | internal/alarm/alarm.go:98-125 | a condition only ever reported critical never escalates |
| Alarms.Store.RaiseAlarm | internal/store/alarms.go:49-73 | inserts a missing row, with the present time when the caller gives none, in whole seconds, and leaves an existing one, its start time included |
| Alarms.Store.ClearAlarm | internal/store/alarms.go:81-91 | removes the row and says whether there was one |
| Alarms.Store.EscalateAlarm | internal/store/alarms.go:162-175 | only a warning becomes critical |
| Alarms.Manager.Raise | internal/alarm/alarm.go:98-125 | keeps, for every alarm, the notices equal to the edges of what was reported, and the row to its level and start |
| Alarms.Manager.Clear | internal/alarm/alarm.go:132-144 | the same for a condition that is fine |
| Alarms.DiskOpenIff | cmd/kadrand/alarmwatch.go:72-143 | the disk alarm is open iff the latest reading outside 15% to 20% that reached the table was below 15% |
| Alarms.CheckDisk | cmd/kadrand/alarmwatch.go:72-107 | below 5% free a usable reading makes the row critical, from 5% to below 15% a warning unless it is critical already, from 20% on it goes, in between it stays; an unusable reading and a write that fails leave it as it was; other rows stay |
| Alarms.WatchDisk | cmd/kadrand/alarmwatch.go:46-69 | after any readings the alarm's row is there iff the latest decisive one that could be written was low |
| KeyBlob.PartsIff | internal/bootstrap/keys.go:176-190 | a blob reads as these strings iff it is their encoding |
| KeyBlob.CheckBlob | internal/bootstrap/keys.go:164-195 | the walk accepts exactly two or more length-prefixed strings of which the first is the key type; only in a blob of 4 GiB or more can a 32-bit sum wrap, and it panics iff the first one does |
| Keys.FingerprintIff | internal/bootstrap/keys.go:164-195 | a fingerprint is rendered from the decoded key iff that has the wire format of its type |
| Keys.CheckDeployApps | internal/connproto/role.go:105-124 | accepts exactly one to 32 distinct well-formed names |
| Keys.ScopeIff | internal/connproto/role.go:75-84 | a scope text means these names iff it is their comma-separated list and they are valid |
| Keys.DeployRoleIff | internal/bootstrap/keys.go:242-280 | of all lines, exactly those that force kadran-connect with a valid scope and restrict the key read as deploy keys, with that scope |
| Keys.AdminRoleIff | internal/bootstrap/keys.go:242-280 | of all lines, exactly those that force kadran-connect itself and restrict the key read as admin keys; a line that is neither that nor a deploy line has no role and counts as not forced |
| Keys.PlainLine | internal/bootstrap/keys.go:242-280 | a line without command and options is shown with its type, its comment and the fingerprint of its key |
| Keys.LineRoundTrip | internal/bootstrap/keys.go:207-280 | reading back a deploy line gives the role, the applications in order, type, fingerprint and the comment that can stand in a line |
| Keys.ParseAuthorizedKeys | internal/bootstrap/keys.go:230-240 | the entries are, in order, the readings of exactly the lines that are neither blank nor a comment, trimmed, recognised or not |
| Keys.AddedLineIff | internal/bootstrap/keys.go:69-80 | an added deploy line is listed last and the others as before iff only white space follows the file's last line feed; otherwise no entry is gained |
| Keys.AddedBehindComment | internal/bootstrap/keys.go:69-80 | the failing input: behind a comment without a line feed the key is listed nowhere |
| LogDemux.ChunksJoin | internal/dockerdrv/logs.go:97-111 | the chunks of a payload are the payload in order, none empty, none over 32 KiB |
| LogDemux.DecodesFrames | internal/dockerdrv/logs.go:81-113 | any list of frames comes out as its payloads in order, each with its stream |
| LogDemux.CleanIff | internal/dockerdrv/logs.go:81-113 | the stream ends cleanly iff it is a whole number of frames |
| LogDemux.CutFrame | internal/dockerdrv/logs.go:81-113 | a frame that breaks off ends the stream uncleanly, after the whole 32 KiB pieces of its payload that arrived |
| LogDemux.Demux | internal/dockerdrv/logs.go:81-113 | the loop with its reused buffer delivers exactly that, and reports no error iff the stream ends with EOF on a frame boundary; a sink that refuses a chunk ends it right there |

## Left out

- gRPC, HTTP, SSH processes, systemd, unix sockets, file permissions and SQLite itself: their
  answers are parameters, and a transaction happens at once or not at all.
- Several operations on one application at once, prunes, application deletion, domain moves and
  replica changes during an operation, and foreign writers on the proxy's admin socket inside
  the switching machine. `Reconciler.Proxy.Load` does allow another writer before the read-back.
- A POST that reaches the proxy after the client gave up on it: in the switching machine a lost
  answer is a POST that arrived and a load that failed.
- The order of equal elements under Go's unstable sort: sorting is modelled as insertion sort,
  and order independence is stated for one route per application.
- Addresses and dial strings as text: an address is a number or a text that does not parse, so
  IPv6 zones and IPv4-mapped forms are not distinguished.
- Read-only plumbing of configuration that no property depends on: TLS, logging and timeouts.
- The sorted order of missing hosts, and all message texts.
- Switching.NoDrainedUpstream: does not say that traffic in flight has ended when the window
  does; the window is a step, not a duration.
- Journal.RunOfAppends: states successful appends; what a failed one leaves behind is
  NextAppendIff.
- KeyBlob.CheckBlob: does not say which blobs of 4 GiB or more are accepted after a later length
  has wrapped.
- Keys.LineRoundTrip: white space is ASCII white space; Unicode spaces do not occur in the lines
  it is about.
- Upload.OnlyTheArchiveIsInstalled: does not say what tar makes of bytes that are not the
  archive; that an install runs at most once is not claimed. The start script is one step, and
  the sweep of logs, markers and the lock file a day old is left out, so a second install beside
  one that has run for a day is not described.
- Follow.FollowInstall: nobody starts another install of the same archive while this one is
  followed.
- Installer.UploadArchive: strconv.Atoi and the splitting of the answer into fields are given.
- Alarms.Manager.Raise: one caller at a time, as every alarm in the repository has one loop that
  raises and clears it; a crash between the row and its notice loses the notice. The disk ratio
  is compared as a fraction, without floating point.
- Supervisor.AttemptsAreApart: asks for a clock that does not go back within one attempt.
- Deployments.Deploy: build output that cannot be sent is a build that fails; an audit record
  that cannot be written, which turns any answer into an error, and a write that the database
  refuses for its own reasons are left out.
- Deployments.Rollback: the same, and a read that fails.
- CLI commands, desktop UI, domain diagnostics, licences, heartbeat worker, request validators,
  version negotiation: single-branch facts.
