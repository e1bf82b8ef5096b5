/** Edge-triggered alarms: internal/alarm/alarm.go over the rows of internal/store/alarms.go,
  * and the disk alarm with its hysteresis in cmd/kadrand/alarmwatch.go. */
module Alarms {
  import opened Wrappers

  type AlarmId = string

  datatype Severity = Warning | Critical | Unknown(text: string)

  datatype Alarm = Alarm(id: AlarmId, kind: string, target: string, severity: Severity, since: Option<int>, detail: string)

  const SECOND := 1_000_000_000

  // Callers give nanoseconds; a row's start is in whole seconds, as time.Unix() rounds down.
  function Whole(ns: int): int { ns / SECOND }

  // A caller that does not know since when gets the present moment.
  function Since(a: Alarm, now: int): int { Whole(if a.since.Some? then a.since.value else now) }

  datatype Transition = Opened | Escalated | Closed

  datatype Notice = Notice(id: AlarmId, state: Transition)

  // ---- The condition an alarm stands for ----

  // What a caller reports of one condition.
  datatype Report = Broken(severity: Severity, since: int) | Fine

  datatype Level = Quiet | Warned | Severe

  function LevelOf(s: Severity): Level { if s == Critical then Severe else Warned }

  // The worst reported since the condition was last fine.
  function Worst(rs: seq<Report>): Level {
    if rs == [] then Quiet
    else match rs[|rs| - 1]
      case Fine => Quiet
      case Broken(s, _) => if Worst(rs[..|rs| - 1]) == Severe then Severe else LevelOf(s)
  }

  lemma {:induction false} WorstMeans(rs: seq<Report>)
    ensures Worst(rs) == Quiet <==> rs == [] || rs[|rs| - 1] == Fine
    ensures Worst(rs) == Severe <==> exists i :: SevereAt(rs, i)
  {
    if rs != [] {
      var n := |rs| - 1;
      WorstMeans(rs[..n]);
      assert forall i: int :: i < n ==> (SevereAt(rs, i) <==> SevereAt(rs[..n], i) && rs[n].Broken?);
      assert SevereAt(rs, n) <==> rs[n].Broken? && rs[n].severity == Critical;
    }
  }

  // Report i was critical and nothing since said the condition is fine.
  predicate SevereAt(rs: seq<Report>, i: int) {
    0 <= i < |rs| && rs[i].Broken? && rs[i].severity == Critical && forall k :: i < k < |rs| ==> rs[k].Broken?
  }

  // When the condition broke: the first report since it was last fine.
  function BrokenSince(rs: seq<Report>): Option<int> {
    if rs == [] then None
    else match rs[|rs| - 1]
      case Fine => None
      case Broken(_, since) =>
        var before := BrokenSince(rs[..|rs| - 1]);
        if before.Some? then before else Some(since)
  }

  // The edge between two levels, if there is one.
  function Edge(before: Level, after: Level): seq<Transition> {
    if before == after then []
    else if before == Quiet then [Opened]
    else if after == Quiet then [Closed]
    else [Escalated]
  }

  function Edges(rs: seq<Report>): seq<Transition> {
    if rs == [] then []
    else Edges(rs[..|rs| - 1]) + Edge(Worst(rs[..|rs| - 1]), Worst(rs))
  }

  // ---- The shape of the notices ----

  /** A report is noticed iff it breaks a fine condition, mends a broken one, or makes a warning
    * critical; only what was opened as a warning can escalate. */
  lemma NoticedIff(rs: seq<Report>, r: Report)
    ensures var now, was, after := Edge(Worst(rs), Worst(rs + [r])), Worst(rs), Worst(rs + [r]);
      && Edges(rs + [r]) == Edges(rs) + now
      && (now == [Opened] <==> was == Quiet && r.Broken?)
      && (now == [Escalated] <==> was == Warned && r.Broken? && r.severity == Critical)
      && (now == [Closed] <==> was != Quiet && r == Fine)
      && |now| <= 1
  {
    assert (rs + [r])[..|rs|] == rs;
  }

  // Opened, at most one Escalated, Closed, over and over.
  predicate InOrder(ts: seq<Transition>) {
    && (ts != [] ==> ts[0] == Opened)
    && forall i :: 0 <= i < |ts| - 1 ==> MayFollow(ts[i], ts[i + 1])
  }

  predicate MayFollow(a: Transition, b: Transition) {
    match a
    case Opened => b != Opened
    case Escalated => b == Closed
    case Closed => b == Opened
  }

  /** The notices are Opened, then at most one Escalated, then Closed, over and over; the last
    * one says whether the condition is broken, and only an alarm opened as a warning escalates. */
  lemma {:induction false} EdgesInOrder(rs: seq<Report>)
    ensures InOrder(Edges(rs))
    ensures Worst(rs) == Quiet <==> Edges(rs) == [] || Edges(rs)[|Edges(rs)| - 1] == Closed
    ensures Edges(rs) != [] && Edges(rs)[|Edges(rs)| - 1] == Escalated ==> Worst(rs) == Severe
  {
    if rs != [] {
      var init, r := rs[..|rs| - 1], rs[|rs| - 1];
      assert rs == init + [r];
      EdgesInOrder(init);
      NoticedIff(init, r);
      hide Edges, Edge;
    }
  }

  // A condition reported critical from the start never escalates.
  lemma {:induction false} SevereNeverEscalates(rs: seq<Report>)
    requires forall i :: 0 <= i < |rs| ==> rs[i].Broken? ==> rs[i].severity == Critical
    ensures Escalated !in Edges(rs) && Worst(rs) != Warned
  {
    if rs != [] { SevereNeverEscalates(rs[..|rs| - 1]); }
  }

  // ---- The rows ----

  class Store {
    var rows: map<AlarmId, Alarm>

    constructor (rows: map<AlarmId, Alarm>)
      ensures this.rows == rows
    {
      this.rows := rows;
    }

    // INSERT ... ON CONFLICT DO NOTHING; works is whether the database does.
    method RaiseAlarm(a: Alarm, now: int, works: bool) returns (isNew: Option<bool>)
      modifies this
      ensures isNew.Some? <==> works && a.id != "" && a.kind != "" && !a.severity.Unknown?
      ensures isNew.Some? ==> (isNew.value <==> a.id !in old(rows))
      ensures rows == if isNew == Some(true) then old(rows)[a.id := a.(since := Some(Since(a, now)))] else old(rows)
    {
      if a.id == "" || a.kind == "" || a.severity.Unknown? || !works { return None; }
      if a.id in rows { return Some(false); }
      rows := rows[a.id := a.(since := Some(Since(a, now)))];
      return Some(true);
    }

    method ClearAlarm(id: AlarmId, works: bool) returns (active: Option<bool>)
      modifies this
      ensures active.Some? <==> works
      ensures works ==> (active.value <==> id in old(rows)) && rows == old(rows) - {id}
      ensures !works ==> rows == old(rows)
    {
      if !works { return None; }
      active := Some(id in rows);
      rows := rows - {id};
    }

    method EscalateAlarm(id: AlarmId, works: bool) returns (climbed: Option<bool>)
      modifies this
      ensures climbed.Some? <==> works
      ensures works ==> (climbed.value <==> id in old(rows) && old(rows[id]).severity == Warning)
      ensures rows == if climbed == Some(true) then old(rows)[id := old(rows[id]).(severity := Critical)] else old(rows)
    {
      if !works { return None; }
      if id !in rows || rows[id].severity != Warning { return Some(false); }
      rows := rows[id := rows[id].(severity := Critical)];
      return Some(true);
    }
  }

  // ---- The manager ----

  function ReportsOf(reports: map<AlarmId, seq<Report>>, id: AlarmId): seq<Report> {
    if id in reports then reports[id] else []
  }

  function NoticesOf(sink: seq<Notice>, id: AlarmId): seq<Transition> {
    if sink == [] then []
    else
      NoticesOf(sink[..|sink| - 1], id) + if sink[|sink| - 1].id == id then [sink[|sink| - 1].state] else []
  }

  function RowOf(rows: map<AlarmId, Alarm>, id: AlarmId): Option<Alarm> {
    if id in rows then Some(rows[id]) else None
  }

  // The row says what was reported, and the notices are its edges.
  predicate InStep(row: Option<Alarm>, rs: seq<Report>, ts: seq<Transition>) {
    && ts == Edges(rs)
    && (row.Some? <==> Worst(rs) != Quiet)
    && (row.Some? ==> LevelOf(row.value.severity) == Worst(rs) && row.value.since.Some? && BrokenSince(rs) == row.value.since && !row.value.severity.Unknown?)
  }

  class Manager {
    const store: Store
    var sink: seq<Notice>
    // Reports that reached the database, over the life of the table.
    ghost var reports: map<AlarmId, seq<Report>>

    ghost predicate Valid()
      reads this, store
    {
      forall id :: InStep(RowOf(store.rows, id), ReportsOf(reports, id), NoticesOf(sink, id))
    }

    constructor (s: Store)
      requires s.rows == map[]
      ensures Valid() && store == s && sink == [] && reports == map[]
    {
      store, sink, reports := s, [], map[];
    }

    // A restart: the rows stay, and the notices already given stay given.
    constructor Restart(before: Manager)
      requires before.Valid()
      ensures Valid() && store == before.store && sink == before.sink && reports == before.reports
    {
      store, sink, reports := before.store, before.sink, before.reports;
    }

    /** Repeated reports are silent: a report notifies exactly when it changes the level. */
    method Raise(a: Alarm, now: int, works: bool, climbs: bool)
      requires Valid()
      modifies this, store
      ensures Valid()
      ensures reports == old(reports) || reports == old(reports)[a.id := ReportsOf(old(reports), a.id) + [Broken(a.severity, Since(a, now))]]
      ensures works && climbs && Wellformed(a) ==> reports != old(reports)
      ensures a.id in store.rows <==> a.id in old(store.rows) || (works && Wellformed(a))
      ensures forall id :: id != a.id ==> RowOf(store.rows, id) == RowOf(old(store.rows), id)
      ensures works && Wellformed(a) ==>
        && a.id in store.rows
        && store.rows[a.id] ==
          (if a.id !in old(store.rows) then a.(since := Some(Whole(if a.since.Some? then a.since.value else now)))
           else if a.severity == Critical && old(store.rows)[a.id].severity == Warning && climbs then old(store.rows)[a.id].(severity := Critical)
           else old(store.rows)[a.id])
        && sink == old(sink) +
          (if a.id !in old(store.rows) then [Notice(a.id, Opened)]
           else if a.severity == Critical && old(store.rows)[a.id].severity == Warning && climbs then [Notice(a.id, Escalated)]
           else [])
      ensures !(works && Wellformed(a)) ==> RowOf(store.rows, a.id) == RowOf(old(store.rows), a.id) && sink == old(sink)
    {
      hide InStep;
      ghost var before := store.rows;
      ghost var r := Broken(a.severity, Since(a, now));
      assert InStep(RowOf(before, a.id), ReportsOf(reports, a.id), NoticesOf(sink, a.id));
      if !a.severity.Unknown? { ReportStep(RowOf(before, a.id), ReportsOf(reports, a.id), NoticesOf(sink, a.id), a, now); }
      var isNew := store.RaiseAlarm(a, now, works);
      if isNew.None? { return; }
      if isNew.value {
        Record(before, a.id, r, [Opened]);
        return;
      }
      if a.severity != Critical {
        Record(before, a.id, r, []);
        return;
      }
      var climbed := store.EscalateAlarm(a.id, climbs);
      if climbed.None? { return; }
      Record(before, a.id, r, if climbed.value then [Escalated] else []);
    }

    method Clear(id: AlarmId, works: bool)
      requires Valid()
      modifies this, store
      ensures Valid()
      ensures reports == if works then old(reports)[id := ReportsOf(old(reports), id) + [Fine]] else old(reports)
      ensures id in store.rows <==> !works && id in old(store.rows)
      ensures forall i :: i != id || !works ==> RowOf(store.rows, i) == RowOf(old(store.rows), i)
      ensures sink == old(sink) + if works && id in old(store.rows) then [Notice(id, Closed)] else []
    {
      hide InStep;
      ghost var before := store.rows;
      assert InStep(RowOf(before, id), ReportsOf(reports, id), NoticesOf(sink, id));
      FineStep(RowOf(before, id), ReportsOf(reports, id), NoticesOf(sink, id));
      var active := store.ClearAlarm(id, works);
      if active.None? { return; }
      Record(before, id, Fine, if active.value then [Closed] else []);
    }

    // Notify, and note the report that reached the database.
    method Record(ghost before: map<AlarmId, Alarm>, id: AlarmId, ghost r: Report, ts: seq<Transition>)
      requires |ts| <= 1
      requires forall i :: InStep(RowOf(before, i), ReportsOf(reports, i), NoticesOf(sink, i))
      requires forall i :: i != id ==> RowOf(store.rows, i) == RowOf(before, i)
      requires InStep(RowOf(store.rows, id), ReportsOf(reports, id) + [r], NoticesOf(sink, id) + ts)
      modifies this
      ensures Valid() && reports == old(reports)[id := ReportsOf(old(reports), id) + [r]]
      ensures sink == old(sink) + if |ts| == 1 then [Notice(id, ts[0])] else []
    {
      hide InStep;
      ghost var sink0 := sink;
      if |ts| == 1 { sink := sink + [Notice(id, ts[0])]; }
      reports := reports[id := ReportsOf(reports, id) + [r]];
      forall i ensures InStep(RowOf(store.rows, i), ReportsOf(reports, i), NoticesOf(sink, i)) {
        assert InStep(RowOf(before, i), ReportsOf(old(reports), i), NoticesOf(sink0, i));
        NoticesMore(sink0, id, ts, i);
        assert ts == [] ==> sink0 + [] == sink;
      }
    }
  }

  lemma NoticesMore(sink: seq<Notice>, id: AlarmId, ts: seq<Transition>, i: AlarmId)
    requires |ts| <= 1
    ensures var sink' := if |ts| == 1 then sink + [Notice(id, ts[0])] else sink;
      NoticesOf(sink', i) == NoticesOf(sink, i) + if i == id then ts else []
    ensures NoticesOf(sink, i) + [] == NoticesOf(sink, i)
  {
    if |ts| == 1 {
      assert (sink + [Notice(id, ts[0])])[..|sink|] == sink;
      assert ts == [ts[0]];
    } else {
      assert ts == [];
    }
  }

  // What RaiseAlarm demands.
  predicate Wellformed(a: Alarm) { a.id != "" && a.kind != "" && !a.severity.Unknown? }

  // What one more report of a broken condition does.
  lemma ReportStep(row: Option<Alarm>, rs: seq<Report>, ts: seq<Transition>, a: Alarm, now: int)
    requires !a.severity.Unknown? && InStep(row, rs, ts)
    ensures var rs' := rs + [Broken(a.severity, Since(a, now))];
      match row
      case None => InStep(Some(a.(since := Some(Since(a, now)))), rs', ts + [Opened])
      case Some(old_) =>
        if a.severity == Critical && old_.severity == Warning then InStep(Some(old_.(severity := Critical)), rs', ts + [Escalated])
        else InStep(row, rs', ts + [])
  {
    assert (rs + [Broken(a.severity, Since(a, now))])[..|rs|] == rs;
  }

  lemma FineStep(row: Option<Alarm>, rs: seq<Report>, ts: seq<Transition>)
    requires InStep(row, rs, ts)
    ensures InStep(None, rs + [Fine], ts + if row.Some? then [Closed] else [])
  {
    assert (rs + [Fine])[..|rs|] == rs;
  }

  // ---- The disk alarm ----

  const DISK_ID := "disk_low:host"

  // A reading of the disk, when it was taken, and whether the alarm's writes work then; no
  // reading when the executor cannot be asked.
  datatype Reading = Reading(avail: nat, total: nat, at: int, works: bool, climbs: bool) | Unread

  predicate Below(r: Reading, percent: nat)
    requires r.Reading?
  {
    100 * r.avail < percent * r.total
  }

  predicate Usable(r: Reading) { r.Reading? && r.total > 0 }

  datatype Decision = DiskRaise(severity: Severity) | DiskClear | DiskHold

  function DiskDecision(r: Reading): Decision
    requires Usable(r)
  {
    if Below(r, 5) then DiskRaise(Critical)
    else if Below(r, 15) then DiskRaise(Warning)
    else if !Below(r, 20) then DiskClear
    else DiskHold
  }

  // What one check reports of the disk.
  function DiskReport(r: Reading): seq<Report> {
    if !Usable(r) then []
    else match DiskDecision(r)
      case DiskRaise(s) => [Broken(s, Whole(r.at))]
      case DiskClear => [Fine]
      case DiskHold => []
  }

  // Outside the band where nothing is decided, and written to the table.
  predicate Decisive(r: Reading) { Usable(r) && r.works && (Below(r, 15) || !Below(r, 20)) }

  // Whether the disk alarm is open after the readings.
  function OpenAfter(open: bool, rs: seq<Reading>): bool {
    if rs == [] then open
    else if Decisive(rs[|rs| - 1]) then Below(rs[|rs| - 1], 15)
    else OpenAfter(open, rs[..|rs| - 1])
  }

  // Reading i is the latest decisive one, and it was low.
  ghost predicate LatestIsLow(rs: seq<Reading>, i: int) {
    0 <= i < |rs| && Decisive(rs[i]) && Below(rs[i], 15) && forall k :: i < k < |rs| ==> !Decisive(rs[k])
  }

  /** However the readings move, the disk alarm is open iff the latest reading outside the band
    * from 15% to 20% that reached the table was below 15%; before any it stays as it was. */
  lemma {:induction false} DiskOpenIff(open: bool, rs: seq<Reading>)
    ensures OpenAfter(open, rs) <==>
      (exists i :: LatestIsLow(rs, i)) || (open && forall k :: 0 <= k < |rs| ==> !Decisive(rs[k]))
  {
    if rs != [] {
      var n := |rs| - 1;
      DiskOpenIff(open, rs[..n]);
      LatestStep(rs[..n], rs[n]);
      assert rs == rs[..n] + [rs[n]];
      assert forall k :: 0 <= k < n ==> rs[..n][k] == rs[k];
    }
  }

  lemma LatestStep(init: seq<Reading>, r: Reading)
    ensures (exists i :: LatestIsLow(init + [r], i)) <==> if Decisive(r) then Below(r, 15) else exists i :: LatestIsLow(init, i)
  {
    var rs := init + [r];
    assert rs[|init|] == r;
    assert forall i: int :: i < |init| ==> (LatestIsLow(rs, i) <==> LatestIsLow(init, i) && !Decisive(r)) by {
      forall i: int | i < |init| ensures LatestIsLow(rs, i) <==> LatestIsLow(init, i) && !Decisive(r) {
        LatestMore(init, r, i);
      }
    }
    assert LatestIsLow(rs, |init|) <==> Decisive(r) && Below(r, 15);
  }

  lemma LatestMore(init: seq<Reading>, r: Reading, i: int)
    requires i < |init|
    ensures LatestIsLow(init + [r], i) <==> LatestIsLow(init, i) && !Decisive(r)
  {
    var rs := init + [r];
    assert rs[|init|] == r && forall k :: 0 <= k < |init| ==> rs[k] == init[k];
    if LatestIsLow(rs, i) {
      forall k | i < k < |init| ensures !Decisive(init[k]) { assert !Decisive(rs[k]); }
    }
  }

  /** What one check makes of the alarm's row: below 5% free it is critical, from 5% to below 15% a
    * warning unless it was there already, from 20% on it is gone, and in between it stays, as it
    * does when the reading cannot be used or written; its start stays as well. */
  predicate DiskRow(before: Option<Alarm>, after: Option<Alarm>, r: Reading) {
    if r.Unread? || r.total == 0 || !r.works then after == before
    else if 100 * r.avail < 5 * r.total then
      && after.Some?
      && (before.None? ==> after.value == Alarm(DISK_ID, "disk_low", "host", Critical, Some(Whole(r.at)), ""))
      && (before.Some? ==>
            after.value == if before.value.severity == Warning && r.climbs then before.value.(severity := Critical) else before.value)
    else if 100 * r.avail < 15 * r.total then
      after == if before.Some? then before else Some(Alarm(DISK_ID, "disk_low", "host", Warning, Some(Whole(r.at)), ""))
    else after == if 100 * r.avail >= 20 * r.total then None else before
  }

  method CheckDisk(am: Manager, r: Reading)
    requires am.Valid()
    modifies am, am.store
    ensures am.Valid()
    ensures DISK_ID in am.store.rows <==> if Decisive(r) then Below(r, 15) else DISK_ID in old(am.store.rows)
    ensures DiskRow(RowOf(old(am.store.rows), DISK_ID), RowOf(am.store.rows, DISK_ID), r)
    ensures forall id :: id != DISK_ID ==> RowOf(am.store.rows, id) == RowOf(old(am.store.rows), id)
    ensures r.Reading? && r.works && r.climbs ==>
      ReportsOf(am.reports, DISK_ID) == ReportsOf(old(am.reports), DISK_ID) + DiskReport(r)
  {
    assert ReportsOf(am.reports, DISK_ID) + [] == ReportsOf(am.reports, DISK_ID);
    if r.Unread? { return; }
    if r.total == 0 { return; }
    match DiskDecision(r)
    case DiskRaise(s) =>
      ghost var before := am.reports;
      am.Raise(Alarm(DISK_ID, "disk_low", "host", s, Some(r.at), ""), r.at, r.works, r.climbs);
      assert r.works && r.climbs ==> am.reports != before;
    case DiskClear => am.Clear(DISK_ID, r.works);
    case DiskHold =>
  }

  /** The watch loop, from any state of the table: afterwards the disk alarm's row is there iff
    * the latest decisive reading was low. */
  method WatchDisk(am: Manager, rs: seq<Reading>)
    requires am.Valid()
    modifies am, am.store
    ensures am.Valid()
    ensures DISK_ID in am.store.rows <==>
      (exists i :: LatestIsLow(rs, i)) || (DISK_ID in old(am.store.rows) && forall k :: 0 <= k < |rs| ==> !Decisive(rs[k]))
  {
    hide InStep, DiskReport, Decisive, LatestIsLow;
    ghost var open := DISK_ID in am.store.rows;
    for i := 0 to |rs|
      invariant am.Valid() && (DISK_ID in am.store.rows <==> OpenAfter(open, rs[..i]))
    {
      assert rs[..i + 1][..i] == rs[..i];
      CheckDisk(am, rs[i]);
    }
    assert rs[..|rs|] == rs;
    DiskOpenIff(open, rs);
  }
}
