/** The release and activation records of internal/store/releases.go and
  * internal/store/deployments.go, under the constraints and triggers of migrations 0002 to 0005. */
module Deployments {
  import opened Wrappers

  datatype Status = Building | Built | Failed

  datatype Release = Release(seq_: nat, status: Status, image: string)

  // A row's place in the table is its seq: AUTOINCREMENT, and nothing is deleted here.
  datatype Row = Row(app: AppId, release: ReleaseId, activated: int, deactivated: Option<int>)

  datatype StoreError = AppNotFound | Counter | NoImage | NotBuilding | NotBuilt | BadClock | NoPrevious

  // Applications are the keys of the counters.
  datatype Db = Db(counters: map<AppId, nat>, releases: map<(AppId, ReleaseId), Release>, rows: seq<Row>)

  // ---- Release identifiers ----

  function Digits(n: nat): (s: string)
    ensures s != [] && (|s| == 1 <==> n < 10)
  {
    if n < 10 then [('0' as int + n) as char] else Digits(n / 10) + [('0' as int + n % 10) as char]
  }

  function IdOf(n: nat): ReleaseId { "r" + Digits(n) }

  lemma {:induction false} DigitsInjective(a: nat, b: nat)
    requires Digits(a) == Digits(b)
    ensures a == b
    decreases a
  {
    var s := Digits(a);
    assert s[|s| - 1] as int - '0' as int == a % 10 == b % 10;
    if a >= 10 && b >= 10 {
      assert s[..|s| - 1] == Digits(a / 10) == Digits(b / 10);
      DigitsInjective(a / 10, b / 10);
    }
  }

  lemma IdInjective(a: nat, b: nat)
    requires IdOf(a) == IdOf(b)
    ensures a == b
  {
    assert IdOf(a)[1..] == Digits(a) && IdOf(b)[1..] == Digits(b);
    DigitsInjective(a, b);
  }

  // ---- The history of one application ----

  /** Which releases were activated, in order, and whether the last one still is. */
  datatype History = History(acts: seq<ReleaseId>, open: bool) {
    function Active(): Option<ReleaseId> {
      if open && acts != [] then Some(acts[|acts| - 1]) else None
    }

    // The release of the last closed activation.
    function Previous(): Option<ReleaseId> {
      var n := if open then |acts| - 1 else |acts|;
      if n > 0 then Some(acts[n - 1]) else None
    }

    function Activate(r: ReleaseId): History {
      if Active() == Some(r) then this else History(acts + [r], true)
    }

    function Clear(): History { History(acts, false) }
  }

  function HistoryOf(rows: seq<Row>, a: AppId): (h: History)
    ensures h.open ==> h.acts != []
  {
    if rows == [] then History([], false)
    else
      var h, last := HistoryOf(rows[..|rows| - 1], a), rows[|rows| - 1];
      if last.app == a then History(h.acts + [last.release], last.deactivated.None?) else h
  }

  // SELECT ... WHERE app_id = a AND deactivated_at IS NULL
  function OpenRow(rows: seq<Row>, a: AppId): Option<Row> {
    if rows == [] then None
    else
      var last := rows[|rows| - 1];
      if last.app == a && last.deactivated.None? then Some(last) else OpenRow(rows[..|rows| - 1], a)
  }

  // SELECT ... AND deactivated_at IS NOT NULL ORDER BY seq DESC LIMIT 1
  function LastClosed(rows: seq<Row>, a: AppId): Option<Row> {
    if rows == [] then None
    else
      var last := rows[|rows| - 1];
      if last.app == a && last.deactivated.Some? then Some(last) else LastClosed(rows[..|rows| - 1], a)
  }

  function Close(r: Row, a: AppId, now: int): Row {
    if r.app == a && r.deactivated.None? then r.(deactivated := Some(if now > r.activated then now else r.activated)) else r
  }

  // UPDATE ... SET deactivated_at = MAX(activated_at, now) WHERE app_id = a AND deactivated_at IS NULL
  function CloseOpen(rows: seq<Row>, a: AppId, now: int): (out: seq<Row>)
    ensures |out| == |rows|
  {
    if rows == [] then [] else CloseOpen(rows[..|rows| - 1], a, now) + [Close(rows[|rows| - 1], a, now)]
  }

  // An open row is the application's last one, so there is at most one.
  ghost predicate OpenIsLast(rows: seq<Row>) {
    forall i, j :: 0 <= i < j < |rows| && rows[i].app == rows[j].app ==> rows[i].deactivated.Some?
  }

  lemma {:induction false} NoOpenRow(rows: seq<Row>, a: AppId)
    ensures OpenRow(rows, a).None? <==> forall r :: r in rows && r.app == a ==> r.deactivated.Some?
  {
    if rows != [] {
      var init, last := rows[..|rows| - 1], rows[|rows| - 1];
      NoOpenRow(init, a);
      assert rows == init + [last];
    }
  }

  lemma InitOpenIsLast(rows: seq<Row>)
    requires rows != [] && OpenIsLast(rows)
    ensures OpenIsLast(rows[..|rows| - 1])
    ensures forall r :: r in rows[..|rows| - 1] && r.app == rows[|rows| - 1].app ==> r.deactivated.Some?
  {
  }

  /** The two queries read the history: the open row is the last activation, and the last
    * closed row is the activation before it. */
  lemma {:induction false} QueriesReadHistory(rows: seq<Row>, a: AppId)
    requires OpenIsLast(rows)
    ensures var h := HistoryOf(rows, a);
      && h.Active() == (if OpenRow(rows, a).Some? then Some(OpenRow(rows, a).value.release) else None)
      && h.Previous() == (if LastClosed(rows, a).Some? then Some(LastClosed(rows, a).value.release) else None)
  {
    if rows != [] {
      var init := rows[..|rows| - 1];
      InitOpenIsLast(rows);
      QueriesReadHistory(init, a);
      NoOpenRow(init, a);
    }
  }

  lemma {:induction false} CloseRows(rows: seq<Row>, a: AppId, now: int)
    ensures forall i :: 0 <= i < |rows| ==> CloseOpen(rows, a, now)[i] == Close(rows[i], a, now)
  {
    if rows != [] { CloseRows(rows[..|rows| - 1], a, now); }
  }

  // An open row of the application is closed, never before it was opened; others stay.
  predicate ClosedAt(before: Row, after: Row, a: AppId, now: int) {
    if before.app == a && before.deactivated.None? then
      after == before.(deactivated := Some(if now > before.activated then now else before.activated))
    else after == before
  }

  lemma CloseRowsAt(rows: seq<Row>, a: AppId, now: int)
    ensures forall i :: 0 <= i < |rows| ==> ClosedAt(rows[i], CloseOpen(rows, a, now)[i], a, now)
  {
    CloseRows(rows, a, now);
  }

  lemma {:induction false} ClosedHistory(rows: seq<Row>, a: AppId, now: int, b: AppId)
    ensures HistoryOf(CloseOpen(rows, a, now), b) == if a == b then HistoryOf(rows, b).Clear() else HistoryOf(rows, b)
  {
    if rows != [] {
      var n := |rows| - 1;
      ClosedHistory(rows[..n], a, now, b);
      assert CloseOpen(rows, a, now)[..n] == CloseOpen(rows[..n], a, now);
    }
  }

  lemma AppendedHistory(rows: seq<Row>, r: Row, b: AppId)
    ensures HistoryOf(rows + [r], b) ==
      if r.app == b then History(HistoryOf(rows, b).acts + [r.release], r.deactivated.None?) else HistoryOf(rows, b)
  {
    assert (rows + [r])[..|rows|] == rows;
  }

  // ---- What the records keep, and how they change ----

  ghost predicate RowsOk(db: Db) {
    && OpenIsLast(db.rows)
    && (forall r :: r in db.rows ==> r.deactivated.Some? ==> r.deactivated.value >= r.activated)
    && (forall r :: r in db.rows ==> BuiltIn(db.releases, r.app, r.release))
  }

  predicate BuiltIn(releases: map<(AppId, ReleaseId), Release>, a: AppId, r: ReleaseId) {
    (a, r) in releases && releases[(a, r)].status == Built && releases[(a, r)].image != ""
  }

  ghost predicate ReleasesOk(db: Db) {
    forall k :: k in db.releases ==>
      && k.0 in db.counters && db.releases[k].seq_ <= db.counters[k.0] && k.1 == IdOf(db.releases[k].seq_)
      && (db.releases[k].status == Built ==> db.releases[k].image != "")
  }

  ghost predicate DbOk(db: Db) { RowsOk(db) && ReleasesOk(db) }

  // A row stays as it is, but for being closed once.
  predicate RowKept(before: Row, after: Row) {
    after == before || (before.deactivated.None? && after.deactivated.Some? && after == before.(deactivated := after.deactivated))
  }

  ghost predicate RowsKept(before: seq<Row>, after: seq<Row>) {
    |before| <= |after| && forall i :: 0 <= i < |before| ==> RowKept(before[i], after[i])
  }

  // A sealed release never changes, and no release disappears.
  ghost predicate SealsKept(before: map<(AppId, ReleaseId), Release>, after: map<(AppId, ReleaseId), Release>) {
    forall k :: k in before ==> k in after && (before[k].status != Building ==> after[k] == before[k])
  }

  ghost predicate Kept(before: Db, after: Db) {
    RowsKept(before.rows, after.rows) && SealsKept(before.releases, after.releases)
  }

  // ---- The operations ----

  const MAX_SEQ := 0xFFFF_FFFF

  function Start(db: Db, a: AppId): Result<Db, StoreError> {
    if a !in db.counters then Err(AppNotFound)
    else if db.counters[a] + 1 > MAX_SEQ then Err(Counter)
    else
      var n := db.counters[a] + 1;
      Ok(db.(counters := db.counters[a := n], releases := db.releases[(a, IdOf(n)) := Release(n, Building, "")]))
  }

  function Seal(db: Db, a: AppId, r: ReleaseId, status: Status, image: string, now: int): Result<Db, StoreError> {
    if status == Built && image == "" then Err(NoImage)
    else if (a, r) !in db.releases || db.releases[(a, r)].status != Building then Err(NotBuilding)
    else if now <= 0 then Err(BadClock)
    else Ok(db.(releases := db.releases[(a, r) := db.releases[(a, r)].(status := status, image := image)]))
  }

  function Activate(db: Db, a: AppId, r: ReleaseId, now: int): Result<Db, StoreError> {
    if OpenRow(db.rows, a).Some? && OpenRow(db.rows, a).value.release == r then Ok(db)
    else if (a, r) !in db.releases || db.releases[(a, r)].status != Built then Err(NotBuilt)
    else if now <= 0 then Err(BadClock)
    else Ok(db.(rows := CloseOpen(db.rows, a, now) + [Row(a, r, now, None)]))
  }

  function Clear(db: Db, a: AppId, now: int): Db { db.(rows := CloseOpen(db.rows, a, now)) }

  lemma StartKeeps(db: Db, a: AppId)
    requires DbOk(db) && Start(db, a).Ok?
    ensures DbOk(Start(db, a).value) && Kept(db, Start(db, a).value)
    ensures (a, IdOf(db.counters[a] + 1)) !in db.releases
  {
    var n := db.counters[a] + 1;
    if (a, IdOf(n)) in db.releases {
      IdInjective(n, db.releases[(a, IdOf(n))].seq_);
    }
  }

  lemma SealKeeps(db: Db, a: AppId, r: ReleaseId, status: Status, image: string, now: int)
    requires DbOk(db) && Seal(db, a, r, status, image, now).Ok? && status != Building
    ensures DbOk(Seal(db, a, r, status, image, now).value) && Kept(db, Seal(db, a, r, status, image, now).value)
  {
  }

  lemma ClosedKeeps(rows: seq<Row>, a: AppId, now: int)
    requires OpenIsLast(rows)
    ensures var out := CloseOpen(rows, a, now);
      && OpenIsLast(out) && RowsKept(rows, out)
      && (forall r :: r in out && r.app == a ==> r.deactivated.Some?)
      && (forall r :: r in out ==> exists q :: q in rows && r == Close(q, a, now))
  {
    CloseRows(rows, a, now);
    forall r | r in CloseOpen(rows, a, now) ensures exists q :: q in rows && r == Close(q, a, now) {
      var i :| 0 <= i < |rows| && CloseOpen(rows, a, now)[i] == r;
      assert rows[i] in rows;
    }
  }

  lemma ActivateKeeps(db: Db, a: AppId, r: ReleaseId, now: int)
    requires DbOk(db) && Activate(db, a, r, now).Ok?
    ensures DbOk(Activate(db, a, r, now).value) && Kept(db, Activate(db, a, r, now).value)
    ensures BuiltIn(db.releases, a, r)
  {
    if OpenRow(db.rows, a).Some? && OpenRow(db.rows, a).value.release == r {
      OpenRowIn(db.rows, a);
    } else {
      BuiltHasImage(db, a, r);
      ClearKeeps(db, a, now);
      ClosedKeeps(db.rows, a, now);
      hide CloseOpen, OpenRow, ReleasesOk, SealsKept, BuiltIn;
      AppendKeeps(db, Clear(db, a, now), Row(a, r, now, None));
    }
  }

  lemma BuiltHasImage(db: Db, a: AppId, r: ReleaseId)
    requires ReleasesOk(db) && (a, r) in db.releases && db.releases[(a, r)].status == Built
    ensures BuiltIn(db.releases, a, r)
  {
  }

  lemma AppendKeeps(before: Db, db: Db, r: Row)
    requires RowsOk(db) && RowsKept(before.rows, db.rows) && BuiltIn(db.releases, r.app, r.release) && r.deactivated.None?
    requires forall q :: q in db.rows && q.app == r.app ==> q.deactivated.Some?
    ensures RowsOk(db.(rows := db.rows + [r])) && RowsKept(before.rows, db.rows + [r])
  {
    hide BuiltIn;
  }

  lemma ActivateHistory(db: Db, a: AppId, r: ReleaseId, now: int, b: AppId)
    requires DbOk(db) && Activate(db, a, r, now).Ok?
    ensures HistoryOf(Activate(db, a, r, now).value.rows, b) ==
      if a == b then HistoryOf(db.rows, b).Activate(r) else HistoryOf(db.rows, b)
  {
    hide HistoryOf, CloseOpen, OpenRow, BuiltIn;
    QueriesReadHistory(db.rows, a);
    ClosedHistory(db.rows, a, now, b);
    AppendedHistory(CloseOpen(db.rows, a, now), Row(a, r, now, None), b);
  }

  lemma {:induction false} OpenRowIn(rows: seq<Row>, a: AppId)
    ensures OpenRow(rows, a).Some? ==> OpenRow(rows, a).value in rows && OpenRow(rows, a).value.app == a
  {
    if rows != [] { OpenRowIn(rows[..|rows| - 1], a); }
  }

  lemma ClearKeeps(db: Db, a: AppId, now: int)
    requires DbOk(db)
    ensures DbOk(Clear(db, a, now)) && Kept(db, Clear(db, a, now))
  {
    ClosedKeeps(db.rows, a, now);
    hide CloseOpen;
  }

  // ---- All runs ----

  datatype Op =
    | OpStart(app: AppId)
    | OpSeal(app: AppId, release: ReleaseId, built: bool, image: string, now: int)
    | OpActivate(app: AppId, release: ReleaseId, now: int)
    | OpClear(app: AppId, now: int)

  // A refused operation changes nothing: the transaction is rolled back.
  function Step(db: Db, op: Op): Db {
    match op
    case OpStart(a) => if Start(db, a).Ok? then Start(db, a).value else db
    case OpSeal(a, r, built, image, now) =>
      var s := Seal(db, a, r, if built then Built else Status.Failed, if built then image else "", now);
      if s.Ok? then s.value else db
    case OpActivate(a, r, now) => if Activate(db, a, r, now).Ok? then Activate(db, a, r, now).value else db
    case OpClear(a, now) => Clear(db, a, now)
  }

  function Run(db: Db, ops: seq<Op>): Db
    decreases |ops|
  {
    if ops == [] then db else Run(Step(db, ops[0]), ops[1..])
  }

  lemma StepKeeps(db: Db, op: Op)
    requires DbOk(db)
    ensures DbOk(Step(db, op)) && Kept(db, Step(db, op))
  {
    hide DbOk, Kept, Start, Seal, Activate, Clear;
    match op
    case OpStart(a) => if Start(db, a).Ok? { StartKeeps(db, a); } else { KeptSame(db); }
    case OpSeal(a, r, built, image, now) =>
      var status, im := if built then Built else Status.Failed, if built then image else "";
      if Seal(db, a, r, status, im, now).Ok? { SealKeeps(db, a, r, status, im, now); } else { KeptSame(db); }
    case OpActivate(a, r, now) => if Activate(db, a, r, now).Ok? { ActivateKeeps(db, a, r, now); } else { KeptSame(db); }
    case OpClear(a, now) => ClearKeeps(db, a, now);
  }

  lemma KeptSame(db: Db)
    ensures Kept(db, db)
  {
  }

  lemma KeptTransitive(a: Db, b: Db, c: Db)
    requires Kept(a, b) && Kept(b, c)
    ensures Kept(a, c)
  {
    forall i | 0 <= i < |a.rows| ensures RowKept(a.rows[i], c.rows[i]) {
      assert RowKept(a.rows[i], b.rows[i]) && RowKept(b.rows[i], c.rows[i]);
    }
  }

  /** Over every run, clocks that go back included: an application has at most one open row
    * and it is its last one; a closed row never changes and ends no earlier than it began;
    * every release ever activated was sealed BUILT with an image; a seal is final. */
  lemma {:induction false} RunsKeep(db: Db, ops: seq<Op>)
    requires DbOk(db)
    ensures DbOk(Run(db, ops)) && Kept(db, Run(db, ops))
    decreases |ops|
  {
    hide DbOk, Kept, Step;
    if ops == [] {
      KeptSame(db);
    } else {
      StepKeeps(db, ops[0]);
      RunsKeep(Step(db, ops[0]), ops[1..]);
      KeptTransitive(db, Step(db, ops[0]), Run(db, ops));
    }
  }

  /** Over every run: a release is BUILT with the image that some seal of the run gave it, or was
    * so from the start; and so is every release ever activated. */
  lemma {:induction false} ImagesAreGiven(db: Db, ops: seq<Op>, k: (AppId, ReleaseId))
    requires DbOk(db) && k in Run(db, ops).releases && Run(db, ops).releases[k].status == Built
    ensures (k in db.releases && db.releases[k].status == Built && Run(db, ops).releases[k].image == db.releases[k].image)
         || exists i :: GivesImage(ops, i, k, Run(db, ops).releases[k].image)
    ensures forall r :: r in Run(db, ops).rows ==> BuiltIn(Run(db, ops).releases, r.app, r.release)
    decreases |ops|
  {
    hide DbOk, Step;
    if ops == [] {
      DbParts(db);
    } else {
      var db' := Step(db, ops[0]);
      StepKeeps(db, ops[0]);
      ImagesAreGiven(db', ops[1..], k);
      if k in db'.releases && db'.releases[k].status == Built && Run(db, ops).releases[k].image == db'.releases[k].image {
        ImageStep(db, ops[0], k);
        if !(k in db.releases && db.releases[k].status == Built) {
          assert GivesImage(ops, 0, k, db'.releases[k].image);
        }
      } else {
        var i :| GivesImage(ops[1..], i, k, Run(db, ops).releases[k].image);
        assert GivesImage(ops, i + 1, k, Run(db, ops).releases[k].image);
      }
    }
  }

  // Operation i seals the release BUILT with this image.
  predicate GivesImage(ops: seq<Op>, i: int, k: (AppId, ReleaseId), image: string) {
    0 <= i < |ops| && ops[i].OpSeal? && ops[i].built && (ops[i].app, ops[i].release) == k && ops[i].image == image
  }

  lemma ImageStep(db: Db, op: Op, k: (AppId, ReleaseId))
    requires k in Step(db, op).releases && Step(db, op).releases[k].status == Built
    ensures (k in db.releases && db.releases[k] == Step(db, op).releases[k])
         || (op.OpSeal? && op.built && (op.app, op.release) == k && op.image == Step(db, op).releases[k].image)
  {
    hide CloseOpen, OpenRow;
  }

  // ---- Rolling back ----

  predicate NoRepeat(acts: seq<ReleaseId>) {
    forall i :: 0 <= i < |acts| - 1 ==> acts[i] != acts[i + 1]
  }

  // One application, never taken out of traffic.
  predicate Uncleared(h: History) { NoRepeat(h.acts) && (h.acts != [] ==> h.open) }

  predicate ClearsNone(ops: seq<Op>, a: AppId) {
    forall i :: 0 <= i < |ops| ==> !(ops[i].OpClear? && ops[i].app == a)
  }

  lemma StepHistory(db: Db, op: Op, a: AppId)
    requires DbOk(db)
    ensures var h, h' := HistoryOf(db.rows, a), HistoryOf(Step(db, op).rows, a);
      || h' == h
      || (op.OpActivate? && op.app == a && h' == h.Activate(op.release))
      || (op.OpClear? && op.app == a && h' == h.Clear())
  {
    hide DbOk, HistoryOf, CloseOpen, OpenRow;
    match op
    case OpActivate(b, r, now) => if Activate(db, b, r, now).Ok? { ActivateHistory(db, b, r, now, a); }
    case OpClear(b, now) => ClosedHistory(db.rows, b, now, a);
    case _ =>
  }

  /** Without ClearActiveRelease the rollback target always differs from the active release. */
  lemma {:induction false} TargetDiffers(db: Db, ops: seq<Op>, a: AppId)
    requires DbOk(db) && Uncleared(HistoryOf(db.rows, a)) && ClearsNone(ops, a)
    ensures var h := HistoryOf(Run(db, ops).rows, a);
      Uncleared(h) && (h.Previous().Some? ==> h.Active().Some? && h.Previous() != h.Active())
    decreases |ops|
  {
    hide DbOk, HistoryOf, Step;
    if ops != [] {
      StepKeeps(db, ops[0]);
      StepHistory(db, ops[0], a);
      TargetDiffers(Step(db, ops[0]), ops[1..], a);
    }
  }

  /** After switching from p to another release the rollback target is p, and two successive
    * rollbacks, each to the target PreviousActiveRelease gives, restore the original. */
  lemma RollbackTwice(db: Db, a: AppId, p: ReleaseId, q: ReleaseId, now: int, first: int, second: int)
    requires DbOk(db) && OpenRow(db.rows, a).Some? && OpenRow(db.rows, a).value.release == p != q
    requires Activate(db, a, q, now).Ok? && first > 0 && second > 0
    ensures var switched := Activate(db, a, q, now).value;
      && LastClosed(switched.rows, a).Some? && LastClosed(switched.rows, a).value.release == p
      && var back := Activate(switched, a, p, first);
      && back.Ok? && RunsWith(back.value, a, p, q)
      && var again := Activate(back.value, a, q, second);
      && again.Ok? && RunsWith(again.value, a, q, p)
  {
    hide HistoryOf, OpenRow, LastClosed, CloseOpen, Kept;
    var h := HistoryOf(db.rows, a);
    QueriesReadHistory(db.rows, a);
    OpenIsBuilt(db, a);
    var switched := Switched(db, a, q, now);
    var back := Switched(switched, a, p, first);
    var again := Switched(back, a, q, second);
  }

  // The application runs r, and its rollback target is target.
  predicate RunsWith(db: Db, a: AppId, r: ReleaseId, target: ReleaseId) {
    && OpenRow(db.rows, a).Some? && OpenRow(db.rows, a).value.release == r
    && LastClosed(db.rows, a).Some? && LastClosed(db.rows, a).value.release == target
  }

  lemma OpenIsBuilt(db: Db, a: AppId)
    requires RowsOk(db) && OpenRow(db.rows, a).Some?
    ensures BuiltIn(db.releases, a, OpenRow(db.rows, a).value.release)
  {
    OpenRowIn(db.rows, a);
  }

  // One switch away from the release that is active.
  lemma Switched(db: Db, a: AppId, r: ReleaseId, now: int) returns (next: Db)
    requires DbOk(db) && HistoryOf(db.rows, a).Active().Some? && HistoryOf(db.rows, a).Active().value != r
    requires BuiltIn(db.releases, a, r) && now > 0
    ensures Activate(db, a, r, now) == Ok(next) && DbOk(next) && next.releases == db.releases
    ensures RunsWith(next, a, r, HistoryOf(db.rows, a).Active().value)
    ensures HistoryOf(next.rows, a).Active() == Some(r)
  {
    hide HistoryOf, OpenRow, LastClosed, CloseOpen, Kept, DbOk;
    assert RowsOk(db) && OpenIsLast(db.rows) by { DbParts(db); }
    QueriesReadHistory(db.rows, a);
    next := Activate(db, a, r, now).value;
    ActivateKeeps(db, a, r, now);
    ActivateHistory(db, a, r, now, a);
    DbParts(next);
    QueriesReadHistory(next.rows, a);
  }

  lemma DbParts(db: Db)
    requires DbOk(db)
    ensures RowsOk(db) && OpenIsLast(db.rows)
  {
  }

  /** Taken out of traffic and put back, a release is its own rollback target; that is the only
    * way an activation makes one. */
  lemma OwnTargetIff(h: History, r: ReleaseId)
    requires h.open ==> h.acts != []
    ensures h.Active() != Some(r) ==> (h.Activate(r).Previous() == Some(r) <==> !h.open && h.Previous() == Some(r))
    ensures h.Active() == Some(r) ==> h.Activate(r) == h && h.Clear().Activate(r).Previous() == Some(r) == h.Clear().Activate(r).Active()
  {
  }

  // ---- The store itself ----

  class Store {
    var counters: map<AppId, nat>
    var releases: map<(AppId, ReleaseId), Release>
    var rows: seq<Row>

    function Contents(): Db
      reads this
    {
      Db(counters, releases, rows)
    }

    constructor (db: Db)
      requires DbOk(db)
      ensures Contents() == db
    {
      counters, releases, rows := db.counters, db.releases, db.rows;
    }

    method StartRelease(a: AppId) returns (res: Result<ReleaseId, StoreError>)
      modifies this
      ensures var next := Start(old(Contents()), a);
        if next.Err? then res == Err(next.error) && Contents() == old(Contents())
        else Contents() == next.value && res == Ok(IdOf(old(counters[a]) + 1))
      ensures res.Ok? <==> a in old(counters) && old(counters)[a] < MAX_SEQ
      ensures res.Ok? ==>
        && counters == old(counters)[a := old(counters)[a] + 1] && rows == old(rows)
        && releases == old(releases)[(a, res.value) := Release(counters[a], Building, "")]
    {
      if a !in counters { return Err(AppNotFound); }
      var n := counters[a] + 1;
      if n > MAX_SEQ { return Err(Counter); }
      counters := counters[a := n];
      releases := releases[(a, IdOf(n)) := Release(n, Building, "")];
      return Ok(IdOf(n));
    }

    method SealRelease(a: AppId, r: ReleaseId, status: Status, image: string, now: int) returns (error: Option<StoreError>)
      modifies this
      ensures var next := Seal(old(Contents()), a, r, status, image, now);
        if next.Err? then error == Some(next.error) && Contents() == old(Contents()) else error == None && Contents() == next.value
      ensures error == None <==>
        && (status == Built ==> image != "") && now > 0
        && (a, r) in old(releases) && old(releases)[(a, r)].status == Building
      ensures error == None ==> releases == old(releases)[(a, r) := old(releases)[(a, r)].(status := status, image := image)]
      ensures counters == old(counters) && rows == old(rows)
    {
      if status == Built && image == "" { return Some(NoImage); }
      if (a, r) !in releases || releases[(a, r)].status != Building { return Some(NotBuilding); }
      if now <= 0 { return Some(BadClock); }
      releases := releases[(a, r) := releases[(a, r)].(status := status, image := image)];
      return None;
    }

    // The UPDATE that closes the application's open row.
    method CloseRow(a: AppId, now: int)
      modifies this`rows
      ensures rows == CloseOpen(old(rows), a, now)
    {
      ghost var before := rows;
      var out: seq<Row> := [];
      for i := 0 to |rows|
        invariant rows == before && out == CloseOpen(before[..i], a, now)
      {
        assert before[..i + 1][..i] == before[..i];
        out := out + [Close(rows[i], a, now)];
      }
      assert before[..|before|] == before;
      rows := out;
    }

    method FindOpen(a: AppId) returns (r: Option<Row>)
      ensures r == OpenRow(rows, a)
    {
      var i := |rows|;
      assert rows[..i] == rows;
      while i > 0
        invariant 0 <= i <= |rows| && OpenRow(rows, a) == OpenRow(rows[..i], a)
      {
        assert rows[..i][..i - 1] == rows[..i - 1];
        i := i - 1;
        if rows[i].app == a && rows[i].deactivated.None? { return Some(rows[i]); }
      }
      return None;
    }

    method SetActiveRelease(a: AppId, r: ReleaseId, now: int) returns (error: Option<StoreError>)
      requires DbOk(Contents())
      modifies this
      ensures DbOk(Contents()) && Kept(old(Contents()), Contents())
      ensures var next := Activate(old(Contents()), a, r, now);
        if next.Err? then error == Some(next.error) && Contents() == old(Contents()) else error == None && Contents() == next.value
      ensures error == None ==> BuiltIn(releases, a, r) && HistoryOf(rows, a) == HistoryOf(old(rows), a).Activate(r)
      ensures error == None ==> HistoryOf(rows, a).Active() == Some(r)
      ensures counters == old(counters) && releases == old(releases)
      ensures error == None && HistoryOf(old(rows), a).Active() != Some(r) ==>
        && |rows| == |old(rows)| + 1 && rows[|old(rows)|] == Row(a, r, now, None)
        && forall i :: 0 <= i < |old(rows)| ==> ClosedAt(old(rows)[i], rows[i], a, now)
    {
      hide DbOk, Kept, OpenRow, CloseOpen, HistoryOf, BuiltIn;
      ghost var before := Contents();
      KeptSame(before);
      var current := FindOpen(a);
      if Activate(before, a, r, now).Ok? {
        ActivateKeeps(before, a, r, now);
        ActivateHistory(before, a, r, now, a);
      }
      DbParts(before);
      QueriesReadHistory(rows, a);
      CloseRowsAt(rows, a, now);
      if current.Some? && current.value.release == r { return None; }
      if (a, r) !in releases || releases[(a, r)].status != Built { return Some(NotBuilt); }
      if now <= 0 { return Some(BadClock); }
      CloseRow(a, now);
      rows := rows + [Row(a, r, now, None)];
      return None;
    }

    method ClearActiveRelease(a: AppId, now: int)
      requires DbOk(Contents())
      modifies this
      ensures DbOk(Contents()) && Contents() == Clear(old(Contents()), a, now)
      ensures HistoryOf(rows, a) == HistoryOf(old(rows), a).Clear()
      ensures |rows| == |old(rows)| && forall i :: 0 <= i < |rows| ==> ClosedAt(old(rows)[i], rows[i], a, now)
    {
      ClearKeeps(Contents(), a, now);
      CloseRowsAt(rows, a, now);
      ClosedHistory(rows, a, now, a);
      hide DbOk, HistoryOf, CloseOpen;
      CloseRow(a, now);
    }

    method PreviousActiveRelease(a: AppId) returns (res: Result<ReleaseId, StoreError>)
      requires DbOk(Contents())
      ensures res == match HistoryOf(rows, a).Previous() case Some(r) => Ok(r) case None => Err(NoPrevious)
    {
      QueriesReadHistory(rows, a);
      hide HistoryOf;
      var i := |rows|;
      assert rows[..i] == rows;
      while i > 0
        invariant 0 <= i <= |rows| && LastClosed(rows, a) == LastClosed(rows[..i], a)
      {
        assert rows[..i][..i - 1] == rows[..i - 1];
        i := i - 1;
        if rows[i].app == a && rows[i].deactivated.Some? { return Ok(rows[i].release); }
      }
      return Err(NoPrevious);
    }

    method ActiveRelease(a: AppId) returns (r: Option<ReleaseId>)
      requires DbOk(Contents())
      ensures r == HistoryOf(rows, a).Active()
    {
      QueriesReadHistory(rows, a);
      hide HistoryOf, OpenRow;
      var row := FindOpen(a);
      return if row.Some? then Some(row.value.release) else None;
    }
  }

  // ---- Deploy ----

  /** What the rollout returns. After the activation: a failed load; or the applications Reconcile
    * skipped, if any, joined with a drain that failed. */
  datatype RolloutError = GateFailed | NotActivated(error: StoreError) | LoadFailed | Joined(skipped: Option<set<AppId>>, drain: bool)

  // The end of switchTraffic: load is what Reconcile skipped, or nothing when it failed; an
  // application that was itself skipped is not drained.
  function SwitchEnd(a: AppId, load: Option<set<AppId>>, drains: bool): Option<RolloutError> {
    if load.None? then Some(LoadFailed)
    else if a in load.value then Some(Joined(Some(load.value), false))
    else if load.value == {} && drains then None
    else Some(Joined(if load.value == {} then None else Some(load.value), !drains))
  }

  // errors.As finds a SkippedError: the caller is told that the switch succeeded.
  predicate Reported(e: Option<RolloutError>) { e.None? || (e.value.Joined? && e.value.skipped.Some?) }

  // What a deploy answers. Accepted and the final answer are messages that may not get through.
  datatype Deployed =
    | NotStarted(error: StoreError) | NotAccepted(id: ReleaseId) | BuildFailed(id: ReleaseId) | NotSealed(id: ReleaseId)
    | Failed(id: ReleaseId, rollout: RolloutError) | Untold(id: ReleaseId) | Succeeded(id: ReleaseId)

  // The answer once the release is activated.
  function Answered(id: ReleaseId, end: Option<RolloutError>, told: bool): Deployed {
    if !Reported(end) then Deployed.Failed(id, end.value) else if told then Succeeded(id) else Untold(id)
  }

  /** Deploy in internal/api/deploy.go: record, build, seal, and only then roll out; gate is the
    * clock of the activation, or nothing when the gate fails. The history changes iff the
    * release was accepted, built, sealed and let through, whatever the load does then; whatever
    * fails after the seal, the release stays BUILT. The answer is a success iff the rollout was
    * without error or Reconcile skipped some application, and the message got through. */
  method Deploy(store: Store, a: AppId, accepted: bool, image: Option<string>, sealed: int, gate: Option<int>,
                load: Option<set<AppId>>, drains: bool, told: bool)
    returns (d: Deployed, activated: bool)
    requires DbOk(store.Contents())
    modifies store
    ensures DbOk(store.Contents()) && Kept(old(store.Contents()), store.Contents())
    ensures d.NotStarted? <==> !(a in old(store.counters) && old(store.counters)[a] < MAX_SEQ)
    ensures !d.NotStarted? ==> (a, d.id) !in old(store.releases) && (a, d.id) in store.releases
    ensures d.NotAccepted? <==> !d.NotStarted? && !accepted
    ensures d.BuildFailed? <==> !d.NotStarted? && accepted && image.None?
    ensures d.NotAccepted? || d.BuildFailed? ==>
      store.releases[(a, d.id)].status == if sealed > 0 then Status.Failed else Building
    ensures d.NotSealed? <==> !d.NotStarted? && accepted && image.Some? && (image.value == "" || sealed <= 0)
    ensures d.NotSealed? ==> store.releases[(a, d.id)].status == Building
    ensures d.Failed? || d.Untold? || d.Succeeded? ==> BuiltIn(store.releases, a, d.id)
    ensures d.Failed? || d.Untold? || d.Succeeded? ==> store.releases[(a, d.id)].image == image.value
    ensures forall k :: k in old(store.releases) ==> k in store.releases && store.releases[k] == old(store.releases)[k]
    ensures activated <==> (d.Failed? || d.Untold? || d.Succeeded?) && gate.Some? && gate.value > 0
    ensures activated ==> HistoryOf(store.rows, a) == HistoryOf(old(store.rows), a).Activate(d.id)
    ensures !activated ==> store.rows == old(store.rows)
    ensures activated ==> d == Answered(d.id, SwitchEnd(a, load, drains), told)
    ensures d.Succeeded? <==> activated && Reported(SwitchEnd(a, load, drains)) && told
    ensures d.Failed? && !activated ==> d.rollout == if gate.None? then GateFailed else NotActivated(BadClock)
  {
    hide DbOk, Kept, HistoryOf, BuiltIn;
    ghost var db0 := store.Contents();
    KeptSame(db0);
    if Start(db0, a).Ok? { StartKeeps(db0, a); }
    var id := store.StartRelease(a);
    if id.Err? { return NotStarted(id.error), false; }
    ghost var db1 := store.Contents();
    var built := accepted && image.Some?;
    var status, im := if built then Built else Status.Failed, if built then image.value else "";
    if Seal(db1, a, id.value, status, im, sealed).Ok? { SealKeeps(db1, a, id.value, status, im, sealed); }
    var error := store.SealRelease(a, id.value, status, im, sealed);
    ghost var db2 := store.Contents();
    KeptTransitive(db0, db1, if error == None then db2 else db1) by { KeptSame(db1); }
    if !accepted { return NotAccepted(id.value), false; }
    if image.None? { return BuildFailed(id.value), false; }
    if error.Some? { return NotSealed(id.value), false; }
    assert BuiltIn(store.releases, a, id.value) by { NowBuilt(db1, a, id.value, im, sealed); }
    if gate.None? { return Deployed.Failed(id.value, GateFailed), false; }
    NotActiveYet(db0, db2, a, id.value);
    error := store.SetActiveRelease(a, id.value, gate.value);
    KeptTransitive(db0, db2, store.Contents());
    if error.Some? { return Deployed.Failed(id.value, NotActivated(error.value)), false; }
    return Answered(id.value, SwitchEnd(a, load, drains), told), true;
  }

  // A release that was not there before is not active.
  lemma NotActiveYet(before: Db, db: Db, a: AppId, r: ReleaseId)
    requires DbOk(before) && db.rows == before.rows && (a, r) !in before.releases
    ensures OpenRow(db.rows, a).Some? ==> OpenRow(db.rows, a).value.release != r
  {
    OpenRowIn(db.rows, a);
  }

  lemma NowBuilt(db: Db, a: AppId, r: ReleaseId, image: string, now: int)
    requires Seal(db, a, r, Built, image, now).Ok?
    ensures BuiltIn(Seal(db, a, r, Built, image, now).value.releases, a, r)
  {
  }

  // ---- Rollback ----

  datatype RolledBack = NoActive | NoTarget | NoReplicas | Undone(rollout: RolloutError) | Back(from: ReleaseId, to: ReleaseId)

  /** Rollback in internal/api/rollback.go: the target is the activation before the active one,
    * and its release row is always found. replicas says whether its containers could be brought up. Once
    * it is activated the release that was active becomes the next target, so that a second
    * rollback undoes the first. */
  method Rollback(store: Store, a: AppId, replicas: bool, gate: Option<int>, load: Option<set<AppId>>, drains: bool)
    returns (res: RolledBack, activated: bool)
    requires DbOk(store.Contents())
    modifies store
    ensures store.releases == old(store.releases) && store.counters == old(store.counters)
    ensures DbOk(store.Contents()) && Kept(old(store.Contents()), store.Contents())
    ensures var h := HistoryOf(old(store.rows), a);
      && (res.NoActive? <==> h.Active().None?)
      && (res.NoTarget? <==> h.Active().Some? && h.Previous().None?)
      && (res.NoReplicas? <==> h.Active().Some? && h.Previous().Some? && !replicas)
      && (activated <==> (h.Active().Some? && h.Previous().Some? && replicas
            && gate.Some? && (gate.value > 0 || h.Previous() == h.Active())))
      && (activated ==> HistoryOf(store.rows, a) == h.Activate(h.Previous().value))
      && (activated && h.Previous() != h.Active() ==> HistoryOf(store.rows, a).Previous() == h.Active())
      && (res.Back? ==> h.Active() == Some(res.from) && h.Previous() == Some(res.to))
    ensures !activated ==> store.rows == old(store.rows)
    ensures activated ==>
      if Reported(SwitchEnd(a, load, drains)) then res.Back? else res.Undone? && Some(res.rollout) == SwitchEnd(a, load, drains)
    ensures res.Undone? && !activated ==> res.rollout == if gate.None? then GateFailed else NotActivated(BadClock)
  {
    hide Kept, HistoryOf, OpenRow, CloseOpen, LastClosed;
    ghost var db := store.Contents();
    KeptSame(db);
    DbParts(db);
    QueriesReadHistory(store.rows, a);
    var live := store.ActiveRelease(a);
    if live.None? { return NoActive, false; }
    var target := store.PreviousActiveRelease(a);
    if target.Err? { return NoTarget, false; }
    ClosedIsBuilt(db, a);
    assert (a, target.value) in store.releases;
    if !replicas { return NoReplicas, false; }
    if gate.None? { return Undone(GateFailed), false; }
    var error := store.SetActiveRelease(a, target.value, gate.value);
    if error.Some? { return Undone(NotActivated(error.value)), false; }
    var end := SwitchEnd(a, load, drains);
    return if Reported(end) then Back(live.value, target.value) else Undone(end.value), true;
  }

  lemma {:induction false} LastClosedIn(rows: seq<Row>, a: AppId)
    ensures LastClosed(rows, a).Some? ==> LastClosed(rows, a).value in rows && LastClosed(rows, a).value.app == a
  {
    if rows != [] { LastClosedIn(rows[..|rows| - 1], a); }
  }

  lemma ClosedIsBuilt(db: Db, a: AppId)
    requires RowsOk(db) && LastClosed(db.rows, a).Some?
    ensures BuiltIn(db.releases, a, LastClosed(db.rows, a).value.release)
  {
    LastClosedIn(db.rows, a);
  }
}
