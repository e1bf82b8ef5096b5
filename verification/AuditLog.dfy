/** internal/store/store.go and internal/api/server.go: the audit table, and the two
  * loops that verify a chain page by page. */
module AuditLog {
  import opened Wrappers
  import opened Bytes
  import opened Audit
  import opened Journal

  // ---- The SQLite table ----

  // seq is the positive primary key; rows are kept in its order.
  predicate Table(rows: seq<Record>) {
    && |rows| <= MAX_INT
    && (forall i :: 0 <= i < |rows| ==> 0 < rows[i].body.seqNo <= MAX_INT)
    && (forall i, j :: 0 <= i < j < |rows| ==> rows[i].body.seqNo < rows[j].body.seqNo)
  }

  // WHERE seq > after ORDER BY seq ASC
  function SelectAfter(rows: seq<Record>, after: nat): seq<Record> {
    if rows == [] then []
    else if rows[0].body.seqNo > after then [rows[0]] + SelectAfter(rows[1..], after)
    else SelectAfter(rows[1..], after)
  }

  function PageLimit(limit: int): nat {
    if limit <= 0 then 100 else if limit > 1000 then 1000 else limit
  }

  function ListAudit(rows: seq<Record>, after: nat, limit: int): seq<Record> {
    var found := SelectAfter(rows, after);
    found[..Min(|found|, PageLimit(limit))]
  }

  function CursorAt(rows: seq<Record>, k: nat): nat
    requires k <= |rows|
  {
    if k == 0 then 0 else rows[k - 1].body.seqNo
  }

  lemma {:induction false} SelectAll(rows: seq<Record>, after: nat)
    requires forall i :: 0 <= i < |rows| ==> rows[i].body.seqNo > after
    ensures SelectAfter(rows, after) == rows
  {
    if rows != [] {
      SelectAll(rows[1..], after);
      assert rows == [rows[0]] + rows[1..];
    }
  }

  // Reading on from a prefix of s gives a longer prefix of s.
  lemma TakeMore<T>(s: seq<T>, before: seq<T>, page: seq<T>, k: nat)
    requires before <= s && |before| + |page| <= |s| && page == s[|before|..|before| + |page|] && k <= |page|
    ensures before + page[..k] == s[..|before| + k]
    ensures k < |page| ==> page[k] == s[|before| + k]
  {
  }

  lemma HeadFits(rows: seq<Record>)
    requires Table(rows)
    ensures |rows| <= CursorAt(rows, |rows|) <= MAX_INT
  {
    RowsGrow(rows, |rows|);
  }

  lemma {:induction false} RowsGrow(rows: seq<Record>, k: nat)
    requires Table(rows) && k <= |rows|
    ensures k <= CursorAt(rows, k)
  {
    if k > 0 {
      RowsGrow(rows, k - 1);
    }
  }

  lemma TableExtend(rows: seq<Record>, r: Record)
    requires Table(rows)
    requires CursorAt(rows, |rows|) < r.body.seqNo <= MAX_INT
    ensures Table(rows + [r])
  {
    HeadFits(rows);
  }

  // A cursor at the k-th row selects exactly the rows behind it.
  lemma {:induction false} SelectSuffix(rows: seq<Record>, k: nat)
    requires Table(rows) && k <= |rows|
    ensures SelectAfter(rows, CursorAt(rows, k)) == rows[k..]
  {
    if k == 0 {
      SelectAll(rows, 0);
    } else {
      SelectFrom(rows, CursorAt(rows, k), k);
    }
  }

  lemma {:induction false} SelectFrom(rows: seq<Record>, after: nat, k: nat)
    requires k <= |rows|
    requires forall i :: 0 <= i < k ==> rows[i].body.seqNo <= after
    requires forall i :: k <= i < |rows| ==> rows[i].body.seqNo > after
    ensures SelectAfter(rows, after) == rows[k..]
  {
    if k == 0 {
      SelectAll(rows, after);
    } else {
      SelectFrom(rows[1..], after, k - 1);
      assert rows[1..][k - 1..] == rows[k..];
    }
  }

  /** The rows behind the cursor, in order, at most as many as asked for: 100 if no number is
    * given, never more than 1000. */
  lemma ListedRows(rows: seq<Record>, after: nat, limit: int) returns (k: nat)
    requires Table(rows)
    ensures k <= |rows|
    ensures forall i :: 0 <= i < k ==> rows[i].body.seqNo <= after
    ensures forall i :: k <= i < |rows| ==> rows[i].body.seqNo > after
    ensures var most := if limit <= 0 then 100 else if limit > 1000 then 1000 else limit;
      ListAudit(rows, after, limit) == if |rows| - k <= most then rows[k..] else rows[k..k + most]
  {
    k := 0;
    while k < |rows| && rows[k].body.seqNo <= after
      invariant k <= |rows| && forall i :: 0 <= i < k ==> rows[i].body.seqNo <= after
    {
      k := k + 1;
    }
    SelectFrom(rows, after, k);
  }

  /** The loop over one page: n records were accepted, and the next one, if any, was not. */
  method VerifyPage(v: Verifier, page: seq<Record>) returns (n: nat, err: Option<ChainError>)
    requires v.Valid() && |v.accepted| + |page| <= MAX_INT
    modifies v
    ensures v.Valid() && n <= |page| && v.accepted == old(v.accepted) + page[..n]
    ensures err.None? <==> n == |page|
    ensures err.Some? ==> !Follows(v.h, v.accepted, page[n]) && FaultIs(v.h, v.accepted, page[n], err.value)
    ensures n > 0 ==> page[n - 1].body.seqNo == |v.accepted|
  {
    ghost var before := v.accepted;
    for i := 0 to |page|
      invariant v.Valid() && v.accepted == before + page[..i]
      invariant i > 0 ==> page[i - 1].body.seqNo == |v.accepted|
    {
      assert page[..i] + [page[i]] == page[..i + 1];
      err := v.Next(page[i]);
      if err.Some? {
        return i, err;
      }
    }
    return |page|, None;
  }

  lemma ChainHead(h: Hasher, rs: seq<Record>)
    requires ValidChain(h, rs)
    ensures CursorAt(rs, |rs|) == |rs|
  {
  }

  lemma StillChain(h: Hasher, rows: seq<Record>, r: Body)
    requires Table(rows) && ValidOutcome(r.outcome) && ValidSource(r.source) && CursorAt(rows, |rows|) < MAX_INT
    ensures ValidChain(h, rows) ==> ValidChain(h, rows + [Seal(h, r, CursorAt(rows, |rows|) + 1, HeadOf(rows))])
  {
    if ValidChain(h, rows) {
      ChainHead(h, rows);
      SealExtends(h, rows, r);
    }
  }

  datatype RefusedRecord = EmptyAction | BadOutcomeValue | BadSourceValue | SequenceExhausted | NotStored

  // Why a verification stopped: the chain is broken, or the table could not be read.
  datatype Stop = Broken(fault: ChainError) | Unread

  class Store {
    const h: Hasher
    var rows: seq<Record>

    constructor (h: Hasher, rows: seq<Record>)
      ensures this.h == h && this.rows == rows
    {
      this.h, this.rows := h, rows;
    }

    // auditHeadTx
    function Head(): (nat, Digest)
      reads this
    {
      if rows == [] then (0, GENESIS) else (rows[|rows| - 1].body.seqNo, rows[|rows| - 1].hash)
    }

    /** Appends one sealed row or none; a table that is a valid chain stays one. works is
      * whether the transaction commits. */
    method AppendAudit(rec: Body, stamped: bool, now: int64, works: bool) returns (res: Result<Record, RefusedRecord>)
      requires Table(rows)
      modifies this
      ensures res.Err? ==> rows == old(rows)
      ensures res == Err(EmptyAction) <==> rec.action == []
      ensures res == Err(BadOutcomeValue) <==> rec.action != [] && !(1 <= rec.outcome <= 3)
      ensures res == Err(BadSourceValue) <==> rec.action != [] && 1 <= rec.outcome <= 3 && rec.source != 1 && rec.source != 2
      ensures res == Err(SequenceExhausted) <==>
        rec.action != [] && 1 <= rec.outcome <= 3 && (rec.source == 1 || rec.source == 2) && CursorAt(old(rows), |old(rows)|) == MAX_INT
      ensures if works then res != Err(NotStored) else res.Err?
      ensures res.Ok? ==> rows == old(rows) + [res.value] && res.value.hash == h(res.value.body)
      ensures res.Ok? ==> res.value.body == rec.(
        ts := if stamped then rec.ts else now, seqNo := CursorAt(old(rows), |old(rows)|) + 1, prevHash := HeadOf(old(rows)))
      ensures Table(rows)
      ensures ValidChain(h, old(rows)) && res.Ok? ==> ValidChain(h, rows)
    {
      hide ValidChain, Table, Follows;
      if rec.action == [] { return Err(EmptyAction); }
      if !ValidOutcome(rec.outcome) { return Err(BadOutcomeValue); }
      if !ValidSource(rec.source) { return Err(BadSourceValue); }
      var r := rec.(ts := if stamped then rec.ts else now);
      var (last, prev) := Head();
      HeadFits(rows);
      if last == MAX_INT { return Err(SequenceExhausted); }
      var sealed := Seal(h, r, last + 1, prev);
      StillChain(h, rows, r);
      if !works { return Err(NotStored); }
      TableExtend(rows, sealed);
      rows := rows + [sealed];
      return Ok(sealed);
    }

    /** Paged verification is one-pass verification: if every page can be read, the count is
      * the length of the longest valid prefix of the whole table, and there is no error iff that
      * is all of it. A page that cannot be read ends it after a valid prefix of whole pages. */
    method VerifyAuditChain(readable: nat -> bool) returns (checked: uint64, err: Option<Stop>)
      requires Table(rows)
      ensures checked <= |rows| && ValidChain(h, rows[..checked])
      ensures err == Some(Unread) ==> exists k: nat :: !readable(k)
      ensures err.Some? && err.value.Broken? ==> checked < |rows| && FaultIs(h, rows[..checked], rows[checked], err.value.fault)
      ensures err != Some(Unread) ==> IsValidPrefixLength(h, rows, checked) && (err.None? <==> checked == |rows|)
    {
      hide ValidChain, Follows, Table, SelectAfter, FaultIs;
      var v := new Verifier(h);
      var after: nat := 0;
      ghost var all := rows;
      ghost var k: nat := 0;
      var pages: nat := 0;
      HeadFits(all);
      NoneChecked(h, all);
      while true
        invariant fresh(v) && v.h == h && v.Valid() && rows == all
        invariant k <= |all| && v.accepted == all[..k] && after == CursorAt(all, k)
        decreases |all| - k
      {
        if !readable(pages) { return v.count, Some(Unread); }
        pages := pages + 1;
        SelectSuffix(rows, k);
        var page := ListAudit(rows, after, 500);
        if page == [] {
          return v.count, None;
        }
        ghost var n;
        var fault;
        n, fault := VerifyPage(v, page);
        TakeMore(all, all[..k], page, n);
        if fault.Some? {
          return v.count, Some(Broken(fault.value));
        }
        after := page[|page| - 1].body.seqNo;
        k := k + |page|;
      }
    }
  }

  lemma NoneChecked(h: Hasher, rows: seq<Record>)
    ensures ValidChain(h, rows[..0])
  {
  }

  // ---- The API's verdicts ----

  // UNREACHABLE says nothing about the chain.
  datatype ChainStatus = VALID | INVALID | UNREACHABLE

  datatype DaemonVerdict = DaemonVerdict(status: ChainStatus, checked: nat, firstInvalidSeq: nat)

  /** INVALID names the first record that does not follow the ones before it; UNREACHABLE is
    * the answer only when a page could not be read. */
  method DaemonChain(s: Store, readable: nat -> bool) returns (d: DaemonVerdict)
    requires Table(s.rows)
    ensures d.status == VALID ==> ValidChain(s.h, s.rows) && d.checked == |s.rows|
    ensures d.status == INVALID ==>
      && 1 <= d.firstInvalidSeq <= |s.rows| && d.checked == d.firstInvalidSeq - 1
      && ValidChain(s.h, s.rows[..d.firstInvalidSeq - 1])
      && !Follows(s.h, s.rows[..d.firstInvalidSeq - 1], s.rows[d.firstInvalidSeq - 1])
    ensures d.status == UNREACHABLE ==> d.checked <= |s.rows| && ValidChain(s.h, s.rows[..d.checked]) && exists k: nat :: !readable(k)
    ensures (forall k: nat :: readable(k)) ==> d.status == if ValidChain(s.h, s.rows) then VALID else INVALID
  {
    var checked, err := s.VerifyAuditChain(readable);
    if err == Some(Unread) { return DaemonVerdict(UNREACHABLE, checked, 0); }
    PrefixLengthDecides(s.h, s.rows, checked);
    assert checked == |s.rows| ==> s.rows[..checked] == s.rows;
    if err.None? { return DaemonVerdict(VALID, checked, 0); }
    return DaemonVerdict(INVALID, checked, checked + 1);
  }

  // What arrives is what the wire makes of each record.
  ghost predicate Delivered(got: seq<Record>, wire: Record -> Record, sent: seq<Record>) {
    |got| <= |sent| && forall i :: 0 <= i < |got| ==> got[i] == wire(sent[i])
  }

  ghost predicate Faithful(wire: Record -> Record) { forall r :: wire(r) == r }

  lemma FaithfulStep(h: Hasher, wire: Record -> Record, sent: seq<Record>, got: seq<Record>)
    requires ValidChain(h, sent) && Delivered(got, wire, sent) && |got| < |sent|
    ensures Faithful(wire) ==> Follows(h, got, wire(sent[|got|]))
  {
    if Faithful(wire) {
      ValidPrefix(h, sent, |got|);
      assert got == sent[..|got|];
    }
  }

  /** The loop over one page of the executor's journal. */
  method VerifyWirePage(v: Verifier, page: seq<Record>, wire: Record -> Record, ghost sent: seq<Record>)
    returns (ok: bool)
    requires v.Valid() && Delivered(v.accepted, wire, sent) && ValidChain(v.h, sent)
    requires |v.accepted| + |page| <= |sent| <= MAX_INT
    requires page == sent[|v.accepted|..|v.accepted| + |page|]
    modifies v
    ensures v.Valid() && Delivered(v.accepted, wire, sent)
    ensures ok ==> |v.accepted| == old(|v.accepted|) + |page|
    ensures ok && page != [] ==> wire(page[|page| - 1]).body.seqNo == |v.accepted|
    ensures Faithful(wire) ==> ok
    ensures !ok ==> |v.accepted| < |sent| && !Follows(v.h, v.accepted, wire(sent[|v.accepted|]))
  {
    hide ValidChain, Follows, Faithful, FaultIs;
    ghost var k := |v.accepted|;
    for i := 0 to |page|
      invariant v.Valid() && Delivered(v.accepted, wire, sent) && |v.accepted| == k + i
      invariant i > 0 ==> wire(page[i - 1]).body.seqNo == k + i
    {
      assert page[i] == sent[k + i];
      FaithfulStep(v.h, wire, sent, v.accepted);
      var err := v.Next(wire(page[i]));
      if err.Some? {
        return false;
      }
    }
    return true;
  }

  lemma PageOfGood(s: Scan, after: nat)
    requires after <= |s.good| && ReadResult(s, after, 500).Some?
    ensures var page, n := ReadResult(s, after, 500).value, |s.good|;
      && after + |page| <= n && (|page| == 500 || (!s.broken && after + |page| == n))
      && page == s.good[after..after + |page|]
  {
  }

  lemma BrokenPage(s: Scan, after: nat)
    requires after <= |s.good| && ReadResult(s, after, 500).None?
    requires after % 500 == 0 || !s.broken
    ensures s.broken && after == |s.good| - |s.good| % 500
  {
  }

  /** The executor's journal, read page by page through wire (the conversion to and from
    * the RPC message). VALID means every record of the journal was delivered and what
    * arrived verified from genesis. On a fixed journal and a faithful wire the answer is
    * never INVALID: a broken journal is UNREACHABLE, and only whole pages before the
    * fault are counted. A call that fails is UNREACHABLE too. */
  method ExecutorChain(j: Journal, wire: Record -> Record, answers: nat -> bool)
    returns (status: ChainStatus, checked: nat, ghost got: seq<Record>)
    ensures checked == |got| && ValidChain(j.h, got) && Delivered(got, wire, j.Scanned().good)
    ensures status == VALID ==> !j.Scanned().broken && checked == |j.Scanned().good|
    ensures status == INVALID ==>
      checked < |j.Scanned().good| && !Follows(j.h, got, wire(j.Scanned().good[checked]))
    ensures status == UNREACHABLE ==> j.Scanned().broken || exists k: nat :: !answers(k)
    ensures Faithful(wire) ==> status != INVALID
    ensures Faithful(wire) && (forall k: nat :: answers(k)) ==>
      && status == (if j.Scanned().broken then UNREACHABLE else VALID)
      && checked == if j.Scanned().broken then |j.Scanned().good| - |j.Scanned().good| % 500 else |j.Scanned().good|
  {
    hide ValidChain, Follows, ReadResult, ReadIs, Faithful, ScanFile;
    var v := new Verifier(j.h);
    ghost var scan := j.Scanned();
    ghost var n := |scan.good|;
    JournalIsChain(j.h, j.codec, j.file);
    var after: nat := 0;
    var calls: nat := 0;
    while true
      invariant fresh(v) && v.h == j.h && v.Valid() && Delivered(v.accepted, wire, scan.good)
      invariant |v.accepted| == after
      invariant after % 500 == 0 || (after == n && !scan.broken)
      decreases n - after
    {
      if !answers(calls) { return UNREACHABLE, v.count, v.accepted; }
      calls := calls + 1;
      var page := j.Read(after, 500);
      if page.None? {
        BrokenPage(scan, after);
        return UNREACHABLE, v.count, v.accepted;
      }
      PageOfGood(scan, after);
      if page.value == [] {
        return VALID, v.count, v.accepted;
      }
      var ok := VerifyWirePage(v, page.value, wire, scan.good);
      if !ok {
        return INVALID, v.count, v.accepted;
      }
      after := wire(page.value[|page.value| - 1]).body.seqNo;
    }
  }

  lemma JournalIsChain(h: Hasher, c: Codec, file: FileBytes)
    ensures ValidChain(h, ScanFile(h, c, file).good)
    ensures |ScanFile(h, c, file).good| <= |file|
  {
    ScanKeeps(h, c, RawLines(file), []);
    LinesFit(file);
  }
}
