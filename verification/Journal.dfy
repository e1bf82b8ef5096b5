/** internal/exec/journal.go: the executor's append-only journal file. */
module Journal {
  import opened Wrappers
  import opened Bytes
  import opened Audit

  // ---- Lines of a file, as bufio.Scanner splits them ----

  const LF: byte := 10
  const CR: byte := 13

  // The scanner gives up on a line this long.
  const MAX_TOKEN := 4 * 1024 * 1024

  type FileBytes = s: seq<byte> | |s| <= MAX_INT

  // The lines closed by a line feed, without it.
  function Complete(s: seq<byte>): seq<seq<byte>> {
    if s == [] then []
    else if s[|s| - 1] == LF then Complete(s[..|s| - 1]) + [Tail(s[..|s| - 1])]
    else Complete(s[..|s| - 1])
  }

  // What comes after the last line feed.
  function Tail(s: seq<byte>): seq<byte> {
    if s == [] || s[|s| - 1] == LF then [] else Tail(s[..|s| - 1]) + [s[|s| - 1]]
  }

  function RawLines(s: seq<byte>): seq<seq<byte>> {
    Complete(s) + if Tail(s) == [] then [] else [Tail(s)]
  }

  function DropCR(line: seq<byte>): seq<byte> {
    if line != [] && line[|line| - 1] == CR then line[..|line| - 1] else line
  }

  lemma {:induction false} LinesFit(s: seq<byte>)
    ensures |Complete(s)| + |Tail(s)| <= |s|
    ensures |RawLines(s)| <= |s|
  {
    if s != [] {
      LinesFit(s[..|s| - 1]);
    }
  }

  lemma WriteByte(s: seq<byte>, b: byte)
    ensures b != LF ==> Complete(s + [b]) == Complete(s) && Tail(s + [b]) == Tail(s) + [b]
    ensures b == LF ==> Complete(s + [b]) == Complete(s) + [Tail(s)] && Tail(s + [b]) == []
  {
    assert (s + [b])[..|s|] == s;
  }

  lemma {:induction false} WriteText(s: seq<byte>, text: seq<byte>)
    requires LF !in text
    ensures Complete(s + text) == Complete(s) && Tail(s + text) == Tail(s) + text
  {
    hide Complete, Tail;
    if text == [] {
      assert s + text == s;
    } else {
      var n := |text| - 1;
      WriteText(s, text[..n]);
      WriteByte(s + text[..n], text[n]);
      assert text == text[..n] + [text[n]];
      assert s + text == s + text[..n] + [text[n]];
    }
  }

  /** Writing a line glues it to whatever follows the last line feed. */
  lemma WriteLine(s: seq<byte>, line: seq<byte>)
    requires LF !in line
    ensures Complete(s + line + [LF]) == Complete(s) + [Tail(s) + line]
    ensures Tail(s + line + [LF]) == []
  {
    WriteText(s, line);
    WriteByte(s + line, LF);
  }

  // ---- Scanning and verifying ----

  // The line encoding: json.Marshal of journalLine and json.Unmarshal with decodeHash.
  datatype Codec = Codec(enc: Record -> seq<byte>, dec: seq<byte> -> Option<Record>)

  /** What the theorems need of JSON objects on one line: not blank, no line feed inside;
    * nothing may follow a complete object; leading white space is skipped; an object that breaks
    * off is not mended by another one behind it; whatever a line decodes to has its number. */
  ghost predicate JsonLines(c: Codec) {
    && (forall r :: c.enc(r) != [] && LF !in c.enc(r) && DropCR(c.enc(r)) == c.enc(r))
    && (forall x, r :: c.dec(DropCR(x)).Some? ==> c.dec(x + c.enc(r)).None?)
    && (forall x :: c.dec([CR] + x) == c.dec(x))
    && (forall r, q, n :: 0 < n < |c.enc(r)| ==> c.dec(c.enc(r)[..n] + c.enc(q)).None?)
    && (forall r :: c.dec(c.enc(r)).Some? ==> c.dec(c.enc(r)).value.body.seqNo == r.body.seqNo)
  }

  // The records verified before the scan stops, and whether it stopped at a fault.
  datatype Scan = Scan(good: seq<Record>, broken: bool)

  function ScanLine(h: Hasher, c: Codec, line: seq<byte>, before: seq<Record>): Scan {
    var token := DropCR(line);
    if |line| >= MAX_TOKEN then Scan(before, true)
    else if token == [] then Scan(before, false)
    else match c.dec(token)
      case None => Scan(before, true)
      case Some(r) => if Follows(h, before, r) then Scan(before + [r], false) else Scan(before, true)
  }

  function ScanLines(h: Hasher, c: Codec, lines: seq<seq<byte>>, before: seq<Record>): Scan {
    if lines == [] then Scan(before, false)
    else
      var s := ScanLine(h, c, lines[0], before);
      if s.broken then s else ScanLines(h, c, lines[1..], s.good)
  }

  lemma {:induction false} ScanKeeps(h: Hasher, c: Codec, lines: seq<seq<byte>>, before: seq<Record>)
    ensures before <= ScanLines(h, c, lines, before).good
    ensures |ScanLines(h, c, lines, before).good| <= |before| + |lines|
    ensures ValidChain(h, before) ==> ValidChain(h, ScanLines(h, c, lines, before).good)
  {
    if lines != [] {
      var s := ScanLine(h, c, lines[0], before);
      if !s.broken {
        if ValidChain(h, before) && s.good != before { ValidExtend(h, before, s.good[|before|]); }
        ScanKeeps(h, c, lines[1..], s.good);
      }
    }
  }

  lemma ScanFrom(h: Hasher, c: Codec, lines: seq<seq<byte>>, i: nat, before: seq<Record>)
    requires i < |lines|
    ensures var s := ScanLine(h, c, lines[i], before);
      ScanLines(h, c, lines[i..], before) == if s.broken then s else ScanLines(h, c, lines[i + 1..], s.good)
  {
    assert lines[i..][1..] == lines[i + 1..];
  }

  function ScanFile(h: Hasher, c: Codec, file: seq<byte>): Scan {
    ScanLines(h, c, RawLines(file), [])
  }

  lemma {:induction false} ScanConcat(h: Hasher, c: Codec, a: seq<seq<byte>>, b: seq<seq<byte>>, before: seq<Record>)
    ensures var s := ScanLines(h, c, a, before);
            ScanLines(h, c, a + b, before) == if s.broken then s else ScanLines(h, c, b, s.good)
    decreases |a|
  {
    if a == [] {
      assert a + b == b;
    } else {
      assert (a + b)[1..] == a[1..] + b;
      var s := ScanLine(h, c, a[0], before);
      if !s.broken {
        ScanConcat(h, c, a[1..], b, s.good);
      }
    }
  }

  // Neither empty nor a carriage return.
  predicate NonBlank(line: seq<byte>) { line != [] && line != [13] }

  // The lines that are not blank, all short enough, are in order these records.
  predicate Holds(c: Codec, lines: seq<seq<byte>>, rs: seq<Record>, at: seq<nat>) {
    && (forall i :: 0 <= i < |lines| ==> |lines[i]| < 4 * 1024 * 1024)
    && |at| == |rs| && (forall j, k :: 0 <= j < k < |at| ==> at[j] < at[k])
    && (forall j :: 0 <= j < |at| ==> at[j] < |lines| && NonBlank(lines[at[j]]) && c.dec(DropCR(lines[at[j]])) == Some(rs[j]))
    && (forall i :: 0 <= i < |lines| && NonBlank(lines[i]) ==> i in at)
  }

  lemma ScanLast(h: Hasher, c: Codec, lines: seq<seq<byte>>, before: seq<Record>)
    requires lines != []
    ensures var s := ScanLines(h, c, lines[..|lines| - 1], before);
      ScanLines(h, c, lines, before) == if s.broken then s else ScanLine(h, c, lines[|lines| - 1], s.good)
  {
    var n := |lines| - 1;
    ScanConcat(h, c, lines[..n], [lines[n]], before);
    assert lines == lines[..n] + [lines[n]];
  }

  lemma HoldsMore(c: Codec, lines: seq<seq<byte>>, rs: seq<Record>, at: seq<nat>, line: seq<byte>)
    requires Holds(c, lines, rs, at) && |line| < MAX_TOKEN
    ensures DropCR(line) == [] ==> Holds(c, lines + [line], rs, at)
    ensures DropCR(line) != [] && c.dec(DropCR(line)).Some? ==> Holds(c, lines + [line], rs + [c.dec(DropCR(line)).value], at + [|lines|])
  {
    assert forall k :: k in at ==> k in at + [|lines|];
    assert |lines| in at + [|lines|];
  }

  lemma LastPlace(at: seq<nat>, n: nat)
    requires n in at && forall j :: 0 <= j < |at| ==> at[j] <= n
    requires forall j, k :: 0 <= j < k < |at| ==> at[j] < at[k]
    ensures at[|at| - 1] == n
  {
    var j :| 0 <= j < |at| && at[j] == n;
    var last := |at| - 1;
    assert at[last] <= n;
  }

  lemma HoldsLess(c: Codec, lines: seq<seq<byte>>, rs: seq<Record>, at: seq<nat>)
    requires lines != [] && Holds(c, lines, rs, at)
    ensures var n, line := |lines| - 1, lines[|lines| - 1];
      && |line| < MAX_TOKEN && |at| == |rs|
      && (DropCR(line) == [] ==> Holds(c, lines[..n], rs, at))
      && (DropCR(line) != [] ==>
            rs != [] && c.dec(DropCR(line)) == Some(rs[|rs| - 1]) && Holds(c, lines[..n], rs[..|rs| - 1], at[..|at| - 1]))
  {
    var n, line := |lines| - 1, lines[|lines| - 1];
    if DropCR(line) != [] {
      assert NonBlank(lines[n]);
      assert n in at;
      LastPlace(at, n);
      forall i | 0 <= i < n && NonBlank(lines[..n][i]) ensures i in at[..|at| - 1] {
        assert lines[..n][i] == lines[i] && i in at;
        var k :| 0 <= k < |at| && at[k] == i;
        assert at[..|at| - 1][k] == i;
      }
    } else {
      assert !NonBlank(lines[n]);
      assert forall j :: 0 <= j < |at| ==> at[j] != n;
    }
  }

  lemma {:induction false} HoldsOpens(h: Hasher, c: Codec, lines: seq<seq<byte>>, rs: seq<Record>, at: seq<nat>)
    requires Holds(c, lines, rs, at) && ValidChain(h, rs)
    ensures ScanLines(h, c, lines, []) == Scan(rs, false)
    decreases |lines|
  {
    hide Holds, ScanLines, Follows, DropCR;
    if lines == [] {
      ScanNothing(h, c, []);
      NoneHeld(c, rs, at);
    } else {
      var n := |lines| - 1;
      HoldsLess(c, lines, rs, at);
      ScanLast(h, c, lines, []);
      if DropCR(lines[n]) == [] {
        HoldsOpens(h, c, lines[..n], rs, at);
      } else {
        HoldsOpens(h, c, lines[..n], rs[..|rs| - 1], at[..|at| - 1]);
        assert rs == rs[..|rs| - 1] + [rs[|rs| - 1]];
      }
    }
  }

  lemma NoneHeld(c: Codec, rs: seq<Record>, at: seq<nat>)
    ensures Holds(c, [], rs, at) <==> rs == [] && at == []
  {
    if at != [] {
      var first := at[0];
      assert first >= 0;
    }
  }

  lemma {:induction false} OpensHolds(h: Hasher, c: Codec, lines: seq<seq<byte>>) returns (at: seq<nat>)
    requires !ScanLines(h, c, lines, []).broken
    ensures Holds(c, lines, ScanLines(h, c, lines, []).good, at) && ValidChain(h, ScanLines(h, c, lines, []).good)
    decreases |lines|
  {
    hide Holds, ScanLines, Follows, DropCR, ValidChain;
    ValidEmpty(h);
    if lines == [] {
      ScanNothing(h, c, []);
      at := [];
      NoneHeld(c, [], at);
    } else {
      var n := |lines| - 1;
      ScanLast(h, c, lines, []);
      at := OpensHolds(h, c, lines[..n]);
      var good := ScanLines(h, c, lines[..n], []).good;
      HoldsMore(c, lines[..n], good, at, lines[n]);
      assert lines == lines[..n] + [lines[n]];
      if DropCR(lines[n]) != [] {
        ValidExtend(h, good, c.dec(DropCR(lines[n])).value);
        at := at + [n];
      }
    }
  }

  lemma ValidEmpty(h: Hasher)
    ensures ValidChain(h, [])
  {
  }

  /** A file opens, with these records, iff every line is under the scanner's limit, the lines
    * that are not blank decode to these records in order, and they are a valid chain. */
  lemma OpensIff(h: Hasher, c: Codec, file: seq<byte>, rs: seq<Record>)
    ensures ScanFile(h, c, file) == Scan(rs, false) <==> ValidChain(h, rs) && exists at :: Holds(c, RawLines(file), rs, at)
  {
    hide Holds, ScanLines, ValidChain, RawLines;
    if ScanFile(h, c, file) == Scan(rs, false) {
      var at := OpensHolds(h, c, RawLines(file));
    }
    forall at | Holds(c, RawLines(file), rs, at) && ValidChain(h, rs) ensures ScanFile(h, c, file) == Scan(rs, false) {
      HoldsOpens(h, c, RawLines(file), rs, at);
    }
  }

  /** The scan of a file that does not open stops at the first line the file does not open with,
    * and has verified the records before it. */
  lemma {:induction false} StopsAt(h: Hasher, c: Codec, lines: seq<seq<byte>>) returns (n: nat)
    requires ScanLines(h, c, lines, []).broken
    ensures n < |lines| && ScanLines(h, c, lines[..n], []) == Scan(ScanLines(h, c, lines, []).good, false)
    ensures ScanLines(h, c, lines[..n + 1], []).broken
    decreases |lines|
  {
    hide ScanLines, Follows;
    if lines == [] {
      ScanNothing(h, c, []);
    } else {
      var last := |lines| - 1;
      ScanLast(h, c, lines, []);
      if ScanLines(h, c, lines[..last], []).broken {
        n := StopsAt(h, c, lines[..last]);
        assert lines[..last][..n] == lines[..n] && lines[..last][..n + 1] == lines[..n + 1];
      } else {
        n := last;
        assert lines[..n + 1] == lines;
      }
    }
  }

  // The text these lines stand for, each with its line feed.
  function Unlined(lines: seq<seq<byte>>): seq<byte> {
    if lines == [] then [] else Unlined(lines[..|lines| - 1]) + lines[|lines| - 1] + [LF]
  }

  /** The lines of a file put together again are the file, and no line holds a line feed. */
  lemma {:induction false} LinesJoin(s: seq<byte>)
    ensures s == Unlined(Complete(s)) + Tail(s)
    ensures LF !in Tail(s) && forall line :: line in Complete(s) ==> LF !in line
  {
    if s != [] {
      var n := |s| - 1;
      LinesJoin(s[..n]);
      assert s == s[..n] + [s[n]];
      if s[n] == LF {
        assert Complete(s)[..|Complete(s)| - 1] == Complete(s[..n]);
      }
    }
  }

  // A record can be appended to this file: nothing but white space follows the last line feed.
  predicate EndsOnLine(file: seq<byte>) { DropCR(Tail(file)) == [] }

  predicate Storable(c: Codec, file: seq<byte>, s: Record) {
    && |Tail(file)| + |c.enc(s)| < MAX_TOKEN
    && c.dec(c.enc(s)) == Some(s)
  }

  /** A record appended to a file that opens is read back as the next record of the
    * chain iff the file ended on a line, the new line is under the scanner's limit
    * and its text survives the encoding. */
  lemma AppendReadsBackIff(h: Hasher, c: Codec, file: seq<byte>, s: Record)
    requires JsonLines(c)
    requires !ScanFile(h, c, file).broken && Follows(h, ScanFile(h, c, file).good, s)
    ensures ScanFile(h, c, file + c.enc(s) + [LF]) == Scan(ScanFile(h, c, file).good + [s], false)
       <==> EndsOnLine(file) && Storable(c, file, s)
  {
    var done, tail, line := Complete(file), Tail(file), c.enc(s);
    hide Complete, Tail, Follows, ScanLines, ScanLine;
    WriteLine(file, line);
    assert RawLines(file + line + [LF]) == done + [tail + line];
    assert RawLines(file) == if tail == [] then done else done + [tail];
    ScanConcat(h, c, done, [tail + line], []);
    ScanConcat(h, c, done, [tail], []);
    var first := ScanLines(h, c, done, []);
    OneScanned(h, c, tail, first.good);
    OneScanned(h, c, tail + line, first.good);
    GluedTail(c, tail, s);
    if DropCR(tail) == [] { OneLine(h, c, tail + line, first.good, s); }
  }

  lemma OneScanned(h: Hasher, c: Codec, line: seq<byte>, before: seq<Record>)
    ensures var s := ScanLines(h, c, [line], before);
      && s == ScanLine(h, c, line, before)
      && (DropCR(line) != [] && c.dec(DropCR(line)).None? ==> s.broken)
      && (DropCR(line) == [] && |line| < MAX_TOKEN ==> s == Scan(before, false))
  {
  }

  // The new line's text, behind what was left after the last line feed.
  lemma GluedTail(c: Codec, tail: seq<byte>, s: Record)
    requires JsonLines(c)
    ensures var line := c.enc(s);
      && DropCR(tail + line) == tail + line != []
      && (DropCR(tail) == [] ==> c.dec(tail + line) == c.dec(line))
      && (DropCR(tail) != [] && c.dec(DropCR(tail)).Some? ==> c.dec(tail + line).None?)
  {
    assert DropCR(c.enc(s)) == c.enc(s);
    if tail == [] { assert tail + c.enc(s) == c.enc(s); } else if DropCR(tail) == [] { assert tail == [CR]; }
  }

  lemma OneLine(h: Hasher, c: Codec, line: seq<byte>, before: seq<Record>, s: Record)
    requires DropCR(line) == line != [] && Follows(h, before, s)
    ensures ScanLines(h, c, [line], before) == Scan(before + [s], false)
       <==> |line| < MAX_TOKEN && c.dec(line) == Some(s)
  {
    if |line| < MAX_TOKEN && c.dec(line).Some? && Follows(h, before, c.dec(line).value) {
      var r := c.dec(line).value;
      assert ScanLines(h, c, [line], before) == Scan(before + [r], false);
      assert (before + [r])[|before|] == r && (before + [s])[|before|] == s;
    }
  }

  /** A journal whose last record lost its line feed opens, and the next append destroys it. */
  lemma UnterminatedFileBreaks(h: Hasher, c: Codec, a: Record, s: Record)
    requires JsonLines(c) && |c.enc(a)| < MAX_TOKEN && c.dec(c.enc(a)) == Some(a)
    requires Follows(h, [], a) && Follows(h, [a], s)
    ensures ScanFile(h, c, c.enc(a)) == Scan([a], false)
    ensures ScanFile(h, c, c.enc(a) + c.enc(s) + [LF]) == Scan([], true)
  {
    var line := c.enc(a);
    WriteText([], line);
    assert [] + line == line;
    assert RawLines(line) == [line];
    OneLine(h, c, line, [], a);
    WriteLine(line, c.enc(s));
    assert RawLines(line + c.enc(s) + [LF]) == [line + c.enc(s)];
    assert DropCR(line + c.enc(s)) == line + c.enc(s);
  }

  // How the file system takes one line: to the end, up to some byte, or without a sync.
  datatype FileIo = Kept | Torn(bytes: nat) | Unsynced

  function Line(c: Codec, s: Record): seq<byte> { c.enc(s) + [LF] }

  function Written(c: Codec, s: Record, io: FileIo): (n: nat)
    ensures n <= |Line(c, s)|
  {
    if io.Torn? then Min(io.bytes, |Line(c, s)|) else |Line(c, s)|
  }

  // What one Append leaves in the file.
  function Left(c: Codec, file: seq<byte>, s: Record, io: FileIo): seq<byte> {
    file + Line(c, s)[..Written(c, s, io)]
  }

  // The memory and the file still agree.
  predicate Clean(c: Codec, s: Record, io: FileIo) { io == Kept || Written(c, s, io) == 0 }

  // What the journal has in memory after one Append.
  function Remembered(good: seq<Record>, s: Record, io: FileIo): seq<Record> {
    if io == Kept then good + [s] else good
  }

  // The next line is glued to what stands after the last line feed, and no longer decodes.
  lemma GluedBreaks(h: Hasher, c: Codec, file: seq<byte>, glue: seq<byte>, next: Record)
    requires JsonLines(c) && EndsOnLine(file) && !ScanFile(h, c, file).broken
    requires LF !in glue && c.dec(glue + c.enc(next)).None?
    ensures ScanFile(h, c, file + glue + Line(c, next)).broken
  {
    var done, tail, line := Complete(file), Tail(file), glue + c.enc(next);
    WriteLine(file, line);
    assert file + line + [LF] == file + glue + Line(c, next);
    assert RawLines(file + line + [LF]) == done + [tail + line];
    assert RawLines(file) == if tail == [] then done else done + [tail];
    ScanConcat(h, c, done, [tail + line], []);
    ScanConcat(h, c, done, [tail], []);
    assert tail + line == line || tail + line == [CR] + line;
    assert DropCR(tail + line) == tail + line;
  }

  // The number the next line carries has been used.
  lemma RepeatBreaks(h: Hasher, c: Codec, file: seq<byte>, next: Record)
    requires JsonLines(c) && Tail(file) == [] && !ScanFile(h, c, file).broken
    requires next.body.seqNo != |ScanFile(h, c, file).good| + 1
    ensures ScanFile(h, c, file + Line(c, next)).broken
  {
    WriteLine(file, c.enc(next));
    assert file + c.enc(next) + [LF] == file + Line(c, next);
    assert [] + c.enc(next) == c.enc(next);
    assert RawLines(file) == Complete(file);
    assert RawLines(file + Line(c, next)) == Complete(file) + [c.enc(next)];
    ScanConcat(h, c, Complete(file), [c.enc(next)], []);
  }

  /** After one Append to a file that opens and ends on a line, the next one leaves a file that
    * opens iff the first was kept or not one byte of its line was written. If the line was torn
    * the next one is glued to what there is of it; if the whole line is there, the memory is
    * behind the file and the next line repeats its number. */
  lemma NextAppendIff(h: Hasher, c: Codec, file: seq<byte>, s: Record, io: FileIo, next: Record)
    requires JsonLines(c) && EndsOnLine(file) && !ScanFile(h, c, file).broken
    requires Follows(h, ScanFile(h, c, file).good, s) && Storable(c, file, s)
    requires Follows(h, Remembered(ScanFile(h, c, file).good, s, io), next)
    ensures !Clean(c, s, io) ==> ScanFile(h, c, Left(c, file, s, io) + Line(c, next)).broken
    ensures Storable(c, file, next) ==>
      (!ScanFile(h, c, Left(c, file, s, io) + Line(c, next)).broken <==> Clean(c, s, io))
  {
    var good, n := ScanFile(h, c, file).good, Written(c, s, io);
    hide ScanFile, JsonLines, Complete, Tail, EndsOnLine, Follows;
    if n == 0 {
      assert Left(c, file, s, io) == file;
      OpensAgain(h, c, file, next);
    } else if n < |c.enc(s)| {
      TornText(c, s, next, n);
      assert Line(c, s)[..n] == c.enc(s)[..n];
      GluedBreaks(h, c, file, c.enc(s)[..n], next);
    } else if n == |c.enc(s)| {
      WholeText(c, s, next);
      assert Line(c, s)[..n] == c.enc(s);
      GluedBreaks(h, c, file, c.enc(s), next);
    } else {
      assert Left(c, file, s, io) == file + c.enc(s) + [LF];
      OpensAgain(h, c, file, s);
      WholeLine(c, file, s, next);
      if io == Kept {
        OpensAgain(h, c, file + c.enc(s) + [LF], next);
      } else {
        SameNumber(h, good, s, next);
        RepeatBreaks(h, c, file + c.enc(s) + [LF], next);
      }
    }
  }

  lemma OpensAgain(h: Hasher, c: Codec, file: seq<byte>, s: Record)
    requires JsonLines(c) && EndsOnLine(file) && !ScanFile(h, c, file).broken
    requires Follows(h, ScanFile(h, c, file).good, s)
    ensures Storable(c, file, s) ==>
      ScanFile(h, c, file + Line(c, s)) == Scan(ScanFile(h, c, file).good + [s], false)
    ensures file + Line(c, s) == file + c.enc(s) + [LF]
  {
    hide ScanFile;
    AppendReadsBackIff(h, c, file, s);
    assert file + Line(c, s) == file + c.enc(s) + [LF];
  }

  lemma TornText(c: Codec, s: Record, next: Record, n: nat)
    requires JsonLines(c) && 0 < n < |c.enc(s)|
    ensures LF !in c.enc(s)[..n] && c.dec(c.enc(s)[..n] + c.enc(next)).None?
  {
  }

  lemma WholeText(c: Codec, s: Record, next: Record)
    requires JsonLines(c) && c.dec(c.enc(s)).Some?
    ensures LF !in c.enc(s) && c.dec(c.enc(s) + c.enc(next)).None?
  {
    assert DropCR(c.enc(s)) == c.enc(s);
  }

  lemma WholeLine(c: Codec, file: seq<byte>, s: Record, next: Record)
    requires JsonLines(c)
    ensures Tail(file + c.enc(s) + [LF]) == [] && EndsOnLine(file + c.enc(s) + [LF])
    ensures Storable(c, file, next) ==> Storable(c, file + c.enc(s) + [LF], next)
  {
    WriteLine(file, c.enc(s));
  }

  lemma SameNumber(h: Hasher, good: seq<Record>, s: Record, next: Record)
    requires Follows(h, good, s) && Follows(h, good, next)
    ensures next.body.seqNo != |good + [s]| + 1
  {
  }

  // What a run of successful appends leaves in the file.
  function AppendAll(h: Hasher, c: Codec, file: seq<byte>, recs: seq<Body>): seq<byte>
    decreases |recs|
  {
    if recs == [] then file
    else AppendAll(h, c, file + c.enc(NextSealed(h, c, file, recs[0])) + [LF], recs[1..])
  }

  function NextSealed(h: Hasher, c: Codec, file: seq<byte>, rec: Body): Record {
    var good := ScanFile(h, c, file).good;
    if |good| < MAX_INT then Seal(h, rec, |good| + 1, HeadOf(good)) else Record(rec, h(rec))
  }

  predicate AllStorable(h: Hasher, c: Codec, file: seq<byte>, recs: seq<Body>)
    decreases |recs|
  {
    recs == [] ||
    var s := NextSealed(h, c, file, recs[0]);
    && Storable(c, file, s) && ValidOutcome(s.body.outcome) && ValidSource(s.body.source)
    && AllStorable(h, c, file + c.enc(s) + [LF], recs[1..])
  }

  /** From any file that opens and ends on a line, a run of appends whose lines read back
    * leaves a file that opens with all the old records and one more for each append. */
  lemma {:induction false} RunOfAppends(h: Hasher, c: Codec, file: seq<byte>, recs: seq<Body>)
    requires JsonLines(c) && EndsOnLine(file) && !ScanFile(h, c, file).broken
    requires AllStorable(h, c, file, recs) && |ScanFile(h, c, file).good| + |recs| <= MAX_INT
    ensures var before, after := ScanFile(h, c, file), ScanFile(h, c, AppendAll(h, c, file, recs));
      && !after.broken && before.good <= after.good
      && |after.good| == |before.good| + |recs|
    ensures EndsOnLine(AppendAll(h, c, file, recs))
    decreases |recs|
  {
    if recs != [] {
      var s := NextSealed(h, c, file, recs[0]);
      AppendReadsBackIff(h, c, file, s);
      WriteLine(file, c.enc(s));
      RunOfAppends(h, c, file + c.enc(s) + [LF], recs[1..]);
    }
  }

  // What the file holds after the sealed line, when the memory was right.
  lemma AppendedRight(h: Hasher, c: Codec, file: seq<byte>, rec: Body, sealed: Record)
    requires !ScanFile(h, c, file).broken && |ScanFile(h, c, file).good| < MAX_INT
    requires ValidOutcome(rec.outcome) && ValidSource(rec.source)
    requires var good := ScanFile(h, c, file).good; sealed == Seal(h, rec, |good| + 1, HeadOf(good))
    ensures var good := ScanFile(h, c, file).good;
      && Follows(h, good, sealed)
      && HeadOf(good + [sealed]) == sealed.hash
      && (JsonLines(c) && EndsOnLine(file) && Storable(c, file, sealed) ==>
            ScanFile(h, c, file + c.enc(sealed) + [LF]) == Scan(good + [sealed], false) && EndsOnLine(file + c.enc(sealed) + [LF]))
  {
    hide ScanFile;
    if JsonLines(c) && EndsOnLine(file) && Storable(c, file, sealed) {
      AppendReadsBackIff(h, c, file, sealed);
      WriteLine(file, c.enc(sealed));
    }
  }

  // ---- The journal ----

  // What Append makes of the caller's record before sealing it.
  function ByExecutor(rec: Body, stamped: bool, now: int64): Body {
    rec.(source := SOURCE_EXECUTOR, ts := if stamped then rec.ts else now)
  }

  /** The line of a record that can be written is in the file behind what was there: all of it,
    * or as many bytes as the file system took. It is a success iff it was all taken and synced. */
  predicate AppendedAs(c: Codec, before: seq<byte>, after: seq<byte>, s: Record, valid: bool, io: FileIo, res: Result<Record, AppendError>) {
    var line := c.enc(s) + [10];
    var written := valid && |before| + |line| <= MAX_INT;
    && (!written ==> after == before)
    && (written ==> after == before + (if io.Torn? && io.bytes < |line| then line[..io.bytes] else line))
    && (res.Ok? <==> written && io == Kept)
    && (res == Err(SyncFailed) <==> written && io == Unsynced)
    && (res == Err(WriteFailed) <==> valid && !(written && !io.Torn?))
  }

  datatype AppendError = NoAction | InvalidOutcome | WriteFailed | SyncFailed

  class Journal {
    const h: Hasher
    const codec: Codec
    var file: FileBytes
    var head: Digest
    var lastSeq: uint64

    constructor (h: Hasher, codec: Codec, file: FileBytes)
      ensures this.h == h && this.codec == codec && this.file == file
    {
      this.h, this.codec, this.file := h, codec, file;
      head, lastSeq := GENESIS, 0;
    }

    ghost function Scanned(): Scan
      reads this
    {
      ScanFile(h, codec, file)
    }

    // The memory agrees with the file, and the file is a chain.
    ghost predicate Valid()
      reads this
    {
      && !Scanned().broken
      && head == HeadOf(Scanned().good)
      && lastSeq == |Scanned().good|
    }

    // The body both scanning loops share: decode one line and verify its record.
    method NextLine(v: Verifier, line: seq<byte>) returns (rec: Option<Record>, ok: bool)
      requires v.h == h && v.Valid() && |v.accepted| < MAX_INT
      modifies v
      ensures v.Valid()
      ensures Scan(v.accepted, !ok) == ScanLine(h, codec, line, old(v.accepted))
      ensures v.accepted == if rec.Some? then old(v.accepted) + [rec.value] else old(v.accepted)
      ensures rec.Some? ==> ok && rec.value.body.seqNo == |v.accepted|
    {
      if |line| >= MAX_TOKEN { return None, false; }
      var token := DropCR(line);
      if token == [] { return None, true; }
      var r := codec.dec(token);
      if r.None? { return None, false; }
      var err := v.Next(r.value);
      if err.Some? { return None, false; }
      return r, true;
    }

    /** Opening succeeds iff every line is a record of one valid chain; it finds the
      * head that was in memory before. */
    method LoadAndVerify() returns (ok: bool)
      modifies `head, `lastSeq
      ensures ok <==> !Scanned().broken
      ensures ok ==> Valid()
      ensures old(Valid()) ==> ok && head == old(head) && lastSeq == old(lastSeq)
      ensures !ok ==> head == old(head) && lastSeq == old(lastSeq)
    {
      var lines := RawLines(file);
      LinesFit(file);
      ghost var all := ScanLines(h, codec, lines, []);
      var v := new Verifier(h);
      assert lines[0..] == lines;
      for i := 0 to |lines|
        invariant fresh(v) && v.h == h && v.Valid() && |v.accepted| <= i
        invariant all == ScanLines(h, codec, lines[i..], v.accepted)
        invariant head == old(head) && lastSeq == old(lastSeq)
      {
        ScanFrom(h, codec, lines, i, v.accepted);
        var _, good := NextLine(v, lines[i]);
        if !good { return false; }
      }
      assert lines[|lines|..] == [];
      head := v.prev;
      lastSeq := v.nextSeq - 1;
      return true;
    }

    // The record Append seals, from what is in memory.
    function Sealed(rec: Body, stamped: bool, now: int64): Record
      requires lastSeq < MAX_INT
      reads this
    {
      Seal(h, ByExecutor(rec, stamped, now), lastSeq + 1, head)
    }

    /** Appends the sealed record as one line. If the memory was right and the record
      * reads back (AppendReadsBackIff), the memory is right afterwards. A write that fails may
      * leave part of the line in the file, a sync that fails all of it; the memory stays, and
      * NextAppendIff says what becomes of the file. */
    method Append(rec: Body, stamped: bool, now: int64, io: FileIo) returns (res: Result<Record, AppendError>)
      requires lastSeq < MAX_INT
      modifies `file, `head, `lastSeq
      ensures res == Err(NoAction) <==> rec.action == []
      ensures res == Err(InvalidOutcome) <==> rec.action != [] && !ValidOutcome(rec.outcome)
      ensures var body := rec.(source := 2, ts := if stamped then rec.ts else now, seqNo := old(lastSeq) + 1, prevHash := old(head));
        AppendedAs(codec, old(file), file, Record(body, h(body)), rec.action != [] && 1 <= rec.outcome <= 3, io, res)
        && (res.Ok? ==> res.value.body == body && res.value.hash == head == h(body) && lastSeq == old(lastSeq) + 1)
      ensures res.Err? ==> head == old(head) && lastSeq == old(lastSeq)
      ensures res.Ok? && old(Valid()) ==> Follows(h, old(Scanned().good), res.value)
      ensures res.Ok? && old(Valid()) && JsonLines(codec) && EndsOnLine(old(file)) && Storable(codec, old(file), res.value) ==>
        Valid() && EndsOnLine(file) && Scanned().good == old(Scanned().good) + [res.value]
    {
      hide ScanFile, JsonLines, Follows, Tail, Complete, ValidChain, EndsOnLine, Storable, HeadOf;
      if rec.action == [] { return Err(NoAction); }
      if !ValidOutcome(rec.outcome) { return Err(InvalidOutcome); }
      var sealed := Sealed(rec, stamped, now);
      assert sealed == Record(sealed.body, h(sealed.body));
      if Valid() { AppendedRight(h, codec, file, ByExecutor(rec, stamped, now), sealed); }
      var line := Line(codec, sealed);
      if |file| + |line| > MAX_INT { return Err(WriteFailed); }
      assert line[..|line|] == line && file + line == file + codec.enc(sealed) + [LF];
      file := file + line[..Written(codec, sealed, io)];
      if io.Torn? { return Err(WriteFailed); }
      if io.Unsynced? { return Err(SyncFailed); }
      head := sealed.hash;
      lastSeq := sealed.body.seqNo;
      return Ok(sealed);
    }

    /** The records after afterSeq, at most limit of them, each verified from the
      * start of the file while reading; an error iff a fault is met before that. */
    method Read(afterSeq: uint64, limit: int) returns (res: Option<seq<Record>>)
      ensures res == ReadResult(Scanned(), afterSeq, if limit <= 0 then 100 else limit)
      ensures ReadIs(Scanned(), afterSeq, if limit <= 0 then 100 else limit, res)
    {
      hide ValidChain, Follows, ScanLine, RawLines, ScanLines;
      var most := if limit <= 0 then 100 else limit;
      ReadResultIs(Scanned(), afterSeq, most);
      var lines := RawLines(file);
      LinesFit(file);
      ghost var all := ScanLines(h, codec, lines, []);
      var v := new Verifier(h);
      var out: seq<Record> := [];
      assert lines[0..] == lines;
      for i := 0 to |lines|
        invariant fresh(v) && v.h == h && v.Valid() && |v.accepted| <= i
        invariant all == ScanLines(h, codec, lines[i..], v.accepted)
        invariant out == From(v.accepted, afterSeq) && |out| < most
      {
        ShortPage(h, codec, lines, i, v.accepted, afterSeq, most);
        ghost var before := v.accepted;
        var rec, good := NextLine(v, lines[i]);
        if !good { return None; }
        if rec.Some? {
          FromExtend(before, rec.value, afterSeq);
          if rec.value.body.seqNo > afterSeq {
            out := out + [rec.value];
            if |out| >= most {
              FullPage(h, codec, lines[i + 1..], v.accepted, afterSeq, most);
              return Some(out);
            }
          }
        }
      }
      assert lines[|lines|..] == [];
      ScanNothing(h, codec, v.accepted);
      return Some(out);
    }
  }

  lemma ScanNothing(h: Hasher, c: Codec, before: seq<Record>)
    ensures ScanLines(h, c, [], before) == Scan(before, false)
  {
  }

  lemma ShortPage(h: Hasher, c: Codec, lines: seq<seq<byte>>, i: nat, before: seq<Record>, after: nat, limit: nat)
    requires i < |lines| && |From(before, after)| < limit
    ensures var s, all := ScanLine(h, c, lines[i], before), ScanLines(h, c, lines[i..], before);
      if s.broken then ReadResult(all, after, limit) == None else all == ScanLines(h, c, lines[i + 1..], s.good)
  {
    ScanFrom(h, c, lines, i, before);
  }

  lemma FullPage(h: Hasher, c: Codec, lines: seq<seq<byte>>, before: seq<Record>, after: nat, limit: nat)
    requires limit > 0 && |From(before, after)| == limit
    ensures ReadResult(ScanLines(h, c, lines, before), after, limit) == Some(From(before, after))
  {
    ScanKeeps(h, c, lines, before);
    var good := ScanLines(h, c, lines, before).good;
    assert good[..|before|] == before;
    assert good[after..after + limit] == before[after..];
  }

  function From(rs: seq<Record>, after: nat): seq<Record> {
    if after <= |rs| then rs[after..] else []
  }

  lemma FromExtend(rs: seq<Record>, r: Record, after: nat)
    ensures From(rs + [r], after) == if |rs| + 1 > after then From(rs, after) + [r] else From(rs, after)
  {
  }

  /** A full page if that many records verify; otherwise the rest of the file, or an
    * error when a fault stands before its end. */
  function ReadResult(s: Scan, after: nat, limit: nat): Option<seq<Record>> {
    if after + limit <= |s.good| then Some(s.good[after..after + limit])
    else if s.broken then None
    else Some(From(s.good, after))
  }

  // The answer, place by place: an error iff a fault stands before the page is full.
  predicate ReadIs(s: Scan, after: nat, most: nat, res: Option<seq<Record>>) {
    && (res.None? <==> s.broken && |s.good| < after + most)
    && (res.Some? && after <= |s.good| ==> |res.value| == Min(most, |s.good| - after))
    && (res.Some? && after > |s.good| ==> res.value == [])
    && (res.Some? ==> forall i :: 0 <= i < |res.value| ==> after + i < |s.good| && res.value[i] == s.good[after + i])
  }

  lemma ReadResultIs(s: Scan, after: nat, most: nat)
    requires most > 0
    ensures ReadIs(s, after, most, ReadResult(s, after, most))
  {
  }

  // One call of Append, and the record it seals when the memory is right.
  datatype Call = Call(rec: Body, stamped: bool, now: int64)

  function Bodies(calls: seq<Call>): (bs: seq<Body>)
    ensures |bs| == |calls| && forall i :: 0 <= i < |calls| ==> bs[i] == ByExecutor(calls[i].rec, calls[i].stamped, calls[i].now)
  {
    if calls == [] then [] else [ByExecutor(calls[0].rec, calls[0].stamped, calls[0].now)] + Bodies(calls[1..])
  }

  lemma StorableStep(h: Hasher, c: Codec, file: seq<byte>, recs: seq<Body>)
    requires recs != [] && AllStorable(h, c, file, recs)
    ensures var s := NextSealed(h, c, file, recs[0]);
      && Storable(c, file, s) && ValidOutcome(s.body.outcome) && |c.enc(s)| < MAX_TOKEN
      && AllStorable(h, c, file + c.enc(s) + [LF], recs[1..])
      && AppendAll(h, c, file, recs) == AppendAll(h, c, file + c.enc(s) + [LF], recs[1..])
  {
  }

  lemma SealedNext(h: Hasher, c: Codec, file: seq<byte>, rec: Body)
    requires |ScanFile(h, c, file).good| < MAX_INT
    ensures NextSealed(h, c, file, rec) == Seal(h, rec, |ScanFile(h, c, file).good| + 1, HeadOf(ScanFile(h, c, file).good))
    ensures NextSealed(h, c, file, rec).body.outcome == rec.outcome
  {
  }

  // One call on a working file system: done as it should be, or refused without a trace.
  method AppendCall(j: Journal, c: Call) returns (ok: bool)
    requires j.Valid() && JsonLines(j.codec) && EndsOnLine(j.file) && j.lastSeq < MAX_INT
    requires ValidOutcome(c.rec.outcome)
    requires Storable(j.codec, j.file, NextSealed(j.h, j.codec, j.file, ByExecutor(c.rec, c.stamped, c.now)))
    modifies j
    ensures j.Valid() && EndsOnLine(j.file)
    ensures ok ==> j.lastSeq == old(j.lastSeq) + 1
    ensures ok ==>
      j.file == old(j.file) + j.codec.enc(NextSealed(j.h, j.codec, old(j.file), ByExecutor(c.rec, c.stamped, c.now))) + [LF]
    ensures old(j.Scanned().good) <= j.Scanned().good
    ensures !ok ==> j.file == old(j.file) && j.lastSeq == old(j.lastSeq)
    ensures !ok ==> c.rec.action == [] || |j.file| + MAX_TOKEN > MAX_INT
  {
    hide ScanFile, JsonLines, Follows, Tail, Complete, ValidChain, NextSealed, EndsOnLine, HeadOf;
    SealedNext(j.h, j.codec, j.file, ByExecutor(c.rec, c.stamped, c.now));
    ghost var s := NextSealed(j.h, j.codec, j.file, ByExecutor(c.rec, c.stamped, c.now));
    assert |j.codec.enc(s)| < MAX_TOKEN;
    var res := j.Append(c.rec, c.stamped, c.now, Kept);
    if res.Ok? {
      assert res.value == s;
      return true;
    }
    return false;
  }

  /** From any journal that opens and ends on a line: while the file system works and every line
    * reads back, the head and the number in memory are those of the file after any number of
    * calls, so opening it again finds them. Only a call without an action, or a file grown to
    * the limit, is refused. */
  method AppendAllCalls(j: Journal, calls: seq<Call>) returns (done: nat)
    requires j.Valid() && JsonLines(j.codec) && EndsOnLine(j.file)
    requires AllStorable(j.h, j.codec, j.file, Bodies(calls)) && j.lastSeq + |calls| <= MAX_INT
    modifies j
    ensures j.Valid() && EndsOnLine(j.file) && done <= |calls|
    ensures j.lastSeq == old(j.lastSeq) + done
    ensures old(j.Scanned().good) <= j.Scanned().good
    ensures done == |calls| ==> j.file == AppendAll(j.h, j.codec, old(j.file), Bodies(calls))
    ensures done < |calls| ==> calls[done].rec.action == [] || |j.file| + MAX_TOKEN > MAX_INT
  {
    hide ScanFile, JsonLines, Follows, Tail, Complete, ValidChain, Storable, AllStorable, AppendAll, NextSealed, EndsOnLine, HeadOf, ByExecutor, Bodies, ValidOutcome;
    done := 0;
    ghost var file0, good0, seq0 := j.file, j.Scanned().good, j.lastSeq;
    ghost var bodies := Bodies(calls);
    assert bodies[0..] == bodies;
    while done < |calls|
      invariant j.Valid() && EndsOnLine(j.file) && done <= |calls| && j.lastSeq == seq0 + done
      invariant AllStorable(j.h, j.codec, j.file, bodies[done..])
      invariant AppendAll(j.h, j.codec, j.file, bodies[done..]) == AppendAll(j.h, j.codec, file0, bodies)
      invariant good0 <= j.Scanned().good
    {
      var c := calls[done];
      assert bodies[done..][0] == bodies[done] && bodies[done..][1..] == bodies[done + 1..];
      StorableStep(j.h, j.codec, j.file, bodies[done..]);
      SealedNext(j.h, j.codec, j.file, bodies[done]);
      SameOutcome(c.rec, c.stamped, c.now);
      var ok := AppendCall(j, c);
      if !ok { return done; }
      done := done + 1;
    }
    assert bodies[|calls|..] == [];
    NoMore(j.h, j.codec, j.file);
  }

  lemma SameOutcome(rec: Body, stamped: bool, now: int64)
    ensures ByExecutor(rec, stamped, now).outcome == rec.outcome
  {
  }

  lemma NoMore(h: Hasher, c: Codec, file: seq<byte>)
    ensures AppendAll(h, c, file, []) == file
  {
  }

  // The record a call seals behind these.
  function SealedBehind(h: Hasher, good: seq<Record>, c: Call): Record {
    if |good| < MAX_INT then Seal(h, ByExecutor(c.rec, c.stamped, c.now), |good| + 1, HeadOf(good)) else Record(c.rec, h(c.rec))
  }

  lemma SealedFollows(h: Hasher, good: seq<Record>, c: Call)
    requires |good| < MAX_INT && ValidOutcome(c.rec.outcome)
    ensures Follows(h, good, SealedBehind(h, good, c)) && HeadOf(good + [SealedBehind(h, good, c)]) == SealedBehind(h, good, c).hash
  {
  }

  /** Two calls on a journal that is right and ends on a line, the second on a working file
    * system; then the journal is opened again. It opens iff the first call was kept, or left not
    * one byte of its line. */
  method ReopensAfterTwo(j: Journal, first: Call, io: FileIo, second: Call) returns (opens: bool)
    requires j.Valid() && JsonLines(j.codec) && EndsOnLine(j.file) && j.lastSeq + 2 <= MAX_INT
    requires first.rec.action != [] && ValidOutcome(first.rec.outcome)
    requires second.rec.action != [] && ValidOutcome(second.rec.outcome)
    requires var good := j.Scanned().good;
      var s := SealedBehind(j.h, good, first);
      var next := SealedBehind(j.h, Remembered(good, s, io), second);
      && Storable(j.codec, j.file, s) && Storable(j.codec, j.file, next)
      && |j.file| + |Line(j.codec, s)| + |Line(j.codec, next)| <= MAX_INT
    modifies j
    ensures opens <==> Clean(j.codec, SealedBehind(j.h, old(j.Scanned().good), first), io)
  {
    hide ScanFile, JsonLines, Follows, Tail, Complete, ValidChain, EndsOnLine, Storable, HeadOf, Seal;
    ghost var file, good := j.file, j.Scanned().good;
    ghost var s := SealedBehind(j.h, good, first);
    ghost var next := SealedBehind(j.h, Remembered(good, s, io), second);
    SealedFollows(j.h, good, first);
    SealedFollows(j.h, Remembered(good, s, io), second);
    NextAppendIff(j.h, j.codec, file, s, io, next);
    SealedRecord(j, first, s);
    var a := j.Append(first.rec, first.stamped, first.now, io);
    LeftBehind(j.codec, file, j.file, s, io, a);
    assert j.lastSeq == |Remembered(good, s, io)| && j.head == HeadOf(Remembered(good, s, io));
    SealedRecord(j, second, next);
    ghost var between := j.file;
    var b := j.Append(second.rec, second.stamped, second.now, Kept);
    LeftBehind(j.codec, between, j.file, next, Kept, b);
    WholeWritten(j.codec, Left(j.codec, file, s, io), next);
    opens := j.LoadAndVerify();
  }

  lemma SealedRecord(j: Journal, c: Call, s: Record)
    requires j.lastSeq < MAX_INT
    requires exists good :: |good| == j.lastSeq && HeadOf(good) == j.head && s == SealedBehind(j.h, good, c)
    ensures var body := c.rec.(source := 2, ts := if c.stamped then c.rec.ts else c.now, seqNo := j.lastSeq + 1, prevHash := j.head);
      s == Record(body, j.h(body))
  {
  }

  lemma LeftBehind(c: Codec, before: seq<byte>, after: seq<byte>, s: Record, io: FileIo, res: Result<Record, AppendError>)
    requires AppendedAs(c, before, after, s, true, io, res) && |before| + |Line(c, s)| <= MAX_INT
    ensures after == Left(c, before, s, io)
  {
    assert Line(c, s)[..|Line(c, s)|] == Line(c, s);
  }

  lemma WholeWritten(c: Codec, file: seq<byte>, s: Record)
    ensures Left(c, file, s, Kept) == file + Line(c, s)
  {
    assert Line(c, s)[..|Line(c, s)|] == Line(c, s);
  }
}
