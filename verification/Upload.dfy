/** The server's side of the resumable upload in internal/bootstrap/upload.go: the part file
  * under writers whose sessions may long be dead, the digest check, and the install. */
module Upload {
  import opened Wrappers
  import opened Bytes

  type Digest = seq<byte>
  type HashFn = seq<byte> -> Digest

  /** A dd process: where its next write goes, and which incarnation of the part file it has
    * open. Everything it writes comes from the archive, at the archive's own offsets. */
  datatype Writer = Writer(pos: nat, file: nat)

  // find -mtime +0 matches a file untouched for a whole day, in seconds.
  const DAY := 86400

  // An install under way: the incarnation of the part file its digest check read, the seconds
  // since, and what tar has read.
  datatype Run = Run(file: nat, elapsed: nat, read: Option<Content>)

  // What was read, whether it was the incarnation that had been checked, and how long after.
  datatype Content = Content(bytes: seq<byte>, checked: bool, after: nat)

  datatype Server = Server(
    part: Option<seq<byte>>,
    file: nat,                   // grows when the part file is removed
    age: nat,                    // seconds since the part file was made, written or truncated
    offered: set<nat>,           // the sizes the prepare step has reported
    writers: seq<Writer>,        // none ever leaves: a dead session's writer may still write
    run: Option<Run>,            // the install holding the lock
    done: Option<nat>,           // the exit code in the done marker
    checked: seq<seq<byte>>,     // history: what each digest check read
    installed: seq<Content>)     // history: what each install that ended with 0 had unpacked

  datatype Event =
    | Prepare                    // report the size of the part file
    | Open(off: nat)             // dd opens the file and seeks; off was reported earlier
    | Write(i: nat, n: nat)
    | Start
    | Unpack
    | InstallEnd(rc: nat)
    | InstallDies                // the process is gone and left no marker
    | Sweep                      // find -mtime +0 -delete, in anybody's prepare step
    | Pass(n: nat)               // n seconds pass

  function Size(s: Server): nat { if s.part.Some? then |s.part.value| else 0 }

  predicate Enabled(archive: seq<byte>, s: Server, e: Event) {
    match e
    case Prepare => true
    case Open(off) => off in s.offered && off < |archive|
    case Write(i, n) => i < |s.writers| && s.writers[i].pos + n <= |archive|
    case Start => s.run.None?
    case Unpack => s.run.Some? && s.part.Some?
    case InstallEnd(rc) => s.run.Some? && (rc == 0 ==> s.run.value.read.Some?)
    case InstallDies => s.run.Some?
    case Sweep => s.part.Some? && s.age >= DAY
    case Pass(_) => true
  }

  // A write beyond the end leaves a hole that reads as zeros; conv=notrunc keeps the rest.
  function Overwrite(f: seq<byte>, pos: nat, data: seq<byte>): seq<byte> {
    if data == [] then f
    else if pos > |f| then f + Zeros(pos - |f|) + data
    else f[..pos] + data + if pos + |data| < |f| then f[pos + |data|..] else []
  }

  function Zeros(n: nat): (z: seq<byte>)
    ensures |z| == n
  {
    if n == 0 then [] else [0] + Zeros(n - 1)
  }

  // truncate -c -s
  function Truncated(f: seq<byte>, size: nat): seq<byte> {
    if |f| >= size then f[..size] else f + Zeros(size - |f|)
  }

  function Removed(s: Server): Server { s.(part := None, file := s.file + 1) }

  function Next(h: HashFn, archive: seq<byte>, s: Server, e: Event): Server
    requires Enabled(archive, s, e)
  {
    match e
    case Prepare => s.(offered := s.offered + {Size(s)})
    case Open(off) =>
      var s' := s.(writers := s.writers + [Writer(off, s.file)]);
      if s.part.None? then s'.(part := Some([]), age := 0) else s'
    case Write(i, n) =>
      var w := s.writers[i];
      var s' := s.(writers := s.writers[i := w.(pos := w.pos + n)]);
      if w.file == s.file && s.part.Some?
      then s'.(part := Some(Overwrite(s.part.value, w.pos, archive[w.pos..w.pos + n])), age := if n == 0 then s.age else 0)
      else s'
    case Start =>
      if s.part.None? then Removed(s)
      else
        var f := Truncated(s.part.value, |archive|);
        var s' := s.(part := Some(f), age := 0, checked := s.checked + [f]);
        if h(f) == h(archive) then s'.(run := Some(Run(s.file, 0, None)), done := None) else Removed(s')
    case Unpack =>
      var r := s.run.value;
      s.(run := Some(r.(read := Some(Content(s.part.value, s.file == r.file, r.elapsed)))))
    case InstallEnd(rc) =>
      var s' := s.(run := None, done := Some(rc));
      if rc == 0 then Removed(s').(installed := s.installed + [s.run.value.read.value]) else s'
    case InstallDies => s.(run := None)
    case Sweep => Removed(s)
    case Pass(n) =>
      s.(age := s.age + n, run := if s.run.None? then None else Some(s.run.value.(elapsed := s.run.value.elapsed + n)))
  }

  predicate Runs(h: HashFn, archive: seq<byte>, s: Server, es: seq<Event>)
    decreases |es|
  {
    es == [] || (Enabled(archive, s, es[0]) && Runs(h, archive, Next(h, archive, s, es[0]), es[1..]))
  }

  function After(h: HashFn, archive: seq<byte>, s: Server, es: seq<Event>): Server
    requires Runs(h, archive, s, es)
    decreases |es|
  {
    if es == [] then s else After(h, archive, Next(h, archive, s, es[0]), es[1..])
  }

  lemma RunOne(h: HashFn, archive: seq<byte>, s: Server, e: Event, es: seq<Event>)
    requires Enabled(archive, s, e) && Runs(h, archive, Next(h, archive, s, e), es)
    ensures Runs(h, archive, s, [e] + es) && After(h, archive, s, [e] + es) == After(h, archive, Next(h, archive, s, e), es)
  {
    assert ([e] + es)[1..] == es;
  }

  lemma {:induction false} RunsConcat(h: HashFn, archive: seq<byte>, s: Server, es: seq<Event>, fs: seq<Event>)
    requires Runs(h, archive, s, es) && Runs(h, archive, After(h, archive, s, es), fs)
    ensures Runs(h, archive, s, es + fs) && After(h, archive, s, es + fs) == After(h, archive, After(h, archive, s, es), fs)
    decreases |es|
  {
    hide Next, Enabled;
    if es == [] {
      assert es + fs == fs;
    } else {
      RunsConcat(h, archive, Next(h, archive, s, es[0]), es[1..], fs);
      assert (es + fs)[1..] == es[1..] + fs;
    }
  }

  // Any leftover part file, of any content, may be there when a run begins.
  predicate Init(s: Server) {
    s.offered == {} && s.writers == [] && s.run == None && s.done == None && s.checked == [] && s.installed == []
  }

  // A digest check read something else than the archive with the archive's digest.
  predicate FoundCollision(h: HashFn, archive: seq<byte>, s: Server) {
    exists c :: c in s.checked && c != archive && h(c) == h(archive)
  }

  // ---- Only the archive is installed ----

  predicate ContentOk(archive: seq<byte>, c: Content) { c.checked || c.after < DAY ==> c.bytes == archive }

  predicate InstallOk(archive: seq<byte>, s: Server) {
    && (s.run.Some? ==> RunOk(archive, s, s.run.value))
    && (forall c :: c in s.installed ==> ContentOk(archive, c))
    && (s.done == Some(0) ==> s.installed != [])
  }

  predicate RunOk(archive: seq<byte>, s: Server, r: Run) {
    && r.file <= s.file && (r.file == s.file ==> s.part == Some(archive) && s.age <= r.elapsed)
    && (r.file < s.file ==> r.elapsed >= DAY)
    && (r.read.Some? ==> ContentOk(archive, r.read.value))
  }

  // Writing the archive's own bytes in place changes nothing.
  lemma RewriteSame(archive: seq<byte>, pos: nat, n: nat)
    requires pos + n <= |archive|
    ensures Overwrite(archive, pos, archive[pos..pos + n]) == archive
  {
  }

  lemma {:induction false} CollisionStays(h: HashFn, archive: seq<byte>, s: Server, es: seq<Event>)
    requires Runs(h, archive, s, es)
    ensures forall c :: c in s.checked ==> c in After(h, archive, s, es).checked
    decreases |es|
  {
    if es != [] { CollisionStays(h, archive, Next(h, archive, s, es[0]), es[1..]); }
  }

  lemma InstallStep(h: HashFn, archive: seq<byte>, s: Server, e: Event)
    requires Enabled(archive, s, e) && InstallOk(archive, s)
    ensures InstallOk(archive, Next(h, archive, s, e)) || FoundCollision(h, archive, Next(h, archive, s, e))
  {
    match e
    case Write(i, n) =>
      RewriteSame(archive, s.writers[i].pos, n);
    case Start =>
      if s.part.Some? {
        var f := Truncated(s.part.value, |archive|);
        assert f in Next(h, archive, s, e).checked;
      }
    case _ =>
  }

  lemma {:induction false} InstallsKeep(h: HashFn, archive: seq<byte>, s: Server, es: seq<Event>)
    requires InstallOk(archive, s) && Runs(h, archive, s, es)
    ensures InstallOk(archive, After(h, archive, s, es)) || FoundCollision(h, archive, After(h, archive, s, es))
    decreases |es|
  {
    hide Next, Enabled, InstallOk;
    if es != [] {
      var s' := Next(h, archive, s, es[0]);
      InstallStep(h, archive, s, es[0]);
      if InstallOk(archive, s') {
        InstallsKeep(h, archive, s', es[1..]);
      } else {
        CollisionStays(h, archive, s', es[1..]);
      }
    }
  }

  /** Whatever the part file went through, holes and dead writers included, and even while they
    * keep writing to it after the check: for a day after its digest check an install finds the
    * very file that was checked, and that is the archive; whatever an install that ended with 0
    * has unpacked within that day, or later from that same file, is the archive; or a digest
    * check has come upon a collision. */
  lemma OnlyTheArchiveIsInstalled(h: HashFn, archive: seq<byte>, s: Server, es: seq<Event>)
    requires Init(s) && Runs(h, archive, s, es)
    ensures var t := After(h, archive, s, es);
      || FoundCollision(h, archive, t)
      || ((forall c :: c in t.installed && (c.checked || c.after < DAY) ==> c.bytes == archive)
          && (t.run.Some? && t.run.value.elapsed < DAY ==> t.run.value.file == t.file && t.part == Some(archive)))
  {
    InstallsKeep(h, archive, s, es);
  }

  /** The day is the exact bound: from a fresh start, the sweep of a day later removes the file
    * under the install, a dead session's writer makes it anew, and tar reads other bytes. Whether
    * tar takes them is not modelled. */
  lemma SweptAfterADay(h: HashFn)
    ensures var archive: seq<byte> := [1, 2];
      var s := Server(Some([1]), 0, 0, {}, [], None, None, [], []);
      var es := [Prepare, Open(1), Write(0, 1), Start] + [Pass(DAY), Sweep, Open(1), Unpack];
      && Init(s) && Runs(h, archive, s, es)
      && After(h, archive, s, es).run == Some(Run(0, DAY, Some(Content([], false, DAY))))
  {
    var archive: seq<byte> := [1, 2];
    var s := Server(Some([1]), 0, 0, {}, [], None, None, [], []);
    hide Next, Enabled, Runs, After;
    UploadedRest(h);
    CheckedThenSwept(h);
    RunsConcat(h, archive, s, [Prepare, Open(1), Write(0, 1)], [Start] + [Pass(DAY), Sweep, Open(1), Unpack]);
    assert [Prepare, Open(1), Write(0, 1)] + ([Start] + [Pass(DAY), Sweep, Open(1), Unpack])
      == [Prepare, Open(1), Write(0, 1), Start] + [Pass(DAY), Sweep, Open(1), Unpack];
  }

  lemma CheckedThenSwept(h: HashFn)
    ensures var archive: seq<byte> := [1, 2];
      var s := Server(Some(archive), 0, 0, {1}, [Writer(2, 0)], None, None, [], []);
      var es := [Start] + [Pass(DAY), Sweep, Open(1), Unpack];
      && Runs(h, archive, s, es)
      && After(h, archive, s, es).run == Some(Run(0, DAY, Some(Content([], false, DAY))))
  {
    var archive: seq<byte> := [1, 2];
    var s := Server(Some(archive), 0, 0, {1}, [Writer(2, 0)], None, None, [], []);
    assert Truncated(archive, 2) == archive && [] + [archive] == [archive];
    var s1 := s.(run := Some(Run(0, 0, None)), checked := [archive]);
    assert Next(h, archive, s, Start) == s1;
    UnpacksAnother(h, s1);
    hide Next, Enabled;
    RunOne(h, archive, s, Start, [Pass(DAY), Sweep, Open(1), Unpack]);
  }

  lemma UnpacksAnother(h: HashFn, s: Server)
    requires s == Server(Some([1, 2]), 0, 0, {1}, [Writer(2, 0)], Some(Run(0, 0, None)), None, [[1, 2]], [])
    ensures var es := [Pass(DAY), Sweep, Open(1), Unpack];
      && Runs(h, [1, 2], s, es)
      && After(h, [1, 2], s, es).run == Some(Run(0, DAY, Some(Content([], false, DAY))))
  {
    var archive: seq<byte> := [1, 2];
    var s1 := Next(h, archive, s, Pass(DAY));
    var s2 := Next(h, archive, s1, Sweep);
    var s3 := Next(h, archive, s2, Open(1));
    var s4 := Next(h, archive, s3, Unpack);
    assert s4.run == Some(Run(0, DAY, Some(Content([], false, DAY))));
    assert Enabled(archive, s, Pass(DAY)) && Enabled(archive, s1, Sweep) && Enabled(archive, s2, Open(1)) && Enabled(archive, s3, Unpack);
    hide Next, Enabled;
    RunOne(h, archive, s3, Unpack, []);
    RunOne(h, archive, s2, Open(1), [Unpack] + []);
    RunOne(h, archive, s1, Sweep, [Open(1)] + ([Unpack] + []));
    RunOne(h, archive, s, Pass(DAY), [Sweep] + ([Open(1)] + ([Unpack] + [])));
    assert [Pass(DAY)] + ([Sweep] + ([Open(1)] + ([Unpack] + []))) == [Pass(DAY), Sweep, Open(1), Unpack];
  }

  // A leftover byte is found, and the rest is written behind it.
  lemma UploadedRest(h: HashFn)
    ensures var archive: seq<byte> := [1, 2];
      var s := Server(Some([1]), 0, 0, {}, [], None, None, [], []);
      var es := [Prepare, Open(1), Write(0, 1)];
      && Runs(h, archive, s, es)
      && After(h, archive, s, es) == Server(Some(archive), 0, 0, {1}, [Writer(2, 0)], None, None, [], [])
  {
    var archive: seq<byte> := [1, 2];
    var s := Server(Some([1]), 0, 0, {}, [], None, None, [], []);
    var s1 := s.(offered := {1});
    var s2 := s1.(writers := [Writer(1, 0)]);
    var s3 := s2.(part := Some(archive), writers := [Writer(2, 0)]);
    assert Next(h, archive, s, Prepare) == s1;
    assert [] + [Writer(1, 0)] == [Writer(1, 0)];
    assert Next(h, archive, s1, Open(1)) == s2;
    assert archive[1..2] == [2] && Overwrite([1], 1, [2]) == archive;
    assert [Writer(1, 0)][0 := Writer(2, 0)] == [Writer(2, 0)];
    assert Next(h, archive, s2, Write(0, 1)) == s3;
    hide Next, Enabled, Overwrite;
    RunOne(h, archive, s2, Write(0, 1), []);
    RunOne(h, archive, s1, Open(1), [Write(0, 1)] + []);
    RunOne(h, archive, s, Prepare, [Open(1)] + ([Write(0, 1)] + []));
    assert [Prepare] + ([Open(1)] + ([Write(0, 1)] + [])) == [Prepare, Open(1), Write(0, 1)];
  }

  // ---- Resuming ----

  // No writer of the present part file is beyond its end.
  predicate PrefixOk(archive: seq<byte>, s: Server) {
    && (s.part.Some? ==> s.part.value <= archive)
    && (forall w :: w in s.writers ==> w.file <= s.file && (w.file == s.file ==> s.part.Some? && w.pos <= |s.part.value|))
  }

  // A writer opens the file at an offset no larger than it is.
  predicate Orderly(s: Server, e: Event) { e.Open? ==> e.off <= Size(s) }

  lemma WritePrefix(archive: seq<byte>, f: seq<byte>, pos: nat, n: nat)
    requires f <= archive && pos <= |f| && pos + n <= |archive|
    ensures var f' := Overwrite(f, pos, archive[pos..pos + n]);
      f <= f' <= archive && pos + n <= |f'|
  {
    assert f == archive[..|f|];
    var f' := Overwrite(f, pos, archive[pos..pos + n]);
    if pos + n < |f| { assert f' == f; } else { assert f' == archive[..pos + n]; }
  }

  // The part file grows by appending to what is there, or is removed.
  predicate Grows(s: Server, s': Server) {
    s.file <= s'.file && (s.file == s'.file && s.part.Some? ==> s'.part.Some? && s.part.value <= s'.part.value)
  }

  lemma PrefixStep(h: HashFn, archive: seq<byte>, s: Server, e: Event)
    requires Enabled(archive, s, e) && Orderly(s, e) && PrefixOk(archive, s)
    ensures var s' := Next(h, archive, s, e);
      (PrefixOk(archive, s') && Grows(s, s')) || FoundCollision(h, archive, s')
  {
    match e
    case Write(i, n) =>
      assert s.writers[i] in s.writers;
      WriteStep(h, archive, s, i, n);
    case Start =>
      if s.part.Some? {
        var f := Truncated(s.part.value, |archive|);
        assert f in Next(h, archive, s, e).checked;
      }
    case _ =>
  }

  lemma WriteStep(h: HashFn, archive: seq<byte>, s: Server, i: nat, n: nat)
    requires Enabled(archive, s, Write(i, n)) && PrefixOk(archive, s)
    ensures PrefixOk(archive, Next(h, archive, s, Write(i, n))) && Grows(s, Next(h, archive, s, Write(i, n)))
  {
    var w := s.writers[i];
    assert w in s.writers;
    var s' := Next(h, archive, s, Write(i, n));
    if w.file == s.file { WritePrefix(archive, s.part.value, w.pos, n); }
    hide Overwrite;
    assert forall v :: v in s'.writers ==> v in s.writers || v == w.(pos := w.pos + n);
  }

  predicate RunsOrderly(h: HashFn, archive: seq<byte>, s: Server, es: seq<Event>)
    requires Runs(h, archive, s, es)
    decreases |es|
  {
    es == [] || (Orderly(s, es[0]) && RunsOrderly(h, archive, Next(h, archive, s, es[0]), es[1..]))
  }

  /** While writers open the part file no further than it reaches, it is always a prefix of
    * the archive, and what is in it stays until it is removed. */
  lemma {:induction false} PartIsPrefix(h: HashFn, archive: seq<byte>, s: Server, es: seq<Event>)
    requires PrefixOk(archive, s) && Runs(h, archive, s, es) && RunsOrderly(h, archive, s, es)
    ensures var t := After(h, archive, s, es);
      (PrefixOk(archive, t) && Grows(s, t)) || FoundCollision(h, archive, t)
    decreases |es|
  {
    hide Next, Enabled, PrefixOk, Orderly;
    if es != [] {
      var s' := Next(h, archive, s, es[0]);
      PrefixStep(h, archive, s, es[0]);
      if PrefixOk(archive, s') && Grows(s, s') {
        PartIsPrefix(h, archive, s', es[1..]);
      } else {
        CollisionStays(h, archive, s', es[1..]);
      }
    }
  }

  /** A writer that gets all its bytes through completes the archive, and the install starts. */
  lemma LastWriteCompletes(h: HashFn, archive: seq<byte>, s: Server, i: nat)
    requires PrefixOk(archive, s) && i < |s.writers| && s.writers[i].file == s.file && s.writers[i].pos <= |archive|
    ensures var e := Write(i, |archive| - s.writers[i].pos);
      && Enabled(archive, s, e) && Next(h, archive, s, e).part == Some(archive)
      && (s.run.None? ==> Next(h, archive, Next(h, archive, s, e), Start).run.Some?)
  {
    assert s.writers[i] in s.writers;
    WritePrefix(archive, s.part.value, s.writers[i].pos, |archive| - s.writers[i].pos);
    assert Next(h, archive, s, Write(i, |archive| - s.writers[i].pos)).part.value == archive;
    assert Truncated(archive, |archive|) == archive;
  }

  // ---- When the opens are orderly ----

  predicate OffersReached(s: Server) { forall off :: off in s.offered ==> off <= Size(s) }

  lemma OfferStep(h: HashFn, archive: seq<byte>, s: Server, e: Event)
    requires Enabled(archive, s, e) && OffersReached(s) && PrefixOk(archive, s)
    ensures var s' := Next(h, archive, s, e);
      s'.file == s.file ==> OffersReached(s') || FoundCollision(h, archive, s')
  {
    PrefixStep(h, archive, s, e);
    if e.Start? && s.part.Some? {
      assert Truncated(s.part.value, |archive|) in Next(h, archive, s, e).checked;
    }
  }

  lemma {:induction false} FileStays(h: HashFn, archive: seq<byte>, s: Server, es: seq<Event>)
    requires Runs(h, archive, s, es)
    ensures s.file <= After(h, archive, s, es).file
    decreases |es|
  {
    if es != [] { FileStays(h, archive, Next(h, archive, s, es[0]), es[1..]); }
  }

  /** Every open is orderly as long as the part file is not removed: a writer opens where an
    * earlier prepare found the end. Only a removal lets an old offer point past the end. */
  lemma {:induction false} OrderlyUntilRemoved(h: HashFn, archive: seq<byte>, s: Server, es: seq<Event>)
    requires PrefixOk(archive, s) && OffersReached(s) && Runs(h, archive, s, es)
    requires After(h, archive, s, es).file == s.file && !FoundCollision(h, archive, After(h, archive, s, es))
    ensures RunsOrderly(h, archive, s, es)
    decreases |es|
  {
    hide Next, Enabled, PrefixOk;
    if es != [] {
      var s' := Next(h, archive, s, es[0]);
      FileStays(h, archive, s', es[1..]);
      FileGrows(h, archive, s, es[0]);
      CollisionStays(h, archive, s', es[1..]);
      OpensOffered(archive, s, es[0]);
      OfferStep(h, archive, s, es[0]);
      PrefixStep(h, archive, s, es[0]);
      OrderlyUntilRemoved(h, archive, s', es[1..]);
    }
  }

  lemma FileGrows(h: HashFn, archive: seq<byte>, s: Server, e: Event)
    requires Enabled(archive, s, e)
    ensures s.file <= Next(h, archive, s, e).file
  {
  }

  lemma OpensOffered(archive: seq<byte>, s: Server, e: Event)
    requires Enabled(archive, s, e) && OffersReached(s)
    ensures Orderly(s, e)
  {
  }

  /** A removal under an old offer does break the prefix: three bytes reported, the file
    * swept away a day later, then a dead session's writer opens at three. The digest check
    * removes the result, and the next prepare reports an empty file. */
  lemma StaleOfferLeavesHole(h: HashFn)
    requires h([0, 0, 0, 4]) != h([1, 2, 3, 4])
    ensures var archive: seq<byte> := [1, 2, 3, 4];
      var s := Server(Some([1, 2, 3]), 0, 0, {}, [], None, None, [], []);
      var es := [Prepare, Pass(DAY), Sweep, Open(3), Write(0, 1)];
      && Init(s) && PrefixOk(archive, s)
      && Runs(h, archive, s, es) && After(h, archive, s, es).part == Some([0, 0, 0, 4])
      && Enabled(archive, After(h, archive, s, es), Start)
      && Size(Next(h, archive, After(h, archive, s, es), Start)) == 0
  {
    var archive: seq<byte> := [1, 2, 3, 4];
    var s := Server(Some([1, 2, 3]), 0, 0, {}, [], None, None, [], []);
    SweptOffer(h);
    WrittenBehind(h);
    hide Next, Enabled, Overwrite, Size, Runs, After;
    RunsConcat(h, archive, s, [Prepare, Pass(DAY), Sweep], [Open(3), Write(0, 1)]);
    assert [Prepare, Pass(DAY), Sweep] + [Open(3), Write(0, 1)] == [Prepare, Pass(DAY), Sweep, Open(3), Write(0, 1)];
  }

  lemma SweptOffer(h: HashFn)
    ensures var archive: seq<byte> := [1, 2, 3, 4];
      var s := Server(Some([1, 2, 3]), 0, 0, {}, [], None, None, [], []);
      var es := [Prepare, Pass(DAY), Sweep];
      Runs(h, archive, s, es) && After(h, archive, s, es) == Server(None, 1, DAY, {3}, [], None, None, [], [])
  {
    var archive: seq<byte> := [1, 2, 3, 4];
    var s := Server(Some([1, 2, 3]), 0, 0, {}, [], None, None, [], []);
    var s1 := Next(h, archive, s, Prepare);
    var s2 := Next(h, archive, s1, Pass(DAY));
    assert Next(h, archive, s2, Sweep) == Server(None, 1, DAY, {3}, [], None, None, [], []);
    assert Enabled(archive, s, Prepare) && Enabled(archive, s1, Pass(DAY)) && Enabled(archive, s2, Sweep);
    hide Next, Enabled;
    RunOne(h, archive, s2, Sweep, []);
    RunOne(h, archive, s1, Pass(DAY), [Sweep] + []);
    RunOne(h, archive, s, Prepare, [Pass(DAY)] + ([Sweep] + []));
    assert [Prepare] + ([Pass(DAY)] + ([Sweep] + [])) == [Prepare, Pass(DAY), Sweep];
  }

  lemma WrittenBehind(h: HashFn)
    requires h([0, 0, 0, 4]) != h([1, 2, 3, 4])
    ensures var archive: seq<byte> := [1, 2, 3, 4];
      var s := Server(None, 1, DAY, {3}, [], None, None, [], []);
      var es := [Open(3), Write(0, 1)];
      && Runs(h, archive, s, es) && After(h, archive, s, es).part == Some([0, 0, 0, 4])
      && Enabled(archive, After(h, archive, s, es), Start)
      && Size(Next(h, archive, After(h, archive, s, es), Start)) == 0
  {
    var archive: seq<byte> := [1, 2, 3, 4];
    var s := Server(None, 1, DAY, {3}, [], None, None, [], []);
    var s1 := Next(h, archive, s, Open(3));
    assert archive[3..4] == [4];
    assert Zeros(3) == [0, 0, 0] by { assert Zeros(2) == [0, 0]; }
    var s2 := Next(h, archive, s1, Write(0, 1));
    assert s2.part.value == [0, 0, 0, 4] && s2.run.None?;
    assert Truncated(s2.part.value, 4) == s2.part.value;
    assert Enabled(archive, s2, Start) && Size(Next(h, archive, s2, Start)) == 0;
    assert Enabled(archive, s, Open(3)) && Enabled(archive, s1, Write(0, 1));
    hide Next, Enabled, Overwrite, Size;
    RunOne(h, archive, s1, Write(0, 1), []);
    RunOne(h, archive, s, Open(3), [Write(0, 1)] + []);
    assert [Open(3)] + ([Write(0, 1)] + []) == [Open(3), Write(0, 1)];
  }
}
