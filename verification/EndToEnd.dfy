/** The client of the install protocol against the server of the upload, over time. */
module EndToEnd {
  import opened Wrappers
  import opened Bytes
  import U = Upload
  import F = Follow
  import I = Installer

  // The server's state at every moment.
  type Server = nat -> U.Server

  // From one moment to the next nothing happens, or one event of anybody's.
  ghost predicate Moves(h: U.HashFn, archive: seq<byte>, s: U.Server, s': U.Server) {
    s' == s || exists e :: Does(h, archive, s, e, s')
  }

  predicate Does(h: U.HashFn, archive: seq<byte>, s: U.Server, e: U.Event, s': U.Server) {
    U.Enabled(archive, s, e) && U.Next(h, archive, s, e) == s'
  }

  /** The server lives: it starts with nothing but a leftover part file, and every change is an
    * event. */
  ghost predicate Lives(h: U.HashFn, archive: seq<byte>, server: Server) {
    U.Init(server(0)) && forall t: nat :: MovesAt(h, archive, server, t)
  }

  ghost predicate MovesAt(h: U.HashFn, archive: seq<byte>, server: Server, t: nat) {
    Moves(h, archive, server(t), server(t + 1))
  }

  // What following an install sees, from the moment since on, is the server's marker and lock.
  ghost predicate Shows(server: Server, r: F.Install, since: nat) {
    forall u: nat :: ShowsAt(server, r, since, u)
  }

  predicate ShowsAt(server: Server, r: F.Install, since: nat, u: nat) {
    u >= since ==>
      && (r.held(u - since) <==> server(u).run.Some?)
      && match r.done(u - since)
        case None => server(u).done.None?
        case Some(rc) => server(u).done == Some(rc)
  }

  lemma {:induction false} ServerOk(h: U.HashFn, archive: seq<byte>, server: Server, t: nat)
    requires Lives(h, archive, server)
    ensures U.InstallOk(archive, server(t)) || U.FoundCollision(h, archive, server(t))
    decreases t
  {
    hide U.Next, U.Enabled, U.InstallOk;
    if t == 0 {
      InitOk(archive, server(0));
    } else {
      ServerOk(h, archive, server, t - 1);
      assert MovesAt(h, archive, server, t - 1);
      if server(t) != server(t - 1) {
        var e :| Does(h, archive, server(t - 1), e, server(t));
        if U.FoundCollision(h, archive, server(t - 1)) {
          StillFound(h, archive, server(t - 1), e);
        } else {
          U.InstallStep(h, archive, server(t - 1), e);
        }
      }
    }
  }

  lemma InitOk(archive: seq<byte>, s: U.Server)
    requires U.Init(s)
    ensures U.InstallOk(archive, s)
  {
  }

  lemma StillFound(h: U.HashFn, archive: seq<byte>, s: U.Server, e: U.Event)
    requires U.Enabled(archive, s, e) && U.FoundCollision(h, archive, s)
    ensures U.FoundCollision(h, archive, U.Next(h, archive, s, e))
  {
    var c :| c in s.checked && c != archive && h(c) == h(archive);
    assert c in U.Next(h, archive, s, e).checked;
  }

  // ---- What the client hears is what the server did ----

  // The moment of each of the client's calls.
  ghost predicate Hears(h: U.HashFn, archive: seq<byte>, server: Server, w: I.World, at: nat -> nat) {
    forall k: nat :: HearsAt(h, archive, server, w, at, k)
  }

  /** A prepare answers with the size it found. A start that answers 0 has begun an install, one
    * that answers 3 has found the digest wrong and removed the file, one that answers 4 has found
    * an install without a marker under way; an answer that was lost says nothing. */
  predicate HearsAt(h: U.HashFn, archive: seq<byte>, server: Server, w: I.World, at: nat -> nat, k: nat) {
    var s, s' := server(at(k)), server(at(k) + 1);
    && at(k) < at(k + 1)
    && (var p := I.ReadAnswer(w.prepare(k)); p.At? ==> p.have == U.Size(s) && p.have in s'.offered)
    && (w.start(k) == I.Exit(0) ==> Does(h, archive, s, U.Start, s') && s'.run.Some?)
    && (w.start(k) == I.Exit(I.DIGEST_MISMATCH) ==> Does(h, archive, s, U.Start, s') && s'.run.None?)
    && (w.start(k) == I.Exit(I.INSTALL_RUNNING) ==> s.run.Some? && s.done.None?)
  }

  lemma {:induction false} OffersStay(h: U.HashFn, archive: seq<byte>, server: Server, t: nat, u: nat)
    requires Lives(h, archive, server) && t <= u
    ensures server(t).offered <= server(u).offered
    decreases u - t
  {
    if t < u {
      assert MovesAt(h, archive, server, t);
      OffersStay(h, archive, server, t + 1, u);
    }
  }

  /** Every write the client makes opens the part file at an offset the server has offered: it
    * is one of the server's events, so what is proved of them holds of the client's writes. */
  lemma WritesAreOffered(h: U.HashFn, archive: seq<byte>, server: Server, w: I.World, at: nat -> nat, from: nat, trace: seq<I.Step>, i: nat)
    requires Lives(h, archive, server) && Hears(h, archive, server, w, at)
    requires I.Answered(w, from, trace) && I.Resumes(trace, |archive|)
    requires i < |trace| && trace[i].Wrote?
    ensures U.Enabled(archive, server(at(from + i)), U.Open(trace[i].off))
  {
    hide Lives, Does;
    var k := from + i - 1;
    assert I.AnswerOf(w, k, trace[i - 1]);
    assert HearsAt(h, archive, server, w, at, k);
    OffersStay(h, archive, server, at(k) + 1, at(k + 1));
  }

  // Since n installs had ended with 0, the marker says 0 only if another one has.
  predicate CountedSince(s: U.Server, n: nat) {
    |s.installed| >= n && (s.done == Some(0) ==> |s.installed| > n)
  }

  lemma {:induction false} Counted(h: U.HashFn, archive: seq<byte>, server: Server, n: nat, t: nat, u: nat)
    requires Lives(h, archive, server) && t <= u && CountedSince(server(t), n)
    ensures CountedSince(server(u), n)
    decreases u - t
  {
    if t < u {
      assert MovesAt(h, archive, server, t);
      Counted(h, archive, server, n, t + 1, u);
    }
  }

  // From an answer that leads to following on, a marker of 0 is of an install that ended since.
  lemma StartCounts(h: U.HashFn, archive: seq<byte>, server: Server, w: I.World, at: nat -> nat, k: nat)
    requires Lives(h, archive, server) && HearsAt(h, archive, server, w, at, k) && I.Follows(w, k)
    ensures CountedSince(server(at(k) + 1), |server(at(k)).installed|)
  {
    if w.start(k) == I.Exit(I.INSTALL_RUNNING) {
      Counted(h, archive, server, |server(at(k)).installed|, at(k), at(k) + 1);
    }
  }

  // The digest check failed, and the file it read is gone: the next upload starts from nothing.
  predicate Rejected(h: U.HashFn, archive: seq<byte>, s: U.Server, s': U.Server) {
    && s.run.None? && s'.part.None? && s'.file > s.file
    && (s.part.Some? ==> h(U.Truncated(s.part.value, |archive|)) != h(archive))
  }

  lemma MismatchRejects(h: U.HashFn, archive: seq<byte>, server: Server, w: I.World, at: nat -> nat, k: nat)
    requires HearsAt(h, archive, server, w, at, k) && w.start(k) == I.Exit(I.DIGEST_MISMATCH)
    ensures Rejected(h, archive, server(at(k)), server(at(k) + 1))
  {
  }

  // What an install that ended with 0 unpacked from the file it checked, or within a day of the
  // check, is the archive.
  predicate OnlyArchive(archive: seq<byte>, s: U.Server) {
    forall c :: c in s.installed && (c.checked || c.after < U.DAY) ==> c.bytes == archive
  }

  lemma InstalledOk(archive: seq<byte>, s: U.Server)
    requires U.InstallOk(archive, s)
    ensures OnlyArchive(archive, s)
  {
  }

  /** The installer, from the upload to the end of the log. Success means that an install has
    * ended with 0 since the client's last start call, and the whole log was shown; what installs
    * that ended with 0 unpacked within a day of their check was the archive, or a digest check
    * met a collision. Every start call that was answered with a digest mismatch had checked other
    * bytes and removed them. */
  method InstallArchive(w: I.World, h: U.HashFn, archive: seq<byte>, server: Server, at: nat -> nat,
                        follow: nat -> F.Install, sessions: nat -> F.Session, out: F.CountingWriter)
    returns (res: Option<I.Failure>, ghost codes: seq<int>, ghost starts: seq<nat>, ghost t: nat)
    requires Lives(h, archive, server) && Hears(h, archive, server, w, at)
    requires forall k: nat :: I.Follows(w, k) ==> F.Runs(follow(k)) && Shows(server, follow(k), at(k) + 1)
    requires out.Valid() && out.bytes == []
    modifies out
    ensures I.StartsAnswered(w, starts, codes)
    ensures forall i :: 0 <= i < |starts| && codes[i] == I.DIGEST_MISMATCH ==>
      Rejected(h, archive, server(at(starts[i])), server(at(starts[i]) + 1))
    ensures res == Some(I.TwiceCorrupt) ==> codes == [I.DIGEST_MISMATCH, I.DIGEST_MISMATCH]
    ensures res == None ==>
      && starts != []
      && var k := starts[|starts| - 1];
      && var before, after := server(at(k)), server(at(k) + 1 + t);
      && out.bytes == follow(k).log(t)
      && |before.installed| < |after.installed|
      && (U.FoundCollision(h, archive, after) || OnlyArchive(archive, after))
  {
    hide F.Runs, F.Ended, Lives, Hears, HearsAt, Shows, Does, Rejected, OnlyArchive, U.InstallOk, CountedSince;
    ghost var uploads, course;
    res, codes, starts, uploads, course := I.RunInstaller(w, |archive|, follow, sessions, out);
    t := course.t;
    forall i | 0 <= i < |starts| && codes[i] == I.DIGEST_MISMATCH
      ensures Rejected(h, archive, server(at(starts[i])), server(at(starts[i]) + 1))
    {
      HeardAt(h, archive, server, w, at, starts[i]);
      MismatchRejects(h, archive, server, w, at, starts[i]);
    }
    if res == None {
      ghost var k := starts[|starts| - 1];
      assert I.Follows(w, k);
      HeardAt(h, archive, server, w, at, k);
      StartCounts(h, archive, server, w, at, k);
      Counted(h, archive, server, |server(at(k)).installed|, at(k) + 1, at(k) + 1 + t);
      Marked(server, follow(k), at(k) + 1, t, |server(at(k)).installed|);
      ServerOk(h, archive, server, at(k) + 1 + t);
      if U.InstallOk(archive, server(at(k) + 1 + t)) { InstalledOk(archive, server(at(k) + 1 + t)); }
    }
  }

  lemma HeardAt(h: U.HashFn, archive: seq<byte>, server: Server, w: I.World, at: nat -> nat, k: nat)
    requires Hears(h, archive, server, w, at)
    ensures HearsAt(h, archive, server, w, at, k)
  {
  }

  lemma Marked(server: Server, r: F.Install, since: nat, t: nat, n: nat)
    requires Shows(server, r, since) && r.done(t) == Some(0) && CountedSince(server(since + t), n)
    ensures |server(since + t).installed| > n
  {
    assert ShowsAt(server, r, since, since + t);
  }

  // ---- There are such servers and clients ----

  const ARCHIVE: seq<byte> := [1, 2]

  // One byte is there; the rest is uploaded, found, installed and unpacked, and the install ends.
  function Example(t: nat): U.Server {
    if t == 0 then U.Server(Some([1]), 0, 0, {}, [], None, None, [], [])
    else if t == 1 then U.Server(Some([1]), 0, 0, {1}, [], None, None, [], [])
    else if t == 2 then U.Server(Some([1]), 0, 0, {1}, [U.Writer(1, 0)], None, None, [], [])
    else
      var full := U.Server(Some(ARCHIVE), 0, 0, {1}, [U.Writer(2, 0)], None, None, [], []);
      var started := full.(offered := {1, 2}, run := Some(U.Run(0, 0, None)), checked := [ARCHIVE]);
      var c := U.Content(ARCHIVE, true, 0);
      if t == 3 then full
      else if t == 4 then full.(offered := {1, 2})
      else if t == 5 then started
      else if t == 6 then started.(run := Some(U.Run(0, 0, Some(c))))
      else started.(part := None, file := 1, run := None, done := Some(0), installed := [c])
  }

  // Prepare, write, prepare, start.
  function ExampleAt(k: nat): nat { if k <= 1 then k else k + 1 }

  const WORLD := I.World(
    k => if k == 0 then I.Answer(I.Exit(0), ["/u", "1"], Some(1))
         else if k == 2 then I.Answer(I.Exit(0), ["/u", "2"], Some(2)) else I.Answer(I.NotRun, [], None),
    k => if k == 1 then I.Exit(0) else I.NotRun,
    k => if k == 3 then I.Exit(0) else I.NotRun,
    k => true)

  function ExampleFollow(k: nat): F.Install {
    F.Install(_ => [], t => if t >= 2 then Some(0) else None, t => t < 2)
  }

  lemma ExampleMoves(h: U.HashFn, t: nat)
    ensures MovesAt(h, ARCHIVE, Example, t)
    ensures t == 4 ==> Does(h, ARCHIVE, Example(4), U.Start, Example(5))
  {
    if t == 0 { assert Does(h, ARCHIVE, Example(0), U.Prepare, Example(1)); }
    else if t == 1 {
      assert [] + [U.Writer(1, 0)] == [U.Writer(1, 0)];
      assert Does(h, ARCHIVE, Example(1), U.Open(1), Example(2));
    } else if t == 2 { ExampleWrites(h); }
    else if t == 3 { assert Does(h, ARCHIVE, Example(3), U.Prepare, Example(4)); }
    else if t == 4 {
      assert U.Truncated(ARCHIVE, 2) == ARCHIVE && [] + [ARCHIVE] == [ARCHIVE];
      assert Does(h, ARCHIVE, Example(4), U.Start, Example(5));
    } else if t == 5 { assert Does(h, ARCHIVE, Example(5), U.Unpack, Example(6)); }
    else if t == 6 {
      assert [] + [U.Content(ARCHIVE, true, 0)] == [U.Content(ARCHIVE, true, 0)];
      assert Does(h, ARCHIVE, Example(6), U.InstallEnd(0), Example(7));
    }
  }

  lemma ExampleWrites(h: U.HashFn)
    ensures Does(h, ARCHIVE, Example(2), U.Write(0, 1), Example(3))
  {
    assert ARCHIVE[1..2] == [2] && U.Overwrite([1], 1, [2]) == ARCHIVE;
    assert [U.Writer(1, 0)][0 := U.Writer(2, 0)] == [U.Writer(2, 0)];
  }

  /** There is such a server and a client that hears it: the rest of an upload is written, the
    * install starts, unpacks and ends with 0, and following it sees the marker come and the lock
    * go. */
  lemma ExampleLives(h: U.HashFn)
    ensures Lives(h, ARCHIVE, Example) && Hears(h, ARCHIVE, Example, WORLD, ExampleAt)
    ensures forall k: nat :: I.Follows(WORLD, k) ==>
      F.Runs(ExampleFollow(k)) && Shows(Example, ExampleFollow(k), ExampleAt(k) + 1)
    ensures I.Follows(WORLD, 3)
  {
    hide MovesAt;
    forall t: nat ensures MovesAt(h, ARCHIVE, Example, t) { ExampleMoves(h, t); }
    forall k: nat ensures HearsAt(h, ARCHIVE, Example, WORLD, ExampleAt, k) { ExampleHears(h, k); }
    forall k: nat | I.Follows(WORLD, k)
      ensures F.Runs(ExampleFollow(k)) && Shows(Example, ExampleFollow(k), ExampleAt(k) + 1)
    {
      ExampleShows(k);
    }
  }

  lemma ExampleHears(h: U.HashFn, k: nat)
    ensures HearsAt(h, ARCHIVE, Example, WORLD, ExampleAt, k)
  {
    hide Does;
    ExampleMoves(h, 4);
  }

  lemma ExampleShows(k: nat)
    requires I.Follows(WORLD, k)
    ensures F.Runs(ExampleFollow(k)) && Shows(Example, ExampleFollow(k), ExampleAt(k) + 1)
  {
    assert k == 3;
    forall t: nat ensures F.Advances(ExampleFollow(k), t) {}
    forall u: nat ensures ShowsAt(Example, ExampleFollow(k), 5, u) {}
  }
}
