/** The client's side of the resumable install in internal/bootstrap/upload.go: prepareUpload,
  * uploadArchive, startInstall and runInstaller against any server and any connection. */
module Installer {
  import opened Wrappers
  import opened Follow

  const DIGEST_MISMATCH := 3
  const INSTALL_RUNNING := 4
  const INSTALL_BUSY := 5

  // What sshRun returns; NotRun when ssh did not start or the context ended.
  datatype Ran = NotRun | Exit(code: int)

  /** The answer of the prepare step: its fields, and its second field as strconv.Atoi reads it. */
  datatype Answer = Answer(ran: Ran, fields: seq<string>, size: Option<int>)

  predicate DirChar(c: char) {
    'A' <= c <= 'Z' || 'a' <= c <= 'z' || '0' <= c <= '9' || c == '.' || c == '_' || c == '/' || c == '-'
  }

  predicate ValidUploadDir(dir: string) {
    && |dir| >= 2 && dir[0] == '/'
    && (forall i :: 1 <= i < |dir| ==> DirChar(dir[i]))
    && (forall i :: 0 <= i < |dir| - 1 ==> !(dir[i] == '.' && dir[i + 1] == '.'))
  }

  datatype Prepared = Unrun | Refused(code: int) | Unexpected | At(dir: string, have: nat)

  function ReadAnswer(a: Answer): (p: Prepared)
    ensures p.At? ==> ValidUploadDir(p.dir)
  {
    match a.ran
    case NotRun => Unrun
    case Exit(code) =>
      if code != 0 then Refused(code)
      else if |a.fields| != 2 || !ValidUploadDir(a.fields[0]) then Unexpected
      else match a.size
        case None => Unexpected
        case Some(n) => if n < 0 then Unexpected else At(a.fields[0], n)
  }

  /** What an answer reads as: a call that did not run, an exit code other than 0, or behind exit
    * code 0 a directory and a size; anything else is unexpected. */
  lemma ReadAnswerIs(a: Answer)
    ensures ReadAnswer(a) == Unrun <==> a.ran == NotRun
    ensures forall code :: ReadAnswer(a) == Refused(code) <==> a.ran == Exit(code) && code != 0
    ensures forall dir, have: nat :: ReadAnswer(a) == At(dir, have) <==>
      a.ran == Exit(0) && |a.fields| == 2 && a.fields[0] == dir && ValidUploadDir(dir) && a.size == Some(have)
    ensures ReadAnswer(a) == Unexpected <==>
      a.ran == Exit(0) && (|a.fields| != 2 || !ValidUploadDir(a.fields[0]) || a.size.None? || a.size.value < 0)
  {
  }

  // One conversation with the server: the answers, by the number of calls made so far.
  datatype World = World(prepare: nat -> Answer, write: nat -> Ran, start: nat -> Ran, waits: nat -> bool)

  datatype Step = Asked(p: Prepared) | Wrote(off: nat, ran: Ran) | Started(ran: Ran)

  datatype Failure =
    | GaveUp | Cancelled
    | PrepareFailed(code: int) | BadAnswer | WriteFailed(code: int) | WriteLost(have: nat)
    | TwiceCorrupt | Busy | StartFailed(code: int) | FollowFailed(end: Followed)

  // The server has just reported at least the whole archive, in this directory.
  predicate Uploaded(p: Prepared, dir: string, total: nat) {
    p.At? && p.dir == dir && p.have >= total && ValidUploadDir(dir)
  }

  // What the last step says of the failure.
  predicate Explains(w: World, last: Step, next: nat, e: Failure) {
    match e
    case GaveUp => Dropped(last)
    case Cancelled => last == Asked(Unrun) || (last.Wrote? && last.ran == NotRun) || (Dropped(last) && !w.waits(next))
    case PrepareFailed(code) => last == Asked(Refused(code)) && code != TRANSPORT_FAILURE
    case BadAnswer => last == Asked(Unexpected)
    case WriteFailed(code) => last.Wrote? && last.ran == Exit(code) && code != 0 && code != TRANSPORT_FAILURE
    case WriteLost(have) => last.Asked? && last.p.At? && last.p.have == have
    case _ => false
  }

  // The step is what call number k was answered.
  predicate AnswerOf(w: World, k: nat, s: Step) {
    match s
    case Asked(p) => p == ReadAnswer(w.prepare(k))
    case Wrote(_, ran) => ran == w.write(k)
    case Started(_) => false
  }

  predicate Answered(w: World, from: nat, trace: seq<Step>) {
    forall i :: 0 <= i < |trace| ==> AnswerOf(w, from + i, trace[i])
  }

  lemma AnsweredMore(w: World, from: nat, trace: seq<Step>, s: Step)
    requires Answered(w, from, trace) && AnswerOf(w, from + |trace|, s)
    ensures Answered(w, from, trace + [s])
    ensures trace + [s] != [] && (trace + [s])[|trace + [s]| - 1] == s
  {
  }

  predicate Dropped(s: Step) {
    match s
    case Asked(p) => p == Refused(TRANSPORT_FAILURE)
    case Wrote(_, ran) => ran == Exit(TRANSPORT_FAILURE)
    case Started(ran) => ran == Exit(TRANSPORT_FAILURE)
  }

  function Drops(trace: seq<Step>): nat {
    if trace == [] then 0 else Drops(trace[..|trace| - 1]) + if Dropped(trace[|trace| - 1]) then 1 else 0
  }

  lemma DropsMore(trace: seq<Step>, s: Step)
    ensures Drops(trace + [s]) == Drops(trace) + if Dropped(s) then 1 else 0
  {
    assert (trace + [s])[..|trace|] == trace;
  }

  // A write starts exactly where the prepare step just found the end, short of the archive.
  predicate Resumes(trace: seq<Step>, total: nat) {
    forall i :: 0 <= i < |trace| && trace[i].Wrote? ==>
      i > 0 && trace[i - 1].Asked? && trace[i - 1].p.At? && trace[i - 1].p.have == trace[i].off < total
  }

  // A write that reported success is the last one.
  predicate WritesOnce(trace: seq<Step>) {
    forall i, j :: 0 <= i < j < |trace| && trace[i].Wrote? && trace[j].Wrote? ==> trace[i].ran != Exit(0)
  }

  predicate Written(trace: seq<Step>) {
    exists i :: 0 <= i < |trace| && trace[i].Wrote? && trace[i].ran == Exit(0)
  }

  // Every step but the last left the upload going on.
  predicate NoStarts(trace: seq<Step>) {
    forall i :: 0 <= i < |trace| ==> !trace[i].Started?
  }

  predicate UploadTrace(trace: seq<Step>, total: nat) {
    Resumes(trace, total) && WritesOnce(trace) && NoStarts(trace)
  }

  lemma AskMore(trace: seq<Step>, total: nat, p: Prepared)
    requires UploadTrace(trace, total)
    ensures UploadTrace(trace + [Asked(p)], total)
    ensures Written(trace + [Asked(p)]) <==> Written(trace)
  {
    var t := trace + [Asked(p)];
    assert forall i :: 0 <= i < |trace| ==> t[i] == trace[i];
    if Written(trace) {
      var i :| 0 <= i < |trace| && trace[i].Wrote? && trace[i].ran == Exit(0);
      assert t[i].Wrote?;
    }
  }

  lemma WriteMore(trace: seq<Step>, total: nat, ran: Ran)
    requires UploadTrace(trace, total) && trace != [] && !Written(trace)
    requires var last := trace[|trace| - 1]; last.Asked? && last.p.At? && last.p.have < total
    ensures var t := trace + [Wrote(trace[|trace| - 1].p.have, ran)];
      UploadTrace(t, total) && (Written(t) <==> ran == Exit(0))
  {
    var t := trace + [Wrote(trace[|trace| - 1].p.have, ran)];
    assert forall i :: 0 <= i < |trace| ==> t[i] == trace[i];
    assert t[|trace|].Wrote?;
  }

  // Call number i was dropped.
  predicate DroppedAt(w: World, from: nat, trace: seq<Step>, i: nat)
    requires i < |trace|
  {
    if trace[i].Asked? then w.prepare(from + i).ran == Exit(TRANSPORT_FAILURE)
    else trace[i].Wrote? && w.write(from + i) == Exit(TRANSPORT_FAILURE)
  }

  // How many of the first n calls were.
  function DropsIn(w: World, from: nat, trace: seq<Step>, n: nat): nat
    requires n <= |trace|
  {
    if n == 0 then 0 else DropsIn(w, from, trace, n - 1) + if DroppedAt(w, from, trace, n - 1) then 1 else 0
  }

  /** A dropped call is followed by another prepare if it was not the sixth and the wait ran out;
    * if nothing follows it, the upload has ended for one of these reasons. */
  predicate GoesOn(w: World, from: nat, trace: seq<Step>, i: nat, res: Result<string, Failure>)
    requires i < |trace|
  {
    DroppedAt(w, from, trace, i) ==>
      if DropsIn(w, from, trace, i + 1) < MAX_ATTEMPTS && w.waits(from + i + 1) then i + 1 < |trace| && trace[i + 1].Asked?
      else i + 1 == |trace| && res == Err(if DropsIn(w, from, trace, i + 1) >= MAX_ATTEMPTS then GaveUp else Cancelled)
  }

  // So far every dropped call has been followed by a prepare, the last one apart.
  predicate WentOn(w: World, from: nat, trace: seq<Step>) {
    forall i :: 0 <= i < |trace| && DroppedAt(w, from, trace, i) ==>
      && DropsIn(w, from, trace, i + 1) < MAX_ATTEMPTS && w.waits(from + i + 1)
      && (i + 1 < |trace| ==> trace[i + 1].Asked?)
  }

  lemma {:induction false} DropsCount(w: World, from: nat, trace: seq<Step>, n: nat)
    requires Answered(w, from, trace) && n <= |trace|
    ensures Drops(trace[..n]) == DropsIn(w, from, trace, n)
  {
    if n > 0 {
      DropsCount(w, from, trace, n - 1);
      assert trace[..n][..n - 1] == trace[..n - 1] && trace[..n][n - 1] == trace[n - 1];
      assert AnswerOf(w, from + n - 1, trace[n - 1]);
      ReadAnswerIs(w.prepare(from + n - 1));
    }
  }

  lemma {:induction false} DropsOfPrefix(w: World, from: nat, trace: seq<Step>, s: Step, n: nat)
    requires n <= |trace|
    ensures DropsIn(w, from, trace + [s], n) == DropsIn(w, from, trace, n)
  {
    if n > 0 { DropsOfPrefix(w, from, trace, s, n - 1); }
  }

  // What the last step adds to the drops.
  lemma LastDrops(w: World, from: nat, trace: seq<Step>, s: Step)
    requires Answered(w, from, trace + [s])
    ensures DroppedAt(w, from, trace + [s], |trace|) <==> Dropped(s)
    ensures DropsIn(w, from, trace + [s], |trace| + 1) == Drops(trace + [s])
    ensures forall i :: 0 <= i < |trace| ==> (DroppedAt(w, from, trace + [s], i) <==> DroppedAt(w, from, trace, i))
  {
    hide Drops, ReadAnswer, DropsIn;
    var t := trace + [s];
    DropsCount(w, from, t, |t|);
    assert t[..|t|] == t && t[|trace|] == s;
    assert AnswerOf(w, from + |trace|, t[|trace|]);
    ReadAnswerIs(w.prepare(from + |trace|));
  }

  // One step more: it is a prepare, or nothing was dropped before it.
  lemma WentOnMore(w: World, from: nat, trace: seq<Step>, s: Step)
    requires WentOn(w, from, trace) && Answered(w, from, trace + [s])
    requires s.Asked? || (trace != [] && !DroppedAt(w, from, trace, |trace| - 1))
    requires Dropped(s) ==> Drops(trace + [s]) < MAX_ATTEMPTS && w.waits(from + |trace| + 1)
    ensures WentOn(w, from, trace + [s])
  {
    hide Answered, Drops, DropsIn, Dropped, DroppedAt;
    var t := trace + [s];
    LastDrops(w, from, trace, s);
    forall i | 0 <= i < |trace| && DroppedAt(w, from, t, i)
      ensures DropsIn(w, from, t, i + 1) < MAX_ATTEMPTS && w.waits(from + i + 1) && t[i + 1].Asked?
    {
      assert DroppedAt(w, from, trace, i);
      DropsOfPrefix(w, from, trace, s, i + 1);
    }
  }

  // The upload ends with this step.
  lemma EndsWith(w: World, from: nat, trace: seq<Step>, s: Step, res: Result<string, Failure>)
    requires WentOn(w, from, trace) && Answered(w, from, trace + [s])
    requires s.Asked? || (trace != [] && !DroppedAt(w, from, trace, |trace| - 1))
    requires Dropped(s) ==> res == Err(if Drops(trace + [s]) >= MAX_ATTEMPTS then GaveUp else Cancelled)
    requires Dropped(s) ==> Drops(trace + [s]) >= MAX_ATTEMPTS || !w.waits(from + |trace| + 1)
    ensures forall i :: 0 <= i < |trace| + 1 ==> GoesOn(w, from, trace + [s], i, res)
  {
    hide Answered, Drops, DropsIn, Dropped, DroppedAt;
    var t := trace + [s];
    LastDrops(w, from, trace, s);
    forall i | 0 <= i < |t| ensures GoesOn(w, from, t, i, res) {
      if i < |trace| {
        if DroppedAt(w, from, t, i) {
          assert DroppedAt(w, from, trace, i);
          DropsOfPrefix(w, from, trace, s, i + 1);
        }
      }
    }
  }

  /** uploadArchive ends after at most six dropped connections. It succeeds only when the
    * server has just reported at least the whole size; every write resumes where the server
    * has just said the file ends; after a write that reported success it never writes again,
    * so a file that is still short is an error and not a loop. */
  method UploadArchive(w: World, from: nat, total: nat)
    returns (res: Result<string, Failure>, next: nat, ghost trace: seq<Step>)
    ensures UploadTrace(trace, total)
    ensures Drops(trace) <= MAX_ATTEMPTS && (res == Err(GaveUp) <==> Drops(trace) == MAX_ATTEMPTS)
    ensures |trace| <= 2 * MAX_ATTEMPTS + 2
    ensures from <= next <= from + 2 * MAX_ATTEMPTS + 2
    ensures res.Ok? ==> next > from && Uploaded(ReadAnswer(w.prepare(next - 1)), res.value, total)
    ensures res.Err? && res.error.WriteLost? ==>
      trace != [] && Written(trace) && exists dir :: trace[|trace| - 1] == Asked(At(dir, res.error.have)) && res.error.have < total
    ensures next == from + |trace| && Answered(w, from, trace)
    ensures res.Err? ==> trace != [] && Explains(w, trace[|trace| - 1], next, res.error)
    ensures trace != []
    ensures forall dir :: res == Ok(dir) <==>
      && trace[|trace| - 1].Asked? && var a := w.prepare(next - 1);
      && a.ran == Exit(0) && |a.fields| == 2 && a.fields[0] == dir && ValidUploadDir(dir)
      && a.size.Some? && a.size.value >= total
    ensures res == Err(BadAnswer) ==> trace[|trace| - 1].Asked? && w.prepare(next - 1).ran == Exit(0)
    ensures forall code :: res == Err(PrepareFailed(code)) <==>
      trace[|trace| - 1].Asked? && w.prepare(next - 1).ran == Exit(code) && code != 0 && code != TRANSPORT_FAILURE
    ensures forall i :: 0 <= i < |trace| ==> GoesOn(w, from, trace, i, res)
  {
    hide UploadTrace, Written, Answered, Drops, ReadAnswer, ValidUploadDir, GoesOn, WentOn, DropsIn;
    var retry := new Retrier();
    var wrote := false;
    next, trace := from, [];
    EmptyTrace(total);
    NothingDropped(w, from);
    while true
      invariant fresh(retry) && next == from + |trace| && Answered(w, from, trace)
      invariant retry.failures == Drops(trace) < MAX_ATTEMPTS
      invariant UploadTrace(trace, total) && (wrote <==> Written(trace)) && WentOn(w, from, trace)
      invariant |trace| <= 2 * Drops(trace) + if wrote then 2 else 0
      decreases MAX_ATTEMPTS - retry.failures, if wrote then 0 else 1
    {
      var p := ReadAnswer(w.prepare(next));
      ReadAnswerIs(w.prepare(next));
      ghost var before := trace;
      DropsMore(trace, Asked(p));
      AskMore(trace, total, p);
      AnsweredMore(w, from, trace, Asked(p));
      trace := trace + [Asked(p)];
      next := next + 1;
      match p {
        case Unrun =>
          EndsWith(w, from, before, Asked(p), Err(Cancelled));
          return Err(Cancelled), next, trace;
        case Unexpected =>
          EndsWith(w, from, before, Asked(p), Err(BadAnswer));
          return Err(BadAnswer), next, trace;
        case Refused(code) =>
          if code != TRANSPORT_FAILURE {
            EndsWith(w, from, before, Asked(p), Err(PrepareFailed(code)));
            return Err(PrepareFailed(code)), next, trace;
          }
          var goOn := retry.Cut(w.waits(next));
          if !goOn {
            res := Err(if retry.failures >= MAX_ATTEMPTS then GaveUp else Cancelled);
            EndsWith(w, from, before, Asked(p), res);
            return res, next, trace;
          }
          WentOnMore(w, from, before, Asked(p));
          continue;
        case At(dir, have) =>
          if have >= total {
            EndsWith(w, from, before, Asked(p), Ok(dir));
            return Ok(dir), next, trace;
          }
          if wrote {
            EndsWith(w, from, before, Asked(p), Err(WriteLost(have)));
            return Err(WriteLost(have)), next, trace;
          }
          WentOnMore(w, from, before, Asked(p));
          var ran := w.write(next);
          before := trace;
          DropsMore(trace, Wrote(have, ran));
          WriteMore(trace, total, ran);
          AnsweredMore(w, from, trace, Wrote(have, ran));
          trace := trace + [Wrote(have, ran)];
          next := next + 1;
          if ran.NotRun? {
            EndsWith(w, from, before, Wrote(have, ran), Err(Cancelled));
            return Err(Cancelled), next, trace;
          }
          if ran.code == 0 {
            wrote := true;
          } else if ran.code == TRANSPORT_FAILURE {
            var goOn := retry.Cut(w.waits(next));
            if !goOn {
              res := Err(if retry.failures >= MAX_ATTEMPTS then GaveUp else Cancelled);
              EndsWith(w, from, before, Wrote(have, ran), res);
              return res, next, trace;
            }
          } else {
            EndsWith(w, from, before, Wrote(have, ran), Err(WriteFailed(ran.code)));
            return Err(WriteFailed(ran.code)), next, trace;
          }
          WentOnMore(w, from, before, Wrote(have, ran));
      }
    }
  }

  lemma NothingDropped(w: World, from: nat)
    ensures WentOn(w, from, [])
  {
  }

  lemma EmptyTrace(total: nat)
    ensures UploadTrace([], total) && !Written([]) && Drops([]) == 0
    ensures forall w: World, from: nat :: Answered(w, from, [])
  {
  }

  /** startInstall asks again only while the connection drops, at most six times in all. */
  method StartInstall(w: World, from: nat) returns (res: Result<int, Failure>, next: nat)
    ensures from < next <= from + MAX_ATTEMPTS
    ensures forall k :: from <= k < next - 1 ==> w.start(k) == Exit(255)
    ensures forall k :: from < k < next ==> w.waits(k)
    ensures res.Ok? ==> w.start(next - 1) == Exit(res.value) && res.value != 255
    ensures res.Err? ==> res.error == GaveUp || res.error == Cancelled
    ensures res == Err(Cancelled) ==> w.start(next - 1) == NotRun || (w.start(next - 1) == Exit(TRANSPORT_FAILURE) && !w.waits(next))
    ensures res == Err(GaveUp) <==> next == from + MAX_ATTEMPTS && w.start(next - 1) == Exit(TRANSPORT_FAILURE)
  {
    var retry := new Retrier();
    next := from;
    while true
      invariant fresh(retry) && retry.failures < MAX_ATTEMPTS && next == from + retry.failures
      invariant forall k :: from <= k < next ==> w.start(k) == Exit(TRANSPORT_FAILURE)
      invariant forall k :: from < k <= next ==> w.waits(k)
      decreases MAX_ATTEMPTS - retry.failures
    {
      var ran := w.start(next);
      next := next + 1;
      if ran.NotRun? { return Err(Cancelled), next; }
      if ran.code != TRANSPORT_FAILURE { return Ok(ran.code), next; }
      var goOn := retry.Cut(w.waits(next));
      if !goOn { return Err(if retry.failures >= MAX_ATTEMPTS then GaveUp else Cancelled), next; }
    }
  }

  // What the last answer to a start leads to.
  predicate Concludes(res: Option<Failure>, code: int) {
    if code == 0 || code == 4 then res == None || (res.value.FollowFailed? && res.value.end != Installed)
    else if code == 3 then res == Some(TwiceCorrupt)
    else if code == 5 then res == Some(Busy)
    else res == Some(StartFailed(code))
  }

  // The calls that started the install, in order, and what they were answered.
  predicate StartsAnswered(w: World, starts: seq<nat>, codes: seq<int>) {
    && |starts| == |codes|
    && (forall i :: 0 <= i < |starts| ==> w.start(starts[i]) == Exit(codes[i]))
    && (forall i, j :: 0 <= i < j < |starts| ==> starts[i] < starts[j])
  }

  lemma StartedMore(w: World, starts: seq<nat>, codes: seq<int>, k: nat, code: int)
    requires StartsAnswered(w, starts, codes) && w.start(k) == Exit(code)
    requires starts != [] ==> starts[|starts| - 1] < k
    ensures StartsAnswered(w, starts + [k], codes + [code])
  {
    assert forall i :: 0 <= i < |starts| ==> starts[i] <= starts[|starts| - 1];
  }

  // After a start answered like this the install is followed.
  predicate Follows(w: World, k: nat) { w.start(k) in {Exit(0), Exit(INSTALL_RUNNING)} }

  /** runInstaller uploads at most twice, the second time only after the server found the first
    * upload corrupt. It succeeds only if the install ended with exit code 0, and then it has
    * shown the whole install log. follow is what following sees after each start call. */
  method RunInstaller(w: World, total: nat, follow: nat -> Install, sessions: nat -> Session, out: CountingWriter)
    returns (res: Option<Failure>, ghost codes: seq<int>, ghost starts: seq<nat>, ghost uploads: nat, ghost c: Course)
    requires (forall k: nat :: Follows(w, k) ==> Follow.Runs(follow(k))) && out.Valid() && out.bytes == []
    modifies out
    ensures 1 <= uploads <= 2 && |codes| <= uploads <= |codes| + 1
    ensures StartsAnswered(w, starts, codes)
    ensures uploads == 2 ==> codes != [] && codes[0] == DIGEST_MISMATCH
    ensures |codes| == 2 ==> codes[0] == DIGEST_MISMATCH
    ensures res == None ==>
      && codes != [] && codes[|codes| - 1] in {0, INSTALL_RUNNING}
      && var r := follow(starts[|starts| - 1]); r.done(c.t) == Some(0) && out.bytes == r.log(c.t)
    ensures res == Some(TwiceCorrupt) <==> |codes| == 2 && codes[1] == DIGEST_MISMATCH
    ensures |codes| == uploads ==> Concludes(res, codes[|codes| - 1])
    ensures |codes| == uploads && codes[|codes| - 1] in {0, 4} ==>
      Ended(follow(starts[|starts| - 1]), sessions, out.bytes, if res == None then Installed else res.value.end, c)
    ensures |codes| < uploads ==> res.Some? && !(res.value.TwiceCorrupt? || res.value.Busy? || res.value.StartFailed? || res.value.FollowFailed?)
    ensures out.bytes != [] ==> starts != [] && out.bytes <= follow(starts[|starts| - 1]).log(c.t)
  {
    hide StartsAnswered, Ended;
    var reuploaded := false;
    var next := 0;
    codes, starts, uploads, c := [], [], 0, Course(0, [], 0);
    NoStartsYet(w);
    while true
      invariant out.Valid() && out.bytes == []
      invariant uploads == |codes| && codes == if reuploaded then [DIGEST_MISMATCH] else []
      invariant StartsAnswered(w, starts, codes) && |starts| == |codes| && (starts != [] ==> starts[|starts| - 1] < next)
      decreases if reuploaded then 0 else 1
    {
      var dir, n, trace := UploadArchive(w, next, total);
      uploads := uploads + 1;
      if dir.Err? { return Some(dir.error), codes, starts, uploads, c; }
      var code, m := StartInstall(w, n);
      if code.Err? { return Some(code.error), codes, starts, uploads, c; }
      next := m;
      StartedMore(w, starts, codes, m - 1, code.value);
      codes, starts := codes + [code.value], starts + [m - 1];
      if code.value == 0 || code.value == INSTALL_RUNNING {
        assert Follows(w, m - 1);
        var end;
        end, c := FollowInstall(follow(m - 1), sessions, out);
        return if end == Installed then None else Some(FollowFailed(end)), codes, starts, uploads, c;
      } else if code.value == DIGEST_MISMATCH {
        if reuploaded { return Some(TwiceCorrupt), codes, starts, uploads, c; }
      } else if code.value == INSTALL_BUSY {
        return Some(Busy), codes, starts, uploads, c;
      } else {
        return Some(StartFailed(code.value)), codes, starts, uploads, c;
      }
      reuploaded := true;
    }
  }

  lemma NoStartsYet(w: World)
    ensures StartsAnswered(w, [], [])
  {
  }
}
