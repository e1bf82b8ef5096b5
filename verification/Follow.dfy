/** Following a detached install's log across dropped connections: followInstall and
  * countingWriter in internal/bootstrap/upload.go, and the remote script they run. */
module Follow {
  import opened Wrappers
  import opened Bytes

  const TRANSPORT_FAILURE := 255
  const INSTALL_DIED := 253
  const FOLDED := 254
  const MAX_ATTEMPTS := 6

  /** What a look at the server finds, by time: the log, the exit code in the done marker, and
    * whether the install still holds its lock. */
  datatype Install = Install(log: nat -> seq<byte>, done: nat -> Option<uint8>, held: nat -> bool)

  // The log is only appended to. The marker is written once, by the process holding the lock.
  ghost predicate Runs(r: Install) {
    forall t: nat :: Advances(r, t)
  }

  predicate Advances(r: Install, t: nat) {
    && r.log(t) <= r.log(t + 1)
    && (r.done(t).Some? ==> r.done(t + 1) == r.done(t))
    && (!r.held(t) ==> !r.held(t + 1) && r.done(t + 1) == r.done(t))
  }

  lemma {:induction false} LaterLog(r: Install, t: nat, u: nat)
    requires Runs(r) && t <= u
    ensures r.log(t) <= r.log(u)
    ensures r.done(t).Some? ==> r.done(u) == r.done(t)
    ensures !r.held(t) ==> r.done(u) == r.done(t)
    decreases u - t
  {
    if t < u {
      assert Advances(r, t);
      if !r.held(t) { assert !r.held(t + 1); }
      LaterLog(r, t + 1, u);
    }
  }

  function Fold(rc: uint8): (code: uint8)
    ensures code == 0 <==> rc == 0
    ensures code != INSTALL_DIED && code != TRANSPORT_FAILURE
  {
    if rc >= 253 then FOLDED else rc
  }

  // What an exit code in the marker is reported as.
  predicate Reported(rc: uint8, code: int) { code == if rc < 253 then rc else 254 }

  // ---- The remote script ----

  /** Nothing it looks at in this many rounds from start lets the script end: no marker, and at
    * each look the lock is held, or if it is free the marker is there on the second look. */
  ghost predicate Undecided(r: Install, start: nat, rounds: nat) {
    forall k :: 0 <= k < rounds ==> LooksOn(r, start + 4 * k)
  }

  predicate LooksOn(r: Install, t: nat) { r.done(t + 2).None? && (r.held(t + 3) || r.done(t + 4).Some?) }

  /** One run of the follow script from byte off of the log, at most this many rounds before
    * its connection is gone; time moves on between any two of its looks at the server. It sends
    * the log from off on. With an exit code it has sent the whole log as it was at t, after the
    * marker, or after an install that ended without one: the marker is looked for again once the
    * lock was seen free, since it may have been written in between. */
  method FollowScript(r: Install, start: nat, off: nat, rounds: nat)
    returns (sent: seq<byte>, code: Option<uint8>, t: nat)
    requires Runs(r) && off <= |r.log(start)|
    ensures start <= t && off <= |r.log(t)| && sent <= r.log(t)[off..]
    ensures code.Some? ==> sent == r.log(t)[off..]
    ensures code.None? <==> Undecided(r, start, rounds)
    ensures code.Some? && code.value != INSTALL_DIED ==> r.done(t).Some? && Reported(r.done(t).value, code.value)
    ensures code == Some(INSTALL_DIED) ==> !r.held(t) && r.done(t).None?
    ensures code != Some(TRANSPORT_FAILURE)
  {
    t, sent := start, [];
    var round := 0;
    while round < rounds
      invariant round <= rounds && t == start + 4 * round && Undecided(r, start, round)
      invariant start <= t && off <= |r.log(t)| && sent <= r.log(t)[off..]
      decreases rounds - round
    {
      ghost var look := t;
      round := round + 1;
      sent, t := Emit(r, off, sent, t);
      t := Later(r, t, off, sent);
      if r.done(t).Some? {
        assert !LooksOn(r, look);
        var rc := r.done(t).value;
        LaterLog(r, t, t + 1);
        sent, t := Emit(r, off, sent, t);
        return sent, Some(Fold(rc)), t;
      }
      t := Later(r, t, off, sent);
      if !r.held(t) {
        ghost var free := t;
        t := Later(r, t, off, sent);
        if r.done(t).Some? { continue; }
        assert !LooksOn(r, look);
        sent, t := Emit(r, off, sent, t);
        StaysFree(r, free, t - 1);
        StaysFree(r, free, t);
        return sent, Some(INSTALL_DIED), t;
      }
      t := Later(r, t, off, sent);
    }
    return sent, None, t;
  }

  lemma {:induction false} StaysFree(r: Install, t: nat, u: nat)
    requires Runs(r) && !r.held(t) && t <= u
    ensures !r.held(u) && r.done(u) == r.done(t)
    decreases u - t
  {
    if t < u {
      assert Advances(r, t);
      StaysFree(r, t + 1, u);
    }
  }

  // Time moves on before the next look.
  method Later(r: Install, t: nat, ghost off: nat, ghost sent: seq<byte>) returns (t': nat)
    requires Runs(r) && off <= |r.log(t)| && sent <= r.log(t)[off..]
    ensures t' == t + 1 && off <= |r.log(t')| && sent <= r.log(t')[off..]
  {
    t' := t + 1;
    LaterLog(r, t, t');
  }

  // Send what the log has grown by.
  method Emit(r: Install, off: nat, sent: seq<byte>, t: nat) returns (sent': seq<byte>, t': nat)
    requires Runs(r) && off <= |r.log(t)| && sent <= r.log(t)[off..]
    ensures t' == t + 1 && off <= |r.log(t')| && sent' == r.log(t')[off..]
  {
    t' := t + 1;
    LaterLog(r, t, t');
    var have := off + |sent|;
    var log := r.log(t');
    sent' := if |log| > have then sent + log[have..] else sent;
    assert log[off..have] == sent && log[off..] == log[off..have] + log[have..];
  }

  // ---- The client ----

  class CountingWriter {
    var n: nat
    ghost var bytes: seq<byte>

    ghost predicate Valid()
      reads this
    {
      n == |bytes|
    }

    constructor ()
      ensures Valid() && bytes == []
    {
      n, bytes := 0, [];
    }

    // The inner writer may take fewer bytes; only those are counted.
    method Write(p: seq<byte>, accepts: Option<nat>) returns (n: nat, ok: bool)
      requires Valid()
      modifies this
      ensures Valid() && n <= |p| && bytes == old(bytes) + p[..n]
      ensures ok <==> n == |p|
      ensures ok <==> accepts.None? || accepts.value >= |p|
      ensures !ok ==> n == accepts.value
    {
      n := if accepts.None? then |p| else Min(accepts.value, |p|);
      this.n := this.n + n;
      bytes := bytes + p[..n];
      return n, n == |p|;
    }
  }

  class Retrier {
    var failures: nat

    constructor ()
      ensures failures == 0
    {
      failures := 0;
    }

    /** Counts a dropped connection; the sixth is the last, and the wait before the next
      * attempt may be cut short. */
    method Cut(waits: bool) returns (goOn: bool)
      modifies this
      ensures failures == old(failures) + 1
      ensures goOn <==> failures < MAX_ATTEMPTS && waits
    {
      failures := failures + 1;
      if failures >= MAX_ATTEMPTS { return false; }
      return waits;
    }
  }

  // An exit code of ssh that is neither the script's nor a dropped connection's; -1 is a signal.
  type OtherCode = c: int | c != 0 && c != INSTALL_DIED && c != TRANSPORT_FAILURE witness -1

  // How a connection ends: with the script's own exit, with a drop, or otherwise.
  datatype End = Whole | Drops | Other(code: OtherCode)

  /** One connection: whether ssh runs at all, how long the script gets, how it ends, how many
    * bytes arrive when it does not end whole, how many of them the local output takes, and
    * whether a wait after a drop runs to its end. */
  datatype Session = Session(starts: bool, rounds: nat, end: End, arrives: nat, accepts: Option<nat>, waits: bool) {
    // Nothing between the script and the local output is lost.
    predicate Clean() { end == Whole && accepts.None? }
  }

  datatype Followed = Installed | InstallFailed(code: int) | Died | Lost

  // When the last look was, when each connection cut off had begun, and when the last one did.
  datatype Course = Course(t: nat, begins: seq<nat>, last: nat)

  /** What an end of following says: a success has shown the whole log and the exit code was 0; a
    * failure the script reports means it never was, and its code is the install's; a death, that
    * there never is a marker. Six connections at most were cut off, and an answer comes
    * from a script that could end. */
  ghost predicate Ended(r: Install, sessions: nat -> Session, shown: seq<byte>, res: Followed, c: Course) {
    var cuts, t := |c.begins|, c.t;
    && shown <= r.log(t)
    && (res == Installed ==> shown == r.log(t) && r.done(t) == Some(0) && forall u: nat :: r.done(u).Some? ==> r.done(u) == Some(0))
    && (res.InstallFailed? && !sessions(cuts).end.Other? ==>
          r.done(t).Some? && Reported(r.done(t).value, res.code) && forall u: nat :: r.done(u) != Some(0))
    && (res.InstallFailed? && sessions(cuts).end.Other? ==> res.code == sessions(cuts).end.code)
    && (res == Died ==> !r.held(t) && forall u: nat :: r.done(u) == None)
    && (res != Lost && sessions(cuts).Clean() ==> shown == r.log(t))
    && cuts <= 6 && (forall k :: 0 <= k < cuts - 1 ==> sessions(k).starts && sessions(k).waits)
    && CutsUntil(r, sessions, c.begins, c.last)
    && (res != Lost && !sessions(cuts).end.Other? ==>
          !sessions(cuts).end.Drops? && !Undecided(r, c.last, sessions(cuts).rounds))
    && (res == Lost ==> cuts == 6 || !sessions(cuts).starts || sessions(cuts).accepts.Some? || (cuts > 0 && !sessions(cuts - 1).waits))
    && (res != Lost ==> cuts < 6 && sessions(cuts).starts)
  }

  /** However often the connection drops, and at whichever byte: the bytes counted are the
    * first bytes of the log, each once. A success has shown the whole log, and the install's
    * exit code was 0; so has any end of the install that came over a clean connection. */
  method FollowInstall(r: Install, sessions: nat -> Session, out: CountingWriter) returns (res: Followed, ghost c: Course)
    requires Runs(r) && out.Valid() && out.bytes == []
    modifies out
    ensures out.Valid() && out.bytes <= r.log(c.t)
    ensures res == Installed ==> out.bytes == r.log(c.t) && r.done(c.t) == Some(0)
    ensures Ended(r, sessions, out.bytes, res, c)
  {
    hide Undecided, Reported, Runs, CutsUntil;
    var retry := new Retrier();
    NoCuts(r, sessions);
    var now := 0;
    ghost var t, cuts, last := 0, 0, 0;
    ghost var begins: seq<nat> := [];
    while true
      invariant cuts == retry.failures && forall k :: 0 <= k < cuts ==> sessions(k).starts && sessions(k).waits
      invariant out.Valid() && out.bytes <= r.log(now) && t == now && retry.failures < MAX_ATTEMPTS
      invariant fresh(retry) && |begins| == cuts && CutsUntil(r, sessions, begins, now)
      decreases MAX_ATTEMPTS - retry.failures
    {
      last := now;
      var s := sessions(retry.failures);
      if !s.starts { return Lost, Course(t, begins, last); }
      var code, ok, t' := Connect(r, s, now, out);
      now, t := t', t';
      if s.end.Other? { return InstallFailed(s.end.code), Course(t, begins, last); }
      if s.end.Drops? || code.None? {
        CutMore(r, sessions, begins, last, now);
        begins := begins + [last];
        var goOn := retry.Cut(s.waits);
        cuts, last := cuts + 1, now;
        if !goOn { return Lost, Course(t, begins, last); }
        continue;
      }
      if code.value == 0 {
        // A local write error is seen only behind a successful exit.
        CodeZero(r.done(t).value);
        if !ok { return Lost, Course(t, begins, last); }
        SameCode(r, t);
        return Installed, Course(t, begins, last);
      }
      if code.value == INSTALL_DIED {
        NeverDone(r, t);
        return Died, Course(t, begins, last);
      }
      CodeZero(r.done(t).value);
      SameCode(r, t);
      return InstallFailed(code.value), Course(t, begins, last);
    }
  }

  lemma CodeZero(rc: uint8)
    ensures Reported(rc, 0) ==> rc == 0
    ensures forall code :: Reported(rc, code) ==> (code == 0 <==> rc == 0)
  {
  }

  // One connection: the script runs, and what arrives is written to the output.
  method Connect(r: Install, s: Session, now: nat, out: CountingWriter) returns (code: Option<uint8>, ok: bool, t: nat)
    requires Runs(r) && out.Valid() && out.bytes <= r.log(now)
    modifies out
    ensures now <= t && out.Valid() && out.bytes <= r.log(t)
    ensures s.end.Whole? && code.Some? && ok ==> out.bytes == r.log(t)
    ensures s.accepts.None? ==> ok
    ensures code.None? <==> Undecided(r, now, s.rounds)
    ensures code.Some? && code.value != INSTALL_DIED ==> r.done(t).Some? && Reported(r.done(t).value, code.value)
    ensures code == Some(INSTALL_DIED) ==> !r.held(t) && r.done(t).None?
    ensures code != Some(TRANSPORT_FAILURE)
  {
    hide Undecided, Runs;
    ghost var had := out.bytes;
    var sent;
    sent, code, t := FollowScript(r, now, out.n, s.rounds);
    LaterLog(r, now, t);
    Shown(had, sent, r.log(t));
    var arrived := if s.end == Whole && code.Some? then sent else sent[..Min(s.arrives, |sent|)];
    var n;
    n, ok := out.Write(arrived, s.accepts);
    assert had + arrived[..n] <= r.log(t);
  }

  // The connection was dropped, or closed before the script could end.
  ghost predicate CutOff(r: Install, s: Session, begin: nat) {
    s.starts && (s.end.Drops? || (s.end.Whole? && Undecided(r, begin, s.rounds)))
  }

  // The connections so far, begun at these times, were all cut off.
  ghost predicate CutsUntil(r: Install, sessions: nat -> Session, begins: seq<nat>, now: nat) {
    && (forall k :: 0 <= k < |begins| ==> begins[k] <= now && CutOff(r, sessions(k), begins[k]))
    && (forall i, j :: 0 <= i < j < |begins| ==> begins[i] <= begins[j])
  }

  lemma CutMore(r: Install, sessions: nat -> Session, begins: seq<nat>, begin: nat, now: nat)
    requires CutsUntil(r, sessions, begins, begin) && CutOff(r, sessions(|begins|), begin) && begin <= now
    ensures CutsUntil(r, sessions, begins + [begin], now)
  {
  }

  lemma NoCuts(r: Install, sessions: nat -> Session)
    ensures CutsUntil(r, sessions, [], 0)
  {
  }

  lemma Shown(had: seq<byte>, sent: seq<byte>, log: seq<byte>)
    requires had <= log && sent <= log[|had|..]
    ensures forall n :: 0 <= n <= |sent| ==> had + sent[..n] <= log
    ensures sent == log[|had|..] ==> had + sent == log
  {
    assert forall n :: 0 <= n <= |sent| ==> sent[..n] <= log[|had|..];
  }

  lemma NeverDone(r: Install, t: nat)
    requires Runs(r) && !r.held(t) && r.done(t) == None
    ensures forall u: nat :: r.done(u) == None
  {
    forall u: nat ensures r.done(u) == None {
      if u <= t { LaterLog(r, u, t); } else { LaterLog(r, t, u); }
    }
  }

  /** The exit code of a finished install decides what any follow that ends with it reports. */
  lemma OneExitCode(r: Install, t: nat, u: nat)
    requires Runs(r) && r.done(t).Some? && r.done(u).Some?
    ensures r.done(t) == r.done(u)
  {
    if t <= u { LaterLog(r, t, u); } else { LaterLog(r, u, t); }
  }

  lemma SameCode(r: Install, t: nat)
    requires Runs(r) && r.done(t).Some?
    ensures forall u: nat :: r.done(u).Some? ==> r.done(u) == r.done(t)
  {
    forall u: nat | r.done(u).Some? ensures r.done(u) == r.done(t) { OneExitCode(r, t, u); }
  }

  // Nothing writes to the log once the marker is there.
  ghost predicate CompleteAtMarker(r: Install) {
    forall t: nat :: EndsAt(r, t)
  }

  predicate EndsAt(r: Install, t: nat) { r.done(t).Some? ==> r.log(t + 1) == r.log(t) }

  /** If the log is complete when the marker appears, a follow that ended with the marker has
    * shown all there will ever be. */
  lemma {:induction false} WholeLog(r: Install, t: nat, u: nat)
    requires Runs(r) && CompleteAtMarker(r) && r.done(t).Some? && t <= u
    ensures r.log(u) == r.log(t)
    decreases u - t
  {
    if t < u {
      assert Advances(r, t) && EndsAt(r, t);
      WholeLog(r, t + 1, u);
    }
  }
}
