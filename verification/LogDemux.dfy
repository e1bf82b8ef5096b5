/** demux in internal/dockerdrv/logs.go: Docker's multiplexed log stream taken apart. */
module LogDemux {
  import opened Wrappers
  import opened Bytes

  const HEADER := 8
  const STDERR := 2
  const CHUNK := 32768

  // The stream's kind, three bytes that are not looked at, and the payload.
  datatype Frame = Frame(kind: byte, pad: seq<byte>, payload: seq<byte>) {
    predicate Valid() { |pad| == 3 && |payload| < 0x1_0000_0000 }
  }

  type ValidFrame = f: Frame | f.Valid() witness Frame(0, [0, 0, 0], [])

  datatype Chunk = Chunk(data: seq<byte>, isStderr: bool)

  function EncodeFrame(f: ValidFrame): seq<byte> { [f.kind] + f.pad + BigEndian(|f.payload|, 4) + f.payload }

  function Encode(fs: seq<ValidFrame>): seq<byte> {
    if fs == [] then [] else EncodeFrame(fs[0]) + Encode(fs[1..])
  }

  // ---- What a stream yields ----

  datatype Outcome = Outcome(chunks: seq<Chunk>, clean: bool)

  function Before(c: seq<Chunk>, o: Outcome): Outcome { o.(chunks := c + o.chunks) }

  // The stream from a frame boundary on.
  function Decoded(data: seq<byte>): Outcome
    decreases |data|, 0
  {
    if data == [] then Outcome([], true)
    else if |data| < HEADER then Outcome([], false)
    else Body(data[HEADER..], FromBigEndian(data[4..HEADER]), data[0] == STDERR)
  }

  // The stream from inside a frame on.
  function Body(data: seq<byte>, remaining: nat, isStderr: bool): Outcome
    decreases |data|, 1
  {
    if remaining == 0 then Decoded(data)
    else
      var n := Min(CHUNK, remaining);
      if |data| < n then Outcome([], false)
      else Before([Chunk(data[..n], isStderr)], Body(data[n..], remaining - n, isStderr))
  }

  // A payload cut into chunks.
  function Chunks(payload: seq<byte>, isStderr: bool): seq<Chunk> {
    if payload == [] then []
    else var n := Min(CHUNK, |payload|); [Chunk(payload[..n], isStderr)] + Chunks(payload[n..], isStderr)
  }

  function AllChunks(fs: seq<ValidFrame>): seq<Chunk> {
    if fs == [] then [] else Chunks(fs[0].payload, fs[0].kind == STDERR) + AllChunks(fs[1..])
  }

  function Joined(cs: seq<Chunk>): seq<byte> {
    if cs == [] then [] else cs[0].data + Joined(cs[1..])
  }

  /** The chunks of a payload are the payload in order, none empty, none over 32 KiB, all of
    * its stream. */
  lemma {:induction false} ChunksJoin(payload: seq<byte>, isStderr: bool)
    ensures Joined(Chunks(payload, isStderr)) == payload
    ensures forall c :: c in Chunks(payload, isStderr) ==> 1 <= |c.data| <= CHUNK && c.isStderr == isStderr
    decreases |payload|
  {
    if payload != [] {
      var n := Min(CHUNK, |payload|);
      ChunksJoin(payload[n..], isStderr);
      assert payload == payload[..n] + payload[n..];
      assert Chunks(payload, isStderr)[1..] == Chunks(payload[n..], isStderr);
    }
  }

  lemma {:induction false} BodyWhole(payload: seq<byte>, rest: seq<byte>, isStderr: bool)
    ensures Body(payload + rest, |payload|, isStderr) == Before(Chunks(payload, isStderr), Decoded(rest))
    decreases |payload|
  {
    var data := payload + rest;
    if payload == [] {
      assert data == rest;
    } else {
      var n := Min(CHUNK, |payload|);
      assert data[..n] == payload[..n] && data[n..] == payload[n..] + rest;
      BodyWhole(payload[n..], rest, isStderr);
    }
  }

  lemma FrameHeader(f: ValidFrame, rest: seq<byte>)
    ensures var data := EncodeFrame(f) + rest;
      && |data| >= HEADER && data[0] == f.kind && FromBigEndian(data[4..HEADER]) == |f.payload|
      && data[HEADER..] == f.payload + rest
  {
    hide FromBigEndian, BigEndian, Pow256;
    Pow256Of8();
    BigEndianRoundTrip(|f.payload|, 4);
    var length := BigEndian(|f.payload|, 4);
    var data := EncodeFrame(f) + rest;
    assert data == [f.kind] + f.pad + length + (f.payload + rest);
    assert data[4..HEADER] == length;
  }

  lemma DecodedFrame(f: ValidFrame, rest: seq<byte>)
    ensures Decoded(EncodeFrame(f) + rest) == Body(f.payload + rest, |f.payload|, f.kind == STDERR)
  {
    FrameHeader(f, rest);
    hide EncodeFrame, FromBigEndian, Body;
  }

  /** Any list of frames comes out as its payloads in order, each in chunks of its own stream,
    * and the stream ends cleanly. */
  lemma {:induction false} DecodesFrames(fs: seq<ValidFrame>, rest: seq<byte>)
    ensures Decoded(Encode(fs) + rest) == Before(AllChunks(fs), Decoded(rest))
  {
    hide Decoded, Body, EncodeFrame, Chunks;
    if fs == [] {
      assert Encode(fs) + rest == rest;
    } else {
      var f := fs[0];
      var tail := Encode(fs[1..]) + rest;
      assert Encode(fs) + rest == EncodeFrame(f) + tail;
      DecodedFrame(f, tail);
      BodyWhole(f.payload, tail, f.kind == STDERR);
      DecodesFrames(fs[1..], rest);
    }
  }

  lemma {:induction false} BodyClean(data: seq<byte>, remaining: nat, isStderr: bool)
    requires Body(data, remaining, isStderr).clean
    ensures remaining <= |data| && Decoded(data[remaining..]).clean
    decreases |data|
  {
    if remaining == 0 {
      assert data[0..] == data;
    } else {
      var n := Min(CHUNK, remaining);
      BodyClean(data[n..], remaining - n, isStderr);
      assert data[n..][remaining - n..] == data[remaining..];
    }
  }

  lemma {:induction false} CleanFrames(data: seq<byte>) returns (fs: seq<ValidFrame>)
    requires Decoded(data).clean
    ensures data == Encode(fs)
    decreases |data|
  {
    if data == [] {
      fs := [];
    } else {
      Pow256Of8();
      var n := FromBigEndian(data[4..HEADER]);
      BodyClean(data[HEADER..], n, data[0] == STDERR);
      hide Decoded, Body, FromBigEndian, BigEndian, Pow256;
      var f := FrontFrame(data, n);
      var rest := CleanFrames(data[HEADER..][n..]);
      fs := [f] + rest;
    }
  }

  lemma FrontFrame(data: seq<byte>, n: nat) returns (f: ValidFrame)
    requires |data| >= HEADER && n == FromBigEndian(data[4..HEADER]) <= |data| - HEADER && n < 0x1_0000_0000
    ensures data == EncodeFrame(f) + data[HEADER..][n..]
  {
    hide FromBigEndian, BigEndian;
    FromBigEndianRoundTrip(data[4..HEADER]);
    var payload := data[HEADER..][..n];
    f := Frame(data[0], data[1..4], payload);
    assert data == [data[0]] + data[1..4] + data[4..HEADER] + data[HEADER..];
    assert data[HEADER..] == payload + data[HEADER..][n..];
  }

  /** The stream ends cleanly iff it is a whole number of frames. */
  lemma CleanIff(data: seq<byte>)
    ensures Decoded(data).clean <==> exists fs: seq<ValidFrame> :: data == Encode(fs)
  {
    if Decoded(data).clean {
      var fs := CleanFrames(data);
    }
    forall fs: seq<ValidFrame> | data == Encode(fs) ensures Decoded(data).clean {
      DecodesFrames(fs, []);
      assert Encode(fs) + [] == data;
    }
  }

  /** A frame that breaks off: in its header nothing comes of it, in its payload the whole 32 KiB
    * pieces that arrived, and either way the end is not clean. */
  lemma CutFrame(f: ValidFrame, n: nat)
    requires 0 < n < |EncodeFrame(f)|
    ensures Decoded(EncodeFrame(f)[..n]) ==
      Outcome(if n < 8 then [] else Chunks(f.payload[..n - 8 - (n - 8) % 32768], f.kind == STDERR), false)
  {
    var data := EncodeFrame(f)[..n];
    if n >= HEADER {
      FrameHeader(f, []);
      assert EncodeFrame(f) + [] == EncodeFrame(f);
      assert data[4..HEADER] == EncodeFrame(f)[4..HEADER];
      assert data[HEADER..] == EncodeFrame(f)[HEADER..][..n - HEADER] == f.payload[..n - HEADER];
      hide EncodeFrame, FromBigEndian, BigEndian;
      CutBody(f.payload, n - HEADER, f.kind == STDERR);
    }
  }

  lemma {:induction false} CutBody(payload: seq<byte>, n: nat, isStderr: bool)
    requires n < |payload|
    ensures Body(payload[..n], |payload|, isStderr) == Outcome(Chunks(payload[..n - n % CHUNK], isStderr), false)
    decreases |payload|
  {
    if n >= CHUNK {
      CutBody(payload[CHUNK..], n - CHUNK, isStderr);
      assert payload[..n][CHUNK..] == payload[CHUNK..][..n - CHUNK];
      assert payload[..n][..CHUNK] == payload[..n - n % CHUNK][..CHUNK];
      assert (n - CHUNK) % CHUNK == n % CHUNK;
      assert payload[..n - n % CHUNK][CHUNK..] == payload[CHUNK..][..n - CHUNK - n % CHUNK];
    }
  }

  // ---- The loop ----

  datatype Read = Full | AtEnd | Cut

  /** A reader: its bytes, and whether it ends with EOF or with an error of its own. */
  class Reader {
    const data: seq<byte>
    const eof: bool
    var pos: nat

    constructor (data: seq<byte>, eof: bool)
      ensures this.data == data && this.eof == eof && pos == 0
    {
      this.data, this.eof, pos := data, eof, 0;
    }

    // io.ReadFull into the first n bytes of buf: EOF only when nothing at all was read.
    method ReadFull(buf: array<byte>, n: nat) returns (r: Read)
      requires 0 < n <= buf.Length && pos <= |data|
      modifies this, buf
      ensures pos <= |data|
      ensures r == Full <==> old(pos) + n <= |data|
      ensures r == Full ==> pos == old(pos) + n && buf[..n] == data[old(pos)..pos]
      ensures r == AtEnd <==> old(pos) == |data| && eof
    {
      if pos + n > |data| {
        r := if pos == |data| && eof then AtEnd else Cut;
        pos := |data|;
        return;
      }
      forall i | 0 <= i < n { buf[i] := data[pos + i]; }
      pos := pos + n;
      return Full;
    }
  }

  class Sink {
    var chunks: seq<Chunk>
    const accepts: nat -> bool

    constructor (accepts: nat -> bool)
      ensures chunks == [] && this.accepts == accepts
    {
      this.accepts, chunks := accepts, [];
    }

    method Put(c: Chunk) returns (ok: bool)
      modifies this
      ensures chunks == old(chunks) + [c] && (ok <==> accepts(|old(chunks)|))
    {
      ok := accepts(|chunks|);
      chunks := chunks + [c];
    }
  }

  /** With a sink that takes everything, demux delivers exactly what the stream yields, and
    * reports no error iff the stream ends with EOF on a frame boundary. A sink that refuses
    * has been given the chunks up to there. */
  method Demux(r: Reader, sink: Sink) returns (ok: bool)
    requires r.pos == 0 && sink.chunks == []
    modifies r, sink
    ensures sink.chunks <= Decoded(r.data).chunks
    ensures (forall k: nat :: sink.accepts(k)) ==> sink.chunks == Decoded(r.data).chunks && (ok <==> Decoded(r.data).clean && r.eof)
    ensures ok ==> sink.chunks == Decoded(r.data).chunks && Decoded(r.data).clean && r.eof
    ensures forall k :: 0 <= k < |sink.chunks| - 1 ==> sink.accepts(k)
    ensures sink.chunks == [] || sink.accepts(|sink.chunks| - 1) ==>
      sink.chunks == Decoded(r.data).chunks && (ok <==> Decoded(r.data).clean && r.eof)
  {
    hide Decoded, Body, FromBigEndian;
    var hdr := new byte[HEADER];
    var buf := new byte[CHUNK];
    assert r.data[0..] == r.data;
    while true
      invariant fresh(hdr) && fresh(buf) && hdr.Length == HEADER && buf.Length == CHUNK
      invariant r.pos <= |r.data| && forall k :: 0 <= k < |sink.chunks| ==> sink.accepts(k)
      invariant Decoded(r.data) == Before(sink.chunks, Decoded(r.data[r.pos..]))
      decreases |r.data| - r.pos
    {
      ghost var from := r.pos;
      DecodedStep(r.data[from..]);
      var read := r.ReadFull(hdr, HEADER);
      if read == AtEnd {
        assert r.data[from..] == [];
        return true;
      }
      if read == Cut { return false; }
      ghost var data := r.data[from..];
      DropMore(r.data, from, HEADER);
      assert hdr[..HEADER] == data[..HEADER];
      var isStderr := hdr[0] == STDERR;
      var remaining := FromBigEndian(hdr[4..HEADER]);
      assert hdr[4..HEADER] == hdr[..HEADER][4..HEADER] == data[4..HEADER];
      while remaining > 0
        invariant r.pos <= |r.data| && r.pos >= from + HEADER && 0 <= remaining
        invariant hdr.Length == HEADER && buf.Length == CHUNK && forall k :: 0 <= k < |sink.chunks| ==> sink.accepts(k)
        invariant Decoded(r.data) == Before(sink.chunks, Body(r.data[r.pos..], remaining, isStderr))
        decreases remaining
      {
        var n := Min(buf.Length, remaining);
        ghost var at := r.pos;
        BodyStep(r.data[at..], remaining, isStderr);
        var got := r.ReadFull(buf, n);
        if got != Full { return false; }
        ghost var body := r.data[at..];
        DropMore(r.data, at, n);
        assert body[..n] == buf[..n];
        BeforeMore(sink.chunks, Chunk(buf[..n], isStderr), Body(body[n..], remaining - n, isStderr));
        var took := sink.Put(Chunk(buf[..n], isStderr));
        if !took { return false; }
        remaining := remaining - n;
      }
      BodyEnd(r.data[r.pos..], isStderr);
    }
  }

  lemma DecodedStep(data: seq<byte>)
    ensures data == [] ==> Decoded(data) == Outcome([], true)
    ensures 0 < |data| < HEADER ==> Decoded(data) == Outcome([], false)
    ensures |data| >= HEADER ==> Decoded(data) == Body(data[HEADER..], FromBigEndian(data[4..HEADER]), data[0] == STDERR)
  {
  }

  lemma BodyStep(data: seq<byte>, remaining: nat, isStderr: bool)
    requires remaining > 0
    ensures var n := Min(CHUNK, remaining);
      Body(data, remaining, isStderr) ==
        if |data| < n then Outcome([], false)
        else Before([Chunk(data[..n], isStderr)], Body(data[n..], remaining - n, isStderr))
  {
  }

  lemma DropMore(data: seq<byte>, at: nat, n: nat)
    requires at + n <= |data|
    ensures data[at..][..n] == data[at..at + n] && data[at..][n..] == data[at + n..]
  {
  }

  lemma BodyEnd(data: seq<byte>, isStderr: bool)
    ensures Body(data, 0, isStderr) == Decoded(data)
  {
  }

  lemma BeforeMore(done: seq<Chunk>, c: Chunk, o: Outcome)
    ensures Before(done, Before([c], o)) == Before(done + [c], o)
  {
    assert done + ([c] + o.chunks) == done + [c] + o.chunks;
  }
}
