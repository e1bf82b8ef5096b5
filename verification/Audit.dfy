/** internal/audit/audit.go: the canonical encoding, sealing and verification of
  * the audit hash chain. */
module Audit {
  import opened Wrappers
  import opened Bytes

  // ---- Data model ----

  // A Go string: bytes, no longer than an int can count.
  type Text = s: seq<byte> | |s| <= MAX_INT

  const HASH_SIZE := 32
  const ZEROS: seq<byte> :=
    [0, 0, 0, 0, 0, 0, 0, 0, 0, 0, 0, 0, 0, 0, 0, 0, 0, 0, 0, 0, 0, 0, 0, 0, 0, 0, 0, 0, 0, 0, 0, 0]
  type Digest = d: seq<byte> | |d| == HASH_SIZE witness ZEROS

  // SHA-256 (FIPS 180-4) is any total function to 32 bytes.
  type HashFn = seq<byte> -> Digest

  const GENESIS: Digest := ZEROS

  datatype Actor = Actor(keyFingerprint: Text, sourceIP: Text, actorLabel: Text, origin: Text)

  // The fields ComputeHash reads. ts is TS.UnixNano(): nanosecond resolution.
  datatype Body = Body(
    seqNo: uint64, ts: int64, actor: Actor, action: Text, target: Text, paramsJSON: Text,
    outcome: uint8, detail: Text, source: uint8, prevHash: Digest)

  // Record.Hash is not hashed.
  datatype Record = Record(body: Body, hash: Digest)

  // A record's digest as a function of its hashed fields.
  type Hasher = Body -> Digest

  // A Go slice of records.
  type Records = rs: seq<Record> | |rs| <= MAX_INT

  const SOURCE_DAEMON: uint8 := 1
  const SOURCE_EXECUTOR: uint8 := 2

  predicate ValidSource(s: uint8) { s == SOURCE_DAEMON || s == SOURCE_EXECUTOR }

  predicate ValidOutcome(o: uint8) { 1 <= o <= 3 }

  // ---- Canonical encoding ----

  // What ComputeHash feeds the hash: integers, length-prefixed strings, one raw digest.
  datatype Field = Uint(v: uint64) | Str(s: Text) | Raw(d: Digest)

  function EncodeField(f: Field): seq<byte> {
    match f
    case Uint(v) => BigEndian(v, 8)
    case Str(s) => BigEndian(|s|, 8) + s
    case Raw(d) => d
  }

  function Encode(fs: seq<Field>): seq<byte> {
    if fs == [] then [] else EncodeField(fs[0]) + Encode(fs[1..])
  }

  // uint64(int64): two's complement.
  function ToUint64(v: int64): uint64 {
    if v < 0 then v + 0x1_0000_0000_0000_0000 else v
  }

  function HashedFields(r: Body): seq<Field> {
    [ Uint(r.seqNo), Uint(ToUint64(r.ts)),
      Str(r.actor.keyFingerprint), Str(r.actor.sourceIP), Str(r.actor.actorLabel), Str(r.actor.origin),
      Str(r.action), Str(r.target), Str(r.paramsJSON),
      Uint(r.outcome), Str(r.detail), Uint(r.source), Raw(r.prevHash) ]
  }

  function Preimage(r: Body): seq<byte> { Encode(HashedFields(r)) }

  function ComputeHash(sha256: HashFn): Hasher { r => sha256(Preimage(r)) }

  // Places the record at the given position; its digest is computed last.
  function Seal(h: Hasher, r: Body, seqNo: uint64, prev: Digest): Record {
    var s := r.(seqNo := seqNo, prevHash := prev);
    Record(s, h(s))
  }

  // ---- The encoding is injective ----

  predicate SameShape(a: Field, b: Field) {
    (a.Uint? <==> b.Uint?) && (a.Str? <==> b.Str?)
  }

  lemma EncodeFieldPrefix(a: Field, x: seq<byte>, b: Field, y: seq<byte>)
    requires SameShape(a, b)
    requires EncodeField(a) + x == EncodeField(b) + y
    ensures a == b && x == y
  {
    Pow256Of8();
    var l, r := EncodeField(a) + x, EncodeField(b) + y;
    match a {
      case Uint(v) =>
        assert l[..8] == BigEndian(v, 8) && r[..8] == BigEndian(b.v, 8);
        BigEndianInjective(v, b.v, 8);
        assert l[8..] == x && r[8..] == y;
      case Str(s) =>
        assert l[..8] == BigEndian(|s|, 8) && r[..8] == BigEndian(|b.s|, 8);
        BigEndianInjective(|s|, |b.s|, 8);
        assert l[8..8 + |s|] == s && r[8..8 + |s|] == b.s;
        assert l[8 + |s|..] == x && r[8 + |s|..] == y;
      case Raw(d) =>
        assert l[..HASH_SIZE] == d && r[..HASH_SIZE] == b.d;
        assert l[HASH_SIZE..] == x && r[HASH_SIZE..] == y;
    }
  }

  lemma {:induction false} EncodeInjective(fs: seq<Field>, gs: seq<Field>)
    requires |fs| == |gs| && forall i :: 0 <= i < |fs| ==> SameShape(fs[i], gs[i])
    requires Encode(fs) == Encode(gs)
    ensures fs == gs
  {
    if fs != [] {
      EncodeFieldPrefix(fs[0], Encode(fs[1..]), gs[0], Encode(gs[1..]));
      EncodeInjective(fs[1..], gs[1..]);
      assert fs == [fs[0]] + fs[1..] && gs == [gs[0]] + gs[1..];
    }
  }

  /** Records with the same preimage agree on every hashed field. */
  lemma PreimageInjective(a: Body, b: Body)
    requires Preimage(a) == Preimage(b)
    ensures a == b
  {
    var fs, gs := HashedFields(a), HashedFields(b);
    EncodeInjective(fs, gs);
    assert fs[0] == gs[0] && fs[1] == gs[1] && fs[2] == gs[2] && fs[3] == gs[3] && fs[4] == gs[4];
    assert fs[5] == gs[5] && fs[6] == gs[6] && fs[7] == gs[7] && fs[8] == gs[8] && fs[9] == gs[9];
    assert fs[10] == gs[10] && fs[11] == gs[11] && fs[12] == gs[12];
  }

  // ---- Chains ----

  function HeadOf(rs: seq<Record>): Digest {
    if rs == [] then GENESIS else rs[|rs| - 1].hash
  }

  // r may stand right after the records before it.
  predicate Follows(h: Hasher, before: seq<Record>, r: Record) {
    && r.body.seqNo == |before| + 1
    && r.body.prevHash == HeadOf(before)
    && ValidOutcome(r.body.outcome)
    && ValidSource(r.body.source)
    && r.hash == h(r.body)
  }

  predicate ValidChain(h: Hasher, rs: seq<Record>) {
    rs == [] || (ValidChain(h, rs[..|rs| - 1]) && Follows(h, rs[..|rs| - 1], rs[|rs| - 1]))
  }

  // The length of the longest valid prefix.
  predicate IsValidPrefixLength(h: Hasher, rs: seq<Record>, n: nat) {
    n <= |rs| && ValidChain(h, rs[..n]) && (n < |rs| ==> !Follows(h, rs[..n], rs[n]))
  }

  /** Every prefix of a valid chain is valid, and each record follows the ones before it. */
  lemma {:induction false} ValidPrefix(h: Hasher, rs: seq<Record>, n: nat)
    requires ValidChain(h, rs) && n <= |rs|
    ensures ValidChain(h, rs[..n])
    ensures n < |rs| ==> Follows(h, rs[..n], rs[n])
  {
    if n == |rs| {
      assert rs[..n] == rs;
    } else if n < |rs| - 1 {
      ValidPrefix(h, rs[..|rs| - 1], n);
      assert rs[..|rs| - 1][..n] == rs[..n];
    }
  }

  lemma ValidExtend(h: Hasher, rs: seq<Record>, r: Record)
    requires ValidChain(h, rs)
    ensures ValidChain(h, rs + [r]) <==> Follows(h, rs, r)
  {
    assert (rs + [r])[..|rs|] == rs;
  }

  /** Sealing at the head of a chain extends the chain. */
  lemma SealExtends(h: Hasher, rs: seq<Record>, r: Body)
    requires ValidChain(h, rs) && |rs| < MAX_INT
    requires ValidOutcome(r.outcome) && ValidSource(r.source)
    ensures ValidChain(h, rs + [Seal(h, r, |rs| + 1, HeadOf(rs))])
  {
    ValidExtend(h, rs, Seal(h, r, |rs| + 1, HeadOf(rs)));
  }

  // Two different inputs with the same digest.
  predicate Collision(sha256: HashFn, x: seq<byte>, y: seq<byte>) {
    x != y && sha256(x) == sha256(y)
  }

  // Some record of a and some record of b collide.
  ghost predicate ChainsCollide(sha256: HashFn, a: seq<Record>, b: seq<Record>) {
    exists i, j :: 0 <= i < |a| && 0 <= j < |b| && Collision(sha256, Preimage(a[i].body), Preimage(b[j].body))
  }

  lemma SameHeadSameLast(sha256: HashFn, a: seq<Record>, x: Record, b: seq<Record>, y: Record)
    requires Follows(ComputeHash(sha256), a, x) && Follows(ComputeHash(sha256), b, y) && x.hash == y.hash
    ensures Collision(sha256, Preimage(x.body), Preimage(y.body))
         || (x == y && |a| == |b| && HeadOf(a) == HeadOf(b))
  {
    if Preimage(x.body) == Preimage(y.body) {
      PreimageInjective(x.body, y.body);
    }
  }

  lemma CollisionOfPrefixes(sha256: HashFn, a: seq<Record>, b: seq<Record>, n: nat)
    requires n <= |a| && n <= |b| && ChainsCollide(sha256, a[..n], b[..n])
    ensures ChainsCollide(sha256, a, b)
  {
    var i, j :| 0 <= i < n && 0 <= j < n
      && Collision(sha256, Preimage(a[..n][i].body), Preimage(b[..n][j].body));
    assert Collision(sha256, Preimage(a[i].body), Preimage(b[j].body));
  }

  /** Tamper evidence. Two non-empty chains that verify and end in the same head
    * are the same records, unless two of their records are a SHA-256 collision. */
  lemma {:induction false} SameHeadSameChain(sha256: HashFn, a: seq<Record>, b: seq<Record>)
    requires ValidChain(ComputeHash(sha256), a) && ValidChain(ComputeHash(sha256), b)
    requires a != [] && b != [] && HeadOf(a) == HeadOf(b)
    ensures a == b || ChainsCollide(sha256, a, b)
    decreases |a|
  {
    var n, m := |a| - 1, |b| - 1;
    SameHeadSameLast(sha256, a[..n], a[n], b[..m], b[m]);
    if !Collision(sha256, Preimage(a[n].body), Preimage(b[m].body)) {
      assert n == m;
      assert a == a[..n] + [a[n]] && b == b[..n] + [b[n]];
      if n > 0 {
        SameHeadSameChain(sha256, a[..n], b[..n]);
        if ChainsCollide(sha256, a[..n], b[..n]) {
          CollisionOfPrefixes(sha256, a, b, n);
        }
      }
    }
  }

  // ---- The streaming verifier ----

  // The five ways Next refuses a record, in the order it tests them.
  datatype ChainError = SeqGap | PrevMismatch | BadOutcome | BadSource | HashMismatch

  // The first of the five that applies to a record behind the ones before it.
  predicate FaultIs(h: Hasher, before: seq<Record>, r: Record, e: ChainError) {
    e == if r.body.seqNo != |before| + 1 then SeqGap
         else if r.body.prevHash != HeadOf(before) then PrevMismatch
         else if !(1 <= r.body.outcome <= 3) then BadOutcome
         else if r.body.source != 1 && r.body.source != 2 then BadSource
         else HashMismatch
  }

  class Verifier {
    const h: Hasher
    var prev: Digest
    var nextSeq: uint64
    var count: uint64
    // The records accepted so far.
    ghost var accepted: seq<Record>

    ghost predicate Valid()
      reads this
    {
      && ValidChain(h, accepted)
      && prev == HeadOf(accepted)
      && nextSeq == |accepted| + 1
      && count == |accepted|
    }

    constructor (h: Hasher)
      ensures this.h == h && Valid() && accepted == []
    {
      this.h := h;
      prev, nextSeq, count, accepted := GENESIS, 1, 0, [];
    }

    method Next(r: Record) returns (err: Option<ChainError>)
      requires Valid() && |accepted| < MAX_INT
      modifies this
      ensures Valid()
      ensures err.None? <==> Follows(h, old(accepted), r)
      ensures accepted == if err.None? then old(accepted) + [r] else old(accepted)
      ensures err.Some? ==> FaultIs(h, accepted, r, err.value)
      ensures err == Some(SeqGap) <==> r.body.seqNo != old(nextSeq)
      ensures err == Some(PrevMismatch) <==> r.body.seqNo == old(nextSeq) && r.body.prevHash != old(prev)
      ensures err == Some(BadOutcome) <==>
        r.body.seqNo == old(nextSeq) && r.body.prevHash == old(prev) && !ValidOutcome(r.body.outcome)
      ensures err == Some(BadSource) <==>
        r.body.seqNo == old(nextSeq) && r.body.prevHash == old(prev) && ValidOutcome(r.body.outcome) && !ValidSource(r.body.source)
      ensures err == Some(HashMismatch) <==>
        r.body.seqNo == old(nextSeq) && r.body.prevHash == old(prev) && ValidOutcome(r.body.outcome) && ValidSource(r.body.source) && r.hash != h(r.body)
    {
      if r.body.seqNo != nextSeq { return Some(SeqGap); }
      if r.body.prevHash != prev { return Some(PrevMismatch); }
      if !ValidOutcome(r.body.outcome) { return Some(BadOutcome); }
      if !ValidSource(r.body.source) { return Some(BadSource); }
      if h(r.body) != r.hash { return Some(HashMismatch); }
      ValidExtend(h, accepted, r);
      prev := r.hash;
      nextSeq := r.body.seqNo + 1;
      count := count + 1;
      accepted := accepted + [r];
      return None;
    }
  }

  lemma PrefixLengthDecides(h: Hasher, rs: seq<Record>, n: nat)
    requires IsValidPrefixLength(h, rs, n)
    ensures ValidChain(h, rs) <==> n == |rs|
  {
    if ValidChain(h, rs) {
      ValidPrefix(h, rs, n);
    }
    assert n == |rs| ==> rs[..n] == rs;
  }

  /** The whole slice is accepted iff it is a valid chain; otherwise the count is
    * the length of the longest valid prefix. */
  method VerifyAll(h: Hasher, rs: Records) returns (checked: uint64, err: Option<ChainError>)
    ensures IsValidPrefixLength(h, rs, checked)
    ensures err.None? <==> checked == |rs|
    ensures err.None? <==> ValidChain(h, rs)
    ensures err.Some? ==> FaultIs(h, rs[..checked], rs[checked], err.value)
  {
    hide ValidChain, Follows;
    var v := new Verifier(h);
    for i := 0 to |rs|
      invariant fresh(v) && v.h == h && v.Valid() && v.accepted == rs[..i]
    {
      err := v.Next(rs[i]);
      if err.Some? {
        assert IsValidPrefixLength(h, rs, i);
        PrefixLengthDecides(h, rs, i);
        return v.count, err;
      }
      assert rs[..i + 1] == rs[..i] + [rs[i]];
    }
    assert rs[..|rs|] == rs;
    PrefixLengthDecides(h, rs, |rs|);
    return v.count, None;
  }
}
