/** fingerprintOf in internal/bootstrap/keys.go: the walk over an SSH public key blob, a run of
  * length-prefixed strings (RFC 4251, section 5; RFC 4253, section 6.6). */
module KeyBlob {
  import opened Wrappers
  import opened Bytes

  type Part = p: seq<byte> | |p| < 0x1_0000_0000 witness []

  function EncodePart(p: Part): seq<byte> { BigEndian(|p|, 4) + p }

  function Encode(parts: seq<Part>): seq<byte> {
    if parts == [] then [] else EncodePart(parts[0]) + Encode(parts[1..])
  }

  // The number at the front, if the bytes it announces are there.
  function Front(blob: seq<byte>): (n: Option<nat>)
    ensures n.Some? ==> 4 + n.value <= |blob| && n.value < 0x1_0000_0000
  {
    if |blob| < 4 then None
    else
      Pow256Of8();
      var n := FromBigEndian(blob[..4]);
      if n > |blob| - 4 then None else Some(n)
  }

  lemma FrontOfPart(p: Part, rest: seq<byte>)
    ensures Front(EncodePart(p) + rest) == Some(|p|)
    ensures (EncodePart(p) + rest)[4..4 + |p|] == p && (EncodePart(p) + rest)[4 + |p|..] == rest
  {
    Pow256Of8();
    BigEndianRoundTrip(|p|, 4);
    assert (EncodePart(p) + rest)[..4] == BigEndian(|p|, 4);
  }

  lemma PartOfFront(blob: seq<byte>)
    requires Front(blob).Some?
    ensures var n := Front(blob).value; var p: Part := blob[4..4 + n];
      blob == EncodePart(p) + blob[4 + n..]
  {
    FromBigEndianRoundTrip(blob[..4]);
  }

  // The strings the blob consists of.
  function Parts(blob: seq<byte>): Option<seq<Part>>
    decreases |blob|
  {
    if blob == [] then Some([])
    else match Front(blob)
      case None => None
      case Some(n) =>
        match Parts(blob[4 + n..])
        case None => None
        case Some(ps) => Some([blob[4..4 + n]] + ps)
  }

  /** A blob consists of these strings iff it is their encoding. */
  lemma {:induction false} PartsIff(blob: seq<byte>, ps: seq<Part>)
    ensures Parts(blob) == Some(ps) <==> blob == Encode(ps)
    decreases |blob| + |ps|
  {
    if blob == Encode(ps) && ps != [] {
      FrontOfPart(ps[0], Encode(ps[1..]));
      PartsIff(Encode(ps[1..]), ps[1..]);
      assert ps == [ps[0]] + ps[1..];
    }
    if Parts(blob) == Some(ps) && blob != [] {
      var n := Front(blob).value;
      PartOfFront(blob);
      PartsIff(blob[4 + n..], ps[1..]);
    }
  }

  // The wire format: at least two strings, the first of them the key type.
  ghost predicate WireFormat(typ: seq<byte>, blob: seq<byte>) {
    exists ps: seq<Part> :: IsKey(typ, blob, ps)
  }

  predicate IsKey(typ: seq<byte>, blob: seq<byte>, ps: seq<Part>) {
    |ps| >= 2 && ps[0] == typ && blob == Encode(ps)
  }

  function IsKeyBlob(typ: seq<byte>, blob: seq<byte>): bool {
    match Parts(blob)
    case None => false
    case Some(ps) => |ps| >= 2 && ps[0] == typ
  }

  lemma IsKeyBlobIff(typ: seq<byte>, blob: seq<byte>)
    ensures IsKeyBlob(typ, blob) <==> WireFormat(typ, blob)
  {
    if Parts(blob).Some? {
      PartsIff(blob, Parts(blob).value);
      assert IsKeyBlob(typ, blob) ==> IsKey(typ, blob, Parts(blob).value);
    }
    if WireFormat(typ, blob) {
      var ps: seq<Part> :| IsKey(typ, blob, ps);
      PartsIff(blob, ps);
    }
  }

  const WORD := 0x1_0000_0000

  // The sums are 32 bits wide. A slice that ends before it begins panics, and a step of no bytes
  // never ends.
  datatype Verdict = Accepted | Refused | Panics | Spins

  /** The walk accepts exactly the wire format: a cut or lengthened blob is refused. Only in a
    * blob of 4 GiB or more can adding 4 to a length wrap around; if the first length does, the
    * walk panics, and if a later one is the largest it can be just below that, it never ends. */
  method CheckBlob(typ: seq<byte>, blob: seq<byte>) returns (v: Verdict, ghost wrapped: bool)
    ensures !wrapped ==> v == if WireFormat(typ, blob) then Accepted else Refused
    ensures wrapped ==> |blob| >= WORD
    ensures v == Panics <==> |blob| >= 4 && WORD <= 4 + FromBigEndian(blob[..4]) <= |blob|
  {
    hide Parts, FromBigEndian, WireFormat, Encode;
    wrapped := false;
    IsKeyBlobIff(typ, blob);
    PartsStep(blob);
    NoParts();
    if |blob| < 4 { return Refused, wrapped; }
    Pow256Of8();
    var n := FromBigEndian(blob[..4]);
    if n > |blob| - 4 { return Refused, wrapped; }
    if (4 + n) % WORD < 4 { return Panics, true; }
    if blob[4..4 + n] != typ { return Refused, wrapped; }
    var rest, count := blob[4 + n..], 0;
    ghost var seen: seq<Part> := [blob[4..4 + n]];
    while |rest| > 0
      invariant |rest| <= |blob| && (wrapped ==> |blob| >= WORD)
      invariant !wrapped ==> |seen| == count + 1 && seen[0] == typ && Parts(blob) == Behind(seen, Parts(rest))
      decreases |rest|
    {
      PartsStep(rest);
      if |rest| < 4 { return Refused, wrapped; }
      var m := FromBigEndian(rest[..4]);
      if m > |rest| - 4 { return Refused, wrapped; }
      var step := (4 + m) % WORD;
      if step == 0 { return Spins, true; }
      if step < 4 {
        wrapped := true;
      } else if !wrapped {
        BehindMore(seen, rest[4..4 + m], Parts(rest[4 + m..]));
        seen := seen + [rest[4..4 + m]];
      }
      rest, count := rest[step..], count + 1;
    }
    assert rest == [] && seen + [] == seen;
    return if count != 0 then Accepted else Refused, wrapped;
  }

  // One string off the front.
  lemma PartsStep(rest: seq<byte>)
    ensures 0 < |rest| < 4 ==> Parts(rest) == None
    ensures |rest| >= 4 ==>
      var n := FromBigEndian(rest[..4]);
      && n < WORD
      && (n > |rest| - 4 ==> Parts(rest) == None)
      && (n <= |rest| - 4 ==> Parts(rest) == Behind([rest[4..4 + n]], Parts(rest[4 + n..])))
  {
    hide FromBigEndian;
    Pow256Of8();
  }

  lemma NoParts()
    ensures Parts([]) == Some([])
  {
  }

  ghost function Behind(front: seq<Part>, back: Option<seq<Part>>): Option<seq<Part>> {
    if back.Some? then Some(front + back.value) else None
  }

  lemma BehindMore(front: seq<Part>, p: Part, back: Option<seq<Part>>)
    ensures Behind(front + [p], back) == Behind(front, if back.Some? then Some([p] + back.value) else None)
  {
    if back.Some? { assert front + [p] + back.value == front + ([p] + back.value); }
  }
}
