/** The laws asked of JSON lines hold of some encoding: a number in unary between braces, which
  * stands for the record of that number in a chain of its own. */
module JournalExample {
  import opened Wrappers
  import opened Bytes
  import opened Audit
  import opened Journal

  const OPEN: byte := 123
  const CLOSE: byte := 125
  const ONE: byte := 49

  function Ones(n: nat): (s: seq<byte>)
    ensures |s| == n && forall i :: 0 <= i < n ==> s[i] == ONE
  {
    if n == 0 then [] else Ones(n - 1) + [ONE]
  }

  function Text(n: nat): seq<byte> { [OPEN] + Ones(n) + [CLOSE] }

  function BodyAt(h: Hasher, n: nat): Body
    requires n <= MAX_INT
    decreases n
  {
    Body(n, 0, Actor([], [], [], []), [ONE], [], [], 1, [], SOURCE_EXECUTOR,
      if n <= 1 then GENESIS else h(BodyAt(h, n - 1)))
  }

  function RecordAt(h: Hasher, n: nat): (r: Record)
    requires n <= MAX_INT
    ensures r.body.seqNo == n
  {
    Record(BodyAt(h, n), h(BodyAt(h, n)))
  }

  function StripCR(x: seq<byte>): seq<byte> {
    if x != [] && x[0] == CR then StripCR(x[1..]) else x
  }

  predicate IsText(y: seq<byte>) { 2 <= |y| <= MAX_INT && y == Text(|y| - 2) }

  function Decode(h: Hasher, y: seq<byte>): Option<Record> {
    if IsText(y) then Some(RecordAt(h, |y| - 2)) else None
  }

  function Toy(h: Hasher): Codec {
    Codec((r: Record) => Text(r.body.seqNo), (x: seq<byte>) => Decode(h, StripCR(x)))
  }

  lemma {:induction false} StripBefore(x: seq<byte>, z: seq<byte>)
    requires StripCR(x) != []
    ensures StripCR(x + z) == StripCR(x) + z && StripCR(x)[0] != CR
  {
    if x[0] == CR {
      StripBefore(x[1..], z);
      assert (x + z)[1..] == x[1..] + z;
    } else {
      assert (x + z)[0] == x[0];
    }
  }

  lemma TextEnds(n: nat)
    ensures |Text(n)| == n + 2 && Text(n)[0] == OPEN && Text(n)[n + 1] == CLOSE
    ensures LF !in Text(n) && DropCR(Text(n)) == Text(n)
    ensures forall i :: 0 < i < n + 1 ==> Text(n)[i] == ONE
  {
  }

  // A brace where a digit should be.
  lemma NotText(y: seq<byte>, i: nat)
    requires 0 < i < |y| - 1 && y[i] != ONE
    ensures !IsText(y)
  {
    TextEnds(|y| - 2);
    hide Text;
  }

  lemma NothingFollows(x: seq<byte>, n: nat)
    requires IsText(StripCR(DropCR(x)))
    ensures !IsText(StripCR(x + Text(n)))
  {
    var d := DropCR(x);
    var y := StripCR(d);
    var z := (if x == d then [] else [CR]) + Text(n);
    TextEnds(|y| - 2);
    TextEnds(n);
    assert x + Text(n) == d + z;
    hide Text;
    StripBefore(d, z);
    assert (y + z)[|y| - 1] == CLOSE;
    NotText(y + z, |y| - 1);
  }

  lemma BrokenOff(n: nat, k: nat, m: nat)
    requires 0 < k < |Text(n)|
    ensures !IsText(StripCR(Text(n)[..k] + Text(m)))
  {
    TextEnds(n);
    TextEnds(m);
    var y := Text(n)[..k] + Text(m);
    assert y[0] == OPEN && y[k] == OPEN && |y| == k + m + 2;
    hide Text;
    NotText(y, k);
  }

  lemma ReadsBack(h: Hasher, n: nat)
    requires n + 2 <= MAX_INT
    ensures Toy(h).dec(Text(n)) == Some(RecordAt(h, n))
  {
    hide RecordAt, Text;
    TextEnds(n);
    StripCR0(Text(n));
  }

  lemma StripCR0(x: seq<byte>)
    requires x != [] && x[0] != CR
    ensures StripCR(x) == x
  {
  }

  /** Such an encoding. */
  lemma ToyLaws(h: Hasher)
    ensures JsonLines(Toy(h))
  {
    hide Text, IsText, RecordAt, StripCR;
    var c := Toy(h);
    forall r: Record ensures c.enc(r) != [] && LF !in c.enc(r) && DropCR(c.enc(r)) == c.enc(r) {
      TextEnds(r.body.seqNo);
    }
    forall x, r: Record | c.dec(DropCR(x)).Some? ensures c.dec(x + c.enc(r)).None? {
      NothingFollows(x, r.body.seqNo);
    }
    forall x ensures c.dec([CR] + x) == c.dec(x) {
      StripMore(x);
    }
    forall r: Record, q: Record, n | 0 < n < |c.enc(r)| ensures c.dec(c.enc(r)[..n] + c.enc(q)).None? {
      BrokenOff(r.body.seqNo, n, q.body.seqNo);
    }
    forall r: Record | c.dec(c.enc(r)).Some? ensures c.dec(c.enc(r)).value.body.seqNo == r.body.seqNo {
      TextEnds(r.body.seqNo);
      StripCR0(Text(r.body.seqNo));
    }
  }

  lemma StripMore(x: seq<byte>)
    ensures StripCR([CR] + x) == StripCR(x)
  {
    assert ([CR] + x)[1..] == x;
  }

  function Chain(h: Hasher, n: nat): (rs: seq<Record>)
    requires n <= MAX_INT
    ensures |rs| == n
  {
    if n == 0 then [] else Chain(h, n - 1) + [RecordAt(h, n)]
  }

  /** It reads back the records of a valid chain of any length. */
  lemma {:induction false} ToyChain(h: Hasher, n: nat)
    requires n + 2 <= MAX_INT
    ensures ValidChain(h, Chain(h, n)) && HeadOf(Chain(h, n)) == BodyAt(h, n + 1).prevHash
    ensures forall r :: r in Chain(h, n) ==> Toy(h).dec(Toy(h).enc(r)) == Some(r)
  {
    hide Toy;
    if n > 0 {
      ToyChain(h, n - 1);
      ReadsBack(h, n);
      ToyText(h, n);
      ValidExtend(h, Chain(h, n - 1), RecordAt(h, n));
    }
  }

  lemma ToyText(h: Hasher, n: nat)
    requires n <= MAX_INT
    ensures Toy(h).enc(RecordAt(h, n)) == Text(n)
  {
    hide RecordAt, Text;
  }
}
