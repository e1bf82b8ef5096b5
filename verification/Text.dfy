/** The few operations of Go's strings package the codecs use. A Go string is its bytes: one
  * char stands for one byte. */
module Text {
  import opened Wrappers

  // strings.Split by one byte
  function Split(s: string, c: char): (parts: seq<string>)
    ensures |parts| >= 1
  {
    if s == [] then [""]
    else
      var rest := Split(s[1..], c);
      if s[0] == c then [""] + rest else [[s[0]] + rest[0]] + rest[1..]
  }

  // strings.Join by one byte
  function Join(parts: seq<string>, c: char): string {
    if parts == [] then "" else if |parts| == 1 then parts[0] else parts[0] + [c] + Join(parts[1..], c)
  }

  lemma {:induction false} SplitPart(p: string, c: char, t: string)
    requires c !in p
    ensures Split(p + [c] + t, c) == [p] + Split(t, c)
    ensures Split(p, c) == [p]
  {
    if p == [] {
      assert p + [c] + t == [c] + t;
    } else {
      SplitPart(p[1..], c, t);
      assert (p + [c] + t)[1..] == p[1..] + [c] + t;
      assert p == [p[0]] + p[1..];
    }
  }

  /** Splitting undoes joining, for parts without the separator. */
  lemma {:induction false} SplitJoin(parts: seq<string>, c: char)
    requires parts != [] && forall p :: p in parts ==> c !in p
    ensures Split(Join(parts, c), c) == parts
  {
    if |parts| == 1 {
      SplitPart(parts[0], c, "");
    } else {
      SplitJoin(parts[1..], c);
      SplitPart(parts[0], c, Join(parts[1..], c));
      assert parts == [parts[0]] + parts[1..];
    }
  }

  /** And joining undoes splitting, whatever the text. */
  lemma {:induction false} JoinSplit(s: string, c: char)
    ensures Join(Split(s, c), c) == s
    ensures forall p :: p in Split(s, c) ==> c !in p
  {
    if s != [] {
      var rest := Split(s[1..], c);
      JoinSplit(s[1..], c);
      assert s == [s[0]] + s[1..];
      if s[0] == c {
        assert ([""] + rest)[1..] == rest;
      } else {
        var parts := [[s[0]] + rest[0]] + rest[1..];
        assert parts[1..] == rest[1..];
        assert rest == [rest[0]] + rest[1..];
      }
    }
  }

  // ASCII white space.
  predicate Space(c: char) { c == ' ' || '\t' <= c <= '\r' }

  predicate Word(w: string) { w != [] && forall i :: 0 <= i < |w| ==> !Space(w[i]) }

  function WordLength(s: string): (n: nat)
    ensures n <= |s| && forall i :: 0 <= i < n ==> !Space(s[i])
    ensures n < |s| ==> Space(s[n])
  {
    if s == [] || Space(s[0]) then 0 else 1 + WordLength(s[1..])
  }

  // strings.Fields
  function Fields(s: string): seq<string>
    decreases |s|
  {
    if s == [] then []
    else if Space(s[0]) then Fields(s[1..])
    else var n := WordLength(s); [s[..n]] + Fields(s[n..])
  }

  lemma FieldsWord(w: string, t: string)
    requires Word(w)
    ensures Fields(w + " " + t) == [w] + Fields(t)
    ensures Fields(w) == [w]
  {
    var s := w + " " + t;
    assert s[..|w|] == w && s[|w|] == ' ';
    WordEnds(w, s);
    WordEnds(w, w);
    assert s[|w|..][1..] == t;
    assert w[|w|..] == [] && w[..|w|] == w;
  }

  lemma WordEnds(w: string, s: string)
    requires Word(w) && w <= s && (|w| < |s| ==> Space(s[|w|]))
    ensures WordLength(s) == |w|
  {
    assert forall i :: 0 <= i < |w| ==> s[i] == w[i];
  }

  /** Fields takes apart what was joined from words. */
  lemma {:induction false} FieldsJoin(words: seq<string>)
    requires words != [] && forall i :: 0 <= i < |words| ==> Word(words[i])
    ensures Fields(Join(words, ' ')) == words
  {
    hide Fields, Word;
    if |words| == 1 {
      FieldsWord(words[0], "");
    } else {
      FieldsJoin(words[1..]);
      FieldsWord(words[0], Join(words[1..], ' '));
      assert words[0] + [' '] + Join(words[1..], ' ') == words[0] + " " + Join(words[1..], ' ');
      assert words == [words[0]] + words[1..];
    }
  }

  // strings.IndexByte
  function IndexOf(s: string, c: char): (i: Option<nat>)
    ensures i.Some? ==> i.value < |s| && s[i.value] == c && c !in s[..i.value]
    ensures i.None? ==> c !in s
  {
    if s == [] then None
    else if s[0] == c then Some(0)
    else match IndexOf(s[1..], c)
      case None => None
      case Some(i) => assert s[..i + 1] == [s[0]] + s[1..][..i]; Some(i + 1)
  }

  lemma {:induction false} IndexAfter(p: string, c: char, t: string)
    requires c !in p
    ensures IndexOf(p + [c] + t, c) == Some(|p|)
  {
    if p != [] {
      IndexAfter(p[1..], c, t);
      assert (p + [c] + t)[1..] == p[1..] + [c] + t;
    }
  }

  // strings.CutPrefix
  function CutPrefix(s: string, p: string): Option<string> {
    if p <= s then Some(s[|p|..]) else None
  }

  lemma CutJoined(p: string, t: string)
    ensures CutPrefix(p + t, p) == Some(t)
  {
    assert (p + t)[|p|..] == t;
  }

  lemma {:induction false} SplitConcat(a: string, c: char, b: string)
    ensures Split(a + [c] + b, c) == Split(a, c) + Split(b, c)
  {
    hide Split;
    var s := a + [c] + b;
    if a == [] {
      assert s == [c] + b;
      SplitHead(c, b, c);
      SplitPart("", c, "");
    } else {
      var t := a[1..] + [c] + b;
      SplitConcat(a[1..], c, b);
      assert a == [a[0]] + a[1..] && s == [a[0]] + t;
      SplitHead(a[0], a[1..], c);
      SplitHead(a[0], t, c);
      HeadFirst(a[0], Split(a[1..], c), Split(b, c));
    }
  }

  lemma HeadFirst(h: char, x: seq<string>, y: seq<string>)
    requires x != []
    ensures [[h] + (x + y)[0]] + (x + y)[1..] == [[h] + x[0]] + x[1..] + y
    ensures [""] + (x + y) == [""] + x + y
  {
  }

  lemma SplitHead(h: char, t: string, c: char)
    ensures Split([h] + t, c) == if h == c then [""] + Split(t, c) else [[h] + Split(t, c)[0]] + Split(t, c)[1..]
  {
    assert ([h] + t)[1..] == t;
  }

  // strings.TrimSpace
  function TrimSpace(s: string): string
    decreases |s|
  {
    if s == [] then s
    else if Space(s[0]) then TrimSpace(s[1..])
    else if Space(s[|s| - 1]) then TrimSpace(s[..|s| - 1])
    else s
  }

  predicate Blank(s: string) { forall i :: 0 <= i < |s| ==> Space(s[i]) }

  // White space goes at both ends, and nothing else does.
  ghost predicate Trims(s: string, a: string, t: string, b: string) {
    s == a + t + b && Blank(a) && Blank(b) && (t == "" || (!Space(t[0]) && !Space(t[|t| - 1])))
  }

  lemma NothingTrimmed(s: string)
    requires s == "" || (!Space(s[0]) && !Space(s[|s| - 1]))
    ensures Trims(s, "", s, "")
  {
    assert s == "" + s + "";
  }

  lemma TrimsAround(c: char, s: string, a: string, t: string, b: string)
    requires Space(c) && Trims(s, a, t, b)
    ensures Trims([c] + s, [c] + a, t, b) && Trims(s + [c], a, t, b + [c])
  {
    assert [c] + s == [c] + a + t + b;
    assert s + [c] == a + t + (b + [c]);
  }

  lemma {:induction false} TrimIs(s: string)
    ensures exists a, b :: Trims(s, a, TrimSpace(s), b)
    decreases |s|
  {
    hide Trims;
    if s == "" {
      assert TrimSpace(s) == s;
      NothingTrimmed(s);
      assert Trims(s, "", s, "");
    } else if Space(s[0]) {
      TrimIs(s[1..]);
      var a, b :| Trims(s[1..], a, TrimSpace(s[1..]), b);
      TrimsAround(s[0], s[1..], a, TrimSpace(s[1..]), b);
      assert s == [s[0]] + s[1..];
      assert Trims(s, [s[0]] + a, TrimSpace(s), b);
    } else if Space(s[|s| - 1]) {
      TrimIs(s[..|s| - 1]);
      var a, b :| Trims(s[..|s| - 1], a, TrimSpace(s[..|s| - 1]), b);
      TrimsAround(s[|s| - 1], s[..|s| - 1], a, TrimSpace(s[..|s| - 1]), b);
      assert s == s[..|s| - 1] + [s[|s| - 1]];
      assert Trims(s, a, TrimSpace(s), b + [s[|s| - 1]]);
    } else {
      assert TrimSpace(s) == s;
      NothingTrimmed(s);
      assert Trims(s, "", s, "");
    }
  }

  // Text without the separator, appended, goes to the last part.
  lemma {:induction false} SplitAppend(s: string, c: char, t: string)
    requires c !in t
    ensures var parts := Split(s, c);
      Split(s + t, c) == parts[..|parts| - 1] + [parts[|parts| - 1] + t]
  {
    hide Split;
    if s == [] {
      assert s + t == t;
      SplitPart(t, c, "");
      SplitPart("", c, "");
    } else {
      SplitAppend(s[1..], c, t);
      SplitHead(s[0], s[1..], c);
      SplitHead(s[0], s[1..] + t, c);
      assert s == [s[0]] + s[1..] && s + t == [s[0]] + (s[1..] + t);
      AppendLast(s[0], Split(s[1..], c), t);
    }
  }

  lemma AppendLast(h: char, parts: seq<string>, t: string)
    requires parts != []
    ensures var more := parts[..|parts| - 1] + [parts[|parts| - 1] + t];
      && [""] + more == ([""] + parts)[..|parts|] + [([""] + parts)[|parts|] + t]
      && var head := [[h] + parts[0]] + parts[1..];
         [[h] + more[0]] + more[1..] == head[..|head| - 1] + [head[|head| - 1] + t]
  {
    if |parts| == 1 {
      assert [h] + (parts[0] + t) == [h] + parts[0] + t;
    }
  }

  /** Trimming text that ends in a clean word: blanks before it go, and what begins before the
    * word still begins the trimmed text. */
  lemma {:induction false} TrimGlued(s: string, w: string)
    requires w != "" && !Space(w[0]) && !Space(w[|w| - 1])
    ensures TrimSpace(s) == "" ==> TrimSpace(s + w) == w
    ensures TrimSpace(s) != "" ==> TrimSpace(s + w) != "" && TrimSpace(s + w)[0] == TrimSpace(s)[0]
    decreases |s|
  {
    if s == "" {
      assert s + w == w;
    } else if Space(s[0]) {
      assert (s + w)[1..] == s[1..] + w;
      TrimGlued(s[1..], w);
    } else {
      assert (s + w)[|s + w| - 1] == w[|w| - 1];
      assert TrimSpace(s + w) == s + w;
      TrimHead(s);
    }
  }

  lemma {:induction false} TrimHead(s: string)
    requires s != "" && !Space(s[0])
    ensures TrimSpace(s) != "" && TrimSpace(s)[0] == s[0]
    decreases |s|
  {
    if Space(s[|s| - 1]) { TrimHead(s[..|s| - 1]); }
  }

  // ---- sort.Strings ----

  // Go compares strings byte by byte.
  predicate StringLeq(a: string, b: string) {
    a == [] || (b != [] && (a[0] < b[0] || (a[0] == b[0] && StringLeq(a[1..], b[1..]))))
  }

  lemma {:induction false} StringOrder(a: string, b: string)
    ensures StringLeq(a, b) || StringLeq(b, a)
    ensures StringLeq(a, b) && StringLeq(b, a) ==> a == b
    decreases |a|
  {
    if a != [] && b != [] && a[0] == b[0] {
      StringOrder(a[1..], b[1..]);
      assert a == [a[0]] + a[1..] && b == [b[0]] + b[1..];
    }
  }

  lemma {:induction false} StringTransitive(a: string, b: string, c: string)
    requires StringLeq(a, b) && StringLeq(b, c)
    ensures StringLeq(a, c)
    decreases |a|
  {
    if a != [] && a[0] == b[0] == c[0] {
      StringTransitive(a[1..], b[1..], c[1..]);
    }
  }

  function InsertString(x: string, xs: seq<string>): seq<string> {
    if xs == [] || StringLeq(x, xs[0]) then [x] + xs else [xs[0]] + InsertString(x, xs[1..])
  }

  function SortStrings(xs: seq<string>): seq<string> {
    if xs == [] then [] else InsertString(xs[0], SortStrings(xs[1..]))
  }

  predicate SortedStrings(xs: seq<string>) {
    forall i, j :: 0 <= i < j < |xs| ==> StringLeq(xs[i], xs[j])
  }

  lemma SortedStringsCons(x: string, xs: seq<string>)
    requires SortedStrings(xs) && (xs != [] ==> StringLeq(x, xs[0]))
    ensures SortedStrings([x] + xs)
  {
    forall i | 0 < i < |xs| ensures StringLeq(x, xs[i]) {
      StringTransitive(x, xs[0], xs[i]);
    }
  }

  lemma {:induction false} InsertStringSorts(x: string, xs: seq<string>)
    requires SortedStrings(xs)
    ensures multiset(InsertString(x, xs)) == multiset{x} + multiset(xs)
    ensures SortedStrings(InsertString(x, xs))
  {
    if xs != [] {
      assert xs == [xs[0]] + xs[1..];
      if StringLeq(x, xs[0]) {
        SortedStringsCons(x, xs);
      } else {
        StringOrder(x, xs[0]);
        InsertStringSorts(x, xs[1..]);
        var t := InsertString(x, xs[1..]);
        assert t[0] in multiset(t);
        SortedStringsCons(xs[0], t);
      }
    }
  }

  /** Sorting gives the same strings, in order. */
  lemma {:induction false} SortStringsSorts(xs: seq<string>)
    ensures SortedStrings(SortStrings(xs)) && multiset(SortStrings(xs)) == multiset(xs)
  {
    if xs != [] {
      SortStringsSorts(xs[1..]);
      InsertStringSorts(xs[0], SortStrings(xs[1..]));
      assert xs == [xs[0]] + xs[1..];
    }
  }

  predicate Distinct(xs: seq<string>) { forall i, j :: 0 <= i < j < |xs| ==> xs[i] != xs[j] }

  ghost predicate OncePer(m: multiset<string>) { forall x | x in m :: m[x] == 1 }

  lemma {:induction false} DistinctIff(xs: seq<string>)
    ensures Distinct(xs) <==> OncePer(multiset(xs))
  {
    if xs != [] {
      DistinctIff(xs[1..]);
      DistinctCons(xs[0], xs[1..]);
      OnceMore(xs[0], multiset(xs[1..]));
      hide Distinct, OncePer;
      assert xs == [xs[0]] + xs[1..];
      assert multiset(xs) == multiset(xs[1..]) + multiset{xs[0]};
    }
  }

  lemma DistinctCons(x: string, xs: seq<string>)
    ensures Distinct([x] + xs) <==> x !in xs && Distinct(xs)
  {
    var all := [x] + xs;
    assert forall i :: 0 <= i < |xs| ==> all[i + 1] == xs[i];
    if Distinct(all) {
      forall i, j | 0 <= i < j < |xs| ensures xs[i] != xs[j] { assert all[i + 1] != all[j + 1]; }
      forall i | 0 <= i < |xs| ensures xs[i] != x { assert all[0] != all[i + 1]; }
    }
  }

  lemma OnceMore(x: string, m: multiset<string>)
    ensures OncePer(m + multiset{x}) <==> x !in m && OncePer(m)
  {
    var more := m + multiset{x};
    assert more[x] == m[x] + 1 && x in more && forall y :: y != x ==> more[y] == m[y];
    if OncePer(more) {
      forall y | y in m ensures m[y] == 1 { assert y in more && more[y] == 1; }
    }
  }

  /** Sorting keeps distinct strings distinct, and the members. */
  lemma SortKeepsMembers(xs: seq<string>)
    ensures Distinct(xs) ==> Distinct(SortStrings(xs))
    ensures forall x :: x in SortStrings(xs) <==> x in xs
  {
    SortStringsSorts(xs);
    DistinctIff(xs);
    DistinctIff(SortStrings(xs));
    assert forall x :: x in SortStrings(xs) <==> x in multiset(SortStrings(xs));
    assert forall x :: x in xs <==> x in multiset(xs);
  }
}
