/** The healing supervisor of internal/health/supervisor.go: when it may try to heal an
  * application, and what the doubling backoff really gives. */
module Supervisor {
  import opened Wrappers
  import opened Bytes
  import opened Routing

  // ---- backoff ----

  const WORD := 0x1_0000_0000_0000_0000
  const TOP := 0x8000_0000_0000_0000

  // time.Duration is an int64; multiplication wraps around.
  function Wrap(v: int): (w: int64)
    ensures -TOP <= v < TOP ==> w == v
  {
    var u := v % WORD;
    if u >= TOP then u - WORD else u
  }

  function Pow2(n: nat): (p: nat)
    ensures p >= 1
  {
    if n == 0 then 1 else 2 * Pow2(n - 1)
  }

  // The value after i doublings, unless the limit has stopped the loop before.
  function Doubled(base: int64, max: int64, i: nat): Result<int64, int64> {
    if i == 0 then Ok(base)
    else match Doubled(base, max, i - 1)
      case Err(m) => Err(m)
      case Ok(d) => var d' := Wrap(d * 2); if d' >= max then Err(max) else Ok(d')
  }

  function BackoffOf(base: int64, max: int64, n: int): int64 {
    match Doubled(base, max, if n < 1 then 0 else n - 1)
    case Ok(d) => d
    case Err(m) => m
  }

  method Backoff(base: int64, max: int64, n: int) returns (d: int64)
    ensures d == BackoffOf(base, max, n)
  {
    d := base;
    var i := 1;
    while i < n
      invariant i >= 1 && (n >= 1 ==> i <= n) && (n < 1 ==> i == 1)
      invariant Doubled(base, max, i - 1) == Ok(d)
    {
      d := Wrap(d * 2);
      if d >= max {
        DoublingStops(base, max, i, n - 1);
        return max;
      }
      i := i + 1;
    }
  }

  lemma {:induction false} DoublingStops(base: int64, max: int64, i: nat, n: nat)
    requires i <= n && Doubled(base, max, i).Err?
    ensures Doubled(base, max, n) == Doubled(base, max, i) == Err(max)
    decreases n
  {
    if i < n { DoublingStops(base, max, i, n - 1); }
    ErrIsMax(base, max, i);
  }

  lemma {:induction false} ErrIsMax(base: int64, max: int64, i: nat)
    ensures Doubled(base, max, i).Err? ==> Doubled(base, max, i) == Err(max)
    decreases i
  {
    if i > 0 { ErrIsMax(base, max, i - 1); }
  }

  // What New accepts.
  predicate ValidBackoff(base: int64, max: int64) { 0 < base <= max }

  // Some doubling of the base reaches the limit before it leaves the int64 range.
  ghost predicate ReachesLimit(base: int64, max: int64) {
    exists k: nat :: DoublesTo(base, max, k)
  }

  predicate DoublesTo(base: int64, max: int64, k: nat) {
    k >= 1 && max <= base * Pow2(k) < TOP
  }

  lemma {:induction false} Pow2Grows(a: nat, b: nat)
    requires a <= b
    ensures Pow2(a) <= Pow2(b)
  {
    if a < b { Pow2Grows(a, b - 1); }
  }

  lemma Doubling(base: nat, i: nat)
    requires i > 0
    ensures base * Pow2(i) == 2 * (base * Pow2(i - 1))
  {
  }

  lemma LessDoubled(base: nat, a: nat, b: nat)
    requires a <= b
    ensures base * Pow2(a) <= base * Pow2(b)
  {
    Pow2Grows(a, b);
    var p, q := Pow2(a), Pow2(b);
    assert base * (q - p) >= 0;
  }

  // Without a wrap the loop is the capped power of two.
  lemma {:induction false} DoubledExact(base: int64, max: int64, k: nat, i: nat)
    requires ValidBackoff(base, max) && DoublesTo(base, max, k)
    ensures Doubled(base, max, i) == if i > 0 && base * Pow2(i) >= max then Err(max) else Ok(base * Pow2(i))
    decreases i
  {
    if i > 0 {
      DoubledExact(base, max, k, i - 1);
      Doubling(base, i);
      if i <= k { LessDoubled(base, i, k); } else { LessDoubled(base, k, i - 1); }
    }
  }

  // The loop before the first value that leaves the range.
  lemma {:induction false} DoubledInRange(base: int64, max: int64, i: nat)
    requires ValidBackoff(base, max) && !ReachesLimit(base, max) && base * Pow2(i) < TOP
    ensures Doubled(base, max, i) == Ok(base * Pow2(i))
    decreases i
  {
    if i > 0 {
      Doubling(base, i);
      DoubledInRange(base, max, i - 1);
      assert !DoublesTo(base, max, i);
    }
  }

  lemma {:induction false} LeavesRange(base: nat, i: nat) returns (k: nat)
    requires 0 < base < TOP && base * Pow2(i) >= TOP
    ensures k >= 1 && base * Pow2(k - 1) < TOP <= base * Pow2(k)
    decreases i
  {
    assert i != 0;
    if base * Pow2(i - 1) < TOP { k := i; } else { k := LeavesRange(base, i - 1); }
  }

  lemma Pow2Of63()
    ensures Pow2(63) == TOP
  {
    assert Pow2(8) == 256 && Pow2(16) == 0x1_0000 && Pow2(24) == 0x100_0000 && Pow2(32) == 0x1_0000_0000;
    assert Pow2(40) == 0x100_0000_0000 && Pow2(48) == 0x1_0000_0000_0000 && Pow2(56) == 0x100_0000_0000_0000;
  }

  function Capped(base: int64, max: int64, n: nat): int
    requires n >= 1
  {
    Min(base * Pow2(n - 1), max)
  }

  lemma AtLeastPow2(base: nat, i: nat)
    requires base >= 1
    ensures base * Pow2(i) >= Pow2(i)
  {
    var p := Pow2(i);
    assert (base - 1) * p >= 0;
  }

  lemma CappedWhenReached(base: int64, max: int64, n: nat)
    requires ValidBackoff(base, max) && ReachesLimit(base, max) && n >= 1
    ensures BackoffOf(base, max, n) == Capped(base, max, n)
  {
    var k: nat :| DoublesTo(base, max, k);
    DoubledExact(base, max, k, n - 1);
    if n == 1 { assert base * Pow2(0) == base; }
  }

  lemma NegativeWhenNot(base: int64, max: int64) returns (n: nat)
    requires ValidBackoff(base, max) && !ReachesLimit(base, max)
    ensures n >= 1 && BackoffOf(base, max, n) < 0 && Capped(base, max, n) >= 0
  {
    hide ReachesLimit;
    Pow2Of63();
    AtLeastPow2(base, 63);
    var k := LeavesRange(base, 63);
    Doubling(base, k);
    DoubledInRange(base, max, k - 1);
    WrapDoubled(base * Pow2(k - 1));
    n := k + 1;
  }

  lemma WrapDoubled(d: nat)
    requires d < TOP <= 2 * d
    ensures Wrap(d * 2) < 0
  {
  }

  /** The backoff is min(base * 2^(n-1), max) for every attempt iff some doubling of the base
    * reaches the limit inside the int64 range. Otherwise the value wraps to a negative one
    * and the next attempt is not held back at all. */
  lemma BackoffIsCappedIff(base: int64, max: int64)
    requires ValidBackoff(base, max)
    ensures (forall n: nat :: n >= 1 ==> BackoffOf(base, max, n) == Capped(base, max, n)) <==> ReachesLimit(base, max)
    ensures !ReachesLimit(base, max) ==> exists n: nat :: n >= 1 && BackoffOf(base, max, n) < 0
  {
    hide ReachesLimit, BackoffOf, Capped;
    if ReachesLimit(base, max) {
      forall n: nat | n >= 1 ensures BackoffOf(base, max, n) == Capped(base, max, n) {
        CappedWhenReached(base, max, n);
      }
    } else {
      var n := NegativeWhenNot(base, max);
    }
  }

  /** Below 2^62 nanoseconds, 146 years, every accepted limit is reached in time. */
  lemma {:induction false} SmallLimitsReached(base: int64, max: int64)
    requires ValidBackoff(base, max) && max < TOP / 2
    ensures ReachesLimit(base, max)
  {
    Pow2Of63();
    assert base * Pow2(63) >= max;
    var k := FirstAbove(base, max, 63);
    if k == 0 {
      assert DoublesTo(base, max, 1) by { assert Pow2(1) == 2; }
    } else {
      Doubling(base, k);
      assert DoublesTo(base, max, k);
    }
  }

  lemma {:induction false} FirstAbove(base: nat, max: nat, i: nat) returns (k: nat)
    requires base * Pow2(i) >= max
    ensures base * Pow2(k) >= max && (k > 0 ==> base * Pow2(k - 1) < max)
    decreases i
  {
    if i == 0 || base * Pow2(i - 1) < max { k := i; } else { k := FirstAbove(base, max, i - 1); }
  }

  /** The largest limit New accepts is not: the second backoff is negative. */
  lemma LargestLimitWraps()
    ensures ValidBackoff(TOP - 1, TOP - 1) && BackoffOf(TOP - 1, TOP - 1, 2) == -2
  {
    assert Doubled(TOP - 1, TOP - 1, 0) == Ok(TOP - 1);
    assert Wrap((TOP - 1) * 2) == -2;
  }

  // ---- What the supervisor has seen of one application ----

  // Checked is the clock when the attempt was allowed, stamped when its backoff was set.
  datatype Event = Healthy | Unhealthy | Attempt(checked: int, stamped: int, failed: bool, raised: bool) | Forgotten

  datatype Options = Options(failuresBeforeHeal: int, base: int64, max: int64, healsBeforeAlarm: int) {
    predicate Valid() { failuresBeforeHeal > 0 && ValidBackoff(base, max) && healsBeforeAlarm > 0 }
  }

  function Last(tr: seq<Event>): Event
    requires tr != []
  {
    tr[|tr| - 1]
  }

  function Init(tr: seq<Event>): seq<Event>
    requires tr != []
  {
    tr[..|tr| - 1]
  }

  // Failed measurements since the last healthy one, attempt or reset.
  function Failures(tr: seq<Event>): nat {
    if tr == [] || !Last(tr).Unhealthy? then 0 else Failures(Init(tr)) + 1
  }

  // Attempts since the last healthy measurement or reset.
  function Heals(tr: seq<Event>): nat {
    if tr == [] then 0
    else match Last(tr)
      case Healthy => 0
      case Forgotten => 0
      case Unhealthy => Heals(Init(tr))
      case Attempt(_, _, _, _) => Heals(Init(tr)) + 1
  }

  // When the next attempt is due; None is Go's zero time.
  function Due(o: Options, tr: seq<Event>): Option<int> {
    if tr == [] then None
    else match Last(tr)
      case Healthy => None
      case Forgotten => None
      case Unhealthy => Due(o, Init(tr))
      case Attempt(_, stamped, _, _) => Some(stamped + BackoffOf(o.base, o.max, Heals(tr)))
  }

  // The measurement that crossed the threshold was recorded, and no healthy one since.
  function Flagged(o: Options, tr: seq<Event>): bool {
    if tr == [] then false
    else match Last(tr)
      case Healthy => false
      case Forgotten => false
      case Unhealthy => Flagged(o, Init(tr)) || Failures(tr) >= o.failuresBeforeHeal
      case Attempt(_, _, _, _) => Flagged(o, Init(tr))
  }

  // ---- What it tells the outside: audit records and alarms ----

  datatype Note = Unwell | Tried(attempt: int, worked: bool) | Recovered(attempts: int) | Raised | Cleared

  // A record or an alarm it writes, and whether the write works; it goes on either way.
  datatype Call = Call(note: Note, worked: bool)

  function Notes(cs: seq<Call>): (ns: seq<Note>)
    ensures |ns| == |cs| && forall i :: 0 <= i < |cs| ==> ns[i] == cs[i].note
  {
    if cs == [] then [] else Notes(cs[..|cs| - 1]) + [cs[|cs| - 1].note]
  }

  function Made(ns: seq<Note>, works: Note -> bool): (cs: seq<Call>)
    ensures |cs| == |ns| && forall i :: 0 <= i < |ns| ==> cs[i] == Call(ns[i], works(ns[i]))
  {
    if ns == [] then [] else Made(ns[..|ns| - 1], works) + [Call(ns[|ns| - 1], works(ns[|ns| - 1]))]
  }

  lemma NotesMade(cs: seq<Call>, ns: seq<Note>, works: Note -> bool)
    ensures Notes(cs + Made(ns, works)) == Notes(cs) + ns
  {
  }

  // The calls made in between fared like this.
  predicate Fared(before: seq<Call>, after: seq<Call>, works: Note -> bool) {
    before <= after && forall i :: |before| <= i < |after| ==> after[i].worked == works(after[i].note)
  }

  lemma FaredMade(cs: seq<Call>, ns: seq<Note>, works: Note -> bool)
    ensures Fared(cs, cs + Made(ns, works), works)
    ensures ns == [] ==> cs + Made(ns, works) == cs
  {
  }

  lemma FaredThen(a: seq<Call>, b: seq<Call>, c: seq<Call>, works: Note -> bool)
    requires Fared(a, b, works) && Fared(b, c, works)
    ensures Fared(a, c, works)
  {
  }

  lemma FaredSame(cs: seq<Call>, works: Note -> bool)
    ensures Fared(cs, cs, works)
  {
  }

  // What one more event makes it tell.
  function Tells(o: Options, tr: seq<Event>, e: Event): seq<Note> {
    match e
    case Healthy => (if Flagged(o, tr) then [Recovered(Heals(tr))] else []) + [Cleared]
    case Unhealthy => if !Flagged(o, tr) && Failures(tr) + 1 >= o.failuresBeforeHeal then [Unwell] else []
    case Attempt(_, _, failed, raised) => [Tried(Heals(tr) + 1, !failed)] + if raised then [Raised] else []
    case Forgotten => []
  }

  function Told(o: Options, tr: seq<Event>): seq<Note> {
    if tr == [] then [] else Told(o, Init(tr)) + Tells(o, Init(tr), Last(tr))
  }

  // Enough measurements in a row have failed, and the backoff is over.
  predicate DueNow(o: Options, tr: seq<Event>, now: int) {
    Failures(tr) >= o.failuresBeforeHeal && (Due(o, tr).Some? ==> Due(o, tr).value <= now)
  }

  // The attempt at the end of tr was due, and it raised the alarm exactly when it should.
  predicate Proper(o: Options, tr: seq<Event>)
    requires tr != []
  {
    var e, before := Last(tr), Init(tr);
    e.Attempt? ==>
      && DueNow(o, before, e.checked)
      && (e.raised <==> e.failed && Heals(tr) >= o.healsBeforeAlarm)
  }

  predicate Disciplined(o: Options, tr: seq<Event>) {
    tr == [] || (Disciplined(o, Init(tr)) && Proper(o, tr))
  }

  // ---- The supervisor ----

  datatype AppState = AppState(releaseId: ReleaseId, failures: int, unhealthy: bool, heals: int, nextHealAt: Option<int>)

  /** The outside of one visit: the application's replica count if it can be read, how many
    * are ready, the clock before and inside heal, the active release by then, whether the
    * release can be read, whether the attempt works, and which records and alarms can be
    * written. */
  datatype View = View(replicas: Option<nat>, ready: nat, now: int, stamp: int, current: Option<ReleaseId>, readable: bool, heals: bool,
                       works: Note -> bool)

  predicate Matches(o: Options, st: AppState, tr: seq<Event>) {
    && st.failures == Failures(tr) && st.heals == Heals(tr)
    && st.nextHealAt == Due(o, tr) && st.unhealthy == Flagged(o, tr)
  }

  // A state that has never been used: the trace remembers nothing.
  predicate Fresh(o: Options, tr: seq<Event>) {
    Failures(tr) == 0 && Heals(tr) == 0 && Due(o, tr) == None && !Flagged(o, tr)
  }

  function NotesOf(calls: map<AppId, seq<Call>>, a: AppId): seq<Note> { Notes(CallsAt(calls, a)) }

  function CallsAt(calls: map<AppId, seq<Call>>, a: AppId): seq<Call> {
    if a in calls then calls[a] else []
  }

  function TraceOf(traces: map<AppId, seq<Event>>, a: AppId): seq<Event> {
    if a in traces then traces[a] else []
  }

  class Supervisor {
    const opts: Options
    var state: map<AppId, AppState>
    var calls: map<AppId, seq<Call>>
    ghost var traces: map<AppId, seq<Event>>

    // One application's state is what its trace says it is.
    ghost predicate AppOk(a: AppId)
      reads this
    {
      TraceOk(opts, if a in state then Some(state[a]) else None, CallsAt(calls, a), TraceOf(traces, a))
    }

    ghost predicate Valid()
      reads this
    {
      opts.Valid() && forall a :: AppOk(a)
    }

    constructor (o: Options)
      requires o.Valid()
      ensures Valid() && opts == o && state == map[] && calls == map[] && traces == map[]
    {
      opts, state, calls, traces := o, map[], map[], map[];
    }

    // One change of one application's state, what it stands for and what it tells.
    method Put(a: AppId, st: Option<AppState>, more: seq<Note>, works: Note -> bool, ghost e: Event)
      requires Valid() && Proper(opts, TraceOf(traces, a) + [e])
      requires Holds(opts, st, TraceOf(traces, a) + [e]) && more == Tells(opts, TraceOf(traces, a), e)
      modifies this
      ensures Valid() && state == if st.Some? then old(state)[a := st.value] else old(state) - {a}
      ensures traces == old(traces)[a := TraceOf(old(traces), a) + [e]]
      ensures Fared(CallsAt(old(calls), a), CallsAt(calls, a), works) && (more == [] ==> CallsAt(calls, a) == CallsAt(old(calls), a))
      ensures NotesOf(calls, a) == NotesOf(old(calls), a) + more
      ensures forall b :: b != a ==> CallsAt(calls, b) == CallsAt(old(calls), b)
    {
      hide Proper, Holds, Tells, TraceOk, Notes, Made, Fared;
      assert AppOk(a);
      FaredMade(CallsAt(calls, a), more, works);
      NotesMade(CallsAt(calls, a), more, works);
      TraceMore(opts, if a in state then Some(state[a]) else None, CallsAt(calls, a), TraceOf(traces, a), e, st, more, works);
      state := if st.Some? then state[a := st.value] else state - {a};
      calls := calls[a := CallsAt(calls, a) + Made(more, works)];
      traces := traces[a := TraceOf(traces, a) + [e]];
      forall b ensures AppOk(b) { assert b != a ==> old(AppOk(b)); }
    }

    method StateFor(d: Deployment)
      requires Valid()
      modifies this
      ensures Valid() && d.app in state && state[d.app] == Before(old(state), d)
      ensures Others(old(state), state, d.app)
      ensures TraceOf(traces, d.app) == Known(old(state), old(TraceOf(traces, d.app)), d)
      ensures forall a :: a != d.app ==> TraceOf(traces, a) == old(TraceOf(traces, a))
      ensures forall a :: CallsAt(calls, a) == CallsAt(old(calls), a)
    {
      if d.app !in state || state[d.app].releaseId != d.release {
        Append(TraceOf(traces, d.app), Forgotten);
        Put(d.app, Some(AppState(d.release, 0, false, 0, None)), [], _ => true, Forgotten);
      }
    }

    /** One visit does to the application's trace what the discipline allows and no more, and
      * makes the calls that go with it, whether or not they work. It attempts to heal iff the
      * measurement could be made and failed, it was the last of enough in a row, no backoff is
      * left, and the release is still the active one and can be read. */
    method Visit(d: Deployment, v: View)
      requires Valid()
      modifies this
      ensures Valid() && Others(old(state), state, d.app)
      ensures TraceOf(traces, d.app) == Visited(opts, Known(old(state), old(TraceOf(traces, d.app)), d), d, v)
      ensures Acted(opts, Before(old(state), d), StateAt(state, d.app), old(TraceOf(traces, d.app)), TraceOf(traces, d.app), d, v)
      ensures Said(opts, Before(old(state), d), NotesOf(old(calls), d.app), NotesOf(calls, d.app), d, v)
      ensures forall a :: a != d.app ==> TraceOf(traces, a) == old(TraceOf(traces, a))
      ensures Fared(CallsAt(old(calls), d.app), CallsAt(calls, d.app), v.works)
      ensures forall a :: a != d.app ==> CallsAt(calls, a) == CallsAt(old(calls), a)
    {
      hide Fared, Tells, Visited, Acted, Said, Notes;
      StateFor(d);
      ghost var tr := TraceOf(traces, d.app);
      Measure(d, v);
      ActedSince(opts, Before(old(state), d), StateAt(state, d.app), TraceOf(old(traces), d.app), tr, TraceOf(traces, d.app), d, v);
    }

    // The visit proper, once the application's state is there.
    method Measure(d: Deployment, v: View)
      requires Valid() && d.app in state && state[d.app].releaseId == d.release
      modifies this
      ensures Valid() && Others(old(state), state, d.app)
      ensures TraceOf(traces, d.app) == Visited(opts, TraceOf(old(traces), d.app), d, v) && TraceOf(old(traces), d.app) <= TraceOf(traces, d.app)
      ensures Acted(opts, old(state)[d.app], StateAt(state, d.app), TraceOf(old(traces), d.app), TraceOf(traces, d.app), d, v)
      ensures Said(opts, old(state)[d.app], NotesOf(old(calls), d.app), NotesOf(calls, d.app), d, v)
      ensures forall a :: a != d.app ==> TraceOf(traces, a) == TraceOf(old(traces), a)
      ensures Fared(CallsAt(old(calls), d.app), CallsAt(calls, d.app), v.works)
      ensures forall a :: a != d.app ==> CallsAt(calls, a) == CallsAt(old(calls), a)
    {
      hide Fared, Tells, Failures, Heals, Due, Flagged, Proper, DueNow, BackoffOf, NotesOf, Acted, Said;
      FaredSame(CallsAt(calls, d.app), v.works);
      ghost var st, tr, said := state[d.app], TraceOf(traces, d.app), NotesOf(calls, d.app);
      if v.replicas.None? {
        JudgeUnread(opts, st, tr, said, d, v);
        return;
      }
      if v.ready >= v.replicas.value {
        MarkHealthy(d, v);
        JudgeHealthy(opts, st, tr, said, d, v);
        return;
      }
      var due := CountFailure(d, v);
      ghost var middle, crossed := CallsAt(calls, d.app), state[d.app];
      if !due {
        JudgeCounted(opts, st, tr, said, crossed, d, v);
        return;
      }
      Heal(d, v);
      JudgeDue(opts, st, tr, said, crossed, StateAt(state, d.app), TraceOf(traces, d.app), NotesOf(calls, d.app), d, v);
      FaredThen(CallsAt(old(calls), d.app), middle, CallsAt(calls, d.app), v.works);
    }

    // A healthy measurement starts the application's state over.
    method MarkHealthy(d: Deployment, v: View)
      requires Valid() && d.app in state
      modifies this
      ensures Valid() && Others(old(state), state, d.app)
      ensures TraceOf(traces, d.app) == old(TraceOf(traces, d.app)) + [Healthy]
      ensures StateAt(state, d.app) == Some(AppState(old(state)[d.app].releaseId, 0, false, 0, None))
      ensures var st := old(state)[d.app];
        NotesOf(calls, d.app) == NotesOf(old(calls), d.app) + ((if st.unhealthy then [Recovered(st.heals)] else []) + [Cleared])
      ensures forall a :: a != d.app ==> TraceOf(traces, a) == old(TraceOf(traces, a))
      ensures Fared(CallsAt(old(calls), d.app), CallsAt(calls, d.app), v.works)
      ensures forall a :: a != d.app ==> CallsAt(calls, a) == CallsAt(old(calls), a)
    {
      hide Fared, Notes, Made;
      assert AppOk(d.app);
      Append(TraceOf(traces, d.app), Healthy);
      var st := state[d.app];
      var told := if st.unhealthy then [Recovered(st.heals)] else [];
      Put(d.app, Some(AppState(st.releaseId, 0, false, 0, None)), told + [Cleared], v.works, Healthy);
    }

    // A failed one may cross the threshold, and an attempt may be due.
    method CountFailure(d: Deployment, v: View) returns (due: bool)
      requires Valid() && d.app in state
      modifies this
      ensures Valid() && Others(old(state), state, d.app) && d.app in state
      ensures TraceOf(traces, d.app) == old(TraceOf(traces, d.app)) + [Unhealthy]
      ensures due <==> DueNow(opts, TraceOf(traces, d.app), v.now)
      ensures var st := old(state)[d.app];
        && state[d.app] == st.(failures := st.failures + 1, unhealthy := st.unhealthy || st.failures + 1 >= opts.failuresBeforeHeal)
        && (due <==> st.failures + 1 >= opts.failuresBeforeHeal && (st.nextHealAt.None? || st.nextHealAt.value <= v.now))
        && NotesOf(calls, d.app) == NotesOf(old(calls), d.app)
             + if st.failures + 1 >= opts.failuresBeforeHeal && !st.unhealthy then [Unwell] else []
      ensures forall a :: a != d.app ==> TraceOf(traces, a) == old(TraceOf(traces, a))
      ensures Fared(CallsAt(old(calls), d.app), CallsAt(calls, d.app), v.works)
      ensures forall a :: a != d.app ==> CallsAt(calls, a) == CallsAt(old(calls), a)
    {
      hide Fared, Notes, Made;
      assert AppOk(d.app);
      Append(TraceOf(traces, d.app), Unhealthy);
      var st := state[d.app];
      st := st.(failures := st.failures + 1);
      if st.failures < opts.failuresBeforeHeal {
        Put(d.app, Some(st), [], v.works, Unhealthy);
        return false;
      }
      var told := if st.unhealthy then [] else [Unwell];
      st := st.(unhealthy := true);
      Put(d.app, Some(st), told, v.works, Unhealthy);
      return st.nextHealAt.None? || v.now >= st.nextHealAt.value;
    }

    // An attempt, if the release is still the active one and can be read.
    method Heal(d: Deployment, v: View)
      requires Valid() && d.app in state
      requires DueNow(opts, TraceOf(traces, d.app), v.now)
      modifies this
      ensures Valid() && Others(old(state), state, d.app)
      ensures TraceOf(traces, d.app) == AfterHeal(opts, old(TraceOf(traces, d.app)), d, v)
      ensures var st, tr := old(state)[d.app], TraceOf(traces, d.app);
        if v.current != Some(d.release) then StateAt(state, d.app) == None && tr == old(TraceOf(traces, d.app)) + [Forgotten]
        else if !v.readable then StateAt(state, d.app) == Some(st) && tr == old(TraceOf(traces, d.app))
        else
          && StateAt(state, d.app) == Some(st.(heals := st.heals + 1, failures := 0, nextHealAt := Some(v.stamp + BackoffOf(opts.base, opts.max, st.heals + 1))))
          && tr == old(TraceOf(traces, d.app)) + [Attempt(v.now, v.stamp, !v.heals, !v.heals && st.heals + 1 >= opts.healsBeforeAlarm)]
      ensures var st := old(state)[d.app];
        NotesOf(calls, d.app) == NotesOf(old(calls), d.app) + if v.current != Some(d.release) || !v.readable then []
          else [Tried(st.heals + 1, v.heals)] + if !v.heals && st.heals + 1 >= opts.healsBeforeAlarm then [Raised] else []
      ensures forall a :: a != d.app ==> TraceOf(traces, a) == old(TraceOf(traces, a))
      ensures Fared(CallsAt(old(calls), d.app), CallsAt(calls, d.app), v.works)
      ensures forall a :: a != d.app ==> CallsAt(calls, a) == CallsAt(old(calls), a)
    {
      hide Fared, Notes, Made;
      FaredSame(CallsAt(calls, d.app), v.works);
      ghost var tr := TraceOf(traces, d.app);
      assert AppOk(d.app);
      if v.current != Some(d.release) {
        Append(tr, Forgotten);
        Put(d.app, None, [], v.works, Forgotten);
        return;
      }
      if !v.readable { return; }
      var st := state[d.app];
      var wait := Backoff(opts.base, opts.max, st.heals + 1);
      st := st.(heals := st.heals + 1, nextHealAt := Some(v.stamp + wait), failures := 0);
      var raise := !v.heals && st.heals >= opts.healsBeforeAlarm;
      Append(tr, Attempt(v.now, v.stamp, !v.heals, raise));
      Put(d.app, Some(st), [Tried(st.heals, v.heals)] + if raise then [Raised] else [], v.works, Attempt(v.now, v.stamp, !v.heals, raise));
    }

    /** A full cycle visits every active application once, and after it only they keep state. */
    method Cycle(deps: Option<seq<Deployment>>, views: seq<View>)
      requires Valid() && (deps.Some? ==> |views| == |deps.value|)
      modifies this
      ensures Valid()
      ensures deps.None? ==> state == old(state) && traces == old(traces)
      ensures deps.Some? ==> forall a :: a in state ==> exists d :: d in deps.value && d.app == a
      ensures deps.Some? && UniqueApps(deps.value) ==> forall i :: 0 <= i < |deps.value| ==>
        && VisitedOnce(opts, old(state), old(traces), traces, deps.value[i], views[i])
        && ActedOnce(opts, old(state), old(traces), state, traces, deps.value[i], views[i])
    {
      hide Visited, Known, Acted, Before;
      if deps.None? { return; }
      var live: set<AppId> := {};
      ghost var state0, traces0 := state, traces;
      for i := 0 to |deps.value|
        invariant Valid() && forall a :: a in live <==> exists k :: 0 <= k < i && deps.value[k].app == a
        invariant forall a :: a !in live ==> Untouched(state0, traces0, state, traces, a)
        invariant UniqueApps(deps.value) ==> forall k :: 0 <= k < i ==>
          && VisitedOnce(opts, state0, traces0, traces, deps.value[k], views[k])
          && ActedOnce(opts, state0, traces0, state, traces, deps.value[k], views[k])
      {
        var d := deps.value[i];
        assert UniqueApps(deps.value) ==> d.app !in live;
        assert d.app !in live ==> Untouched(state0, traces0, state, traces, d.app);
        live := live + {d.app};
        ghost var state1, traces1 := state, traces;
        Visit(d, views[i]);
        if UniqueApps(deps.value) { KnownSame(state0, state1, TraceOf(traces0, d.app), d); }
      }
      Forget(live);
    }

    // State is kept for these applications only.
    method Forget(live: set<AppId>)
      requires Valid()
      modifies this
      ensures Valid() && state.Keys <= live
      ensures forall a :: a in live ==> TraceOf(traces, a) == TraceOf(old(traces), a) && StateAt(state, a) == StateAt(old(state), a)
    {
      var gone := state.Keys - live;
      ghost var state0, traces0 := state, traces;
      while gone != {}
        invariant Valid() && gone == state.Keys - live
        invariant forall a :: a in live ==> TraceOf(traces, a) == TraceOf(traces0, a) && StateAt(state, a) == StateAt(state0, a)
      {
        var a :| a in gone;
        Append(TraceOf(traces, a), Forgotten);
        Put(a, None, [], _ => true, Forgotten);
        gone := gone - {a};
      }
      forall a | a in state ensures a in live { assert a !in state.Keys - live; }
    }
  }

  // The application's state before a visit; a new release starts from nothing.
  function Before(state: map<AppId, AppState>, d: Deployment): AppState {
    if d.app in state && state[d.app].releaseId == d.release then state[d.app] else AppState(d.release, 0, false, 0, None)
  }

  function StateAt(state: map<AppId, AppState>, a: AppId): Option<AppState> {
    if a in state then Some(state[a]) else None
  }

  /** What a visit does, on the state itself: nothing if the measurement cannot be made; a healthy
    * one starts over; a failed one is counted, and the last of enough in a row, with no backoff
    * left, either finds the release no longer active and forgets the application, or attempts to
    * heal it, if the release can be read. */
  predicate Acted(o: Options, st: AppState, after: Option<AppState>, tr: seq<Event>, tr': seq<Event>, d: Deployment, v: View) {
    var failed := v.replicas.Some? && v.ready < v.replicas.value;
    var crossed := failed && st.failures + 1 >= o.failuresBeforeHeal;
    var due := crossed && (st.nextHealAt.None? || st.nextHealAt.value <= v.now);
    var attempt := due && v.current == Some(d.release) && v.readable;
    && ((|tr'| > |tr| && Last(tr').Attempt?) <==> attempt)
    && (attempt ==> Last(tr') == Attempt(v.now, v.stamp, !v.heals, !v.heals && st.heals + 1 >= o.healsBeforeAlarm))
    && after ==
      (if v.replicas.None? then Some(st)
       else if !failed then Some(AppState(st.releaseId, 0, false, 0, None))
       else if attempt then Some(AppState(st.releaseId, 0, true, st.heals + 1, Some(v.stamp + BackoffOf(o.base, o.max, st.heals + 1))))
       else if due && v.current != Some(d.release) then None
       else Some(st.(failures := st.failures + 1, unhealthy := st.unhealthy || crossed)))
  }

  lemma JudgeUnread(o: Options, st: AppState, tr: seq<Event>, said: seq<Note>, d: Deployment, v: View)
    requires v.replicas.None?
    ensures Acted(o, st, Some(st), tr, tr, d, v) && Said(o, st, said, said, d, v)
  {
  }

  lemma JudgeHealthy(o: Options, st: AppState, tr: seq<Event>, said: seq<Note>, d: Deployment, v: View)
    requires v.replicas.Some? && v.ready >= v.replicas.value
    ensures Acted(o, st, Some(AppState(st.releaseId, 0, false, 0, None)), tr, tr + [Healthy], d, v)
    ensures Said(o, st, said, said + ((if st.unhealthy then [Recovered(st.heals)] else []) + [Cleared]), d, v)
  {
  }

  // A failed measurement has been counted.
  predicate Counts(o: Options, st: AppState, st': AppState, v: View) {
    && v.replicas.Some? && v.ready < v.replicas.value
    && st' == st.(failures := st.failures + 1, unhealthy := st.unhealthy || st.failures + 1 >= o.failuresBeforeHeal)
  }

  lemma JudgeCounted(o: Options, st: AppState, tr: seq<Event>, said: seq<Note>, st': AppState, d: Deployment, v: View)
    requires Counts(o, st, st', v)
    requires !(st.failures + 1 >= o.failuresBeforeHeal && (st.nextHealAt.None? || st.nextHealAt.value <= v.now))
    ensures Acted(o, st, Some(st'), tr, tr + [Unhealthy], d, v)
    ensures Said(o, st, said, said + (if st.failures + 1 >= o.failuresBeforeHeal && !st.unhealthy then [Unwell] else []), d, v)
  {
  }

  lemma JudgeDue(o: Options, st: AppState, tr: seq<Event>, said: seq<Note>, st': AppState, after: Option<AppState>, tr': seq<Event>, said': seq<Note>, d: Deployment, v: View)
    requires Counts(o, st, st', v) && st.releaseId == d.release
    requires st.failures + 1 >= o.failuresBeforeHeal && (st.nextHealAt.None? || st.nextHealAt.value <= v.now)
    requires if v.current != Some(d.release) then after == None && tr' == tr + [Unhealthy] + [Forgotten]
      else if !v.readable then after == Some(st') && tr' == tr + [Unhealthy]
      else
        && after == Some(st'.(heals := st.heals + 1, failures := 0, nextHealAt := Some(v.stamp + BackoffOf(o.base, o.max, st.heals + 1))))
        && tr' == tr + [Unhealthy] + [Attempt(v.now, v.stamp, !v.heals, !v.heals && st.heals + 1 >= o.healsBeforeAlarm)]
    requires said' == said + (if !st.unhealthy then [Unwell] else []) + if v.current != Some(d.release) || !v.readable then []
      else [Tried(st.heals + 1, v.heals)] + if !v.heals && st.heals + 1 >= o.healsBeforeAlarm then [Raised] else []
    ensures Acted(o, st, after, tr, tr', d, v) && Said(o, st, said, said', d, v)
  {
    hide BackoffOf;
  }

  lemma ActedSince(o: Options, st: AppState, after: Option<AppState>, tr0: seq<Event>, tr: seq<Event>, tr': seq<Event>, d: Deployment, v: View)
    requires Acted(o, st, after, tr, tr', d, v) && tr <= tr' && (tr0 == tr || tr == tr0 + [Forgotten])
    ensures Acted(o, st, after, tr0, tr', d, v)
  {
  }

  /** What a visit tells: that the application is unwell when it crosses the threshold, what came
    * of an attempt, an alarm when enough of them have failed, and the recovery. */
  predicate Said(o: Options, st: AppState, before: seq<Note>, after: seq<Note>, d: Deployment, v: View) {
    var failed := v.replicas.Some? && v.ready < v.replicas.value;
    var crossed := failed && st.failures + 1 >= o.failuresBeforeHeal;
    var due := crossed && (st.nextHealAt.None? || st.nextHealAt.value <= v.now);
    var attempt := due && v.current == Some(d.release) && v.readable;
    after == before + (
      if v.replicas.None? then []
      else if !failed then (if st.unhealthy then [Recovered(st.heals)] else []) + [Cleared]
      else
        (if crossed && !st.unhealthy then [Unwell] else [])
        + (if !attempt then [] else [Tried(st.heals + 1, v.heals)] + if !v.heals && st.heals + 1 >= o.healsBeforeAlarm then [Raised] else []))
  }

  ghost predicate VisitedOnce(o: Options, state: map<AppId, AppState>, before: map<AppId, seq<Event>>, after: map<AppId, seq<Event>>, d: Deployment, v: View) {
    TraceOf(after, d.app) == Visited(o, Known(state, TraceOf(before, d.app), d), d, v)
  }

  ghost predicate ActedOnce(o: Options, state: map<AppId, AppState>, before: map<AppId, seq<Event>>, state': map<AppId, AppState>, after: map<AppId, seq<Event>>, d: Deployment, v: View) {
    Acted(o, Before(state, d), StateAt(state', d.app), TraceOf(before, d.app), TraceOf(after, d.app), d, v)
  }

  ghost predicate Untouched(state: map<AppId, AppState>, traces: map<AppId, seq<Event>>, state': map<AppId, AppState>, traces': map<AppId, seq<Event>>, a: AppId) {
    && TraceOf(traces', a) == TraceOf(traces, a)
    && (a in state <==> a in state') && (a in state ==> state'[a] == state[a])
  }

  lemma KnownSame(state: map<AppId, AppState>, state': map<AppId, AppState>, tr: seq<Event>, d: Deployment)
    requires (d.app in state <==> d.app in state') && (d.app in state ==> state'[d.app] == state[d.app])
    ensures Known(state, tr, d) == Known(state', tr, d) && Before(state, d) == Before(state', d)
  {
  }

  // Every other application's state is as it was.
  ghost predicate Others(before: map<AppId, AppState>, after: map<AppId, AppState>, a: AppId) {
    forall b :: b != a ==> (b in before <==> b in after) && (b in before ==> before[b] == after[b])
  }

  predicate UniqueApps(deps: seq<Deployment>) {
    forall i, j :: 0 <= i < j < |deps| ==> deps[i].app != deps[j].app
  }

  // An application's state and the calls made for it are what its trace says they are.
  ghost predicate TraceOk(o: Options, st: Option<AppState>, calls: seq<Call>, tr: seq<Event>) {
    Disciplined(o, tr) && Holds(o, st, tr) && Notes(calls) == Told(o, tr)
  }

  lemma TraceMore(o: Options, st: Option<AppState>, calls: seq<Call>, tr: seq<Event>, e: Event, st': Option<AppState>, more: seq<Note>, works: Note -> bool)
    requires TraceOk(o, st, calls, tr) && Proper(o, tr + [e]) && Holds(o, st', tr + [e]) && more == Tells(o, tr, e)
    ensures TraceOk(o, st', calls + Made(more, works), tr + [e])
  {
    hide Proper, Holds, Tells, Notes, Made;
    NotesMade(calls, more, works);
    Append(tr, e);
  }

  predicate Holds(o: Options, st: Option<AppState>, tr: seq<Event>) {
    if st.Some? then Matches(o, st.value, tr) else Fresh(o, tr)
  }

  lemma Append(tr: seq<Event>, e: Event)
    ensures Init(tr + [e]) == tr && Last(tr + [e]) == e
  {
  }

  // A release not seen before starts over.
  ghost function Known(state: map<AppId, AppState>, tr: seq<Event>, d: Deployment): seq<Event> {
    if d.app in state && state[d.app].releaseId == d.release then tr else tr + [Forgotten]
  }

  // What one visit adds.
  function Visited(o: Options, tr: seq<Event>, d: Deployment, v: View): seq<Event> {
    if v.replicas.None? then tr
    else if v.ready >= v.replicas.value then tr + [Healthy]
    else
      var tr' := tr + [Unhealthy];
      if DueNow(o, tr', v.now) then AfterHeal(o, tr', d, v) else tr'
  }

  function AfterHeal(o: Options, tr: seq<Event>, d: Deployment, v: View): seq<Event> {
    if v.current != Some(d.release) then tr + [Forgotten]
    else if !v.readable then tr
    else tr + [Attempt(v.now, v.stamp, !v.heals, !v.heals && Heals(tr) + 1 >= o.healsBeforeAlarm)]
  }

  // ---- What the discipline means ----

  lemma {:induction false} DisciplinedAt(o: Options, tr: seq<Event>, i: nat)
    requires Disciplined(o, tr) && i < |tr|
    ensures Disciplined(o, tr[..i + 1]) && Proper(o, tr[..i + 1])
    ensures Init(tr[..i + 1]) == tr[..i] && Last(tr[..i + 1]) == tr[i]
  {
    if i + 1 == |tr| {
      assert tr[..i + 1] == tr;
    } else {
      DisciplinedAt(o, Init(tr), i);
      assert Init(tr)[..i + 1] == tr[..i + 1];
    }
  }

  lemma {:induction false} FailuresInARow(tr: seq<Event>, n: nat)
    requires Failures(tr) >= n
    ensures n <= |tr| && forall k :: |tr| - n <= k < |tr| ==> tr[k] == Unhealthy
  {
    if n > 0 {
      FailuresInARow(Init(tr), n - 1);
      assert forall k :: 0 <= k < |tr| - 1 ==> Init(tr)[k] == tr[k];
    }
  }

  /** An attempt comes right after that many failed measurements in a row, with nothing between. */
  lemma HealsOnlyAfterFailures(o: Options, tr: seq<Event>, i: nat)
    requires o.Valid() && Disciplined(o, tr) && i < |tr| && tr[i].Attempt?
    ensures o.failuresBeforeHeal <= i
    ensures forall k :: i - o.failuresBeforeHeal <= k < i ==> tr[k] == Unhealthy
  {
    DisciplinedAt(o, tr, i);
    FailuresInARow(tr[..i], o.failuresBeforeHeal);
    assert forall k :: 0 <= k < i ==> tr[..i][k] == tr[k];
  }

  // The clock does not go back between allowing an attempt and setting its backoff.
  predicate ClockRuns(tr: seq<Event>) {
    forall k :: 0 <= k < |tr| && tr[k].Attempt? ==> tr[k].checked <= tr[k].stamped
  }

  predicate Unbroken(tr: seq<Event>, i: nat, j: nat) {
    i < j <= |tr| && forall k :: i < k < j ==> tr[k].Unhealthy? || tr[k].Attempt?
  }

  lemma {:induction false} DueIsLate(o: Options, tr: seq<Event>, i: nat, j: nat)
    requires o.Valid() && ReachesLimit(o.base, o.max) && Disciplined(o, tr) && ClockRuns(tr)
    requires Unbroken(tr, i, j) && tr[i].Attempt?
    ensures Heals(tr[..i + 1]) >= 1 && Due(o, tr[..j]).Some?
    ensures Due(o, tr[..j]).value >= tr[i].stamped + Capped(o.base, o.max, Heals(tr[..i + 1]))
    decreases j
  {
    hide ReachesLimit, BackoffOf;
    DisciplinedAt(o, tr, j - 1);
    DisciplinedAt(o, tr, i);
    if tr[j - 1].Attempt? {
      var n := Heals(tr[..j]);
      CappedWhenReached(o.base, o.max, n);
      Positive(o.base, n - 1);
    }
    if j > i + 1 {
      assert Unbroken(tr, i, j - 1);
      DueIsLate(o, tr, i, j - 1);
    }
  }

  lemma Positive(base: nat, n: nat)
    ensures base * Pow2(n) >= 0
  {
  }

  /** Two attempts with no healthy measurement or reset between them are at least
    * min(base * 2^(n-1), max) apart, n being the number of the earlier one. */
  lemma AttemptsAreApart(o: Options, tr: seq<Event>, i: nat, j: nat)
    requires o.Valid() && ReachesLimit(o.base, o.max) && Disciplined(o, tr) && ClockRuns(tr)
    requires j < |tr| && Unbroken(tr, i, j) && tr[i].Attempt? && tr[j].Attempt?
    ensures Heals(tr[..i + 1]) >= 1
    ensures tr[j].checked >= tr[i].stamped + Capped(o.base, o.max, Heals(tr[..i + 1]))
  {
    hide ReachesLimit;
    DueIsLate(o, tr, i, j);
    DisciplinedAt(o, tr, j);
  }

  /** The alarm is raised at exactly the failed attempts numbered HealsBeforeAlarm or more
    * since the last healthy measurement or reset. */
  lemma AlarmAtAttempt(o: Options, tr: seq<Event>, i: nat)
    requires Disciplined(o, tr) && i < |tr| && tr[i].Attempt?
    ensures tr[i].raised <==> tr[i].failed && Heals(tr[..i]) + 1 >= o.healsBeforeAlarm
  {
    DisciplinedAt(o, tr, i);
  }

  // The measurement that crossed the threshold, with no healthy one or reset since.
  predicate CrossedAt(o: Options, tr: seq<Event>, j: int) {
    0 <= j < |tr| && tr[j].Unhealthy? && Failures(tr[..j + 1]) >= o.failuresBeforeHeal
    && forall k :: j < k < |tr| ==> tr[k].Unhealthy? || tr[k].Attempt?
  }

  /** An application is recorded as unhealthy iff some run of failed measurements crossed the
    * threshold and nothing healthy or new came since. */
  lemma {:induction false} FlaggedIff(o: Options, tr: seq<Event>)
    requires o.Valid()
    ensures Flagged(o, tr) <==> exists j :: CrossedAt(o, tr, j)
  {
    if tr != [] {
      var init, n := Init(tr), |tr| - 1;
      FlaggedIff(o, init);
      assert tr[..n + 1] == tr;
      forall j: int | j < n ensures CrossedAt(o, tr, j) <==> CrossedAt(o, init, j) && (tr[n].Unhealthy? || tr[n].Attempt?) {
        CrossedMore(o, tr, j);
      }
      assert CrossedAt(o, tr, n) <==> tr[n].Unhealthy? && Failures(tr) >= o.failuresBeforeHeal;
    }
  }

  lemma CrossedMore(o: Options, tr: seq<Event>, j: int)
    requires tr != [] && j < |tr| - 1
    ensures CrossedAt(o, tr, j) <==> CrossedAt(o, Init(tr), j) && (Last(tr).Unhealthy? || Last(tr).Attempt?)
  {
    var init := Init(tr);
    assert forall k :: 0 <= k < |init| ==> init[k] == tr[k];
    if 0 <= j { assert init[..j + 1] == tr[..j + 1]; }
    if CrossedAt(o, tr, j) {
      forall k | j < k < |init| ensures init[k].Unhealthy? || init[k].Attempt? { assert tr[k] == init[k]; }
    }
  }

  /** The audit trail says unhealthy once at the crossing, and healed, with the number of
    * attempts, at the first healthy measurement after it; every healthy one clears the alarm. */
  lemma ToldAtEnds(o: Options, tr: seq<Event>)
    requires o.Valid()
    ensures Tells(o, tr, Unhealthy) == [Unwell] <==>
      Failures(tr) + 1 >= o.failuresBeforeHeal && !exists j :: CrossedAt(o, tr, j)
    ensures Recovered(Heals(tr)) in Tells(o, tr, Healthy) <==> exists j :: CrossedAt(o, tr, j)
    ensures Cleared in Tells(o, tr, Healthy)
  {
    FlaggedIff(o, tr);
  }
}
