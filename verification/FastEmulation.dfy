/**
  Fast emulation: an application that shares no link is timed by one bottleneck formula, any other
  by passing each packet through the FIFO queue of every hop.  This module gives both as functions of
  time and proves how they compare, for packets of any sizes: when sizes never fall the formula is never
  early, when they never rise or the slowest hop is the first it is never late, and with equal sizes it
  is exact.

  Times are real numbers.  A service time is either exact or, as the program has it, cut to whole
  microseconds; the comparison is proved for any service times, and the effect of the cuts beside it.
 */
module FastEmulation {
  import opened Basics

  function Min(x: real, y: real): real {
    if x < y then x else y
  }

  function Sum(s: seq<real>): real {
    if s == [] then 0.0 else Sum(s[..|s| - 1]) + s[|s| - 1]
  }

  ghost predicate NonNegative(s: seq<real>) {
    forall i :: 0 <= i < |s| ==> s[i] >= 0.0
  }

  // ---------------------------------------------------------------------------------------------
  // The queues, packet by packet
  // ---------------------------------------------------------------------------------------------

  /** How long a hop takes for a packet. */
  type Service = (nat, nat) -> real

  /** When packet `n` has been served at hop `i`: it waits for its own arrival and for the packet before it. */
  ghost function Served(svc: Service, delay: seq<real>, arrivals: nat -> real, i: nat, n: nat): real
    requires i < |delay|
    decreases i, n
  {
    var here := if i == 0 then arrivals(n) else Served(svc, delay, arrivals, i - 1, n) + delay[i - 1];
    var free := if n == 0 then 0.0 else Served(svc, delay, arrivals, i, n - 1);
    Max(here, free) + svc(i, n)
  }

  /** When packet `n` comes out of the last hop. */
  ghost function QueuedExit(svc: Service, delay: seq<real>, arrivals: nat -> real, n: nat): real
    requires delay != []
  {
    Served(svc, delay, arrivals, |delay| - 1, n) + delay[|delay| - 1]
  }

  // ---------------------------------------------------------------------------------------------
  // The bottleneck
  // ---------------------------------------------------------------------------------------------

  /** When a single server that takes `m(n)` for packet `n` is done with it. */
  ghost function Bottleneck(m: nat -> real, arrivals: nat -> real, n: nat): real {
    Max(arrivals(n), if n == 0 then 0.0 else Bottleneck(m, arrivals, n - 1)) + m(n)
  }

  /** The longest that one of the hops up to `i` takes for packet `n`. */
  ghost function Longest(svc: Service, i: nat, n: nat): real {
    if i == 0 then svc(0, n) else Max(Longest(svc, i - 1, n), svc(i, n))
  }

  ghost function LongestAt(svc: Service, i: nat): nat -> real {
    (n: nat) => Longest(svc, i, n)
  }

  /** What the hops up to `i` take together for packet `n`, but for the longest. */
  ghost function Rest(svc: Service, i: nat, n: nat): real {
    if i == 0 then 0.0 else Rest(svc, i - 1, n) + Min(Longest(svc, i - 1, n), svc(i, n))
  }

  /** The formula: one bottleneck, all delays, and the service times of the other hops. */
  ghost function FastExit(svc: Service, delay: seq<real>, arrivals: nat -> real, n: nat): real
    requires delay != []
  {
    Bottleneck(LongestAt(svc, |delay| - 1), arrivals, n) + Sum(delay) + Rest(svc, |delay| - 1, n)
  }

  /** What the first `i` hops take together for packet `n`. */
  ghost function Through(svc: Service, i: nat, n: nat): real {
    if i == 0 then 0.0 else Through(svc, i - 1, n) + svc(i - 1, n)
  }

  ghost predicate Positive(svc: Service) {
    forall i: nat, n: nat :: svc(i, n) >= 0.0
  }

  /**
    Released as much later as the longest of the `h` hops takes for packet `k`, packet `k + 1` finds packet
    `k` gone from hop `i`.
   */
  ghost predicate KeepsAhead(svc: Service, h: nat, i: nat, k: nat)
    requires h > 0
  {
    Through(svc, i + 1, k) <= Longest(svc, h - 1, k) + Through(svc, i, k + 1)
  }

  ghost predicate AllAhead(svc: Service, h: nat)
    requires h > 0
  {
    forall i: nat, k: nat :: i < h ==> KeepsAhead(svc, h, i, k)
  }

  /** No packet takes longer at a hop than a later one. */
  ghost predicate Rising(svc: Service) {
    forall i: nat, k: nat, n: nat :: k <= n ==> svc(i, k) <= svc(i, n)
  }

  ghost predicate Falling(svc: Service) {
    forall i: nat, k: nat, n: nat :: k <= n ==> svc(i, k) >= svc(i, n)
  }

  /** Hop `i` is no faster than hop `j`, for any packet. */
  ghost predicate Slower(svc: Service, i: nat, j: nat) {
    forall n: nat :: svc(i, n) >= svc(j, n)
  }

  ghost predicate Ordered(svc: Service, h: nat) {
    forall i: nat, j: nat :: i < h && j < h ==> Slower(svc, i, j) || Slower(svc, j, i)
  }

  ghost predicate FirstSlowest(svc: Service, h: nat) {
    forall i: nat :: i < h ==> Slower(svc, 0, i)
  }

  lemma {:induction false} BottleneckMonotone(m: nat -> real, k: nat -> real, arrivals: nat -> real, n: nat)
    requires forall x :: m(x) <= k(x)
    ensures Bottleneck(m, arrivals, n) <= Bottleneck(k, arrivals, n)
  {
    if n > 0 {
      BottleneckMonotone(m, k, arrivals, n - 1);
    }
  }

  lemma BottleneckSame(m: nat -> real, k: nat -> real, arrivals: nat -> real, n: nat)
    requires forall x :: m(x) == k(x)
    ensures Bottleneck(m, arrivals, n) == Bottleneck(k, arrivals, n)
  {
    BottleneckMonotone(m, k, arrivals, n);
    BottleneckMonotone(k, m, arrivals, n);
  }

  lemma {:induction false} LongestAndRest(svc: Service, i: nat, n: nat)
    ensures Longest(svc, i, n) + Rest(svc, i, n) == Through(svc, i + 1, n)
  {
    if i > 0 {
      LongestAndRest(svc, i - 1, n);
    } else {
      assert Through(svc, 0, n) == 0.0;
    }
  }

  lemma {:induction false} ThroughRises(svc: Service, i: nat, k: nat, n: nat)
    requires Rising(svc) && k <= n
    ensures Through(svc, i, k) <= Through(svc, i, n)
  {
    if i > 0 {
      ThroughRises(svc, i - 1, k, n);
    }
  }

  /** Packets that never get smaller keep ahead of one another. */
  lemma RisingKeepsAhead(svc: Service, h: nat)
    requires h > 0 && Rising(svc)
    ensures AllAhead(svc, h)
  {
    forall i: nat, k: nat | i < h
      ensures KeepsAhead(svc, h, i, k)
    {
      ThroughRises(svc, i, k, k + 1);
      LongestBounds(svc, h - 1, i, k);
    }
  }

  lemma {:induction false} LongestFalls(svc: Service, i: nat, k: nat, n: nat)
    requires Falling(svc) && k <= n
    ensures Longest(svc, i, k) >= Longest(svc, i, n) && Rest(svc, i, k) >= Rest(svc, i, n)
  {
    if i > 0 {
      LongestFalls(svc, i - 1, k, n);
    }
  }

  lemma {:induction false} FirstQueue(svc: Service, delay: seq<real>, arrivals: nat -> real, n: nat)
    requires delay != []
    ensures Served(svc, delay, arrivals, 0, n) == Bottleneck(LongestAt(svc, 0), arrivals, n)
  {
    if n > 0 {
      FirstQueue(svc, delay, arrivals, n - 1);
    }
  }

  lemma {:induction false} ThroughPositive(svc: Service, i: nat, n: nat)
    requires Positive(svc)
    ensures Through(svc, i, n) >= 0.0
  {
    if i > 0 {
      ThroughPositive(svc, i - 1, n);
    }
  }

  lemma {:induction false} SumNonNegative(s: seq<real>)
    requires NonNegative(s)
    ensures Sum(s) >= 0.0
  {
    if s != [] {
      SumNonNegative(s[..|s| - 1]);
    }
  }

  /** When packet `n - 1` has left hop `i` and the bottleneck of the hops up to `i`. */
  ghost function Before(svc: Service, arrivals: nat -> real, i: nat, n: nat): real {
    if n == 0 then 0.0 else Bottleneck(LongestAt(svc, i), arrivals, n - 1)
  }

  /** When the bottleneck of all hops of the path takes packet `n`. */
  ghost function Begins(svc: Service, h: nat, arrivals: nat -> real, n: nat): real
    requires h > 0
  {
    Max(arrivals(n), Before(svc, arrivals, h - 1, n))
  }

  /**
    When packets keep ahead of one another, the queues let none out later than after its time at the
    bottleneck and at all the other hops.
   */
  lemma {:induction false} AtMostBottleneck(svc: Service, delay: seq<real>, arrivals: nat -> real, i: nat, n: nat)
    requires i < |delay| && NonNegative(delay) && Positive(svc) && AllAhead(svc, |delay|)
    ensures Served(svc, delay, arrivals, i, n)
         <= Begins(svc, |delay|, arrivals, n) + Through(svc, i + 1, n) + Sum(delay[..i])
    decreases i, n
  {
    SumNonNegative(delay[..i]);
    ThroughPositive(svc, i, n);
    if i > 0 {
      AtMostBottleneck(svc, delay, arrivals, i - 1, n);
      assert delay[..i][..i - 1] == delay[..i - 1];
    } else {
      assert delay[..0] == [];
    }
    if n > 0 {
      AtMostBottleneck(svc, delay, arrivals, i, n - 1);
      assert KeepsAhead(svc, |delay|, i, n - 1);
    }
    hide AllAhead, Positive, Longest;
  }

  /** One more hop is the slowest so far for every packet or for none. */
  lemma {:induction false} NextHop(svc: Service, i: nat, h: nat)
    requires Ordered(svc, h) && 0 < i < h
    ensures (forall n :: Longest(svc, i - 1, n) >= svc(i, n)) || forall n :: Longest(svc, i - 1, n) <= svc(i, n)
  {
    if j: nat :| j < i && Slower(svc, j, i) {
      forall n
        ensures Longest(svc, i - 1, n) >= svc(i, n)
      {
        LongestBounds(svc, i - 1, j, n);
      }
    } else {
      forall n
        ensures Longest(svc, i - 1, n) <= svc(i, n)
      {
        LongestBelow(svc, i - 1, i, n);
      }
    }
  }

  lemma {:induction false} LongestBounds(svc: Service, i: nat, j: nat, n: nat)
    requires j <= i
    ensures Longest(svc, i, n) >= svc(j, n)
  {
    if j < i {
      LongestBounds(svc, i - 1, j, n);
    }
  }

  lemma {:induction false} LongestBelow(svc: Service, i: nat, top: nat, n: nat)
    requires forall j: nat :: j <= i ==> Slower(svc, top, j)
    ensures Longest(svc, i, n) <= svc(top, n)
  {
    assert Slower(svc, top, i);
    if i > 0 {
      LongestBelow(svc, i - 1, top, n);
    }
  }

  /** A queue of time `c` behind a bottleneck `m` that is no earlier, or behind its own last packet. */
  lemma OneMoreAtLeast(a: real, p: real, p': real, m: real, c: real, lag: real, x: real, y: real, d: real)
    requires x >= Max(a, p) + m + lag && (p == p' || y >= p' + lag + m + d)
    ensures Max(x + d, y) + c >= Max(a, p') + Max(m, c) + lag + Min(m, c) + d
  {
  }

  /** Either the new hop changes no bottleneck, or it lags behind at least what the others take for the next packet. */
  lemma BehindLast(svc: Service, arrivals: nat -> real, i: nat, n: nat, h: nat)
    requires 0 < i < h && n > 0 && Ordered(svc, h) && (Falling(svc) || FirstSlowest(svc, h))
    ensures Before(svc, arrivals, i - 1, n) == Before(svc, arrivals, i, n)
      || Rest(svc, i, n - 1) >= Rest(svc, i - 1, n) + Longest(svc, i - 1, n)
  {
    NextHop(svc, i, h);
    hide Falling, Ordered, FirstSlowest;
    if forall k :: Longest(svc, i - 1, k) >= svc(i, k) {
      BottleneckSame(LongestAt(svc, i), LongestAt(svc, i - 1), arrivals, n - 1);
    } else {
      SlowestLater(svc, i, h);
      LongestFalls(svc, i - 1, n - 1, n);
    }
  }

  /** When sizes never rise, or the first hop is the slowest, the queues let no packet out earlier than that. */
  lemma {:induction false} AtLeastBottleneck(svc: Service, delay: seq<real>, arrivals: nat -> real, i: nat, n: nat)
    requires i < |delay| && Ordered(svc, |delay|) && (Falling(svc) || FirstSlowest(svc, |delay|))
    ensures Served(svc, delay, arrivals, i, n)
         >= Bottleneck(LongestAt(svc, i), arrivals, n) + Rest(svc, i, n) + Sum(delay[..i])
    decreases i, n
  {
    hide Falling, Ordered, FirstSlowest;
    if i == 0 {
      FirstQueue(svc, delay, arrivals, n);
    } else {
      AtLeastBottleneck(svc, delay, arrivals, i - 1, n);
      assert delay[..i][..i - 1] == delay[..i - 1];
      if n > 0 {
        AtLeastBottleneck(svc, delay, arrivals, i, n - 1);
        BehindLast(svc, arrivals, i, n, |delay|);
      }
      var y := if n == 0 then 0.0 else Served(svc, delay, arrivals, i, n - 1);
      OneMoreAtLeast(arrivals(n), Before(svc, arrivals, i - 1, n), Before(svc, arrivals, i, n),
                     Longest(svc, i - 1, n), svc(i, n), Rest(svc, i - 1, n) + Sum(delay[..i - 1]),
                     Served(svc, delay, arrivals, i - 1, n), y, delay[i - 1]);
    }
  }

  /** If the first hop is the slowest then no later one is. */
  lemma SlowestLater(svc: Service, i: nat, h: nat)
    requires 0 < i < h && exists k :: Longest(svc, i - 1, k) < svc(i, k)
    requires Falling(svc) || FirstSlowest(svc, h)
    ensures Falling(svc)
  {
    var k :| Longest(svc, i - 1, k) < svc(i, k);
    LongestBounds(svc, i - 1, 0, k);
    assert !Slower(svc, 0, i);
  }

  /** How the formula compares to the queues. */
  lemma FastAgainstQueues(svc: Service, delay: seq<real>, arrivals: nat -> real, n: nat)
    requires delay != [] && NonNegative(delay) && Positive(svc)
    ensures AllAhead(svc, |delay|) ==> QueuedExit(svc, delay, arrivals, n) <= FastExit(svc, delay, arrivals, n)
    ensures Ordered(svc, |delay|) && (Falling(svc) || FirstSlowest(svc, |delay|)) ==>
      FastExit(svc, delay, arrivals, n) <= QueuedExit(svc, delay, arrivals, n)
  {
    var h := |delay|;
    assert delay == delay[..h - 1] + [delay[h - 1]];
    LongestAndRest(svc, h - 1, n);
    if AllAhead(svc, h) {
      AtMostBottleneck(svc, delay, arrivals, h - 1, n);
    }
    if Ordered(svc, h) && (Falling(svc) || FirstSlowest(svc, h)) {
      AtLeastBottleneck(svc, delay, arrivals, h - 1, n);
    }
  }

  // ---------------------------------------------------------------------------------------------
  // Rates, and service times cut to whole microseconds
  // ---------------------------------------------------------------------------------------------

  /** A point-to-point queue's link: megabits per second, and a fixed delay in microseconds. */
  datatype Hop = Hop(rate: real, delay: nat)

  ghost predicate Path(hops: seq<Hop>) {
    hops != [] && forall i :: 0 <= i < |hops| ==> hops[i].rate > 0.0
  }

  function Cut(x: real): real {
    x.Floor as real
  }

  /** Cutting leaves the whole microseconds. */
  lemma CutIsWhole(x: real)
    ensures Cut(x) <= x < Cut(x) + 1.0 && Cut(x) == Cut(x).Floor as real
  {
  }

  /** The time the program gives a packet of `bits` bits at each hop. */
  function Times(hops: seq<Hop>, bits: nat): (s: seq<real>)
    requires forall i :: 0 <= i < |hops| ==> hops[i].rate > 0.0
    ensures |s| == |hops| && forall i :: 0 <= i < |s| ==> s[i] == bits as real / hops[i].rate
    ensures forall i :: 0 <= i < |s| ==> s[i] >= 0.0
  {
    seq(|hops|, i requires 0 <= i < |hops| => bits as real / hops[i].rate)
  }

  function CutAll(s: seq<real>): (t: seq<real>)
    ensures |t| == |s| && forall i :: 0 <= i < |s| ==> t[i] == Cut(s[i])
  {
    seq(|s|, i requires 0 <= i < |s| => Cut(s[i]))
  }

  function Delays(hops: seq<Hop>): (d: seq<real>)
    ensures |d| == |hops| && forall i :: 0 <= i < |d| ==> d[i] == hops[i].delay as real
  {
    seq(|hops|, i requires 0 <= i < |hops| => hops[i].delay as real)
  }

  /** All but element `b`. */
  function Others(s: seq<real>, b: nat): seq<real>
    requires b < |s|
  {
    s[..b] + s[b + 1..]
  }

  /** A slowest hop. */
  ghost predicate Slowest(hops: seq<Hop>, b: nat) {
    b < |hops| && forall i :: 0 <= i < |hops| ==> hops[b].rate <= hops[i].rate
  }

  /** The time as it is, or cut. */
  function Took(x: real, cut: bool): real {
    if cut then Cut(x) else x
  }

  /** How long each hop takes for each packet of a run; packet `n` has `bits(n)` bits. */
  ghost function HopTime(hops: seq<Hop>, bits: nat -> nat, cut: bool): Service
    requires Path(hops)
  {
    (i: nat, n: nat) => if i < |hops| then Took(Times(hops, bits(n))[i], cut) else 0.0
  }

  ghost function TimeAtHop(hops: seq<Hop>, b: nat, bits: nat -> nat, cut: bool): nat -> real
    requires Path(hops) && b < |hops|
  {
    (n: nat) => Took(Times(hops, bits(n))[b], cut)
  }

  /** The reinject time of packet `n` of an application that shares no link; the program cuts. */
  ghost function FastBy(hops: seq<Hop>, b: nat, bits: nat -> nat, cut: bool, arrivals: nat -> real, n: nat): real
    requires Path(hops) && b < |hops|
  {
    Bottleneck(TimeAtHop(hops, b, bits, cut), arrivals, n) + Sum(Delays(hops))
      + Took(Sum(Others(Times(hops, bits(n)), b)), cut)
  }

  /** The reinject time the queues give it. */
  ghost function QueueBy(hops: seq<Hop>, bits: nat -> nat, cut: bool, arrivals: nat -> real, n: nat): real
    requires Path(hops)
  {
    QueuedExit(HopTime(hops, bits, cut), Delays(hops), arrivals, n)
  }

  ghost function FastTime(hops: seq<Hop>, b: nat, bits: nat -> nat, arrivals: nat -> real, n: nat): real
    requires Path(hops) && b < |hops|
  {
    FastBy(hops, b, bits, true, arrivals, n)
  }

  ghost function QueueTime(hops: seq<Hop>, bits: nat -> nat, arrivals: nat -> real, n: nat): real
    requires Path(hops)
  {
    QueueBy(hops, bits, true, arrivals, n)
  }

  /** No packet is smaller than one before it. */
  ghost predicate NeverFalls(bits: nat -> nat) {
    forall k, n :: k <= n ==> bits(k) <= bits(n)
  }

  ghost predicate NeverRises(bits: nat -> nat) {
    forall k, n :: k <= n ==> bits(k) >= bits(n)
  }

  lemma {:induction false} SumAppend(s: seq<real>, t: seq<real>)
    ensures Sum(s + t) == Sum(s) + Sum(t)
  {
    if t == [] {
      assert s + t == s;
    } else {
      assert (s + t)[..|s + t| - 1] == s + t[..|t| - 1];
      SumAppend(s, t[..|t| - 1]);
    }
  }

  lemma SumOfOne(x: real)
    ensures Sum([x]) == x
  {
    assert [x][..0] == [];
  }

  lemma SumInserted(a: seq<real>, x: real, c: seq<real>)
    ensures Sum(a + ([x] + c)) == x + Sum(a + c)
  {
    SumOfOne(x);
    hide Sum;
    SumAppend(a, [x] + c);
    SumAppend([x], c);
    SumAppend(a, c);
  }

  lemma SumOthers(s: seq<real>, b: nat)
    requires b < |s|
    ensures Sum(s) == s[b] + Sum(Others(s, b))
  {
    hide Sum;
    SumInserted(s[..b], s[b], s[b + 1..]);
    assert s == s[..b] + ([s[b]] + s[b + 1..]);
  }

  ghost function FloorSum(s: seq<real>): int {
    if s == [] then 0 else FloorSum(s[..|s| - 1]) + s[|s| - 1].Floor
  }

  /** Cutting each term loses less than one microsecond a term, and never gains. */
  lemma {:induction false} CutsLose(s: seq<real>)
    ensures Sum(CutAll(s)) == FloorSum(s) as real
    ensures FloorSum(s) as real <= Sum(s)
    ensures s != [] ==> Sum(s) < FloorSum(s) as real + |s| as real
  {
    if s != [] {
      CutsLose(s[..|s| - 1]);
      assert CutAll(s)[..|s| - 1] == CutAll(s[..|s| - 1]);
    }
  }

  lemma FloorAbove(k: int, x: real)
    requires k as real <= x
    ensures k <= x.Floor && x.Floor as real <= x
  {
  }

  lemma CutOfSum(s: seq<real>)
    ensures Sum(CutAll(s)) <= Cut(Sum(s))
    ensures s == [] ==> Cut(Sum(s)) == Sum(CutAll(s))
    ensures s != [] ==> Cut(Sum(s)) < Sum(CutAll(s)) + |s| as real
  {
    CutsLose(s);
    FloorAbove(FloorSum(s), Sum(s));
  }

  lemma SlowerTakesLonger(x: real, r: real, q: real)
    requires x >= 0.0 && 0.0 < r <= q
    ensures x / q <= x / r
  {
    var a, b := x / q, x / r;
    assert a * q == x == b * r;
    if a > b {
      assert b >= 0.0;
      assert a * q >= a * r;
      assert a * r > b * r;
    }
  }

  lemma Reciprocal(y: real)
    requires y > 0.0
    ensures 1.0 / y > 0.0 && (1.0 / y) * y == 1.0
  {
  }

  lemma Quotient(x: real, r: real, y: real)
    requires r > 0.0 && r * y == 1.0
    ensures x / r == x * y
  {
    var q := x / r;
    assert q * r == x;
    assert (q * r) * y == q * (r * y);
  }

  lemma OneTerm(hops: seq<Hop>, bits: nat, i: nat)
    requires Path(hops) && i < |hops|
    ensures Times(hops, bits)[i] == bits as real * Times(hops, 1)[i]
  {
    Reciprocal(hops[i].rate);
    Quotient(bits as real, hops[i].rate, 1.0 / hops[i].rate);
  }

  lemma TookMonotone(x: real, y: real, cut: bool)
    requires x <= y
    ensures Took(x, cut) <= Took(y, cut)
  {
    FloorAbove(x.Floor, y);
  }

  lemma Quotients(x: real, y: real, r: real)
    requires x <= y && r > 0.0
    ensures x / r <= y / r
  {
  }

  lemma MoreBitsTakeLonger(hops: seq<Hop>, i: nat, a: nat, b: nat, cut: bool)
    requires Path(hops) && i < |hops| && a <= b
    ensures Took(Times(hops, a)[i], cut) <= Took(Times(hops, b)[i], cut)
  {
    Quotients(a as real, b as real, hops[i].rate);
    TookMonotone(Times(hops, a)[i], Times(hops, b)[i], cut);
  }

  lemma SlowerHop(hops: seq<Hop>, i: nat, j: nat, a: nat, cut: bool)
    requires Path(hops) && i < |hops| && j < |hops| && hops[i].rate <= hops[j].rate
    ensures Took(Times(hops, a)[i], cut) >= Took(Times(hops, a)[j], cut)
  {
    SlowerTakesLonger(a as real, hops[i].rate, hops[j].rate);
    TookMonotone(Times(hops, a)[j], Times(hops, a)[i], cut);
  }

  lemma TimesPositive(hops: seq<Hop>, bits: nat -> nat, cut: bool)
    requires Path(hops)
    ensures Positive(HopTime(hops, bits, cut)) && NonNegative(Delays(hops))
  {
    forall i: nat, n: nat
      ensures HopTime(hops, bits, cut)(i, n) >= 0.0
    {
      if i < |hops| {
        FloorAbove(0, Times(hops, bits(n))[i]);
      }
    }
  }

  lemma TimesRise(hops: seq<Hop>, bits: nat -> nat, cut: bool)
    requires Path(hops) && NeverFalls(bits)
    ensures Rising(HopTime(hops, bits, cut))
  {
    var svc := HopTime(hops, bits, cut);
    forall i: nat, k: nat, n: nat | k <= n
      ensures svc(i, k) <= svc(i, n)
    {
      if i < |hops| {
        MoreBitsTakeLonger(hops, i, bits(k), bits(n), cut);
      }
    }
  }

  lemma TimesFall(hops: seq<Hop>, bits: nat -> nat, cut: bool)
    requires Path(hops) && NeverRises(bits)
    ensures Falling(HopTime(hops, bits, cut))
  {
    var svc := HopTime(hops, bits, cut);
    forall i: nat, k: nat, n: nat | k <= n
      ensures svc(i, k) >= svc(i, n)
    {
      if i < |hops| {
        MoreBitsTakeLonger(hops, i, bits(n), bits(k), cut);
      }
    }
  }

  lemma RatesOrder(hops: seq<Hop>, bits: nat -> nat, cut: bool, i: nat, j: nat)
    requires Path(hops) && i < |hops| && j < |hops| && hops[i].rate <= hops[j].rate
    ensures Slower(HopTime(hops, bits, cut), i, j)
  {
    forall n: nat
      ensures HopTime(hops, bits, cut)(i, n) >= HopTime(hops, bits, cut)(j, n)
    {
      SlowerHop(hops, i, j, bits(n), cut);
    }
  }

  lemma TimesOrdered(hops: seq<Hop>, bits: nat -> nat, cut: bool)
    requires Path(hops)
    ensures Ordered(HopTime(hops, bits, cut), |hops|)
    ensures Slowest(hops, 0) ==> FirstSlowest(HopTime(hops, bits, cut), |hops|)
  {
    var svc := HopTime(hops, bits, cut);
    hide Slower, HopTime;
    forall i: nat, j: nat | i < |hops| && j < |hops|
      ensures Slower(svc, i, j) || Slower(svc, j, i)
      ensures hops[i].rate <= hops[j].rate ==> Slower(svc, i, j)
    {
      if hops[i].rate <= hops[j].rate {
        RatesOrder(hops, bits, cut, i, j);
      } else {
        RatesOrder(hops, bits, cut, j, i);
      }
    }
  }

  function TookAll(s: seq<real>, cut: bool): seq<real> {
    if cut then CutAll(s) else s
  }

  lemma {:induction false} ThroughIsSum(svc: Service, s: seq<real>, i: nat, n: nat)
    requires i <= |s| && forall j :: 0 <= j < |s| ==> s[j] == svc(j, n)
    ensures Through(svc, i, n) == Sum(s[..i])
  {
    if i == 0 {
      assert s[..0] == [];
    } else {
      assert s[..i][..i - 1] == s[..i - 1];
      ThroughIsSum(svc, s, i - 1, n);
    }
  }

  lemma HopTimeIs(hops: seq<Hop>, bits: nat -> nat, cut: bool, n: nat)
    requires Path(hops)
    ensures var s := TookAll(Times(hops, bits(n)), cut);
      |s| == |hops| && forall i :: 0 <= i < |s| ==> s[i] == HopTime(hops, bits, cut)(i, n)
    ensures forall b: nat :: b < |hops| ==> HopTime(hops, bits, cut)(b, n) == TimeAtHop(hops, b, bits, cut)(n)
  {
  }

  lemma LongestOfSlowest(svc: Service, s: seq<real>, b: nat, n: nat)
    requires b < |s| && forall j :: 0 <= j < |s| ==> s[j] == svc(j, n)
    requires forall j: nat :: j <= |s| - 1 ==> Slower(svc, b, j)
    ensures Longest(svc, |s| - 1, n) == s[b] && Rest(svc, |s| - 1, n) == Sum(Others(s, b))
  {
    LongestBelow(svc, |s| - 1, b, n);
    LongestBounds(svc, |s| - 1, b, n);
    LongestAndRest(svc, |s| - 1, n);
    ThroughIsSum(svc, s, |s|, n);
    assert s[..|s|] == s;
    SumOthers(s, b);
  }

  lemma SlowestIsSlower(hops: seq<Hop>, b: nat, bits: nat -> nat, cut: bool)
    requires Path(hops) && Slowest(hops, b)
    ensures b < |hops| && forall j: nat :: j <= |hops| - 1 ==> Slower(HopTime(hops, bits, cut), b, j)
  {
    forall j: nat | j <= |hops| - 1
      ensures Slower(HopTime(hops, bits, cut), b, j)
    {
      RatesOrder(hops, bits, cut, b, j);
    }
  }

  /** The slowest hop takes longest for every packet; the others make up the rest. */
  lemma SlowestIsLongest(hops: seq<Hop>, b: nat, bits: nat -> nat, cut: bool, n: nat)
    requires Path(hops) && Slowest(hops, b)
    ensures var svc := HopTime(hops, bits, cut);
      && Longest(svc, |hops| - 1, n) == TimeAtHop(hops, b, bits, cut)(n)
      && Rest(svc, |hops| - 1, n) == Sum(Others(TookAll(Times(hops, bits(n)), cut), b))
  {
    hide HopTime, TimeAtHop, TookAll, Slower, Longest, Rest, Sum, Others, Times, Slowest;
    SlowestIsSlower(hops, b, bits, cut);
    HopTimeIs(hops, bits, cut, n);
    LongestOfSlowest(HopTime(hops, bits, cut), TookAll(Times(hops, bits(n)), cut), b, n);
  }

  lemma OthersTook(s: seq<real>, b: nat, cut: bool)
    requires b < |s|
    ensures |TookAll(s, cut)| == |s| && Others(TookAll(s, cut), b) == TookAll(Others(s, b), cut)
  {
  }

  /** The program's formula is the one of the bottleneck, but for the cuts of the other hops. */
  lemma FormulaIs(hops: seq<Hop>, b: nat, bits: nat -> nat, cut: bool, arrivals: nat -> real, n: nat)
    requires Path(hops) && Slowest(hops, b)
    ensures var others := Others(Times(hops, bits(n)), b);
      FastBy(hops, b, bits, cut, arrivals, n)
        == FastExit(HopTime(hops, bits, cut), Delays(hops), arrivals, n) + Took(Sum(others), cut) - Sum(TookAll(others, cut))
  {
    hide HopTime, TimeAtHop, TookAll, Took, Longest, Rest, Sum, Others, Bottleneck;
    var svc := HopTime(hops, bits, cut);
    forall k: nat
      ensures LongestAt(svc, |hops| - 1)(k) == TimeAtHop(hops, b, bits, cut)(k)
    {
      SlowestIsLongest(hops, b, bits, cut, k);
    }
    SlowestIsLongest(hops, b, bits, cut, n);
    BottleneckSame(LongestAt(svc, |hops| - 1), TimeAtHop(hops, b, bits, cut), arrivals, n);
    OthersTook(Times(hops, bits(n)), b, cut);
  }

  /** With one hop there is nothing but the bottleneck. */
  lemma OneHop(svc: Service, delay: seq<real>, arrivals: nat -> real, n: nat)
    requires |delay| == 1
    ensures FastExit(svc, delay, arrivals, n) == QueuedExit(svc, delay, arrivals, n)
  {
    FirstQueue(svc, delay, arrivals, n);
    assert delay[..|delay| - 1] == [] && Sum([]) == 0.0;
    assert Rest(svc, 0, n) == 0.0;
  }

  /** Packets of these sizes keep ahead of one another on the path. */
  ghost predicate StayAhead(hops: seq<Hop>, bits: nat -> nat, cut: bool)
    requires Path(hops)
  {
    AllAhead(HopTime(hops, bits, cut), |hops|)
  }

  lemma GrowingStayAhead(hops: seq<Hop>, bits: nat -> nat, cut: bool)
    requires Path(hops) && NeverFalls(bits)
    ensures StayAhead(hops, bits, cut)
  {
    TimesRise(hops, bits, cut);
    RisingKeepsAhead(HopTime(hops, bits, cut), |hops|);
  }

  lemma Compared(hops: seq<Hop>, bits: nat -> nat, cut: bool, arrivals: nat -> real, n: nat)
    requires Path(hops)
    ensures var fast := FastExit(HopTime(hops, bits, cut), Delays(hops), arrivals, n);
      && (StayAhead(hops, bits, cut) ==> QueueBy(hops, bits, cut, arrivals, n) <= fast)
      && (NeverRises(bits) || Slowest(hops, 0) ==> fast <= QueueBy(hops, bits, cut, arrivals, n))
      && (|hops| == 1 ==> fast == QueueBy(hops, bits, cut, arrivals, n))
  {
    hide HopTime, Falling, Ordered, FirstSlowest, Positive, NonNegative, NeverRises, Slowest, Path,
      FastExit, QueuedExit, Delays, AllAhead;
    var svc := HopTime(hops, bits, cut);
    TimesPositive(hops, bits, cut);
    TimesOrdered(hops, bits, cut);
    if NeverRises(bits) {
      TimesFall(hops, bits, cut);
    }
    PathNotEmpty(hops);
    FastAgainstQueues(svc, Delays(hops), arrivals, n);
    if |hops| == 1 {
      OneHop(svc, Delays(hops), arrivals, n);
    }
  }

  lemma PathNotEmpty(hops: seq<Hop>)
    requires Path(hops)
    ensures |hops| > 0 && |Delays(hops)| == |hops|
  {
  }

  /**
    With the program's cuts: never early when packets stay ahead, as they do when sizes never fall; late by
    less than one microsecond a hop passed when they never rise or the first hop is a slowest; exact for one hop.
   */
  lemma CutAgreement(hops: seq<Hop>, b: nat, bits: nat -> nat, arrivals: nat -> real, n: nat)
    requires Path(hops) && Slowest(hops, b)
    ensures var (fast, queued) := (FastTime(hops, b, bits, arrivals, n), QueueTime(hops, bits, arrivals, n));
      && (NeverFalls(bits) || StayAhead(hops, bits, true) ==> queued <= fast)
      && (|hops| == 1 ==> fast == queued)
      && (|hops| > 1 && (NeverRises(bits) || Slowest(hops, 0)) ==> fast < queued + (|hops| - 1) as real)
  {
    if NeverFalls(bits) {
      GrowingStayAhead(hops, bits, true);
    }
    hide StayAhead, NeverFalls;
    FormulaIs(hops, b, bits, true, arrivals, n);
    Compared(hops, bits, true, arrivals, n);
    CutOfSum(Others(Times(hops, bits(n)), b));
  }
}
