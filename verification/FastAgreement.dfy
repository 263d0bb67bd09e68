/**
  When the bottleneck formula agrees with the queues. In exact arithmetic it is early for no arrivals
  exactly when packets stay ahead of one another, and late for none exactly when sizes never rise or the
  first hop is a slowest. Both conditions speak of sizes and rates only.
 */
module FastAgreement {
  import opened Basics
  import opened FastEmulation

  /** Packets come in order, at whole microseconds. */
  ghost predicate Clock(arrivals: nat -> real) {
    && (forall n :: arrivals(n) >= 0.0 && arrivals(n) == Cut(arrivals(n)))
    && forall k, n :: k <= n ==> arrivals(k) <= arrivals(n)
  }

  // ---------------------------------------------------------------------------------------------
  // Two packets together at an idle path
  // ---------------------------------------------------------------------------------------------

  /** The packets before `k` come at once, the others together at `time`. */
  ghost function Together(k: nat, time: real): nat -> real {
    (n: nat) => if n < k then 0.0 else time
  }

  lemma {:induction false} ServedSame(svc: Service, delay: seq<real>, a: nat -> real, b: nat -> real, i: nat, n: nat)
    requires i < |delay| && forall x: nat :: x <= n ==> a(x) == b(x)
    ensures Served(svc, delay, a, i, n) == Served(svc, delay, b, i, n)
    decreases i, n
  {
    if i > 0 {
      ServedSame(svc, delay, a, b, i - 1, n);
    }
    if n > 0 {
      ServedSame(svc, delay, a, b, i, n - 1);
    }
  }

  lemma {:induction false} BottleneckAlike(m: nat -> real, a: nat -> real, b: nat -> real, n: nat)
    requires forall x: nat :: x <= n ==> a(x) == b(x)
    ensures Bottleneck(m, a, n) == Bottleneck(m, b, n)
  {
    if n > 0 {
      BottleneckAlike(m, a, b, n - 1);
    }
  }

  lemma {:induction false} LaterHop(svc: Service, delay: seq<real>, arrivals: nat -> real, i: nat, j: nat, n: nat)
    requires i <= j < |delay| && NonNegative(delay) && Positive(svc)
    ensures Served(svc, delay, arrivals, i, n) <= Served(svc, delay, arrivals, j, n)
    decreases j
  {
    if i < j {
      LaterHop(svc, delay, arrivals, i, j - 1, n);
    }
  }

  /** When the packet before packet `k` has been served at hop `i`. */
  ghost function Freed(svc: Service, delay: seq<real>, arrivals: nat -> real, i: nat, k: nat): real
    requires i < |delay|
  {
    if k == 0 then 0.0 else Served(svc, delay, arrivals, i, k - 1)
  }

  /** The packets before `k` have left the path, and the bottleneck, by `time`. */
  ghost predicate Idle(svc: Service, delay: seq<real>, k: nat, time: real)
    requires delay != []
  {
    && time >= 0.0
    && (forall i: nat :: i < |delay| ==> Freed(svc, delay, Together(k, time), i, k) <= time)
    && Before(svc, Together(k, time), |delay| - 1, k) <= time
  }

  lemma IdleTime(svc: Service, delay: seq<real>, k: nat) returns (time: real)
    requires delay != [] && NonNegative(delay) && Positive(svc)
    ensures Idle(svc, delay, k, time) && Clock(Together(k, time))
  {
    var h := |delay|;
    if k == 0 {
      time := 0.0;
    } else {
      var zero := Together(k, 0.0);
      var busy := Max(0.0, Max(Bottleneck(LongestAt(svc, h - 1), zero, k - 1), Served(svc, delay, zero, h - 1, k - 1)));
      time := (busy.Floor + 1) as real;
      assert time >= busy && Cut(time) == time;
      BottleneckAlike(LongestAt(svc, h - 1), zero, Together(k, time), k - 1);
      forall i: nat | i < h
        ensures Freed(svc, delay, Together(k, time), i, k) <= time
      {
        ServedSame(svc, delay, zero, Together(k, time), i, k - 1);
        LaterHop(svc, delay, zero, i, h - 1, k - 1);
      }
    }
  }

  /** The first of the two passes the queues without waiting. */
  lemma {:induction false} FirstOfTwo(svc: Service, delay: seq<real>, k: nat, time: real, i: nat)
    requires i < |delay| && NonNegative(delay) && Positive(svc) && Idle(svc, delay, k, time)
    ensures Served(svc, delay, Together(k, time), i, k) == time + Through(svc, i + 1, k) + Sum(delay[..i])
  {
    SumNonNegative(delay[..i]);
    ThroughPositive(svc, i, k);
    assert Freed(svc, delay, Together(k, time), i, k) <= time;
    if i > 0 {
      FirstOfTwo(svc, delay, k, time, i - 1);
      assert delay[..i][..i - 1] == delay[..i - 1];
    } else {
      assert delay[..0] == [] && Through(svc, 0, k) == 0.0;
    }
    hide Positive;
  }

  /** What the formula says of the second. */
  lemma FormulaOfSecond(svc: Service, delay: seq<real>, k: nat, time: real)
    requires delay != [] && Positive(svc) && Idle(svc, delay, k, time)
    ensures FastExit(svc, delay, Together(k, time), k + 1)
         == time + Longest(svc, |delay| - 1, k) + Through(svc, |delay|, k + 1) + Sum(delay)
  {
    var m, arrivals, h := LongestAt(svc, |delay| - 1), Together(k, time), |delay|;
    LongestAndRest(svc, h - 1, k + 1);
    LongestBounds(svc, h - 1, 0, k);
    assert Bottleneck(m, arrivals, k) == time + Longest(svc, h - 1, k);
  }

  /** The second is served at hop `j` only after the first has come through hop `i`. */
  lemma {:induction false} SecondAfterFirst(svc: Service, delay: seq<real>, k: nat, time: real, i: nat, j: nat)
    requires i <= j < |delay| && NonNegative(delay) && Positive(svc) && Idle(svc, delay, k, time)
    ensures Served(svc, delay, Together(k, time), j, k + 1)
         >= time + Through(svc, i + 1, k) - Through(svc, i, k + 1) + Through(svc, j + 1, k + 1) + Sum(delay[..j])
    decreases j
  {
    if i == j {
      FirstOfTwo(svc, delay, k, time, i);
    } else {
      SecondAfterFirst(svc, delay, k, time, i, j - 1);
      assert delay[..j][..j - 1] == delay[..j - 1];
    }
  }

  lemma EarlyIfCaught(svc: Service, delay: seq<real>, i: nat, k: nat) returns (arrivals: nat -> real)
    requires i < |delay| && NonNegative(delay) && Positive(svc) && !KeepsAhead(svc, |delay|, i, k)
    ensures Clock(arrivals) && FastExit(svc, delay, arrivals, k + 1) < QueuedExit(svc, delay, arrivals, k + 1)
  {
    var h := |delay|;
    var time := IdleTime(svc, delay, k);
    arrivals := Together(k, time);
    SecondAfterFirst(svc, delay, k, time, i, h - 1);
    FormulaOfSecond(svc, delay, k, time);
    assert delay == delay[..h - 1] + [delay[h - 1]];
  }

  /** The formula is never early, whatever the arrivals, exactly when packets keep ahead of one another. */
  lemma NeverEarlyExactly(svc: Service, delay: seq<real>)
    requires delay != [] && NonNegative(delay) && Positive(svc)
    ensures (forall arrivals, n | Clock(arrivals) ::
        QueuedExit(svc, delay, arrivals, n) <= FastExit(svc, delay, arrivals, n))
      <==> AllAhead(svc, |delay|)
  {
    if AllAhead(svc, |delay|) {
      forall arrivals, n | Clock(arrivals)
        ensures QueuedExit(svc, delay, arrivals, n) <= FastExit(svc, delay, arrivals, n)
      {
        FastAgainstQueues(svc, delay, arrivals, n);
      }
    } else {
      var i: nat, k: nat :| i < |delay| && !KeepsAhead(svc, |delay|, i, k);
      var arrivals := EarlyIfCaught(svc, delay, i, k);
    }
  }

  // ---------------------------------------------------------------------------------------------
  // A larger packet behind a first hop that is not the slowest
  // ---------------------------------------------------------------------------------------------

  /** Every hop takes longer for packet `k + 1` than for packet `k`. */
  ghost predicate Grows(svc: Service, h: nat, k: nat) {
    forall j: nat :: j < h ==> 0.0 < svc(j, k) < svc(j, k + 1)
  }

  lemma {:induction false} ThroughGrows(svc: Service, i: nat, h: nat, k: nat)
    requires 0 < i <= h && Grows(svc, h, k)
    ensures Through(svc, i, k) < Through(svc, i, k + 1)
  {
    if i > 1 {
      ThroughGrows(svc, i - 1, h, k);
    } else {
      assert Through(svc, 0, k) == Through(svc, 0, k + 1) == 0.0;
    }
  }

  /** Once a hop is slower than the first, the second packet is held up less than the slowest so far takes for the first. */
  lemma {:induction false} SecondCatchesUp(svc: Service, delay: seq<real>, k: nat, time: real, i: nat)
    requires i < |delay| && NonNegative(delay) && Positive(svc) && Idle(svc, delay, k, time) && Grows(svc, |delay|, k)
    ensures var bound := time + Longest(svc, i, k) + Through(svc, i + 1, k + 1) + Sum(delay[..i]);
      && Served(svc, delay, Together(k, time), i, k + 1) <= bound
      && (Longest(svc, i, k) > svc(0, k) ==> Served(svc, delay, Together(k, time), i, k + 1) < bound)
  {
    FirstOfTwo(svc, delay, k, time, i);
    assert 0.0 < svc(i, k) < svc(i, k + 1);
    if i > 0 {
      SecondCatchesUp(svc, delay, k, time, i - 1);
      ThroughGrows(svc, i, |delay|, k);
      LongestBounds(svc, i - 1, 0, k);
      assert delay[..i][..i - 1] == delay[..i - 1];
    } else {
      assert delay[..0] == [] && Through(svc, 0, k) == Through(svc, 0, k + 1) == 0.0;
    }
    hide Positive, NonNegative, Idle, Grows;
  }

  lemma LateIfGrows(svc: Service, delay: seq<real>, b: nat, k: nat) returns (arrivals: nat -> real)
    requires b < |delay| && NonNegative(delay) && Positive(svc) && Grows(svc, |delay|, k) && svc(0, k) < svc(b, k)
    ensures Clock(arrivals) && QueuedExit(svc, delay, arrivals, k + 1) < FastExit(svc, delay, arrivals, k + 1)
  {
    var h := |delay|;
    var time := IdleTime(svc, delay, k);
    arrivals := Together(k, time);
    SecondCatchesUp(svc, delay, k, time, h - 1);
    LongestBounds(svc, h - 1, b, k);
    FormulaOfSecond(svc, delay, k, time);
    assert delay == delay[..h - 1] + [delay[h - 1]];
  }

  // ---------------------------------------------------------------------------------------------
  // The program's formula, in exact arithmetic
  // ---------------------------------------------------------------------------------------------

  /** The time of one bit at hop `i`. */
  function BitTime(hops: seq<Hop>, i: nat): real
    requires Path(hops) && i < |hops|
  {
    Times(hops, 1)[i]
  }

  /** The time of one bit at the first `i` hops together. */
  function BitTimes(hops: seq<Hop>, i: nat): real
    requires Path(hops) && i <= |hops|
  {
    Sum(Times(hops, 1)[..i])
  }

  /**
    What packet `k` takes up to and with hop `s`, less its time at the slowest hop, is no more than what
    packet `k + 1` takes before hop `s`.
   */
  ghost predicate FallsAt(hops: seq<Hop>, b: nat, bits: nat -> nat, s: nat, k: nat)
    requires Path(hops) && b < |hops| && s < |hops|
  {
    bits(k) as real * (BitTimes(hops, s + 1) - BitTime(hops, b)) <= bits(k + 1) as real * BitTimes(hops, s)
  }

  /** From each packet to the next, sizes fall no further than that allows. */
  ghost predicate FallsWithin(hops: seq<Hop>, b: nat, bits: nat -> nat)
    requires Path(hops) && b < |hops|
  {
    forall k: nat, s: nat :: s < |hops| ==> FallsAt(hops, b, bits, s, k)
  }

  lemma {:induction false} ThroughScales(hops: seq<Hop>, bits: nat -> nat, i: nat, n: nat)
    requires Path(hops) && i <= |hops|
    ensures Through(HopTime(hops, bits, false), i, n) == bits(n) as real * BitTimes(hops, i)
  {
    var s := Times(hops, 1);
    if i == 0 {
      assert s[..0] == [];
    } else {
      assert s[..i][..i - 1] == s[..i - 1];
      ThroughScales(hops, bits, i - 1, n);
      OneTerm(hops, bits(n), i - 1);
    }
  }

  /** The formula of the program is that of the bottleneck when nothing is cut. */
  lemma ExactFormula(hops: seq<Hop>, b: nat, bits: nat -> nat, arrivals: nat -> real, n: nat)
    requires Path(hops) && Slowest(hops, b)
    ensures FastBy(hops, b, bits, false, arrivals, n) == FastExit(HopTime(hops, bits, false), Delays(hops), arrivals, n)
  {
    FormulaIs(hops, b, bits, false, arrivals, n);
    hide FastBy, FastExit, HopTime, Times, Others, Slowest;
  }

  lemma AtHopIs(hops: seq<Hop>, b: nat, bits: nat -> nat, k: nat)
    requires Path(hops) && b < |hops|
    ensures TimeAtHop(hops, b, bits, false)(k) == Times(hops, bits(k))[b] && BitTime(hops, b) == Times(hops, 1)[b]
  {
    hide Path, Times;
  }

  lemma AtHopScales(hops: seq<Hop>, b: nat, bits: nat -> nat, k: nat)
    requires Path(hops) && b < |hops|
    ensures TimeAtHop(hops, b, bits, false)(k) == bits(k) as real * BitTime(hops, b)
  {
    hide *;
    AtHopIs(hops, b, bits, k);
    OneTerm(hops, bits(k), b);
  }

  lemma LongestScales(hops: seq<Hop>, b: nat, bits: nat -> nat, k: nat)
    requires Path(hops) && Slowest(hops, b)
    ensures Longest(HopTime(hops, bits, false), |hops| - 1, k) == bits(k) as real * BitTime(hops, b)
  {
    assert b < |hops|;
    hide *;
    AtHopScales(hops, b, bits, k);
    SlowestIsLongest(hops, b, bits, false, k);
  }

  lemma Distributes(x: real, y: real, z: real, other: real)
    ensures x * y <= x * z + other <==> x * (y - z) <= other
  {
    assert x * (y - z) == x * y - x * z;
  }

  /** One packet keeps ahead of the next at hop `s` exactly when the next is not too much smaller. */
  lemma AheadAt(hops: seq<Hop>, b: nat, bits: nat -> nat, s: nat, k: nat)
    requires Path(hops) && Slowest(hops, b) && s < |hops|
    ensures KeepsAhead(HopTime(hops, bits, false), |hops|, s, k) <==> FallsAt(hops, b, bits, s, k)
  {
    hide HopTime, Path, BitTimes, BitTime, Through, Longest;
    ThroughScales(hops, bits, s + 1, k);
    ThroughScales(hops, bits, s, k + 1);
    LongestScales(hops, b, bits, k);
    Distributes(bits(k) as real, BitTimes(hops, s + 1), BitTime(hops, b), bits(k + 1) as real * BitTimes(hops, s));
  }

  lemma AheadIs(hops: seq<Hop>, b: nat, bits: nat -> nat)
    requires Path(hops) && Slowest(hops, b)
    ensures AllAhead(HopTime(hops, bits, false), |hops|) <==> FallsWithin(hops, b, bits)
  {
    forall s: nat, k: nat | s < |hops|
      ensures KeepsAhead(HopTime(hops, bits, false), |hops|, s, k) <==> FallsAt(hops, b, bits, s, k)
    {
      AheadAt(hops, b, bits, s, k);
    }
    hide KeepsAhead, FallsAt, HopTime, Path, Slowest;
  }

  /** Where sizes rise at all they rise from one packet to the next. */
  lemma {:induction false} RisesSomewhere(bits: nat -> nat, k: nat, n: nat) returns (j: nat)
    requires k <= n && bits(k) < bits(n)
    ensures bits(j) < bits(j + 1)
    decreases n - k
  {
    if bits(k) < bits(k + 1) {
      j := k;
    } else {
      j := RisesSomewhere(bits, k + 1, n);
    }
  }

  lemma SizeTimes(x: real, y: real, r: real)
    requires 0.0 < x < y && r > 0.0
    ensures 0.0 < x * r < y * r
  {
  }

  lemma BitTakesTime(hops: seq<Hop>, bits: nat -> nat, j: nat, k: nat)
    requires Path(hops) && j < |hops|
    ensures BitTime(hops, j) > 0.0 && HopTime(hops, bits, false)(j, k) == bits(k) as real * BitTime(hops, j)
  {
    Reciprocal(hops[j].rate);
    OneTerm(hops, bits(k), j);
  }

  lemma LargerTakesLonger(hops: seq<Hop>, bits: nat -> nat, k: nat)
    requires Path(hops) && 0 < bits(k) < bits(k + 1)
    ensures Grows(HopTime(hops, bits, false), |hops|, k)
  {
    hide HopTime, BitTime, Path;
    var svc := HopTime(hops, bits, false);
    forall j: nat | j < |hops|
      ensures 0.0 < svc(j, k) < svc(j, k + 1)
    {
      BitTakesTime(hops, bits, j, k);
      BitTakesTime(hops, bits, j, k + 1);
      SizeTimes(bits(k) as real, bits(k + 1) as real, BitTime(hops, j));
    }
  }

  lemma FasterHop(hops: seq<Hop>, bits: nat -> nat, i: nat, j: nat, k: nat)
    requires Path(hops) && i < |hops| && j < |hops| && hops[i].rate > hops[j].rate && bits(k) > 0
    ensures HopTime(hops, bits, false)(i, k) < HopTime(hops, bits, false)(j, k)
  {
    var x, y, r, q := Times(hops, bits(k))[i], Times(hops, bits(k))[j], hops[i].rate, hops[j].rate;
    SlowerTakesLonger(bits(k) as real, q, r);
    assert x * r == bits(k) as real == y * q;
    if x == y {
      assert x > 0.0;
      assert x * r > x * q;
    }
  }

  lemma SomewhereRises(bits: nat -> nat) returns (j: nat)
    requires !NeverRises(bits)
    ensures bits(j) < bits(j + 1)
  {
    var k, m :| k <= m && bits(k) < bits(m);
    j := RisesSomewhere(bits, k, m);
  }

  lemma FirstIsFaster(hops: seq<Hop>, b: nat)
    requires Path(hops) && Slowest(hops, b) && !Slowest(hops, 0)
    ensures b < |hops| == |Delays(hops)| && hops[0].rate > hops[b].rate
  {
  }

  lemma LateSomewhere(hops: seq<Hop>, b: nat, bits: nat -> nat) returns (arrivals: nat -> real, n: nat)
    requires Path(hops) && Slowest(hops, b) && !Slowest(hops, 0) && !NeverRises(bits) && forall k :: bits(k) > 0
    ensures Clock(arrivals)
    ensures QueueBy(hops, bits, false, arrivals, n) < FastExit(HopTime(hops, bits, false), Delays(hops), arrivals, n)
  {
    hide HopTime, Positive, NonNegative, Grows, Clock, Path, Slowest, NeverRises, Delays, FastExit, QueuedExit;
    var j := SomewhereRises(bits);
    FirstIsFaster(hops, b);
    TimesPositive(hops, bits, false);
    LargerTakesLonger(hops, bits, j);
    FasterHop(hops, bits, 0, b, j);
    arrivals := LateIfGrows(HopTime(hops, bits, false), Delays(hops), b, j);
    n := j + 1;
  }

  /** The formula is never late, whatever the arrivals, exactly when sizes never rise or the first hop is a slowest. */
  lemma NeverLateExactly(hops: seq<Hop>, b: nat, bits: nat -> nat)
    requires Path(hops) && Slowest(hops, b) && forall k :: bits(k) > 0
    ensures (forall arrivals, n | Clock(arrivals) ::
        FastExit(HopTime(hops, bits, false), Delays(hops), arrivals, n) <= QueueBy(hops, bits, false, arrivals, n))
      <==> NeverRises(bits) || Slowest(hops, 0)
  {
    hide QueueBy, FastExit, Clock, HopTime, Path;
    if NeverRises(bits) || Slowest(hops, 0) {
      forall arrivals, n | Clock(arrivals)
        ensures FastExit(HopTime(hops, bits, false), Delays(hops), arrivals, n) <= QueueBy(hops, bits, false, arrivals, n)
      {
        Compared(hops, bits, false, arrivals, n);
      }
    } else {
      var arrivals, n := LateSomewhere(hops, b, bits);
    }
  }

  ghost predicate NeverEarly(hops: seq<Hop>, b: nat, bits: nat -> nat)
    requires Path(hops) && b < |hops|
  {
    forall arrivals, n | Clock(arrivals) ::
      QueueBy(hops, bits, false, arrivals, n) <= FastBy(hops, b, bits, false, arrivals, n)
  }

  ghost predicate NeverLate(hops: seq<Hop>, b: nat, bits: nat -> nat)
    requires Path(hops) && b < |hops|
  {
    forall arrivals, n | Clock(arrivals) ::
      FastBy(hops, b, bits, false, arrivals, n) <= QueueBy(hops, bits, false, arrivals, n)
  }

  /** The formula is the queues' time for every arrivals. */
  ghost predicate Agrees(hops: seq<Hop>, b: nat, bits: nat -> nat)
    requires Path(hops) && b < |hops|
  {
    forall arrivals, n | Clock(arrivals) ::
      FastBy(hops, b, bits, false, arrivals, n) == QueueBy(hops, bits, false, arrivals, n)
  }

  lemma AgreesIsBoth(hops: seq<Hop>, b: nat, bits: nat -> nat)
    requires Path(hops) && b < |hops|
    ensures Agrees(hops, b, bits) <==> NeverEarly(hops, b, bits) && NeverLate(hops, b, bits)
  {
    hide FastBy, QueueBy, Clock, Path;
    if NeverEarly(hops, b, bits) && NeverLate(hops, b, bits) {
      forall arrivals, n | Clock(arrivals)
        ensures FastBy(hops, b, bits, false, arrivals, n) == QueueBy(hops, bits, false, arrivals, n)
      {
        assert FastBy(hops, b, bits, false, arrivals, n) <= QueueBy(hops, bits, false, arrivals, n);
      }
    }
  }

  lemma EarlyExactly(hops: seq<Hop>, b: nat, bits: nat -> nat)
    requires Path(hops) && Slowest(hops, b)
    ensures NeverEarly(hops, b, bits) <==> FallsWithin(hops, b, bits)
  {
    hide FastBy, FastExit, QueuedExit, Clock, HopTime, AllAhead, FallsWithin, Positive, NonNegative;
    forall arrivals, n
      ensures FastBy(hops, b, bits, false, arrivals, n) == FastExit(HopTime(hops, bits, false), Delays(hops), arrivals, n)
    {
      ExactFormula(hops, b, bits, arrivals, n);
    }
    TimesPositive(hops, bits, false);
    AheadIs(hops, b, bits);
    NeverEarlyExactly(HopTime(hops, bits, false), Delays(hops));
  }

  lemma LateExactly(hops: seq<Hop>, b: nat, bits: nat -> nat)
    requires Path(hops) && Slowest(hops, b) && forall k :: bits(k) > 0
    ensures NeverLate(hops, b, bits) <==> NeverRises(bits) || Slowest(hops, 0)
  {
    hide FastBy, FastExit, QueueBy, Clock, HopTime, NeverRises;
    forall arrivals, n
      ensures FastBy(hops, b, bits, false, arrivals, n) == FastExit(HopTime(hops, bits, false), Delays(hops), arrivals, n)
    {
      ExactFormula(hops, b, bits, arrivals, n);
    }
    NeverLateExactly(hops, b, bits);
  }

  /**
    For packets of given sizes on a given path, in exact arithmetic: the formula is early for no arrivals
    exactly when sizes fall within bounds, and late for none exactly when they never rise or the first hop
    is a slowest; so it is the queues' time for all arrivals exactly when both hold.
   */
  lemma ExactAgreement(hops: seq<Hop>, b: nat, bits: nat -> nat)
    requires Path(hops) && Slowest(hops, b) && forall k :: bits(k) > 0
    ensures NeverEarly(hops, b, bits) <==> FallsWithin(hops, b, bits)
    ensures NeverLate(hops, b, bits) <==> NeverRises(bits) || Slowest(hops, 0)
    ensures Agrees(hops, b, bits) <==> FallsWithin(hops, b, bits) && (NeverRises(bits) || Slowest(hops, 0))
  {
    EarlyExactly(hops, b, bits);
    LateExactly(hops, b, bits);
    AgreesIsBoth(hops, b, bits);
    hide NeverEarly, NeverLate, Agrees, FallsWithin, NeverRises;
  }

  // ---------------------------------------------------------------------------------------------
  // Two runs with the program's cuts
  // ---------------------------------------------------------------------------------------------

  lemma TwoServed(svc: Service, arrivals: nat -> real)
    requires arrivals(0) == arrivals(1) == 0.0 && Positive(svc)
    ensures Served(svc, [0.0, 0.0], arrivals, 0, 0) == svc(0, 0)
    ensures Served(svc, [0.0, 0.0], arrivals, 0, 1) == svc(0, 0) + svc(0, 1)
    ensures QueuedExit(svc, [0.0, 0.0], arrivals, 1) == svc(0, 0) + Max(svc(0, 1), svc(1, 0)) + svc(1, 1)
  {
    var d := [0.0, 0.0];
    assert Served(svc, d, arrivals, 0, 0) == svc(0, 0);
    assert Served(svc, d, arrivals, 0, 1) == svc(0, 0) + svc(0, 1);
    assert Served(svc, d, arrivals, 1, 0) == svc(0, 0) + svc(1, 0);
  }

  lemma TwoBottleneck(m: nat -> real, arrivals: nat -> real)
    requires arrivals(0) == arrivals(1) == 0.0 && m(0) >= 0.0
    ensures Bottleneck(m, arrivals, 1) == m(0) + m(1)
  {
    assert Bottleneck(m, arrivals, 0) == m(0);
  }

  lemma SumOfTwo(x: real, y: real)
    ensures Sum([x, y]) == x + y
  {
    assert [x, y][..1] == [x];
    SumOfOne(x);
  }

  lemma TwoHopsFast(hops: seq<Hop>, b: nat, bits: nat -> nat, arrivals: nat -> real)
    requires |hops| == 2 && Path(hops) && hops[0].delay == hops[1].delay == 0 && b < 2
    requires arrivals(0) == arrivals(1) == 0.0
    ensures FastTime(hops, b, bits, arrivals, 1) ==
      Cut(Times(hops, bits(0))[b]) + Cut(Times(hops, bits(1))[b]) + Cut(Times(hops, bits(1))[1 - b])
  {
    var s := Times(hops, bits(1));
    FloorAbove(0, Times(hops, bits(0))[b]);
    assert Delays(hops) == [0.0, 0.0] && Others(s, b) == [s[1 - b]];
    hide Sum, Bottleneck, Times;
    TwoBottleneck(TimeAtHop(hops, b, bits, true), arrivals);
    SumOfOne(s[1 - b]);
    SumOfTwo(0.0, 0.0);
  }

  lemma TwoHopsQueued(hops: seq<Hop>, bits: nat -> nat, arrivals: nat -> real)
    requires |hops| == 2 && Path(hops) && hops[0].delay == hops[1].delay == 0
    requires arrivals(0) == arrivals(1) == 0.0
    ensures QueueTime(hops, bits, arrivals, 1) == Cut(Times(hops, bits(0))[0])
      + Max(Cut(Times(hops, bits(1))[0]), Cut(Times(hops, bits(0))[1])) + Cut(Times(hops, bits(1))[1])
  {
    TimesPositive(hops, bits, true);
    assert Delays(hops) == [0.0, 0.0];
    hide QueuedExit, Positive, Times, Cut;
    TwoServed(HopTime(hops, bits, true), arrivals);
  }

  lemma Cancel(x: real, y: real, r: real)
    requires r > 0.0 && x * r == y * r
    ensures x == y
  {
    assert (x - y) * r == 0.0;
  }

  lemma TimeIs(hops: seq<Hop>, x: nat, i: nat, t: nat)
    requires Path(hops) && i < |hops| && t as real * hops[i].rate == x as real
    ensures Cut(Times(hops, x)[i]) == t as real
  {
    Cancel(Times(hops, x)[i], t as real, hops[i].rate);
  }

  /**
    Two equal hops of 1 Mbps, and packets of 2000 and 1000 bytes together: the formula has the second out
    8 milliseconds before the queues do.
   */
  lemma EarlyWhenSizesFall(hops: seq<Hop>, bits: nat -> nat, arrivals: nat -> real)
    requires hops == [Hop(1.0, 0), Hop(1.0, 0)] && bits(0) == 8 * 2000 && bits(1) == 8 * 1000
    requires arrivals(0) == arrivals(1) == 0.0
    ensures Slowest(hops, 0) && FastTime(hops, 0, bits, arrivals, 1) == 32000.0
    ensures QueueTime(hops, bits, arrivals, 1) == 40000.0
  {
    hide Times, Cut, FastTime, QueueTime;
    TimeIs(hops, 16000, 0, 16000);
    TimeIs(hops, 16000, 1, 16000);
    TimeIs(hops, 8000, 0, 8000);
    TimeIs(hops, 8000, 1, 8000);
    TwoHopsFast(hops, 0, bits, arrivals);
    TwoHopsQueued(hops, bits, arrivals);
  }

  /** A hop of 2 Mbps before one of 1 Mbps, and packets of 1000 and 2000 bytes: the formula is 4 milliseconds late. */
  lemma LateWhenSizesRise(hops: seq<Hop>, bits: nat -> nat, arrivals: nat -> real)
    requires hops == [Hop(2.0, 0), Hop(1.0, 0)] && bits(0) == 8 * 1000 && bits(1) == 8 * 2000
    requires arrivals(0) == arrivals(1) == 0.0
    ensures Slowest(hops, 1) && FastTime(hops, 1, bits, arrivals, 1) == 32000.0
    ensures QueueTime(hops, bits, arrivals, 1) == 28000.0
  {
    hide Times, Cut, FastTime, QueueTime;
    TimeIs(hops, 8000, 0, 4000);
    TimeIs(hops, 8000, 1, 8000);
    TimeIs(hops, 16000, 0, 8000);
    TimeIs(hops, 16000, 1, 16000);
    TwoHopsFast(hops, 1, bits, arrivals);
    TwoHopsQueued(hops, bits, arrivals);
  }
}
