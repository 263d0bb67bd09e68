/**
  The objects behind module FastEmulation: the application map that applies the bottleneck formula, and
  the queue of one link.
 */
module EmulationQueues {
  import opened Basics
  import opened FastEmulation

  // ---------------------------------------------------------------------------------------------
  // Arithmetic of rates
  // ---------------------------------------------------------------------------------------------

  lemma {:induction false} SumScaled(s: seq<real>, t: seq<real>, k: real)
    requires |s| == |t| && forall i :: 0 <= i < |s| ==> t[i] == k * s[i]
    ensures Sum(t) == k * Sum(s)
  {
    if s != [] {
      SumScaled(s[..|s| - 1], t[..|t| - 1], k);
    }
  }

  lemma SumOthersScaled(s: seq<real>, t: seq<real>, b: nat, k: real)
    requires |s| == |t| && b < |s| && forall i :: 0 <= i < |s| ==> t[i] == k * s[i]
    ensures Sum(Others(t, b)) == k * Sum(Others(s, b))
  {
    SumScaled(Others(s, b), Others(t, b), k);
  }

  /** The others' summed time is proportional to the packet. */
  lemma OthersScaled(hops: seq<Hop>, b: nat, bits: nat)
    requires Path(hops) && b < |hops|
    ensures Sum(Others(Times(hops, bits), b)) == bits as real * Sum(Others(Times(hops, 1), b))
  {
    forall i | 0 <= i < |hops|
      ensures Times(hops, bits)[i] == bits as real * Times(hops, 1)[i]
    {
      OneTerm(hops, bits, i);
    }
    SumOthersScaled(Times(hops, 1), Times(hops, bits), b, bits as real);
  }

  lemma {:induction false} PositiveSum(s: seq<real>)
    requires forall i :: 0 <= i < |s| ==> s[i] > 0.0
    ensures Sum(s) >= 0.0 && (s != [] ==> Sum(s) > 0.0)
  {
    if s != [] {
      PositiveSum(s[..|s| - 1]);
    }
  }

  lemma OthersPositive(hops: seq<Hop>, b: nat)
    requires Path(hops) && b < |hops|
    ensures |hops| > 1 ==> Sum(Others(Times(hops, 1), b)) > 0.0
    ensures |hops| == 1 ==> Sum(Others(Times(hops, 1), b)) == 0.0
  {
    var s := Others(Times(hops, 1), b);
    forall i | 0 <= i < |s|
      ensures s[i] > 0.0
    {
      Reciprocal(hops[if i < b then i else i + 1].rate);
    }
    PositiveSum(s);
  }

  /** A sequence of times as a function; beyond the end it is 0. */
  ghost function At(times: seq<real>): nat -> real {
    (n: nat) => if n < |times| then times[n] else 0.0
  }

  /** The time `bits` bits take at a rate. */
  function TimeAt(rate: Option<real>, bits: nat): real {
    if rate.Some? && rate.value > 0.0 then bits as real / rate.value else 0.0
  }

  /** A packet at the others' harmonic rate takes the others' summed time. */
  lemma OthersTime(hops: seq<Hop>, b: nat, bits: nat, rate: Option<real>, sum: real)
    requires Path(hops) && b < |hops| && sum == Sum(Others(Times(hops, 1), b))
    requires if |hops| == 1 then rate == None else rate.Some? && rate.value > 0.0 && rate.value * sum == 1.0
    ensures TimeAt(rate, bits) == Sum(Others(Times(hops, bits), b))
  {
    OthersScaled(hops, b, bits);
    OthersPositive(hops, b);
    if rate.Some? {
      Quotient(bits as real, rate.value, sum);
    }
  }

  class AppMap {
    const hops: seq<Hop>
    var queuingRate: real
    var nonQueuingRate: Option<real>  // None is the infinite rate that 1/0 gives
    var totalFixedDelay: nat
    var lastReinjectTime: real

    /** The parameters stand for the path's slowest hop `b` and for all the others. */
    ghost predicate Ready(b: nat)
      reads this`queuingRate, this`nonQueuingRate, this`totalFixedDelay
    {
      && Path(hops) && Slowest(hops, b)
      && queuingRate == hops[b].rate
      && totalFixedDelay as real == Sum(Delays(hops))
      && (forall bits: nat :: TimeAt(nonQueuingRate, bits) == Sum(Others(Times(hops, bits), b)))
    }

    constructor (path: seq<Hop>)
      ensures hops == path && totalFixedDelay == 0 && lastReinjectTime == 0.0
    {
      hops := path;
      queuingRate, nonQueuingRate, totalFixedDelay, lastReinjectTime := 0.0, Some(0.0), 0, 0.0;
    }

    /** The first of the slowest hops. */
    method FindMinRate() returns (m: real, id: nat)
      requires hops != []
      ensures Slowest(hops, id) && m == hops[id].rate
      ensures forall i :: 0 <= i < id ==> hops[i].rate > m
    {
      m, id := hops[0].rate, 0;
      for i := 0 to |hops|
        invariant id < |hops| && m == hops[id].rate
        invariant forall j :: 0 <= j < i ==> m <= hops[j].rate
        invariant forall j :: 0 <= j < id ==> hops[j].rate > m
        invariant i == 0 ==> id == 0
        invariant id <= i
      {
        if m > hops[i].rate {
          m, id := hops[i].rate, i;
        }
      }
    }

    /** The loop over the hops: all fixed delays, and the reciprocal rates of all hops but `id`. */
    method Accumulate(id: nat) returns (delay: nat, sum: real)
      requires Path(hops) && id < |hops|
      ensures delay as real == Sum(Delays(hops))
      ensures sum == Sum(Others(Times(hops, 1), id))
    {
      delay, sum := 0, 0.0;
      ghost var s, d := Times(hops, 1), Delays(hops);
      for i := 0 to |hops|
        invariant delay as real == Sum(d[..i])
        invariant sum == Sum(s[..i]) - (if id < i then s[id] else 0.0)
      {
        assert s[..i + 1][..i] == s[..i] && d[..i + 1][..i] == d[..i];
        delay := delay + hops[i].delay;
        if i != id {
          sum := sum + 1.0 / hops[i].rate;
        }
      }
      assert s[..|hops|] == s && d[..|hops|] == d;
      SumOthers(s, id);
    }

    method UpdateParameters() returns (ghost b: nat)
      requires totalFixedDelay == 0 && forall i :: 0 <= i < |hops| ==> hops[i].rate > 0.0
      modifies this`queuingRate, this`nonQueuingRate, this`totalFixedDelay
      ensures hops == [] ==> unchanged(this)
      ensures hops != [] ==> Ready(b)
    {
      b := 0;
      if hops == [] {
        return;
      }
      var id, sum;
      queuingRate, id := FindMinRate();
      totalFixedDelay, sum := Accumulate(id);
      b := id;
      OthersPositive(hops, id);
      if |hops| == 1 {
        nonQueuingRate := None;
      } else {
        Reciprocal(sum);
        nonQueuingRate := Some(1.0 / sum);
      }
      forall bits: nat
        ensures TimeAt(nonQueuingRate, bits) == Sum(Others(Times(hops, bits), b))
      {
        OthersTime(hops, b, bits, nonQueuingRate, sum);
      }
    }

    /** Times one packet of `bits` bits captured at `time`. */
    method Dispatch(bits: nat, time: real, ghost b: nat) returns (reinjectTime: real)
      requires Ready(b)
      modifies this`lastReinjectTime
      ensures lastReinjectTime == Max(old(lastReinjectTime), time) + Cut(Times(hops, bits)[b])
      ensures reinjectTime == lastReinjectTime + Sum(Delays(hops)) + Cut(Sum(Others(Times(hops, bits), b)))
      ensures Ready(b)
    {
      var ls := Max(lastReinjectTime, time);
      lastReinjectTime := Cut(bits as real / queuingRate) + ls;
      reinjectTime := lastReinjectTime + totalFixedDelay as real + Cut(TimeAt(nonQueuingRate, bits));
    }

    /** Every packet of a run gets the fast time, whatever the sizes. */
    method DispatchAll(sizes: seq<nat>, times: seq<real>, ghost b: nat) returns (out: seq<real>)
      requires Ready(b) && lastReinjectTime == 0.0 && |sizes| == |times|
      modifies this`lastReinjectTime
      ensures |out| == |times|
      ensures forall n :: 0 <= n < |times| ==> out[n] == FastTime(hops, b, Sizes(sizes), At(times), n)
    {
      out := DispatchEach(sizes, times, b, Sizes(sizes), At(times), TimeAtHop(hops, b, Sizes(sizes), true));
    }

    method DispatchEach(sizes: seq<nat>, times: seq<real>,
        ghost b: nat, ghost bits: nat -> nat, ghost arrivals: nat -> real, ghost m: nat -> real)
      returns (out: seq<real>)
      requires |sizes| == |times|
      requires forall n :: 0 <= n < |times| ==> arrivals(n) == times[n] && bits(n) == sizes[n]
      requires Ready(b) && Path(hops) && b < |hops| && lastReinjectTime == 0.0 && m == TimeAtHop(hops, b, bits, true)
      modifies this`lastReinjectTime
      ensures |out| == |times| && Ready(b)
      ensures forall n :: 0 <= n < |times| ==> out[n] == FastTime(hops, b, bits, arrivals, n)
    {
      hide *;
      out := [];
      for n := 0 to |times|
        invariant Ready(b) && |out| == n
        invariant lastReinjectTime == if n == 0 then 0.0 else Bottleneck(m, arrivals, n - 1)
        invariant forall k :: 0 <= k < n ==> out[k] == FastTime(hops, b, bits, arrivals, k)
      {
        ghost var last := lastReinjectTime;
        var t := Dispatch(sizes[n], times[n], b);
        FastNext(hops, b, bits, arrivals, n, last);
        out := out + [t];
      }
    }
  }

  /** The sizes of a run as a function; beyond the end it is 0. */
  ghost function Sizes(sizes: seq<nat>): nat -> nat {
    (n: nat) => if n < |sizes| then sizes[n] else 0
  }

  lemma FastNext(hops: seq<Hop>, b: nat, bits: nat -> nat, arrivals: nat -> real, n: nat, last: real)
    requires Path(hops) && b < |hops|
    requires last == if n == 0 then 0.0 else Bottleneck(TimeAtHop(hops, b, bits, true), arrivals, n - 1)
    ensures var t := Max(last, arrivals(n)) + Cut(Times(hops, bits(n))[b]);
      && Bottleneck(TimeAtHop(hops, b, bits, true), arrivals, n) == t
      && FastTime(hops, b, bits, arrivals, n) == t + Sum(Delays(hops)) + Cut(Sum(Others(Times(hops, bits(n)), b)))
  {
  }

  // ---------------------------------------------------------------------------------------------
  // The queues
  // ---------------------------------------------------------------------------------------------

  /** Packet `num` of instance `app`, in the queue of hop `hop` of its path. */
  datatype Packet = Packet(app: nat, num: nat, bits: nat, hop: nat, reinjectTime: real)

  /** One hop's queue: when its link is next free, and the packets it holds, oldest first. */
  datatype Queue = Queue(lastSentTime: real, list: seq<Packet>)

  function Added(q: Queue, hop: Hop, p: Packet, time: real): Queue
    requires hop.rate > 0.0
  {
    var t := Max(time, q.lastSentTime) + Cut(p.bits as real / hop.rate);
    Queue(t, q.list + [p.(reinjectTime := t + hop.delay as real)])
  }

  /** The queue as the object its thread and its feeders update. */
  class HopQueue {
    const hop: Hop
    var lastSentTime: real
    var list: seq<Packet>

    ghost function Value(): Queue
      reads this
    {
      Queue(lastSentTime, list)
    }

    constructor (h: Hop)
      ensures hop == h && Value() == Queue(0.0, [])
    {
      hop, lastSentTime, list := h, 0.0, [];
    }

    method AddPacket(p: Packet, time: real)
      requires hop.rate > 0.0
      modifies this
      ensures Value() == Added(old(Value()), hop, p, time)
    {
      var t := Max(time, lastSentTime);
      t := t + Cut(p.bits as real / hop.rate);
      lastSentTime := t;
      list := list + [p.(reinjectTime := t + hop.delay as real)];
    }

    method GetPacket() returns (p: Option<Packet>)
      modifies this`list
      ensures old(list) == [] ==> p == None && list == []
      ensures old(list) != [] ==> p == Some(old(list)[0]) && list == old(list)[1..]
    {
      p := None;
      if list != [] {
        p := Some(list[0]);
        list := list[1..];
      }
    }
  }
}
