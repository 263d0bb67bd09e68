/**
  The queues of the fast emulation as all applications share them, with queue threads in any order.
  Other traffic only delays an application's packets and never reorders them; an application that shares
  no queue is not delayed at all, which is what lets the program time it by the formula.
 */
module EmulationNetwork {
  import opened Basics
  import opened FastEmulation
  import opened EmulationQueues
  import opened Interference

  /** Every queue, and for each instance the packets reinjected so far and how many were dispatched. */
  datatype Fleet = Fleet(queues: seq<Queue>, out: seq<seq<Packet>>, dispatched: seq<nat>)

  /** The instances, each with the sizes and times of its packets, and the link of every queue. */
  datatype Traffic = Traffic(apps: seq<App>, links: seq<Hop>, bits: seq<nat -> nat>, arrivals: seq<nat -> real>) {
    ghost predicate Valid() {
      && |bits| == |arrivals| == |apps|
      && (forall q :: 0 <= q < |links| ==> links[q].rate > 0.0)
      && (forall a, h :: 0 <= a < |apps| && 0 <= h < |apps[a].hops| ==> apps[a].hops[h] < |links|)
    }
  }

  ghost predicate Placed(tr: Traffic, q: nat, x: Packet) {
    x.app < |tr.apps| && x.hop < |tr.apps[x.app].hops| && tr.apps[x.app].hops[x.hop] == q
  }

  ghost predicate FleetOk(tr: Traffic, s: Fleet)
    requires tr.Valid()
  {
    && |s.queues| == |tr.links| && |s.out| == |s.dispatched| == |tr.apps|
    && forall q, x :: 0 <= q < |s.queues| && x in s.queues[q].list ==> Placed(tr, q, x)
  }

  /** Instance `a` dispatches its next packet. */
  ghost predicate Sends(tr: Traffic, a: nat, s: Fleet, t: Fleet)
    requires tr.Valid()
  {
    && FleetOk(tr, s) && a < |tr.apps| && tr.apps[a].hops != []
    && var (q, n) := (tr.apps[a].hops[0], s.dispatched[a]);
       var x := Packet(a, n, tr.bits[a](n), 0, 0.0);
       t == Fleet(s.queues[q := Added(s.queues[q], tr.links[q], x, tr.arrivals[a](n))], s.out, s.dispatched[a := n + 1])
  }

  ghost predicate LastHop(tr: Traffic, x: Packet)
    requires x.app < |tr.apps|
  {
    x.hop + 1 >= |tr.apps[x.app].hops|
  }

  /** The thread of queue `q` passes its oldest packet on, at that packet's own time. */
  ghost predicate Moves(tr: Traffic, q: nat, s: Fleet, t: Fleet)
    requires tr.Valid()
  {
    && FleetOk(tr, s) && q < |s.queues| && s.queues[q].list != []
    && var x := s.queues[q].list[0];
       var rest := s.queues[q := s.queues[q].(list := s.queues[q].list[1..])];
       Placed(tr, q, x)
       && if LastHop(tr, x) then t == Fleet(rest, s.out[x.app := s.out[x.app] + [x]], s.dispatched)
          else
            var r := tr.apps[x.app].hops[x.hop + 1];
            t == Fleet(rest[r := Added(rest[r], tr.links[r], x.(hop := x.hop + 1), x.reinjectTime)], s.out, s.dispatched)
  }

  ghost predicate FleetStep(tr: Traffic, s: Fleet, t: Fleet)
    requires tr.Valid()
  {
    (exists a: nat :: Sends(tr, a, s, t)) || exists q: nat :: Moves(tr, q, s, t)
  }

  ghost function FleetStart(tr: Traffic): Fleet {
    Fleet(seq(|tr.links|, _ => Queue(0.0, [])), seq(|tr.apps|, _ => []), seq(|tr.apps|, _ => 0))
  }

  ghost predicate FleetRun(tr: Traffic, run: seq<Fleet>)
    requires tr.Valid()
  {
    && run != [] && run[0] == FleetStart(tr)
    && forall k :: 0 <= k < |run| - 1 ==> FleetStep(tr, run[k], run[k + 1])
  }

  // ---------------------------------------------------------------------------------------------
  // Packets stay on their paths
  // ---------------------------------------------------------------------------------------------

  lemma TakenPlaced(tr: Traffic, qs: seq<Queue>, r: nat, x: Packet, time: real)
    requires tr.Valid() && |qs| == |tr.links| && r < |qs| && Placed(tr, r, x)
    requires forall q, y :: 0 <= q < |qs| && y in qs[q].list ==> Placed(tr, q, y)
    ensures var after := qs[r := Added(qs[r], tr.links[r], x, time)];
      forall q, y :: 0 <= q < |after| && y in after[q].list ==> Placed(tr, q, y)
  {
  }

  lemma RestPlaced(tr: Traffic, s: Fleet, q: nat)
    requires tr.Valid() && FleetOk(tr, s) && q < |s.queues| && s.queues[q].list != []
    ensures var rest := s.queues[q := s.queues[q].(list := s.queues[q].list[1..])];
      forall r, y :: 0 <= r < |rest| && y in rest[r].list ==> Placed(tr, r, y)
  {
  }

  lemma SendsPlaced(tr: Traffic, a: nat, s: Fleet, t: Fleet)
    requires tr.Valid() && Sends(tr, a, s, t)
    ensures FleetOk(tr, t)
  {
    hide Added;
    var (q, n) := (tr.apps[a].hops[0], s.dispatched[a]);
    TakenPlaced(tr, s.queues, q, Packet(a, n, tr.bits[a](n), 0, 0.0), tr.arrivals[a](n));
  }

  lemma MovesPlaced(tr: Traffic, q: nat, s: Fleet, t: Fleet)
    requires tr.Valid() && Moves(tr, q, s, t)
    ensures FleetOk(tr, t)
  {
    hide Added;
    RestPlaced(tr, s, q);
    var x := s.queues[q].list[0];
    if !LastHop(tr, x) {
      var rest := s.queues[q := s.queues[q].(list := s.queues[q].list[1..])];
      TakenPlaced(tr, rest, tr.apps[x.app].hops[x.hop + 1], x.(hop := x.hop + 1), x.reinjectTime);
    }
  }

  /** Every state of a run is one in which the threads can go on. */
  lemma {:induction false} FleetAlwaysOk(tr: Traffic, run: seq<Fleet>)
    requires tr.Valid() && FleetRun(tr, run)
    ensures FleetOk(tr, run[|run| - 1])
  {
    hide Sends, Moves, FleetOk;
    if |run| == 1 {
      StartOk(tr);
    } else {
      var n := |run| - 2;
      var s, t := run[n], run[n + 1];
      assert FleetStep(tr, s, t);
      if a: nat :| Sends(tr, a, s, t) {
        SendsPlaced(tr, a, s, t);
      } else {
        var q: nat :| Moves(tr, q, s, t);
        MovesPlaced(tr, q, s, t);
      }
    }
  }

  lemma StartOk(tr: Traffic)
    requires tr.Valid()
    ensures FleetOk(tr, FleetStart(tr))
  {
  }

  /** The packets of instance `k` that have come out by the end of a run. */
  ghost function Outs(run: seq<Fleet>, k: nat): seq<Packet>
    requires run != []
  {
    var s := run[|run| - 1];
    if k < |s.out| then s.out[k] else []
  }

  // ---------------------------------------------------------------------------------------------
  // One application's packets in one queue
  // ---------------------------------------------------------------------------------------------

  predicate Belongs(x: Packet, k: nat, i: nat) {
    x.app == k && x.hop == i
  }

  /** The packets of instance `k` on its hop `i`, in their order. */
  function Mine(list: seq<Packet>, k: nat, i: nat): seq<Packet> {
    if list == [] then []
    else
      var n := |list| - 1;
      Mine(list[..n], k, i) + if Belongs(list[n], k, i) then [list[n]] else []
  }

  lemma {:induction false} MineFront(list: seq<Packet>, k: nat, i: nat)
    requires list != []
    ensures Mine(list, k, i) == (if Belongs(list[0], k, i) then [list[0]] else []) + Mine(list[1..], k, i)
  {
    var n := |list| - 1;
    if n == 0 {
      assert list[..0] == [] && list[1..] == [];
    } else {
      MineFront(list[..n], k, i);
      assert list[..n][1..] == list[1..][..n - 1];
    }
  }

  lemma MineBack(list: seq<Packet>, x: Packet, k: nat, i: nat)
    ensures Mine(list + [x], k, i) == Mine(list, k, i) + if Belongs(x, k, i) then [x] else []
  {
    assert (list + [x])[..|list|] == list;
  }

  /** The links of an instance's path. */
  function PathOf(tr: Traffic, k: nat): (hops: seq<Hop>)
    requires tr.Valid() && k < |tr.apps|
    ensures |hops| == |tr.apps[k].hops| && forall i :: 0 <= i < |hops| ==> hops[i] == tr.links[tr.apps[k].hops[i]]
    ensures hops != [] ==> Path(hops)
  {
    seq(|tr.apps[k].hops|, i requires 0 <= i < |tr.apps[k].hops| => tr.links[tr.apps[k].hops[i]])
  }

  /** The time packet `n` leaves hop `i` of a path alone, delay included. */
  ghost function Leaves(hops: seq<Hop>, bits: nat -> nat, arrivals: nat -> real, i: nat, n: nat): real
    requires Path(hops) && i < |hops|
  {
    Served(HopTime(hops, bits, true), Delays(hops), arrivals, i, n) + hops[i].delay as real
  }

  /** Not before, or exactly at. */
  ghost predicate From(exact: bool, time: real, bound: real) {
    if exact then time == bound else time >= bound
  }

  ghost predicate PacketOk(exact: bool, tr: Traffic, k: nat, i: nat, n: nat, p: Packet)
    requires tr.Valid() && k < |tr.apps| && i < |tr.apps[k].hops|
  {
    && p.num == n && p.bits == tr.bits[k](n)
    && From(exact, p.reinjectTime, Leaves(PathOf(tr, k), tr.bits[k], tr.arrivals[k], i, n))
  }

  /** When the last of `came` packets was served at hop `i`, had there been no others. */
  ghost function Until(tr: Traffic, k: nat, i: nat, came: nat): real
    requires tr.Valid() && k < |tr.apps| && i < |tr.apps[k].hops|
  {
    var hops := PathOf(tr, k);
    if came == 0 then 0.0 else Served(HopTime(hops, tr.bits[k], true), Delays(hops), tr.arrivals[k], i, came - 1)
  }

  /** Of instance `k`, `came` packets have entered its queue `i` and `gone` have left it. */
  ghost predicate Keeps(exact: bool, tr: Traffic, k: nat, i: nat, q: Queue, came: nat, gone: nat)
    requires tr.Valid() && k < |tr.apps| && i < |tr.apps[k].hops|
  {
    var mine := Mine(q.list, k, i);
    && came == gone + |mine|
    && (forall j :: 0 <= j < |mine| ==> PacketOk(exact, tr, k, i, gone + j, mine[j]))
    && From(exact, q.lastSentTime, Until(tr, k, i, came))
  }

  /** The oldest parcel leaves. */
  lemma LeaveKeeps(exact: bool, tr: Traffic, k: nat, i: nat, q: Queue, came: nat, gone: nat)
    requires tr.Valid() && k < |tr.apps| && i < |tr.apps[k].hops|
    requires Keeps(exact, tr, k, i, q, came, gone) && q.list != []
    ensures var (x, rest) := (q.list[0], q.(list := q.list[1..]));
      && (Belongs(x, k, i) ==> PacketOk(exact, tr, k, i, gone, x) && Keeps(exact, tr, k, i, rest, came, gone + 1))
      && (!Belongs(x, k, i) ==> Keeps(exact, tr, k, i, rest, came, gone))
  {
    hide PacketOk, Until, Mine;
    MineFront(q.list, k, i);
    var mine, rest := Mine(q.list, k, i), Mine(q.list[1..], k, i);
    if Belongs(q.list[0], k, i) {
      assert mine[0] == q.list[0];
      forall j | 0 <= j < |rest|
        ensures PacketOk(exact, tr, k, i, gone + 1 + j, rest[j])
      {
        assert rest[j] == mine[j + 1] && PacketOk(exact, tr, k, i, gone + (j + 1), mine[j + 1]);
      }
    } else {
      assert mine == rest;
    }
  }

  /** When a packet enters hop `i` if nobody else is on the way. */
  ghost function Enters(tr: Traffic, k: nat, i: nat, n: nat): real
    requires tr.Valid() && k < |tr.apps| && i < |tr.apps[k].hops|
  {
    if i == 0 then tr.arrivals[k](n) else Leaves(PathOf(tr, k), tr.bits[k], tr.arrivals[k], i - 1, n)
  }

  lemma UntilNext(tr: Traffic, k: nat, i: nat, n: nat)
    requires tr.Valid() && k < |tr.apps| && i < |tr.apps[k].hops|
    ensures Until(tr, k, i, n + 1) == Max(Enters(tr, k, i, n), Until(tr, k, i, n))
      + Cut(tr.bits[k](n) as real / tr.links[tr.apps[k].hops[i]].rate)
    ensures Leaves(PathOf(tr, k), tr.bits[k], tr.arrivals[k], i, n) == Until(tr, k, i, n + 1)
      + tr.links[tr.apps[k].hops[i]].delay as real
  {
    var hops := PathOf(tr, k);
    assert HopTime(hops, tr.bits[k], true)(i, n) == Cut(tr.bits[k](n) as real / hops[i].rate);
  }

  /** Its own next packet comes in. */
  lemma OwnEnters(exact: bool, tr: Traffic, k: nat, i: nat, q: Queue, came: nat, gone: nat, x: Packet, time: real)
    requires tr.Valid() && k < |tr.apps| && i < |tr.apps[k].hops| && Keeps(exact, tr, k, i, q, came, gone)
    requires Belongs(x, k, i) && x.num == came && x.bits == tr.bits[k](came)
    requires From(exact, time, Enters(tr, k, i, came))
    ensures Keeps(exact, tr, k, i, Added(q, tr.links[tr.apps[k].hops[i]], x, time), came + 1, gone)
  {
    hide Until, Mine, Enters, Leaves, PathOf;
    UntilNext(tr, k, i, came);
    var link := tr.links[tr.apps[k].hops[i]];
    var after := Added(q, link, x, time);
    var y := after.list[|q.list|];
    MineBack(q.list, y, k, i);
    assert PacketOk(exact, tr, k, i, came, y);
    hide PacketOk;
    var mine := Mine(after.list, k, i);
    forall j | 0 <= j < |mine|
      ensures PacketOk(exact, tr, k, i, gone + j, mine[j])
    {
      if j < |mine| - 1 {
        assert mine[j] == Mine(q.list, k, i)[j];
      }
    }
  }

  lemma CutPositive(bits: nat, rate: real)
    requires rate > 0.0
    ensures Cut(bits as real / rate) >= 0.0
  {
    FloorAbove(0, bits as real / rate);
  }

  /** Another packet comes in. */
  lemma OtherEnters(tr: Traffic, k: nat, i: nat, q: Queue, came: nat, gone: nat, x: Packet, time: real)
    requires tr.Valid() && k < |tr.apps| && i < |tr.apps[k].hops| && Keeps(false, tr, k, i, q, came, gone)
    requires !Belongs(x, k, i)
    ensures Keeps(false, tr, k, i, Added(q, tr.links[tr.apps[k].hops[i]], x, time), came, gone)
  {
    hide Until, Mine, PacketOk;
    var link := tr.links[tr.apps[k].hops[i]];
    CutPositive(x.bits, link.rate);
    var after := Added(q, link, x, time);
    MineBack(q.list, after.list[|q.list|], k, i);
    assert Mine(after.list, k, i) == Mine(q.list, k, i);
  }

  // ---------------------------------------------------------------------------------------------
  // One application's packets in the network
  // ---------------------------------------------------------------------------------------------

  /** No other instance uses a queue of instance `k`, and its path passes no queue twice. */
  ghost predicate Exclusive(tr: Traffic, k: nat)
    requires k < |tr.apps|
  {
    && Distinct(tr.apps[k].hops)
    && forall j :: 0 <= j < |tr.apps| && j != k ==> !Shares(tr.apps[k], tr.apps[j])
  }

  lemma OnlyOwn(tr: Traffic, k: nat, i: nat, x: Packet)
    requires k < |tr.apps| && i < |tr.apps[k].hops| && Exclusive(tr, k) && Placed(tr, tr.apps[k].hops[i], x)
    ensures Belongs(x, k, i)
  {
    var q := tr.apps[k].hops[i];
    assert q in tr.apps[k].hops && q in tr.apps[x.app].hops;
    assert x.app != k ==> Shares(tr.apps[k], tr.apps[x.app]);
  }

  /** `moved[i]` packets have entered hop `i`; the last entry counts those that came out of the path. */
  ghost predicate FleetKeeps(exact: bool, tr: Traffic, k: nat, s: Fleet, moved: seq<nat>)
    requires tr.Valid() && k < |tr.apps| && tr.apps[k].hops != []
  {
    var hops := tr.apps[k].hops;
    && |s.queues| == |tr.links| && |s.out| == |s.dispatched| == |tr.apps|
    && |moved| == |hops| + 1 && moved[0] == s.dispatched[k] && moved[|hops|] == |s.out[k]|
    && (forall i: nat :: i < |hops| ==> KeepsAt(exact, tr, k, s, moved, i))
    && (forall n: nat :: n < |s.out[k]| ==> PacketOk(exact, tr, k, |hops| - 1, n, s.out[k][n]))
  }

  ghost predicate KeepsAt(exact: bool, tr: Traffic, k: nat, s: Fleet, moved: seq<nat>, i: nat)
    requires tr.Valid() && k < |tr.apps| && i < |tr.apps[k].hops| && |moved| == |tr.apps[k].hops| + 1
    requires |s.queues| == |tr.links|
  {
    Keeps(exact, tr, k, i, s.queues[tr.apps[k].hops[i]], moved[i], moved[i + 1])
  }

  /** A parcel that comes into a queue, at its own time if it is one of `k`'s. */
  lemma EnterKeeps(exact: bool, tr: Traffic, k: nat, i: nat, qs: seq<Queue>, r: nat, x: Packet, time: real,
      came: nat, gone: nat)
    requires tr.Valid() && k < |tr.apps| && i < |tr.apps[k].hops| && |qs| == |tr.links| && r < |qs|
    requires Keeps(exact, tr, k, i, qs[tr.apps[k].hops[i]], came, gone) && Placed(tr, r, x) && (exact ==> Exclusive(tr, k))
    requires Belongs(x, k, i) ==> x.num == came && x.bits == tr.bits[k](came)
    requires Belongs(x, k, i) ==> From(exact, time, Enters(tr, k, i, came))
    ensures Keeps(exact, tr, k, i, qs[r := Added(qs[r], tr.links[r], x, time)][tr.apps[k].hops[i]],
                  if Belongs(x, k, i) then came + 1 else came, gone)
  {
    hide Keeps, Added, Enters, From, Exclusive;
    if Belongs(x, k, i) {
      OwnEnters(exact, tr, k, i, qs[r], came, gone, x, time);
    } else if r == tr.apps[k].hops[i] {
      if exact {
        OnlyOwn(tr, k, i, x);
      } else {
        OtherEnters(tr, k, i, qs[r], came, gone, x, time);
      }
    }
  }

  lemma SendsKeeps(exact: bool, tr: Traffic, k: nat, a: nat, s: Fleet, t: Fleet, moved: seq<nat>)
    returns (after: seq<nat>)
    requires tr.Valid() && k < |tr.apps| && tr.apps[k].hops != [] && (exact ==> Exclusive(tr, k))
    requires Sends(tr, a, s, t) && FleetKeeps(exact, tr, k, s, moved)
    ensures FleetKeeps(exact, tr, k, t, after)
  {
    hide Keeps, Added, PacketOk, Exclusive;
    after := if a == k then moved[0 := moved[0] + 1] else moved;
    var (q, n) := (tr.apps[a].hops[0], s.dispatched[a]);
    var x := Packet(a, n, tr.bits[a](n), 0, 0.0);
    forall i: nat | i < |tr.apps[k].hops|
      ensures KeepsAt(exact, tr, k, t, after, i)
    {
      assert KeepsAt(exact, tr, k, s, moved, i);
      EnterKeeps(exact, tr, k, i, s.queues, q, x, tr.arrivals[a](n), moved[i], moved[i + 1]);
    }
  }

  /** The counts after parcel `x` has moved on. */
  function Counted(moved: seq<nat>, x: Packet, k: nat): (after: seq<nat>)
    requires x.app == k ==> x.hop + 1 < |moved|
    ensures |after| == |moved|
  {
    if x.app == k then moved[x.hop + 1 := moved[x.hop + 1] + 1] else moved
  }

  /** Queue `q` gives its oldest parcel. */
  lemma LeaveKeepsAt(exact: bool, tr: Traffic, k: nat, i: nat, s: Fleet, q: nat, moved: seq<nat>)
    requires tr.Valid() && k < |tr.apps| && i < |tr.apps[k].hops| && |moved| == |tr.apps[k].hops| + 1
    requires |s.queues| == |tr.links| && q < |s.queues| && s.queues[q].list != [] && Placed(tr, q, s.queues[q].list[0])
    requires KeepsAt(exact, tr, k, s, moved, i)
    ensures var (x, rest) := (s.queues[q].list[0], s.queues[q := s.queues[q].(list := s.queues[q].list[1..])]);
      && Keeps(exact, tr, k, i, rest[tr.apps[k].hops[i]], moved[i],
               if Belongs(x, k, i) then moved[i + 1] + 1 else moved[i + 1])
      && (Belongs(x, k, i) ==> PacketOk(exact, tr, k, i, moved[i + 1], x))
  {
    hide Keeps, PacketOk;
    if tr.apps[k].hops[i] == q {
      LeaveKeeps(exact, tr, k, i, s.queues[q], moved[i], moved[i + 1]);
    }
  }

  /** A packet that leaves hop `i` in order enters the next in order. */
  lemma LeavesEnters(exact: bool, tr: Traffic, k: nat, i: nat, n: nat, p: Packet)
    requires tr.Valid() && k < |tr.apps| && i + 1 < |tr.apps[k].hops| && PacketOk(exact, tr, k, i, n, p)
    ensures p.num == n && p.bits == tr.bits[k](n) && From(exact, p.reinjectTime, Enters(tr, k, i + 1, n))
  {
  }

  lemma OutKeeps(exact: bool, tr: Traffic, k: nat, q: nat, s: Fleet, t: Fleet, moved: seq<nat>)
    returns (after: seq<nat>)
    requires tr.Valid() && k < |tr.apps| && tr.apps[k].hops != [] && FleetKeeps(exact, tr, k, s, moved)
    requires Moves(tr, q, s, t) && LastHop(tr, s.queues[q].list[0])
    ensures FleetKeeps(exact, tr, k, t, after)
  {
    hide Keeps, PacketOk;
    var x, h := s.queues[q].list[0], |tr.apps[k].hops|;
    after := Counted(moved, x, k);
    forall i: nat | i < h
      ensures KeepsAt(exact, tr, k, t, after, i)
    {
      LeaveKeepsAt(exact, tr, k, i, s, q, moved);
    }
    if x.app == k {
      LeaveKeepsAt(exact, tr, k, h - 1, s, q, moved);
    }
  }

  lemma OnKeeps(exact: bool, tr: Traffic, k: nat, q: nat, s: Fleet, t: Fleet, moved: seq<nat>)
    returns (after: seq<nat>)
    requires tr.Valid() && k < |tr.apps| && tr.apps[k].hops != [] && FleetKeeps(exact, tr, k, s, moved)
    requires Moves(tr, q, s, t) && !LastHop(tr, s.queues[q].list[0]) && (exact ==> Exclusive(tr, k))
    ensures FleetKeeps(exact, tr, k, t, after)
  {
    hide Keeps, PacketOk, Exclusive, Added, From, Enters;
    var x := s.queues[q].list[0];
    var (r, y) := (tr.apps[x.app].hops[x.hop + 1], x.(hop := x.hop + 1));
    var rest := s.queues[q := s.queues[q].(list := s.queues[q].list[1..])];
    after := Counted(moved, x, k);
    if x.app == k {
      LeaveKeepsAt(exact, tr, k, x.hop, s, q, moved);
      LeavesEnters(exact, tr, k, x.hop, moved[x.hop + 1], x);
    }
    forall i: nat | i < |tr.apps[k].hops|
      ensures KeepsAt(exact, tr, k, t, after, i)
    {
      LeaveKeepsAt(exact, tr, k, i, s, q, moved);
      EnterKeeps(exact, tr, k, i, rest, r, y, x.reinjectTime, moved[i], after[i + 1]);
    }
  }

  lemma StepKeepsFleet(exact: bool, tr: Traffic, k: nat, s: Fleet, t: Fleet, moved: seq<nat>)
    returns (after: seq<nat>)
    requires tr.Valid() && k < |tr.apps| && tr.apps[k].hops != [] && (exact ==> Exclusive(tr, k))
    requires FleetStep(tr, s, t) && FleetKeeps(exact, tr, k, s, moved)
    ensures FleetKeeps(exact, tr, k, t, after)
  {
    hide FleetKeeps, Sends, Exclusive;
    if a: nat :| Sends(tr, a, s, t) {
      after := SendsKeeps(exact, tr, k, a, s, t, moved);
    } else {
      var q: nat :| Moves(tr, q, s, t);
      if LastHop(tr, s.queues[q].list[0]) {
        after := OutKeeps(exact, tr, k, q, s, t, moved);
      } else {
        after := OnKeeps(exact, tr, k, q, s, t, moved);
      }
    }
  }

  lemma StartKeepsFleet(exact: bool, tr: Traffic, k: nat)
    requires tr.Valid() && k < |tr.apps| && tr.apps[k].hops != []
    ensures FleetKeeps(exact, tr, k, FleetStart(tr), seq(|tr.apps[k].hops| + 1, _ => 0))
  {
  }

  lemma {:induction false} RunKeepsFleet(exact: bool, tr: Traffic, k: nat, run: seq<Fleet>) returns (moved: seq<nat>)
    requires tr.Valid() && k < |tr.apps| && tr.apps[k].hops != [] && (exact ==> Exclusive(tr, k)) && FleetRun(tr, run)
    ensures FleetKeeps(exact, tr, k, run[|run| - 1], moved)
  {
    hide FleetKeeps, FleetStep, Exclusive;
    if |run| == 1 {
      moved := seq(|tr.apps[k].hops| + 1, _ => 0);
      StartKeepsFleet(exact, tr, k);
    } else {
      var n := |run| - 2;
      var before := RunKeepsFleet(exact, tr, k, run[..n + 1]);
      assert FleetStep(tr, run[n], run[n + 1]);
      moved := StepKeepsFleet(exact, tr, k, run[n], run[n + 1], before);
    }
  }

  // ---------------------------------------------------------------------------------------------
  // What holds in every run
  // ---------------------------------------------------------------------------------------------

  /** A packet that has come out was in order at the last hop. */
  lemma OutInOrder(exact: bool, tr: Traffic, k: nat, run: seq<Fleet>, n: nat)
    requires tr.Valid() && FleetRun(tr, run) && k < |tr.apps| && tr.apps[k].hops != [] && (exact ==> Exclusive(tr, k))
    requires n < |Outs(run, k)|
    ensures PacketOk(exact, tr, k, |tr.apps[k].hops| - 1, n, Outs(run, k)[n])
  {
    var moved := RunKeepsFleet(exact, tr, k, run);
    OutKept(exact, tr, k, run[|run| - 1], moved, n);
    hide *;
  }

  lemma OutKept(exact: bool, tr: Traffic, k: nat, s: Fleet, moved: seq<nat>, n: nat)
    requires tr.Valid() && k < |tr.apps| && tr.apps[k].hops != [] && FleetKeeps(exact, tr, k, s, moved)
    requires k < |s.out| && n < |s.out[k]|
    ensures PacketOk(exact, tr, k, |tr.apps[k].hops| - 1, n, s.out[k][n])
  {
    hide PacketOk, KeepsAt;
  }

  /**
    However the queue threads run and whoever shares the queues, the packets of an instance come out in the
    order in which they were dispatched, none before the time that it would have had the path to itself.
   */
  lemma SharingOnlyDelays(tr: Traffic, k: nat, run: seq<Fleet>, n: nat)
    requires tr.Valid() && FleetRun(tr, run) && k < |tr.apps| && tr.apps[k].hops != []
    requires n < |Outs(run, k)|
    ensures var p := Outs(run, k)[n];
      && p.num == n && p.bits == tr.bits[k](n)
      && p.reinjectTime >= QueueTime(PathOf(tr, k), tr.bits[k], tr.arrivals[k], n)
  {
    OutInOrder(false, tr, k, run, n);
    LeavesLast(tr, k, n);
    hide Traffic.Valid, FleetRun, Outs, Leaves, QueueTime, PathOf;
  }

  lemma LeavesLast(tr: Traffic, k: nat, n: nat)
    requires tr.Valid() && k < |tr.apps| && tr.apps[k].hops != []
    ensures Leaves(PathOf(tr, k), tr.bits[k], tr.arrivals[k], |tr.apps[k].hops| - 1, n)
      == QueueTime(PathOf(tr, k), tr.bits[k], tr.arrivals[k], n)
  {
    hide Served;
  }

  lemma ExclusiveIsExact(tr: Traffic, k: nat, run: seq<Fleet>, n: nat)
    requires tr.Valid() && FleetRun(tr, run) && k < |tr.apps| && tr.apps[k].hops != []
    requires n < |Outs(run, k)| && Exclusive(tr, k)
    ensures Outs(run, k)[n].num == n
    ensures Outs(run, k)[n].reinjectTime == QueueTime(PathOf(tr, k), tr.bits[k], tr.arrivals[k], n)
  {
    OutInOrder(true, tr, k, run, n);
    LeavesLast(tr, k, n);
    hide Traffic.Valid, FleetRun, Outs, Leaves, QueueTime, PathOf, Exclusive;
  }

  /** An application that shares no queue, with one instance, has its queues to itself. */
  lemma AloneIsExclusive(tr: Traffic, k: nat)
    requires k < |tr.apps| && Alone(tr.apps, k) && Distinct(tr.apps[k].hops)
    requires forall j :: 0 <= j < |tr.apps| && j != k ==> tr.apps[j].appId != tr.apps[k].appId
    ensures Exclusive(tr, k)
  {
  }

  /**
    The queues would give every packet of an application that shares no queue, and has one instance, exactly
    the time of its path alone, whatever the others send; so the formula may be compared to that.
   */
  lemma AloneIsUndisturbed(tr: Traffic, k: nat, b: nat, run: seq<Fleet>, n: nat)
    requires tr.Valid() && FleetRun(tr, run) && k < |tr.apps| && tr.apps[k].hops != []
    requires n < |Outs(run, k)|
    requires Alone(tr.apps, k) && Distinct(tr.apps[k].hops) && Slowest(PathOf(tr, k), b)
    requires forall j :: 0 <= j < |tr.apps| && j != k ==> tr.apps[j].appId != tr.apps[k].appId
    ensures var (hops, bits, p) := (PathOf(tr, k), tr.bits[k], Outs(run, k)[n]);
      var fast := FastTime(hops, b, bits, tr.arrivals[k], n);
      && p.num == n && p.reinjectTime == QueueTime(hops, bits, tr.arrivals[k], n)
      && (NeverFalls(bits) || StayAhead(hops, bits, true) ==> p.reinjectTime <= fast)
      && (|hops| == 1 ==> fast == p.reinjectTime)
      && (|hops| > 1 && (NeverRises(bits) || Slowest(hops, 0)) ==> fast < p.reinjectTime + (|hops| - 1) as real)
  {
    AloneIsExclusive(tr, k);
    ExclusiveIsExact(tr, k, run, n);
    hide *;
    CutAgreement(PathOf(tr, k), b, tr.bits[k], tr.arrivals[k], n);
  }

  // ---------------------------------------------------------------------------------------------
  // Two instances of one application
  // ---------------------------------------------------------------------------------------------

  ghost predicate Twins(tr: Traffic) {
    && tr.apps == [App(7, [0]), App(7, [0])] && tr.links == [Hop(1.0, 0)]
    && |tr.bits| == |tr.arrivals| == 2
    && tr.bits[0](0) == tr.bits[1](0) == 8000 && tr.arrivals[0](0) == tr.arrivals[1](0) == 0.0
  }

  function Sent(app: nat, time: real): Packet {
    Packet(app, 0, 8000, 0, time)
  }

  /** Both dispatch a packet, and the queue's thread passes both on. */
  function TwinState(n: nat): Fleet {
    var a, b := Sent(0, 8000.0), Sent(1, 16000.0);
    match n
    case 0 => Fleet([Queue(0.0, [])], [[], []], [0, 0])
    case 1 => Fleet([Queue(8000.0, [a])], [[], []], [1, 0])
    case 2 => Fleet([Queue(16000.0, [a, b])], [[], []], [1, 1])
    case 3 => Fleet([Queue(16000.0, [b])], [[a], []], [1, 1])
    case _ => Fleet([Queue(16000.0, [])], [[a], [b]], [1, 1])
  }

  function TwinRun(): (run: seq<Fleet>)
    ensures |run| == 5 && forall n :: 0 <= n < 5 ==> run[n] == TwinState(n)
  {
    [TwinState(0), TwinState(1), TwinState(2), TwinState(3), TwinState(4)]
  }

  lemma TwinTakes(tr: Traffic, q: Queue, k: nat)
    requires Twins(tr) && q.lastSentTime >= 0.0
    ensures var t := q.lastSentTime + 8000.0;
      Added(q, tr.links[0], Sent(k, 0.0), 0.0) == Queue(t, q.list + [Sent(k, t)])
  {
    assert Cut(8000 as real / 1.0) == 8000.0;
  }

  lemma TwinSends(tr: Traffic, k: nat)
    requires Twins(tr) && tr.Valid() && k < 2
    ensures Sends(tr, k, TwinState(k), TwinState(k + 1))
  {
    var s, t := TwinState(k), TwinState(k + 1);
    TwinTakes(tr, s.queues[0], k);
    hide Added;
    assert FleetOk(tr, s);
    assert s.queues[0].list + [Sent(k, s.queues[0].lastSentTime + 8000.0)] == t.queues[0].list;
    assert s.dispatched[k := 1] == t.dispatched;
    assert s.queues[0 := t.queues[0]] == t.queues;
  }

  lemma TwinMoves(tr: Traffic, k: nat)
    requires Twins(tr) && tr.Valid() && k < 2
    ensures Moves(tr, 0, TwinState(k + 2), TwinState(k + 3))
  {
    var s, t := TwinState(k + 2), TwinState(k + 3);
    hide Added;
    assert FleetOk(tr, s);
    var x := s.queues[0].list[0];
    assert x.app == k && x.hop == 0 && LastHop(tr, x);
    assert s.queues[0].list[1..] == t.queues[0].list;
    assert s.queues[0 := t.queues[0]] == t.queues;
    assert s.out[k] == [] && [] + [x] == t.out[k];
    assert s.out[k := t.out[k]] == t.out;
  }

  lemma TwinsAlone(tr: Traffic)
    requires Twins(tr)
    ensures tr.Valid() && Alone(tr.apps, 0) && Alone(tr.apps, 1)
  {
  }

  lemma TwinSteps(tr: Traffic, k: nat)
    requires Twins(tr) && tr.Valid() && k < 4
    ensures FleetStep(tr, TwinState(k), TwinState(k + 1))
  {
    hide Sends, Moves, TwinState, Twins;
    if k < 2 {
      TwinSends(tr, k);
    } else {
      TwinMoves(tr, k - 2);
    }
  }

  lemma TwinRuns(tr: Traffic)
    requires Twins(tr) && tr.Valid()
    ensures FleetRun(tr, TwinRun())
    ensures |Outs(TwinRun(), 1)| == 1 && Outs(TwinRun(), 1)[0].reinjectTime == 16000.0
  {
    TwinStarts(tr);
    hide Twins, TwinState, FleetStep, FleetStart;
    forall k | 0 <= k < 4
      ensures FleetStep(tr, TwinRun()[k], TwinRun()[k + 1])
    {
      TwinSteps(tr, k);
    }
  }

  /**
    Two instances of one application that share a queue skip the queues, and the formula has the second
    packet out 8 milliseconds before the queue would have.
   */
  lemma TwinsDisturb(tr: Traffic)
    requires Twins(tr)
    ensures tr.Valid() && Alone(tr.apps, 0) && Alone(tr.apps, 1) && FleetRun(tr, TwinRun())
    ensures |Outs(TwinRun(), 1)| == 1 && Outs(TwinRun(), 1)[0].reinjectTime == 16000.0
    ensures FastTime(PathOf(tr, 1), 0, tr.bits[1], tr.arrivals[1], 0) == 8000.0
  {
    TwinsAlone(tr);
    hide *;
    TwinRuns(tr);
    TwinFast(tr);
  }

  lemma TwinStarts(tr: Traffic)
    requires Twins(tr)
    ensures TwinState(0) == FleetStart(tr) && |TwinState(4).out| == 2 && TwinState(4).out[1] == [Sent(1, 16000.0)]
  {
  }

  lemma TwinFast(tr: Traffic)
    requires Twins(tr) && tr.Valid()
    ensures FastTime(PathOf(tr, 1), 0, tr.bits[1], tr.arrivals[1], 0) == 8000.0
  {
    var hops := PathOf(tr, 1);
    var s := Times(hops, 8000);
    assert hops == [Hop(1.0, 0)] && s[0] == 8000.0 && Cut(8000.0) == 8000.0;
    assert Others(s, 0) == [] && Delays(hops) == [0.0];
    SumOfOne(0.0);
  }
}
