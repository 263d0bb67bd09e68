/**
  The buffer in which an AODV node holds packets that wait for a route: one first-in first-out list
  for each destination.

  A ledger is history: every packet that was added, and every packet that left, posted again as a
  network-out event or freed and counted as dropped.
 */
module AodvBuffer {

  /** A packet is named by a number; its destination is what the buffer looks at. */
  datatype Packet = Packet(id: nat, dest: nat)

  datatype Fifo = Fifo(dest: nat, packets: seq<Packet>, time: real)

  datatype Exit = Posted(packet: Packet) | Dropped(packet: Packet)

  datatype Operation = Add(packet: Packet, time: real) | GiveUp(dest: nat) | Transmit(reachable: set<nat>)

  datatype State = State(fifos: seq<Fifo>, added: seq<Packet>, exits: seq<Exit>)

  // ---------------------------------------------------------------------------------------------
  // Operations
  // ---------------------------------------------------------------------------------------------

  /** Where the list for a destination stands, or the number of lists. */
  function At(fifos: seq<Fifo>, dest: nat): (i: nat)
    ensures i <= |fifos|
    ensures i < |fifos| ==> fifos[i].dest == dest
    ensures forall j :: 0 <= j < i ==> fifos[j].dest != dest
  {
    if fifos == [] || fifos[0].dest == dest then 0 else At(fifos[1..], dest) + 1
  }

  function Added(fifos: seq<Fifo>, p: Packet, time: real): seq<Fifo> {
    var i := At(fifos, p.dest);
    if i == |fifos| then fifos + [Fifo(p.dest, [p], time)]
    else if fifos[i].packets == [] then fifos[i := fifos[i].(packets := [p], time := time)]
    else fifos[i := fifos[i].(packets := fifos[i].packets + [p])]
  }

  function AsDropped(packets: seq<Packet>): seq<Exit> {
    seq(|packets|, i requires 0 <= i < |packets| => Dropped(packets[i]))
  }

  function AsPosted(packets: seq<Packet>): seq<Exit> {
    seq(|packets|, i requires 0 <= i < |packets| => Posted(packets[i]))
  }

  function GivenUp(fifos: seq<Fifo>, dest: nat): (seq<Fifo>, seq<Exit>) {
    var i := At(fifos, dest);
    if i == |fifos| then (fifos, [])
    else (fifos[..i] + fifos[i + 1..], AsDropped(fifos[i].packets))
  }

  /** The lists of reachable destinations are drained, in the order of the lists. */
  function Transmitted(fifos: seq<Fifo>, reachable: set<nat>): (seq<Fifo>, seq<Exit>) {
    if fifos == [] then ([], [])
    else
      var n := |fifos| - 1;
      var (front, out) := Transmitted(fifos[..n], reachable);
      if fifos[n].dest in reachable then (front + [fifos[n].(packets := [])], out + AsPosted(fifos[n].packets))
      else (front + [fifos[n]], out)
  }

  function Apply(s: State, op: Operation): State {
    match op
    case Add(p, time) => State(Added(s.fifos, p, time), s.added + [p], s.exits)
    case GiveUp(dest) =>
      var (fifos, out) := GivenUp(s.fifos, dest);
      State(fifos, s.added, s.exits + out)
    case Transmit(reachable) =>
      var (fifos, out) := Transmitted(s.fifos, reachable);
      State(fifos, s.added, s.exits + out)
  }

  // ---------------------------------------------------------------------------------------------
  // The ledger of one destination
  // ---------------------------------------------------------------------------------------------

  /** The packets for a destination, in order. */
  function Toward(packets: seq<Packet>, dest: nat): seq<Packet> {
    if packets == [] then []
    else
      var n := |packets| - 1;
      Toward(packets[..n], dest) + if packets[n].dest == dest then [packets[n]] else []
  }

  function Packets(exits: seq<Exit>): seq<Packet> {
    seq(|exits|, i requires 0 <= i < |exits| => exits[i].packet)
  }

  function Held(fifos: seq<Fifo>, dest: nat): seq<Packet> {
    var i := At(fifos, dest);
    if i < |fifos| then fifos[i].packets else []
  }

  /** Packets wait on the list of their own destination. */
  ghost predicate Own(f: Fifo) {
    forall k :: 0 <= k < |f.packets| ==> f.packets[k].dest == f.dest
  }

  ghost predicate OneEach(fifos: seq<Fifo>) {
    forall i, j :: 0 <= i < j < |fifos| ==> fifos[i].dest != fifos[j].dest
  }

  ghost predicate Sorted(fifos: seq<Fifo>) {
    OneEach(fifos) && forall i :: 0 <= i < |fifos| ==> Own(fifos[i])
  }

  /** What was added for a destination is what left, then what is held, in that order. */
  ghost predicate Ledger(added: seq<Packet>, left: seq<Packet>, held: seq<Packet>, dest: nat) {
    Toward(added, dest) == Toward(left, dest) + held
  }

  /** One list for each destination, and every destination's ledger balances. */
  ghost predicate Balanced(s: State) {
    Sorted(s.fifos) && forall dest :: Ledger(s.added, Packets(s.exits), Held(s.fifos, dest), dest)
  }

  lemma {:induction false} TowardConcat(a: seq<Packet>, b: seq<Packet>, dest: nat)
    ensures Toward(a + b, dest) == Toward(a, dest) + Toward(b, dest)
    decreases |b|
  {
    if b == [] {
      assert a + b == a;
    } else {
      var n := |b| - 1;
      assert (a + b)[..|a + b| - 1] == a + b[..n];
      TowardConcat(a, b[..n], dest);
    }
  }

  lemma {:induction false} TowardAll(a: seq<Packet>, from: nat, dest: nat)
    requires forall k :: 0 <= k < |a| ==> a[k].dest == from
    ensures Toward(a, dest) == if from == dest then a else []
  {
    if a != [] {
      var n := |a| - 1;
      TowardAll(a[..n], from, dest);
      assert a[..n] + [a[n]] == a;
    }
  }

  lemma PacketsConcat(a: seq<Exit>, b: seq<Exit>)
    ensures Packets(a + b) == Packets(a) + Packets(b)
  {
  }

  lemma PacketsOf(packets: seq<Packet>)
    ensures Packets(AsDropped(packets)) == packets && Packets(AsPosted(packets)) == packets
  {
  }

  lemma LedgerAdd(added: seq<Packet>, left: seq<Packet>, held: seq<Packet>, p: Packet, dest: nat)
    requires Ledger(added, left, held, dest)
    ensures Ledger(added + [p], left, held + (if p.dest == dest then [p] else []), dest)
  {
    TowardConcat(added, [p], dest);
    TowardAll([p], p.dest, dest);
  }

  lemma LedgerLeave(added: seq<Packet>, left: seq<Packet>, out: seq<Packet>, held: seq<Packet>, rest: seq<Packet>, dest: nat)
    requires Ledger(added, left, held, dest) && held == Toward(out, dest) + rest
    ensures Ledger(added, left + out, rest, dest)
  {
    TowardConcat(left, out, dest);
  }

  lemma AtUnique(fifos: seq<Fifo>, i: nat)
    requires OneEach(fifos) && i < |fifos|
    ensures At(fifos, fifos[i].dest) == i && Held(fifos, fifos[i].dest) == fifos[i].packets
  {
  }

  lemma HeldNone(fifos: seq<Fifo>, dest: nat)
    requires forall i :: 0 <= i < |fifos| ==> fifos[i].dest != dest
    ensures Held(fifos, dest) == []
  {
  }

  lemma HeldLast(front: seq<Fifo>, f: Fifo, dest: nat)
    requires OneEach(front + [f])
    ensures OneEach(front)
    ensures Held(front + [f], dest) == if f.dest == dest then f.packets else Held(front, dest)
    ensures f.dest == dest ==> Held(front, dest) == []
  {
    var fifos := front + [f];
    assert fifos[|front|] == f && forall i :: 0 <= i < |front| ==> fifos[i] == front[i];
    var k := At(front, dest);
    if k < |front| {
      AtUnique(fifos, k);
    } else {
      AtUnique(fifos, |front|);
      if f.dest != dest {
        HeldNone(fifos, dest);
      }
    }
  }

  lemma HeldReplace(fifos: seq<Fifo>, i: nat, f: Fifo, dest: nat)
    requires Sorted(fifos) && i < |fifos| && f.dest == fifos[i].dest && Own(f)
    ensures Sorted(fifos[i := f])
    ensures Held(fifos[i := f], dest) == if f.dest == dest then f.packets else Held(fifos, dest)
  {
    var after := fifos[i := f];
    AtUnique(after, i);
    var k := At(fifos, dest);
    if k < |fifos| {
      AtUnique(after, k);
    } else {
      HeldNone(after, dest);
    }
  }

  lemma HeldAfterAdd(fifos: seq<Fifo>, p: Packet, time: real, dest: nat)
    requires Sorted(fifos)
    ensures Sorted(Added(fifos, p, time))
    ensures Held(Added(fifos, p, time), dest) == Held(fifos, dest) + if p.dest == dest then [p] else []
  {
    hide Own;
    var i, after := At(fifos, p.dest), Added(fifos, p, time);
    if i == |fifos| {
      OwnOne(p, time);
      HeldLast(fifos, Fifo(p.dest, [p], time), dest);
    } else {
      OwnMore(fifos[i], p, time);
      HeldReplace(fifos, i, after[i], dest);
    }
  }

  lemma OwnOne(p: Packet, time: real)
    ensures Own(Fifo(p.dest, [p], time))
  {
  }

  lemma OwnMore(f: Fifo, p: Packet, time: real)
    requires Own(f) && f.dest == p.dest
    ensures Own(f.(packets := [p], time := time)) && Own(f.(packets := f.packets + [p])) && [] + [p] == [p]
  {
  }

  lemma AddKeeps(s: State, p: Packet, time: real)
    requires Balanced(s)
    ensures Balanced(Apply(s, Add(p, time)))
  {
    hide Ledger, Sorted, Held, Added;
    var t := Apply(s, Add(p, time));
    forall dest
      ensures Sorted(t.fifos) && Ledger(t.added, Packets(t.exits), Held(t.fifos, dest), dest)
    {
      LedgerAdd(s.added, Packets(s.exits), Held(s.fifos, dest), p, dest);
      HeldAfterAdd(s.fifos, p, time, dest);
    }
    assert Ledger(t.added, Packets(t.exits), Held(t.fifos, p.dest), p.dest);
  }

  lemma HeldWithout(fifos: seq<Fifo>, i: nat, dest: nat)
    requires Sorted(fifos) && i < |fifos|
    ensures Sorted(fifos[..i] + fifos[i + 1..])
    ensures Held(fifos[..i] + fifos[i + 1..], dest) == if fifos[i].dest == dest then [] else Held(fifos, dest)
  {
    var after := fifos[..i] + fifos[i + 1..];
    var k := At(fifos, dest);
    if fifos[i].dest != dest && k < |fifos| {
      assert after[if k < i then k else k - 1] == fifos[k];
      AtUnique(after, if k < i then k else k - 1);
    }
  }

  /** Giving up empties the destination's list into the drop count, in order. */
  lemma GivenUpLeaves(fifos: seq<Fifo>, dest: nat, d: nat)
    requires Sorted(fifos)
    ensures var (after, out) := GivenUp(fifos, dest);
      Sorted(after) && Held(fifos, d) == Toward(Packets(out), d) + Held(after, d)
  {
    var i := At(fifos, dest);
    if i < |fifos| {
      PacketsOf(fifos[i].packets);
      TowardAll(fifos[i].packets, dest, d);
      HeldWithout(fifos, i, d);
      AtUnique(fifos, i);
    }
  }

  lemma {:induction false} TransmittedLeaves(fifos: seq<Fifo>, reachable: set<nat>, d: nat)
    requires Sorted(fifos)
    ensures var (after, out) := Transmitted(fifos, reachable);
      && |after| == |fifos| && (forall i :: 0 <= i < |fifos| ==> after[i].dest == fifos[i].dest)
      && Sorted(after) && Held(fifos, d) == Toward(Packets(out), d) + Held(after, d)
  {
    hide Own;
    if fifos == [] {
      assert Transmitted(fifos, reachable) == (fifos, []);
    } else {
      var n := |fifos| - 1;
      var front, f := fifos[..n], fifos[n];
      assert front + [f] == fifos;
      HeldLast(front, f, d);
      TransmittedLeaves(front, reachable, d);
      TransmittedLast(front, f, reachable, d);
    }
  }

  /** Draining one list more: its packets leave last, and only its own destination notices. */
  lemma TransmittedLast(front: seq<Fifo>, f: Fifo, reachable: set<nat>, d: nat)
    requires Sorted(front + [f])
    requires var (after, out) := Transmitted(front, reachable);
      && |after| == |front| && (forall i :: 0 <= i < |front| ==> after[i].dest == front[i].dest)
      && Sorted(after) && Held(front, d) == Toward(Packets(out), d) + Held(after, d)
    ensures var (after, out) := Transmitted(front + [f], reachable);
      && |after| == |front| + 1 && (forall i :: 0 <= i < |front| + 1 ==> after[i].dest == (front + [f])[i].dest)
      && Sorted(after) && Held(front + [f], d) == Toward(Packets(out), d) + Held(after, d)
  {
    hide Own, Held, OneEach, Toward, AsPosted;
    var (after, out) := Transmitted(front, reachable);
    var g := if f.dest in reachable then f.(packets := []) else f;
    var more := if f.dest in reachable then AsPosted(f.packets) else [];
    assert (front + [f])[..|front|] == front && (front + [f])[|front|] == f && Own(f);
    assert out + [] == out;
    OwnEmpty(f);
    TowardMore(f, reachable, d);
    LastList(front, f, after, g, out, more, d);
  }

  lemma LastList(front: seq<Fifo>, f: Fifo, after: seq<Fifo>, g: Fifo, out: seq<Exit>, more: seq<Exit>, d: nat)
    requires Sorted(front + [f]) && Sorted(after) && g.dest == f.dest && Own(g)
    requires |after| == |front| && forall i :: 0 <= i < |front| ==> after[i].dest == front[i].dest
    requires Held(front, d) == Toward(Packets(out), d) + Held(after, d)
    requires f.dest == d ==> Toward(Packets(more), d) + g.packets == f.packets
    requires f.dest != d ==> Toward(Packets(more), d) == []
    ensures Sorted(after + [g]) && Held(front + [f], d) == Toward(Packets(out + more), d) + Held(after + [g], d)
  {
    hide Own, Held, OneEach, Toward;
    SortedLast(front, f, after, g);
    HeldLast(front, f, d);
    HeldLast(after, g, d);
    PacketsConcat(out, more);
    TowardConcat(Packets(out), Packets(more), d);
    Join(Toward(Packets(out), d), Toward(Packets(more), d), Held(after, d), g.packets, f.packets, f.dest == d);
  }

  lemma OwnEmpty(f: Fifo)
    ensures Own(f.(packets := []))
  {
  }

  lemma TowardMore(f: Fifo, reachable: set<nat>, d: nat)
    requires Own(f)
    ensures var more := if f.dest in reachable then AsPosted(f.packets) else [];
      Toward(Packets(more), d) == if f.dest in reachable && f.dest == d then f.packets else []
  {
    PacketsOf(f.packets);
    TowardOwn(f, d);
    assert Packets([]) == [];
  }

  lemma Join(out: seq<Packet>, more: seq<Packet>, after: seq<Packet>, g: seq<Packet>, f: seq<Packet>, own: bool)
    requires own ==> out + after == [] && more + g == f
    requires !own ==> more == []
    ensures (if own then f else out + after) == out + more + if own then g else after
  {
    if own {
      assert out == [] && [] + more == more;
    } else {
      assert out + [] == out;
    }
  }

  lemma TowardOwn(f: Fifo, d: nat)
    requires Own(f)
    ensures Toward(f.packets, d) == if f.dest == d then f.packets else []
  {
    TowardAll(f.packets, f.dest, d);
  }

  lemma SortedLast(front: seq<Fifo>, f: Fifo, after: seq<Fifo>, g: Fifo)
    requires Sorted(front + [f]) && Sorted(after) && |after| == |front| && g.dest == f.dest && Own(g)
    requires forall i :: 0 <= i < |front| ==> after[i].dest == front[i].dest
    ensures Sorted(after + [g])
  {
    hide Own;
    forall i, j | 0 <= i < j < |after| + 1
      ensures (after + [g])[i].dest != (after + [g])[j].dest
    {
      assert (front + [f])[i].dest == (after + [g])[i].dest && (front + [f])[j].dest == (after + [g])[j].dest;
    }
  }

  lemma ExitKeeps(s: State, fifos: seq<Fifo>, out: seq<Exit>)
    requires Balanced(s) && Sorted(fifos)
    requires forall d :: Held(s.fifos, d) == Toward(Packets(out), d) + Held(fifos, d)
    ensures Balanced(State(fifos, s.added, s.exits + out))
  {
    hide Ledger, Sorted, Held;
    PacketsConcat(s.exits, out);
    forall d
      ensures Ledger(s.added, Packets(s.exits + out), Held(fifos, d), d)
    {
      LedgerLeave(s.added, Packets(s.exits), Packets(out), Held(s.fifos, d), Held(fifos, d), d);
    }
  }

  /** Every operation keeps the ledgers balanced. */
  lemma OperationKeeps(s: State, op: Operation)
    requires Balanced(s)
    ensures Balanced(Apply(s, op))
  {
    match op
    case Add(p, time) => AddKeeps(s, p, time);
    case GiveUp(dest) =>
      GivenUpLeaves(s.fifos, dest, 0);
      forall d {
        GivenUpLeaves(s.fifos, dest, d);
      }
      ExitKeeps(s, GivenUp(s.fifos, dest).0, GivenUp(s.fifos, dest).1);
    case Transmit(reachable) =>
      TransmittedLeaves(s.fifos, reachable, 0);
      forall d {
        TransmittedLeaves(s.fifos, reachable, d);
      }
      ExitKeeps(s, Transmitted(s.fifos, reachable).0, Transmitted(s.fifos, reachable).1);
  }

  // ---------------------------------------------------------------------------------------------
  // What each operation does
  // ---------------------------------------------------------------------------------------------

  /** Draining empties the lists of reachable destinations, and no other list. */
  lemma {:induction false} TransmittedEmpties(fifos: seq<Fifo>, reachable: set<nat>, d: nat)
    requires Sorted(fifos)
    ensures Held(Transmitted(fifos, reachable).0, d) == if d in reachable then [] else Held(fifos, d)
  {
    hide Own, Held;
    if fifos == [] {
      HeldNone(fifos, d);
    } else {
      var n := |fifos| - 1;
      var front, f := fifos[..n], fifos[n];
      var g := if f.dest in reachable then f.(packets := []) else f;
      var after := Transmitted(front, reachable).0;
      assert front + [f] == fifos && after + [g] == Transmitted(fifos, reachable).0;
      HeldLast(front, f, d);
      TransmittedEmpties(front, reachable, d);
      TransmittedLeaves(fifos, reachable, d);
      HeldLast(after, g, d);
    }
  }

  /** Only packets of reachable destinations leave, and each of them is posted. */
  lemma {:induction false} TransmittedPosts(fifos: seq<Fifo>, reachable: set<nat>)
    requires forall i :: 0 <= i < |fifos| ==> Own(fifos[i])
    ensures forall e :: e in Transmitted(fifos, reachable).1 ==> e.Posted? && e.packet.dest in reachable
  {
    if fifos != [] {
      var n := |fifos| - 1;
      TransmittedPosts(fifos[..n], reachable);
      assert Own(fifos[n]);
    }
  }

  lemma TransmitDoes(s: State, reachable: set<nat>, d: nat) returns (out: seq<Exit>)
    requires Sorted(s.fifos)
    ensures var t := Apply(s, Transmit(reachable));
      && t.added == s.added && t.exits == s.exits + out
      && (forall e :: e in out ==> e.Posted? && e.packet.dest in reachable)
      && (d in reachable ==> Held(t.fifos, d) == [] && Toward(Packets(out), d) == Held(s.fifos, d))
      && (d !in reachable ==> Held(t.fifos, d) == Held(s.fifos, d) && Toward(Packets(out), d) == [])
  {
    hide Own, Held, Toward;
    out := Transmitted(s.fifos, reachable).1;
    TransmittedPosts(s.fifos, reachable);
    TransmittedEmpties(s.fifos, reachable, d);
    TransmittedLeaves(s.fifos, reachable, d);
    var after := Held(Transmitted(s.fifos, reachable).0, d);
    assert Toward(Packets(out), d) + after == Held(s.fifos, d);
    if d !in reachable {
      assert |Toward(Packets(out), d)| == 0;
    }
  }

  lemma GiveUpDoes(s: State, dest: nat, d: nat) returns (out: seq<Exit>)
    requires Sorted(s.fifos)
    ensures var t := Apply(s, GiveUp(dest));
      && t.added == s.added && t.exits == s.exits + out
      && (forall e :: e in out ==> e.Dropped?) && Packets(out) == Held(s.fifos, dest)
      && Held(t.fifos, d) == if d == dest then [] else Held(s.fifos, d)
  {
    hide Own;
    out := GivenUp(s.fifos, dest).1;
    var i := At(s.fifos, dest);
    if i < |s.fifos| {
      PacketsOf(s.fifos[i].packets);
      HeldWithout(s.fifos, i, d);
    } else {
      assert Packets([]) == [];
    }
  }

  /**
    Adding puts the packet last on its destination's list and lets none leave; giving a destination up drops
    what waits for it, in order, and nothing else; draining posts what waits for the reachable destinations,
    each destination's packets in order, and leaves every other list alone.
   */
  lemma OperationExactly(s: State, op: Operation, d: nat) returns (out: seq<Exit>)
    requires Balanced(s)
    ensures Apply(s, op).exits == s.exits + out
    ensures Apply(s, op).added == s.added + if op.Add? then [op.packet] else []
    ensures op.Add? ==> out == []
    ensures op.Add? ==>
      Held(Apply(s, op).fifos, d) == if d == op.packet.dest then Held(s.fifos, d) + [op.packet] else Held(s.fifos, d)
    ensures op.GiveUp? ==> (forall e :: e in out ==> e.Dropped?) && Packets(out) == Held(s.fifos, op.dest)
    ensures op.GiveUp? ==> Held(Apply(s, op).fifos, d) == if d == op.dest then [] else Held(s.fifos, d)
    ensures op.Transmit? ==> forall e :: e in out ==> e.Posted? && e.packet.dest in op.reachable
    ensures op.Transmit? ==> Toward(Packets(out), d) == if d in op.reachable then Held(s.fifos, d) else []
    ensures op.Transmit? ==> Held(Apply(s, op).fifos, d) == if d in op.reachable then [] else Held(s.fifos, d)
  {
    hide Own, Held, Toward, Ledger;
    match op
    case Add(p, time) =>
      out := [];
      AddDoes(s, p, time, d);
    case GiveUp(dest) =>
      out := GiveUpDoes(s, dest, d);
    case Transmit(reachable) =>
      out := TransmitDoes(s, reachable, d);
  }

  /** A list bears the time at which its first waiting packet came. */
  lemma AddStamps(fifos: seq<Fifo>, p: Packet, time: real)
    ensures var (before, after) := (At(fifos, p.dest), Added(fifos, p, time));
      var i := At(after, p.dest);
      && i < |after| && i == before
      && after[i].time == if Held(fifos, p.dest) == [] then time else fifos[before].time
  {
    var after := Added(fifos, p, time);
    var k := At(fifos, p.dest);
    assert after[k].dest == p.dest && forall j :: 0 <= j < k ==> after[j] == fifos[j];
  }

  lemma AddDoes(s: State, p: Packet, time: real, d: nat)
    requires Sorted(s.fifos)
    ensures var t := Apply(s, Add(p, time));
      && t.exits == s.exits + [] && t.added == s.added + [p]
      && Held(t.fifos, d) == if d == p.dest then Held(s.fifos, d) + [p] else Held(s.fifos, d)
  {
    hide Own, Held, Added;
    HeldAfterAdd(s.fifos, p, time, d);
  }

  // ---------------------------------------------------------------------------------------------
  // What holds in every run
  // ---------------------------------------------------------------------------------------------

  function After(s: State, ops: seq<Operation>): State
    decreases |ops|
  {
    if ops == [] then s else After(Apply(s, ops[0]), ops[1..])
  }

  lemma {:induction false} RunKeeps(s: State, ops: seq<Operation>)
    requires Balanced(s)
    ensures Balanced(After(s, ops))
    decreases |ops|
  {
    hide Balanced, Apply;
    if ops != [] {
      OperationKeeps(s, ops[0]);
      RunKeeps(Apply(s, ops[0]), ops[1..]);
    }
  }

  lemma AlwaysBalanced(ops: seq<Operation>)
    ensures Balanced(After(State([], [], []), ops))
  {
    assert Balanced(State([], [], []));
    RunKeeps(State([], [], []), ops);
  }

  lemma {:induction false} TowardCounts(a: seq<Packet>, p: Packet)
    ensures multiset(Toward(a, p.dest))[p] == multiset(a)[p]
  {
    if a != [] {
      var n := |a| - 1;
      TowardCounts(a[..n], p);
      assert a == a[..n] + [a[n]];
    }
  }

  /** Every packet added is held, posted again, or dropped: nothing is lost and nothing made up. */
  lemma EveryPacketAccounted(ops: seq<Operation>, p: Packet)
    ensures var s := After(State([], [], []), ops);
      multiset(s.added)[p] == multiset(Packets(s.exits))[p] + multiset(Held(s.fifos, p.dest))[p]
  {
    hide Toward, Held;
    var s := After(State([], [], []), ops);
    AlwaysBalanced(ops);
    assert Ledger(s.added, Packets(s.exits), Held(s.fifos, p.dest), p.dest);
    TowardCounts(s.added, p);
    TowardCounts(Packets(s.exits), p);
  }

  /** The packets for a destination leave in the order in which they came. */
  lemma LeaveInOrder(ops: seq<Operation>, dest: nat)
    ensures var s := After(State([], [], []), ops); Toward(Packets(s.exits), dest) <= Toward(s.added, dest)
  {
    var s := After(State([], [], []), ops);
    AlwaysBalanced(ops);
    assert Ledger(s.added, Packets(s.exits), Held(s.fifos, dest), dest);
  }

  // ---------------------------------------------------------------------------------------------
  // The buffer of one node
  // ---------------------------------------------------------------------------------------------

  class Buffer {
    var fifos: seq<Fifo>
    var packetDropped: nat

    constructor ()
      ensures fifos == [] && packetDropped == 0
    {
      fifos, packetDropped := [], 0;
    }

    method Search(dest: nat) returns (i: nat)
      ensures i == At(fifos, dest)
    {
      i := 0;
      while i < |fifos|
        invariant i <= |fifos| && At(fifos, dest) == i + At(fifos[i..], dest)
      {
        if fifos[i].dest == dest {
          return;
        }
        assert fifos[i..][1..] == fifos[i + 1..];
        i := i + 1;
      }
    }

    /** Adds a packet; the answer is false when it is the first to wait, and a discovery must start. */
    method AddToFifoBuffer(p: Packet, time: real) returns (waiting: bool)
      modifies this
      ensures fifos == Added(old(fifos), p, time) && packetDropped == old(packetDropped)
      ensures waiting <==> Held(old(fifos), p.dest) != []
    {
      var i := Search(p.dest);
      if i < |fifos| {
        if fifos[i].packets == [] {
          fifos := fifos[i := fifos[i].(packets := [p], time := time)];
          return false;
        }
        fifos := fifos[i := fifos[i].(packets := fifos[i].packets + [p])];
        return true;
      }
      fifos := fifos + [Fifo(p.dest, [p], time)];
      waiting := false;
    }

    /** Frees the packets of a destination one by one, and counts each. */
    method EmptyFifoBuffer(dest: nat) returns (freed: seq<Packet>)
      modifies this
      ensures (fifos, AsDropped(freed)) == GivenUp(old(fifos), dest)
      ensures packetDropped == old(packetDropped) + |freed|
    {
      freed := [];
      var i := Search(dest);
      if i < |fifos| {
        var packets := fifos[i].packets;
        while packets != []
          invariant freed + packets == old(fifos)[i].packets
          invariant fifos == old(fifos) && packetDropped == old(packetDropped) + |freed|
          decreases |packets|
        {
          assert freed + packets == freed + [packets[0]] + packets[1..];
          freed := freed + [packets[0]];
          packets := packets[1..];
          packetDropped := packetDropped + 1;
        }
        assert freed == old(fifos)[i].packets;
        fifos := fifos[..i] + fifos[i + 1..];
      } else {
        assert AsDropped(freed) == [];
      }
    }

    /** Posts the packets of every reachable destination, list by list, first in first out. */
    method TransmitFifoBuffer(reachable: set<nat>) returns (posted: seq<Packet>)
      modifies this`fifos
      ensures (fifos, AsPosted(posted)) == Transmitted(old(fifos), reachable)
    {
      posted := [];
      ghost var whole := fifos;
      assert AsPosted([]) == [];
      for i := 0 to |fifos|
        invariant |fifos| == |whole| && fifos[i..] == whole[i..]
        invariant fifos[..i] == Transmitted(whole[..i], reachable).0
        invariant AsPosted(posted) == Transmitted(whole[..i], reachable).1
      {
        assert whole[..i + 1][..i] == whole[..i] && fifos[i] == whole[i];
        ghost var front := fifos[..i];
        if fifos[i].dest in reachable {
          ghost var before := posted;
          var packets := fifos[i].packets;
          while packets != []
            invariant posted + packets == before + whole[i].packets
            decreases |packets|
          {
            posted := posted + [packets[0]];
            packets := packets[1..];
          }
          assert posted == before + whole[i].packets;
          PostedConcat(before, whole[i].packets);
          fifos := fifos[i := fifos[i].(packets := [])];
        }
        assert fifos[..i + 1] == front + [fifos[i]];
      }
      assert whole[..|whole|] == whole && fifos[..|fifos|] == fifos;
    }
  }

  lemma PostedConcat(a: seq<Packet>, b: seq<Packet>)
    ensures AsPosted(a + b) == AsPosted(a) + AsPosted(b)
  {
  }
}
