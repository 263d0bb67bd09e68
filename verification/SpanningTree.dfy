/**
  The spanning-tree protocol of the Ethernet switches, as a state machine.

  A switch is named by its switch id; ids are distinct and totally ordered, so they are natural
  numbers here.  At most one link joins two switches, so a port is named by the id of the switch at
  its other end.  A state holds every switch's view and the multiset of configuration BPDUs in
  flight; a step delivers any one of them, in any order.
 */
module SpanningTree {
  import opened Basics

  /** The switches with their configured cost, and the ports of each switch. */
  datatype Net = Net(stpCost: map<nat, nat>, ports: map<nat, seq<nat>>) {
    ghost predicate Linked(u: nat, v: nat) {
      u in ports && v in ports[u]
    }

    /** Links are symmetric and join two different switches; every cost is positive. */
    ghost predicate Valid() {
      && ports.Keys == stpCost.Keys
      && (forall u, v :: Linked(u, v) ==> Linked(v, u) && u != v)
      && (forall u :: u in stpCost ==> stpCost[u] > 0)
    }
  }

  /** A configuration BPDU: what it says of the root, and the link it crosses. */
  datatype Bpdu = Bpdu(src: nat, dst: nat, rootId: nat, rootPathCost: nat)

  /** What one switch knows, and the ports it has blocked. */
  datatype View = View(rootId: nat, rootPathCost: nat, rootPort: Option<nat>, blocked: set<nat>)

  datatype State = State(sw: map<nat, View>, flight: multiset<Bpdu>)

  datatype Verdict = Block | Forward | DontForward

  // ---------------------------------------------------------------------------------------------
  // One switch
  // ---------------------------------------------------------------------------------------------

  function Compare(b: Bpdu, id: nat, v: View, port: nat): Verdict {
    if b.rootId == v.rootId then
      if v.rootId == id then DontForward
      else if b.rootPathCost == v.rootPathCost then
        if v.rootPort == Some(port) then DontForward else Block
      else if b.rootPathCost < v.rootPathCost then Forward
      else Block
    else if b.rootId < v.rootId then Forward
    else DontForward
  }

  /** The view of switch `id` after it handles `b` arriving on `port`. */
  function Receive(b: Bpdu, id: nat, v: View, port: nat): View {
    match Compare(b, id, v, port)
    case Block => v.(blocked := v.blocked + {port})
    case Forward => v.(rootId := b.rootId, rootPathCost := b.rootPathCost, rootPort := Some(port))
    case DontForward => v
  }

  /** One BPDU for each of the given ports but `inter`. */
  function Copies(id: nat, root: nat, cost: nat, inter: Option<nat>, ports: seq<nat>): seq<Bpdu> {
    if ports == [] then []
    else
      var n := |ports| - 1;
      Copies(id, root, cost, inter, ports[..n])
      + if inter == Some(ports[n]) then [] else [Bpdu(id, ports[n], root, cost)]
  }

  lemma {:induction false} CopiesMember(id: nat, root: nat, cost: nat, inter: Option<nat>, ports: seq<nat>, b: Bpdu)
    ensures b in Copies(id, root, cost, inter, ports) <==>
      b == Bpdu(id, b.dst, root, cost) && b.dst in ports && Some(b.dst) != inter
  {
    if ports != [] {
      CopiesMember(id, root, cost, inter, ports[..|ports| - 1], b);
    }
  }

  /** The BPDUs switch `id` sends on handling `b`. */
  function Reaction(b: Bpdu, id: nat, stpCost: nat, v: View, port: nat, ports: seq<nat>): seq<Bpdu> {
    if Compare(b, id, v, port) == Forward
    then Copies(id, b.rootId, stpCost + b.rootPathCost, Some(port), ports)
    else []
  }

  /** It tells every other neighbour, and nobody else, what it has taken, at its own cost more. */
  lemma ReactionExactly(b: Bpdu, id: nat, stpCost: nat, v: View, port: nat, ports: seq<nat>, m: Bpdu)
    requires v.rootId == id ==> v.rootPathCost == 0
    ensures m in Reaction(b, id, stpCost, v, port, ports) <==>
      && !Leq(v.rootId, v.rootPathCost, b.rootId, b.rootPathCost)
      && m.dst in ports && m.dst != port
      && m == Bpdu(id, m.dst, b.rootId, stpCost + b.rootPathCost)
  {
    hide Copies;
    CopiesMember(id, b.rootId, stpCost + b.rootPathCost, Some(port), ports, m);
  }

  // ---------------------------------------------------------------------------------------------
  // The network
  // ---------------------------------------------------------------------------------------------

  /** Every switch starts as root and sends its first BPDU on every port. */
  function Init(net: Net): State
    requires net.Valid()
  {
    State(map u | u in net.ports :: View(u, 0, None, {}),
          multiset(set u, v | u in net.ports && v in net.ports[u] :: Bpdu(u, v, u, net.stpCost[u])))
  }

  ghost predicate WellFormed(net: Net, s: State) {
    && net.Valid()
    && s.sw.Keys == net.ports.Keys
    && forall b :: b in s.flight ==> net.Linked(b.src, b.dst)
  }

  function Deliver(net: Net, s: State, b: Bpdu): State
    requires WellFormed(net, s) && b in s.flight
  {
    var v := b.dst;
    State(s.sw[v := Receive(b, v, s.sw[v], b.src)],
          s.flight - multiset{b}
          + multiset(Reaction(b, v, net.stpCost[v], s.sw[v], b.src, net.ports[v])))
  }

  ghost predicate Step(net: Net, s: State, t: State) {
    WellFormed(net, s) && exists b :: b in s.flight && t == Deliver(net, s, b)
  }

  ghost predicate Quiet(s: State) {
    s.flight == multiset{}
  }

  // ---------------------------------------------------------------------------------------------
  // The invariant
  // ---------------------------------------------------------------------------------------------

  /** (root id, cost) pairs in the order the protocol prefers them. */
  ghost predicate Leq(r: nat, c: nat, r': nat, c': nat) {
    r < r' || (r == r' && c <= c')
  }

  /** A sequence of switches, each linked to the next. */
  ghost predicate Walk(net: Net, p: seq<nat>) {
    && p != []
    && (forall i :: 0 <= i < |p| ==> p[i] in net.stpCost)
    && (forall i :: 0 <= i < |p| - 1 ==> net.Linked(p[i], p[i + 1]))
  }

  /** The cost of a walk: the cost of every switch on it except the last. */
  ghost function WalkCost(net: Net, p: seq<nat>): nat
    requires Walk(net, p)
  {
    if |p| == 1 then 0 else WalkCost(net, p[..|p| - 1]) + net.stpCost[p[|p| - 2]]
  }

  ghost predicate WalkTo(net: Net, p: seq<nat>, from: nat, to: nat, cost: int) {
    Walk(net, p) && p[0] == from && p[|p| - 1] == to && WalkCost(net, p) == cost
  }

  /** A walk that accounts for what a switch believes: the root port is its last link. */
  ghost predicate Accounts(net: Net, p: seq<nat>, u: nat, v: View) {
    && WalkTo(net, p, v.rootId, u, v.rootPathCost)
    && v.rootPort == if |p| == 1 then None else Some(p[|p| - 2])
  }

  /** A walk to the sender that accounts for what a BPDU says. */
  ghost predicate Backs(net: Net, p: seq<nat>, b: Bpdu) {
    b.src in net.stpCost && WalkTo(net, p, b.rootId, b.src, b.rootPathCost - net.stpCost[b.src])
  }

  /** Switch `u`'s BPDU for its present view, addressed to `v`. */
  ghost function Advert(net: Net, s: State, u: nat, v: nat): Bpdu
    requires WellFormed(net, s) && u in s.sw
  {
    Bpdu(u, v, s.sw[u].rootId, s.sw[u].rootPathCost + net.stpCost[u])
  }

  /** The view of `v` is at least as good as what `u` now advertises. */
  ghost predicate AtLeast(net: Net, s: State, v: nat, u: nat)
    requires WellFormed(net, s) && u in s.sw && v in s.sw
  {
    Leq(s.sw[v].rootId, s.sw[v].rootPathCost, s.sw[u].rootId, s.sw[u].rootPathCost + net.stpCost[u])
  }

  ghost predicate ViewOk(net: Net, s: State, u: nat)
    requires WellFormed(net, s) && u in s.sw
  {
    var v := s.sw[u];
    && v.rootId <= u
    && (v.rootId == u <==> v.rootPort == None)
    && (exists p :: Accounts(net, p, u, v))
    && (forall w :: v.rootPort == Some(w) ==>
          w in s.sw && Leq(s.sw[w].rootId, s.sw[w].rootPathCost + net.stpCost[w], v.rootId, v.rootPathCost))
  }

  ghost predicate BpduOk(net: Net, s: State, b: Bpdu)
    requires WellFormed(net, s) && b.src in s.sw
  {
    && Leq(s.sw[b.src].rootId, s.sw[b.src].rootPathCost + net.stpCost[b.src], b.rootId, b.rootPathCost)
    && exists p :: Backs(net, p, b)
  }

  /** What `u` advertises is on its way to `v`, or `v` already does as well. */
  ghost predicate Told(net: Net, s: State, u: nat, v: nat)
    requires WellFormed(net, s) && u in s.sw && v in s.sw
  {
    Advert(net, s, u, v) in s.flight || AtLeast(net, s, v, u)
  }

  ghost predicate RootLink(s: State, u: nat, v: nat)
    requires u in s.sw && v in s.sw
  {
    s.sw[u].rootPort == Some(v) || s.sw[v].rootPort == Some(u)
  }

  /** Both ends of the link still let frames out. */
  ghost predicate Open(s: State, u: nat, v: nat)
    requires u in s.sw && v in s.sw
  {
    v !in s.sw[u].blocked && u !in s.sw[v].blocked
  }

  /** A link is a root link, or cut at one end, or a BPDU that will settle it is in flight. */
  ghost predicate Settling(net: Net, s: State, u: nat, v: nat)
    requires WellFormed(net, s) && u in s.sw && v in s.sw
  {
    || RootLink(s, u, v)
    || !Open(s, u, v)
    || Advert(net, s, u, v) in s.flight
    || Advert(net, s, v, u) in s.flight
  }

  ghost predicate Inv(net: Net, s: State) {
    && WellFormed(net, s)
    && (forall u :: u in s.sw ==> ViewOk(net, s, u))
    && (forall b :: b in s.flight ==> BpduOk(net, s, b))
    && (forall u, v :: net.Linked(u, v) ==> Told(net, s, u, v))
    && (forall u, v :: net.Linked(u, v) ==> Settling(net, s, u, v))
  }

  lemma InitFlight(net: Net, b: Bpdu)
    requires net.Valid()
    ensures b in Init(net).flight <==>
      net.Linked(b.src, b.dst) && b.rootId == b.src && b.rootPathCost == net.stpCost[b.src]
  {
    var first := set u, v | u in net.ports && v in net.ports[u] :: Bpdu(u, v, u, net.stpCost[u]);
    assert b in Init(net).flight <==> b in first;
  }

  lemma InitWellFormed(net: Net)
    requires net.Valid()
    ensures WellFormed(net, Init(net))
  {
    forall b | b in Init(net).flight
      ensures net.Linked(b.src, b.dst)
    {
      InitFlight(net, b);
    }
  }

  lemma InitView(net: Net, u: nat)
    requires net.Valid() && WellFormed(net, Init(net)) && u in net.ports
    ensures ViewOk(net, Init(net), u)
  {
    assert Accounts(net, [u], u, View(u, 0, None, {}));
  }

  lemma InitBpdu(net: Net, b: Bpdu)
    requires net.Valid() && WellFormed(net, Init(net)) && b in Init(net).flight
    ensures BpduOk(net, Init(net), b)
  {
    InitFlight(net, b);
    assert Backs(net, [b.src], b);
  }

  lemma InitInv(net: Net)
    requires net.Valid()
    ensures Inv(net, Init(net))
  {
    var s := Init(net);
    InitWellFormed(net);
    forall u | u in s.sw
      ensures ViewOk(net, s, u)
    {
      InitView(net, u);
    }
    forall b | b in s.flight
      ensures BpduOk(net, s, b)
    {
      InitBpdu(net, b);
    }
    forall u, v | net.Linked(u, v)
      ensures Told(net, s, u, v) && Settling(net, s, u, v)
    {
      InitFlight(net, Advert(net, s, u, v));
    }
  }

  /** A switch's walk, one link longer. */
  lemma ExtendWalk(net: Net, p: seq<nat>, from: nat, to: nat, cost: nat, next: nat)
    requires net.Valid() && WalkTo(net, p, from, to, cost) && net.Linked(to, next)
    ensures WalkTo(net, p + [next], from, next, cost + net.stpCost[to])
    ensures (p + [next])[|p| - 1] == to
  {
    var q := p + [next];
    assert net.Linked(next, to);
    forall i | 0 <= i < |q| - 1
      ensures net.Linked(q[i], q[i + 1])
    {
      if i < |p| - 1 { assert net.Linked(p[i], p[i + 1]); }
    }
    assert q[..|q| - 1] == p;
  }

  lemma WalkPrefix(net: Net, p: seq<nat>)
    requires Walk(net, p) && |p| >= 2
    ensures Walk(net, p[..|p| - 1])
  {
    forall i | 0 <= i < |p| - 2
      ensures net.Linked(p[i], p[i + 1])
    {
    }
  }

  /** Any walk of two or more switches costs at least its first switch, and more if it is longer than one link. */
  lemma {:induction false} WalkFloor(net: Net, p: seq<nat>)
    requires net.Valid() && Walk(net, p) && |p| >= 2
    ensures WalkCost(net, p) >= net.stpCost[p[0]]
    ensures |p| > 2 ==> WalkCost(net, p) > net.stpCost[p[0]]
  {
    var q := p[..|p| - 1];
    WalkPrefix(net, p);
    if |p| == 2 {
      assert WalkCost(net, q) == 0;
    } else {
      WalkFloor(net, q);
    }
  }

  // ---------------------------------------------------------------------------------------------
  // Every delivery keeps the invariant
  // ---------------------------------------------------------------------------------------------

  /** The view of the receiver after a delivery. */
  ghost function After(net: Net, s: State, b: Bpdu): View
    requires WellFormed(net, s) && b in s.flight
  {
    Receive(b, b.dst, s.sw[b.dst], b.src)
  }

  /** The receiver prefers `b` to what it had, takes it, and will advertise it. */
  ghost predicate Taken(s: State, b: Bpdu) {
    b.dst in s.sw && Compare(b, b.dst, s.sw[b.dst], b.src) == Forward
  }

  /** What the proofs need to know of a delivery. */
  ghost predicate Follows(net: Net, s: State, b: Bpdu, t: State) {
    && WellFormed(net, s) && WellFormed(net, t) && b in s.flight && b.dst in s.sw && b.src in s.sw && b.src != b.dst
    && t.sw == s.sw[b.dst := After(net, s, b)]
    && (forall m :: m in s.flight && m != b ==> m in t.flight)
    && (forall m :: m in t.flight && m !in s.flight ==>
          && Taken(s, b) && net.Linked(b.dst, m.dst)
          && m == Bpdu(b.dst, m.dst, b.rootId, net.stpCost[b.dst] + b.rootPathCost))
    && (forall w :: Taken(s, b) && net.Linked(b.dst, w) && w != b.src ==>
          Bpdu(b.dst, w, b.rootId, net.stpCost[b.dst] + b.rootPathCost) in t.flight)
  }

  lemma DeliverFlight(net: Net, s: State, b: Bpdu, m: Bpdu)
    requires WellFormed(net, s) && b in s.flight
    ensures b.dst in s.sw
    ensures m in s.flight && m != b ==> m in Deliver(net, s, b).flight
    ensures m in Deliver(net, s, b).flight ==>
      || m in s.flight
      || (&& Taken(s, b) && net.Linked(b.dst, m.dst)
          && m == Bpdu(b.dst, m.dst, b.rootId, net.stpCost[b.dst] + b.rootPathCost))
    ensures Taken(s, b) && net.Linked(b.dst, m.dst) && m.dst != b.src
      && m == Bpdu(b.dst, m.dst, b.rootId, net.stpCost[b.dst] + b.rootPathCost)
      ==> m in Deliver(net, s, b).flight
  {
    hide Copies, Receive;
    assert net.Linked(b.dst, b.src);
    var out := Reaction(b, b.dst, net.stpCost[b.dst], s.sw[b.dst], b.src, net.ports[b.dst]);
    assert m in multiset(out) <==> m in out;
    CopiesMember(b.dst, b.rootId, net.stpCost[b.dst] + b.rootPathCost, Some(b.src), net.ports[b.dst], m);
  }

  lemma DeliverFollows(net: Net, s: State, b: Bpdu)
    requires WellFormed(net, s) && b in s.flight
    ensures Follows(net, s, b, Deliver(net, s, b))
  {
    var t := Deliver(net, s, b);
    assert net.Linked(b.dst, b.src);
    forall m
      ensures m in t.flight ==> net.Linked(m.src, m.dst)
      ensures m in s.flight && m != b ==> m in t.flight
    {
      DeliverFlight(net, s, b, m);
    }
    forall m | m in t.flight && m !in s.flight
      ensures Taken(s, b) && net.Linked(b.dst, m.dst)
      ensures m == Bpdu(b.dst, m.dst, b.rootId, net.stpCost[b.dst] + b.rootPathCost)
    {
      DeliverFlight(net, s, b, m);
    }
    forall w | Taken(s, b) && net.Linked(b.dst, w) && w != b.src
      ensures Bpdu(b.dst, w, b.rootId, net.stpCost[b.dst] + b.rootPathCost) in t.flight
    {
      DeliverFlight(net, s, b, Bpdu(b.dst, w, b.rootId, net.stpCost[b.dst] + b.rootPathCost));
    }
  }

  /** Views only get better. */
  lemma Improves(net: Net, s: State, b: Bpdu, t: State, w: nat)
    requires Follows(net, s, b, t) && w in s.sw
    ensures Leq(t.sw[w].rootId, t.sw[w].rootPathCost, s.sw[w].rootId, s.sw[w].rootPathCost)
  {
  }

  lemma OwnRootCostsNothing(net: Net, s: State, u: nat)
    requires WellFormed(net, s) && u in s.sw && ViewOk(net, s, u) && s.sw[u].rootId == u
    ensures s.sw[u].rootPathCost == 0
  {
    var p :| Accounts(net, p, u, s.sw[u]);
    assert |p| == 1;
  }

  /** A switch that takes a BPDU has a walk for it, through the sender. */
  lemma KeepsViewTaken(net: Net, s: State, b: Bpdu, t: State)
    requires Follows(net, s, b, t) && ViewOk(net, s, b.dst) && BpduOk(net, s, b) && Taken(s, b)
    ensures ViewOk(net, t, b.dst)
  {
    var u := b.dst;
    var p :| Backs(net, p, b);
    ExtendWalk(net, p, b.rootId, b.src, b.rootPathCost - net.stpCost[b.src], u);
    assert Accounts(net, p + [u], u, t.sw[u]);
  }

  lemma KeepsView(net: Net, s: State, b: Bpdu, t: State, u: nat)
    requires Follows(net, s, b, t) && u in s.sw && ViewOk(net, s, u)
    requires u != b.dst || !Taken(s, b)
    ensures ViewOk(net, t, u)
  {
    forall w | t.sw[u].rootPort == Some(w)
      ensures w in t.sw
      ensures Leq(t.sw[w].rootId, t.sw[w].rootPathCost + net.stpCost[w], t.sw[u].rootId, t.sw[u].rootPathCost)
    {
      Improves(net, s, b, t, w);
    }
    var p :| Accounts(net, p, u, s.sw[u]);
    assert Accounts(net, p, u, t.sw[u]);
  }

  lemma KeepsBpdu(net: Net, s: State, b: Bpdu, t: State, m: Bpdu)
    requires Follows(net, s, b, t) && m in t.flight
    requires BpduOk(net, s, b) && (m in s.flight ==> m.src in s.sw && BpduOk(net, s, m))
    ensures m.src in t.sw && BpduOk(net, t, m)
  {
    if m in s.flight {
      Improves(net, s, b, t, m.src);
    } else {
      var p :| Backs(net, p, b);
      ExtendWalk(net, p, b.rootId, b.src, b.rootPathCost - net.stpCost[b.src], b.dst);
      assert Backs(net, p + [b.dst], m);
    }
  }

  lemma KeepsTold(net: Net, s: State, b: Bpdu, t: State, x: nat, y: nat)
    requires Follows(net, s, b, t) && net.Linked(x, y)
    requires y in s.sw && Told(net, s, x, y) && BpduOk(net, s, b) && ViewOk(net, s, y)
    ensures Told(net, t, x, y)
  {
    assert net.Linked(y, x);
    Improves(net, s, b, t, y);
    if Advert(net, s, x, y) == b && s.sw[y].rootId == y {
      OwnRootCostsNothing(net, s, y);
    }
  }

  /** A switch that believes its neighbour `v` to be the root, and knows it at cost `v`'s own, hears it from `v`. */
  lemma NextToRoot(net: Net, s: State, x: nat, v: nat)
    requires WellFormed(net, s) && x in s.sw && v in s.sw && ViewOk(net, s, x) && x != v
    requires s.sw[x].rootId == v && s.sw[x].rootPathCost <= net.stpCost[v]
    ensures s.sw[x].rootPort == Some(v)
  {
    var p :| Accounts(net, p, x, s.sw[x]);
    WalkFloor(net, p);
  }

  /** A present advertisement that changes nothing crosses a link that is settled otherwise. */
  lemma IdleAdvert(net: Net, s: State, x: nat, v: nat)
    requires WellFormed(net, s) && net.Linked(x, v) && v in s.sw
    requires Told(net, s, v, x) && ViewOk(net, s, v) && ViewOk(net, s, x)
    requires Compare(Advert(net, s, x, v), v, s.sw[v], x) == DontForward
    ensures RootLink(s, x, v) || Advert(net, s, v, x) in s.flight
  {
    if s.sw[v].rootId == v && s.sw[x].rootId == v && Advert(net, s, v, x) !in s.flight {
      OwnRootCostsNothing(net, s, v);
      NextToRoot(net, s, x, v);
    }
  }

  /** The case of a link of the switch that gets the BPDU. */
  lemma KeepsSettlingAt(net: Net, s: State, b: Bpdu, t: State, x: nat)
    requires Follows(net, s, b, t) && net.Linked(x, b.dst) && Settling(net, s, x, b.dst)
    requires Told(net, s, b.dst, x) && ViewOk(net, s, b.dst) && ViewOk(net, s, x)
    ensures Settling(net, t, x, b.dst)
  {
    hide ViewOk;
    assert net.Linked(b.dst, x);
    if Advert(net, s, x, b.dst) == b && Compare(b, b.dst, s.sw[b.dst], b.src) == DontForward {
      IdleAdvert(net, s, x, b.dst);
    }
  }

  lemma KeepsSettling(net: Net, s: State, b: Bpdu, t: State, x: nat, y: nat)
    requires Follows(net, s, b, t) && net.Linked(x, y)
    requires y in s.sw && Settling(net, s, x, y) && ViewOk(net, s, x) && ViewOk(net, s, y)
    requires Told(net, s, x, y) && Told(net, s, y, x)
    ensures Settling(net, t, x, y)
  {
    assert net.Linked(y, x);
    if y == b.dst {
      KeepsSettlingAt(net, s, b, t, x);
    } else if x == b.dst {
      KeepsSettlingAt(net, s, b, t, y);
    }
  }

  lemma DeliverInv(net: Net, s: State, b: Bpdu)
    requires Inv(net, s) && b in s.flight
    ensures Inv(net, Deliver(net, s, b))
  {
    var t := Deliver(net, s, b);
    DeliverFollows(net, s, b);
    forall u | u in t.sw
      ensures ViewOk(net, t, u)
    {
      if u == b.dst && Taken(s, b) {
        KeepsViewTaken(net, s, b, t);
      } else {
        KeepsView(net, s, b, t, u);
      }
    }
    forall m | m in t.flight
      ensures BpduOk(net, t, m)
    {
      KeepsBpdu(net, s, b, t, m);
    }
    forall u, v | net.Linked(u, v)
      ensures Told(net, t, u, v) && Settling(net, t, u, v)
    {
      assert net.Linked(v, u);
      KeepsTold(net, s, b, t, u, v);
      KeepsSettling(net, s, b, t, u, v);
    }
  }

  // ---------------------------------------------------------------------------------------------
  // Every reachable state: root ports never form a cycle
  // ---------------------------------------------------------------------------------------------

  ghost predicate Better(s: State, w: nat, u: nat)
    requires w in s.sw && u in s.sw
  {
    && Leq(s.sw[w].rootId, s.sw[w].rootPathCost, s.sw[u].rootId, s.sw[u].rootPathCost)
    && (s.sw[w].rootId, s.sw[w].rootPathCost) != (s.sw[u].rootId, s.sw[u].rootPathCost)
  }

  lemma RootPortDescends(net: Net, s: State, u: nat, w: nat)
    requires Inv(net, s) && u in s.sw && s.sw[u].rootPort == Some(w)
    ensures w in s.sw && Better(s, w, u)
  {
    assert ViewOk(net, s, u);
    assert net.stpCost[w] > 0;
  }

  /** Each switch's root port leads to the next. */
  ghost predicate RootChain(s: State, p: seq<nat>) {
    && (forall i :: 0 <= i < |p| ==> p[i] in s.sw)
    && (forall i :: 0 <= i < |p| - 1 ==> s.sw[p[i]].rootPort == Some(p[i + 1]))
  }

  lemma {:induction false} ChainDescends(s: State, p: seq<nat>)
    requires |p| >= 2 && RootChain(s, p)
    requires forall u, w :: u in s.sw && w in s.sw && s.sw[u].rootPort == Some(w) ==> Better(s, w, u)
    ensures Better(s, p[|p| - 1], p[0])
  {
    if |p| > 2 {
      ChainDescends(s, p[..|p| - 1]);
    }
  }

  lemma RootPortsAcyclic(net: Net, s: State, p: seq<nat>)
    requires Inv(net, s) && |p| >= 2 && RootChain(s, p)
    ensures Better(s, p[|p| - 1], p[0])
    ensures p[|p| - 1] != p[0]
  {
    forall u, w | u in s.sw && w in s.sw && s.sw[u].rootPort == Some(w)
      ensures Better(s, w, u)
    {
      RootPortDescends(net, s, u, w);
    }
    ChainDescends(s, p);
  }

  // ---------------------------------------------------------------------------------------------
  // Quiet states: no loop of open links
  // ---------------------------------------------------------------------------------------------

  function Succ(n: nat, i: nat): (j: nat)
    requires i < n
    ensures j < n
  {
    if i + 1 < n then i + 1 else 0
  }

  /** Distinct switches in a ring, each joined to the next by a link open at both ends. */
  ghost predicate Loop(net: Net, s: State, p: seq<nat>) {
    && |p| >= 3
    && (forall i :: 0 <= i < |p| ==> p[i] in s.sw)
    && (forall i, j :: 0 <= i < j < |p| ==> p[i] != p[j])
    && (forall i :: 0 <= i < |p| ==> net.Linked(p[i], p[Succ(|p|, i)]) && Open(s, p[i], p[Succ(|p|, i)]))
  }

  lemma {:induction false} WorstOf(s: State, p: seq<nat>) returns (k: nat)
    requires p != [] && forall i :: 0 <= i < |p| ==> p[i] in s.sw
    ensures k < |p| && forall i :: 0 <= i < |p| ==> !Better(s, p[k], p[i])
  {
    k := 0;
    for n := 1 to |p|
      invariant k < n && forall i :: 0 <= i < n ==> !Better(s, p[k], p[i])
    {
      if Better(s, p[k], p[n]) {
        k := n;
      }
    }
  }

  /** Key lemma: a link that is neither end's root-port link has a blocked end. */
  lemma OpenLinksAreRootLinks(net: Net, s: State, u: nat, v: nat)
    requires Inv(net, s) && Quiet(s) && net.Linked(u, v)
    ensures v in s.sw && (RootLink(s, u, v) || !Open(s, u, v))
  {
    assert net.Linked(v, u);
    assert Settling(net, s, u, v);
  }

  lemma QuietLoopFree(net: Net, s: State, p: seq<nat>)
    requires Inv(net, s) && Quiet(s)
    ensures !Loop(net, s, p)
  {
    if Loop(net, s, p) {
      var k := WorstOf(s, p);
      var j := if k == 0 then |p| - 1 else k - 1;
      assert Succ(|p|, j) == k;
      OnlyRootPortOfWorst(net, s, p[k], p[Succ(|p|, k)]);
      assert net.Linked(p[j], p[k]) && Open(s, p[j], p[k]);
      OnlyRootPortOfWorst(net, s, p[k], p[j]);
      assert false;
    }
  }

  /** An open link from a switch to one that is not worse is its root port. */
  lemma OnlyRootPortOfWorst(net: Net, s: State, u: nat, v: nat)
    requires Inv(net, s) && Quiet(s) && u in s.sw && v in s.sw && net.Linked(u, v) && Open(s, u, v)
    requires !Better(s, u, v)
    ensures s.sw[u].rootPort == Some(v)
  {
    OpenLinksAreRootLinks(net, s, u, v);
    if s.sw[v].rootPort == Some(u) {
      RootPortDescends(net, s, v, u);
    }
  }

  // ---------------------------------------------------------------------------------------------
  // Quiet states: the least root at the least cost
  // ---------------------------------------------------------------------------------------------

  /** Every switch does at least as well as each neighbour now offers. */
  ghost predicate Relaxed(net: Net, s: State) {
    WellFormed(net, s) && forall u, v :: net.Linked(u, v) ==> v in s.sw && AtLeast(net, s, v, u)
  }

  lemma QuietRelaxed(net: Net, s: State)
    requires Inv(net, s) && Quiet(s)
    ensures Relaxed(net, s)
  {
    forall u, v | net.Linked(u, v)
      ensures v in s.sw && AtLeast(net, s, v, u)
    {
      assert net.Linked(v, u);
      assert Told(net, s, u, v);
    }
  }

  /** Along any walk, views are no worse than the first switch's plus the walk. */
  lemma {:induction false} RelaxedBound(net: Net, s: State, p: seq<nat>)
    requires Relaxed(net, s) && Walk(net, p)
    ensures var u, v := s.sw[p[0]], s.sw[p[|p| - 1]];
      Leq(v.rootId, v.rootPathCost, u.rootId, u.rootPathCost + WalkCost(net, p))
  {
    if |p| > 1 {
      WalkPrefix(net, p);
      RelaxedBound(net, s, p[..|p| - 1]);
      assert net.Linked(p[|p| - 2], p[|p| - 1]);
    }
  }

  /** `v` holds the least id of all switches that can reach it, at the least cost of any walk from there. */
  ghost predicate Converged(net: Net, s: State, v: nat)
    requires v in s.sw
  {
    && (exists p :: WalkTo(net, p, s.sw[v].rootId, v, s.sw[v].rootPathCost))
    && (forall p :: Walk(net, p) && p[|p| - 1] == v ==> s.sw[v].rootId <= p[0])
    && (forall p :: Walk(net, p) && p[0] == s.sw[v].rootId && p[|p| - 1] == v ==>
          s.sw[v].rootPathCost <= WalkCost(net, p))
  }

  lemma QuietConverged(net: Net, s: State, v: nat)
    requires Inv(net, s) && Quiet(s) && v in s.sw
    ensures Converged(net, s, v)
  {
    QuietRelaxed(net, s);
    assert ViewOk(net, s, v);
    var p :| Accounts(net, p, v, s.sw[v]);
    assert WalkTo(net, p, s.sw[v].rootId, v, s.sw[v].rootPathCost);
    forall q | Walk(net, q) && q[|q| - 1] == v
      ensures s.sw[v].rootId <= q[0]
      ensures q[0] == s.sw[v].rootId ==> s.sw[v].rootPathCost <= WalkCost(net, q)
    {
      RelaxedBound(net, s, q);
      assert ViewOk(net, s, q[0]);
      if q[0] == s.sw[v].rootId && s.sw[q[0]].rootId == q[0] {
        OwnRootCostsNothing(net, s, q[0]);
      }
    }
  }

  // ---------------------------------------------------------------------------------------------
  // Termination
  // ---------------------------------------------------------------------------------------------

  ghost function Total(ks: set<nat>, f: map<nat, nat>): nat
    requires ks <= f.Keys
  {
    if ks == {} then 0 else var k :| k in ks; f[k] + Total(ks - {k}, f)
  }

  lemma {:induction false} TotalTakes(ks: set<nat>, f: map<nat, nat>, k: nat)
    requires k in ks && ks <= f.Keys
    ensures Total(ks, f) == f[k] + Total(ks - {k}, f)
  {
    var j :| j in ks && Total(ks, f) == f[j] + Total(ks - {j}, f);
    if j != k {
      TotalTakes(ks - {j}, f, k);
      TotalTakes(ks - {k}, f, j);
      assert ks - {j} - {k} == ks - {k} - {j};
    }
  }

  lemma {:induction false} TotalSame(ks: set<nat>, f: map<nat, nat>, g: map<nat, nat>)
    requires ks <= f.Keys && ks <= g.Keys && forall k :: k in ks ==> f[k] == g[k]
    ensures Total(ks, f) == Total(ks, g)
  {
    if ks != {} {
      var k :| k in ks;
      TotalTakes(ks, f, k);
      TotalTakes(ks, g, k);
      TotalSame(ks - {k}, f, g);
    }
  }

  /** Changing one value changes the total by as much. */
  lemma TotalChange(f: map<nat, nat>, g: map<nat, nat>, k: nat)
    requires k in f && f.Keys == g.Keys && forall j :: j in f && j != k ==> f[j] == g[j]
    ensures Total(g.Keys, g) - g[k] == Total(f.Keys, f) - f[k]
  {
    TotalTakes(f.Keys, f, k);
    TotalTakes(g.Keys, g, k);
    TotalSame(f.Keys - {k}, f, g);
  }

  ghost function Roots(s: State): nat {
    var f := map u | u in s.sw :: s.sw[u].rootId;
    Total(f.Keys, f)
  }

  ghost function Costs(s: State): nat {
    var f := map u | u in s.sw :: s.sw[u].rootPathCost;
    Total(f.Keys, f)
  }

  ghost predicate Smaller(t: State, s: State) {
    || Roots(t) < Roots(s)
    || (Roots(t) == Roots(s) && Costs(t) < Costs(s))
    || (Roots(t) == Roots(s) && Costs(t) == Costs(s) && |t.flight| < |s.flight|)
  }

  /** The totals change as the receiver's view does. */
  lemma DeliverTotals(net: Net, s: State, b: Bpdu)
    requires WellFormed(net, s) && b in s.flight
    ensures b.dst in s.sw
    ensures var t, v := Deliver(net, s, b), b.dst;
      && Roots(t) - t.sw[v].rootId == Roots(s) - s.sw[v].rootId
      && Costs(t) - t.sw[v].rootPathCost == Costs(s) - s.sw[v].rootPathCost
  {
    var t, v := Deliver(net, s, b), b.dst;
    assert net.Linked(v, b.src);
    TotalChange(map u | u in s.sw :: s.sw[u].rootId, map u | u in t.sw :: t.sw[u].rootId, v);
    TotalChange(map u | u in s.sw :: s.sw[u].rootPathCost, map u | u in t.sw :: t.sw[u].rootPathCost, v);
  }

  lemma DeliverShrinks(net: Net, s: State, b: Bpdu)
    requires WellFormed(net, s) && b in s.flight
    ensures Smaller(Deliver(net, s, b), s)
  {
    DeliverTotals(net, s, b);
  }

  // ---------------------------------------------------------------------------------------------
  // Runs
  // ---------------------------------------------------------------------------------------------

  /** A run: from the start, each state follows from the one before by a delivery; a quiet state stays. */
  ghost predicate Run(net: Net, run: nat -> State) {
    && net.Valid()
    && run(0) == Init(net)
    && forall i: nat :: Next(net, run(i), run(i + 1))
  }

  ghost predicate Next(net: Net, s: State, t: State) {
    if Quiet(s) then t == s else Step(net, s, t)
  }

  lemma {:induction false} RunInv(net: Net, run: nat -> State, n: nat)
    requires Run(net, run)
    ensures Inv(net, run(n))
  {
    if n == 0 {
      InitInv(net);
    } else {
      RunInv(net, run, n - 1);
      assert Next(net, run(n - 1), run(n - 1 + 1));
      if !Quiet(run(n - 1)) {
        var b :| b in run(n - 1).flight && run(n) == Deliver(net, run(n - 1), b);
        DeliverInv(net, run(n - 1), b);
      }
    }
  }

  lemma {:induction false} QuietEventually(net: Net, run: nat -> State, n: nat) returns (q: nat)
    requires Run(net, run)
    ensures q >= n && Quiet(run(q))
    decreases Roots(run(n)), Costs(run(n)), |run(n).flight|
  {
    if Quiet(run(n)) {
      q := n;
    } else {
      assert Next(net, run(n), run(n + 1));
      var b :| b in run(n).flight && run(n + 1) == Deliver(net, run(n), b);
      DeliverShrinks(net, run(n), b);
      q := QuietEventually(net, run, n + 1);
    }
  }

  /** In every state of every run, each view is witnessed by a real walk and root ports form no cycle. */
  lemma AlwaysSound(net: Net, run: nat -> State, n: nat)
    requires Run(net, run)
    ensures run(n).sw.Keys == net.ports.Keys
    ensures forall u :: u in run(n).sw ==> exists p :: Accounts(net, p, u, run(n).sw[u])
    ensures forall p :: |p| >= 2 && RootChain(run(n), p) ==> p[|p| - 1] != p[0]
  {
    RunInv(net, run, n);
    forall u | u in run(n).sw
      ensures exists p :: Accounts(net, p, u, run(n).sw[u])
    {
      assert ViewOk(net, run(n), u);
    }
    forall p | |p| >= 2 && RootChain(run(n), p)
      ensures p[|p| - 1] != p[0]
    {
      RootPortsAcyclic(net, run(n), p);
    }
  }

  /**
    What handling a BPDU does, in terms of the order on (root id, cost) pairs: a switch takes it exactly
    when it is strictly better than its view, and blocks the port exactly when it is not the root and hears
    of its own root at a cost no lower, other than its own cost on its root port.
   */
  lemma ReceiveExactly(b: Bpdu, id: nat, v: View, port: nat)
    requires v.rootId == id ==> v.rootPathCost == 0
    ensures var w := Receive(b, id, v, port);
      && (!Leq(v.rootId, v.rootPathCost, b.rootId, b.rootPathCost)
          ==> w == View(b.rootId, b.rootPathCost, Some(port), v.blocked))
      && (Leq(v.rootId, v.rootPathCost, b.rootId, b.rootPathCost)
          ==> w == View(v.rootId, v.rootPathCost, v.rootPort, w.blocked))
      && (w.blocked == v.blocked || w.blocked == v.blocked + {port})
      && (port !in v.blocked ==>
            (port in w.blocked <==>
             && v.rootId != id && b.rootId == v.rootId
             && (b.rootPathCost > v.rootPathCost
                 || (b.rootPathCost == v.rootPathCost && v.rootPort != Some(port)))))
  {
  }

  /** A switch that is its own root after handling a BPDU was so before, and blocks nothing by it. */
  lemma RootBlocksNothing(net: Net, s: State, b: Bpdu, t: State, u: nat)
    requires Follows(net, s, b, t) && u in s.sw && ViewOk(net, s, u) && t.sw[u].rootId == u
    ensures s.sw[u].rootId == u && t.sw[u].blocked == s.sw[u].blocked
  {
    hide Compare, WellFormed;
    Improves(net, s, b, t, u);
    assert s.sw[u].rootId == u;
    if u == b.dst {
      OwnRootCostsNothing(net, s, u);
      ReceiveExactly(b, u, s.sw[u], b.src);
    }
  }

  /** In every state of every run, a switch that is its own root lets frames out of all its ports. */
  lemma {:induction false} RootKeepsPorts(net: Net, run: nat -> State, n: nat, u: nat)
    requires Run(net, run) && u in run(n).sw && run(n).sw[u].rootId == u
    ensures run(n).sw[u].blocked == {}
  {
    if n > 0 {
      RunInv(net, run, n - 1);
      assert Next(net, run(n - 1), run(n - 1 + 1));
      if !Quiet(run(n - 1)) {
        var b :| b in run(n - 1).flight && run(n) == Deliver(net, run(n - 1), b);
        DeliverFollows(net, run(n - 1), b);
        RootBlocksNothing(net, run(n - 1), b, run(n), u);
      }
      RootKeepsPorts(net, run, n - 1, u);
    }
  }

  /** Every run falls quiet, and a quiet state has converged and has no loop of open links. */
  lemma EveryRunSettles(net: Net, run: nat -> State)
    requires Run(net, run)
    ensures exists q :: Quiet(run(q))
    ensures forall q, v :: Quiet(run(q)) && v in net.ports ==> v in run(q).sw && Converged(net, run(q), v)
    ensures forall q, p :: Quiet(run(q)) ==> !Loop(net, run(q), p)
  {
    var q := QuietEventually(net, run, 0);
    forall q, v | Quiet(run(q)) && v in net.ports
      ensures v in run(q).sw && Converged(net, run(q), v)
    {
      RunInv(net, run, q);
      QuietConverged(net, run(q), v);
    }
    forall q, p | Quiet(run(q))
      ensures !Loop(net, run(q), p)
    {
      RunInv(net, run, q);
      QuietLoopFree(net, run(q), p);
    }
  }

  /** Delivering BPDUs in any order until none is left always ends, in a converged state without loops. */
  method Settle(net: Net) returns (s: State)
    requires net.Valid()
    ensures Quiet(s) && s.sw.Keys == net.ports.Keys
    ensures forall v :: v in s.sw ==> Converged(net, s, v)
    ensures forall p :: !Loop(net, s, p)
  {
    s := Init(net);
    InitInv(net);
    while s.flight != multiset{}
      invariant Inv(net, s)
      decreases Roots(s), Costs(s), |s.flight|
    {
      var b :| b in s.flight;
      DeliverInv(net, s, b);
      DeliverShrinks(net, s, b);
      s := Deliver(net, s, b);
    }
    forall v | v in s.sw
      ensures Converged(net, s, v)
    {
      QuietConverged(net, s, v);
    }
    forall p
      ensures !Loop(net, s, p)
    {
      QuietLoopFree(net, s, p);
    }
  }
}
