/**
  What the spanning-tree protocol of the switches leaves open. A settled network has no loop of open
  links; here is exactly when its open links still connect every switch to the root, and a network in
  which they do not: a blocked port stays blocked, even if it becomes the root port.
 */
module SpanningTreeReach {
  import opened Basics
  import opened SpanningTree

  /** A walk over links open at both ends. */
  ghost predicate OpenWalk(net: Net, s: State, p: seq<nat>) {
    && Walk(net, p)
    && (forall i :: 0 <= i < |p| ==> p[i] in s.sw)
    && (forall i :: 0 <= i < |p| - 1 ==> Open(s, p[i], p[i + 1]))
  }

  ghost predicate OpenWalkBetween(net: Net, s: State, p: seq<nat>, v: nat, w: nat) {
    OpenWalk(net, s, p) && p[0] == v && p[|p| - 1] == w
  }

  /** Open links lead from `v` to the root it holds. */
  ghost predicate Connected(net: Net, s: State, v: nat)
    requires v in s.sw
  {
    exists p :: OpenWalkBetween(net, s, p, v, s.sw[v].rootId)
  }

  /** The link of `v`'s root port is open. */
  ghost predicate RootPortOpen(s: State, v: nat)
    requires v in s.sw
  {
    forall w :: s.sw[v].rootPort == Some(w) && w in s.sw ==> Open(s, v, w)
  }

  /** In a quiet state a root port leads to a switch with the same root, at the difference of its cost. */
  lemma RootPortAgrees(net: Net, s: State, v: nat, w: nat)
    requires Inv(net, s) && Quiet(s) && v in s.sw && s.sw[v].rootPort == Some(w)
    ensures w in s.sw && net.Linked(v, w) && net.Linked(w, v)
    ensures s.sw[w].rootId == s.sw[v].rootId && s.sw[v].rootPathCost == s.sw[w].rootPathCost + net.stpCost[w]
    ensures s.sw[w].rootPathCost < s.sw[v].rootPathCost
  {
    QuietRelaxed(net, s);
    assert ViewOk(net, s, v);
    var p :| Accounts(net, p, v, s.sw[v]);
    assert net.Linked(p[|p| - 2], p[|p| - 1]);
    assert AtLeast(net, s, v, w);
  }

  lemma RootlessIsOwnRoot(net: Net, s: State, v: nat)
    requires Inv(net, s) && v in s.sw && s.sw[v].rootPort == None
    ensures s.sw[v].rootId == v && v in net.stpCost
  {
    assert ViewOk(net, s, v);
  }

  lemma WalkToSelf(net: Net, s: State, v: nat)
    requires v in s.sw && v in net.stpCost
    ensures OpenWalkBetween(net, s, [v], v, v)
  {
  }

  lemma InNet(net: Net, s: State, v: nat)
    requires Inv(net, s) && v in s.sw
    ensures v in net.stpCost
  {
  }

  lemma {:induction false} RootPortsConnect(net: Net, s: State, v: nat)
    requires Inv(net, s) && Quiet(s) && v in s.sw && forall u :: u in s.sw ==> RootPortOpen(s, u)
    ensures Connected(net, s, v)
    decreases s.sw[v].rootPathCost
  {
    hide Inv, WellFormed, Quiet;
    match s.sw[v].rootPort
    case None =>
      RootlessIsOwnRoot(net, s, v);
      WalkToSelf(net, s, v);
    case Some(w) =>
      RootPortAgrees(net, s, v, w);
      RootPortsConnect(net, s, w);
      assert RootPortOpen(s, v) && Open(s, v, w);
      hide OpenWalkBetween, Open;
      InNet(net, s, v);
      var p :| OpenWalkBetween(net, s, p, w, s.sw[w].rootId);
      OpenWalkFront(net, s, v, w, s.sw[w].rootId, p);
  }

  lemma OpenWalkFront(net: Net, s: State, v: nat, w: nat, r: nat, p: seq<nat>)
    requires OpenWalkBetween(net, s, p, w, r)
    requires v in s.sw && w in s.sw && v in net.stpCost && net.Linked(v, w) && Open(s, v, w)
    ensures OpenWalkBetween(net, s, [v] + p, v, r)
  {
    hide Open;
    var q := [v] + p;
    forall i | 0 <= i < |q| - 1
      ensures net.Linked(q[i], q[i + 1]) && Open(s, q[i], q[i + 1])
    {
      if i > 0 {
        assert q[i] == p[i - 1] && q[i + 1] == p[i - 1 + 1];
      }
    }
  }

  /** Root ports lead from `x` to `v`. */
  ghost predicate Below(s: State, x: nat, v: nat) {
    exists p :: p != [] && RootChain(s, p) && p[0] == x && p[|p| - 1] == v
  }

  /** An open link from a switch below `v`, whose own root link is cut, stays below `v`. */
  lemma StaysBelow(net: Net, s: State, v: nat, x: nat, y: nat)
    requires Inv(net, s) && Quiet(s) && v in s.sw && !RootPortOpen(s, v)
    requires Below(s, x, v) && x in s.sw && y in s.sw && net.Linked(x, y) && Open(s, x, y)
    ensures Below(s, y, v)
  {
    OpenLinksAreRootLinks(net, s, x, y);
    hide Inv, WellFormed, Quiet, Below, Open;
    if s.sw[x].rootPort == Some(y) {
      BelowDown(s, x, y, v);
    } else {
      BelowUp(s, x, y, v);
    }
  }

  lemma BelowDown(s: State, x: nat, y: nat, v: nat)
    requires Below(s, x, v) && x != v && x in s.sw && s.sw[x].rootPort == Some(y)
    ensures Below(s, y, v)
  {
    var p :| p != [] && RootChain(s, p) && p[0] == x && p[|p| - 1] == v;
    var q := p[1..];
    assert s.sw[p[0]].rootPort == Some(p[0 + 1]);
    assert RootChain(s, q) && q[0] == y && q[|q| - 1] == v;
  }

  lemma BelowHasRootPort(s: State, x: nat, v: nat)
    requires Below(s, x, v) && x != v && x in s.sw
    ensures s.sw[x].rootPort != None
  {
    var p :| p != [] && RootChain(s, p) && p[0] == x && p[|p| - 1] == v;
    assert s.sw[p[0]].rootPort == Some(p[0 + 1]);
  }

  lemma BelowUp(s: State, x: nat, y: nat, v: nat)
    requires Below(s, x, v) && y in s.sw && s.sw[y].rootPort == Some(x)
    ensures Below(s, y, v)
  {
    var p :| p != [] && RootChain(s, p) && p[0] == x && p[|p| - 1] == v;
    var q := [y] + p;
    forall i | 0 <= i < |q| - 1
      ensures s.sw[q[i]].rootPort == Some(q[i + 1])
    {
      if i > 0 {
        assert q[i] == p[i - 1] && q[i + 1] == p[i - 1 + 1];
      }
    }
    assert RootChain(s, q) && q[0] == y && q[|q| - 1] == v;
  }

  lemma BelowSelf(s: State, v: nat)
    requires v in s.sw
    ensures Below(s, v, v)
  {
    assert RootChain(s, [v]);
  }

  lemma OpenWalkPrefix(net: Net, s: State, p: seq<nat>)
    requires OpenWalk(net, s, p) && |p| >= 2
    ensures OpenWalk(net, s, p[..|p| - 1])
    ensures p[|p| - 2] in s.sw && p[|p| - 1] in s.sw
    ensures net.Linked(p[|p| - 2], p[|p| - 1]) && Open(s, p[|p| - 2], p[|p| - 1])
  {
    hide Open;
    WalkPrefix(net, p);
    assert net.Linked(p[|p| - 2], p[|p| - 2 + 1]) && Open(s, p[|p| - 2], p[|p| - 2 + 1]);
  }

  lemma {:induction false} WalkStaysBelow(net: Net, s: State, v: nat, p: seq<nat>)
    requires Inv(net, s) && Quiet(s) && v in s.sw && !RootPortOpen(s, v)
    requires OpenWalk(net, s, p) && p[0] == v
    ensures Below(s, p[|p| - 1], v)
  {
    hide Inv, WellFormed, Quiet, Open, RootPortOpen;
    if |p| == 1 {
      BelowSelf(s, v);
    } else {
      var q := p[..|p| - 1];
      OpenWalkPrefix(net, s, p);
      hide OpenWalk, Below;
      WalkStaysBelow(net, s, v, q);
      StaysBelow(net, s, v, p[|p| - 2], p[|p| - 1]);
    }
  }

  /** In a quiet state the root of a switch holds itself as root. */
  lemma RootIsRoot(net: Net, s: State, v: nat)
    requires Inv(net, s) && Quiet(s) && v in s.sw
    ensures s.sw[v].rootId in s.sw && s.sw[s.sw[v].rootId].rootPort == None
  {
    var r := s.sw[v].rootId;
    assert ViewOk(net, s, v);
    var p :| Accounts(net, p, v, s.sw[v]);
    assert p[0] == r;
    QuietRelaxed(net, s);
    RelaxedBound(net, s, p);
    assert ViewOk(net, s, r);
  }

  lemma CutRootLinkDisconnects(net: Net, s: State, v: nat)
    requires Inv(net, s) && Quiet(s) && v in s.sw && !RootPortOpen(s, v)
    ensures !Connected(net, s, v)
  {
    hide Inv, WellFormed, Quiet, Open;
    if Connected(net, s, v) {
      var r := s.sw[v].rootId;
      var p :| OpenWalkBetween(net, s, p, v, r);
      WalkStaysBelow(net, s, v, p);
      RootIsRoot(net, s, v);
      if r != v {
        BelowHasRootPort(s, r, v);
      }
    }
  }

  /** Once the protocol is quiet, open links connect every switch to its root exactly when every root port's link is open. */
  lemma ConnectedExactly(net: Net, s: State)
    requires Inv(net, s) && Quiet(s)
    ensures (forall v :: v in s.sw ==> Connected(net, s, v)) <==> (forall v :: v in s.sw ==> RootPortOpen(s, v))
  {
    forall v | v in s.sw && !RootPortOpen(s, v)
      ensures !Connected(net, s, v)
    {
      CutRootLinkDisconnects(net, s, v);
    }
    if forall v :: v in s.sw ==> RootPortOpen(s, v) {
      forall v | v in s.sw
        ensures Connected(net, s, v)
      {
        RootPortsConnect(net, s, v);
      }
    }
  }

  // ---------------------------------------------------------------------------------------------
  // A network that the protocol cuts apart
  // ---------------------------------------------------------------------------------------------

  /** Deliveries in order. */
  ghost predicate Delivers(net: Net, s: State, bs: seq<Bpdu>, t: State)
    decreases |bs|
  {
    if bs == [] then s == t
    else WellFormed(net, s) && bs[0] in s.flight && Delivers(net, Deliver(net, s, bs[0]), bs[1..], t)
  }

  /** Ports that are blocked stay blocked. */
  ghost predicate KeepsBlocked(s: State, t: State) {
    s.sw.Keys == t.sw.Keys && forall u :: u in s.sw ==> s.sw[u].blocked <= t.sw[u].blocked
  }

  lemma DeliverKeepsBlocked(net: Net, s: State, b: Bpdu)
    requires WellFormed(net, s) && b in s.flight
    ensures KeepsBlocked(s, Deliver(net, s, b))
  {
    DeliverFollows(net, s, b);
  }

  /** From any reachable state some deliveries lead to a quiet one. */
  lemma {:induction false} Quieten(net: Net, s: State) returns (bs: seq<Bpdu>, t: State)
    requires Inv(net, s)
    ensures Delivers(net, s, bs, t) && Inv(net, t) && Quiet(t) && KeepsBlocked(s, t)
    decreases Roots(s), Costs(s), |s.flight|
  {
    InvFormed(net, s);
    hide Inv, WellFormed, Roots, Costs, Deliver, KeepsBlocked, Delivers, Quiet;
    if Quiet(s) {
      bs, t := [], s;
      KeepsOwnBlocked(net, s);
    } else {
      NoneMeansEmpty(s.flight);
      var b :| b in s.flight;
      DeliverInv(net, s, b);
      DeliverShrinks(net, s, b);
      DeliverKeepsBlocked(net, s, b);
      var more;
      more, t := Quieten(net, Deliver(net, s, b));
      bs := [b] + more;
      DeliversFront(net, s, b, more, t);
      KeepsBlockedTwice(s, Deliver(net, s, b), t);
    }
  }

  lemma InvFormed(net: Net, s: State)
    requires Inv(net, s)
    ensures WellFormed(net, s)
  {
  }

  lemma DeliversFront(net: Net, s: State, b: Bpdu, bs: seq<Bpdu>, t: State)
    requires WellFormed(net, s) && b in s.flight && Delivers(net, Deliver(net, s, b), bs, t)
    ensures Delivers(net, s, [b] + bs, t)
  {
    hide WellFormed, Deliver;
    assert ([b] + bs)[1..] == bs;
  }

  lemma KeepsOwnBlocked(net: Net, s: State)
    ensures KeepsBlocked(s, s) && Delivers(net, s, [], s)
  {
  }

  lemma KeepsBlockedTwice(s: State, t: State, u: State)
    requires KeepsBlocked(s, t) && KeepsBlocked(t, u)
    ensures KeepsBlocked(s, u)
  {
  }

  /** Switch 1 hangs on switch 3; switches 2, 3 and 4 form a triangle. Every cost is 1. */
  function Kite(): Net {
    Net(map[1 := 1, 2 := 1, 3 := 1, 4 := 1], map[1 := [3], 2 := [3, 4], 3 := [1, 2, 4], 4 := [3, 2]])
  }

  lemma KiteFacts()
    ensures Kite().Valid()
    ensures Kite().Linked(2, 4) && Kite().Linked(2, 3) && Kite().Linked(3, 4) && Kite().Linked(1, 3)
    ensures Kite().stpCost == map[1 := 1, 2 := 1, 3 := 1, 4 := 1]
  {
  }

  lemma KiteStarts(u: nat, v: nat)
    requires Kite().Valid() && Kite().Linked(u, v)
    ensures Bpdu(u, v, u, 1) in Init(Kite()).flight
  {
    InitFlight(Kite(), Bpdu(u, v, u, 1));
  }

  /** What a delivery does: to the receiver, to the others, and to the flight. */
  lemma DeliverFacts(net: Net, s: State, b: Bpdu) returns (t: State)
    requires Inv(net, s) && b in s.flight
    ensures WellFormed(net, s) && t == Deliver(net, s, b) && Inv(net, t) && b.dst in s.sw && b.dst in net.stpCost
    ensures t.sw == s.sw[b.dst := Receive(b, b.dst, s.sw[b.dst], b.src)]
    ensures forall m :: m in s.flight && m != b ==> m in t.flight
    ensures forall w :: Taken(s, b) && net.Linked(b.dst, w) && w != b.src ==>
      Bpdu(b.dst, w, b.rootId, net.stpCost[b.dst] + b.rootPathCost) in t.flight
  {
    InvFormed(net, s);
    t := Deliver(net, s, b);
    DeliverInv(net, s, b);
    DeliverFollows(net, s, b);
    hide Inv, Deliver, WellFormed, Receive, Taken;
    assert b.dst in t.sw;
    InNet(net, s, b.dst);
  }

  lemma InitSw(net: Net, u: nat)
    requires net.Valid() && u in net.ports
    ensures u in Init(net).sw && Init(net).sw[u] == View(u, 0, None, {})
  {
  }

  lemma KiteInit()
    ensures Kite().Valid() && Inv(Kite(), Init(Kite()))
    ensures 3 in Init(Kite()).sw && Init(Kite()).sw[3] == View(3, 0, None, {})
    ensures 4 in Init(Kite()).sw && Init(Kite()).sw[4] == View(4, 0, None, {})
  {
    KiteFacts();
    hide Init, Inv;
    InitInv(Kite());
    InitSw(Kite(), 3);
    InitSw(Kite(), 4);
  }

  /** The four BPDUs: 2 tells 4 and 3 that it is root, 3 tells 4 its own id and then the longer way to 2. */
  lemma KiteReceives()
    ensures Receive(Bpdu(2, 4, 2, 1), 4, View(4, 0, None, {}), 2) == View(2, 1, Some(2), {})
    ensures Compare(Bpdu(2, 3, 2, 1), 3, View(3, 0, None, {}), 2) == Forward
    ensures Receive(Bpdu(3, 4, 3, 1), 4, View(2, 1, Some(2), {}), 3) == View(2, 1, Some(2), {})
    ensures Receive(Bpdu(3, 4, 2, 2), 4, View(2, 1, Some(2), {}), 3) == View(2, 1, Some(2), {3})
  {
  }

  lemma FourDeliveries(net: Net, s0: State, b0: Bpdu, s1: State, b1: Bpdu, s2: State, b2: Bpdu, s3: State, b3: Bpdu, t: State)
    requires WellFormed(net, s0) && b0 in s0.flight && s1 == Deliver(net, s0, b0)
    requires WellFormed(net, s1) && b1 in s1.flight && s2 == Deliver(net, s1, b1)
    requires WellFormed(net, s2) && b2 in s2.flight && s3 == Deliver(net, s2, b2)
    requires WellFormed(net, s3) && b3 in s3.flight && t == Deliver(net, s3, b3)
    ensures Delivers(net, s0, [b0] + ([b1] + ([b2] + ([b3] + []))), t)
  {
    KeepsOwnBlocked(net, t);
    hide *;
    DeliversFront(net, s3, b3, [], t);
    DeliversFront(net, s2, b2, [b3] + [], t);
    DeliversFront(net, s1, b1, [b2] + ([b3] + []), t);
    DeliversFront(net, s0, b0, [b1] + ([b2] + ([b3] + [])), t);
  }

  /** Switch 4 has root 2 over its port to 2, and 3 is about to tell it of the longer way. */
  ghost predicate KiteMidway(s: State) {
    && Inv(Kite(), s) && 4 in s.sw && s.sw[4] == View(2, 1, Some(2), {})
    && Bpdu(3, 4, 3, 1) in s.flight && Bpdu(3, 4, 2, 2) in s.flight
  }

  /** Switch 4 has heard of root 2; switch 3 has not. */
  ghost predicate KiteStarted(s: State) {
    && Inv(Kite(), s) && 4 in s.sw && s.sw[4] == View(2, 1, Some(2), {}) && 3 in s.sw && s.sw[3] == View(3, 0, None, {})
    && Bpdu(3, 4, 3, 1) in s.flight && Bpdu(2, 3, 2, 1) in s.flight
  }

  lemma KiteFirst() returns (s: State)
    ensures Kite().Valid() && WellFormed(Kite(), Init(Kite())) && Bpdu(2, 4, 2, 1) in Init(Kite()).flight
    ensures s == Deliver(Kite(), Init(Kite()), Bpdu(2, 4, 2, 1)) && KiteStarted(s)
  {
    KiteInit();
    KiteFacts();
    KiteStarts(2, 4);
    KiteStarts(2, 3);
    KiteStarts(3, 4);
    KiteReceives();
    hide Inv, Deliver, Kite, Init, WellFormed, Receive, Compare, Taken;
    s := DeliverFacts(Kite(), Init(Kite()), Bpdu(2, 4, 2, 1));
  }

  lemma KiteSecond(s: State) returns (t: State)
    requires KiteStarted(s)
    ensures WellFormed(Kite(), s) && t == Deliver(Kite(), s, Bpdu(2, 3, 2, 1)) && KiteMidway(t)
  {
    KiteReceives();
    KiteFacts();
    hide Inv, Deliver, Kite, Init, WellFormed, Receive, Compare;
    t := DeliverFacts(Kite(), s, Bpdu(2, 3, 2, 1));
    assert Taken(s, Bpdu(2, 3, 2, 1));
  }

  lemma KiteSecondHalf(s: State) returns (t: State, u: State)
    requires KiteMidway(s)
    ensures WellFormed(Kite(), s) && t == Deliver(Kite(), s, Bpdu(3, 4, 3, 1))
    ensures WellFormed(Kite(), t) && Bpdu(3, 4, 2, 2) in t.flight && u == Deliver(Kite(), t, Bpdu(3, 4, 2, 2))
    ensures Inv(Kite(), u) && 4 in u.sw && 3 in u.sw[4].blocked
  {
    KiteReceives();
    hide Inv, Deliver, Kite, Init, WellFormed, Receive, Compare;
    t := DeliverFacts(Kite(), s, Bpdu(3, 4, 3, 1));
    u := DeliverFacts(Kite(), t, Bpdu(3, 4, 2, 2));
  }

  lemma StartedHas(s: State)
    requires KiteStarted(s)
    ensures Bpdu(2, 3, 2, 1) in s.flight
  {
  }

  lemma MidwayHas(s: State)
    requires KiteMidway(s)
    ensures Bpdu(3, 4, 3, 1) in s.flight
  {
  }

  /** After four deliveries switch 4 has blocked its port to switch 3. */
  lemma KiteBlocks() returns (bs: seq<Bpdu>, t: State)
    ensures Kite().Valid() && Delivers(Kite(), Init(Kite()), bs, t) && Inv(Kite(), t)
    ensures 4 in t.sw && 3 in t.sw[4].blocked
  {
    hide *;
    var b0, b1, b2, b3 := Bpdu(2, 4, 2, 1), Bpdu(2, 3, 2, 1), Bpdu(3, 4, 3, 1), Bpdu(3, 4, 2, 2);
    var s1 := KiteFirst();
    StartedHas(s1);
    var s2 := KiteSecond(s1);
    MidwayHas(s2);
    var s3;
    s3, t := KiteSecondHalf(s2);
    FourDeliveries(Kite(), Init(Kite()), b0, s1, b1, s2, b2, s3, b3, t);
    bs := [b0] + ([b1] + ([b2] + ([b3] + [])));
  }

  lemma KiteWalk()
    ensures WalkTo(Kite(), [1, 3, 4], 1, 4, 2)
  {
    KiteFacts();
    hide Kite;
    var p := [1, 3, 4];
    assert p[..2] == [1, 3] && p[..2][..1] == [1];
    assert Walk(Kite(), p) && Walk(Kite(), p[..2]) && Walk(Kite(), p[..2][..1]);
    assert WalkCost(Kite(), p[..2]) == 1;
  }

  lemma KiteNeighbors(w: nat)
    ensures Kite().Linked(4, w) ==> w == 2 || w == 3
    ensures !Kite().Linked(1, 2)
  {
  }

  lemma NotOneLink(net: Net, p: seq<nat>)
    requires Walk(net, p) && |p| >= 2 && !net.Linked(p[0], p[|p| - 1])
    ensures |p| > 2
  {
    assert net.Linked(p[0], p[0 + 1]);
  }

  /** The root of the kite costs switch 2 more than one link. */
  lemma KiteFarSwitch(t: State)
    requires Inv(Kite(), t) && 2 in t.sw && t.sw[2].rootId == 1
    ensures t.sw[2].rootPathCost > 1
  {
    assert ViewOk(Kite(), t, 2);
    var p :| Accounts(Kite(), p, 2, t.sw[2]);
    KiteFacts();
    KiteNeighbors(2);
    hide Inv, WellFormed, ViewOk, Kite;
    assert Walk(Kite(), p) && p[0] == 1 && p[|p| - 1] == 2;
    NotOneLink(Kite(), p);
    WalkFloor(Kite(), p);
  }

  /** In a quiet state no walk does better than the root and the cost that a switch holds. */
  lemma RootBound(net: Net, t: State, v: nat, p: seq<nat>)
    requires Inv(net, t) && Quiet(t) && v in t.sw && Walk(net, p) && p[|p| - 1] == v
    ensures t.sw[v].rootId <= p[0] && t.sw[v].rootId in net.stpCost
    ensures t.sw[v].rootId == p[0] ==> t.sw[v].rootPathCost <= WalkCost(net, p)
  {
    QuietConverged(net, t, v);
    hide Inv, WellFormed, Quiet;
    var q :| WalkTo(net, q, t.sw[v].rootId, v, t.sw[v].rootPathCost);
    assert q[0] in net.stpCost;
  }

  lemma KiteRoot(t: State)
    requires Inv(Kite(), t) && Quiet(t) && 4 in t.sw
    ensures t.sw[4].rootId == 1 && t.sw[4].rootPathCost <= 2
  {
    KiteWalk();
    KiteFacts();
    hide Inv, WellFormed, Kite, Quiet;
    RootBound(Kite(), t, 4, [1, 3, 4]);
  }

  lemma HasRootPort(net: Net, s: State, v: nat)
    requires Inv(net, s) && v in s.sw && s.sw[v].rootId != v
    ensures s.sw[v].rootPort.Some?
  {
    assert ViewOk(net, s, v);
  }

  /** Once quiet, switch 4 can only have switch 3 as its root port. */
  lemma KiteRootPort(t: State)
    requires Inv(Kite(), t) && Quiet(t) && 4 in t.sw
    ensures 3 in t.sw && t.sw[4].rootPort == Some(3)
  {
    KiteFacts();
    KiteRoot(t);
    hide Inv, WellFormed, Kite, Quiet;
    HasRootPort(Kite(), t, 4);
    var w := t.sw[4].rootPort.value;
    RootPortAgrees(Kite(), t, 4, w);
    KiteNeighbors(w);
    if w == 2 {
      KiteFarSwitch(t);
    }
  }

  /**
    The kite has a run that falls quiet with switch 4 cut off from the root, although the network is
    connected: the port that 4 blocked while root 2 was the best it knew is now its root port.
   */
  lemma KiteFallsApart() returns (bs: seq<Bpdu>, more: seq<Bpdu>, s: State, t: State)
    ensures Kite().Valid() && Delivers(Kite(), Init(Kite()), bs, s) && Delivers(Kite(), s, more, t)
    ensures Quiet(t) && 4 in t.sw && !Connected(Kite(), t, 4)
    ensures WalkTo(Kite(), [1, 3, 4], t.sw[4].rootId, 4, 2)
  {
    KiteWalk();
    hide Inv, WellFormed, Kite, Quiet, Delivers, Connected, Open, WalkTo;
    bs, s := KiteBlocks();
    more, t := Quieten(Kite(), s);
    KiteRootPort(t);
    KiteRoot(t);
    BlockedIsCut(t, 4, 3);
    CutRootLinkDisconnects(Kite(), t, 4);
  }

  lemma BlockedIsCut(s: State, v: nat, w: nat)
    requires v in s.sw && w in s.sw && s.sw[v].rootPort == Some(w) && w in s.sw[v].blocked
    ensures !RootPortOpen(s, v)
  {
  }
}
