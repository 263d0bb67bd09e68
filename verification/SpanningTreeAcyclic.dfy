/**
  The spanning-tree protocol in networks whose links form no cycle. There, whatever the order of
  deliveries, no port is ever blocked, so that open links connect every switch to its root.
 */
module SpanningTreeAcyclic {
  import opened Basics
  import opened SpanningTree
  import opened SpanningTreeReach

  /** Distinct switches, each linked to the next, and the last to the first. */
  ghost predicate Ring(net: Net, p: seq<nat>) {
    && |p| >= 3 && Distinct(p)
    && forall i :: 0 <= i < |p| ==> net.Linked(p[i], p[Succ(|p|, i)])
  }

  ghost predicate Acyclic(net: Net) {
    forall p :: !Ring(net, p)
  }

  // ---------------------------------------------------------------------------------------------
  // Without cycles a simple walk is the only one between its ends
  // ---------------------------------------------------------------------------------------------

  lemma RingFromWalk(net: Net, p: seq<nat>)
    requires Walk(net, p) && Distinct(p) && |p| >= 3 && net.Linked(p[|p| - 1], p[0])
    ensures Ring(net, p)
  {
  }

  lemma WalkSlice(net: Net, p: seq<nat>, i: nat, k: nat)
    requires Walk(net, p) && i < k <= |p|
    ensures Walk(net, p[i..k]) && (Distinct(p) ==> Distinct(p[i..k]))
  {
    var q := p[i..k];
    forall j | 0 <= j < |q| - 1
      ensures net.Linked(q[j], q[j + 1])
    {
      assert net.Linked(p[i + j], p[i + j + 1]);
    }
  }

  lemma WalkJoin(net: Net, a: seq<nat>, b: seq<nat>)
    requires Walk(net, a) && Walk(net, b) && net.Linked(a[|a| - 1], b[0])
    ensures Walk(net, a + b)
  {
    var c := a + b;
    forall j | 0 <= j < |c| - 1
      ensures net.Linked(c[j], c[j + 1])
    {
      if j < |a| - 1 {
        assert net.Linked(a[j], a[j + 1]);
      } else if j >= |a| {
        assert net.Linked(b[j - |a|], b[j - |a| + 1]);
      }
    }
  }

  function Back(p: seq<nat>): (q: seq<nat>)
    ensures |q| == |p| && forall i :: 0 <= i < |p| ==> q[i] == p[|p| - 1 - i]
  {
    seq(|p|, i requires 0 <= i < |p| => p[|p| - 1 - i])
  }

  lemma WalkBack(net: Net, p: seq<nat>)
    requires net.Valid() && Walk(net, p)
    ensures Walk(net, Back(p))
  {
    var q := Back(p);
    forall j | 0 <= j < |q| - 1
      ensures net.Linked(q[j], q[j + 1])
    {
      var k := |p| - 2 - j;
      assert net.Linked(p[k], p[k + 1]);
    }
  }

  lemma DistinctJoin(a: seq<nat>, b: seq<nat>)
    requires Distinct(a) && Distinct(b) && forall i, j :: 0 <= i < |a| && 0 <= j < |b| ==> a[i] != b[j]
    ensures Distinct(a + b)
  {
  }

  /** The last place of `p` that is on `q`, and where it is there. */
  lemma {:induction false} LastShared(p: seq<nat>, q: seq<nat>) returns (i: nat, j: nat)
    requires p != [] && q != [] && p[0] == q[0]
    ensures i < |p| && j < |q| && p[i] == q[j]
    ensures forall k :: i < k < |p| ==> p[k] !in q
  {
    i := |p| - 1;
    while p[i] !in q
      invariant i < |p| && forall k :: i < k < |p| ==> p[k] !in q
      decreases i
    {
      i := i - 1;
    }
    j :| j < |q| && q[j] == p[i];
  }

  /** The way back from before the end of `q` to after its place `j`. */
  lemma WayBack(net: Net, q: seq<nat>, j: nat) returns (b: seq<nat>)
    requires net.Valid() && Walk(net, q) && Distinct(q) && j + 2 < |q|
    ensures Walk(net, b) && Distinct(b) && b[0] == q[|q| - 2] && net.Linked(b[|b| - 1], q[j])
    ensures forall y :: 0 <= y < |b| ==> exists k :: j < k < |q| - 1 && b[y] == q[k]
  {
    WalkSlice(net, q, j + 1, |q| - 1);
    WalkBack(net, q[j + 1..|q| - 1]);
    b := Back(q[j + 1..|q| - 1]);
    assert net.Linked(q[j], q[j + 1]) && net.Linked(q[j + 1], q[j]);
    forall y | 0 <= y < |b|
      ensures exists k :: j < k < |q| - 1 && b[y] == q[k]
    {
      assert b[y] == q[|q| - 2 - y];
    }
  }

  /** Two simple walks that come into `v` from different neighbours would close a ring. */
  lemma TwoWaysClose(net: Net, p: seq<nat>, q: seq<nat>) returns (r: seq<nat>)
    requires net.Valid() && Walk(net, p) && Walk(net, q) && Distinct(p) && Distinct(q)
    requires |p| >= 2 && |q| >= 2 && p[0] == q[0] && p[|p| - 1] == q[|q| - 1] && p[|p| - 2] != q[|q| - 2]
    ensures Ring(net, r)
  {
    var p' := p[..|p| - 1];
    var i, j := LastShared(p', q[..|q| - 1]);
    assert forall k :: i < k < |p| - 1 ==> p'[k] == p[k];
    r := RingOf(net, p, q, i, j);
  }

  lemma RingOf(net: Net, p: seq<nat>, q: seq<nat>, i: nat, j: nat) returns (r: seq<nat>)
    requires net.Valid() && Walk(net, p) && Walk(net, q) && Distinct(p) && Distinct(q)
    requires i + 1 < |p| && j + 1 < |q| && p[|p| - 1] == q[|q| - 1] && p[|p| - 2] != q[|q| - 2]
    requires p[i] == q[j] && forall k :: i < k < |p| - 1 ==> p[k] !in q[..|q| - 1]
    ensures Ring(net, r)
  {
    WalkSlice(net, p, i, |p|);
    var a := p[i..|p|];
    assert net.Linked(q[|q| - 2], q[|q| - 2 + 1]) && net.Linked(q[|q| - 1], q[|q| - 2]);
    if j == |q| - 2 {
      r := a;
    } else {
      var b := WayBack(net, q, j);
      WalkJoin(net, a, b);
      forall x, y | 0 <= x < |a| && 0 <= y < |b|
        ensures a[x] != b[y]
      {
        var k :| j < k < |q| - 1 && b[y] == q[k];
        assert a[x] == p[i + x] && q[..|q| - 1][k] == q[k];
      }
      hide Walk;
      DistinctJoin(a, b);
      r := a + b;
    }
    RingFromWalk(net, r);
  }

  lemma {:induction false} OnlyWalk(net: Net, p: seq<nat>, q: seq<nat>)
    requires net.Valid() && Acyclic(net) && Walk(net, p) && Walk(net, q) && Distinct(p) && Distinct(q)
    requires p[0] == q[0] && p[|p| - 1] == q[|q| - 1]
    ensures p == q
    decreases |p|
  {
    if |p| >= 2 && |q| >= 2 {
      if p[|p| - 2] == q[|q| - 2] {
        WalkSlice(net, p, 0, |p| - 1);
        WalkSlice(net, q, 0, |q| - 1);
        OnlyWalk(net, p[0..|p| - 1], q[0..|q| - 1]);
        assert p == p[0..|p| - 1] + [p[|p| - 1]] && q == q[0..|q| - 1] + [q[|q| - 1]];
      } else {
        var r := TwoWaysClose(net, p, q);
      }
    }
  }

  // ---------------------------------------------------------------------------------------------
  // No delivery blocks a port
  // ---------------------------------------------------------------------------------------------

  /** A switch has blocked nothing and knows its root by a simple walk. */
  ghost predicate TreeView(net: Net, u: nat, v: View) {
    v.blocked == {} && exists p: seq<nat> :: Accounts(net, p, u, v) && Distinct(p)
  }

  /** A BPDU comes over a simple walk that has not crossed its receiver. */
  ghost predicate TreeBpdu(net: Net, b: Bpdu) {
    exists p: seq<nat> :: Backs(net, p, b) && Distinct(p) && b.dst !in p
  }

  ghost predicate TreeState(net: Net, s: State) {
    && (forall u :: u in s.sw ==> TreeView(net, u, s.sw[u]))
    && (forall b :: b in s.flight ==> TreeBpdu(net, b))
  }

  lemma InitTree(net: Net)
    requires net.Valid()
    ensures TreeState(net, Init(net))
  {
    var s := Init(net);
    forall u | u in s.sw
      ensures TreeView(net, u, s.sw[u])
    {
      assert Accounts(net, [u], u, View(u, 0, None, {})) && Distinct([u]);
    }
    forall b | b in s.flight
      ensures TreeBpdu(net, b)
    {
      InitFlight(net, b);
      assert Backs(net, [b.src], b) && Distinct([b.src]) && b.dst !in [b.src];
    }
  }

  /** A switch that hears of its own root again hears it from its root port, at its own cost. */
  lemma NeverBlocks(net: Net, u: nat, v: View, b: Bpdu)
    requires net.Valid() && Acyclic(net) && TreeView(net, u, v) && TreeBpdu(net, b) && b.dst == u && net.Linked(b.src, u)
    ensures Compare(b, u, v, b.src) != Block
  {
    if b.rootId == v.rootId {
      var q: seq<nat> :| Accounts(net, q, u, v) && Distinct(q);
      var p: seq<nat> :| Backs(net, p, b) && Distinct(p) && u !in p;
      ExtendWalk(net, p, b.rootId, b.src, b.rootPathCost - net.stpCost[b.src], u);
      DistinctJoin(p, [u]);
      OnlyWalk(net, q, p + [u]);
    }
  }

  /** A neighbour other than the sender is not on the walk to a switch, or there would be a ring. */
  lemma NextIsNew(net: Net, p: seq<nat>, x: nat)
    requires net.Valid() && Acyclic(net) && Walk(net, p) && Distinct(p)
    requires net.Linked(p[|p| - 1], x) && (|p| >= 2 ==> x != p[|p| - 2])
    ensures x !in p
  {
    if i :| 0 <= i < |p| && p[i] == x {
      WalkSlice(net, p, i, |p|);
      RingFromWalk(net, p[i..|p|]);
    }
  }

  /** What a switch learns and sends on is by simple walks again. */
  lemma TakenIsTree(net: Net, s: State, b: Bpdu, t: State)
    requires Acyclic(net) && TreeBpdu(net, b) && Follows(net, s, b, t) && Taken(s, b) && s.sw[b.dst].blocked == {}
    ensures TreeView(net, b.dst, t.sw[b.dst])
    ensures forall x :: net.Linked(b.dst, x) && x != b.src ==>
      TreeBpdu(net, Bpdu(b.dst, x, b.rootId, net.stpCost[b.dst] + b.rootPathCost))
  {
    var p: seq<nat> :| Backs(net, p, b) && Distinct(p) && b.dst !in p;
    assert net.Linked(b.src, b.dst);
    ExtendWalk(net, p, b.rootId, b.src, b.rootPathCost - net.stpCost[b.src], b.dst);
    DistinctJoin(p, [b.dst]);
    var q := p + [b.dst];
    assert Accounts(net, q, b.dst, t.sw[b.dst]);
    forall x | net.Linked(b.dst, x) && x != b.src
      ensures TreeBpdu(net, Bpdu(b.dst, x, b.rootId, net.stpCost[b.dst] + b.rootPathCost))
    {
      NextIsNew(net, q, x);
      assert Backs(net, q, Bpdu(b.dst, x, b.rootId, net.stpCost[b.dst] + b.rootPathCost));
    }
  }

  /** Nothing goes back to the sender. */
  lemma NotBack(net: Net, s: State, b: Bpdu, m: Bpdu)
    requires WellFormed(net, s) && b in s.flight && b.dst in s.sw
    requires m in Deliver(net, s, b).flight && m !in s.flight
    ensures m.dst != b.src
  {
    assert net.Linked(b.dst, b.src);
    var out := Reaction(b, b.dst, net.stpCost[b.dst], s.sw[b.dst], b.src, net.ports[b.dst]);
    assert m in multiset(out) && m in out;
    CopiesMember(b.dst, b.rootId, net.stpCost[b.dst] + b.rootPathCost, Some(b.src), net.ports[b.dst], m);
  }

  lemma DeliverTreeBpdu(net: Net, s: State, b: Bpdu, m: Bpdu)
    requires Acyclic(net) && WellFormed(net, s) && b in s.flight && b.dst in s.sw && s.sw[b.dst].blocked == {}
    requires TreeBpdu(net, b) && m in Deliver(net, s, b).flight && m !in s.flight
    ensures TreeBpdu(net, m)
  {
    DeliverFollows(net, s, b);
    DeliverFlight(net, s, b, m);
    NotBack(net, s, b, m);
    hide Acyclic, TreeBpdu, Deliver, Follows;
    TakenIsTree(net, s, b, Deliver(net, s, b));
  }

  lemma DeliverTreeView(net: Net, s: State, b: Bpdu)
    requires Acyclic(net) && WellFormed(net, s) && b in s.flight && b.dst in s.sw
    requires TreeBpdu(net, b) && TreeView(net, b.dst, s.sw[b.dst])
    ensures b.dst in Deliver(net, s, b).sw && TreeView(net, b.dst, Deliver(net, s, b).sw[b.dst])
  {
    DeliverFollows(net, s, b);
    NeverBlocks(net, b.dst, s.sw[b.dst], b);
    assert s.sw[b.dst].blocked == {};
    hide Acyclic, TreeBpdu, TreeView, Deliver;
    if Taken(s, b) {
      TakenIsTree(net, s, b, Deliver(net, s, b));
    }
  }

  lemma OthersKeepView(net: Net, s: State, b: Bpdu, u: nat)
    requires WellFormed(net, s) && b in s.flight && u != b.dst
    ensures u in s.sw <==> u in Deliver(net, s, b).sw
    ensures u in s.sw ==> Deliver(net, s, b).sw[u] == s.sw[u]
  {
    DeliverFollows(net, s, b);
    hide Deliver, After;
  }

  lemma ReceiverKnown(net: Net, s: State, b: Bpdu)
    requires WellFormed(net, s) && b in s.flight && TreeState(net, s)
    ensures b.dst in s.sw && TreeView(net, b.dst, s.sw[b.dst]) && s.sw[b.dst].blocked == {} && TreeBpdu(net, b)
  {
    assert net.Linked(b.dst, b.src);
    assert TreeView(net, b.dst, s.sw[b.dst]);
  }

  /** Every delivery keeps all walks simple and all ports open. */
  lemma DeliverTree(net: Net, s: State, b: Bpdu)
    requires WellFormed(net, s) && Acyclic(net) && TreeState(net, s) && b in s.flight
    ensures TreeState(net, Deliver(net, s, b))
  {
    hide Acyclic, TreeBpdu, TreeView, Deliver, WellFormed;
    var t := Deliver(net, s, b);
    ReceiverKnown(net, s, b);
    DeliverTreeView(net, s, b);
    forall u | u in t.sw
      ensures TreeView(net, u, t.sw[u])
    {
      if u != b.dst {
        OthersKeepView(net, s, b, u);
      }
    }
    forall m | m in t.flight
      ensures TreeBpdu(net, m)
    {
      if m !in s.flight {
        DeliverTreeBpdu(net, s, b, m);
      }
    }
  }

  lemma {:induction false} RunTree(net: Net, run: nat -> State, n: nat)
    requires Run(net, run) && Acyclic(net)
    ensures TreeState(net, run(n))
  {
    if n == 0 {
      InitTree(net);
    } else {
      RunTree(net, run, n - 1);
      RunInv(net, run, n - 1);
      assert Next(net, run(n - 1), run(n - 1 + 1));
      if !Quiet(run(n - 1)) {
        var b :| b in run(n - 1).flight && run(n) == Deliver(net, run(n - 1), b);
        DeliverTree(net, run(n - 1), b);
      }
    }
  }

  lemma TreePortsOpen(net: Net, s: State)
    requires TreeState(net, s)
    ensures forall u :: u in s.sw ==> s.sw[u].blocked == {}
    ensures forall u :: u in s.sw ==> RootPortOpen(s, u)
  {
    forall u | u in s.sw
      ensures s.sw[u].blocked == {}
    {
      assert TreeView(net, u, s.sw[u]);
    }
  }

  /**
    In a network without cycles no run ever blocks a port, and whenever it is quiet open links connect
    every switch to its root, whatever the order of deliveries.
   */
  lemma AcyclicStaysConnected(net: Net, run: nat -> State, n: nat)
    requires Run(net, run) && Acyclic(net)
    ensures forall u :: u in run(n).sw ==> run(n).sw[u].blocked == {}
    ensures Quiet(run(n)) ==> forall v :: v in run(n).sw ==> Connected(net, run(n), v)
  {
    hide Run, Acyclic, Inv, TreeState, RootPortOpen, Connected;
    RunTree(net, run, n);
    RunInv(net, run, n);
    TreePortsOpen(net, run(n));
    if Quiet(run(n)) {
      ConnectedExactly(net, run(n));
    }
  }
}
