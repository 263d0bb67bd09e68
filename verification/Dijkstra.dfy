/**
  Shortest routes over a weight matrix, with a finite "infinity": a distance of MAX_DISTANCE stands
  for no path, and for any path at least as long.
 */
module Dijkstra {
  import opened Basics

  const MAX_DISTANCE := 100000
  const INT_MAX := 0x7fff_ffff

  /** A square matrix of weights; 0 means no edge. */
  ghost predicate Graph(g: seq<seq<int>>) {
    && (forall u :: 0 <= u < |g| ==> |g[u]| == |g|)
    && (forall u, v :: 0 <= u < |g| && 0 <= v < |g| ==> g[u][v] >= 0)
  }

  ghost predicate Edge(g: seq<seq<int>>, u: int, v: int)
    requires Graph(g)
  {
    0 <= u < |g| && 0 <= v < |g| && g[u][v] != 0
  }

  ghost predicate Walk(g: seq<seq<int>>, p: seq<int>)
    requires Graph(g)
  {
    && p != []
    && (forall i :: 0 <= i < |p| ==> 0 <= p[i] < |g|)
    && (forall i :: 0 <= i < |p| - 1 ==> Edge(g, p[i], p[i + 1]))
  }

  ghost function Weight(g: seq<seq<int>>, p: seq<int>): nat
    requires Graph(g) && Walk(g, p)
  {
    if |p| == 1 then 0
    else
      assert Edge(g, p[|p| - 2], p[|p| - 1]);
      Weight(g, p[..|p| - 1]) + g[p[|p| - 2]][p[|p| - 1]]
  }

  ghost predicate WalkBetween(g: seq<seq<int>>, p: seq<int>, src: int, v: int)
    requires Graph(g)
  {
    Walk(g, p) && p[0] == src && p[|p| - 1] == v
  }

  /** `d` is the smaller of MAX_DISTANCE and the least weight of a walk from `src` to `v`. */
  ghost predicate Capped(g: seq<seq<int>>, src: int, v: int, d: int)
    requires Graph(g)
  {
    && d <= MAX_DISTANCE
    && (forall p :: WalkBetween(g, p, src, v) ==> d <= Weight(g, p))
    && (d == MAX_DISTANCE || exists p :: WalkBetween(g, p, src, v) && Weight(g, p) == d)
  }

  // ---------------------------------------------------------------------------------------------
  // The state of the search
  // ---------------------------------------------------------------------------------------------

  /** Distances are finite sums along parents that are done; an unreached vertex has no parent. */
  ghost predicate ParentsOk(g: seq<seq<int>>, src: int, dist: seq<int>, parent: seq<int>, done: seq<bool>)
    requires Graph(g)
  {
    && |dist| == |parent| == |done| == |g| && 0 <= src < |g|
    && dist[src] == 0 && parent[src] == -1
    && (forall v :: 0 <= v < |g| ==> 0 <= dist[v] <= MAX_DISTANCE)
    && (forall v :: 0 <= v < |g| && v != src && dist[v] == MAX_DISTANCE ==> parent[v] == -1)
    && (forall v :: 0 <= v < |g| && v != src && dist[v] < MAX_DISTANCE ==>
          Edge(g, parent[v], v) && done[parent[v]] && dist[v] == dist[parent[v]] + g[parent[v]][v])
  }

  /** Vertices that are done are nearest, and all their edges are accounted for. */
  ghost predicate FrontOk(g: seq<seq<int>>, dist: seq<int>, done: seq<bool>)
    requires Graph(g)
  {
    && |dist| == |done| == |g|
    && (forall u, v :: 0 <= u < |g| && 0 <= v < |g| && done[u] && !done[v] ==> dist[u] <= dist[v])
    && (forall u, v :: Edge(g, u, v) && done[u] ==> dist[v] <= dist[u] + g[u][v])
  }

  /** Vertex `v` gets nearer through `u`. */
  predicate Improves(g: seq<seq<int>>, dist: seq<int>, done: seq<bool>, u: int, v: int)
    requires Graph(g) && |dist| == |done| == |g| && 0 <= u < |g| && 0 <= v < |g|
  {
    !done[v] && g[u][v] != 0 && dist[u] + g[u][v] < dist[v]
  }

  /** One round: `u` is done and its edges relaxed. */
  ghost predicate Round(g: seq<seq<int>>, dist: seq<int>, parent: seq<int>, done: seq<bool>,
      u: int, dist': seq<int>, parent': seq<int>)
    requires Graph(g) && |dist| == |parent| == |done| == |g| && 0 <= u < |g|
  {
    && |dist'| == |parent'| == |g|
    && forall v :: 0 <= v < |g| ==>
         if Improves(g, dist, done, u, v) then dist'[v] == dist[u] + g[u][v] && parent'[v] == u
         else dist'[v] == dist[v] && parent'[v] == parent[v]
  }

  /** The vertex a round may take: nearest of those not done, or any vertex that is done already. */
  ghost predicate Choice(dist: seq<int>, done: seq<bool>, u: int)
    requires |dist| == |done|
  {
    && 0 <= u < |dist|
    && (done[u] ==> forall v :: 0 <= v < |done| ==> done[v])
    && (!done[u] ==> forall v :: 0 <= v < |done| && !done[v] ==> dist[u] <= dist[v])
  }

  lemma RoundKeepsParents(g: seq<seq<int>>, src: int, dist: seq<int>, parent: seq<int>, done: seq<bool>,
      u: int, dist': seq<int>, parent': seq<int>)
    requires Graph(g) && ParentsOk(g, src, dist, parent, done) && FrontOk(g, dist, done) && Choice(dist, done, u)
    requires Round(g, dist, parent, done[u := true], u, dist', parent')
    ensures ParentsOk(g, src, dist', parent', done[u := true])
  {
    assert dist'[u] == dist[u];
    forall v | 0 <= v < |g| && v != src && dist'[v] < MAX_DISTANCE
      ensures Edge(g, parent'[v], v) && done[u := true][parent'[v]] && dist'[v] == dist'[parent'[v]] + g[parent'[v]][v]
    {
      if Improves(g, dist, done[u := true], u, v) {
      } else {
        assert dist'[parent[v]] == dist[parent[v]];
      }
    }
  }

  lemma RoundKeepsFront(g: seq<seq<int>>, dist: seq<int>, parent: seq<int>, done: seq<bool>,
      u: int, dist': seq<int>, parent': seq<int>)
    requires Graph(g) && FrontOk(g, dist, done) && Choice(dist, done, u) && |parent| == |g|
    requires Round(g, dist, parent, done[u := true], u, dist', parent')
    ensures FrontOk(g, dist', done[u := true])
  {
    assert dist'[u] == dist[u];
    forall x, v | 0 <= x < |g| && 0 <= v < |g| && done[u := true][x] && !done[u := true][v]
      ensures dist'[x] <= dist'[v]
    {
      assert dist'[x] == dist[x] <= dist[u];
    }
    forall x, v | Edge(g, x, v) && done[u := true][x]
      ensures dist'[v] <= dist'[x] + g[x][v]
    {
      assert dist'[x] == dist[x];
      assert dist'[v] <= dist[v];
    }
  }

  // ---------------------------------------------------------------------------------------------
  // When at most one vertex is not done, the distances are right
  // ---------------------------------------------------------------------------------------------

  ghost predicate Relaxed(g: seq<seq<int>>, dist: seq<int>)
    requires Graph(g)
  {
    |dist| == |g| && forall u, v :: Edge(g, u, v) ==> dist[v] <= dist[u] + g[u][v]
  }

  lemma LastVertexIsRelaxed(g: seq<seq<int>>, dist: seq<int>, done: seq<bool>)
    requires Graph(g) && FrontOk(g, dist, done)
    requires forall u, v :: 0 <= u < v < |done| ==> done[u] || done[v]
    ensures Relaxed(g, dist)
  {
  }

  lemma WalkPrefix(g: seq<seq<int>>, p: seq<int>)
    requires Graph(g) && Walk(g, p) && |p| > 1
    ensures Walk(g, p[..|p| - 1])
  {
    forall i | 0 <= i < |p| - 2
      ensures Edge(g, p[i], p[i + 1])
    {
    }
  }

  lemma {:induction false} RelaxedIsLeast(g: seq<seq<int>>, src: int, dist: seq<int>, p: seq<int>)
    requires Graph(g) && Relaxed(g, dist) && Walk(g, p) && dist[p[0]] == 0
    ensures dist[p[|p| - 1]] <= Weight(g, p)
  {
    if |p| > 1 {
      WalkPrefix(g, p);
      RelaxedIsLeast(g, src, dist, p[..|p| - 1]);
      assert Edge(g, p[|p| - 2], p[|p| - 1]);
    }
  }

  // ---------------------------------------------------------------------------------------------
  // The path kept in the parents
  // ---------------------------------------------------------------------------------------------

  /** The parents lead from `v` back to `src`. */
  ghost function PathTo(g: seq<seq<int>>, src: int, dist: seq<int>, parent: seq<int>, done: seq<bool>, v: int): (p: seq<int>)
    requires Graph(g) && ParentsOk(g, src, dist, parent, done)
    requires 0 <= v < |g| && dist[v] < MAX_DISTANCE
    decreases dist[v]
  {
    if v == src then [src] else PathTo(g, src, dist, parent, done, parent[v]) + [v]
  }

  /** It is a walk of exactly the kept weight, and distances rise along it. */
  lemma {:induction false} PathToIsWalk(g: seq<seq<int>>, src: int, dist: seq<int>, parent: seq<int>, done: seq<bool>, v: int)
    requires Graph(g) && ParentsOk(g, src, dist, parent, done)
    requires 0 <= v < |g| && dist[v] < MAX_DISTANCE
    ensures var p := PathTo(g, src, dist, parent, done, v);
      && WalkBetween(g, p, src, v) && Weight(g, p) == dist[v]
      && (forall i :: 0 <= i < |p| - 1 ==> dist[p[i]] < dist[v])
      && Distinct(p)
    decreases dist[v]
  {
    if v != src {
      var u := parent[v];
      assert Edge(g, u, v);
      PathToIsWalk(g, src, dist, parent, done, u);
      var q := PathTo(g, src, dist, parent, done, u);
      var p := q + [v];
      forall i | 0 <= i < |p| - 1
        ensures Edge(g, p[i], p[i + 1]) && dist[p[i]] < dist[v]
      {
        if i < |q| - 1 { assert Edge(g, q[i], q[i + 1]); }
      }
      assert p[..|p| - 1] == q;
    }
  }

  lemma DistancesAreCapped(g: seq<seq<int>>, src: int, dist: seq<int>, parent: seq<int>, done: seq<bool>, v: int)
    requires Graph(g) && ParentsOk(g, src, dist, parent, done) && Relaxed(g, dist) && 0 <= v < |g|
    ensures Capped(g, src, v, dist[v])
  {
    forall p | WalkBetween(g, p, src, v)
      ensures dist[v] <= Weight(g, p)
    {
      RelaxedIsLeast(g, src, dist, p);
    }
    if dist[v] < MAX_DISTANCE {
      PathToIsWalk(g, src, dist, parent, done, v);
    }
  }

  // ---------------------------------------------------------------------------------------------
  // The program
  // ---------------------------------------------------------------------------------------------

  ghost function Undone(done: seq<bool>): nat {
    if done == [] then 0 else Undone(done[..|done| - 1]) + if done[|done| - 1] then 0 else 1
  }

  lemma {:induction false} UndoneFalls(done: seq<bool>, u: nat)
    requires u < |done| && !done[u]
    ensures Undone(done[u := true]) == Undone(done) - 1
  {
    var n := |done| - 1;
    if u < n {
      UndoneFalls(done[..n], u);
      assert done[u := true][..n] == done[..n][u := true];
    } else {
      assert done[u := true][..n] == done[..n];
    }
  }

  lemma {:induction false} UndoneCounts(done: seq<bool>, u: nat)
    requires u < |done| && !done[u]
    ensures Undone(done) >= 1
  {
    if u < |done| - 1 {
      UndoneCounts(done[..|done| - 1], u);
    }
  }

  lemma {:induction false} UndoneBound(done: seq<bool>)
    ensures Undone(done) <= |done|
    ensures (forall v :: 0 <= v < |done| ==> done[v]) ==> Undone(done) == 0
  {
    if done != [] {
      UndoneBound(done[..|done| - 1]);
    }
  }

  lemma AtMostOneUndone(done: seq<bool>)
    requires Undone(done) <= 1
    ensures forall u, v :: 0 <= u < v < |done| ==> done[u] || done[v]
  {
    forall u, v | 0 <= u < v < |done| && !done[u] && !done[v]
      ensures false
    {
      UndoneFalls(done, u);
      UndoneCounts(done[u := true], v);
    }
  }

  /** The last of the nearest vertices not done. */
  method MinDistance(dist: array<int>, sptSet: array<bool>) returns (minIndex: int)
    requires 0 < dist.Length == sptSet.Length
    requires forall v :: 0 <= v < dist.Length ==> dist[v] <= MAX_DISTANCE
    ensures Choice(dist[..], sptSet[..], minIndex)
    ensures forall v :: minIndex < v < dist.Length && !sptSet[v] ==> dist[minIndex] < dist[v]
  {
    var min := INT_MAX;
    minIndex := 0;
    for v := 0 to dist.Length
      invariant 0 <= minIndex < dist.Length
      invariant (forall w :: 0 <= w < v ==> sptSet[w]) ==> min == INT_MAX && minIndex == 0
      invariant forall w :: 0 <= w < v && !sptSet[w] ==> !sptSet[minIndex] && min == dist[minIndex] <= dist[w]
      invariant forall w :: minIndex < w < v && !sptSet[w] ==> dist[minIndex] < dist[w]
      invariant !sptSet[minIndex] && minIndex < v ==> min == dist[minIndex]
    {
      if !sptSet[v] && dist[v] <= min {
        min, minIndex := dist[v], v;
      }
    }
  }

  method Relax(g: seq<seq<int>>, u: int, dist: array<int>, parent: array<int>, sptSet: array<bool>)
    requires Graph(g) && dist.Length == parent.Length == sptSet.Length == |g| && dist != parent
    requires 0 <= u < |g| && sptSet[u]
    modifies dist, parent
    ensures Round(g, old(dist[..]), old(parent[..]), sptSet[..], u, dist[..], parent[..])
  {
    ghost var dist0, parent0, done := dist[..], parent[..], sptSet[..];
    for v := 0 to |g|
      invariant forall w :: v <= w < |g| || w == u ==> 0 <= w < |g| ==> dist[w] == dist0[w]
      invariant forall w :: v <= w < |g| ==> parent[w] == parent0[w]
      invariant sptSet[..] == done
      invariant forall w :: 0 <= w < v ==>
        if Improves(g, dist0, done, u, w) then dist[w] == dist0[u] + g[u][w] && parent[w] == u
        else dist[w] == dist0[w] && parent[w] == parent0[w]
    {
      if !sptSet[v] && g[u][v] != 0 && dist[u] + g[u][v] < dist[v] {
        parent[v] := u;
        dist[v] := dist[u] + g[u][v];
      }
    }
  }

  method SearchRound(g: seq<seq<int>>, src: int, dist: array<int>, parent: array<int>, sptSet: array<bool>)
    requires Graph(g) && dist.Length == parent.Length == sptSet.Length == |g| && dist != parent
    requires ParentsOk(g, src, dist[..], parent[..], sptSet[..]) && FrontOk(g, dist[..], sptSet[..])
    modifies dist, parent, sptSet
    ensures ParentsOk(g, src, dist[..], parent[..], sptSet[..]) && FrontOk(g, dist[..], sptSet[..])
    ensures Undone(sptSet[..]) == 0 || Undone(sptSet[..]) < Undone(old(sptSet[..]))
  {
    ghost var dist0, parent0, done := dist[..], parent[..], sptSet[..];
    var u := MinDistance(dist, sptSet);
    sptSet[u] := true;
    assert sptSet[..] == done[u := true];
    Relax(g, u, dist, parent, sptSet);
    RoundKeepsParents(g, src, dist0, parent0, done, u, dist[..], parent[..]);
    RoundKeepsFront(g, dist0, parent0, done, u, dist[..], parent[..]);
    if done[u] {
      assert done[u := true] == done;
      UndoneBound(done);
    } else {
      UndoneFalls(done, u);
    }
  }

  method Search(g: seq<seq<int>>, src: int) returns (dist: seq<int>, parent: seq<int>, ghost done: seq<bool>)
    requires Graph(g) && 0 <= src < |g|
    ensures ParentsOk(g, src, dist, parent, done) && Relaxed(g, dist)
    ensures forall v :: 0 <= v < |g| ==> Capped(g, src, v, dist[v])
  {
    var n := |g|;
    var d, p, spt := new int[n](_ => MAX_DISTANCE), new int[n](_ => -1), new bool[n](_ => false);
    d[src] := 0;
    UndoneBound(spt[..]);
    for count := 0 to n - 1
      invariant d.Length == p.Length == spt.Length == n && d != p
      invariant ParentsOk(g, src, d[..], p[..], spt[..]) && FrontOk(g, d[..], spt[..])
      invariant Undone(spt[..]) <= n - count
    {
      SearchRound(g, src, d, p, spt);
    }
    AtMostOneUndone(spt[..]);
    LastVertexIsRelaxed(g, d[..], spt[..]);
    dist, parent, done := d[..], p[..], spt[..];
    forall v | 0 <= v < |g|
      ensures Capped(g, src, v, dist[v])
    {
      DistancesAreCapped(g, src, dist, parent, done, v);
    }
  }

  /** A simple walk of least weight. */
  ghost predicate Shortest(g: seq<seq<int>>, src: int, dest: int, p: seq<int>)
    requires Graph(g)
  {
    && WalkBetween(g, p, src, dest) && Distinct(p)
    && (forall q :: WalkBetween(g, q, src, dest) ==> Weight(g, p) <= Weight(g, q))
  }

  /** Device ids count from 1. */
  function Devices(p: seq<int>): (l: seq<int>)
    ensures |l| == |p| && forall i :: 0 <= i < |p| ==> l[i] == p[i] + 1
  {
    seq(|p|, i requires 0 <= i < |p| => p[i] + 1)
  }

  /** Appends to a list that ends in the source every vertex after it on the way to `j`. */
  method PrintPath(ghost g: seq<seq<int>>, ghost src: int, ghost dist: seq<int>, parent: seq<int>, ghost done: seq<bool>,
      j: int, list: seq<int>) returns (out: seq<int>)
    requires Graph(g) && ParentsOk(g, src, dist, parent, done)
    requires 0 <= j < |g| && dist[j] < MAX_DISTANCE
    requires list != [] && list[|list| - 1] == src + 1
    ensures out == list[..|list| - 1] + Devices(PathTo(g, src, dist, parent, done, j))
    decreases dist[j]
  {
    if parent[j] == -1 {
      return list;
    }
    out := PrintPath(g, src, dist, parent, done, parent[j], list);
    out := out + [j + 1];
  }

  lemma PathIsShortest(g: seq<seq<int>>, src: int, dist: seq<int>, parent: seq<int>, done: seq<bool>, v: int)
    requires Graph(g) && ParentsOk(g, src, dist, parent, done)
    requires 0 <= v < |g| && dist[v] < MAX_DISTANCE && Capped(g, src, v, dist[v])
    ensures var p := PathTo(g, src, dist, parent, done, v);
      Shortest(g, src, v, p) && Weight(g, p) == dist[v]
  {
    PathToIsWalk(g, src, dist, parent, done, v);
  }

  /**
    The route as a list of devices, or None for the line that says there is no path.  There is a route
    exactly when some walk is lighter than 100000, and then it is a lightest walk, and simple.
   */
  method Route(g: seq<seq<int>>, src: int, dest: int) returns (route: Option<seq<int>>, ghost p: seq<int>)
    requires Graph(g) && 0 <= src < |g| && 0 <= dest < |g|
    ensures route.Some? ==> Shortest(g, src, dest, p) && Weight(g, p) < 100_000 && route.value == Devices(p)
    ensures route.None? ==> forall q :: WalkBetween(g, q, src, dest) ==> Weight(g, q) >= 100_000
  {
    var dist, parent;
    ghost var done;
    dist, parent, done := Search(g, src);
    assert Capped(g, src, dest, dist[dest]);
    if dist[dest] != MAX_DISTANCE {
      PathIsShortest(g, src, dist, parent, done, dest);
      p := PathTo(g, src, dist, parent, done, dest);
      var list := PrintPath(g, src, dist, parent, done, dest, [src + 1]);
      route := Some(list);
    } else {
      route, p := None, [];
    }
  }
}
