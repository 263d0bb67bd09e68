/**
  One application's route in the fast emulation, from the weight matrix through the route file to the
  queues its packets will pass.
 */
module EmulationRoute {
  import opened Basics
  import D = Dijkstra
  import opened RouteFile

  /** Every edge of the matrix is a link; a link that is down has no edge. Device ids count from 1. */
  ghost predicate EdgesAreLinks(g: seq<seq<int>>, links: seq<Link>)
    requires D.Graph(g)
  {
    forall u, v :: D.Edge(g, u, v) ==> LinkAt(links, u + 1, v + 1) < |links|
  }

  lemma WalkIsPath(g: seq<seq<int>>, links: seq<Link>, p: seq<int>)
    requires D.Graph(g) && EdgesAreLinks(g, links) && D.Walk(g, p) && Distinct(p)
    ensures Path(links, D.Devices(p))
  {
    var l := D.Devices(p);
    forall i | 0 <= i < |l| - 1
      ensures l[i] != l[i + 1] && LinkAt(links, l[i], l[i + 1]) < |links|
    {
      assert D.Edge(g, p[i], p[i + 1]);
    }
  }

  /** Some walk between the two is lighter than what stands for no path. */
  ghost predicate Reachable(g: seq<seq<int>>, src: int, dest: int)
    requires D.Graph(g)
  {
    exists q :: D.WalkBetween(g, q, src, dest) && D.Weight(g, q) < D.MAX_DISTANCE
  }

  lemma WalkInside(g: seq<seq<int>>, p: seq<int>, src: int, dest: int)
    requires D.Graph(g) && D.WalkBetween(g, p, src, dest) && src != dest
    ensures |p| >= 2 && forall i :: 0 <= i < |p| ==> p[i] >= 0
  {
  }

  /**
    The queues set for an application are those of the links of a shortest simple route, in order; or
    none, when there is no route light enough.
   */
  method PlanRoute(g: seq<seq<int>>, links: seq<Link>, src: int, dest: int)
    returns (hops: Option<seq<nat>>, ghost p: seq<int>)
    requires D.Graph(g) && EdgesAreLinks(g, links) && 0 <= src < |g| && 0 <= dest < |g| && src != dest
    ensures Reachable(g, src, dest) ==> D.Shortest(g, src, dest, p) && hops == Some(QueuesOf(links, D.Devices(p)))
    ensures !Reachable(g, src, dest) ==> hops == Some([])
  {
    hide D.Graph, D.Walk, D.Edge, D.Capped, D.Weight, Path, QueuesOf;
    var route;
    route, p := D.Route(g, src, dest);
    match route
    case None =>
      hops := SetPathForApp(Queues(links), "No_Path");
    case Some(list) =>
      WalkInside(g, p, src, dest);
      WalkIsPath(g, links, p);
      hops := WriteAndRead(links, list);
  }
}
