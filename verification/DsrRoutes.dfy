/**
  Whether the routes of DSR are real. A node with a cached route answers a request for its target by
  joining the recorded list to the route, and the join need not be a link: here is exactly when every
  reply and every cached route lists links only, and a run in which they do not.
 */
module DsrRoutes {
  import opened Basics
  import opened Dsr
  import opened DsrRuns

  // ---------------------------------------------------------------------------------------------
  // Paths
  // ---------------------------------------------------------------------------------------------

  lemma PathJoin(net: Net, a: seq<nat>, b: seq<nat>)
    requires Path(net, a) && Path(net, b)
    ensures Path(net, a + b) <==> net.Linked(a[|a| - 1], b[0])
  {
    var c := a + b;
    assert c[|a| - 1] == a[|a| - 1] && c[|a|] == b[0];
    if net.Linked(a[|a| - 1], b[0]) {
      forall i | 0 <= i < |c| - 1
        ensures net.Linked(c[i], c[i + 1])
      {
        if i >= |a| {
          assert c[i] == b[i - |a|] && c[i + 1] == b[i - |a| + 1];
        }
      }
    }
  }

  lemma PathSlice(net: Net, a: seq<nat>, i: nat, k: nat)
    requires Path(net, a) && i < k <= |a|
    ensures Path(net, a[i..k])
  {
    var b := a[i..k];
    forall j | 0 <= j < |b| - 1
      ensures net.Linked(b[j], b[j + 1])
    {
      assert b[j] == a[i + j] && b[j + 1] == a[i + j + 1];
    }
  }

  // ---------------------------------------------------------------------------------------------
  // A reply built from a cached route
  // ---------------------------------------------------------------------------------------------

  /**
    The source is not on the route before the target, or the request comes straight from it, or the last
    node on its list is a neighbour of the node that follows the source on the route.
   */
  ghost predicate Joins(net: Net, r: Request, route: seq<nat>)
    requires r.target in route && r.source != r.target
  {
    PartEnds(r, route);
    || r.source !in route[..First(route, r.target)]
    || r.address == []
    || net.Linked(r.address[|r.address| - 1], Part(r, route)[0])
  }

  /** The node before the part that is listed: the source, if it is on the route before the target. */
  lemma PartStarts(r: Request, route: seq<nat>)
    requires r.target in route && r.source != r.target
    ensures var k := First(route, r.target); var n := AfterLast(route, r.source, k + 1);
      && Part(r, route) == route[n..k + 1] && n <= k
      && (n == 0 <==> r.source !in route[..k])
      && (n > 0 ==> route[n - 1] == r.source)
  {
    hide First, AfterLast;
    var k := First(route, r.target);
    assert route[..k + 1] == route[..k] + [r.target];
  }

  lemma HeadPath(net: Net, r: Request, me: nat)
    requires RequestOk(net, r, me)
    ensures Path(net, [r.source] + r.address)
  {
    var p := [r.source] + r.address + [me];
    PathSlice(net, p, 0, |p| - 1);
    assert p[0..|p| - 1] == [r.source] + r.address;
  }

  /** A part that does not start the route follows a node that is linked to its first. */
  lemma PartPath(net: Net, r: Request, route: seq<nat>)
    requires Path(net, route) && r.target in route && r.source != r.target
    ensures Path(net, Part(r, route))
    ensures if r.source in route[..First(route, r.target)] then net.Linked(r.source, Part(r, route)[0])
            else Part(r, route)[0] == route[0]
  {
    var k := First(route, r.target);
    var n := AfterLast(route, r.source, k + 1);
    PartStarts(r, route);
    PathSlice(net, route, n, k + 1);
    if n > 0 {
      assert net.Linked(route[n - 1], route[n]);
    }
  }

  /** The list of a reply built from a real route is a path exactly when it joins. */
  lemma BuiltExactly(net: Net, r: Request, me: nat, route: seq<nat>)
    requires net.Valid() && RequestOk(net, r, me) && Path(net, route) && route[0] == me && r.target in route
    ensures Path(net, FromRoute(r, route).address) <==> Joins(net, r, route)
  {
    HeadPath(net, r, me);
    PartPath(net, r, route);
    SenderLinked(net, r, me);
    PathJoin(net, [r.source] + r.address, Part(r, route));
    hide Path, RequestOk, Part, First;
  }

  // ---------------------------------------------------------------------------------------------
  // Every reply and every cached route is real
  // ---------------------------------------------------------------------------------------------

  /** A route lists a path from the node that keeps it; a node keeps nothing of a list that it is not on. */
  ghost predicate CacheReal(net: Net, v: nat, cache: seq<Route>) {
    forall a :: a in Addresses(cache) && a != [] ==> Path(net, a) && a[0] == v
  }

  ghost predicate RealState(net: Net, s: State) {
    && (forall m :: m in s.flight && m.Rrep? ==> Path(net, m.reply.address))
    && (forall v :: v in s.dev ==> CacheReal(net, v, s.dev[v].cache))
  }

  /** A cached route that a request is answered from joins the request's list. */
  ghost predicate Joined(net: Net, s: State, e: Event)
    requires Inv(net, s) && Shape(net, s) && Enabled(net, s, e)
  {
    e.Deliver? && e.message.Rreq? ==>
      var r := e.message.request;
      var cached := CachedAnswer(s.dev[e.message.to], e.message.to, r, e.time);
      assert MessageOk(net, e.message);
      cached.Some? ==> Joins(net, r, cached.value)
  }

  /** A node's answer is a real reply, or none, exactly when the route it uses joins. */
  lemma AnswerReal(net: Net, d: Device, me: nat, r: Request, t: real)
    requires net.Valid() && RequestOk(net, r, me) && RequestFits(r) && CacheReal(net, me, d.cache)
    ensures var (a, cached) := (ProcessRequest(d, me, r, t).1, CachedAnswer(d, me, r, t));
      (a.Respond? ==> Path(net, a.reply.address)) <==> (cached.Some? ==> Joins(net, r, cached.value))
    ensures CacheReal(net, me, ProcessRequest(d, me, r, t).0.cache)
  {
    hide RequestOk, RequestFits, Addresses, Joins, Path, Seen, Find, FromRoute, ResponseTo;
    AnswerTells(d, me, r, t);
    FindHolds(d.cache, r.target, t);
    var cached := CachedAnswer(d, me, r, t);
    if cached.Some? {
      BuiltExactly(net, r, me, cached.value);
    } else if ProcessRequest(d, me, r, t).1.Respond? {
      TargetReal(net, r, me);
    }
  }

  lemma TargetReal(net: Net, r: Request, me: nat)
    requires RequestOk(net, r, me)
    ensures Path(net, ResponseTo(r, me).address)
  {
  }

  lemma ReplyReal(net: Net, d: Device, me: nat, reply: Reply, t: real)
    requires ReplySane(reply) && Path(net, reply.address) && CacheReal(net, me, d.cache)
    ensures CacheReal(net, me, ProcessReply(d, me, Listed(reply), t).cache)
  {
    var a := Listed(reply);
    assert a == reply.address[0..ReplyLength(reply)];
    PathSlice(net, reply.address, 0, ReplyLength(reply));
    if me in a {
      PathSlice(net, a, First(a, me), |a|);
      assert Suffix(a, me) == a[First(a, me)..|a|];
    }
    AddressesGrow(d.cache, Route(Suffix(a, me), t + CACHE_TIMEOUT));
    hide Addresses, Path;
  }

  lemma RealUpdate(net: Net, s: State, me: nat, d: Device, m: Message, added: multiset<Message>)
    requires RealState(net, s) && me in s.dev && CacheReal(net, me, d.cache)
    ensures RealState(net, State(s.dev[me := d], s.flight - multiset{m} + added, s.forgotten))
      <==> forall q :: q in added && q.Rrep? ==> Path(net, q.reply.address)
  {
    hide CacheReal, Path;
    var u := State(s.dev[me := d], s.flight - multiset{m} + added, s.forgotten);
    if RealState(net, u) {
      forall q | q in added && q.Rrep?
        ensures Path(net, q.reply.address)
      {
        assert q in u.flight;
      }
    }
  }

  lemma AnsweredReal(net: Net, me: nat, a: Answer)
    requires me in net.near
    ensures (forall q :: q in Answered(net, me, a) && q.Rrep? ==> Path(net, q.reply.address))
      <==> (a.Respond? ==> Path(net, a.reply.address))
  {
    hide Path;
    if a.Respond? {
      assert Rrep(a.reply, a.to) in Answered(net, me, a);
    }
  }

  lemma RequestReal(net: Net, s: State, m: Message, t: real)
    requires Inv(net, s) && Shape(net, s) && Enabled(net, s, Deliver(m, t)) && RealState(net, s) && m.Rreq?
    ensures RealState(net, Apply(net, s, Deliver(m, t))) <==> Joined(net, s, Deliver(m, t))
  {
    var me, r := m.to, m.request;
    assert MessageOk(net, m) && CacheReal(net, me, s.dev[me].cache);
    hide Inv, RequestOk, ProcessRequest, CacheReal, CachedAnswer, Joins, Path, Answered, RequestFits;
    RequestApplied(net, s, m, t);
    AnswerReal(net, s.dev[me], me, r, t);
    var (d, a) := ProcessRequest(s.dev[me], me, r, t);
    AnsweredReal(net, me, a);
    RealUpdate(net, s, me, d, m, Answered(net, me, a));
    hide Apply, Shape, RealState;
  }

  lemma ForwardedReal(net: Net, reply: Reply, me: nat)
    requires ReplySane(reply) && Path(net, reply.address)
    ensures forall q :: q in Forwarded(reply, me) && q.Rrep? ==> Path(net, q.reply.address)
  {
    hide Path;
  }

  lemma ReplyStepReal(net: Net, s: State, m: Message, t: real)
    requires Inv(net, s) && Shape(net, s) && m in s.flight && RealState(net, s) && m.Rrep?
    ensures RealState(net, Apply(net, s, Deliver(m, t)))
  {
    assert Path(net, m.reply.address) && CacheReal(net, m.to, s.dev[m.to].cache);
    hide Inv, Path, CacheReal, ProcessReply, Forwarded;
    ReplyApplied(net, s, m, t);
    ReplyReal(net, s.dev[m.to], m.to, m.reply, t);
    ForwardedReal(net, m.reply, m.to);
    RealUpdate(net, s, m.to, ProcessReply(s.dev[m.to], m.to, Listed(m.reply), t), m, Forwarded(m.reply, m.to));
    hide Apply, Shape, RealState;
  }

  lemma FindReal(net: Net, v: nat, cache: seq<Route>, dest: nat, t: real)
    requires CacheReal(net, v, cache)
    ensures CacheReal(net, v, Find(cache, dest, t).0)
  {
    hide Addresses, Path;
    FindHolds(cache, dest, t);
  }

  lemma TimeoutReal(net: Net, d: Device, v: nat, target: nat, t: real)
    requires Find(d.cache, target, t).1 == None ==> Pending(d.table, target) < |d.table|
    requires CacheReal(net, v, d.cache)
    ensures CacheReal(net, v, Timeout(d, v, target, t).0.cache)
  {
    hide CacheReal;
    FindReal(net, v, d.cache, target, t);
  }

  lemma StartReal(net: Net, s: State, v: nat, target: nat)
    requires Shape(net, s) && Enabled(net, s, Start(v, target)) && RealState(net, s)
    ensures RealState(net, Apply(net, s, Start(v, target)))
  {
    DiscoverKeepsCache(s.dev[v], v, target);
    BroadcastIsRequests(net, v, Discover(s.dev[v], v, target).1);
    hide CacheReal, Path, Broadcast, Discover;
  }

  lemma ExpireReal(net: Net, s: State, v: nat, target: nat, t: real)
    requires Shape(net, s) && Enabled(net, s, Expire(v, target, t)) && RealState(net, s)
    ensures RealState(net, Apply(net, s, Expire(v, target, t)))
  {
    TimeoutReal(net, s.dev[v], v, target, t);
    var again := Timeout(s.dev[v], v, target, t).1;
    if again.Some? {
      BroadcastIsRequests(net, v, again.value);
    }
    hide CacheReal, Path, Broadcast, Find, Timeout, Victim;
  }

  lemma OtherReal(net: Net, s: State, e: Event)
    requires Shape(net, s) && Enabled(net, s, e) && RealState(net, s) && !e.Deliver?
    ensures RealState(net, Apply(net, s, e))
  {
    hide CacheReal, Path, Broadcast, Find, Timeout, Victim, Discover;
    match e
    case Start(v, target) => StartReal(net, s, v, target);
    case Expire(v, target, t) => ExpireReal(net, s, v, target, t);
    case LookUp(v, dest, t) => FindReal(net, v, s.dev[v].cache, dest, t);
    case Lose(m) =>
  }

  lemma DiscoverKeepsCache(d: Device, v: nat, target: nat)
    ensures Discover(d, v, target).0.cache == d.cache
  {
  }

  /** An event leaves every reply and route real exactly when the cached route it answers from, if any, joins. */
  lemma RealExactly(net: Net, s: State, e: Event)
    requires Inv(net, s) && Shape(net, s) && Enabled(net, s, e) && RealState(net, s)
    ensures RealState(net, Apply(net, s, e)) <==> Joined(net, s, e)
  {
    hide Inv, Apply, Shape, RealState, CachedAnswer, Joins;
    if !e.Deliver? {
      OtherReal(net, s, e);
    } else if e.message.Rreq? {
      RequestReal(net, s, e.message, e.time);
    } else {
      ReplyStepReal(net, s, e.message, e.time);
    }
  }

  // ---------------------------------------------------------------------------------------------
  // Runs
  // ---------------------------------------------------------------------------------------------

  ghost predicate AllJoined(net: Net, s: State, es: seq<Event>)
    decreases |es|
  {
    es == [] || (Inv(net, s) && Shape(net, s) && Enabled(net, s, es[0]) && Joined(net, s, es[0])
                 && AllJoined(net, Apply(net, s, es[0]), es[1..]))
  }

  ghost predicate AlwaysReal(net: Net, s: State, es: seq<Event>)
    decreases |es|
  {
    RealState(net, s)
    && (es == [] || (Shape(net, s) && Enabled(net, s, es[0]) && AlwaysReal(net, Apply(net, s, es[0]), es[1..])))
  }

  lemma {:induction false} AlwaysRealFrom(net: Net, s: State, es: seq<Event>, t: State)
    requires Inv(net, s) && RealState(net, s) && Runs(net, s, es, t)
    ensures AlwaysReal(net, s, es) <==> AllJoined(net, s, es)
    ensures AllJoined(net, s, es) ==> RealState(net, t)
    decreases |es|
  {
    hide Inv, Apply, Shape, Enabled, RealState, Joined;
    if es != [] {
      RealExactly(net, s, es[0]);
      StepKeeps(net, s, es[0]);
      if Joined(net, s, es[0]) {
        AlwaysRealFrom(net, Apply(net, s, es[0]), es[1..], t);
      } else {
        UnrealOnce(net, Apply(net, s, es[0]), es[1..]);
      }
    }
  }

  lemma UnrealOnce(net: Net, s: State, es: seq<Event>)
    requires !RealState(net, s)
    ensures !AlwaysReal(net, s, es)
  {
  }

  lemma InitReal(net: Net)
    ensures RealState(net, Init(net))
  {
  }

  /**
    In a run every reply and every cached route lists links only, at every moment, if and only if every
    cached route that a request was answered from joined the request's list.
   */
  lemma RoutesRealExactly(net: Net, es: seq<Event>, t: State)
    requires net.Valid() && Runs(net, Init(net), es, t)
    ensures AlwaysReal(net, Init(net), es) <==> AllJoined(net, Init(net), es)
    ensures AllJoined(net, Init(net), es) ==> RealState(net, t)
  {
    InitInv(net);
    InitReal(net);
    hide Inv, Runs, RealState;
    AlwaysRealFrom(net, Init(net), es, t);
  }

  /** In such a run a reply lists a real path that meets the target only at its end. */
  lemma RepliesListPaths(net: Net, es: seq<Event>, t: State, m: Message)
    requires net.Valid() && Runs(net, Init(net), es, t) && AllJoined(net, Init(net), es)
    requires m in t.flight && m.Rrep?
    ensures var a := m.reply.address;
      Path(net, a) && |a| >= 2 && m.to in a && a[|a| - 1] !in a[..|a| - 1]
  {
    RoutesRealExactly(net, es, t);
    RepliesEndAtTarget(net, es, t, m);
    AlwaysInv(net, es, t);
    hide Runs, AllJoined;
    assert MessageOk(net, m);
  }

  /**
    In such a run a route found in a cache is a real path from the node that keeps it through the
    destination; its second node is a neighbour.
   */
  lemma FoundRoutesAreReal(net: Net, es: seq<Event>, t: State, v: nat, dest: nat, time: real)
    requires net.Valid() && Runs(net, Init(net), es, t) && AllJoined(net, Init(net), es)
    requires v in t.dev && Find(t.dev[v].cache, dest, time).1.Some?
    ensures var a := Find(t.dev[v].cache, dest, time).1.value;
      && Path(net, a) && a[0] == v && dest in a
      && (dest != v ==> |a| >= 2 && net.Linked(v, a[1]))
  {
    RoutesRealExactly(net, es, t);
    FindHolds(t.dev[v].cache, dest, time);
    hide Runs, AllJoined, Addresses;
    assert CacheReal(net, v, t.dev[v].cache);
  }

  // ---------------------------------------------------------------------------------------------
  // A cached route need not join
  // ---------------------------------------------------------------------------------------------

  /** Node 1 is linked to 0, 2 and 3, and node 0 to 3. */
  function Square(): Net {
    Net(map[0 := {1, 3}, 1 := {0, 2, 3}, 2 := {1}, 3 := {0, 1}])
  }

  lemma SquareLinks()
    ensures Square().Valid() && Square().near.Keys == {0, 1, 2, 3}
    ensures Square().near[0] == {1, 3} && Square().near[1] == {0, 2, 3} && Square().near[3] == {0, 1}
    ensures !Square().Linked(3, 2)
  {
  }

  /** Node 0 asks twice for 2; its second request crosses node 1. */
  lemma SquareAsks() returns (t: State)
    ensures Reached(Square(), t) && t.dev.Keys == {0, 1, 2, 3}
    ensures t.dev[0] == Device(2, [Entry(2, 2, 2, false)], []) && t.dev[2] == Blank() && t.dev[3] == Blank()
    ensures t.dev[1] == Device(0, [Entry(2, 2, 1, false), Entry(2, 2, 0, false)], [])
    ensures Rreq(Request(0, 2, 2, [1], 10), 2) in t.flight
  {
    SquareLinks();
    hide Square, Reached;
    var s1 := FirstAsks(Square(), 0, 2);
    var s2, d2 := AsksAgain(Square(), s1, 0, 2, 1, 0.0);
    var s3, d3 := BlankPasses(Square(), s2, 1, Request(0, 2, 2, [], 6), 0.0);
    t := s3;
    assert PassedOn(Request(0, 2, 2, [], 6), 1) == Request(0, 2, 2, [1], 10);
  }

  /** The target of a request it has not seen answers it. */
  lemma TargetAnswers(net: Net, s: State, r: Request, time: real) returns (t: State, d: Device)
    requires Reached(net, s) && r.target in net.near && r.target in s.dev && Rreq(r, r.target) in s.flight
    requires RequestFits(r) && !Seen(s.dev[r.target].table, r)
    ensures Reached(net, t) && t.dev == s.dev[r.target := d]
    ensures Rrep(ResponseTo(r, r.target), Sender(r)) in t.flight
  {
    hide Reached, RequestFits, Seen, ResponseTo, Answered;
    d := ProcessRequest(s.dev[r.target], r.target, r, time).0;
    t := DoRequest(net, s, Rreq(r, r.target), time, d, Respond(ResponseTo(r, r.target), Sender(r)));
  }

  /** A reply stops at a node on its list. */
  lemma ReplyPasses(net: Net, s: State, a: seq<nat>, me: nat, time: real) returns (t: State)
    requires Reached(net, s) && 1 <= |a| <= 64 && me in a && me in s.dev && Rrep(Replied(a), me) in s.flight
    ensures Reached(net, t) && t.dev == s.dev[me := ProcessReply(s.dev[me], me, a, time)]
    ensures NextHop(a, me).Some? ==> Rrep(Replied(a), NextHop(a, me).value) in t.flight
  {
    hide Reached, ProcessReply, Replied;
    RepliedLength(a);
    t := DoReply(net, s, Rrep(Replied(a), me), time);
  }

  /** Nodes 1 and 0 learn their routes to 2. */
  lemma SquareLearns() returns (t: State)
    ensures Reached(Square(), t) && t.dev.Keys == {0, 1, 2, 3} && t.dev[3] == Blank()
    ensures t.dev[0] == Device(2, [Entry(2, 2, 2, true)], [Route([0, 1, 2], CACHE_TIMEOUT)])
    ensures t.dev[1] == Device(0, [Entry(2, 2, 1, false), Entry(2, 2, 0, false)], [Route([1, 2], CACHE_TIMEOUT)])
  {
    SquareLinks();
    hide Square, Reached, ProcessReply, Replied;
    var s := SquareAsks();
    var r, a := Request(0, 2, 2, [1], 10), [0, 1, 2];
    var s1, d := TargetAnswers(Square(), s, r, 0.0);
    assert [r.source] + r.address + [2] == a && a[0] == 0 && a[1] == 1;
    LearntReply(s1.dev[1], s1.dev[0]);
    var s2 := ReplyPasses(Square(), s1, a, 1, 0.0);
    t := ReplyPasses(Square(), s2, a, 0, 0.0);
  }

  lemma LearntReply(d1: Device, d0: Device)
    requires d1 == Device(0, [Entry(2, 2, 1, false), Entry(2, 2, 0, false)], [])
    requires d0 == Device(2, [Entry(2, 2, 2, false)], [])
    ensures ProcessReply(d1, 1, [0, 1, 2], 0.0) == d1.(cache := [Route([1, 2], CACHE_TIMEOUT)])
    ensures NextHop([0, 1, 2], 1) == Some(0)
    ensures ProcessReply(d0, 0, [0, 1, 2], 0.0) == Device(2, [Entry(2, 2, 2, true)], [Route([0, 1, 2], CACHE_TIMEOUT)])
  {
    var a := [0, 1, 2];
    assert a[First(a, 1)..] == [1, 2] && a[First(a, 0)..] == a;
    assert a[First(a, 1) - 1] == 0;
    assert Pending(d0.table, 2) == 0 && d0.table[0 := Entry(2, 2, 2, true)] == [Entry(2, 2, 2, true)];
  }

  /** Node 0 uses its route in time, node 1 looks for its own too late. */
  lemma SquareForgets() returns (t: State)
    ensures Reached(Square(), t) && t.dev.Keys == {0, 1, 2, 3} && t.dev[3] == Blank()
    ensures t.dev[0] == Device(2, [Entry(2, 2, 2, true)], [Route([0, 1, 2], 500_000_000.0)])
    ensures t.dev[1] == Device(0, [Entry(2, 2, 1, false), Entry(2, 2, 0, false)], [])
  {
    SquareLinks();
    hide Square, Reached;
    var s := SquareLearns();
    assert Find(s.dev[0].cache, 2, 200_000_000.0).0 == [Route([0, 1, 2], 500_000_000.0)];
    assert Find(s.dev[1].cache, 2, 350_000_000.0).0 == [];
    var s1 := DoLookUp(Square(), s, 0, 2, 200_000_000.0);
    t := DoLookUp(Square(), s1, 1, 2, 350_000_000.0);
  }

  /** Node 1 asks for 2, and its third request reaches node 0 over node 3. */
  lemma SquareAsksBack() returns (t: State)
    ensures Reached(Square(), t) && t.dev.Keys == {0, 1, 2, 3} && t.dev[1].cache == [] && t.dev[3].cache == []
    ensures t.dev[0] == Device(2, [Entry(2, 2, 2, true)], [Route([0, 1, 2], 500_000_000.0)])
    ensures Rreq(Request(1, 3, 2, [3], 10), 0) in t.flight
  {
    SquareLinks();
    hide Square, Reached;
    var s := SquareForgets();
    var s1 := DoStart(Square(), s, 1, 2);
    var s2, d2 := AsksAgain(Square(), s1, 1, 2, 1, 350_000_000.0);
    var s3, d3 := AsksAgain(Square(), s2, 1, 2, 2, 350_000_000.0);
    var s4, d4 := BlankPasses(Square(), s3, 3, Request(1, 3, 2, [], 6), 350_000_000.0);
    t := s4;
    assert PassedOn(Request(1, 3, 2, [], 6), 3) == Request(1, 3, 2, [3], 10);
  }

  /** Node 0 joins its route over node 1 to the list of node 1's request. */
  lemma FalseReply(d: Device, r: Request)
    requires d == Device(2, [Entry(2, 2, 2, true)], [Route([0, 1, 2], 500_000_000.0)]) && r == Request(1, 3, 2, [3], 10)
    ensures ProcessRequest(d, 0, r, 350_000_000.0).1 == Respond(Replied([1, 3, 2]), 3)
  {
    var route := [0, 1, 2];
    assert Find(d.cache, 2, 350_000_000.0).1 == Some(route);
    assert First(route, 2) == 2 && AfterLast(route, 1, 3) == 2 && route[2..3] == [2];
    assert [1] + [3] + [2] == [1, 3, 2];
    assert Seen(d.table, r) == false;
  }

  /** A run of 15 events after which node 1 holds a route to 2 over a link that is not there. */
  lemma JoinMayFail() returns (es: seq<Event>, t: State)
    ensures Square().Valid() && Runs(Square(), Init(Square()), es, t) && 1 in t.dev
    ensures Find(t.dev[1].cache, 2, 350_000_000.0).1 == Some([1, 3, 2]) && !Square().Linked(3, 2)
  {
    SquareLinks();
    hide Square, Reached, ProcessRequest, Replied;
    var s := SquareAsksBack();
    var r, a, now := Request(1, 3, 2, [3], 10), [1, 3, 2], 350_000_000.0;
    FalseReply(s.dev[0], r);
    var d := ProcessRequest(s.dev[0], 0, r, now).0;
    var s1 := DoRequest(Square(), s, Rreq(r, 0), now, d, Respond(Replied(a), 3));
    assert a[1] == 3 && a[0] == 1;
    FalseRoute(s1.dev[1], now);
    var s2 := ReplyPasses(Square(), s1, a, 3, now);
    t := ReplyPasses(Square(), s2, a, 1, now);
    es := RunOf(Square(), t);
  }

  lemma FalseRoute(d: Device, now: real)
    requires d.cache == []
    ensures NextHop([1, 3, 2], 3) == Some(1)
    ensures Find(ProcessReply(d, 1, [1, 3, 2], now).cache, 2, now).1 == Some([1, 3, 2])
  {
    var a := [1, 3, 2];
    assert First(a, 3) == 1 && a[First(a, 1)..] == a;
    assert ProcessReply(d, 1, a, now).cache == [Route(a, now + CACHE_TIMEOUT)];
  }
}
