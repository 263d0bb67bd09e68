/**
  What DSR does with the routes a node keeps, with the requests that reach it and with the replies on
  their way back: which route answers, who answers, and that every message goes to a neighbour.
 */
module DsrReplies {
  import opened Basics
  import opened Dsr
  import opened DsrRoutes

  // ---------------------------------------------------------------------------------------------
  // The first live route through a destination
  // ---------------------------------------------------------------------------------------------

  /** The route has not expired, and the destination stands somewhere on it. */
  predicate Usable(r: Route, dest: nat, t: real) {
    r.timeOut > t && dest in r.address
  }

  /** The routes that have not expired, in order. */
  function Live(cache: seq<Route>, t: real): seq<Route> {
    if cache == [] then []
    else (if cache[0].timeOut > t then [cache[0]] else []) + Live(cache[1..], t)
  }

  /** The routes with the first one renewed. */
  function Renewed(cache: seq<Route>, t: real): seq<Route>
    requires cache != []
  {
    [Route(cache[0].address, t + 300_000_000.0)] + cache[1..]
  }

  /** Freed, renewed and left: what a look-up makes of a cache whose first usable route is at `k`. */
  function Served(cache: seq<Route>, k: nat, t: real): seq<Route>
    requires k < |cache|
  {
    Live(cache[..k], t) + Renewed(cache[k..], t)
  }

  lemma ServedNext(cache: seq<Route>, k: nat, t: real)
    requires k + 1 < |cache|
    ensures Served(cache, k + 1, t) == (if cache[0].timeOut > t then [cache[0]] else []) + Served(cache[1..], k, t)
  {
    assert cache[..k + 1][1..] == cache[1..][..k] && cache[1..][k..] == cache[k + 1..];
  }

  lemma {:induction false} FindFirst(cache: seq<Route>, dest: nat, t: real, k: nat)
    requires k < |cache| && Usable(cache[k], dest, t) && forall j: nat :: j < k ==> !Usable(cache[j], dest, t)
    ensures Find(cache, dest, t) == (Served(cache, k, t), Some(cache[k].address))
  {
    if k == 0 {
      assert Served(cache, 0, t) == Renewed(cache[0..], t) && cache[0..] == cache;
    } else {
      hide Served;
      assert !Usable(cache[0], dest, t);
      forall j: nat | j < k - 1
        ensures !Usable(cache[1..][j], dest, t)
      {
        assert !Usable(cache[j + 1], dest, t);
      }
      FindFirst(cache[1..], dest, t, k - 1);
      ServedNext(cache, k - 1, t);
      assert [] + Served(cache[1..], k - 1, t) == Served(cache[1..], k - 1, t);
    }
  }

  lemma {:induction false} FindNothing(cache: seq<Route>, dest: nat, t: real)
    requires forall j: nat :: j < |cache| ==> !Usable(cache[j], dest, t)
    ensures Find(cache, dest, t) == (Live(cache, t), None)
  {
    if cache != [] {
      assert !Usable(cache[0], dest, t);
      forall j: nat | j < |cache| - 1
        ensures !Usable(cache[1..][j], dest, t)
      {
        assert !Usable(cache[j + 1], dest, t);
      }
      FindNothing(cache[1..], dest, t);
      var first := if cache[0].timeOut > t then [cache[0]] else [];
      assert first + Live(cache[1..], t) == Find(cache, dest, t).0;
    }
  }

  /** No route of the cache is usable, or `k` is the first that is. */
  ghost function FirstUsable(cache: seq<Route>, dest: nat, t: real): (k: nat)
    ensures k <= |cache|
    ensures k < |cache| ==> Usable(cache[k], dest, t)
    ensures forall j: nat :: j < k ==> !Usable(cache[j], dest, t)
  {
    if cache == [] || Usable(cache[0], dest, t) then 0
    else
      var k := FirstUsable(cache[1..], dest, t) + 1;
      assert forall j: nat :: 0 < j < k ==> cache[j] == cache[1..][j - 1];
      k
  }

  /**
    A route is found if and only if some live route goes through the destination, wherever it stands on it;
    the first such route is the one, it alone is renewed, and the expired ones before it are freed.
   */
  lemma FindExactly(cache: seq<Route>, dest: nat, t: real)
    ensures var (rest, found) := Find(cache, dest, t);
      && (found.Some? <==> exists j: nat :: j < |cache| && Usable(cache[j], dest, t))
      && (found == None ==> rest == Live(cache, t))
      && (found.Some? ==> exists k: nat ::
            && k < |cache| && Usable(cache[k], dest, t) && (forall j: nat :: j < k ==> !Usable(cache[j], dest, t))
            && found.value == cache[k].address
            && rest == Served(cache, k, t))
  {
    hide Find, Usable, Live, FirstUsable, Served;
    var k := FirstUsable(cache, dest, t);
    if k < |cache| {
      FindFirst(cache, dest, t, k);
    } else {
      FindNothing(cache, dest, t);
    }
  }

  // ---------------------------------------------------------------------------------------------
  // Who answers a request
  // ---------------------------------------------------------------------------------------------

  /** A live route to the target is kept. */
  ghost predicate Knows(cache: seq<Route>, target: nat, t: real) {
    exists j: nat :: j < |cache| && Usable(cache[j], target, t)
  }

  /**
    A node passes a request on if and only if it is new to it, it is neither the target nor on the list,
    and it keeps no live route to the target. The target answers every new request with the whole path.
    Any other node answers only from a live route that shares no node with the list.
   */
  lemma AnswerExactly(d: Device, me: nat, r: Request, t: real)
    requires RequestFits(r)
    ensures var a := ProcessRequest(d, me, r, t).1;
      && (Seen(d.table, r) ==> a == Drop)
      && (a.Rebroadcast? <==>
            !Seen(d.table, r) && me != r.target && me !in r.address && !Knows(d.cache, r.target, t))
      && (a.Rebroadcast? ==> a.request == r.(address := r.address + [me], optLen := a.request.optLen))
      && (!Seen(d.table, r) && me == r.target ==>
            a == Respond(Replied([r.source] + r.address + [r.target]), Sender(r)))
      && (a.Respond? && me != r.target ==> me !in r.address && a.to == Sender(r))
      && (a.Respond? && me != r.target ==> exists k: nat ::
            && k < |d.cache| && Usable(d.cache[k], r.target, t)
            && (forall j: nat :: j < k ==> !Usable(d.cache[j], r.target, t))
            && Apart(d.cache[k].address, r.address) && a.reply == FromRoute(r, d.cache[k].address))
  {
    hide Seen, Find, Live, Served, Apart, Usable, FromRoute;
    FindExactly(d.cache, r.target, t);
  }

  // ---------------------------------------------------------------------------------------------
  // Every message goes to a neighbour
  // ---------------------------------------------------------------------------------------------

  /** A reply that lists a path is passed to the node before on it, a neighbour. */
  lemma HopLinked(net: Net, a: seq<nat>, me: nat)
    requires net.Valid() && Path(net, a) && NextHop(a, me).Some?
    ensures net.Linked(NextHop(a, me).value, me) && net.Linked(me, NextHop(a, me).value)
  {
    var k := First(a, me);
    assert a[k - 1 + 1] == me && net.Linked(a[k - 1], a[k - 1 + 1]);
  }

  /** The node that an event happens at. */
  function Actor(e: Event): nat {
    match e
    case Start(v, _) => v
    case Expire(v, _, _) => v
    case LookUp(v, _, _) => v
    case Deliver(m, _) => m.to
    case Lose(m) => m.to
  }

  lemma BroadcastNear(net: Net, v: nat, r: Request, m: Message)
    requires v in net.near && m in Broadcast(net, v, r)
    ensures net.Linked(v, m.to)
  {
  }

  lemma ForwardedNear(net: Net, reply: Reply, me: nat, m: Message)
    requires net.Valid() && ReplySane(reply) && Path(net, reply.address) && m in Forwarded(reply, me)
    ensures net.Linked(me, m.to)
  {
    hide Path;
    assert Listed(reply) == reply.address[0..ReplyLength(reply)];
    PathSlice(net, reply.address, 0, ReplyLength(reply));
    HopLinked(net, Listed(reply), me);
  }

  lemma AnsweredNear(net: Net, d: Device, me: nat, r: Request, t: real, m: Message)
    requires net.Valid() && me in net.near && RequestOk(net, r, me) && RequestFits(r)
    requires m in Answered(net, me, ProcessRequest(d, me, r, t).1)
    ensures net.Linked(me, m.to)
  {
    hide RequestOk, ProcessRequest, CachedAnswer;
    AnswerTells(d, me, r, t);
    SenderLinked(net, r, me);
    LinkedInside(net, Sender(r), me);
    var a := ProcessRequest(d, me, r, t).1;
    if a.Rebroadcast? {
      BroadcastNear(net, me, a.request, m);
    }
  }

  /** Where replies list paths, whatever an event puts in flight goes to a neighbour of its node. */
  lemma SentNear(net: Net, s: State, e: Event, m: Message)
    requires Inv(net, s) && Shape(net, s) && Enabled(net, s, e) && RealState(net, s)
    requires Apply(net, s, e).flight[m] > s.flight[m]
    ensures net.Linked(Actor(e), m.to)
  {
    hide RequestOk, ReplyOk, Path, RequestFits, ProcessRequest, Timeout, Discover, CacheReal, CacheOk, Find, Victim;
    match e
    case Start(v, target) => BroadcastNear(net, v, Discover(s.dev[v], v, target).1, m);
    case Expire(v, target, t) =>
      var again := Timeout(s.dev[v], v, target, t).1;
      if again.Some? {
        BroadcastNear(net, v, again.value, m);
      }
    case LookUp(v, dest, t) =>
    case Deliver(q, t) =>
      assert MessageOk(net, q);
      if q.Rreq? {
        AnsweredNear(net, s.dev[q.to], q.to, q.request, t, m);
      } else {
        ForwardedNear(net, q.reply, q.to, m);
      }
    case Lose(_) =>
  }

  /** In a run whose cached answers join, every message of every event goes to a neighbour of the node that sends it. */
  lemma SendsToNeighbours(net: Net, es: seq<Event>, s: State, e: Event, m: Message)
    requires net.Valid() && Runs(net, Init(net), es, s) && AllJoined(net, Init(net), es)
    requires Shape(net, s) && Enabled(net, s, e) && Apply(net, s, e).flight[m] > s.flight[m]
    ensures net.Linked(Actor(e), m.to)
  {
    hide Runs, AllJoined, Inv, RealState, Apply, Enabled, Shape;
    AlwaysInv(net, es, s);
    RoutesRealExactly(net, es, s);
    SentNear(net, s, e, m);
  }

  // ---------------------------------------------------------------------------------------------
  // A reply walks its list back to front
  // ---------------------------------------------------------------------------------------------

  /** On a list without repeats a reply visits every node before it, one after the other, back to the first. */
  lemma {:induction false} TraceReversed(a: seq<nat>, me: nat)
    requires Distinct(a) && me in a
    ensures |Trace(a, me)| == First(a, me) + 1
    ensures forall i: nat :: i <= First(a, me) ==> Trace(a, me)[i] == a[First(a, me) - i]
    decreases First(a, me)
  {
    var k, hop := First(a, me), NextHop(a, me);
    if hop.Some? {
      HopLower(a, me);
      assert First(a, hop.value) == k - 1;
      TraceReversed(a, hop.value);
      forall i: nat | 0 < i <= k
        ensures Trace(a, me)[i] == a[k - i]
      {
        assert Trace(a, me)[i] == Trace(a, hop.value)[i - 1];
      }
    }
  }

  /** So each node up to `me` keeps the part of the list from itself on, and no node behind it keeps anything. */
  lemma CarriedToAll(dev: map<nat, Device>, a: seq<nat>, me: nat, t: real, k: nat)
    requires Distinct(a) && me in a && k < |a| && forall u :: u in a ==> u in dev
    ensures a[k] in Carry(dev, a, me, t)
    ensures Carry(dev, a, me, t)[a[k]].cache == dev[a[k]].cache +
      if k <= First(a, me) then [Route(a[k..], t + 300_000_000.0)] else []
  {
    hide Carry, Trace;
    var n := First(a, me);
    CarryCaches(dev, a, me, t, a[k]);
    TraceReversed(a, me);
    assert First(a, a[k]) == k;
    if k <= n {
      assert Trace(a, me)[n - k] == a[k];
    }
  }

  /** A node that handled a reply finds a route to every node behind it on the list until the route expires. */
  lemma ReplyTeaches(d: Device, a: seq<nat>, t: real, t': real, i: nat, k: nat)
    requires i <= k < |a| && First(a, a[i]) == i && t' < t + 300_000_000.0
    ensures Find(ProcessReply(d, a[i], a, t).cache, a[k], t').1.Some?
  {
    hide Find, Live, Served;
    var cache := ProcessReply(d, a[i], a, t).cache;
    FindExactly(cache, a[k], t');
    var own := cache[|d.cache|];
    assert own.address[k - i] == a[k];
    assert Usable(cache[|d.cache|], a[k], t');
  }

  // ---------------------------------------------------------------------------------------------
  // When a discovery is repeated
  // ---------------------------------------------------------------------------------------------

  ghost predicate Counted(table: seq<Entry>) {
    forall e :: e in table ==> e.count <= 16
  }

  ghost predicate AllCounted(s: State) {
    forall v :: v in s.dev ==> Counted(s.dev[v].table)
  }

  lemma TimeoutCounted(d: Device, me: nat, target: nat, t: real)
    requires Find(d.cache, target, t).1 == None ==> Pending(d.table, target) < |d.table|
    requires Counted(d.table)
    ensures Counted(Timeout(d, me, target, t).0.table)
  {
    hide Find;
  }

  lemma RequestCounted(d: Device, me: nat, r: Request, t: real)
    requires RequestFits(r) && Counted(d.table)
    ensures Counted(ProcessRequest(d, me, r, t).0.table)
  {
    hide Find, Seen;
  }

  lemma ReplyCounted(d: Device, me: nat, a: seq<nat>, t: real)
    requires a != [] && Counted(d.table)
    ensures Counted(ProcessReply(d, me, a, t).table)
  {
  }

  lemma EventCounted(net: Net, s: State, e: Event)
    requires Shape(net, s) && Enabled(net, s, e) && AllCounted(s)
    ensures AllCounted(Apply(net, s, e))
  {
    hide Counted, Timeout, ProcessRequest, ProcessReply, Find, Broadcast, Victim, Answered, Forwarded;
    match e
    case Start(v, target) => DiscoverCounted(s.dev[v], v, target);
    case Expire(v, target, t) => TimeoutCounted(s.dev[v], v, target, t);
    case LookUp(v, dest, t) =>
    case Deliver(m, t) =>
      if m.Rreq? {
        RequestCounted(s.dev[m.to], m.to, m.request, t);
      } else {
        ReplyCounted(s.dev[m.to], m.to, Listed(m.reply), t);
      }
    case Lose(_) =>
  }

  lemma DiscoverCounted(d: Device, me: nat, target: nat)
    requires Counted(d.table)
    ensures Counted(Discover(d, me, target).0.table)
  {
  }

  lemma {:induction false} NeverMoreThanSixteen(net: Net, s: State, es: seq<Event>, t: State)
    requires AllCounted(s) && Runs(net, s, es, t)
    ensures AllCounted(t)
    decreases |es|
  {
    hide AllCounted, Apply, Shape, Enabled;
    if es != [] {
      EventCounted(net, s, es[0]);
      NeverMoreThanSixteen(net, Apply(net, s, es[0]), es[1..], t);
    }
  }

  /** In every run no entry of a request table counts more than sixteen requests. */
  lemma CountsBounded(net: Net, es: seq<Event>, t: State, v: nat, e: Entry)
    requires Runs(net, Init(net), es, t) && v in t.dev && e in t.dev[v].table
    ensures e.count <= 16
  {
    NeverMoreThanSixteen(net, Init(net), es, t);
  }

  /**
    A timeout repeats the request, under a new number and from an empty list, if and only if no live route
    to the target is kept and fewer than sixteen were sent; without a route the sixteenth ends the discovery.
   */
  lemma TimeoutExactly(d: Device, me: nat, target: nat, t: real, i: nat)
    requires i == Pending(d.table, target) < |d.table|
    ensures var (after, again) := Timeout(d, me, target, t);
      && (again.Some? <==> !Knows(d.cache, target, t) && d.table[i].count < 16)
      && (again.Some? ==>
            && again.value == Request(me, (d.ident + 1) % 65536, target, [], 6) && after.ident == d.ident + 1
            && after.table == d.table[i := Entry(target, again.value.id, d.table[i].count + 1, false)])
      && (again == None ==> after.ident == d.ident)
      && (again == None ==> |after.table| == if Knows(d.cache, target, t) then |d.table| else |d.table| - 1)
      && (Knows(d.cache, target, t) ==> after.table == d.table)
  {
    hide Find, Live, Served, Usable;
    FindExactly(d.cache, target, t);
  }
}
