/**
  Requests that come back to their own source in DSR. RFC 4728 wants no request to list its source; here
  is exactly when the program keeps to that, what follows for replies and routes, and a run in which it
  does not.
 */
module DsrSources {
  import opened Basics
  import opened Dsr
  import opened DsrRuns

  // ---------------------------------------------------------------------------------------------
  // A source and its own requests
  // ---------------------------------------------------------------------------------------------

  ghost predicate ListsSource(m: Message) {
    m.Rreq? && m.request.source in m.request.address
  }

  ghost predicate NoneLists(s: State) {
    forall m :: m in s.flight ==> !ListsSource(m)
  }

  /** A source that gets its own request finds it in its table, or has a route to the target by now. */
  ghost predicate KeepsOwn(net: Net, s: State, e: Event)
    requires Shape(net, s) && Enabled(net, s, e)
  {
    e.Deliver? && e.message.Rreq? && e.message.to == e.message.request.source ==>
      var (d, r) := (s.dev[e.message.to], e.message.request);
      Seen(d.table, r) || Find(d.cache, r.target, e.time).1.Some?
  }

  /**
    In every reachable state: a request that comes back to its source unlisted goes out listing it exactly
    when the source's table does not hold it and no route to the target is cached.
   */
  lemma OwnRequestExactly(net: Net, es: seq<Event>, s: State, m: Message, t: real)
    requires net.Valid() && Runs(net, Init(net), es, s) && m in s.flight && m.Rreq? && RequestFits(m.request)
    requires m.to in s.dev && m.to == m.request.source && m.request.source !in m.request.address
    ensures var a := ProcessRequest(s.dev[m.to], m.to, m.request, t).1;
      (a.Rebroadcast? && m.request.source in a.request.address)
      <==> !Seen(s.dev[m.to].table, m.request) && Find(s.dev[m.to].cache, m.request.target, t).1 == None
  {
    hide Runs, Seen, Find, FromRoute, ResponseTo;
    AlwaysInv(net, es, s);
    assert MessageOk(net, m);
  }

  /** Only a source that meets its own request can put itself on a list. */
  lemma PassedOnLists(net: Net, r: Request, me: nat)
    requires net.Valid() && RequestOk(net, r, me) && r.source !in r.address && me in net.near
    ensures (exists q :: q in Broadcast(net, me, PassedOn(r, me)) && ListsSource(q)) <==> me == r.source
  {
    var p := PassedOn(r, me);
    SenderLinked(net, r, me);
    var q := Rreq(p, Sender(r));
    assert net.Linked(me, Sender(r)) && q in Broadcast(net, me, p);
    assert p.address[|r.address|] == me;
    forall x | x in Broadcast(net, me, p)
      ensures x.Rreq? && x.request == p
    {
    }
  }

  lemma OthersUnlisted(net: Net, s: State, e: Event)
    requires Inv(net, s) && Shape(net, s) && Enabled(net, s, e) && NoneLists(s) && (e.Deliver? ==> e.message.Rrep?)
    ensures NoneLists(Apply(net, s, e))
  {
    hide Inv, Timeout, Find, Victim, Discover, ProcessReply, NextHop;
    match e
    case Expire(v, target, t) => RepeatUnlisted(s.dev[v], v, target, t);
    case Start(v, target) => FirstIsEmpty(s.dev[v], v, target);
    case _ =>
  }

  lemma RepeatUnlisted(d: Device, me: nat, target: nat, t: real)
    requires Find(d.cache, target, t).1 == None ==> Pending(d.table, target) < |d.table|
    ensures var again := Timeout(d, me, target, t).1; again.Some? ==> again.value.address == []
  {
    RepeatSeen(d, me, target, t);
  }

  lemma FirstIsEmpty(d: Device, me: nat, target: nat)
    ensures Discover(d, me, target).1.address == []
  {
  }

  lemma AnswerUnlisted(net: Net, r: Request, me: nat, a: Answer)
    requires net.Valid() && RequestOk(net, r, me) && r.source !in r.address && me in net.near
    requires a.Rebroadcast? ==> a.request == PassedOn(r, me)
    ensures (exists q :: q in Answered(net, me, a) && ListsSource(q)) <==> a.Rebroadcast? && me == r.source
  {
    PassedOnLists(net, r, me);
    hide PassedOn, RequestOk;
    if a.Rebroadcast? && me == r.source {
      var q :| q in Broadcast(net, me, a.request) && ListsSource(q);
      assert q in Answered(net, me, a);
    }
  }

  lemma UnlistedAfter(s: State, m: Message, added: multiset<Message>, u: State)
    requires NoneLists(s) && u.flight == s.flight - multiset{m} + added
    ensures NoneLists(u) <==> !exists q :: q in added && ListsSource(q)
  {
    hide ListsSource;
    forall q | q in added && ListsSource(q)
      ensures q in u.flight
    {
    }
  }

  lemma RequestUnlisted(net: Net, s: State, m: Message, t: real)
    requires Inv(net, s) && Shape(net, s) && Enabled(net, s, Deliver(m, t)) && NoneLists(s) && m.Rreq?
    ensures NoneLists(Apply(net, s, Deliver(m, t))) <==> KeepsOwn(net, s, Deliver(m, t))
  {
    var me, r := m.to, m.request;
    var a := ProcessRequest(s.dev[me], me, r, t).1;
    assert MessageOk(net, m) && !ListsSource(m);
    hide Inv, RequestOk, ProcessRequest, CachedAnswer, Answered, PassedOn, Seen, Find, RequestFits;
    RequestApplied(net, s, m, t);
    AnswerTells(s.dev[me], me, r, t);
    RebroadcastExactly(s.dev[me], me, r, t);
    AnswerUnlisted(net, r, me, a);
    UnlistedAfter(s, m, Answered(net, me, a), Apply(net, s, Deliver(m, t)));
    hide Apply, Shape;
  }

  lemma RebroadcastExactly(d: Device, me: nat, r: Request, t: real)
    requires RequestFits(r)
    ensures ProcessRequest(d, me, r, t).1.Rebroadcast? <==>
      !Seen(d.table, r) && r.target != me && me !in r.address && Find(d.cache, r.target, t).1 == None
  {
    hide Seen, Find, FromRoute, ResponseTo;
  }

  /** An event lets a request list its source exactly when a source forgot its own request and knows no route. */
  lemma OwnStepExactly(net: Net, s: State, e: Event)
    requires Inv(net, s) && Shape(net, s) && Enabled(net, s, e) && NoneLists(s)
    ensures NoneLists(Apply(net, s, e)) <==> KeepsOwn(net, s, e)
  {
    if e.Deliver? && e.message.Rreq? {
      RequestUnlisted(net, s, e.message, e.time);
    } else {
      OthersUnlisted(net, s, e);
    }
  }

  /** Every source that meets its own request in the run recognises it or knows a route. */
  ghost predicate AllKeepOwn(net: Net, s: State, es: seq<Event>)
    decreases |es|
  {
    es == [] || (Shape(net, s) && Enabled(net, s, es[0]) && KeepsOwn(net, s, es[0])
                 && AllKeepOwn(net, Apply(net, s, es[0]), es[1..]))
  }

  ghost predicate NeverListed(net: Net, s: State, es: seq<Event>)
    decreases |es|
  {
    NoneLists(s)
    && (es == [] || (Shape(net, s) && Enabled(net, s, es[0]) && NeverListed(net, Apply(net, s, es[0]), es[1..])))
  }

  lemma {:induction false} NeverListedFrom(net: Net, s: State, es: seq<Event>, t: State)
    requires Inv(net, s) && NoneLists(s) && Runs(net, s, es, t)
    ensures NeverListed(net, s, es) <==> AllKeepOwn(net, s, es)
    decreases |es|
  {
    hide Inv, Apply, Shape, Enabled, NoneLists, KeepsOwn;
    if es != [] {
      OwnStepExactly(net, s, es[0]);
      StepKeeps(net, s, es[0]);
      if KeepsOwn(net, s, es[0]) {
        NeverListedFrom(net, Apply(net, s, es[0]), es[1..], t);
      } else {
        ListedOnce(net, Apply(net, s, es[0]), es[1..]);
      }
    }
  }

  lemma ListedOnce(net: Net, s: State, es: seq<Event>)
    requires !NoneLists(s)
    ensures !NeverListed(net, s, es)
  {
  }

  /** In a run no request ever lists its source if and only if every source keeps its own requests. */
  lemma NeverListedExactly(net: Net, es: seq<Event>, t: State)
    requires net.Valid() && Runs(net, Init(net), es, t)
    ensures NeverListed(net, Init(net), es) <==> AllKeepOwn(net, Init(net), es)
  {
    InitInv(net);
    hide Inv, Runs;
    NeverListedFrom(net, Init(net), es, t);
  }

  /** A request whose source has not overwritten or removed its entry does not list it, and gets a simple path. */
  lemma SimplePaths(net: Net, es: seq<Event>, t: State, m: Message)
    requires net.Valid() && Runs(net, Init(net), es, t) && m in t.flight && m.Rreq?
    requires Ask(m.request.source, m.request.target, m.request.id) !in t.forgotten
    ensures m.request.source !in m.request.address
    ensures m.to == m.request.target ==> Distinct(ResponseTo(m.request, m.to).address)
  {
    hide Runs;
    AlwaysInv(net, es, t);
    assert MessageOk(net, m) && Remembered(t, m.request);
    if m.to == m.request.target {
      DistinctAnswer(m.request, [m.to]);
    }
  }

  // ---------------------------------------------------------------------------------------------
  // Simple replies and routes
  // ---------------------------------------------------------------------------------------------

  lemma DistinctJoin(a: seq<nat>, b: seq<nat>)
    requires Distinct(a) && Distinct(b) && forall i :: 0 <= i < |b| ==> b[i] !in a
    ensures Distinct(a + b)
  {
    forall i, j | 0 <= i < j < |a + b|
      ensures (a + b)[i] != (a + b)[j]
    {
      if i < |a| <= j {
        assert b[j - |a|] !in a;
      }
    }
  }

  /** A reply is simple if the parts it is put together from are simple and apart. */
  lemma DistinctAnswer(r: Request, part: seq<nat>)
    requires Distinct(r.address) && r.source !in r.address && Distinct(part) && r.source !in part
    requires forall i :: 0 <= i < |part| ==> part[i] !in r.address
    ensures Distinct([r.source] + r.address + part)
  {
    DistinctJoin([r.source], r.address);
    forall i | 0 <= i < |part|
      ensures part[i] !in [r.source] + r.address
    {
      assert part[i] in part;
    }
    DistinctJoin([r.source] + r.address, part);
  }

  lemma DistinctSlice(a: seq<nat>, i: nat, k: nat)
    requires Distinct(a) && i <= k <= |a|
    ensures Distinct(a[i..k])
  {
    var b := a[i..k];
    forall x, y | 0 <= x < y < |b|
      ensures b[x] != b[y]
    {
      assert b[x] == a[i + x] && b[y] == a[i + y];
    }
  }

  ghost predicate SimpleCache(cache: seq<Route>) {
    forall a :: a in Addresses(cache) ==> Distinct(a)
  }

  /** No request lists its source, and no node stands twice on a reply or a route. */
  ghost predicate SimpleState(s: State) {
    && NoneLists(s)
    && (forall m :: m in s.flight && m.Rrep? ==> Distinct(m.reply.address))
    && (forall v :: v in s.dev ==> SimpleCache(s.dev[v].cache))
  }

  lemma SimpleFromRoute(net: Net, r: Request, me: nat, route: seq<nat>)
    requires RequestOk(net, r, me) && r.source !in r.address && r.target in route
    requires Distinct(route) && Apart(route, r.address)
    ensures Distinct(FromRoute(r, route).address)
  {
    PartEnds(r, route);
    var k := First(route, r.target) + 1;
    DistinctSlice(route, AfterLast(route, r.source, k), k);
    var part := Part(r, route);
    forall i | 0 <= i < |part|
      ensures part[i] !in r.address
    {
      assert part[i] in route;
    }
    hide Distinct;
    DistinctAnswer(r, part);
  }

  lemma SimpleAnswer(net: Net, d: Device, me: nat, r: Request, t: real)
    requires RequestOk(net, r, me) && RequestFits(r) && r.source !in r.address && SimpleCache(d.cache)
    ensures var a := ProcessRequest(d, me, r, t).1; a.Respond? ==> Distinct(a.reply.address)
    ensures SimpleCache(ProcessRequest(d, me, r, t).0.cache)
  {
    AnswerTells(d, me, r, t);
    FindHolds(d.cache, r.target, t);
    var cached := CachedAnswer(d, me, r, t);
    hide Addresses, Distinct, Find, Seen;
    if cached.Some? {
      SimpleFromRoute(net, r, me, cached.value);
    } else if r.target == me {
      OneIsDistinct(me);
      DistinctAnswer(r, [me]);
    }
  }

  lemma OneIsDistinct(v: nat)
    ensures Distinct([v])
  {
  }

  lemma SimpleUpdate(s: State, me: nat, d: Device, flight: multiset<Message>, forgotten: set<Ask>)
    requires SimpleState(s) && me in s.dev && SimpleCache(d.cache)
    requires forall m :: m in flight && m !in s.flight ==> !ListsSource(m) && (m.Rrep? ==> Distinct(m.reply.address))
    ensures SimpleState(State(s.dev[me := d], flight, forgotten))
  {
    hide SimpleCache, Distinct;
  }

  lemma SimpleRequest(net: Net, s: State, m: Message, t: real)
    requires Inv(net, s) && Shape(net, s) && Enabled(net, s, Deliver(m, t)) && SimpleState(s) && m.Rreq?
    requires KeepsOwn(net, s, Deliver(m, t))
    ensures SimpleState(Apply(net, s, Deliver(m, t)))
  {
    var me, r := m.to, m.request;
    assert MessageOk(net, m) && !ListsSource(m) && SimpleCache(s.dev[me].cache);
    RequestUnlisted(net, s, m, t);
    RequestApplied(net, s, m, t);
    SimpleAnswer(net, s.dev[me], me, r, t);
    hide Inv, RequestOk, ProcessRequest, SimpleCache, Distinct, KeepsOwn, Apply;
    var (d, a) := ProcessRequest(s.dev[me], me, r, t);
    var u := Apply(net, s, Deliver(m, t));
    forall q | q in u.flight && q !in s.flight
      ensures q.Rrep? ==> Distinct(q.reply.address)
    {
    }
    SimpleUpdate(s, me, d, u.flight, s.forgotten);
  }

  lemma SimpleReply(net: Net, s: State, m: Message, t: real)
    requires Inv(net, s) && Shape(net, s) && m in s.flight && SimpleState(s) && m.Rrep?
    ensures SimpleState(Apply(net, s, Deliver(m, t)))
  {
    var me, a := m.to, Listed(m.reply);
    ReplyApplied(net, s, m, t);
    var d := ProcessReply(s.dev[me], me, a, t);
    assert Distinct(m.reply.address) && SimpleCache(s.dev[me].cache);
    DistinctSlice(m.reply.address, 0, ReplyLength(m.reply));
    DistinctSlice(a, First(a, me), |a|);
    AddressesGrow(s.dev[me].cache, Route(Suffix(a, me), t + CACHE_TIMEOUT));
    hide Inv, Distinct, Addresses, Apply;
    SimpleUpdate(s, me, d, s.flight - multiset{m} + Forwarded(m.reply, me), s.forgotten);
  }

  lemma SimpleExpire(net: Net, s: State, v: nat, target: nat, t: real)
    requires Shape(net, s) && Enabled(net, s, Expire(v, target, t)) && SimpleState(s)
    requires NoneLists(Apply(net, s, Expire(v, target, t)))
    ensures SimpleState(Apply(net, s, Expire(v, target, t)))
  {
    FindHolds(s.dev[v].cache, target, t);
    var again := Timeout(s.dev[v], v, target, t).1;
    if again.Some? {
      BroadcastIsRequests(net, v, again.value);
    }
    hide Addresses, Distinct, NoneLists, Find, Broadcast, Victim;
  }

  lemma SimpleStart(net: Net, s: State, v: nat, target: nat)
    requires Shape(net, s) && Enabled(net, s, Start(v, target)) && SimpleState(s)
    requires NoneLists(Apply(net, s, Start(v, target)))
    ensures SimpleState(Apply(net, s, Start(v, target)))
  {
    BroadcastIsRequests(net, v, Discover(s.dev[v], v, target).1);
    hide Addresses, Distinct, NoneLists, Broadcast;
  }

  lemma SimpleLookUp(net: Net, s: State, v: nat, dest: nat, t: real)
    requires Shape(net, s) && Enabled(net, s, LookUp(v, dest, t)) && SimpleState(s)
    ensures SimpleState(Apply(net, s, LookUp(v, dest, t)))
  {
    FindHolds(s.dev[v].cache, dest, t);
    hide Addresses, Distinct, ListsSource, Find;
  }

  lemma SimpleOther(net: Net, s: State, e: Event)
    requires Inv(net, s) && Shape(net, s) && Enabled(net, s, e) && SimpleState(s) && !e.Deliver?
    ensures SimpleState(Apply(net, s, e))
  {
    OthersUnlisted(net, s, e);
    hide Inv, Addresses, Distinct, ListsSource, Find, Broadcast, Timeout, Victim, Discover, SimpleCache;
    match e
    case Start(v, target) => SimpleStart(net, s, v, target);
    case Expire(v, target, t) => SimpleExpire(net, s, v, target, t);
    case LookUp(v, dest, t) => SimpleLookUp(net, s, v, dest, t);
    case Lose(m) =>
  }

  lemma SimpleStep(net: Net, s: State, e: Event)
    requires Inv(net, s) && Shape(net, s) && Enabled(net, s, e) && SimpleState(s) && KeepsOwn(net, s, e)
    ensures SimpleState(Apply(net, s, e))
  {
    hide Inv, SimpleState, Apply, KeepsOwn, Shape;
    if !e.Deliver? {
      SimpleOther(net, s, e);
    } else if e.message.Rreq? {
      SimpleRequest(net, s, e.message, e.time);
    } else {
      SimpleReply(net, s, e.message, e.time);
    }
  }

  lemma {:induction false} SimpleRun(net: Net, s: State, es: seq<Event>, t: State)
    requires Inv(net, s) && SimpleState(s) && Runs(net, s, es, t) && AllKeepOwn(net, s, es)
    ensures SimpleState(t)
    decreases |es|
  {
    hide Inv, SimpleState, Apply, KeepsOwn, Shape, Enabled;
    if es != [] {
      SimpleStep(net, s, es[0]);
      StepKeeps(net, s, es[0]);
      SimpleRun(net, Apply(net, s, es[0]), es[1..], t);
    }
  }

  /**
    Where every source keeps its own requests, no node stands twice on a reply or on a cached route, whoever
    made them; and in networks of at most 64 nodes the length field of every reply tells its whole list.
   */
  lemma SimpleRoutes(net: Net, es: seq<Event>, t: State)
    requires net.Valid() && Runs(net, Init(net), es, t) && AllKeepOwn(net, Init(net), es)
    ensures forall m :: m in t.flight && m.Rrep? ==> Distinct(m.reply.address)
    ensures forall m :: m in t.flight && m.Rrep? && |net.near| <= 64 ==> ReplyLength(m.reply) == |m.reply.address|
    ensures forall v, a :: v in t.dev && a in Addresses(t.dev[v].cache) ==> Distinct(a)
  {
    InitInv(net);
    AlwaysInv(net, es, t);
    assert SimpleState(Init(net));
    SimpleRun(net, Init(net), es, t);
    hide Runs, Distinct, AllKeepOwn;
    forall m | m in t.flight && m.Rrep? && |net.near| <= 64
      ensures ReplyLength(m.reply) == |m.reply.address|
    {
      assert MessageOk(net, m) && Distinct(m.reply.address);
      DistinctBound(m.reply.address, net.near.Keys);
      RepliedLength(m.reply.address);
      assert |net.near.Keys| == |net.near|;
    }
  }

  // ---------------------------------------------------------------------------------------------
  // A source may meet its own request
  // ---------------------------------------------------------------------------------------------

  function Pair(): Net {
    Net(map[0 := {1}, 1 := {0}, 9 := {}])
  }

  lemma PairLinks()
    ensures Pair().Valid() && Pair().near.Keys == {0, 1, 9} && Pair().near[0] == {1} && Pair().near[1] == {0}
  {
  }

  /** A run of five events after which a request lists its own source. */
  lemma SourceMayReappear() returns (es: seq<Event>, t: State, m: Message)
    ensures Pair().Valid() && Runs(Pair(), Init(Pair()), es, t)
    ensures m in t.flight && m.Rreq? && m.request.source in m.request.address
  {
    PairLinks();
    hide Pair, Runs, Reached;
    var r := Request(0, 2, 9, [], 6);
    var q := PassedOn(r, 1);
    var s1 := FirstAsks(Pair(), 0, 9);
    var s2, d2 := AsksAgain(Pair(), s1, 0, 9, 1, 0.0);
    var s3, d3 := BlankPasses(Pair(), s2, 1, r, 0.0);
    var s4, d4 := AsksAgain(Pair(), s3, 0, 9, 2, 0.0);
    var s5, d5 := Passes(Pair(), s4, 0, q, 0.0);
    t := s5;
    m := Rreq(PassedOn(q, 0), 1);
    assert m.request.address[1] == 0;
    es := RunOf(Pair(), t);
  }
}
