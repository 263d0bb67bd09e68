/**
  Route discovery of the DSR protocol (RFC 4728) as a state machine: requests that record the nodes
  they cross, replies that carry a list back, made by the target or from a cached route, and the routes
  every node keeps.

  A node is named by its address. A state holds every node's tables and the multiset of messages in
  flight; a broadcast is one message for each neighbour. A step delivers or loses any message, or
  starts, repeats or abandons a discovery, or looks up a route.
 */
module Dsr {
  import opened Basics

  // ---------------------------------------------------------------------------------------------
  // Data
  // ---------------------------------------------------------------------------------------------

  /** One entry of the request table. */
  datatype Entry = Entry(target: nat, id: nat, count: nat, flag: bool)

  datatype Route = Route(address: seq<nat>, timeOut: real)

  /** A route request; `optLen` is the length field of 8 bits that stands beside the list. */
  datatype Request = Request(source: nat, id: nat, target: nat, address: seq<nat>, optLen: nat)

  datatype Reply = Reply(address: seq<nat>, optLen: nat)

  datatype Message = Rreq(request: Request, to: nat) | Rrep(reply: Reply, to: nat)

  datatype Device = Device(ident: nat, table: seq<Entry>, cache: seq<Route>)

  const CACHE_TIMEOUT: real := 300_000_000.0
  const MAX_REQUESTS := 16

  /** The list's length as the length field tells it. */
  function RequestLength(r: Request): int {
    if r.optLen >= 6 then (r.optLen - 6) / 4 else -((6 - r.optLen) / 4)
  }

  function ReplyLength(r: Reply): int {
    (if r.optLen >= 3 then (r.optLen - 3) / 4 else 0) + 1
  }

  /** The length field tells the length of the list: only then can a node handle the request. */
  ghost predicate RequestFits(r: Request) {
    r.optLen == 6 + 4 * |r.address| < 256
  }

  /** The length field of a reply tells no more than there is. */
  ghost predicate ReplySane(r: Reply) {
    1 <= ReplyLength(r) <= |r.address|
  }

  /** The list as far as its length field tells it. */
  function Listed(r: Reply): (a: seq<nat>)
    requires ReplySane(r)
    ensures a != []
  {
    r.address[..ReplyLength(r)]
  }

  // ---------------------------------------------------------------------------------------------
  // One node: the request table and the route cache
  // ---------------------------------------------------------------------------------------------

  predicate Seen(table: seq<Entry>, r: Request) {
    exists i :: 0 <= i < |table| && table[i].id == r.id && table[i].target == r.target
  }

  /** The first unanswered entry for a target, or the table's length. */
  function Pending(table: seq<Entry>, target: nat): (i: nat)
    ensures i <= |table|
    ensures i < |table| ==> table[i].target == target && !table[i].flag
    ensures forall j :: 0 <= j < i ==> !(table[j].target == target && !table[j].flag)
  {
    if table == [] || (table[0].target == target && !table[0].flag) then 0 else Pending(table[1..], target) + 1
  }

  /** The first entry for a target, answered or not, or the table's length. */
  function EntryAt(table: seq<Entry>, target: nat): (i: nat)
    ensures i <= |table|
    ensures i < |table| ==> table[i].target == target
    ensures forall j :: 0 <= j < i ==> table[j].target != target
  {
    if table == [] || table[0].target == target then 0 else EntryAt(table[1..], target) + 1
  }

  /** The table without its first entry for a target. */
  function Without(table: seq<Entry>, target: nat): seq<Entry> {
    var i := EntryAt(table, target);
    if i < |table| then table[..i] + table[i + 1..] else table
  }

  /** Where an address first stands in a list, or the list's length. */
  function First(a: seq<nat>, v: nat): (i: nat)
    ensures i <= |a|
    ensures i < |a| <==> v in a
    ensures i < |a| ==> a[i] == v
    ensures forall j :: 0 <= j < i ==> a[j] != v
  {
    if a == [] || a[0] == v then 0 else First(a[1..], v) + 1
  }

  /** What the cache becomes, and the route found: expired routes on the way are freed, the one found is renewed. */
  function Find(cache: seq<Route>, dest: nat, t: real): (seq<Route>, Option<seq<nat>>) {
    if cache == [] then ([], None)
    else if cache[0].timeOut <= t then Find(cache[1..], dest, t)
    else if dest in cache[0].address then
      ([Route(cache[0].address, t + CACHE_TIMEOUT)] + cache[1..], Some(cache[0].address))
    else
      var (rest, found) := Find(cache[1..], dest, t);
      ([cache[0]] + rest, found)
  }

  /** The route a node keeps of a reply: the part of the list from its own first place on. */
  function Suffix(a: seq<nat>, me: nat): seq<nat> {
    a[First(a, me)..]
  }

  // ---------------------------------------------------------------------------------------------
  // One node: requests and replies
  // ---------------------------------------------------------------------------------------------

  /** What a node does with a request; a reply goes to the node that the request came from. */
  datatype Answer = Drop | Respond(reply: Reply, to: nat) | Rebroadcast(request: Request)

  /** A reply with its length field. */
  function Replied(a: seq<nat>): Reply
    requires a != []
  {
    Reply(a, (4 * (|a| - 1) + 3) % 256)
  }

  /** The target's reply: source, recorded list, target. */
  function ResponseTo(r: Request, me: nat): Reply {
    Replied([r.source] + r.address + [me])
  }

  /** The place after the last `v` among the first `k` of a list; 0 if there is none. */
  function AfterLast(a: seq<nat>, v: nat, k: nat): (n: nat)
    requires k <= |a|
    ensures n <= k
    ensures n == 0 <==> v !in a[..k]
    ensures n > 0 ==> a[n - 1] == v
    ensures v !in a[n..k]
  {
    if k == 0 then 0
    else if a[k - 1] == v then k
    else
      assert a[..k] == a[..k - 1] + [a[k - 1]];
      AfterLast(a, v, k - 1)
  }

  /** The part of a cached route that a reply lists: up to the target, from after the source if it is on it. */
  function Part(r: Request, route: seq<nat>): seq<nat>
    requires r.target in route
  {
    var k := First(route, r.target) + 1;
    route[AfterLast(route, r.source, k)..k]
  }

  /** The reply made from a cached route: source, recorded list, part of the route. */
  function FromRoute(r: Request, route: seq<nat>): Reply
    requires r.target in route
  {
    Replied([r.source] + r.address + Part(r, route))
  }

  /** No node of the route is on the list. */
  predicate Apart(route: seq<nat>, list: seq<nat>) {
    forall i :: 0 <= i < |route| ==> route[i] !in list
  }

  /** The node that a request came from: the last on its list, or its source. */
  function Sender(r: Request): nat {
    if r.address == [] then r.source else r.address[|r.address| - 1]
  }

  function PassedOn(r: Request, me: nat): Request {
    r.(address := r.address + [me], optLen := (r.optLen + 4) % 256)
  }

  lemma {:induction false} FindHolds(cache: seq<Route>, dest: nat, t: real)
    ensures var (rest, found) := Find(cache, dest, t);
      && (found.Some? ==> dest in found.value && found.value in Addresses(cache))
      && Addresses(rest) <= Addresses(cache)
  {
    if cache != [] {
      FindHolds(cache[1..], dest, t);
      AddressesSplit(cache);
      if cache[0].timeOut > t {
        var r := if dest in cache[0].address then [Route(cache[0].address, t + CACHE_TIMEOUT)] + cache[1..]
                 else [cache[0]] + Find(cache[1..], dest, t).0;
        AddressesSplit(r);
        assert r[1..] == if dest in cache[0].address then cache[1..] else Find(cache[1..], dest, t).0;
      }
    }
  }

  /** The routes in a cache, without their times. */
  ghost function Addresses(cache: seq<Route>): set<seq<nat>> {
    set k | 0 <= k < |cache| :: cache[k].address
  }

  lemma AddressesSplit(cache: seq<Route>)
    requires cache != []
    ensures Addresses(cache) == {cache[0].address} + Addresses(cache[1..])
  {
    forall a | a in Addresses(cache)
      ensures a in {cache[0].address} + Addresses(cache[1..])
    {
      var k :| 0 <= k < |cache| && cache[k].address == a;
      if k > 0 {
        assert cache[1..][k - 1] == cache[k];
      }
    }
    forall a | a in Addresses(cache[1..])
      ensures a in Addresses(cache)
    {
      var k :| 0 <= k < |cache[1..]| && cache[1..][k].address == a;
      assert cache[k + 1].address == a;
    }
  }

  lemma AddressesGrow(cache: seq<Route>, r: Route)
    ensures Addresses(cache + [r]) == Addresses(cache) + {r.address}
  {
    var after := cache + [r];
    assert after[|cache|] == r;
    forall k | 0 <= k < |cache|
      ensures after[k] == cache[k]
    {
    }
  }

  function ProcessRequest(d: Device, me: nat, r: Request, t: real): (Device, Answer)
    requires RequestFits(r)
  {
    if Seen(d.table, r) then (d, Drop)
    else
      var d1 := d.(table := d.table + [Entry(r.target, r.id, 1, false)]);
      if r.target == me then (d1, Respond(ResponseTo(r, me), Sender(r)))
      else if me in r.address then (d1, Drop)
      else
        FindHolds(d.cache, r.target, t);
        var (cache, found) := Find(d.cache, r.target, t);
        var d2 := Device(d.ident, d1.table + [Entry(r.target, r.id, 0, false)], cache);
        match found
        case Some(route) => (d2, if Apart(route, r.address) then Respond(FromRoute(r, route), Sender(r)) else Drop)
        case None => (d2, Rebroadcast(PassedOn(r, me)))
  }

  /** The next hop of a reply, unless it has arrived or the node is not on its list. */
  function NextHop(a: seq<nat>, me: nat): Option<nat>
    requires a != []
  {
    if a[0] == me || me !in a then None else Some(a[First(a, me) - 1])
  }

  function ProcessReply(d: Device, me: nat, a: seq<nat>, t: real): Device
    requires a != []
  {
    var i := Pending(d.table, a[|a| - 1]);
    Device(d.ident,
           if a[0] == me && i < |d.table| then d.table[i := d.table[i].(flag := true)] else d.table,
           d.cache + [Route(Suffix(a, me), t + CACHE_TIMEOUT)])
  }

  /** A discovery's first request. */
  function Discover(d: Device, me: nat, target: nat): (Device, Request) {
    var id := (d.ident + 1) % 65536;
    (d.(ident := d.ident + 1, table := d.table + [Entry(target, id, 1, false)]), Request(me, id, target, [], 6))
  }

  /** A timeout: nothing if a route is known, another request, or the end of the discovery. */
  function Timeout(d: Device, me: nat, target: nat, t: real): (Device, Option<Request>)
    requires Find(d.cache, target, t).1 == None ==> Pending(d.table, target) < |d.table|
  {
    var (cache, found) := Find(d.cache, target, t);
    if found != None then (d.(cache := cache), None)
    else
      var i := Pending(d.table, target);
      if d.table[i].count < MAX_REQUESTS then
        var id := (d.ident + 1) % 65536;
        var entry := d.table[i].(count := d.table[i].count + 1, id := id);
        (Device(d.ident + 1, d.table[i := entry], cache), Some(Request(me, id, target, [], 6)))
      else (Device(d.ident, Without(d.table, target), cache), None)
  }

  /** The entry that a timeout overwrites or removes, unless a route is known. */
  function Victim(d: Device, target: nat, t: real): (v: Option<nat>)
    requires Find(d.cache, target, t).1 == None ==> Pending(d.table, target) < |d.table|
    ensures v.Some? ==> v.value < |d.table| && d.table[v.value].target == target
  {
    if Find(d.cache, target, t).1 != None then None
    else
      var i := Pending(d.table, target);
      Some(if d.table[i].count < MAX_REQUESTS then i else EntryAt(d.table, target))
  }

  // ---------------------------------------------------------------------------------------------
  // The network
  // ---------------------------------------------------------------------------------------------

  datatype Net = Net(near: map<nat, set<nat>>) {
    predicate Linked(u: nat, v: nat) {
      u in near && v in near[u]
    }

    /** Links work both ways. */
    ghost predicate Valid() {
      forall u, v :: Linked(u, v) ==> Linked(v, u)
    }
  }

  /** What names a request to the nodes that see it, and its source. */
  datatype Ask = Ask(source: nat, target: nat, id: nat)

  /** `forgotten` is history: the requests whose entry their source has overwritten or removed. */
  datatype State = State(dev: map<nat, Device>, flight: multiset<Message>, forgotten: set<Ask>)

  datatype Event =
    | Start(node: nat, target: nat)
    | Expire(node: nat, target: nat, time: real)
    | LookUp(node: nat, dest: nat, time: real)
    | Deliver(message: Message, time: real)
    | Lose(message: Message)

  function Broadcast(net: Net, u: nat, r: Request): multiset<Message>
    requires u in net.near
  {
    multiset(set v | v in net.near[u] :: Rreq(r, v))
  }

  ghost predicate Shape(net: Net, s: State) {
    && net.Valid() && s.dev.Keys == net.near.Keys
    && forall m :: m in s.flight ==> m.to in net.near && (m.Rrep? ==> ReplySane(m.reply))
  }

  /** A request whose length field has wrapped is never handled: the program reads past its list. */
  ghost predicate Enabled(net: Net, s: State, e: Event)
    requires Shape(net, s)
  {
    match e
    case Start(v, target) => v in net.near && target in net.near && v != target
    case Expire(v, target, t) =>
      && v in net.near && target in net.near && v != target
      && (Find(s.dev[v].cache, target, t).1 == None ==> Pending(s.dev[v].table, target) < |s.dev[v].table|)
    case LookUp(v, _, _) => v in net.near
    case Deliver(m, _) => m in s.flight && (m.Rreq? ==> RequestFits(m.request))
    case Lose(m) => m in s.flight
  }

  ghost function Answered(net: Net, me: nat, a: Answer): multiset<Message>
    requires me in net.near
  {
    match a
    case Respond(reply, to) => multiset{Rrep(reply, to)}
    case Rebroadcast(r) => Broadcast(net, me, r)
    case Drop => multiset{}
  }

  /** What a reply becomes at a node it is delivered to. */
  ghost function Forwarded(reply: Reply, me: nat): multiset<Message>
    requires ReplySane(reply)
  {
    match NextHop(Listed(reply), me)
    case Some(hop) => multiset{Rrep(reply, hop)}
    case None => multiset{}
  }

  ghost function Apply(net: Net, s: State, e: Event): State
    requires Shape(net, s) && Enabled(net, s, e)
  {
    match e
    case Start(v, target) =>
      var (d, r) := Discover(s.dev[v], v, target);
      State(s.dev[v := d], s.flight + Broadcast(net, v, r), s.forgotten)
    case Expire(v, target, t) =>
      var (d, again) := Timeout(s.dev[v], v, target, t);
      var victim := Victim(s.dev[v], target, t);
      State(s.dev[v := d],
            s.flight + (if again.Some? then Broadcast(net, v, again.value) else multiset{}),
            s.forgotten + (if victim.Some? then {Ask(v, target, s.dev[v].table[victim.value].id)} else {}))
    case LookUp(v, dest, t) =>
      s.(dev := s.dev[v := s.dev[v].(cache := Find(s.dev[v].cache, dest, t).0)])
    case Deliver(m, t) =>
      var me := m.to;
      if m.Rreq? then
        var (d, a) := ProcessRequest(s.dev[me], me, m.request, t);
        State(s.dev[me := d], s.flight - multiset{m} + Answered(net, me, a), s.forgotten)
      else
        State(s.dev[me := ProcessReply(s.dev[me], me, Listed(m.reply), t)],
              s.flight - multiset{m} + Forwarded(m.reply, me), s.forgotten)
    case Lose(m) => s.(flight := s.flight - multiset{m})
  }

  ghost function Init(net: Net): State {
    State(map v | v in net.near :: Device(0, [], []), multiset{}, {})
  }

  /** The events in order, each enabled when it comes, lead from `s` to `t`. */
  ghost predicate Runs(net: Net, s: State, es: seq<Event>, t: State)
    decreases |es|
  {
    if es == [] then s == t
    else Shape(net, s) && Enabled(net, s, es[0]) && Runs(net, Apply(net, s, es[0]), es[1..], t)
  }

  // ---------------------------------------------------------------------------------------------
  // The invariant
  // ---------------------------------------------------------------------------------------------

  ghost predicate Inside(net: Net, a: seq<nat>) {
    forall i :: 0 <= i < |a| ==> a[i] in net.near
  }

  ghost predicate Path(net: Net, a: seq<nat>) {
    a != [] && Inside(net, a) && forall i :: 0 <= i < |a| - 1 ==> net.Linked(a[i], a[i + 1])
  }

  /** A request has recorded the path it took: no node twice, never the target. */
  ghost predicate RequestOk(net: Net, r: Request, to: nat) {
    && r.optLen == (6 + 4 * |r.address|) % 256
    && r.source in net.near && r.target in net.near && r.source != r.target
    && Distinct(r.address) && r.target !in r.address
    && Path(net, [r.source] + r.address + [to])
  }

  /** A reply lists nodes of the network, the target only at the end, and is at one of them. */
  ghost predicate ReplyOk(net: Net, reply: Reply, to: nat) {
    var a := reply.address;
    && |a| >= 2 && reply == Replied(a) && Inside(net, a)
    && a[|a| - 1] !in a[..|a| - 1] && to in a[..|a| - 1]
  }

  ghost predicate MessageOk(net: Net, m: Message) {
    match m
    case Rreq(r, to) => RequestOk(net, r, to)
    case Rrep(reply, to) => ReplyOk(net, reply, to)
  }

  ghost predicate CacheOk(net: Net, cache: seq<Route>) {
    forall a :: a in Addresses(cache) ==> Inside(net, a)
  }

  /** A source remembers its requests in flight, unless it has overwritten or removed their entry. */
  ghost predicate Remembered(s: State, r: Request) {
    && r.source in s.dev
    && (Ask(r.source, r.target, r.id) in s.forgotten
        || (Seen(s.dev[r.source].table, r) && r.source !in r.address))
  }

  ghost predicate Inv(net: Net, s: State) {
    && net.Valid() && s.dev.Keys == net.near.Keys
    && (forall m :: m in s.flight ==> MessageOk(net, m))
    && (forall v :: v in s.dev ==> CacheOk(net, s.dev[v].cache))
    && (forall m :: m in s.flight && m.Rreq? ==> Remembered(s, m.request))
  }

  // ---------------------------------------------------------------------------------------------
  // Lists
  // ---------------------------------------------------------------------------------------------

  lemma {:induction false} DistinctBound(a: seq<nat>, s: set<nat>)
    requires Distinct(a) && forall i :: 0 <= i < |a| ==> a[i] in s
    ensures |a| <= |s|
  {
    if a != [] {
      var n := |a| - 1;
      DistinctBound(a[..n], s - {a[n]});
    }
  }

  lemma PathExtends(net: Net, a: seq<nat>, v: nat)
    requires Path(net, a) && net.Linked(a[|a| - 1], v) && v in net.near
    ensures Path(net, a + [v])
  {
  }

  lemma LinkedInside(net: Net, u: nat, v: nat)
    requires net.Valid() && net.Linked(u, v)
    ensures v in net.near && net.Linked(v, u)
  {
  }

  lemma DistinctExtends(a: seq<nat>, v: nat)
    requires Distinct(a) && v !in a
    ensures Distinct(a + [v])
  {
  }

  lemma PathInside(net: Net, r: Request, to: nat)
    requires RequestOk(net, r, to)
    ensures forall i :: 0 <= i < |r.address| ==> r.address[i] in net.near
    ensures r.source in net.near && to in net.near
  {
    var p := [r.source] + r.address + [to];
    forall i | 0 <= i < |r.address|
      ensures r.address[i] in net.near
    {
      assert p[i + 1] == r.address[i];
    }
    assert p[|p| - 1] == to && p[0] == r.source;
  }

  /** A list without its target is shorter than the network. */
  lemma ListShort(net: Net, r: Request, to: nat)
    requires RequestOk(net, r, to)
    ensures |r.address| < |net.near| && to in net.near
  {
    PathInside(net, r, to);
    DistinctBound(r.address, net.near.Keys - {r.target});
    assert |net.near.Keys - {r.target}| == |net.near.Keys| - 1;
    assert |net.near.Keys| == |net.near|;
  }

  /** The sender of a request is the node before its receiver on the recorded path. */
  lemma SenderLinked(net: Net, r: Request, to: nat)
    requires RequestOk(net, r, to)
    ensures Sender(r) in net.near && net.Linked(Sender(r), to)
    ensures ([r.source] + r.address)[|r.address|] == Sender(r)
  {
    var p := [r.source] + r.address + [to];
    assert p[|r.address|] == Sender(r) && p[|r.address| + 1] == to;
  }

  /** A reply's length field never tells more than the list, and tells it all up to 64 nodes. */
  lemma RepliedLength(a: seq<nat>)
    requires a != []
    ensures ReplySane(Replied(a)) && (ReplyLength(Replied(a)) == |a| <==> |a| <= 64)
    ensures |a| <= 64 ==> Listed(Replied(a)) == a
  {
    var k := |a| - 1;
    assert (4 * k + 3) % 256 == 4 * (k % 64) + 3;
    assert k % 64 <= k;
  }

  // ---------------------------------------------------------------------------------------------
  // Replies are in order wherever they come from
  // ---------------------------------------------------------------------------------------------

  lemma PartEnds(r: Request, route: seq<nat>)
    requires r.target in route && r.source != r.target
    ensures var p := Part(r, route); p != [] && p[|p| - 1] == r.target && r.target !in p[..|p| - 1] && r.source !in p
    ensures forall i :: 0 <= i < |Part(r, route)| ==> Part(r, route)[i] in route
  {
    var k := First(route, r.target) + 1;
    var n := AfterLast(route, r.source, k);
    var p := Part(r, route);
    assert p == route[n..k];
    assert |p| == k - n && p[|p| - 1] == route[k - 1];
    forall i | 0 <= i < |p| - 1
      ensures p[i] != r.target
    {
      assert p[i] == route[n + i];
    }
  }

  /** A reply that starts with the recorded list and ends with the target is in order at the sender. */
  lemma AnsweredOk(net: Net, r: Request, me: nat, part: seq<nat>)
    requires RequestOk(net, r, me) && Inside(net, part)
    requires part != [] && part[|part| - 1] == r.target && r.target !in part[..|part| - 1]
    ensures ReplyOk(net, Replied([r.source] + r.address + part), Sender(r))
  {
    var a := [r.source] + r.address + part;
    PathInside(net, r, me);
    SenderLinked(net, r, me);
    hide Path, Distinct;
    assert a[|a| - 1] == r.target;
    assert a[..|a| - 1] == [r.source] + r.address + part[..|part| - 1];
    assert a[..|a| - 1][|r.address|] == Sender(r);
  }

  lemma FromRouteOk(net: Net, r: Request, me: nat, route: seq<nat>)
    requires RequestOk(net, r, me) && Inside(net, route) && r.target in route
    ensures ReplyOk(net, FromRoute(r, route), Sender(r))
  {
    PartEnds(r, route);
    var part := Part(r, route);
    forall i | 0 <= i < |part|
      ensures part[i] in net.near
    {
      assert part[i] in route;
    }
    AnsweredOk(net, r, me, part);
  }

  lemma ResponseOk(net: Net, r: Request, me: nat)
    requires RequestOk(net, r, me) && r.target == me
    ensures ReplyOk(net, ResponseTo(r, me), Sender(r))
  {
    AnsweredOk(net, r, me, [me]);
  }

  /** A node on the way of a reply passes it to a node before it on the list. */
  lemma ForwardedOk(net: Net, reply: Reply, me: nat, m: Message)
    requires ReplyOk(net, reply, me) && ReplySane(reply) && m in Forwarded(reply, me)
    ensures m.Rrep? && m.reply == reply && ReplyOk(net, reply, m.to)
  {
    var a, b := reply.address, Listed(reply);
    var k := First(b, me) - 1;
    assert b[k] == a[k] && a[..|a| - 1][k] == a[k];
  }

  lemma SaneReply(net: Net, reply: Reply, to: nat)
    requires ReplyOk(net, reply, to)
    ensures ReplySane(reply) && to in net.near
  {
    RepliedLength(reply.address);
    var a := reply.address;
    var i :| 0 <= i < |a| - 1 && a[..|a| - 1][i] == to;
    assert a[i] == to;
  }

  // ---------------------------------------------------------------------------------------------
  // What one device forgets
  // ---------------------------------------------------------------------------------------------

  /** Tables only forget through the discoveries of their own node. */
  lemma SeenGrows(table: seq<Entry>, e: Entry, r: Request)
    requires Seen(table, r)
    ensures Seen(table + [e], r)
  {
    var i :| 0 <= i < |table| && table[i].id == r.id && table[i].target == r.target;
    assert (table + [e])[i] == table[i];
  }

  lemma SeenFlagged(table: seq<Entry>, i: nat, r: Request)
    requires Seen(table, r) && i < |table|
    ensures Seen(table[i := table[i].(flag := true)], r)
  {
    var k :| 0 <= k < |table| && table[k].id == r.id && table[k].target == r.target;
    var u := table[i := table[i].(flag := true)];
    assert u[k].id == r.id && u[k].target == r.target;
  }

  lemma SeenNow(table: seq<Entry>, e: Entry, r: Request)
    requires e.id == r.id && e.target == r.target
    ensures Seen(table + [e], r)
  {
    assert (table + [e])[|table|] == e;
  }

  /** Overwriting or removing one entry forgets only its request. */
  lemma SeenOtherwise(table: seq<Entry>, i: nat, e: Entry, r: Request)
    requires Seen(table, r) && i < |table| && !(table[i].id == r.id && table[i].target == r.target)
    ensures Seen(table[i := e], r) && Seen(table[..i] + table[i + 1..], r)
  {
    var k :| 0 <= k < |table| && table[k].id == r.id && table[k].target == r.target;
    assert table[i := e][k] == table[k];
    assert (table[..i] + table[i + 1..])[if k < i then k else k - 1] == table[k];
  }

  /** A timeout forgets at most the request of its victim. */
  lemma TimeoutForgets(d: Device, me: nat, target: nat, t: real, q: Request)
    requires Find(d.cache, target, t).1 == None ==> Pending(d.table, target) < |d.table|
    requires Seen(d.table, q)
    ensures var victim := Victim(d, target, t);
      Seen(Timeout(d, me, target, t).0.table, q)
      || (victim.Some? && q.target == target && q.id == d.table[victim.value].id)
  {
    hide Seen, Find;
    if Find(d.cache, target, t).1 == None {
      var i := Victim(d, target, t).value;
      if !(d.table[i].id == q.id && d.table[i].target == q.target) {
        var id := (d.ident + 1) % 65536;
        SeenOtherwise(d.table, i, d.table[i].(count := d.table[i].count + 1, id := id), q);
      }
    }
  }

  /** The repeated request stands in its source's table. */
  lemma RepeatSeen(d: Device, me: nat, target: nat, t: real)
    requires Find(d.cache, target, t).1 == None ==> Pending(d.table, target) < |d.table|
    ensures var (after, again) := Timeout(d, me, target, t);
      && (again.Some? ==> Seen(after.table, again.value))
      && (again.Some? ==> again.value == Request(me, again.value.id, target, [], 6))
  {
    var (after, again) := Timeout(d, me, target, t);
    if again.Some? {
      var i := Pending(d.table, target);
      assert after.table[i].id == again.value.id && after.table[i].target == target;
    }
  }

  lemma DeviceAfterRequest(net: Net, d: Device, me: nat, r: Request, t: real)
    requires RequestFits(r) && CacheOk(net, d.cache)
    ensures CacheOk(net, ProcessRequest(d, me, r, t).0.cache)
    ensures forall q :: Seen(d.table, q) ==> Seen(ProcessRequest(d, me, r, t).0.table, q)
  {
    hide Seen, Addresses, Inside;
    FindHolds(d.cache, r.target, t);
    forall q | Seen(d.table, q)
      ensures Seen(ProcessRequest(d, me, r, t).0.table, q)
    {
      var e, f := Entry(r.target, r.id, 1, false), Entry(r.target, r.id, 0, false);
      SeenGrows(d.table, e, q);
      SeenGrows(d.table + [e], f, q);
    }
  }

  lemma DeviceAfterReply(net: Net, d: Device, me: nat, a: seq<nat>, t: real)
    requires a != [] && Inside(net, a) && CacheOk(net, d.cache)
    ensures CacheOk(net, ProcessReply(d, me, a, t).cache)
    ensures forall q :: Seen(d.table, q) ==> Seen(ProcessReply(d, me, a, t).table, q)
  {
    AddressesGrow(d.cache, Route(Suffix(a, me), t + CACHE_TIMEOUT));
    hide Addresses;
    assert Inside(net, Suffix(a, me));
    var i := Pending(d.table, a[|a| - 1]);
    hide Seen;
    forall q | Seen(d.table, q)
      ensures Seen(ProcessReply(d, me, a, t).table, q)
    {
      if i < |d.table| {
        SeenFlagged(d.table, i, q);
      }
    }
  }

  // ---------------------------------------------------------------------------------------------
  // Every step keeps the invariant
  // ---------------------------------------------------------------------------------------------

  lemma InvShape(net: Net, s: State)
    requires Inv(net, s)
    ensures Shape(net, s)
  {
    forall m | m in s.flight
      ensures m.to in net.near && (m.Rrep? ==> ReplySane(m.reply))
    {
      assert MessageOk(net, m);
      if m.Rreq? {
        PathInside(net, m.request, m.to);
      } else {
        SaneReply(net, m.reply, m.to);
      }
    }
  }

  /** A request that a node passes on is still in order, at every neighbour. */
  lemma RebroadcastOk(net: Net, r: Request, me: nat, v: nat)
    requires net.Valid() && RequestFits(r) && RequestOk(net, r, me) && r.target != me && me !in r.address
    requires net.Linked(me, v)
    ensures RequestOk(net, PassedOn(r, me), v)
  {
    var b := r.address + [me];
    PathInside(net, r, me);
    DistinctExtends(r.address, me);
    LinkedInside(net, me, v);
    PathExtends(net, [r.source] + r.address + [me], v);
    assert [r.source] + b + [v] == [r.source] + r.address + [me] + [v];
  }

  lemma FirstRequestOk(net: Net, me: nat, id: nat, target: nat, v: nat)
    requires net.Valid() && me in net.near && target in net.near && me != target && net.Linked(me, v)
    ensures RequestOk(net, Request(me, id, target, [], 6), v)
  {
    LinkedInside(net, me, v);
    assert [me] + [] + [v] == [me, v];
  }

  /** A device of one node changes, its requests in flight stay remembered, and new messages are in order. */
  lemma InvUpdate(net: Net, s: State, me: nat, d: Device, flight: multiset<Message>, forgotten: set<Ask>)
    requires Inv(net, s) && me in s.dev && CacheOk(net, d.cache)
    requires s.forgotten <= forgotten
    requires forall q :: Seen(s.dev[me].table, q) ==> Seen(d.table, q) || Ask(me, q.target, q.id) in forgotten
    requires forall m :: m in flight && m !in s.flight ==> MessageOk(net, m)
    requires forall m :: m in flight && m !in s.flight && m.Rreq? ==>
      Remembered(State(s.dev[me := d], flight, forgotten), m.request)
    ensures Inv(net, State(s.dev[me := d], flight, forgotten))
  {
    hide MessageOk, CacheOk, Seen;
    var t := State(s.dev[me := d], flight, forgotten);
    forall m | m in flight && m.Rreq?
      ensures Remembered(t, m.request)
    {
      if m in s.flight {
        assert Remembered(s, m.request);
      }
    }
  }

  lemma FloodOk(net: Net, s: State, me: nat, d: Device, r: Request, forgotten: set<Ask>)
    requires Inv(net, s) && me in s.dev && CacheOk(net, d.cache) && s.forgotten <= forgotten
    requires forall q :: Seen(s.dev[me].table, q) ==> Seen(d.table, q) || Ask(me, q.target, q.id) in forgotten
    requires forall v :: net.Linked(me, v) ==> RequestOk(net, r, v)
    requires Remembered(State(s.dev[me := d], multiset{}, forgotten), r)
    ensures Inv(net, State(s.dev[me := d], s.flight + Broadcast(net, me, r), forgotten))
  {
    hide RequestOk, CacheOk, Seen;
    var t := State(s.dev[me := d], s.flight + Broadcast(net, me, r), forgotten);
    forall m | m in t.flight && m !in s.flight
      ensures MessageOk(net, m) && (m.Rreq? ==> Remembered(t, m.request))
    {
      assert m in Broadcast(net, me, r);
    }
    InvUpdate(net, s, me, d, t.flight, forgotten);
  }

  lemma StartKeeps(net: Net, s: State, v: nat, target: nat)
    requires Inv(net, s) && Shape(net, s) && Enabled(net, s, Start(v, target))
    ensures Inv(net, Apply(net, s, Start(v, target)))
  {
    hide RequestOk, CacheOk, Seen, MessageOk;
    var (d, r) := Discover(s.dev[v], v, target);
    forall x | net.Linked(v, x)
      ensures RequestOk(net, r, x)
    {
      FirstRequestOk(net, v, r.id, target, x);
    }
    SeenNow(s.dev[v].table, Entry(target, r.id, 1, false), r);
    forall q | Seen(s.dev[v].table, q)
      ensures Seen(d.table, q)
    {
      SeenGrows(s.dev[v].table, Entry(target, r.id, 1, false), q);
    }
    FloodOk(net, s, v, d, r, s.forgotten);
  }

  lemma TimeoutCache(net: Net, d: Device, me: nat, target: nat, t: real)
    requires Find(d.cache, target, t).1 == None ==> Pending(d.table, target) < |d.table|
    requires CacheOk(net, d.cache)
    ensures CacheOk(net, Timeout(d, me, target, t).0.cache)
  {
    hide Addresses, Inside;
    FindHolds(d.cache, target, t);
  }

  lemma ExpireKeeps(net: Net, s: State, v: nat, target: nat, t: real)
    requires Inv(net, s) && Shape(net, s) && Enabled(net, s, Expire(v, target, t))
    ensures Inv(net, Apply(net, s, Expire(v, target, t)))
  {
    var d := s.dev[v];
    var (after, again) := Timeout(d, v, target, t);
    var u := Apply(net, s, Expire(v, target, t));
    assert CacheOk(net, d.cache);
    TimeoutCache(net, d, v, target, t);
    RepeatSeen(d, v, target, t);
    hide RequestOk, CacheOk, Seen, MessageOk, Find, Timeout, Broadcast;
    forall q | Seen(d.table, q)
      ensures Seen(after.table, q) || Ask(v, q.target, q.id) in u.forgotten
    {
      TimeoutForgets(d, v, target, t, q);
    }
    hide Victim;
    if again.Some? {
      forall x | net.Linked(v, x)
        ensures RequestOk(net, again.value, x)
      {
        FirstRequestOk(net, v, again.value.id, target, x);
      }
      FloodOk(net, s, v, after, again.value, u.forgotten);
    } else {
      InvUpdate(net, s, v, after, s.flight + multiset{}, u.forgotten);
    }
  }

  lemma LookUpKeeps(net: Net, s: State, v: nat, dest: nat, t: real)
    requires Inv(net, s) && Shape(net, s) && Enabled(net, s, LookUp(v, dest, t))
    ensures Inv(net, Apply(net, s, LookUp(v, dest, t)))
  {
    hide Addresses, Inside, Seen, MessageOk;
    FindHolds(s.dev[v].cache, dest, t);
    InvUpdate(net, s, v, s.dev[v].(cache := Find(s.dev[v].cache, dest, t).0), s.flight, s.forgotten);
  }

  lemma LoseKeeps(net: Net, s: State, m: Message)
    requires Inv(net, s) && m in s.flight
    ensures Inv(net, s.(flight := s.flight - multiset{m}))
  {
    hide MessageOk, CacheOk, Remembered;
    var t := s.(flight := s.flight - multiset{m});
    forall q | q in t.flight && q.Rreq?
      ensures Remembered(t, q.request)
    {
      SameMemory(s, t.flight, q.request);
    }
  }

  lemma SameMemory(s: State, flight: multiset<Message>, r: Request)
    requires Remembered(s, r)
    ensures Remembered(State(s.dev, flight, s.forgotten), r)
  {
  }

  lemma ReplyApplied(net: Net, s: State, m: Message, t: real)
    requires Shape(net, s) && m in s.flight && m.Rrep?
    ensures Apply(net, s, Deliver(m, t)) ==
      State(s.dev[m.to := ProcessReply(s.dev[m.to], m.to, Listed(m.reply), t)],
            s.flight - multiset{m} + Forwarded(m.reply, m.to), s.forgotten)
  {
    hide ProcessReply, Forwarded;
  }

  lemma ReplyKeeps(net: Net, s: State, m: Message, t: real)
    requires Inv(net, s) && Shape(net, s) && m in s.flight && m.Rrep?
    ensures Inv(net, Apply(net, s, Deliver(m, t)))
  {
    var me, a := m.to, Listed(m.reply);
    ReplyApplied(net, s, m, t);
    assert MessageOk(net, m) && Inside(net, m.reply.address) && CacheOk(net, s.dev[me].cache);
    assert Inside(net, a);
    hide CacheOk, Seen, ReplyOk, Inside, Apply, ProcessReply, Forwarded;
    DeviceAfterReply(net, s.dev[me], me, a, t);
    forall q | q in Forwarded(m.reply, me)
      ensures q.Rrep? && MessageOk(net, q)
    {
      ForwardedOk(net, m.reply, me, q);
    }
    InvUpdate(net, s, me, ProcessReply(s.dev[me], me, a, t), s.flight - multiset{m} + Forwarded(m.reply, me), s.forgotten);
  }

  /** A request passed on by a node is remembered by its source, or the source has forgotten it. */
  lemma StillRemembered(s: State, me: nat, d: Device, r: Request)
    requires Remembered(s, r) && me in s.dev && !Seen(s.dev[me].table, r)
    requires forall q :: Seen(s.dev[me].table, q) ==> Seen(d.table, q)
    ensures Remembered(State(s.dev[me := d], multiset{}, s.forgotten), PassedOn(r, me))
  {
    SameSeen(s.dev[me := d][r.source].table, r, PassedOn(r, me));
  }

  lemma SameSeen(table: seq<Entry>, r: Request, q: Request)
    requires r.id == q.id && r.target == q.target
    ensures Seen(table, r) == Seen(table, q)
  {
  }

  lemma RebroadcastKeeps(net: Net, s: State, me: nat, d: Device, r: Request)
    requires Inv(net, s) && me in s.dev && CacheOk(net, d.cache) && Remembered(s, r) && RequestOk(net, r, me)
    requires RequestFits(r) && !Seen(s.dev[me].table, r) && r.target != me && me !in r.address
    requires forall q :: Seen(s.dev[me].table, q) ==> Seen(d.table, q)
    ensures Inv(net, State(s.dev[me := d], s.flight + Broadcast(net, me, PassedOn(r, me)), s.forgotten))
  {
    hide CacheOk, Seen, RequestOk, Remembered, PassedOn;
    forall x | net.Linked(me, x)
      ensures RequestOk(net, PassedOn(r, me), x)
    {
      RebroadcastOk(net, r, me, x);
    }
    StillRemembered(s, me, d, r);
    FloodOk(net, s, me, d, PassedOn(r, me), s.forgotten);
  }

  lemma RespondKeeps(net: Net, s: State, me: nat, d: Device, reply: Reply, to: nat)
    requires Inv(net, s) && me in s.dev && CacheOk(net, d.cache) && ReplyOk(net, reply, to)
    requires forall q :: Seen(s.dev[me].table, q) ==> Seen(d.table, q)
    ensures Inv(net, State(s.dev[me := d], s.flight + multiset{Rrep(reply, to)}, s.forgotten))
  {
    hide CacheOk, Seen, RequestOk, ReplyOk;
    InvUpdate(net, s, me, d, s.flight + multiset{Rrep(reply, to)}, s.forgotten);
  }

  /** The cached route that a node answers a request from. */
  ghost function CachedAnswer(d: Device, me: nat, r: Request, t: real): (route: Option<seq<nat>>)
    ensures route.Some? ==> r.target in route.value && route.value in Addresses(d.cache)
  {
    FindHolds(d.cache, r.target, t);
    var found := Find(d.cache, r.target, t).1;
    if Seen(d.table, r) || r.target == me || me in r.address || found == None || !Apart(found.value, r.address)
    then None else found
  }

  /** What each answer tells of the request. */
  lemma AnswerTells(d: Device, me: nat, r: Request, t: real)
    requires RequestFits(r)
    ensures var (a, cached) := (ProcessRequest(d, me, r, t).1, CachedAnswer(d, me, r, t));
      && (a.Respond? ==> a.to == Sender(r))
      && (a.Respond? && cached == None ==> r.target == me && a.reply == ResponseTo(r, me))
      && (cached.Some? ==> a == Respond(FromRoute(r, cached.value), Sender(r)))
      && (a.Rebroadcast? ==> !Seen(d.table, r) && r.target != me && me !in r.address)
      && (a.Rebroadcast? ==> Find(d.cache, r.target, t).1 == None && a.request == PassedOn(r, me))
  {
    hide Seen, ResponseTo, Find, FromRoute, Sender, PassedOn, Apart;
  }

  /** A reply is in order whether the target made it or a node with a route. */
  lemma AnswerOk(net: Net, d: Device, me: nat, r: Request, t: real)
    requires RequestOk(net, r, me) && RequestFits(r) && CacheOk(net, d.cache)
    ensures var a := ProcessRequest(d, me, r, t).1; a.Respond? ==> ReplyOk(net, a.reply, a.to)
  {
    hide ReplyOk, RequestOk, RequestFits, Inside, Addresses, ProcessRequest;
    AnswerTells(d, me, r, t);
    var cached := CachedAnswer(d, me, r, t);
    if ProcessRequest(d, me, r, t).1.Respond? {
      if cached.Some? {
        FromRouteOk(net, r, me, cached.value);
      } else {
        ResponseOk(net, r, me);
      }
    }
  }

  lemma RequestKeeps(net: Net, s: State, m: Message, t: real)
    requires Inv(net, s) && Shape(net, s) && Enabled(net, s, Deliver(m, t)) && m.Rreq?
    ensures Inv(net, Apply(net, s, Deliver(m, t)))
  {
    var me, r := m.to, m.request;
    assert MessageOk(net, m) && Remembered(s, r) && CacheOk(net, s.dev[me].cache);
    hide CacheOk, Seen, RequestOk, ReplyOk, RequestFits, Remembered, PassedOn, Broadcast, ProcessRequest, CachedAnswer, Inv;
    var before := s.(flight := s.flight - multiset{m});
    LoseKeeps(net, s, m);
    SameMemory(s, before.flight, r);
    DeviceAfterRequest(net, s.dev[me], me, r, t);
    AnswerTells(s.dev[me], me, r, t);
    AnswerOk(net, s.dev[me], me, r, t);
    RequestApplied(net, s, m, t);
    hide Apply, Shape;
    var (d, a) := ProcessRequest(s.dev[me], me, r, t);
    match a
    case Rebroadcast(q) => RebroadcastKeeps(net, before, me, d, r);
    case Respond(reply, to) => RespondKeeps(net, before, me, d, reply, to);
    case Drop => SilentKeeps(net, before, me, d);
  }

  lemma RequestApplied(net: Net, s: State, m: Message, t: real)
    requires Shape(net, s) && m in s.flight && m.Rreq? && RequestFits(m.request)
    ensures var (d, a) := ProcessRequest(s.dev[m.to], m.to, m.request, t);
      Apply(net, s, Deliver(m, t)) == State(s.dev[m.to := d], s.flight - multiset{m} + Answered(net, m.to, a), s.forgotten)
  {
    hide ProcessRequest, Answered;
  }

  lemma SilentKeeps(net: Net, s: State, me: nat, d: Device)
    requires Inv(net, s) && me in s.dev && CacheOk(net, d.cache)
    requires forall q :: Seen(s.dev[me].table, q) ==> Seen(d.table, q)
    ensures Inv(net, State(s.dev[me := d], s.flight + multiset{}, s.forgotten))
  {
    hide CacheOk, Seen, MessageOk;
    InvUpdate(net, s, me, d, s.flight + multiset{}, s.forgotten);
  }

  lemma StepKeeps(net: Net, s: State, e: Event)
    requires Inv(net, s) && Shape(net, s) && Enabled(net, s, e)
    ensures Inv(net, Apply(net, s, e))
  {
    hide Inv, Apply, Shape;
    match e
    case Start(v, target) => StartKeeps(net, s, v, target);
    case Expire(v, target, t) => ExpireKeeps(net, s, v, target, t);
    case LookUp(v, dest, t) => LookUpKeeps(net, s, v, dest, t);
    case Deliver(m, t) =>
      if m.Rreq? {
        RequestKeeps(net, s, m, t);
      } else {
        ReplyKeeps(net, s, m, t);
      }
    case Lose(m) => LoseStep(net, s, m);
  }

  lemma LoseStep(net: Net, s: State, m: Message)
    requires Inv(net, s) && Shape(net, s) && m in s.flight
    ensures Inv(net, Apply(net, s, Lose(m)))
  {
    hide Inv;
    LoseKeeps(net, s, m);
  }

  lemma {:induction false} RunKeeps(net: Net, s: State, es: seq<Event>, t: State)
    requires Inv(net, s) && Runs(net, s, es, t)
    ensures Inv(net, t)
    decreases |es|
  {
    hide Inv, Apply, Shape, Enabled;
    if es != [] {
      StepKeeps(net, s, es[0]);
      RunKeeps(net, Apply(net, s, es[0]), es[1..], t);
    }
  }

  // ---------------------------------------------------------------------------------------------
  // What holds in every run
  // ---------------------------------------------------------------------------------------------

  lemma InitInv(net: Net)
    requires net.Valid()
    ensures Inv(net, Init(net))
  {
  }

  lemma AlwaysInv(net: Net, es: seq<Event>, t: State)
    requires net.Valid() && Runs(net, Init(net), es, t)
    ensures Inv(net, t)
  {
    hide Inv, Runs;
    InitInv(net);
    RunKeeps(net, Init(net), es, t);
  }

  /** In a network of at most 63 nodes a request's length field never wraps: every request in flight can be handled. */
  lemma LengthsNeverWrap(net: Net, es: seq<Event>, t: State, m: Message)
    requires net.Valid() && |net.near| <= 63 && Runs(net, Init(net), es, t) && m in t.flight && m.Rreq?
    ensures RequestFits(m.request)
  {
    hide Runs;
    AlwaysInv(net, es, t);
    assert MessageOk(net, m);
    ListShort(net, m.request, m.to);
  }

  /**
    A request in flight has recorded the path it took: real links, no node twice, never the target; and
    its length field tells the list's length up to 62 nodes.
   */
  lemma RecordedLists(net: Net, es: seq<Event>, t: State, m: Message)
    requires net.Valid() && Runs(net, Init(net), es, t) && m in t.flight && m.Rreq?
    ensures var r := m.request;
      && Path(net, [r.source] + r.address + [m.to]) && Distinct(r.address) && r.target !in r.address
      && (|r.address| <= 62 ==> RequestLength(r) == |r.address|)
  {
    hide Runs;
    AlwaysInv(net, es, t);
    assert MessageOk(net, m);
  }

  /**
    A reply in flight, whoever made it, is at a node on its list and lists the target only at the end; its
    length field tells the list's length exactly up to 64 nodes.
   */
  lemma RepliesEndAtTarget(net: Net, es: seq<Event>, t: State, m: Message)
    requires net.Valid() && Runs(net, Init(net), es, t) && m in t.flight && m.Rrep?
    ensures var a := m.reply.address;
      && m.to in a && a[|a| - 1] !in a[..|a| - 1] && (ReplyLength(m.reply) == |a| <==> |a| <= 64)
  {
    hide Runs;
    AlwaysInv(net, es, t);
    assert MessageOk(net, m);
    RepliedLength(m.reply.address);
  }

  // ---------------------------------------------------------------------------------------------
  // A reply on its way back
  // ---------------------------------------------------------------------------------------------

  /** The nodes a reply visits from `me` on. */
  ghost function Trace(a: seq<nat>, me: nat): seq<nat>
    requires a != []
    decreases First(a, me)
  {
    match NextHop(a, me)
    case None => [me]
    case Some(hop) =>
      HopLower(a, me);
      [me] + Trace(a, hop)
  }

  /** Each hop is strictly nearer the front of the list. */
  lemma HopLower(a: seq<nat>, me: nat)
    requires a != [] && NextHop(a, me).Some?
    ensures First(a, NextHop(a, me).value) < First(a, me)
    ensures NextHop(a, me).value in a
  {
  }

  /** The reply ends at the list's first node, after no more hops than its position, and visits no node twice. */
  lemma {:induction false} TraceArrives(a: seq<nat>, me: nat)
    requires me in a
    ensures var p := Trace(a, me);
      && p[|p| - 1] == a[0] && |p| <= First(a, me) + 1
      && (forall i :: 0 <= i < |p| ==> p[i] in a && First(a, p[i]) <= First(a, me) - i)
    decreases First(a, me)
  {
    var hop := NextHop(a, me);
    if hop.Some? {
      HopLower(a, me);
      TraceArrives(a, hop.value);
    }
  }

  /** The devices after a reply was carried from `me` to the end of its way. */
  ghost function Carry(dev: map<nat, Device>, a: seq<nat>, me: nat, t: real): map<nat, Device>
    requires a != [] && me in dev && forall v :: v in a ==> v in dev
    decreases First(a, me)
  {
    var after := dev[me := ProcessReply(dev[me], me, a, t)];
    match NextHop(a, me)
    case None => after
    case Some(hop) =>
      HopLower(a, me);
      Carry(after, a, hop, t)
  }

  /** Every node the reply passes keeps exactly its own part of the list, once; no other cache changes. */
  lemma {:induction false} CarryCaches(dev: map<nat, Device>, a: seq<nat>, me: nat, t: real, v: nat)
    requires me in a && v in dev && forall u :: u in a ==> u in dev
    ensures v in Carry(dev, a, me, t)
    ensures Carry(dev, a, me, t)[v].cache == dev[v].cache +
      if v in Trace(a, me) then [Route(a[First(a, v)..], t + CACHE_TIMEOUT)] else []
    decreases First(a, me)
  {
    var after := dev[me := ProcessReply(dev[me], me, a, t)];
    var hop := NextHop(a, me);
    if hop.Some? {
      HopLower(a, me);
      CarryCaches(after, a, hop.value, t, v);
      TraceArrives(a, hop.value);
    }
  }
}
