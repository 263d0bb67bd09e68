/**
  The flooding of AODV route requests (sections 6.3 to 6.5 of RFC 3561) as a state machine over
  every order of deliveries and losses.

  What a node's route table answers, and the time to live the lower layers leave on a packet, are
  chosen freely at each delivery. `acts` is history: who handled which request as new, from whom, with what
  at hand, and what came of it.
 */
module AodvFlood {
  import opened Basics

  datatype Net = Net(near: map<nat, set<nat>>) {
    predicate Linked(u: nat, v: nat) {
      u in near && v in near[u]
    }

    ghost predicate Valid() {
      forall u, v :: Linked(u, v) ==> v in near
    }
  }

  /** What identifies a request. */
  datatype Pair = Pair(originator: nat, id: nat)

  datatype Request = Request(pair: Pair, dest: nat, hopCount: nat, last: nat)

  datatype Message = Message(request: Request, to: nat)

  datatype State = State(seen: map<nat, seq<Pair>>, counter: nat, flight: multiset<Message>, acts: seq<Act>)

  datatype Verdict = Ignore | Answer | Forward | Stop

  /** Node `node` handled a request for `dest` as new: `route` is the next hop its table had for it. */
  datatype Act = Act(node: nat, pair: Pair, dest: nat, last: nat, hopCount: nat,
                     ttl: nat, route: Option<nat>, verdict: Verdict)

  // ---------------------------------------------------------------------------------------------
  // One node
  // ---------------------------------------------------------------------------------------------

  function ForwardOrStop(ttl: nat): Verdict {
    if ttl == 1 then Stop else Forward
  }

  /**
    What node `me` does with a request: `route` is the next hop its table has for the destination.
    A node that would route back over the node it heard from forwards instead of answering.
   */
  function Receive(seen: seq<Pair>, me: nat, r: Request, ttl: nat, route: Option<nat>): (seq<Pair>, Verdict) {
    if r.pair in seen then (seen, Ignore)
    else
      (seen + [r.pair],
       if me == r.dest then Answer
       else if route.Some? && route.value != r.last then Answer
       else ForwardOrStop(ttl))
  }

  function Forwarded(r: Request, me: nat): Request {
    r.(hopCount := (r.hopCount + 1) % 256, last := me)
  }

  class Node {
    const me: nat
    var seen: seq<Pair>

    constructor (address: nat)
      ensures me == address && seen == []
    {
      me, seen := address, [];
    }

    method CheckSeen(r: Request) returns (found: bool)
      ensures found <==> r.pair in seen
    {
      for i := 0 to |seen|
        invariant r.pair !in seen[..i]
      {
        if seen[i].originator == r.pair.originator && seen[i].id == r.pair.id {
          return true;
        }
      }
      found := false;
    }

    method InsertSeen(originator: nat, id: nat)
      modifies this
      ensures seen == old(seen) + [Pair(originator, id)]
    {
      seen := seen + [Pair(originator, id)];
    }

    /** A new request: the node marks it seen before it sends it. */
    method Generate(dest: nat, counter: nat) returns (r: Request, next: nat)
      modifies this
      ensures next == (counter + 1) % 0x1_0000_0000
      ensures r == Request(Pair(me, next), dest, 0, me) && seen == old(seen) + [r.pair]
    {
      next := (counter + 1) % 0x1_0000_0000;
      r := Request(Pair(me, next), dest, 0, me);
      InsertSeen(me, next);
    }

    method ProcessRreq(r: Request, ttl: nat, route: Option<nat>) returns (verdict: Verdict, out: Request)
      modifies this
      ensures (seen, verdict) == Receive(old(seen), me, r, ttl, route)
      ensures out == if verdict == Forward then Forwarded(r, me) else r
    {
      out := r;
      var found := CheckSeen(r);
      if found {
        return Ignore, r;
      }
      InsertSeen(r.pair.originator, r.pair.id);
      if me == r.dest {
        return Answer, r;
      }
      if route.Some? {
        if route.value != r.last {
          return Answer, r;
        }
      }
      if ttl == 1 {
        return Stop, r;
      }
      verdict, out := Forward, r.(hopCount := (r.hopCount + 1) % 256, last := me);
    }
  }

  // ---------------------------------------------------------------------------------------------
  // The network
  // ---------------------------------------------------------------------------------------------

  datatype Event =
    | Originate(node: nat, dest: nat)
    | Deliver(message: Message, ttl: nat, route: Option<nat>)
    | Lose(message: Message)

  ghost function Broadcast(net: Net, u: nat, r: Request): multiset<Message>
    requires u in net.near
  {
    multiset(set v | v in net.near[u] :: Message(r, v))
  }

  function ActOn(m: Message, ttl: nat, route: Option<nat>, verdict: Verdict): Act {
    Act(m.to, m.request.pair, m.request.dest, m.request.last, m.request.hopCount, ttl, route, verdict)
  }

  ghost predicate Enabled(net: Net, s: State, e: Event) {
    match e
    case Originate(v, _) => v in net.near && v in s.seen
    case Deliver(m, _, _) => m in s.flight && m.to in net.near && m.to in s.seen
    case Lose(m) => m in s.flight
  }

  ghost function Apply(net: Net, s: State, e: Event): State
    requires Enabled(net, s, e)
  {
    match e
    case Originate(v, dest) =>
      var id := (s.counter + 1) % 0x1_0000_0000;
      State(s.seen[v := s.seen[v] + [Pair(v, id)]], id,
            s.flight + Broadcast(net, v, Request(Pair(v, id), dest, 0, v)), s.acts)
    case Deliver(m, ttl, route) =>
      var (seen, verdict) := Receive(s.seen[m.to], m.to, m.request, ttl, route);
      State(s.seen[m.to := seen], s.counter,
            s.flight - multiset{m}
            + (if verdict == Forward then Broadcast(net, m.to, Forwarded(m.request, m.to)) else multiset{}),
            if verdict == Ignore then s.acts else s.acts + [ActOn(m, ttl, route, verdict)])
    case Lose(m) => s.(flight := s.flight - multiset{m})
  }

  function Init(net: Net): State {
    State(map v | v in net.near :: [], 0, multiset{}, [])
  }

  ghost predicate Runs(net: Net, s: State, es: seq<Event>, t: State)
    decreases |es|
  {
    if es == [] then s == t else Enabled(net, s, es[0]) && Runs(net, Apply(net, s, es[0]), es[1..], t)
  }

  // ---------------------------------------------------------------------------------------------
  // The invariant
  // ---------------------------------------------------------------------------------------------

  /** The request came from its originator, or with one hop more from a node that passed it on before. */
  ghost predicate Heard(acts: seq<Act>, n: nat, pair: Pair, last: nat, hops: nat) {
    || (last == pair.originator && hops == 0)
    || exists j :: 0 <= j < n <= |acts| && Passed(acts[j], pair, last, hops)
  }

  ghost predicate Passed(a: Act, pair: Pair, last: nat, hops: nat) {
    a.node == last && a.pair == pair && hops == (a.hopCount + 1) % 256 && a.verdict == Forward
  }

  /** A node can answer as the destination, or from a route that does not lead over the node it heard from. */
  ghost predicate CanAnswer(a: Act) {
    a.node == a.dest || (a.route.Some? && a.route.value != a.last)
  }

  /** Whoever can answer answers; the others pass the request on until its time to live runs out. */
  ghost predicate Rightly(a: Act) {
    && (a.verdict == Answer <==> CanAnswer(a))
    && (a.verdict == Stop <==> !CanAnswer(a) && a.ttl == 1)
    && (a.verdict == Forward <==> !CanAnswer(a) && a.ttl != 1)
  }

  ghost predicate MessageOk(net: Net, s: State, m: Message) {
    var pair := m.request.pair;
    && m.to in net.near && net.Linked(m.request.last, m.to)
    && pair.originator in s.seen && pair in s.seen[pair.originator]
    && Heard(s.acts, |s.acts|, pair, m.request.last, m.request.hopCount)
    && (m.request.last == m.request.dest ==> pair.originator == m.request.dest)
  }

  ghost predicate ActOk(net: Net, s: State, k: nat)
    requires k < |s.acts|
  {
    var a := s.acts[k];
    && a.node in s.seen && a.pair in s.seen[a.node] && a.node != a.pair.originator
    && net.Linked(a.last, a.node) && Heard(s.acts, k, a.pair, a.last, a.hopCount) && Rightly(a)
  }

  /** No node handles the same request twice. */
  ghost predicate Once(acts: seq<Act>) {
    forall i, j :: 0 <= i < j < |acts| ==> !(acts[i].node == acts[j].node && acts[i].pair == acts[j].pair)
  }

  ghost predicate Inv(net: Net, s: State) {
    && net.Valid() && s.seen.Keys == net.near.Keys
    && (forall m :: m in s.flight ==> MessageOk(net, s, m))
    && (forall k :: 0 <= k < |s.acts| ==> ActOk(net, s, k))
    && Once(s.acts)
  }

  lemma InitInv(net: Net)
    requires net.Valid()
    ensures Inv(net, Init(net))
  {
  }

  /** Tables and history only grow, so what was in order stays in order. */
  ghost predicate Grows(s: State, t: State) {
    && s.seen.Keys == t.seen.Keys
    && (forall v, p :: v in s.seen && p in s.seen[v] ==> p in t.seen[v])
    && s.acts <= t.acts
  }

  lemma HeardGrows(a: seq<Act>, b: seq<Act>, n: nat, m: nat, pair: Pair, last: nat, hops: nat)
    requires Heard(a, n, pair, last, hops) && a <= b && n <= m <= |b|
    ensures Heard(b, m, pair, last, hops)
  {
    if !(last == pair.originator && hops == 0) {
      var j :| 0 <= j < n <= |a| && Passed(a[j], pair, last, hops);
      assert b[j] == a[j];
    }
  }

  lemma MessageStays(net: Net, s: State, t: State, m: Message)
    requires MessageOk(net, s, m) && Grows(s, t)
    ensures MessageOk(net, t, m)
  {
    HeardGrows(s.acts, t.acts, |s.acts|, |t.acts|, m.request.pair, m.request.last, m.request.hopCount);
  }

  lemma ActStays(net: Net, s: State, t: State, k: nat)
    requires k < |s.acts| && ActOk(net, s, k) && Grows(s, t)
    ensures ActOk(net, t, k)
  {
    assert t.acts[k] == s.acts[k];
    HeardGrows(s.acts, t.acts, k, k, s.acts[k].pair, s.acts[k].last, s.acts[k].hopCount);
  }

  lemma BroadcastOk(net: Net, s: State, u: nat, r: Request)
    requires net.Valid() && u in net.near && r.last == u
    requires r.pair.originator in s.seen && r.pair in s.seen[r.pair.originator]
    requires Heard(s.acts, |s.acts|, r.pair, u, r.hopCount) && (u == r.dest ==> r.pair.originator == u)
    ensures forall m :: m in Broadcast(net, u, r) ==> MessageOk(net, s, m)
  {
    forall m | m in Broadcast(net, u, r)
      ensures MessageOk(net, s, m)
    {
      assert net.Linked(u, m.to);
    }
  }

  lemma OriginateKeeps(net: Net, s: State, v: nat, dest: nat)
    requires Inv(net, s) && Enabled(net, s, Originate(v, dest))
    ensures Inv(net, Apply(net, s, Originate(v, dest)))
  {
    hide MessageOk, ActOk;
    var t := Apply(net, s, Originate(v, dest));
    BroadcastOk(net, t, v, Request(Pair(v, t.counter), dest, 0, v));
    forall m | m in s.flight
      ensures MessageOk(net, t, m)
    {
      MessageStays(net, s, t, m);
    }
    forall k | 0 <= k < |t.acts|
      ensures ActOk(net, t, k)
    {
      ActStays(net, s, t, k);
    }
  }

  lemma IgnoredKeeps(net: Net, s: State, t: State)
    requires Inv(net, s) && t.seen == s.seen && t.acts == s.acts && t.flight <= s.flight
    ensures Inv(net, t)
  {
    hide MessageOk, ActOk, Once;
    forall m | m in t.flight
      ensures MessageOk(net, t, m)
    {
      MessageStays(net, s, t, m);
    }
    forall k | 0 <= k < |t.acts|
      ensures ActOk(net, t, k)
    {
      ActStays(net, s, t, k);
    }
  }

  /** Handling a request as new adds the only act of that node on it. */
  lemma ActedKeeps(net: Net, s: State, m: Message, a: Act, t: State)
    requires Inv(net, s) && m in s.flight && m.to in s.seen && m.request.pair !in s.seen[m.to]
    requires t.seen == s.seen[m.to := s.seen[m.to] + [m.request.pair]]
    requires a == ActOn(m, a.ttl, a.route, a.verdict) && Rightly(a) && t.acts == s.acts + [a]
    requires forall q :: q in t.flight ==>
      q in s.flight || (a.verdict == Forward && q in Broadcast(net, m.to, Forwarded(m.request, m.to)))
    ensures Inv(net, t)
  {
    hide ActOk;
    var n := |s.acts|;
    assert MessageOk(net, s, m);
    assert Grows(s, t);
    forall k | 0 <= k < n
      ensures ActOk(net, t, k) && !(s.acts[k].node == m.to && s.acts[k].pair == m.request.pair)
    {
      assert ActOk(net, s, k);
      ActStays(net, s, t, k);
      ActSeen(net, s, k);
    }
    NewActOk(net, s, m, a, t);
    assert t.acts[n] == a;
    if a.verdict == Forward {
      assert Passed(t.acts[n], m.request.pair, m.to, Forwarded(m.request, m.to).hopCount);
      assert Heard(t.acts, |t.acts|, m.request.pair, m.to, Forwarded(m.request, m.to).hopCount);
      BroadcastOk(net, t, m.to, Forwarded(m.request, m.to));
    }
    forall q | q in t.flight
      ensures MessageOk(net, t, q)
    {
      if q in s.flight {
        MessageStays(net, s, t, q);
      }
    }
  }

  lemma ActSeen(net: Net, s: State, k: nat)
    requires k < |s.acts| && ActOk(net, s, k)
    ensures s.acts[k].node in s.seen && s.acts[k].pair in s.seen[s.acts[k].node]
  {
  }

  lemma NewActOk(net: Net, s: State, m: Message, a: Act, t: State)
    requires MessageOk(net, s, m) && m.to in s.seen && m.request.pair !in s.seen[m.to]
    requires t.seen == s.seen[m.to := s.seen[m.to] + [m.request.pair]]
    requires a == ActOn(m, a.ttl, a.route, a.verdict) && Rightly(a) && t.acts == s.acts + [a]
    ensures ActOk(net, t, |s.acts|)
  {
    HeardGrows(s.acts, t.acts, |s.acts|, |s.acts|, m.request.pair, m.request.last, m.request.hopCount);
  }

  lemma ActedRightly(m: Message, ttl: nat, route: Option<nat>, seen: seq<Pair>)
    requires m.request.pair !in seen
    ensures Rightly(ActOn(m, ttl, route, Receive(seen, m.to, m.request, ttl, route).1))
  {
  }

  lemma StepKeeps(net: Net, s: State, e: Event)
    requires Inv(net, s) && Enabled(net, s, e)
    ensures Inv(net, Apply(net, s, e))
  {
    hide Inv, Broadcast, Forwarded;
    var t := Apply(net, s, e);
    match e
    case Originate(v, dest) => OriginateKeeps(net, s, v, dest);
    case Lose(m) => IgnoredKeeps(net, s, t);
    case Deliver(m, ttl, route) =>
      if m.request.pair in s.seen[m.to] {
        assert t.seen == s.seen;
        IgnoredKeeps(net, s, t);
      } else {
        ActedRightly(m, ttl, route, s.seen[m.to]);
        ActedKeeps(net, s, m, ActOn(m, ttl, route, Receive(s.seen[m.to], m.to, m.request, ttl, route).1), t);
      }
  }

  lemma {:induction false} RunKeeps(net: Net, s: State, es: seq<Event>, t: State)
    requires Inv(net, s) && Runs(net, s, es, t)
    ensures Inv(net, t)
    decreases |es|
  {
    hide Inv, Apply, Enabled;
    if es != [] {
      StepKeeps(net, s, es[0]);
      RunKeeps(net, Apply(net, s, es[0]), es[1..], t);
    }
  }

  // ---------------------------------------------------------------------------------------------
  // What holds in every run
  // ---------------------------------------------------------------------------------------------

  lemma AlwaysInv(net: Net, es: seq<Event>, t: State)
    requires net.Valid() && Runs(net, Init(net), es, t)
    ensures Inv(net, t)
  {
    hide Inv, Runs;
    InitInv(net);
    RunKeeps(net, Init(net), es, t);
  }

  /** A node handles a request at most once, and never its own: one rebroadcast for each node at most. */
  lemma EachActsOnce(net: Net, es: seq<Event>, t: State)
    requires net.Valid() && Runs(net, Init(net), es, t)
    ensures forall i, j :: 0 <= i < j < |t.acts| ==> !(t.acts[i].node == t.acts[j].node && t.acts[i].pair == t.acts[j].pair)
    ensures forall k :: 0 <= k < |t.acts| ==> t.acts[k].node != t.acts[k].pair.originator
  {
    hide Runs;
    AlwaysInv(net, es, t);
    forall k | 0 <= k < |t.acts|
      ensures t.acts[k].node != t.acts[k].pair.originator
    {
      assert ActOk(net, t, k);
    }
  }

  /**
    In every run, whoever handled a request answered it exactly when it is the destination or had a route not
    over the node it heard from; otherwise it stopped a request whose time to live was 1 and passed on any
    other. What comes from the destination is its own request: it never passes one on.
   */
  lemma WhoAnswers(net: Net, es: seq<Event>, t: State)
    requires net.Valid() && Runs(net, Init(net), es, t)
    ensures forall a :: a in t.acts ==>
      && (a.verdict == Answer <==> a.node == a.dest || (a.route.Some? && a.route.value != a.last))
      && (a.verdict != Answer ==> a.verdict == if a.ttl == 1 then Stop else Forward)
    ensures forall m :: m in t.flight && m.request.last == m.request.dest ==>
      m.request.pair.originator == m.request.dest
  {
    hide Runs;
    AlwaysInv(net, es, t);
    forall a | a in t.acts
      ensures Rightly(a)
    {
      var k :| 0 <= k < |t.acts| && t.acts[k] == a;
      assert ActOk(net, t, k);
    }
    forall m | m in t.flight && m.request.last == m.request.dest
      ensures m.request.pair.originator == m.request.dest
    {
      assert MessageOk(net, t, m);
    }
  }

  /** `p` leads back from the node of act `k` over the nodes each heard the request from. */
  ghost predicate Back(net: Net, s: State, k: nat, p: seq<nat>)
    requires k < |s.acts|
  {
    var a := s.acts[k];
    && |p| >= 2 && p[0] == a.node && p[|p| - 1] == a.pair.originator
    && (forall i :: 0 <= i < |p| - 1 ==> net.Linked(p[i + 1], p[i]))
    && (forall i :: 0 <= i < |p| - 1 ==> HandledBy(s.acts, k + 1, a.pair, p[i]))
    && Distinct(p)
  }

  ghost predicate HandledBy(acts: seq<Act>, n: nat, pair: Pair, node: nat)
    requires n <= |acts|
  {
    exists k :: 0 <= k < n && acts[k].node == node && acts[k].pair == pair
  }

  /**
    The nodes that handled a request form a tree: from each, the nodes it was heard from lead back
    to the originator, over links, through no node twice; and the hop count that the node keeps with
    its route back is the number of nodes between, modulo 256.
   */
  lemma {:induction false} FloodTree(net: Net, s: State, k: nat) returns (p: seq<nat>)
    requires Inv(net, s) && k < |s.acts|
    ensures Back(net, s, k, p) && s.acts[k].hopCount == (|p| - 2) % 256
    decreases k
  {
    hide Inv, Back;
    ActInOrder(net, s, k);
    var a := s.acts[k];
    if a.last == a.pair.originator && a.hopCount == 0 {
      p := [a.node, a.last];
      hide ActOk;
      BackStarts(net, s, k);
    } else {
      var j :| 0 <= j < k && Passed(s.acts[j], a.pair, a.last, a.hopCount);
      hide ActOk;
      var q := FloodTree(net, s, j);
      p := [a.node] + q;
      BackLong(net, s, j, q);
      BackExtends(net, s, j, k, q);
    }
  }

  lemma ActInOrder(net: Net, s: State, k: nat)
    requires Inv(net, s) && k < |s.acts|
    ensures ActOk(net, s, k)
  {
    hide ActOk;
  }

  lemma BackLong(net: Net, s: State, k: nat, p: seq<nat>)
    requires k < |s.acts| && Back(net, s, k, p)
    ensures |p| >= 2
  {
  }

  lemma BackStarts(net: Net, s: State, k: nat)
    requires k < |s.acts| && ActOk(net, s, k) && s.acts[k].last == s.acts[k].pair.originator
    ensures Back(net, s, k, [s.acts[k].node, s.acts[k].last])
  {
    assert HandledBy(s.acts, k + 1, s.acts[k].pair, s.acts[k].node);
  }

  lemma BackExtends(net: Net, s: State, j: nat, k: nat, q: seq<nat>)
    requires Inv(net, s) && j < k < |s.acts| && Back(net, s, j, q)
    requires s.acts[j].node == s.acts[k].last && s.acts[j].pair == s.acts[k].pair && ActOk(net, s, k)
    ensures Back(net, s, k, [s.acts[k].node] + q)
  {
    var a, p := s.acts[k], [s.acts[k].node] + q;
    forall i | 0 <= i < |q| - 1
      ensures q[i] != a.node && HandledBy(s.acts, k + 1, a.pair, q[i])
    {
      assert HandledBy(s.acts, j + 1, a.pair, q[i]);
      var m :| 0 <= m < j + 1 && s.acts[m].node == q[i] && s.acts[m].pair == a.pair;
    }
    forall i | 0 <= i < |p| - 1
      ensures net.Linked(p[i + 1], p[i]) && HandledBy(s.acts, k + 1, a.pair, p[i])
    {
      if i > 0 {
        assert p[i] == q[i - 1] && p[i + 1] == q[i];
      }
    }
    forall i, l | 0 <= i < l < |p|
      ensures p[i] != p[l]
    {
      assert p[l] == q[l - 1];
      if i > 0 {
        assert p[i] == q[i - 1];
      }
    }
  }

  // ---------------------------------------------------------------------------------------------
  // A flood ends
  // ---------------------------------------------------------------------------------------------

  /** The nodes and requests that are still new to each other. */
  ghost function Unseen(s: State, known: set<Pair>): set<(nat, Pair)> {
    set v, p | v in s.seen && p in known && p !in s.seen[v] :: (v, p)
  }

  ghost function Measure(net: Net, s: State, known: set<Pair>): nat {
    |s.flight| + (|net.near.Keys| + 1) * |Unseen(s, known)|
  }

  ghost predicate AllKnown(s: State, known: set<Pair>) {
    forall m :: m in s.flight ==> m.request.pair in known
  }

  lemma BroadcastSize(net: Net, u: nat, r: Request)
    requires net.Valid() && u in net.near
    ensures |Broadcast(net, u, r)| <= |net.near.Keys|
  {
    var copy := v => Message(r, v);
    ImageSize(copy, net.near[u]);
    assert Broadcast(net, u, r) == multiset(Image(copy, net.near[u]));
    assert forall v :: v in net.near[u] ==> net.Linked(u, v);
    SubsetSize(net.near[u], net.near.Keys);
  }

  lemma UnseenShrinks(s: State, t: State, known: set<Pair>, v: nat, p: Pair)
    requires v in s.seen && p in known && p !in s.seen[v] && t.seen == s.seen[v := s.seen[v] + [p]]
    ensures |Unseen(t, known)| == |Unseen(s, known)| - 1
  {
    assert Unseen(t, known) == Unseen(s, known) - {(v, p)};
  }

  lemma StaysKnown(net: Net, s: State, e: Event, known: set<Pair>)
    requires Enabled(net, s, e) && !e.Originate? && AllKnown(s, known)
    ensures AllKnown(Apply(net, s, e), known)
  {
    var t := Apply(net, s, e);
    forall m | m in t.flight && m !in s.flight
      ensures m.request.pair in known
    {
      assert m in Broadcast(net, e.message.to, Forwarded(e.message.request, e.message.to));
    }
  }

  lemma FlightSize(flight: multiset<Message>, m: Message, out: multiset<Message>)
    requires m in flight
    ensures |flight - multiset{m} + out| == |flight| - 1 + |out|
  {
  }

  /** What a handled request adds to the flight weighs less than the node it found new. */
  lemma ActShrinks(net: Net, s: State, t: State, m: Message, out: multiset<Message>, known: set<Pair>)
    requires m in s.flight && t.flight == s.flight - multiset{m} + out && |out| <= |net.near.Keys|
    requires m.to in s.seen && m.request.pair in known && m.request.pair !in s.seen[m.to]
    requires t.seen == s.seen[m.to := s.seen[m.to] + [m.request.pair]]
    ensures Measure(net, t, known) < Measure(net, s, known)
  {
    hide Unseen;
    FlightSize(s.flight, m, out);
    UnseenShrinks(s, t, known, m.to, m.request.pair);
    OneFewer(|net.near.Keys| + 1, |Unseen(s, known)|);
  }

  lemma OneFewer(n: nat, k: nat)
    requires k > 0
    ensures n * (k - 1) == n * k - n
  {
  }

  /** Every delivery and every loss brings the flood nearer its end. */
  lemma DeliveryShrinks(net: Net, s: State, e: Event, known: set<Pair>)
    requires net.Valid() && Enabled(net, s, e) && !e.Originate? && AllKnown(s, known)
    ensures AllKnown(Apply(net, s, e), known) && Measure(net, Apply(net, s, e), known) < Measure(net, s, known)
  {
    hide Broadcast, Forwarded;
    StaysKnown(net, s, e, known);
    var t := Apply(net, s, e);
    var m := e.message;
    if e.Lose? || m.request.pair in s.seen[m.to] {
      hide Unseen;
      FlightSize(s.flight, m, multiset{});
      assert t.seen == s.seen;
      SameUnseen(s, t, known);
    } else {
      BroadcastSize(net, m.to, Forwarded(m.request, m.to));
      hide Measure;
      ActShrinks(net, s, t, m, t.flight - (s.flight - multiset{m}), known);
    }
  }

  lemma SameUnseen(s: State, t: State, known: set<Pair>)
    requires s.seen == t.seen
    ensures Unseen(s, known) == Unseen(t, known)
  {
  }

  /** Without new requests, no run has more events than the measure of its first state. */
  lemma {:induction false} FloodEnds(net: Net, s: State, es: seq<Event>, t: State, known: set<Pair>)
    requires net.Valid() && Runs(net, s, es, t) && AllKnown(s, known)
    requires forall i :: 0 <= i < |es| ==> !es[i].Originate?
    ensures |es| + Measure(net, t, known) <= Measure(net, s, known)
    decreases |es|
  {
    hide Apply, Measure, AllKnown, Enabled;
    if es != [] {
      DeliveryShrinks(net, s, es[0], known);
      FloodEnds(net, Apply(net, s, es[0]), es[1..], t, known);
    }
  }

  // ---------------------------------------------------------------------------------------------
  // A flood arrives
  // ---------------------------------------------------------------------------------------------

  /** A node that is not the destination gets request `p` for the first time. */
  ghost predicate NewOnTheWay(s: State, m: Message, p: Pair) {
    m.request.pair == p && !SeenBy(s, p, m.to) && m.to != m.request.dest
  }

  /** An event that neither loses request `p` nor stops it nor uses its number again. */
  ghost predicate Keeps(s: State, e: Event, p: Pair) {
    match e
    case Originate(v, _) => Pair(v, (s.counter + 1) % 0x1_0000_0000) != p
    case Deliver(m, ttl, _) => NewOnTheWay(s, m, p) ==> ttl != 1
    case Lose(m) => m.request.pair != p
  }

  /** An event that leaves request `p` to the flood: no node on the way answers it from a route either. */
  ghost predicate Spares(s: State, e: Event, p: Pair) {
    && Keeps(s, e, p)
    && (e.Deliver? && NewOnTheWay(s, e.message, p) && e.route.Some? ==> e.route.value == e.message.request.last)
  }

  ghost predicate Keeping(net: Net, s: State, es: seq<Event>, p: Pair)
    decreases |es|
  {
    es == [] || (Enabled(net, s, es[0]) && Keeps(s, es[0], p) && Keeping(net, Apply(net, s, es[0]), es[1..], p))
  }

  ghost predicate Sparing(net: Net, s: State, es: seq<Event>, p: Pair)
    decreases |es|
  {
    es == [] || (Enabled(net, s, es[0]) && Spares(s, es[0], p) && Sparing(net, Apply(net, s, es[0]), es[1..], p))
  }

  ghost predicate OnItsWay(s: State, p: Pair, w: nat) {
    exists m :: m in s.flight && m.request.pair == p && m.to == w
  }

  ghost predicate SeenBy(s: State, p: Pair, u: nat) {
    u in s.seen && p in s.seen[u]
  }

  ghost predicate ReachedOrSoon(s: State, p: Pair, w: nat) {
    SeenBy(s, p, w) || OnItsWay(s, p, w)
  }

  /** Whoever has the request, but the destination that answers it, has sent it to all its neighbours. */
  ghost predicate Spread(net: Net, s: State, p: Pair, dest: nat) {
    && SeenBy(s, p, p.originator)
    && (forall m :: m in s.flight && m.request.pair == p ==> m.request.dest == dest)
    && (forall a :: a in s.acts && a.pair == p ==> a.dest == dest)
    && (forall u :: SeenBy(s, p, u) && u != p.originator ==> HandledBy(s.acts, |s.acts|, p, u))
    && (forall u, w :: SeenBy(s, p, u) && net.Linked(u, w) && (u != dest || u == p.originator) ==> ReachedOrSoon(s, p, w))
  }

  /** A request that nobody knows of: its number is not in use. */
  ghost predicate Unused(s: State, p: Pair) {
    && (forall u :: !SeenBy(s, p, u))
    && (forall m :: m in s.flight ==> m.request.pair != p)
  }

  lemma InBroadcast(net: Net, u: nat, r: Request, w: nat)
    requires net.Linked(u, w)
    ensures Message(r, w) in Broadcast(net, u, r)
  {
  }

  lemma BroadcastCopies(net: Net, u: nat, r: Request, q: Message)
    requires u in net.near && q in Broadcast(net, u, r)
    ensures q.request == r
  {
  }

  lemma OnlyOriginator(net: Net, s: State, v: nat, dest: nat, p: Pair)
    requires Enabled(net, s, Originate(v, dest)) && p == Pair(v, (s.counter + 1) % 0x1_0000_0000) && Unused(s, p)
    ensures var t := Apply(net, s, Originate(v, dest));
      && (forall u :: SeenBy(t, p, u) <==> u == v)
      && t.flight == s.flight + Broadcast(net, v, Request(p, dest, 0, v)) && t.acts == s.acts
  {
    hide Broadcast;
    var t := Apply(net, s, Originate(v, dest));
    forall u | SeenBy(t, p, u)
      ensures u == v
    {
      assert u != v ==> SeenBy(s, p, u);
    }
  }

  lemma NothingDone(net: Net, s: State, p: Pair)
    requires Inv(net, s) && Unused(s, p)
    ensures forall a :: a in s.acts ==> a.pair != p
  {
    forall a | a in s.acts
      ensures a.pair != p
    {
      var k :| 0 <= k < |s.acts| && s.acts[k] == a;
      assert ActOk(net, s, k);
      assert !SeenBy(s, p, a.node);
    }
  }

  lemma OriginateSpreads(net: Net, s: State, v: nat, dest: nat)
    requires Enabled(net, s, Originate(v, dest)) && Unused(s, Pair(v, (s.counter + 1) % 0x1_0000_0000))
    requires forall a :: a in s.acts ==> a.pair != Pair(v, (s.counter + 1) % 0x1_0000_0000)
    ensures Spread(net, Apply(net, s, Originate(v, dest)), Pair(v, (s.counter + 1) % 0x1_0000_0000), dest)
  {
    var p := Pair(v, (s.counter + 1) % 0x1_0000_0000);
    var r := Request(p, dest, 0, v);
    OnlyOriginator(net, s, v, dest, p);
    hide Apply, SeenBy, HandledBy, Broadcast;
    var t := Apply(net, s, Originate(v, dest));
    forall w | net.Linked(v, w)
      ensures ReachedOrSoon(t, p, w)
    {
      InBroadcast(net, v, r, w);
      assert Message(r, w) in t.flight && OnItsWay(t, p, w);
    }
    forall m | m in t.flight && m.request.pair == p
      ensures m.request.dest == dest
    {
      if m !in s.flight {
        BroadcastCopies(net, v, r, m);
      }
    }
  }

  lemma HandledLonger(a: seq<Act>, b: seq<Act>, p: Pair, u: nat)
    requires HandledBy(a, |a|, p, u) && a <= b
    ensures HandledBy(b, |b|, p, u)
  {
    var k :| 0 <= k < |a| && a[k].node == u && a[k].pair == p;
    assert b[k] == a[k];
  }

  /** The tables only grow, and what leaves the flight has reached its node. */
  ghost predicate Follows(s: State, t: State, p: Pair) {
    && s.seen.Keys == t.seen.Keys && s.acts <= t.acts
    && (forall u :: SeenBy(s, p, u) ==> SeenBy(t, p, u))
    && (forall m :: m in s.flight && m.request.pair == p ==> m in t.flight || SeenBy(t, p, m.to))
  }

  lemma StillReached(s: State, t: State, p: Pair, w: nat)
    requires Follows(s, t, p) && ReachedOrSoon(s, p, w)
    ensures ReachedOrSoon(t, p, w)
  {
    if !SeenBy(s, p, w) {
      var m :| m in s.flight && m.request.pair == p && m.to == w;
    }
  }

  /** An event that brings the request to no new node keeps it spread. */
  lemma KeepsSpread(net: Net, s: State, t: State, p: Pair, dest: nat)
    requires Spread(net, s, p, dest) && Follows(s, t, p)
    requires forall u :: SeenBy(t, p, u) ==> SeenBy(s, p, u)
    requires forall m :: m in t.flight && m.request.pair == p ==> m in s.flight
    requires forall a :: a in t.acts && a.pair == p ==> a in s.acts
    ensures Spread(net, t, p, dest)
  {
    hide SeenBy, HandledBy, ReachedOrSoon, Follows;
    assert s.acts <= t.acts && SeenBy(t, p, p.originator) by { FollowsSeen(s, t, p, p.originator); }
    forall u | SeenBy(t, p, u) && u != p.originator
      ensures HandledBy(t.acts, |t.acts|, p, u)
    {
      HandledLonger(s.acts, t.acts, p, u);
    }
    forall u, w | SeenBy(t, p, u) && net.Linked(u, w) && (u != dest || u == p.originator)
      ensures ReachedOrSoon(t, p, w)
    {
      StillReached(s, t, p, w);
    }
  }

  lemma FollowsSeen(s: State, t: State, p: Pair, u: nat)
    requires Follows(s, t, p)
    ensures s.acts <= t.acts && (SeenBy(s, p, u) ==> SeenBy(t, p, u))
  {
  }

  /** What a delivery to a node that the request is new to leaves behind. */
  lemma NewNodeFacts(net: Net, s: State, m: Message, ttl: nat, route: Option<nat>)
    requires Enabled(net, s, Deliver(m, ttl, route)) && Spares(s, Deliver(m, ttl, route), m.request.pair)
    requires !SeenBy(s, m.request.pair, m.to)
    ensures var (t, p) := (Apply(net, s, Deliver(m, ttl, route)), m.request.pair);
      && t.acts == s.acts + [ActOn(m, ttl, route, Receive(s.seen[m.to], m.to, m.request, ttl, route).1)]
      && (forall u :: SeenBy(t, p, u) <==> SeenBy(s, p, u) || u == m.to)
      && (forall q :: q in t.flight && q !in s.flight ==> q.request.dest == m.request.dest)
      && Follows(s, t, p)
  {
    hide Broadcast;
    var t := Apply(net, s, Deliver(m, ttl, route));
    forall q | q in t.flight && q !in s.flight
      ensures q.request.dest == m.request.dest
    {
      assert q in Broadcast(net, m.to, Forwarded(m.request, m.to));
      BroadcastCopies(net, m.to, Forwarded(m.request, m.to), q);
    }
  }

  /** It sends the request on, unless it is the destination. */
  lemma NewNodeSends(net: Net, s: State, m: Message, ttl: nat, route: Option<nat>, w: nat)
    requires Enabled(net, s, Deliver(m, ttl, route)) && Spares(s, Deliver(m, ttl, route), m.request.pair)
    requires !SeenBy(s, m.request.pair, m.to) && m.to != m.request.dest && net.Linked(m.to, w)
    ensures OnItsWay(Apply(net, s, Deliver(m, ttl, route)), m.request.pair, w)
  {
    var r := Forwarded(m.request, m.to);
    InBroadcast(net, m.to, r, w);
    hide Broadcast;
    assert Message(r, w) in Apply(net, s, Deliver(m, ttl, route)).flight;
  }

  lemma NewNodeSpreads(net: Net, s: State, m: Message, ttl: nat, route: Option<nat>, dest: nat)
    requires Enabled(net, s, Deliver(m, ttl, route)) && Spares(s, Deliver(m, ttl, route), m.request.pair)
    requires Spread(net, s, m.request.pair, dest) && !SeenBy(s, m.request.pair, m.to)
    ensures Spread(net, Apply(net, s, Deliver(m, ttl, route)), m.request.pair, dest)
  {
    var p, t := m.request.pair, Apply(net, s, Deliver(m, ttl, route));
    NewNodeFacts(net, s, m, ttl, route);
    hide Apply, SeenBy, OnItsWay, Follows, Spares, Enabled;
    assert m.request.dest == dest by { DeliveredIsInFlight(net, s, m, ttl, route); }
    assert t.acts[|s.acts|].node == m.to && t.acts[|s.acts|].pair == p;
    forall u | SeenBy(t, p, u) && u != p.originator
      ensures HandledBy(t.acts, |t.acts|, p, u)
    {
      if u != m.to {
        HandledLonger(s.acts, t.acts, p, u);
      }
    }
    forall u, w | SeenBy(t, p, u) && net.Linked(u, w) && (u != dest || u == p.originator)
      ensures ReachedOrSoon(t, p, w)
    {
      if u != m.to {
        StillReached(s, t, p, w);
      } else {
        NewNodeSends(net, s, m, ttl, route, w);
      }
    }
  }

  lemma DeliveredIsInFlight(net: Net, s: State, m: Message, ttl: nat, route: Option<nat>)
    requires Enabled(net, s, Deliver(m, ttl, route))
    ensures m in s.flight
  {
  }

  /** The request comes to no new node, and no new copy of it is sent. */
  ghost predicate Leaves(s: State, t: State, p: Pair) {
    && Follows(s, t, p) && (forall u :: SeenBy(t, p, u) ==> SeenBy(s, p, u))
    && (forall m :: m in t.flight && m.request.pair == p ==> m in s.flight)
    && (forall a :: a in t.acts && a.pair == p ==> a in s.acts)
  }

  lemma OriginateLeaves(net: Net, s: State, v: nat, dest: nat, p: Pair)
    requires Enabled(net, s, Originate(v, dest)) && Spares(s, Originate(v, dest), p)
    ensures Leaves(s, Apply(net, s, Originate(v, dest)), p)
  {
    hide Broadcast;
    var t := Apply(net, s, Originate(v, dest));
    forall m | m in t.flight && m.request.pair == p
      ensures m in s.flight
    {
      if m !in s.flight {
        BroadcastCopies(net, v, Request(Pair(v, (s.counter + 1) % 0x1_0000_0000), dest, 0, v), m);
      }
    }
  }

  lemma IgnoredLeaves(net: Net, s: State, m: Message, ttl: nat, route: Option<nat>, p: Pair)
    requires Enabled(net, s, Deliver(m, ttl, route)) && m.request.pair in s.seen[m.to]
    ensures Leaves(s, Apply(net, s, Deliver(m, ttl, route)), p)
  {
    hide Broadcast;
    var t := Apply(net, s, Deliver(m, ttl, route));
    assert t.seen == s.seen && t.acts == s.acts;
  }

  lemma OtherLeaves(net: Net, s: State, m: Message, ttl: nat, route: Option<nat>, p: Pair)
    requires Enabled(net, s, Deliver(m, ttl, route)) && m.request.pair != p
    ensures Leaves(s, Apply(net, s, Deliver(m, ttl, route)), p)
  {
    hide Broadcast;
    var t, r := Apply(net, s, Deliver(m, ttl, route)), Forwarded(m.request, m.to);
    forall q | q in t.flight && q.request.pair == p
      ensures q in s.flight
    {
      if q !in s.flight {
        BroadcastCopies(net, m.to, r, q);
      }
    }
  }

  lemma LoseLeaves(net: Net, s: State, m: Message, p: Pair)
    requires Enabled(net, s, Lose(m)) && m.request.pair != p
    ensures Leaves(s, Apply(net, s, Lose(m)), p)
  {
  }

  /** Every other event leaves the request alone. */
  lemma OldNodeFollows(net: Net, s: State, e: Event, p: Pair)
    requires Enabled(net, s, e) && Spares(s, e, p)
    requires e.Deliver? && e.message.request.pair == p ==> SeenBy(s, p, e.message.to)
    ensures Leaves(s, Apply(net, s, e), p)
  {
    hide Leaves, Apply;
    match e
    case Originate(v, dest) => OriginateLeaves(net, s, v, dest, p);
    case Lose(m) => LoseLeaves(net, s, m, p);
    case Deliver(m, ttl, route) =>
      if m.request.pair == p {
        IgnoredLeaves(net, s, m, ttl, route, p);
      } else {
        OtherLeaves(net, s, m, ttl, route, p);
      }
  }

  lemma StepSpreads(net: Net, s: State, e: Event, p: Pair, dest: nat)
    requires Inv(net, s) && Enabled(net, s, e) && Spares(s, e, p) && Spread(net, s, p, dest)
    ensures Spread(net, Apply(net, s, e), p, dest)
  {
    hide Inv, Enabled, Apply, Spares, Spread, Follows, SeenBy;
    if e.Deliver? && e.message.request.pair == p && !SeenBy(s, p, e.message.to) {
      NewNodeSpreads(net, s, e.message, e.ttl, e.route, dest);
    } else {
      OldNodeFollows(net, s, e, p);
      KeepsSpread(net, s, Apply(net, s, e), p, dest);
    }
  }

  lemma {:induction false} RunSpreads(net: Net, s: State, es: seq<Event>, t: State, p: Pair, dest: nat)
    requires Inv(net, s) && Runs(net, s, es, t) && Sparing(net, s, es, p) && Spread(net, s, p, dest)
    ensures Inv(net, t) && Spread(net, t, p, dest)
    decreases |es|
  {
    hide Inv, Apply, Enabled, Spread, Spares;
    if es != [] {
      StepKeeps(net, s, es[0]);
      StepSpreads(net, s, es[0], p, dest);
      RunSpreads(net, Apply(net, s, es[0]), es[1..], t, p, dest);
    }
  }

  /** A way over links that meets the destination at most at its end. */
  ghost predicate Way(net: Net, q: seq<nat>, from: nat, dest: nat) {
    && q != [] && q[0] == from
    && (forall i :: 0 <= i < |q| - 1 ==> net.Linked(q[i], q[i + 1]))
    && (forall i :: 0 < i < |q| - 1 ==> q[i] != dest)
  }

  lemma {:induction false} WayIsReached(net: Net, t: State, p: Pair, dest: nat, q: seq<nat>)
    requires Spread(net, t, p, dest) && Way(net, q, p.originator, dest)
    requires forall m :: m in t.flight ==> m.request.pair != p
    ensures SeenBy(t, p, q[|q| - 1])
    decreases |q|
  {
    if |q| > 1 {
      var front := q[..|q| - 1];
      assert forall i :: 0 <= i < |front| - 1 ==> net.Linked(q[i], q[i + 1]);
      WayIsReached(net, t, p, dest, front);
      var u, w := q[|q| - 2], q[|q| - 1];
      assert net.Linked(q[|q| - 2], q[|q| - 2 + 1]);
      assert u != dest || u == p.originator;
      hide HandledBy, SeenBy;
      assert ReachedOrSoon(t, p, w);
    }
  }

  /**
    A new request that no event loses, stops or answers from a route reaches, by the time no copy of it is
    in flight, every node to which links lead past the destination: each of them has handled it.
   */
  lemma FloodArrives(net: Net, s: State, v: nat, dest: nat, es: seq<Event>, t: State, q: seq<nat>)
    requires Inv(net, s) && Enabled(net, s, Originate(v, dest))
    requires var p := Pair(v, (s.counter + 1) % 0x1_0000_0000);
      && Unused(s, p)
      && Runs(net, Apply(net, s, Originate(v, dest)), es, t)
      && Sparing(net, Apply(net, s, Originate(v, dest)), es, p)
      && (forall m :: m in t.flight ==> m.request.pair != p)
    requires Way(net, q, v, dest)
    ensures var (p, w) := (Pair(v, (s.counter + 1) % 0x1_0000_0000), q[|q| - 1]);
      SeenBy(t, p, w) && (w != v ==> HandledBy(t.acts, |t.acts|, p, w))
  {
    var p := Pair(v, (s.counter + 1) % 0x1_0000_0000);
    hide Inv, Apply, Enabled, Spares, Unused, Way, Runs, Sparing;
    NothingDone(net, s, p);
    OriginateSpreads(net, s, v, dest);
    StepKeeps(net, s, Originate(v, dest));
    RunSpreads(net, Apply(net, s, Originate(v, dest)), es, t, p, dest);
    WayIsReached(net, t, p, dest, q);
  }

  /** The destination answered the request, and that was all it did with it. */
  ghost predicate AnsweredOnce(acts: seq<Act>, p: Pair, dest: nat) {
    exists k :: 0 <= k < |acts| && acts[k].node == dest && acts[k].pair == p && acts[k].verdict == Answer
      && forall j :: 0 <= j < |acts| && acts[j].node == dest && acts[j].pair == p ==> j == k
  }

  lemma HandledIsAnswered(net: Net, t: State, p: Pair, dest: nat)
    requires Inv(net, t) && Spread(net, t, p, dest) && HandledBy(t.acts, |t.acts|, p, dest)
    ensures AnsweredOnce(t.acts, p, dest)
  {
    hide SeenBy, ReachedOrSoon, MessageOk;
    var k :| 0 <= k < |t.acts| && t.acts[k].node == dest && t.acts[k].pair == p;
    assert ActOk(net, t, k) && t.acts[k].dest == dest;
    hide ActOk;
    forall j | 0 <= j < |t.acts| && t.acts[j].node == dest && t.acts[j].pair == p
      ensures j == k
    {
    }
  }

  /**
    If links lead to the destination, then by the time no copy of such a request is in flight the destination
    has answered it, exactly once.
   */
  lemma DestinationAnswers(net: Net, s: State, v: nat, dest: nat, es: seq<Event>, t: State, q: seq<nat>)
    requires Inv(net, s) && Enabled(net, s, Originate(v, dest)) && dest != v
    requires var p := Pair(v, (s.counter + 1) % 0x1_0000_0000);
      && Unused(s, p)
      && Runs(net, Apply(net, s, Originate(v, dest)), es, t)
      && Sparing(net, Apply(net, s, Originate(v, dest)), es, p)
      && (forall m :: m in t.flight ==> m.request.pair != p)
    requires Way(net, q, v, dest) && q[|q| - 1] == dest
    ensures AnsweredOnce(t.acts, Pair(v, (s.counter + 1) % 0x1_0000_0000), dest)
  {
    var p := Pair(v, (s.counter + 1) % 0x1_0000_0000);
    FloodArrives(net, s, v, dest, es, t, q);
    hide Inv, Apply, Enabled, Spares, Unused, Way, Runs, Sparing;
    NothingDone(net, s, p);
    OriginateSpreads(net, s, v, dest);
    StepKeeps(net, s, Originate(v, dest));
    RunSpreads(net, Apply(net, s, Originate(v, dest)), es, t, p, dest);
    HandledIsAnswered(net, t, p, dest);
  }

  /** Node by node, a run in which nobody answers a request leaves it to the flood. */
  lemma {:induction false} UnansweredSpares(net: Net, s: State, es: seq<Event>, t: State, p: Pair)
    requires Runs(net, s, es, t) && Keeping(net, s, es, p)
    requires forall a :: a in t.acts && a.pair == p ==> a.verdict != Answer
    ensures Sparing(net, s, es, p)
    ensures s.acts <= t.acts
    decreases |es|
  {
    hide Apply, Enabled, Keeps, Spares;
    if es != [] {
      UnansweredSpares(net, Apply(net, s, es[0]), es[1..], t, p);
      UnansweredEvent(net, s, es[0], t, p);
    }
  }

  lemma UnansweredEvent(net: Net, s: State, e: Event, t: State, p: Pair)
    requires Enabled(net, s, e) && Keeps(s, e, p) && Apply(net, s, e).acts <= t.acts
    requires forall a :: a in t.acts && a.pair == p ==> a.verdict != Answer
    ensures Spares(s, e, p) && s.acts <= t.acts
  {
    hide Broadcast;
    if e.Deliver? && NewOnTheWay(s, e.message, p) {
      var a := ActOn(e.message, e.ttl, e.route, Receive(s.seen[e.message.to], e.message.to, e.message.request, e.ttl, e.route).1);
      assert Apply(net, s, e).acts[|s.acts|] == a;
      assert t.acts[|s.acts|] == a;
    }
  }

  /**
    If links lead to the destination, a new request that is neither lost nor stopped has been answered by the
    time no copy of it is in flight: by the destination, or by a node on the way that has a route.
   */
  lemma SomeoneAnswers(net: Net, s: State, v: nat, dest: nat, es: seq<Event>, t: State, q: seq<nat>)
    requires Inv(net, s) && Enabled(net, s, Originate(v, dest)) && dest != v
    requires var p := Pair(v, (s.counter + 1) % 0x1_0000_0000);
      && Unused(s, p)
      && Runs(net, Apply(net, s, Originate(v, dest)), es, t)
      && Keeping(net, Apply(net, s, Originate(v, dest)), es, p)
      && (forall m :: m in t.flight ==> m.request.pair != p)
    requires Way(net, q, v, dest) && q[|q| - 1] == dest
    ensures exists a :: a in t.acts && a.pair == Pair(v, (s.counter + 1) % 0x1_0000_0000) && a.verdict == Answer
  {
    hide Inv, Apply, Enabled, Spares, Unused, Way, Runs, Sparing, Keeping;
    var p := Pair(v, (s.counter + 1) % 0x1_0000_0000);
    if forall a :: a in t.acts && a.pair == p ==> a.verdict != Answer {
      UnansweredSpares(net, Apply(net, s, Originate(v, dest)), es, t, p);
      DestinationAnswers(net, s, v, dest, es, t, q);
      assert false;
    }
  }
}
