/**
  A DSR discovery ends: without new requests, the messages in flight carry a weight that every delivery
  and every loss lowers. A request's weight falls steeply with each node on its list, so that all the
  copies a node passes on weigh less than the one it got.
 */
module DsrEnds {
  import opened Basics
  import opened Dsr

  function Power(b: nat, e: nat): nat {
    if e == 0 then 1 else b * Power(b, e - 1)
  }

  /** The weight of a message in a network of `n` nodes. */
  ghost function Weight(n: nat, m: Message): nat {
    match m
    case Rreq(r, _) => if |r.address| <= n then Power(n + 2, n + 1 - |r.address|) else 1
    case Rrep(reply, to) => if ReplySane(reply) then First(Listed(reply), to) + 1 else 1
  }

  ghost function Load(n: nat, flight: multiset<Message>): nat {
    if flight == multiset{} then 0
    else
      NoneMeansEmpty(flight);
      var m :| m in flight;
      Weight(n, m) + Load(n, flight - multiset{m})
  }

  lemma LoadChoice(n: nat, flight: multiset<Message>) returns (k: Message)
    requires flight != multiset{}
    ensures k in flight && Load(n, flight) == Weight(n, k) + Load(n, flight - multiset{k})
  {
    hide Weight;
    k :| k in flight && Load(n, flight) == Weight(n, k) + Load(n, flight - multiset{k});
  }

  lemma {:induction false} LoadTakes(n: nat, flight: multiset<Message>, m: Message)
    requires m in flight
    ensures Load(n, flight) == Weight(n, m) + Load(n, flight - multiset{m})
    decreases |flight|
  {
    hide Weight, Load;
    var k := LoadChoice(n, flight);
    if k != m {
      LoadTakes(n, flight - multiset{k}, m);
      LoadTakes(n, flight - multiset{m}, k);
      TakeBoth(flight, k, m);
    }
  }

  lemma TakeBoth(flight: multiset<Message>, k: Message, m: Message)
    ensures flight - multiset{k} - multiset{m} == flight - multiset{m} - multiset{k}
  {
  }

  lemma {:induction false} LoadAdds(n: nat, a: multiset<Message>, b: multiset<Message>)
    ensures Load(n, a + b) == Load(n, a) + Load(n, b)
    decreases |b|
  {
    hide Weight;
    if b == multiset{} {
      assert a + b == a;
    } else {
      var m := SomeElement(b);
      LoadTakes(n, b, m);
      LoadTakes(n, a + b, m);
      LoadAdds(n, a, b - multiset{m});
      assert a + b - multiset{m} == a + (b - multiset{m});
    }
  }

  lemma {:induction false} LoadOfEqual(n: nat, flight: multiset<Message>, w: nat)
    requires forall m :: m in flight ==> Weight(n, m) == w
    ensures Load(n, flight) == |flight| * w
    decreases |flight|
  {
    hide Weight;
    if flight != multiset{} {
      var m := SomeElement(flight);
      LoadTakes(n, flight, m);
      LoadOfEqual(n, flight - multiset{m}, w);
      assert |flight| * w == (|flight| - 1) * w + w;
    }
  }

  lemma {:induction false} PowerAtLeast(b: nat, e: nat)
    requires b >= 1
    ensures Power(b, e) >= 1 && (e >= 1 ==> Power(b, e) >= b)
  {
    if e > 0 {
      PowerAtLeast(b, e - 1);
      assert b * Power(b, e - 1) >= b * 1;
    }
  }

  lemma BroadcastSize(net: Net, u: nat, r: Request)
    requires net.Valid() && u in net.near
    ensures |Broadcast(net, u, r)| <= |net.near|
  {
    var copy := v => Rreq(r, v);
    ImageSize(copy, net.near[u]);
    assert Broadcast(net, u, r) == multiset(Image(copy, net.near[u]));
    forall v | v in net.near[u]
      ensures v in net.near
    {
      LinkedInside(net, u, v);
    }
    SubsetSize(net.near[u], net.near.Keys);
    assert |net.near.Keys| == |net.near|;
  }

  lemma RequestWeight(n: nat, r: Request, to: nat)
    requires |r.address| <= n
    ensures Weight(n, Rreq(r, to)) == (n + 2) * Power(n + 2, n - |r.address|) && Power(n + 2, n - |r.address|) >= 1
  {
    PowerAtLeast(n + 2, n - |r.address|);
    PowerNext(n + 2, n - |r.address|);
    hide Power;
  }

  lemma FewerTimes(k: nat, n: nat, w: nat)
    requires k <= n && w >= 1
    ensures k * w < (n + 2) * w && n + 2 <= (n + 2) * w
  {
    assert k * w <= n * w;
    assert (n + 2) * w == n * w + 2 * w;
    assert (n + 2) * w == (n + 2) * (w - 1) + (n + 2);
  }

  /** All copies of a request passed on weigh less than the request. */
  lemma BroadcastLighter(net: Net, u: nat, r: Request, q: Request)
    requires net.Valid() && u in net.near && |q.address| == |r.address| + 1 <= |net.near|
    ensures Load(|net.near|, Broadcast(net, u, q)) < Weight(|net.near|, Rreq(r, u))
  {
    hide Power, Load;
    var n := |net.near|;
    var w := Power(n + 2, n - |r.address|);
    var out := Broadcast(net, u, q);
    forall m | m in out
      ensures Weight(n, m) == w
    {
    }
    BroadcastSize(net, u, q);
    RequestWeight(n, r, u);
    hide *;
    LoadOfEqual(n, out, w);
    FewerTimes(|out|, n, w);
  }

  lemma PowerNext(b: nat, e: nat)
    ensures Power(b, e + 1) == b * Power(b, e)
  {
  }

  lemma LoadOne(n: nat, m: Message)
    ensures Load(n, multiset{m}) == Weight(n, m)
  {
    LoadTakes(n, multiset{m}, m);
    assert multiset{m} - multiset{m} == multiset{};
  }

  lemma ListedBefore(reply: Reply, to: nat, k: nat)
    requires ReplySane(reply) && k < |reply.address| && reply.address[k] == to
    ensures First(Listed(reply), to) <= k
  {
  }

  /** A reply weighs less than the request it answers, whether the target made it or a node with a route. */
  lemma ReplyLighter(net: Net, r: Request, me: nat, part: seq<nat>)
    requires net.Valid() && RequestOk(net, r, me)
    ensures Load(|net.near|, multiset{Rrep(Replied([r.source] + r.address + part), Sender(r))})
      < Weight(|net.near|, Rreq(r, me))
  {
    hide Power, Load;
    var n := |net.near|;
    var a := [r.source] + r.address + part;
    ListShort(net, r, me);
    SenderLinked(net, r, me);
    RepliedLength(a);
    LoadOne(n, Rrep(Replied(a), Sender(r)));
    ListedBefore(Replied(a), Sender(r), |r.address|);
    RequestWeight(n, r, me);
    FewerTimes(0, n, Power(n + 2, n - |r.address|));
  }

  /** A forwarded reply weighs less, because it moves towards the front of its list. */
  lemma ForwardLighter(n: nat, reply: Reply, me: nat)
    requires ReplySane(reply)
    ensures Load(n, Forwarded(reply, me)) < Weight(n, Rrep(reply, me))
  {
    LoadEmpty(n);
    var hop := NextHop(Listed(reply), me);
    if hop.Some? {
      HopLower(Listed(reply), me);
      LoadOne(n, Rrep(reply, hop.value));
    }
  }

  lemma WeightPositive(n: nat, m: Message)
    ensures Weight(n, m) >= 1
  {
    if m.Rreq? && |m.request.address| <= n {
      PowerAtLeast(n + 2, n + 1 - |m.request.address|);
    }
  }

  lemma LoadEmpty(n: nat)
    ensures Load(n, multiset{}) == 0
  {
  }

  /** What an answered request puts in flight weighs less than the request. */
  lemma AnswerLighter(net: Net, d: Device, r: Request, me: nat, t: real)
    requires net.Valid() && RequestOk(net, r, me) && RequestFits(r) && me in net.near
    ensures Load(|net.near|, Answered(net, me, ProcessRequest(d, me, r, t).1)) < Weight(|net.near|, Rreq(r, me))
  {
    hide RequestOk, Load, Weight, ProcessRequest, Broadcast;
    var a := ProcessRequest(d, me, r, t).1;
    AnswerTells(d, me, r, t);
    match a
    case Rebroadcast(q) =>
      ListShort(net, r, me);
      BroadcastLighter(net, me, r, q);
    case Respond(reply, to) =>
      var cached := CachedAnswer(d, me, r, t);
      ReplyLighter(net, r, me, if cached.Some? then Part(r, cached.value) else [me]);
    case Drop =>
      LoadEmpty(|net.near|);
      WeightPositive(|net.near|, Rreq(r, me));
  }

  /** What a delivery puts in flight. */
  ghost function Out(net: Net, s: State, m: Message, t: real): multiset<Message>
    requires Shape(net, s) && Enabled(net, s, Deliver(m, t))
  {
    if m.Rreq? then Answered(net, m.to, ProcessRequest(s.dev[m.to], m.to, m.request, t).1)
    else Forwarded(m.reply, m.to)
  }

  lemma DeliveredFlight(net: Net, s: State, m: Message, t: real)
    requires Shape(net, s) && Enabled(net, s, Deliver(m, t))
    ensures Apply(net, s, Deliver(m, t)).flight == s.flight - multiset{m} + Out(net, s, m, t)
  {
    hide Answered, ProcessRequest, ProcessReply, Forwarded;
  }

  lemma OutLighter(net: Net, s: State, m: Message, t: real)
    requires net.Valid() && Shape(net, s) && Enabled(net, s, Deliver(m, t)) && MessageOk(net, m)
    ensures Load(|net.near|, Out(net, s, m, t)) < Weight(|net.near|, m)
  {
    hide Answered, ProcessRequest, RequestOk, ReplyOk, RequestFits, Weight, Load, Forwarded;
    if m.Rreq? {
      AnswerLighter(net, s.dev[m.to], m.request, m.to, t);
    } else {
      ForwardLighter(|net.near|, m.reply, m.to);
    }
  }

  ghost predicate Handles(e: Event) {
    e.Deliver? || e.Lose?
  }

  /** Every message delivered or lost lowers the load, whoever makes the replies; looking a route up leaves it. */
  lemma EventLightens(net: Net, s: State, e: Event)
    requires Inv(net, s) && Shape(net, s) && Enabled(net, s, e) && !e.Start? && !e.Expire?
    ensures Handles(e) ==> Load(|net.near|, Apply(net, s, e).flight) < Load(|net.near|, s.flight)
    ensures !Handles(e) ==> Apply(net, s, e).flight == s.flight
  {
    var n := |net.near|;
    if Handles(e) {
      var m := e.message;
      assert MessageOk(net, m);
      LoadTakes(n, s.flight, m);
      WeightPositive(n, m);
      if e.Deliver? {
        var out := Out(net, s, m, e.time);
        DeliveredFlight(net, s, m, e.time);
        OutLighter(net, s, m, e.time);
        hide *;
        LoadAdds(n, s.flight - multiset{m}, out);
      }
    }
  }

  ghost function Handled(es: seq<Event>): nat {
    if es == [] then 0 else (if Handles(es[0]) then 1 else 0) + Handled(es[1..])
  }

  /** Without new requests no run handles more messages than the load of its first state. */
  lemma {:induction false} DiscoveryEnds(net: Net, s: State, es: seq<Event>, t: State)
    requires Inv(net, s) && Runs(net, s, es, t)
    requires forall i :: 0 <= i < |es| ==> !es[i].Start? && !es[i].Expire?
    ensures Handled(es) + Load(|net.near|, t.flight) <= Load(|net.near|, s.flight)
    decreases |es|
  {
    hide Inv, Apply, Shape, Enabled, Load, Handles;
    if es != [] {
      EventLightens(net, s, es[0]);
      StepKeeps(net, s, es[0]);
      DiscoveryEnds(net, Apply(net, s, es[0]), es[1..], t);
    }
  }
}
