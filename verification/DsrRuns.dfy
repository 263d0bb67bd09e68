/** States that runs of the DSR machine reach, one event at a time. */
module DsrRuns {
  import opened Basics
  import opened Dsr

  ghost predicate Reached(net: Net, s: State) {
    net.Valid() && exists es :: Runs(net, Init(net), es, s)
  }

  lemma {:induction false} RunsExtend(net: Net, s: State, es: seq<Event>, t: State, e: Event)
    requires Runs(net, s, es, t) && Shape(net, t) && Enabled(net, t, e)
    ensures Runs(net, s, es + [e], Apply(net, t, e))
    decreases |es|
  {
    hide Shape, Enabled, Apply;
    var fs := es + [e];
    assert fs[0] == if es == [] then e else es[0];
    if es == [] {
      assert fs[1..] == [];
    } else {
      RunsExtend(net, Apply(net, s, es[0]), es[1..], t, e);
      assert fs[1..] == es[1..] + [e];
    }
  }

  lemma ReachedInit(net: Net)
    requires net.Valid()
    ensures Reached(net, Init(net))
  {
    assert Runs(net, Init(net), [], Init(net));
  }

  lemma ReachedInv(net: Net, s: State)
    requires Reached(net, s)
    ensures Inv(net, s) && Shape(net, s)
  {
    hide Inv, Shape, Runs;
    var es :| Runs(net, Init(net), es, s);
    AlwaysInv(net, es, s);
    InvShape(net, s);
  }

  lemma ReachedStep(net: Net, s: State, e: Event)
    requires Reached(net, s) && Shape(net, s) && Enabled(net, s, e)
    ensures Reached(net, Apply(net, s, e))
  {
    hide Shape, Enabled, Apply, Runs, Inv;
    var es :| Runs(net, Init(net), es, s);
    RunsExtend(net, Init(net), es, s, e);
  }

  lemma BroadcastIsRequests(net: Net, u: nat, r: Request)
    requires u in net.near
    ensures forall m :: m in Broadcast(net, u, r) ==> m.Rreq?
  {
  }

  lemma BroadcastHolds(net: Net, u: nat, r: Request)
    requires u in net.near
    ensures forall w :: w in net.near[u] ==> Rreq(r, w) in Broadcast(net, u, r)
  {
  }

  lemma DoStart(net: Net, s: State, v: nat, target: nat) returns (t: State)
    requires Reached(net, s) && v in net.near && target in net.near && v != target
    ensures Reached(net, t) && v in s.dev && t.dev == s.dev[v := Discover(s.dev[v], v, target).0]
    ensures s.flight <= t.flight
    ensures forall w :: w in net.near[v] ==> Rreq(Discover(s.dev[v], v, target).1, w) in t.flight
  {
    hide Reached, Inv, Discover;
    ReachedInv(net, s);
    var e := Start(v, target);
    t := Apply(net, s, e);
    ReachedStep(net, s, e);
    BroadcastHolds(net, v, Discover(s.dev[v], v, target).1);
    hide Broadcast, Shape;
  }

  function Blank(): Device {
    Device(0, [], [])
  }

  /** One node has asked, the others know nothing yet. */
  lemma FirstAsks(net: Net, v: nat, target: nat) returns (t: State)
    requires net.Valid() && v in net.near && target in net.near && v != target
    ensures Reached(net, t) && t.dev.Keys == net.near.Keys && t.dev[v] == Device(1, [Entry(target, 1, 1, false)], [])
    ensures forall u :: u in net.near && u != v ==> t.dev[u] == Blank()
    ensures forall w :: w in net.near[v] ==> Rreq(Request(v, 1, target, [], 6), w) in t.flight
  {
    ReachedInit(net);
    hide Reached;
    t := DoStart(net, Init(net), v, target);
    assert Blank().table + [Entry(target, 1, 1, false)] == [Entry(target, 1, 1, false)];
    assert Discover(Blank(), v, target) == (Device(1, [Entry(target, 1, 1, false)], []), Request(v, 1, target, [], 6));
  }

  lemma DoExpire(net: Net, s: State, v: nat, target: nat, time: real, d: Device, r: Request) returns (t: State)
    requires Reached(net, s) && v in net.near && target in net.near && v != target && v in s.dev
    requires Pending(s.dev[v].table, target) < |s.dev[v].table|
    requires Timeout(s.dev[v], v, target, time) == (d, Some(r))
    ensures Reached(net, t) && t.dev == s.dev[v := d] && s.flight <= t.flight
    ensures forall w :: w in net.near[v] ==> Rreq(r, w) in t.flight
  {
    hide Reached, Inv, Timeout, Victim, Find, Pending;
    ReachedInv(net, s);
    var e := Expire(v, target, time);
    t := Apply(net, s, e);
    ReachedStep(net, s, e);
    BroadcastHolds(net, v, r);
    hide Broadcast, Shape;
  }

  lemma DoLookUp(net: Net, s: State, v: nat, dest: nat, time: real) returns (t: State)
    requires Reached(net, s) && v in net.near && v in s.dev
    ensures Reached(net, t) && t.flight == s.flight
    ensures t.dev == s.dev[v := s.dev[v].(cache := Find(s.dev[v].cache, dest, time).0)]
  {
    hide Reached, Inv, Find;
    ReachedInv(net, s);
    var e := LookUp(v, dest, time);
    t := Apply(net, s, e);
    ReachedStep(net, s, e);
  }

  lemma DoRequest(net: Net, s: State, m: Message, time: real, d: Device, a: Answer) returns (t: State)
    requires Reached(net, s) && m in s.flight && m.Rreq? && RequestFits(m.request) && m.to in s.dev && m.to in net.near
    requires ProcessRequest(s.dev[m.to], m.to, m.request, time) == (d, a)
    ensures Reached(net, t) && t.dev == s.dev[m.to := d] && t.flight == s.flight - multiset{m} + Answered(net, m.to, a)
    ensures a.Rebroadcast? ==> forall w :: w in net.near[m.to] ==> Rreq(a.request, w) in t.flight
    ensures a.Respond? ==> Rrep(a.reply, a.to) in t.flight
  {
    hide Reached, Inv, ProcessRequest, RequestFits;
    ReachedInv(net, s);
    var e := Deliver(m, time);
    RequestApplied(net, s, m, time);
    t := Apply(net, s, e);
    ReachedStep(net, s, e);
    hide Apply, Shape, Enabled;
    if a.Rebroadcast? {
      BroadcastHolds(net, m.to, a.request);
    }
    hide Broadcast;
  }

  lemma DoReply(net: Net, s: State, m: Message, time: real) returns (t: State)
    requires Reached(net, s) && m in s.flight && m.Rrep? && ReplySane(m.reply) && m.to in s.dev
    ensures Reached(net, t) && t.dev == s.dev[m.to := ProcessReply(s.dev[m.to], m.to, Listed(m.reply), time)]
    ensures t.flight == s.flight - multiset{m} + Forwarded(m.reply, m.to)
  {
    hide Reached, Inv, ProcessReply, Forwarded;
    ReachedInv(net, s);
    var e := Deliver(m, time);
    ReplyApplied(net, s, m, time);
    t := Apply(net, s, e);
    ReachedStep(net, s, e);
    hide Apply, Shape, Enabled;
  }

  /** Node `v` has made `n` requests, and asks once more by way of the first entry of its table. */
  lemma AsksAgain(net: Net, s: State, v: nat, target: nat, n: nat, time: real) returns (t: State, d: Device)
    requires Reached(net, s) && v in net.near && v in s.dev && target in net.near && v != target && n < 15
    requires s.dev[v].ident == n && s.dev[v].cache == []
    requires s.dev[v].table != [] && s.dev[v].table[0].target == target && !s.dev[v].table[0].flag
    requires s.dev[v].table[0].count <= n
    ensures Reached(net, t) && t.dev == s.dev[v := d] && s.flight <= t.flight
    ensures d == Device(n + 1, s.dev[v].table[0 := Entry(target, n + 1, s.dev[v].table[0].count + 1, false)], [])
    ensures forall w :: w in net.near[v] ==> Rreq(Request(v, n + 1, target, [], 6), w) in t.flight
  {
    hide Reached;
    assert Find([], target, time) == ([], None) && Pending(s.dev[v].table, target) == 0;
    d := Timeout(s.dev[v], v, target, time).0;
    t := DoExpire(net, s, v, target, time, d, Request(v, n + 1, target, [], 6));
  }

  /** A node without routes that has not seen a request passes it on. */
  lemma Passes(net: Net, s: State, me: nat, r: Request, time: real) returns (t: State, d: Device)
    requires Reached(net, s) && me in net.near && me in s.dev && Rreq(r, me) in s.flight && RequestFits(r)
    requires s.dev[me].cache == [] && !Seen(s.dev[me].table, r) && r.target != me && me !in r.address
    ensures Reached(net, t) && t.dev == s.dev[me := d] && d.cache == [] && d.ident == s.dev[me].ident
    ensures d.table == s.dev[me].table + [Entry(r.target, r.id, 1, false), Entry(r.target, r.id, 0, false)]
    ensures forall w :: w in net.near[me] ==> Rreq(PassedOn(r, me), w) in t.flight
  {
    hide Reached, RequestFits, PassedOn, Answered, Seen;
    assert Find([], r.target, time) == ([], None);
    d := ProcessRequest(s.dev[me], me, r, time).0;
    t := DoRequest(net, s, Rreq(r, me), time, d, Rebroadcast(PassedOn(r, me)));
  }

  lemma BlankPasses(net: Net, s: State, me: nat, r: Request, time: real) returns (t: State, d: Device)
    requires Reached(net, s) && me in net.near && me in s.dev && s.dev[me] == Blank() && Rreq(r, me) in s.flight
    requires r.target != me && me !in r.address && RequestFits(r)
    ensures Reached(net, t) && t.dev == s.dev[me := d]
    ensures d == Device(0, [Entry(r.target, r.id, 1, false), Entry(r.target, r.id, 0, false)], [])
    ensures forall w :: w in net.near[me] ==> Rreq(PassedOn(r, me), w) in t.flight
  {
    hide Reached, RequestFits, PassedOn;
    t, d := Passes(net, s, me, r, time);
    assert d.table == [Entry(r.target, r.id, 1, false), Entry(r.target, r.id, 0, false)];
  }

  lemma RunOf(net: Net, t: State) returns (es: seq<Event>)
    requires Reached(net, t)
    ensures net.Valid() && Runs(net, Init(net), es, t)
  {
    es :| Runs(net, Init(net), es, t);
  }
}
