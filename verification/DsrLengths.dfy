/**
  How far DSR's length fields of 8 bits reach. Networks of 63 nodes are safe; here is a run in a network
  of 64 in which the length field of a request wraps.
 */
module DsrLengths {
  import opened Basics
  import opened Dsr
  import opened DsrRuns

  const LAST: nat := 62
  const TARGET: nat := 63

  function Next(v: nat): nat {
    if v == LAST then 0 else v + 1
  }

  function Previous(v: nat): nat {
    if v == 0 then LAST else v - 1
  }

  /** A ring of 63 nodes, and a target that has no link. */
  function Ring(): Net {
    Net(map v: nat | 0 <= v < 64 :: if v == TARGET then {} else {Next(v), Previous(v)})
  }

  lemma {:induction false} RangeSize(n: nat, s: set<nat>)
    requires forall v :: v in s <==> 0 <= v < n
    ensures |s| == n
  {
    if n == 0 {
      assert s == {};
    } else {
      RangeSize(n - 1, s - {n - 1});
    }
  }

  lemma RingLinks()
    ensures Ring().Valid() && |Ring().near| == 64
    ensures forall v: nat :: v in Ring().near <==> v < 64
    ensures forall v: nat :: v <= LAST ==> Next(v) in Ring().near[v]
  {
    RangeSize(64, Ring().near.Keys);
    assert |Ring().near.Keys| == |Ring().near|;
  }

  function Up(k: nat): (a: seq<nat>)
    ensures |a| == k && forall i :: 0 <= i < k ==> a[i] == i + 1
  {
    seq(k, i => i + 1)
  }

  /** The second request of node 0 after it has crossed the nodes up to `k`. */
  function Walked(k: nat): Request {
    Request(0, 2, TARGET, Up(k), 6 + 4 * k)
  }

  lemma WalkedOn(k: nat)
    requires 1 <= k <= LAST
    ensures RequestFits(Walked(k - 1)) && k !in Walked(k - 1).address && PassedOn(Walked(k - 1), k) == Walked(k)
  {
    assert Up(k - 1) + [k] == Up(k);
  }

  /** The request is about to cross node `k`; the nodes from there on know nothing. */
  ghost predicate At(s: State, k: nat) {
    && Reached(Ring(), s) && s.dev.Keys == Ring().near.Keys && 0 in s.dev
    && s.dev[0] == Device(2, [Entry(TARGET, 2, 2, false)], [])
    && (forall v: nat :: k <= v <= LAST && v in s.dev ==> s.dev[v] == Blank())
    && Rreq(Walked(k - 1), if k > LAST then 0 else k) in s.flight
  }

  lemma AtStart() returns (s: State)
    ensures At(s, 1)
  {
    RingLinks();
    hide Ring, Reached;
    var s1 := FirstAsks(Ring(), 0, TARGET);
    var s2, d := AsksAgain(Ring(), s1, 0, TARGET, 1, 0.0);
    s := s2;
    assert Next(0) == 1 && Walked(0) == Request(0, 2, TARGET, [], 6);
  }

  lemma {:induction false} AroundFrom(s: State, k: nat) returns (t: State)
    requires 1 <= k <= LAST + 1 && At(s, k)
    ensures At(t, LAST + 1)
    decreases LAST + 1 - k
  {
    if k > LAST {
      t := s;
    } else {
      RingLinks();
      WalkedOn(k);
      hide Ring, Reached, Walked, RequestFits, PassedOn;
      var u, d := BlankPasses(Ring(), s, k, Walked(k - 1), 0.0);
      assert Rreq(Walked(k), Next(k)) in u.flight;
      t := AroundFrom(u, k + 1);
    }
  }

  lemma Wraps()
    ensures var q := Walked(LAST);
      && RequestFits(q) && q.id == 2 && q.target == TARGET && 0 !in q.address
      && |PassedOn(q, 0).address| == 63 && RequestLength(PassedOn(q, 0)) == -1
  {
  }

  lemma Forgot(q: Request)
    requires q.id == 2
    ensures !Seen([Entry(TARGET, 3, 3, false)], q)
  {
  }

  /** Node 0 asks a third time before its second request is back. */
  lemma AsksOver(s: State) returns (t: State)
    requires At(s, LAST + 1)
    ensures Reached(Ring(), t) && t.dev.Keys == Ring().near.Keys && 0 in t.dev
    ensures t.dev[0] == Device(3, [Entry(TARGET, 3, 3, false)], []) && Rreq(Walked(LAST), 0) in t.flight
  {
    RingLinks();
    hide Ring, Reached, Walked, Blank;
    var u, d := AsksAgain(Ring(), s, 0, TARGET, 2, 0.0);
    t := u;
  }

  /** A run in a network of 64 nodes after which a request lists 63 nodes and its length field tells of none. */
  lemma LengthMayWrap() returns (es: seq<Event>, t: State, m: Message)
    ensures Ring().Valid() && |Ring().near| == 64 && Runs(Ring(), Init(Ring()), es, t)
    ensures m in t.flight && m.Rreq? && |m.request.address| == 63 && RequestLength(m.request) == -1
  {
    hide *;
    RingLinks();
    NextOfFirst();
    var s0 := AtStart();
    var s1 := AroundFrom(s0, 1);
    var s := AsksOver(s1);
    var q := Walked(LAST);
    Wraps();
    Forgot(q);
    var t', d := Passes(Ring(), s, 0, q, 0.0);
    t := t';
    m := Rreq(PassedOn(q, 0), 1);
    es := RunOf(Ring(), t);
  }

  lemma NextOfFirst()
    ensures Next(0) == 1 && LAST == 62 && TARGET == 63
  {
  }
}
