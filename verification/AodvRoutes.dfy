/**
  The route table of an AODV node (RFC 3561): the searches and updates of its list, what every
  operation keeps, and how a live route may change while it stays live.
 */
module AodvRoutes {
  import opened Basics

  datatype RoutingFlag = Valid | Invalid

  datatype Route = Route(dest: nat, seqNumber: nat, seqValid: bool, hops: nat, next: nat, lifetime: real, flag: RoutingFlag)

  /** A timer event that will look for dead routes to `dest`. */
  datatype Timer = Timer(dest: nat, time: real)

  const ACTIVE_ROUTE_TIMEOUT: real := 3_000_000.0
  const DELETE_PERIOD: real := 15_000_000.0

  predicate Live(r: Route, dest: nat) {
    r.dest == dest && r.flag == Valid
  }

  /** Where the first live route to `dest` stands, or the table's length. */
  function LiveAt(routes: seq<Route>, dest: nat): (i: nat)
    ensures i <= |routes|
    ensures i < |routes| ==> Live(routes[i], dest)
    ensures forall j :: 0 <= j < i ==> !Live(routes[j], dest)
  {
    if routes == [] || Live(routes[0], dest) then 0 else LiveAt(routes[1..], dest) + 1
  }

  // ---------------------------------------------------------------------------------------------
  // Operations
  // ---------------------------------------------------------------------------------------------

  /** Whether news of a route replaces what is known: nothing reliable, older, or as old and longer. */
  predicate Replaces(r: Route, seqNumber: nat, hops: nat) {
    !r.seqValid || r.seqNumber < seqNumber || (r.seqNumber == seqNumber && hops + 1 < r.hops)
  }

  function Inserted(routes: seq<Route>, dest: nat, seqNumber: nat, hops: nat, next: nat, lifetime: real, now: real): seq<Route>
  {
    var i := LiveAt(routes, dest);
    if i == |routes| then
      routes + [Route(dest, seqNumber, seqNumber != 0, hops, next, Max(now + ACTIVE_ROUTE_TIMEOUT, lifetime), Valid)]
    else if Replaces(routes[i], seqNumber, hops) then
      routes[i := routes[i].(seqNumber := seqNumber, hops := hops, lifetime := Max(routes[i].lifetime, lifetime),
                             seqValid := routes[i].seqValid || seqNumber != 0)]
    else routes
  }

  function Extend(r: Route, ip: nat, lifetime: real): Route {
    if r.next == ip || r.dest == ip then r.(lifetime := Max(r.lifetime, lifetime)) else r
  }

  /** The link to `next` broke. */
  function Break(r: Route, next: nat, now: real): Route {
    if r.next == next then r.(flag := Invalid, lifetime := now + DELETE_PERIOD) else r
  }

  /** The next hop reports that it lost some destinations. */
  function Report(r: Route, lost: seq<nat>, source: nat, now: real): Route {
    if r.dest in lost && r.next == source then r.(flag := Invalid, lifetime := now + DELETE_PERIOD) else r
  }

  /** What a timer leaves, and the timers it sets: the time to compare with moves on while it scans. */
  function Expired(routes: seq<Route>, dest: nat, time: real): (seq<Route>, seq<Timer>) {
    if routes == [] then ([], [])
    else
      var r := routes[0];
      if r.dest != dest then
        var (rest, timers) := Expired(routes[1..], dest, time);
        ([r] + rest, timers)
      else if r.lifetime <= time then Expired(routes[1..], dest, time)
      else
        var (rest, timers) := Expired(routes[1..], dest, r.lifetime);
        ([r] + rest, [Timer(dest, r.lifetime)] + timers)
  }

  datatype Operation =
    | Insert(dest: nat, seqNumber: nat, hops: nat, next: nat, lifetime: real, now: real)
    | Update(ip: nat, lifetime: real)
    | LinkBreak(next: nat, now: real)
    | RouteError(lost: seq<nat>, source: nat, now: real)
    | Timeout(timer: Timer)

  /** One node's table and its pending timers. */
  datatype State = State(routes: seq<Route>, timers: multiset<Timer>)

  ghost predicate Enabled(s: State, op: Operation) {
    op.Timeout? ==> op.timer in s.timers
  }

  function Apply(s: State, op: Operation): State {
    match op
    case Insert(dest, seqNumber, hops, next, lifetime, now) =>
      State(Inserted(s.routes, dest, seqNumber, hops, next, lifetime, now),
            if LiveAt(s.routes, dest) == |s.routes|
            then s.timers + multiset{Timer(dest, now + ACTIVE_ROUTE_TIMEOUT)} else s.timers)
    case Update(ip, lifetime) =>
      s.(routes := seq(|s.routes|, i requires 0 <= i < |s.routes| => Extend(s.routes[i], ip, lifetime)))
    case LinkBreak(next, now) =>
      s.(routes := seq(|s.routes|, i requires 0 <= i < |s.routes| => Break(s.routes[i], next, now)))
    case RouteError(lost, source, now) =>
      s.(routes := seq(|s.routes|, i requires 0 <= i < |s.routes| => Report(s.routes[i], lost, source, now)))
    case Timeout(timer) =>
      var (routes, timers) := Expired(s.routes, timer.dest, timer.time);
      State(routes, s.timers - multiset{timer} + multiset(timers))
  }

  // ---------------------------------------------------------------------------------------------
  // What every operation keeps
  // ---------------------------------------------------------------------------------------------

  ghost predicate OneLive(routes: seq<Route>) {
    forall i, j :: 0 <= i < j < |routes| && routes[i].flag == Valid && routes[j].flag == Valid ==>
      routes[i].dest != routes[j].dest
  }

  ghost predicate NumbersMarked(routes: seq<Route>) {
    forall r :: r in routes && !r.seqValid ==> r.seqNumber == 0
  }

  ghost predicate Timed(timers: multiset<Timer>, dest: nat) {
    exists time :: Timer(dest, time) in timers
  }

  /**
    At most one live route to a destination; a number that is not marked valid is 0; and every route
    has a timer that will come back to it.
   */
  ghost predicate TableOk(s: State) {
    && OneLive(s.routes) && NumbersMarked(s.routes)
    && forall r :: r in s.routes ==> Timed(s.timers, r.dest)
  }

  lemma {:induction false} ExpiredSubset(routes: seq<Route>, dest: nat, time: real)
    ensures var (rest, timers) := Expired(routes, dest, time);
      && (forall r :: r in rest ==> r in routes)
      && (forall r :: r in rest && r.dest == dest ==> Timed(multiset(timers), dest))
      && (forall r :: r in routes && r.dest != dest ==> r in rest)
  {
    if routes != [] {
      var r := routes[0];
      if r.dest == dest && r.lifetime > time {
        ExpiredSubset(routes[1..], dest, r.lifetime);
        assert ([Timer(dest, r.lifetime)] + Expired(routes[1..], dest, r.lifetime).1)[0] == Timer(dest, r.lifetime);
      } else {
        ExpiredSubset(routes[1..], dest, time);
      }
    }
  }

  lemma OneLiveFront(r: Route, rest: seq<Route>)
    requires OneLive(rest) && (r.flag == Valid ==> forall q :: q in rest && q.flag == Valid ==> q.dest != r.dest)
    ensures OneLive([r] + rest)
  {
    var routes := [r] + rest;
    forall i, j | 0 <= i < j < |routes| && routes[i].flag == Valid && routes[j].flag == Valid
      ensures routes[i].dest != routes[j].dest
    {
      assert routes[j] == rest[j - 1];
      if i > 0 {
        assert routes[i] == rest[i - 1];
      }
    }
  }

  lemma OneLiveTail(routes: seq<Route>)
    requires OneLive(routes) && routes != []
    ensures OneLive(routes[1..])
    ensures routes[0].flag == Valid ==> forall q :: q in routes[1..] && q.flag == Valid ==> q.dest != routes[0].dest
  {
    forall i, j | 0 <= i < j < |routes[1..]| && routes[1..][i].flag == Valid && routes[1..][j].flag == Valid
      ensures routes[1..][i].dest != routes[1..][j].dest
    {
      assert routes[1..][i] == routes[i + 1] && routes[1..][j] == routes[j + 1];
    }
    forall k | 0 <= k < |routes[1..]|
      ensures routes[1..][k] == routes[k + 1]
    {
    }
  }

  lemma {:induction false} ExpiredOneLive(routes: seq<Route>, dest: nat, time: real)
    requires OneLive(routes)
    ensures OneLive(Expired(routes, dest, time).0)
  {
    hide OneLive;
    if routes == [] {
      assert Expired(routes, dest, time).0 == routes;
    } else {
      var r := routes[0];
      OneLiveTail(routes);
      var t := if r.dest == dest && r.lifetime > time then r.lifetime else time;
      ExpiredOneLive(routes[1..], dest, t);
      ExpiredSubset(routes[1..], dest, t);
      OneLiveFront(r, Expired(routes[1..], dest, t).0);
    }
  }

  lemma InsertedKeeps(s: State, op: Operation)
    requires TableOk(s) && op.Insert?
    ensures TableOk(Apply(s, op))
  {
    var i := LiveAt(s.routes, op.dest);
    var t := Apply(s, op);
    if i == |s.routes| {
      forall r | r in t.routes
        ensures Timed(t.timers, r.dest)
      {
        if r in s.routes {
          TimedGrows(s.timers, t.timers, r.dest);
        } else {
          assert Timer(op.dest, op.now + ACTIVE_ROUTE_TIMEOUT) in t.timers;
        }
      }
    } else {
      assert s.routes[i] in s.routes;
      forall r | r in t.routes
        ensures (!r.seqValid ==> r.seqNumber == 0) && Timed(t.timers, r.dest)
      {
        var k :| 0 <= k < |t.routes| && t.routes[k] == r;
        assert s.routes[k] in s.routes;
      }
    }
  }

  lemma TimedGrows(a: multiset<Timer>, b: multiset<Timer>, dest: nat)
    requires Timed(a, dest) && a <= b
    ensures Timed(b, dest)
  {
    var time :| Timer(dest, time) in a;
    assert Timer(dest, time) in b;
  }

  /** An operation that changes routes one by one keeps the table in order if it revives nothing. */
  lemma PointwiseKeeps(s: State, routes: seq<Route>)
    requires TableOk(s) && |routes| == |s.routes|
    requires forall i :: 0 <= i < |routes| ==> SameRoute(s.routes[i], routes[i])
    ensures TableOk(State(routes, s.timers))
  {
    forall r | r in routes
      ensures (!r.seqValid ==> r.seqNumber == 0) && Timed(s.timers, r.dest)
    {
      var k :| 0 <= k < |routes| && routes[k] == r;
      assert s.routes[k] in s.routes && SameRoute(s.routes[k], routes[k]);
    }
    forall i, j | 0 <= i < j < |routes| && routes[i].flag == Valid && routes[j].flag == Valid
      ensures routes[i].dest != routes[j].dest
    {
      assert SameRoute(s.routes[i], routes[i]) && SameRoute(s.routes[j], routes[j]);
    }
  }

  /** The same route, perhaps no longer live. */
  ghost predicate SameRoute(r: Route, q: Route) {
    && q.dest == r.dest && q.next == r.next && q.hops == r.hops
    && q.seqNumber == r.seqNumber && q.seqValid == r.seqValid
    && (q.flag == Valid ==> r.flag == Valid && q.lifetime >= r.lifetime)
  }

  lemma TimeoutKeeps(s: State, timer: Timer)
    requires TableOk(s)
    ensures TableOk(Apply(s, Timeout(timer)))
  {
    hide OneLive;
    ExpiredSubset(s.routes, timer.dest, timer.time);
    ExpiredOneLive(s.routes, timer.dest, timer.time);
    var t := Apply(s, Timeout(timer));
    var (rest, timers) := Expired(s.routes, timer.dest, timer.time);
    forall r | r in t.routes
      ensures Timed(t.timers, r.dest)
    {
      if r.dest == timer.dest {
        TimedGrows(multiset(timers), t.timers, r.dest);
      } else {
        assert Timed(s.timers, r.dest);
        var time :| Timer(r.dest, time) in s.timers;
        assert Timer(r.dest, time) in t.timers;
      }
    }
  }

  lemma OperationKeeps(s: State, op: Operation)
    requires TableOk(s)
    ensures TableOk(Apply(s, op))
  {
    hide TableOk;
    match op
    case Insert(_, _, _, _, _, _) => InsertedKeeps(s, op);
    case Update(_, _) => PointwiseKeeps(s, Apply(s, op).routes);
    case LinkBreak(_, _) => PointwiseKeeps(s, Apply(s, op).routes);
    case RouteError(_, _, _) => PointwiseKeeps(s, Apply(s, op).routes);
    case Timeout(timer) => TimeoutKeeps(s, timer);
  }

  // ---------------------------------------------------------------------------------------------
  // How a live route changes
  // ---------------------------------------------------------------------------------------------

  ghost predicate HasLive(routes: seq<Route>, dest: nat) {
    LiveAt(routes, dest) < |routes|
  }

  ghost function LiveRoute(routes: seq<Route>, dest: nat): (r: Route)
    requires HasLive(routes, dest)
    ensures r in routes && Live(r, dest)
  {
    routes[LiveAt(routes, dest)]
  }

  /** A later state of a live route: never an older number, never more hops at the same number, the same next hop. */
  ghost predicate Fresher(r: Route, q: Route) {
    && q.seqNumber >= r.seqNumber
    && (q.seqNumber == r.seqNumber != 0 ==> q.hops <= r.hops)
    && q.next == r.next && q.lifetime >= r.lifetime
  }

  lemma LiveIsUnique(routes: seq<Route>, dest: nat, r: Route)
    requires OneLive(routes) && r in routes && Live(r, dest)
    ensures HasLive(routes, dest) && LiveRoute(routes, dest) == r
  {
    var k :| 0 <= k < |routes| && routes[k] == r;
    var i := LiveAt(routes, dest);
    assert i <= k;
    assert Live(routes[i], dest);
  }

  lemma TimeoutStaysFresh(s: State, timer: Timer, dest: nat)
    requires TableOk(s) && HasLive(s.routes, dest) && HasLive(Apply(s, Timeout(timer)).routes, dest)
    ensures Fresher(LiveRoute(s.routes, dest), LiveRoute(Apply(s, Timeout(timer)).routes, dest))
  {
    var q := LiveRoute(Apply(s, Timeout(timer)).routes, dest);
    ExpiredSubset(s.routes, timer.dest, timer.time);
    LiveIsUnique(s.routes, dest, q);
  }

  /** Where every route stays in its place, a live one is the live one from before. */
  lemma PlacesStayFresh(routes: seq<Route>, after: seq<Route>, dest: nat)
    requires OneLive(routes) && HasLive(routes, dest) && HasLive(after, dest)
    requires |after| == |routes| && forall k :: 0 <= k < |routes| ==> SameRoute(routes[k], after[k])
    ensures Fresher(LiveRoute(routes, dest), LiveRoute(after, dest))
  {
    var k := LiveAt(after, dest);
    assert routes[k] in routes && SameRoute(routes[k], after[k]);
    LiveIsUnique(routes, dest, routes[k]);
  }

  lemma LiveStaysFresh(s: State, op: Operation, dest: nat)
    requires TableOk(s) && HasLive(s.routes, dest) && HasLive(Apply(s, op).routes, dest)
    ensures Fresher(LiveRoute(s.routes, dest), LiveRoute(Apply(s, op).routes, dest))
  {
    match op
    case Insert(_, _, _, _, _, _) => InsertStaysFresh(s, op, dest);
    case Timeout(timer) => TimeoutStaysFresh(s, timer, dest);
    case _ => PlacesStayFresh(s.routes, Apply(s, op).routes, dest);
  }

  lemma InsertStaysFresh(s: State, op: Operation, dest: nat)
    requires TableOk(s) && op.Insert? && HasLive(s.routes, dest) && HasLive(Apply(s, op).routes, dest)
    ensures Fresher(LiveRoute(s.routes, dest), LiveRoute(Apply(s, op).routes, dest))
  {
    var t := Apply(s, op);
    OperationKeeps(s, op);
    var i := LiveAt(s.routes, dest);
    assert s.routes[i] in s.routes && t.routes[i] in t.routes && Live(t.routes[i], dest);
    LiveIsUnique(t.routes, dest, t.routes[i]);
  }

  // ---------------------------------------------------------------------------------------------
  // Runs
  // ---------------------------------------------------------------------------------------------

  function After(s: State, ops: seq<Operation>): State
    decreases |ops|
  {
    if ops == [] then s else After(Apply(s, ops[0]), ops[1..])
  }

  ghost predicate Runs(s: State, ops: seq<Operation>)
    decreases |ops|
  {
    ops != [] ==> Enabled(s, ops[0]) && Runs(Apply(s, ops[0]), ops[1..])
  }

  /** Some route to `dest` is live before, between and after the operations. */
  ghost predicate AlwaysLive(s: State, ops: seq<Operation>, dest: nat)
    decreases |ops|
  {
    HasLive(s.routes, dest) && (ops != [] ==> AlwaysLive(Apply(s, ops[0]), ops[1..], dest))
  }

  lemma {:induction false} RunKeeps(s: State, ops: seq<Operation>)
    requires TableOk(s)
    ensures TableOk(After(s, ops))
    decreases |ops|
  {
    hide TableOk, Apply;
    if ops != [] {
      OperationKeeps(s, ops[0]);
      RunKeeps(Apply(s, ops[0]), ops[1..]);
    }
  }

  /** After any run there is at most one live route to a destination, and every route has its timer. */
  lemma AlwaysInOrder(ops: seq<Operation>)
    requires Runs(State([], multiset{}), ops)
    ensures TableOk(After(State([], multiset{}), ops))
  {
    RunKeeps(State([], multiset{}), ops);
  }

  lemma FresherChains(p: Route, q: Route, r: Route)
    requires Fresher(p, q) && Fresher(q, r)
    ensures Fresher(p, r)
  {
  }

  lemma {:induction false} AlwaysLiveEnds(s: State, ops: seq<Operation>, dest: nat)
    requires AlwaysLive(s, ops, dest)
    ensures HasLive(s.routes, dest) && HasLive(After(s, ops).routes, dest)
    decreases |ops|
  {
    hide Apply, HasLive;
    if ops != [] {
      AlwaysLiveEnds(Apply(s, ops[0]), ops[1..], dest);
    }
  }

  /** Over any stretch of a run in which a destination stays live, its route only gets fresher. */
  lemma {:induction false} LiveRouteOnlyImproves(s: State, ops: seq<Operation>, dest: nat)
    requires TableOk(s) && AlwaysLive(s, ops, dest)
    ensures HasLive(s.routes, dest) && HasLive(After(s, ops).routes, dest)
    ensures Fresher(LiveRoute(s.routes, dest), LiveRoute(After(s, ops).routes, dest))
    decreases |ops|
  {
    hide TableOk, Apply, Fresher, HasLive, LiveRoute;
    AlwaysLiveEnds(s, ops, dest);
    if ops == [] {
      FresherSelf(LiveRoute(s.routes, dest));
    } else {
      var t := Apply(s, ops[0]);
      AlwaysLiveEnds(t, ops[1..], dest);
      OperationKeeps(s, ops[0]);
      LiveStaysFresh(s, ops[0], dest);
      LiveRouteOnlyImproves(t, ops[1..], dest);
      FresherChains(LiveRoute(s.routes, dest), LiveRoute(t.routes, dest), LiveRoute(After(s, ops).routes, dest));
    }
  }

  lemma FresherSelf(r: Route)
    ensures Fresher(r, r)
  {
  }

  /** News of a route always leaves a live one, no older than the news; what was live before keeps its next hop. */
  lemma InsertLeavesLive(s: State, op: Operation)
    requires TableOk(s) && op.Insert?
    ensures HasLive(Apply(s, op).routes, op.dest)
    ensures LiveRoute(Apply(s, op).routes, op.dest).seqNumber >= op.seqNumber
    ensures LiveRoute(Apply(s, op).routes, op.dest).next
         == if HasLive(s.routes, op.dest) then LiveRoute(s.routes, op.dest).next else op.next
  {
    var t := Apply(s, op);
    var i := LiveAt(s.routes, op.dest);
    OperationKeeps(s, op);
    assert t.routes[i] in t.routes && Live(t.routes[i], op.dest);
    LiveIsUnique(t.routes, op.dest, t.routes[i]);
    if i < |s.routes| {
      assert s.routes[i] in s.routes;
    }
  }

  // ---------------------------------------------------------------------------------------------
  // What each operation does
  // ---------------------------------------------------------------------------------------------

  /** No live route to `dest` goes over `next`. */
  ghost predicate Avoids(routes: seq<Route>, dest: nat, next: nat) {
    forall r :: r in routes && Live(r, dest) ==> r.next != next
  }

  /** The route is marked, and kept for fifteen seconds more. */
  ghost predicate Dead(r: Route, q: Route, now: real) {
    q == Route(r.dest, r.seqNumber, r.seqValid, r.hops, r.next, now + 15_000_000.0, Invalid)
  }

  /** A broken link marks every route over it and changes no other; no live route goes over it any more. */
  lemma LinkBreakMarks(s: State, next: nat, now: real)
    ensures var t := Apply(s, LinkBreak(next, now));
      && t.timers == s.timers && |t.routes| == |s.routes|
      && (forall i :: 0 <= i < |s.routes| && s.routes[i].next == next ==> Dead(s.routes[i], t.routes[i], now))
      && (forall i :: 0 <= i < |s.routes| && s.routes[i].next != next ==> t.routes[i] == s.routes[i])
      && (forall dest :: Avoids(t.routes, dest, next))
      && (forall dest :: HasLive(t.routes, dest) ==> LiveRoute(t.routes, dest).next != next)
  {
    var t := Apply(s, LinkBreak(next, now));
    forall r | r in t.routes && r.flag == Valid
      ensures r.next != next
    {
      var k :| 0 <= k < |t.routes| && t.routes[k] == r;
    }
  }

  /** A report marks every route to a lost destination over its sender and changes no other. */
  lemma RouteErrorMarks(s: State, lost: seq<nat>, source: nat, now: real)
    ensures var t := Apply(s, RouteError(lost, source, now));
      && t.timers == s.timers && |t.routes| == |s.routes|
      && (forall i :: 0 <= i < |s.routes| && s.routes[i].dest in lost && s.routes[i].next == source ==>
            Dead(s.routes[i], t.routes[i], now))
      && (forall i :: 0 <= i < |s.routes| && !(s.routes[i].dest in lost && s.routes[i].next == source) ==>
            t.routes[i] == s.routes[i])
      && (forall dest :: dest in lost ==> Avoids(t.routes, dest, source))
      && (forall dest :: dest in lost && HasLive(t.routes, dest) ==> LiveRoute(t.routes, dest).next != source)
  {
    var t := Apply(s, RouteError(lost, source, now));
    forall r | r in t.routes && r.flag == Valid && r.dest in lost
      ensures r.next != source
    {
      var k :| 0 <= k < |t.routes| && t.routes[k] == r;
    }
  }

  /** Using a neighbour keeps every route over it or to it for the lifetime given, and changes nothing else. */
  lemma UpdateProlongs(s: State, ip: nat, lifetime: real)
    ensures var t := Apply(s, Update(ip, lifetime));
      && t.timers == s.timers && |t.routes| == |s.routes|
      && (forall i :: 0 <= i < |s.routes| ==> t.routes[i] == s.routes[i].(lifetime := t.routes[i].lifetime))
      && (forall i :: 0 <= i < |s.routes| && (s.routes[i].next == ip || s.routes[i].dest == ip) ==>
            t.routes[i].lifetime >= lifetime && t.routes[i].lifetime >= s.routes[i].lifetime
            && t.routes[i].lifetime in {lifetime, s.routes[i].lifetime})
      && (forall i :: 0 <= i < |s.routes| && s.routes[i].next != ip && s.routes[i].dest != ip ==> t.routes[i] == s.routes[i])
  {
  }

  /**
    News of a destination without a live route adds one, live for three seconds at least, with a timer.
    Otherwise it changes at most the live route: number and hops become those of the news when the number is
    newer or not marked, or as new and the hops are fewer by two; else nothing changes.
   */
  lemma InsertTakesNews(s: State, op: Operation)
    requires op.Insert?
    ensures var t := Apply(s, op);
      if !HasLive(s.routes, op.dest) then
        && |t.routes| == |s.routes| + 1 && t.routes[..|s.routes|] == s.routes
        && t.timers == s.timers + multiset{Timer(op.dest, op.now + 3_000_000.0)}
        && var r := t.routes[|s.routes|];
           && r == Route(op.dest, op.seqNumber, op.seqNumber > 0, op.hops, op.next, r.lifetime, Valid)
           && r.lifetime >= op.lifetime && r.lifetime >= op.now + 3_000_000.0
           && r.lifetime in {op.lifetime, op.now + 3_000_000.0}
      else
        var (i, r) := (LiveAt(s.routes, op.dest), LiveRoute(s.routes, op.dest));
        && t.timers == s.timers && |t.routes| == |s.routes|
        && (forall j :: 0 <= j < |s.routes| && j != i ==> t.routes[j] == s.routes[j])
        && if r.seqValid && (r.seqNumber > op.seqNumber || (r.seqNumber == op.seqNumber && r.hops <= op.hops + 1))
           then t.routes[i] == r
           else
             var q := t.routes[i];
             && q == Route(r.dest, op.seqNumber, q.seqValid, op.hops, r.next, q.lifetime, Valid)
             && (q.seqValid <==> r.seqValid || op.seqNumber > 0)
             && q.lifetime >= op.lifetime && q.lifetime >= r.lifetime && q.lifetime in {op.lifetime, r.lifetime}
  {
  }

  /** The routes to `dest` in a table, in order. */
  ghost function To(routes: seq<Route>, dest: nat): seq<Route> {
    if routes == [] then [] else (if routes[0].dest == dest then [routes[0]] else []) + To(routes[1..], dest)
  }

  /** The routes to other destinations. */
  ghost function NotTo(routes: seq<Route>, dest: nat): seq<Route> {
    if routes == [] then [] else (if routes[0].dest == dest then [] else [routes[0]]) + NotTo(routes[1..], dest)
  }

  /** Each route lives longer than `time` and than those before it. */
  ghost predicate LongerAndLonger(routes: seq<Route>, time: real) {
    && (forall i :: 0 <= i < |routes| ==> routes[i].lifetime > time)
    && (forall i, j :: 0 <= i < j < |routes| ==> routes[i].lifetime < routes[j].lifetime)
  }

  /** A route was over at the timer's time, or no later than another that is kept. */
  ghost predicate Over(r: Route, kept: seq<Route>, time: real) {
    r.lifetime <= time || exists k :: 0 <= k < |kept| && r.lifetime <= kept[k].lifetime
  }

  /** What a timer at `time` leaves of a table, and the timers it sets. */
  ghost predicate FreesDead(routes: seq<Route>, rest: seq<Route>, timers: seq<Timer>, dest: nat, time: real) {
    var kept := To(rest, dest);
    && NotTo(rest, dest) == NotTo(routes, dest)
    && LongerAndLonger(kept, time)
    && (forall r :: r in kept ==> r in To(routes, dest))
    && (forall r :: r in To(routes, dest) && r !in kept ==> Over(r, kept, time))
    && |timers| == |kept| && (forall i :: 0 <= i < |timers| ==> timers[i] == Timer(dest, kept[i].lifetime))
  }

  lemma SplitFront(r: Route, rest: seq<Route>, dest: nat)
    ensures To([r] + rest, dest) == (if r.dest == dest then [r] else []) + To(rest, dest)
    ensures NotTo([r] + rest, dest) == (if r.dest == dest then [] else [r]) + NotTo(rest, dest)
  {
    assert ([r] + rest)[1..] == rest;
  }

  lemma SkipsOther(r: Route, tail: seq<Route>, rest: seq<Route>, timers: seq<Timer>, dest: nat, time: real)
    requires r.dest != dest && FreesDead(tail, rest, timers, dest, time)
    ensures FreesDead([r] + tail, [r] + rest, timers, dest, time)
  {
    SplitFront(r, tail, dest);
    SplitFront(r, rest, dest);
    hide To, NotTo, LongerAndLonger, Over;
    assert [] + To(tail, dest) == To(tail, dest) && [] + To(rest, dest) == To(rest, dest);
  }

  lemma FreesOver(r: Route, tail: seq<Route>, rest: seq<Route>, timers: seq<Timer>, dest: nat, time: real)
    requires r.dest == dest && r.lifetime <= time && FreesDead(tail, rest, timers, dest, time)
    ensures FreesDead([r] + tail, rest, timers, dest, time)
  {
    SplitFront(r, tail, dest);
    hide To, NotTo, LongerAndLonger;
    assert [] + NotTo(tail, dest) == NotTo(tail, dest);
  }

  lemma KeepsLonger(r: Route, tail: seq<Route>, rest: seq<Route>, timers: seq<Timer>, dest: nat, time: real)
    requires r.dest == dest && r.lifetime > time && FreesDead(tail, rest, timers, dest, r.lifetime)
    ensures FreesDead([r] + tail, [r] + rest, [Timer(dest, r.lifetime)] + timers, dest, time)
  {
    SplitFront(r, tail, dest);
    SplitFront(r, rest, dest);
    hide To, NotTo;
    assert [] + NotTo(tail, dest) == NotTo(tail, dest) && [] + NotTo(rest, dest) == NotTo(rest, dest);
    var kept := [r] + To(rest, dest);
    forall q | q in To(tail, dest) && q !in To(rest, dest)
      ensures Over(q, kept, time)
    {
      if q.lifetime <= r.lifetime {
        assert q.lifetime <= kept[0].lifetime;
      } else {
        var k :| 0 <= k < |To(rest, dest)| && q.lifetime <= To(rest, dest)[k].lifetime;
        assert q.lifetime <= kept[k + 1].lifetime;
      }
    }
  }

  /**
    A timer leaves the routes to other destinations alone. Of those to its own it keeps none that is over,
    frees only what is over, itself or by the time of one that is kept, and sets a timer for each it keeps.
   */
  lemma {:induction false} ExpiredFreesDead(routes: seq<Route>, dest: nat, time: real)
    ensures FreesDead(routes, Expired(routes, dest, time).0, Expired(routes, dest, time).1, dest, time)
  {
    if routes != [] {
      hide FreesDead;
      var r, tail := routes[0], routes[1..];
      assert routes == [r] + tail;
      var after := if r.dest == dest && r.lifetime > time then r.lifetime else time;
      ExpiredFreesDead(tail, dest, after);
      var (rest, timers) := Expired(tail, dest, after);
      if r.dest != dest {
        SkipsOther(r, tail, rest, timers, dest, time);
      } else if r.lifetime <= time {
        FreesOver(r, tail, rest, timers, dest, time);
      } else {
        KeepsLonger(r, tail, rest, timers, dest, time);
      }
    }
  }

  /** After a timer no route to its destination is left that was over at its time. */
  lemma TimeoutFreesDead(s: State, timer: Timer)
    ensures var t := Apply(s, Timeout(timer));
      && NotTo(t.routes, timer.dest) == NotTo(s.routes, timer.dest)
      && (forall r :: r in t.routes && r.dest == timer.dest ==> r.lifetime > timer.time)
  {
    var t := Apply(s, Timeout(timer));
    ExpiredFreesDead(s.routes, timer.dest, timer.time);
    forall r | r in t.routes && r.dest == timer.dest
      ensures r.lifetime > timer.time
    {
      InTo(t.routes, r);
    }
  }

  lemma {:induction false} InTo(routes: seq<Route>, r: Route)
    requires r in routes
    ensures r in To(routes, r.dest)
  {
    if r != routes[0] {
      InTo(routes[1..], r);
    }
  }

  // ---------------------------------------------------------------------------------------------
  // A link that broke is not used again until a route over it is learnt
  // ---------------------------------------------------------------------------------------------

  /** Nothing but a new route to `dest` over `next` brings the link back. */
  lemma StaysOff(s: State, op: Operation, dest: nat, next: nat)
    requires Avoids(s.routes, dest, next) && !(op.Insert? && op.dest == dest && op.next == next)
    ensures Avoids(Apply(s, op).routes, dest, next)
  {
    var t := Apply(s, op);
    forall r | r in t.routes && Live(r, dest)
      ensures r.next != next
    {
      if op.Timeout? {
        ExpiredSubset(s.routes, op.timer.dest, op.timer.time);
      } else {
        var k :| 0 <= k < |t.routes| && t.routes[k] == r;
        if k < |s.routes| {
          assert s.routes[k] in s.routes;
        }
      }
    }
  }

  lemma {:induction false} RunStaysOff(s: State, ops: seq<Operation>, dest: nat, next: nat)
    requires Avoids(s.routes, dest, next)
    requires forall i :: 0 <= i < |ops| ==> !(ops[i].Insert? && ops[i].dest == dest && ops[i].next == next)
    ensures Avoids(After(s, ops).routes, dest, next)
    decreases |ops|
  {
    hide Avoids, Apply;
    if ops != [] {
      StaysOff(s, ops[0], dest, next);
      RunStaysOff(Apply(s, ops[0]), ops[1..], dest, next);
    }
  }

  /**
    After a link broke, or its far end reported the destination lost, no packet for the destination is sent
    over it, however long the table lives, until a route to the destination over it is inserted again.
   */
  lemma BrokenLinkStaysOff(s: State, broke: Operation, ops: seq<Operation>, dest: nat, next: nat, now: real)
    requires TableOk(s) && (broke == LinkBreak(next, now) || (broke.RouteError? && broke.source == next && dest in broke.lost))
    requires forall i :: 0 <= i < |ops| ==> !(ops[i].Insert? && ops[i].dest == dest && ops[i].next == next)
    ensures var t := After(Apply(s, broke), ops);
      && TableOk(t) && Avoids(t.routes, dest, next)
      && (HasLive(t.routes, dest) ==> LiveRoute(t.routes, dest).next != next)
  {
    if broke.RouteError? {
      RouteErrorMarks(s, broke.lost, next, broke.now);
    } else {
      LinkBreakMarks(s, next, now);
    }
    OperationKeeps(s, broke);
    hide TableOk, Apply;
    RunKeeps(Apply(s, broke), ops);
    RunStaysOff(Apply(s, broke), ops, dest, next);
  }

  // ---------------------------------------------------------------------------------------------
  // Lookups
  // ---------------------------------------------------------------------------------------------

  ghost predicate Found(routes: seq<Route>, dest: nat, now: real) {
    exists r :: r in routes && Live(r, dest) && r.lifetime > now
  }

  /** A route check is positive exactly when the route that a next-hop search returns has time left. */
  lemma FoundIsLive(s: State, dest: nat, now: real)
    requires TableOk(s)
    ensures Found(s.routes, dest, now) <==> HasLive(s.routes, dest) && LiveRoute(s.routes, dest).lifetime > now
  {
    if r :| r in s.routes && Live(r, dest) && r.lifetime > now {
      LiveIsUnique(s.routes, dest, r);
    }
  }

  /** The destinations and numbers of the routes over a link. */
  ghost function Lost(routes: seq<Route>, next: nat): (seq<nat>, seq<nat>) {
    if routes == [] then ([], [])
    else
      var n := |routes| - 1;
      var (dests, numbers) := Lost(routes[..n], next);
      if routes[n].next == next then (dests + [routes[n].dest], numbers + [routes[n].seqNumber]) else (dests, numbers)
  }

  /** Exactly the routes over the link are listed, each with its number. */
  lemma {:induction false} LostExactly(routes: seq<Route>, next: nat, dest: nat, number: nat)
    ensures var (dests, numbers) := Lost(routes, next);
      && |dests| == |numbers| <= |routes|
      && ((exists i :: 0 <= i < |dests| && dests[i] == dest && numbers[i] == number)
          <==> exists r :: r in routes && r.next == next && r.dest == dest && r.seqNumber == number)
  {
    if routes != [] {
      var n := |routes| - 1;
      LostExactly(routes[..n], next, dest, number);
      assert routes == routes[..n] + [routes[n]];
      var (before, counts) := Lost(routes[..n], next);
      var (dests, numbers) := Lost(routes, next);
      if i :| 0 <= i < |before| && before[i] == dest && counts[i] == number {
        assert dests[i] == dest && numbers[i] == number;
      }
      if routes[n].next == next {
        assert dests[|before|] == routes[n].dest && numbers[|before|] == routes[n].seqNumber;
      }
    }
  }

  /** How far a timer's scan has come: `front` is done, `rest` is to do. */
  ghost predicate Scanned(whole: seq<Route>, dest: nat, time: real, front: seq<Route>,
      rest: seq<Route>, now: real, timers: seq<Timer>)
  {
    && Expired(whole, dest, time).0 == front + Expired(rest, dest, now).0
    && Expired(whole, dest, time).1 == timers + Expired(rest, dest, now).1
  }

  lemma ScanStarts(whole: seq<Route>, dest: nat, time: real)
    ensures Scanned(whole, dest, time, whole[..0], whole[0..], time, [])
  {
    assert whole[0..] == whole;
  }

  lemma ScanGoesOn(whole: seq<Route>, dest: nat, time: real, front: seq<Route>,
      rest: seq<Route>, now: real, timers: seq<Timer>)
    requires Scanned(whole, dest, time, front, rest, now, timers) && rest != []
    ensures var r := rest[0];
      if r.dest != dest then Scanned(whole, dest, time, front + [r], rest[1..], now, timers)
      else if r.lifetime <= now then Scanned(whole, dest, time, front, rest[1..], now, timers)
      else Scanned(whole, dest, time, front + [r], rest[1..], r.lifetime, timers + [Timer(dest, r.lifetime)])
  {
  }

  lemma ScanEnds(whole: seq<Route>, dest: nat, time: real, front: seq<Route>,
      rest: seq<Route>, now: real, timers: seq<Timer>)
    requires Scanned(whole, dest, time, front, rest, now, timers) && rest == []
    ensures Expired(whole, dest, time) == (front, timers)
  {
    assert front + [] == front && timers + [] == timers;
  }

  class RouteTable {
    var routes: seq<Route>

    constructor ()
      ensures routes == []
    {
      routes := [];
    }

    method FindNextHop(dest: nat) returns (hop: Option<nat>)
      ensures hop == if HasLive(routes, dest) then Some(LiveRoute(routes, dest).next) else None
    {
      var i := SearchLive(dest);
      hop := if i < |routes| then Some(routes[i].next) else None;
    }

    method SearchLive(dest: nat) returns (i: nat)
      ensures i == LiveAt(routes, dest)
    {
      i := 0;
      while i < |routes|
        invariant i <= |routes| && LiveAt(routes, dest) == i + LiveAt(routes[i..], dest)
      {
        if routes[i].dest == dest && routes[i].flag == Valid {
          return;
        }
        assert routes[i..][1..] == routes[i + 1..];
        i := i + 1;
      }
    }

    method CheckRouteFound(dest: nat, now: real) returns (found: bool)
      ensures found <==> Found(routes, dest, now)
    {
      for i := 0 to |routes|
        invariant forall k :: 0 <= k < i ==> !(Live(routes[k], dest) && routes[k].lifetime > now)
      {
        if routes[i].dest == dest && routes[i].lifetime > now && routes[i].flag != Invalid {
          assert routes[i] in routes && Live(routes[i], dest);
          return true;
        }
      }
      found := false;
    }

    /** A positive check means that the next-hop search finds that very route. */
    method Forward(dest: nat, now: real, ghost timers: multiset<Timer>) returns (hop: Option<nat>)
      requires TableOk(State(routes, timers))
      ensures hop.Some? <==> Found(routes, dest, now)
      ensures hop.Some? ==> exists r :: r in routes && Live(r, dest) && r.lifetime > now && r.next == hop.value
    {
      var found := CheckRouteFound(dest, now);
      FoundIsLive(State(routes, timers), dest, now);
      hop := None;
      if found {
        hop := FindNextHop(dest);
      }
    }

    method InsertInRouteTable(dest: nat, seqNumber: nat, hops: nat, next: nat, lifetime: real, now: real)
      returns (timers: seq<Timer>)
      modifies this
      ensures routes == Inserted(old(routes), dest, seqNumber, hops, next, lifetime, now)
      ensures timers == if LiveAt(old(routes), dest) == |old(routes)| then [Timer(dest, now + ACTIVE_ROUTE_TIMEOUT)] else []
    {
      timers := [];
      var i := SearchLive(dest);
      if i == |routes| {
        timers := [Timer(dest, now + ACTIVE_ROUTE_TIMEOUT)];
        var until := Max(now + ACTIVE_ROUTE_TIMEOUT, lifetime);
        routes := routes + [Route(dest, seqNumber, seqNumber != 0, hops, next, until, Valid)];
      } else {
        var r := routes[i];
        if r.seqValid {
          if r.seqNumber > seqNumber {
            return;
          }
          if r.seqNumber == seqNumber && hops + 1 >= r.hops {
            return;
          }
        }
        r := r.(seqNumber := seqNumber, hops := hops, lifetime := Max(r.lifetime, lifetime));
        if seqNumber != 0 {
          r := r.(seqValid := true);
        }
        routes := routes[i := r];
      }
    }

    method UpdateRouteTable(ip: nat, lifetime: real)
      modifies this
      ensures routes == Apply(State(old(routes), multiset{}), Update(ip, lifetime)).routes
    {
      for i := 0 to |routes|
        invariant |routes| == |old(routes)|
        invariant forall k :: 0 <= k < i ==> routes[k] == Extend(old(routes)[k], ip, lifetime)
        invariant forall k :: i <= k < |routes| ==> routes[k] == old(routes)[k]
      {
        if routes[i].next == ip || routes[i].dest == ip {
          routes := routes[i := routes[i].(lifetime := Max(routes[i].lifetime, lifetime))];
        }
      }
    }

    /** Marks every route over a broken link, and lists what was lost. */
    method GenerateError(next: nat, now: real) returns (lost: seq<nat>, numbers: seq<nat>)
      modifies this
      ensures routes == Apply(State(old(routes), multiset{}), LinkBreak(next, now)).routes
      ensures (lost, numbers) == Lost(old(routes), next)
    {
      lost, numbers := [], [];
      for i := 0 to |routes|
        invariant |routes| == |old(routes)|
        invariant forall k :: 0 <= k < i ==> routes[k] == Break(old(routes)[k], next, now)
        invariant forall k :: i <= k < |routes| ==> routes[k] == old(routes)[k]
        invariant (lost, numbers) == Lost(old(routes)[..i], next)
      {
        assert old(routes)[..i + 1][..i] == old(routes)[..i];
        if routes[i].next == next {
          lost := lost + [routes[i].dest];
          numbers := numbers + [routes[i].seqNumber];
          routes := routes[i := routes[i].(flag := Invalid, lifetime := now + DELETE_PERIOD)];
        }
      }
      assert old(routes)[..|routes|] == old(routes);
    }

    method ProcessError(lost: seq<nat>, source: nat, now: real) returns (forward: bool)
      modifies this
      ensures routes == Apply(State(old(routes), multiset{}), RouteError(lost, source, now)).routes
      ensures forward <==> exists r :: r in old(routes) && r.dest in lost && r.next == source
    {
      forward := false;
      for i := 0 to |routes|
        invariant |routes| == |old(routes)|
        invariant forall k :: 0 <= k < i ==> routes[k] == Report(old(routes)[k], lost, source, now)
        invariant forall k :: i <= k < |routes| ==> routes[k] == old(routes)[k]
        invariant forward <==> exists k :: 0 <= k < i && old(routes)[k].dest in lost && old(routes)[k].next == source
      {
        var hit := false;
        for j := 0 to |lost|
          invariant !hit && (routes[i].dest !in lost[..j] || routes[i].next != source)
        {
          if lost[j] == routes[i].dest && source == routes[i].next {
            hit := true;
            break;
          }
        }
        if hit {
          forward := true;
          routes := routes[i := routes[i].(flag := Invalid, lifetime := now + DELETE_PERIOD)];
        }
      }
    }

    /** The timer's scan: frees dead routes to its destination, and sets a timer for each that lives on. */
    method ActiveRouteTimeout(dest: nat, time: real) returns (timers: seq<Timer>)
      modifies this
      ensures (routes, timers) == Expired(old(routes), dest, time)
    {
      timers := [];
      var now, i := time, 0;
      ghost var whole := routes;
      ScanStarts(whole, dest, time);
      while i < |routes|
        invariant i <= |routes| && Scanned(whole, dest, time, routes[..i], routes[i..], now, timers)
        decreases |routes| - i
      {
        ghost var front, rest := routes[..i], routes[i..];
        ScanGoesOn(whole, dest, time, front, rest, now, timers);
        assert rest[0] == routes[i];
        if routes[i].dest == dest {
          if routes[i].lifetime <= now {
            routes := routes[..i] + routes[i + 1..];
            assert routes[..i] == front && routes[i..] == rest[1..];
            continue;
          }
          now := routes[i].lifetime;
          timers := timers + [Timer(dest, now)];
        }
        i := i + 1;
        assert routes[..i] == front + [rest[0]] && routes[i..] == rest[1..];
      }
      ScanEnds(whole, dest, time, routes[..i], routes[i..], now, timers);
      assert routes[..i] == routes;
    }
  }
}
