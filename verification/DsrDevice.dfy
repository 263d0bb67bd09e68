/**
  One DSR node as the object whose tables its handlers update. Each handler is proved against the
  device functions of module Dsr.
 */
module DsrDevice {
  import opened Basics
  import opened Dsr

  /** Looking a route up again at the same time finds it again and changes nothing. */
  lemma {:induction false} FindAgain(cache: seq<Route>, dest: nat, t: real)
    requires Find(cache, dest, t).1.Some?
    ensures Find(Find(cache, dest, t).0, dest, t) == Find(cache, dest, t)
  {
    var (rest, found) := Find(cache, dest, t);
    if cache[0].timeOut <= t {
      FindAgain(cache[1..], dest, t);
    } else if dest !in cache[0].address {
      FindAgain(cache[1..], dest, t);
      assert rest[1..] == Find(cache[1..], dest, t).0;
    } else {
      assert rest[1..] == cache[1..];
    }
  }

  lemma SplitAt(front: seq<Route>, rest: seq<Route>, x: Route, more: seq<Route>)
    requires rest != []
    ensures var c := front + rest;
      && c[|front|] == rest[0] && c[..|front|] + c[|front| + 1..] == front + rest[1..]
      && c == front + [rest[0]] + rest[1..] && c[|front| := x] == front + ([x] + rest[1..])
    ensures front + ([rest[0]] + more) == front + [rest[0]] + more
  {
  }

  lemma ThreeParts(a: seq<nat>, r: Request, route: seq<nat>, first: nat, de: nat)
    requires first <= de <= |route| && |a| == 1 + |r.address| + de - first && a[0] == r.source
    requires forall k :: 1 <= k <= |r.address| ==> a[k] == r.address[k - 1]
    requires forall k :: |r.address| < k < |a| ==> a[k] == route[first + (k - |r.address| - 1)]
    ensures a == [r.source] + r.address + route[first..de]
  {
  }

  class Node {
    const me: nat
    var ident: nat
    var table: seq<Entry>
    var cache: seq<Route>

    ghost function Value(): Device
      reads this
    {
      Device(ident, table, cache)
    }

    constructor (address: nat)
      ensures me == address && Value() == Device(0, [], [])
    {
      me, ident, table, cache := address, 0, [], [];
    }

    // -------------------------------------------------------------------------------------------
    // Searches
    // -------------------------------------------------------------------------------------------

    /** Whether one of the first `length` addresses is `ip`, looking from the last. */
    static method CheckIpInList(list: seq<nat>, length: nat, ip: nat) returns (found: bool)
      requires length <= |list|
      ensures found <==> ip in list[..length]
    {
      var n: nat := length;
      while n > 0
        invariant n <= length
        invariant forall i :: n <= i < length ==> list[i] != ip
      {
        n := n - 1;
        if list[n] == ip {
          return true;
        }
      }
      return false;
    }

    static method CheckEntryInTable(r: Request, table: seq<Entry>) returns (found: bool)
      ensures found <==> Seen(table, r)
    {
      for i := 0 to |table|
        invariant forall k :: 0 <= k < i ==> !(table[k].id == r.id && table[k].target == r.target)
      {
        if table[i].id == r.id && table[i].target == r.target {
          return true;
        }
      }
      return false;
    }

    /** The first entry for the target that no reply has answered. */
    static method GetTable(target: nat, table: seq<Entry>) returns (i: nat)
      ensures i == Pending(table, target)
    {
      i := 0;
      while i < |table|
        invariant i <= |table| && Pending(table, target) == i + Pending(table[i..], target)
      {
        if table[i].target == target && !table[i].flag {
          return;
        }
        assert table[i..][1..] == table[i + 1..];
        i := i + 1;
      }
    }

    method DeleteTable(target: nat)
      modifies this`table
      ensures table == Without(old(table), target)
    {
      var i := 0;
      while i < |table|
        invariant i <= |table| && table == old(table)
        invariant EntryAt(table, target) == i + EntryAt(table[i..], target)
        decreases |table| - i
      {
        if table[i].target == target {
          table := table[..i] + table[i + 1..];
          return;
        }
        assert table[i..][1..] == table[i + 1..];
        i := i + 1;
      }
    }

    // -------------------------------------------------------------------------------------------
    // The route cache
    // -------------------------------------------------------------------------------------------

    /** Looks a route up: frees expired routes it meets, and renews the route it finds. */
    method FindCache(dest: nat, t: real) returns (found: Option<seq<nat>>)
      modifies this`cache
      ensures (cache, found) == Find(old(cache), dest, t)
    {
      var i := 0;
      ghost var front, rest: seq<Route> := [], cache;
      assert front + Find(rest, dest, t).0 == Find(rest, dest, t).0;
      while i < |cache|
        invariant cache == front + rest && i == |front|
        invariant Find(old(cache), dest, t) == (front + Find(rest, dest, t).0, Find(rest, dest, t).1)
        decreases |rest|
      {
        SplitAt(front, rest, Route(cache[i].address, t + CACHE_TIMEOUT), Find(rest[1..], dest, t).0);
        if cache[i].timeOut <= t {
          cache := cache[..i] + cache[i + 1..];
          rest := rest[1..];
        } else {
          var here := dest in cache[i].address;
          if here {
            var address := cache[i].address;
            cache := cache[i := Route(address, t + CACHE_TIMEOUT)];
            return Some(address);
          }
          front, rest := front + [rest[0]], rest[1..];
          i := i + 1;
        }
      }
      found := None;
    }

    /** The loop that looks for this node among the first `length` of a list. */
    method Position(address: seq<nat>, length: nat) returns (count: nat)
      requires length <= |address|
      ensures count == First(address[..length], me)
    {
      count := 0;
      ghost var a := address[..length];
      while count < length
        invariant count <= length && First(a, me) == count + First(a[count..], me)
      {
        if address[count] == me {
          return;
        }
        assert a[count..][1..] == a[count + 1..];
        count := count + 1;
      }
    }

    /** Keeps the part of the first `length` of a list that starts at this node's first place. */
    method UpdateRouteCache(length: nat, address: seq<nat>, t: real)
      requires length <= |address|
      modifies this`cache
      ensures cache == old(cache) + [Route(Suffix(address[..length], me), t + CACHE_TIMEOUT)]
    {
      var count := Position(address, length);
      count := length - count;
      var a, last := new nat[count](_ => 0), length;
      ghost var k := count;
      while count > 0
        invariant count <= k && last == length - k + count && cache == old(cache)
        invariant forall i :: count <= i < k ==> a[i] == address[length - k + i]
      {
        count := count - 1;
        last := last - 1;
        a[count] := address[last];
      }
      assert a[..] == Suffix(address[..length], me);
      cache := cache + [Route(a[..], t + CACHE_TIMEOUT)];
    }

    /** Whether no node of the route is among the first `count` of the list. */
    static method ValidateRouteCache(route: seq<nat>, list: seq<nat>, count: nat) returns (ok: bool)
      requires count <= |list|
      ensures ok <==> Apart(route, list[..count])
    {
      for i := 0 to |route|
        invariant forall x :: 0 <= x < i ==> route[x] !in list[..count]
      {
        for j := 0 to count
          invariant route[i] !in list[..j]
        {
          if route[i] == list[j] {
            assert list[..count][j] == route[i];
            return false;
          }
        }
      }
      return true;
    }

    /** The places after the source, or -1 without it, and after the target of a route. */
    static method DeterminePosition(route: seq<nat>, source: nat, target: nat) returns (my: int, de: int)
      requires target in route
      ensures de == First(route, target) + 1
      ensures var n := AfterLast(route, source, de); my == if n == 0 then -1 else n
    {
      my, de := -1, -1;
      var i := 0;
      while true
        invariant i <= First(route, target) && de == -1
        invariant my == if AfterLast(route, source, i) == 0 then -1 else AfterLast(route, source, i)
        decreases |route| - i
      {
        if route[i] == source {
          my := i + 1;
        }
        if route[i] == target {
          de := i + 1;
          return;
        }
        i := i + 1;
      }
    }

    // -------------------------------------------------------------------------------------------
    // Requests
    // -------------------------------------------------------------------------------------------

    method InitRouteRequest(target: nat) returns (r: Request)
      modifies this`ident, this`table
      ensures (Value(), r) == Discover(old(Value()), me, target)
    {
      ident := ident + 1;
      var id := ident % 65536;
      r := Request(me, id, target, [], 6);
      table := table + [Entry(target, id, 1, false)];
    }

    /**
      A discovery's timer: asks again, or gives up, unless a route has turned up. Without a route and
      without an unanswered entry the program follows a null pointer: then `ok` is false.
     */
    method RequestTimeout(target: nat, t: real) returns (ok: bool, again: Option<Request>)
      modifies this
      ensures ok <==> (Find(old(cache), target, t).1 == None ==> Pending(old(table), target) < |old(table)|)
      ensures ok ==> (Value(), again) == Timeout(old(Value()), me, target, t)
      ensures !ok ==> again == None && Value() == old(Value()).(cache := Find(old(cache), target, t).0)
    {
      ok, again := true, None;
      var found := FindCache(target, t);
      if found == None {
        var i := GetTable(target, table);
        if i == |table| {
          return false, None;
        }
        if table[i].count < MAX_REQUESTS {
          ident := ident + 1;
          var id := ident % 65536;
          table := table[i := table[i].(count := table[i].count + 1, id := id)];
          again := Some(Request(me, id, target, [], 6));
        } else {
          DeleteTable(target);
        }
      }
    }

    /** The target's answer: source, recorded list, target; it goes to the node before the target. */
    method GenerateReply(r: Request) returns (reply: Reply, to: nat)
      requires RequestFits(r)
      ensures reply == ResponseTo(r, me) && to == Sender(r)
    {
      var count := RequestLength(r) + 2;
      var a := new nat[count](_ => 0);
      a[0] := r.source;
      a[count - 1] := me;
      for i := 1 to count - 1
        invariant a[0] == r.source && a[count - 1] == me
        invariant forall k :: 1 <= k < i ==> a[k] == r.address[k - 1]
      {
        a[i] := r.address[i - 1];
      }
      assert a[..] == [r.source] + r.address + [me];
      reply := Reply(a[..], ((count - 1) * 4 + 3) % 256);
      to := a[count - 2];
    }

    /** The list of a reply from a cached route: source, recorded list, and `len` nodes of the route. */
    static method FillAddress(r: Request, route: seq<nat>, from: nat, len: nat) returns (list: seq<nat>, to: nat)
      requires RequestFits(r) && from + len <= |route|
      ensures list == [r.source] + r.address + route[from..from + len] && to == Sender(r)
    {
      var length := RequestLength(r);
      var count := length + len + 1;
      var a := new nat[count](_ => 0);
      a[0] := r.source;
      var i := 1;
      while i <= length
        invariant 1 <= i <= length + 1 && a[0] == r.source
        invariant forall k :: 1 <= k < i ==> a[k] == r.address[k - 1]
      {
        a[i] := r.address[i - 1];
        i := i + 1;
      }
      to := a[i - 1];
      var n := from;
      while i < count
        invariant length < i <= count && n == from + i - length - 1 && a[0] == r.source
        invariant forall k :: 1 <= k <= length ==> a[k] == r.address[k - 1]
        invariant forall k :: length < k < i ==> a[k] == route[from + (k - length - 1)]
      {
        a[i] := route[n];
        i, n := i + 1, n + 1;
      }
      list := a[..];
      ThreeParts(list, r, route, from, from + len);
    }

    static method JoinRoute(r: Request, route: seq<nat>) returns (reply: Reply, to: nat)
      requires RequestFits(r) && r.target in route
      ensures reply == FromRoute(r, route) && to == Sender(r)
    {
      hide First, AfterLast;
      var my, de := DeterminePosition(route, r.source, r.target);
      var len := if my == -1 then de else de - my;
      var from := if my == -1 then 0 else my;
      assert Part(r, route) == route[from..from + len];
      var list;
      list, to := FillAddress(r, route, from, len);
      var count := RequestLength(r) + len + 1;
      reply := Reply(list, ((count - 1) * 4 + 3) % 256);
    }

    /** An answer from the cache, unless the route crosses the recorded list. */
    method GenerateReplyUsingRouteCache(r: Request, t: real) returns (answer: Answer)
      requires RequestFits(r) && Find(cache, r.target, t).1.Some?
      modifies this`cache
      ensures cache == Find(old(cache), r.target, t).0
      ensures var route := Find(old(cache), r.target, t).1.value;
        r.target in route && answer == if Apart(route, r.address) then Respond(FromRoute(r, route), Sender(r)) else Drop
    {
      FindHolds(cache, r.target, t);
      var found := FindCache(r.target, t);
      assert r.address[..RequestLength(r)] == r.address;
      var ok := ValidateRouteCache(found.value, r.address, RequestLength(r));
      if !ok {
        return Drop;
      }
      var reply, to := JoinRoute(r, found.value);
      answer := Respond(reply, to);
    }

    method ProcessRreq(r: Request, t: real) returns (answer: Answer)
      requires RequestFits(r)
      modifies this
      ensures (Value(), answer) == ProcessRequest(old(Value()), me, r, t)
    {
      var seen := CheckEntryInTable(r, table);
      if seen {
        return Drop;
      }
      table := table + [Entry(r.target, r.id, 1, false)];
      if r.target == me {
        var reply, to := GenerateReply(r);
        return Respond(reply, to);
      }
      assert r.address[..RequestLength(r)] == r.address;
      var listed := CheckIpInList(r.address, RequestLength(r), me);
      if listed {
        return Drop;
      }
      table := table + [Entry(r.target, r.id, 0, false)];
      var found := FindCache(r.target, t);
      match found
      case Some(_) =>
        FindAgain(old(cache), r.target, t);
        answer := GenerateReplyUsingRouteCache(r, t);
      case None =>
        answer := Rebroadcast(r.(address := r.address + [me], optLen := (r.optLen + 4) % 256));
    }

    // -------------------------------------------------------------------------------------------
    // Replies
    // -------------------------------------------------------------------------------------------

    /** Keeps the route, and passes the reply to the node before, unless it has arrived. */
    method ProcessRrep(reply: Reply, t: real) returns (hop: Option<nat>)
      requires ReplySane(reply)
      modifies this
      ensures Value() == ProcessReply(old(Value()), me, Listed(reply), t)
      ensures hop == NextHop(Listed(reply), me)
    {
      UpdateRouteCache(ReplyLength(reply), reply.address, t);
      hop := ForwardRrep(reply);
    }

    method ForwardRrep(reply: Reply) returns (hop: Option<nat>)
      requires ReplySane(reply)
      modifies this`table
      ensures hop == NextHop(Listed(reply), me)
      ensures table ==
        var a := Listed(reply);
        var i := Pending(old(table), a[|a| - 1]);
        if a[0] == me && i < |old(table)| then old(table)[i := old(table)[i].(flag := true)] else old(table)
    {
      var a, length := reply.address, ReplyLength(reply);
      if a[0] == me {
        var i := GetTable(a[length - 1], table);
        if i < |table| {
          table := table[i := table[i].(flag := true)];
        }
        return None;
      }
      var n := Position(a, length);
      hop := if n < length then Some(a[n - 1]) else None;
    }
  }
}
