/**
  Which applications of the fast emulation may skip the queues: those that share no queue with an
  instance of another application.
 */
module Interference {

  /** One instance of an application: its application's id, and the queues on its path. */
  datatype App = App(appId: nat, hops: seq<nat>)

  ghost predicate Shares(a: App, b: App) {
    exists q :: q in a.hops && q in b.hops
  }

  /** No instance of another application uses a queue of application `k`. */
  ghost predicate Alone(apps: seq<App>, k: nat)
    requires k < |apps|
  {
    forall i :: 0 <= i < |apps| && apps[i].appId != apps[k].appId ==> !Shares(apps[k], apps[i])
  }

  method IsTwoAppInterfering(a: App, b: App) returns (shares: bool)
    ensures shares <==> Shares(a, b)
  {
    for i := 0 to |a.hops|
      invariant forall k :: 0 <= k < i ==> a.hops[k] !in b.hops
    {
      for j := 0 to |b.hops|
        invariant forall k :: 0 <= k < j ==> b.hops[k] != a.hops[i]
      {
        if a.hops[i] == b.hops[j] {
          assert a.hops[i] in a.hops && a.hops[i] in b.hops;
          return true;
        }
      }
    }
    shares := false;
  }

  method CheckForInterferingApp(apps: seq<App>, k: nat) returns (alone: bool)
    requires k < |apps|
    ensures alone <==> Alone(apps, k)
  {
    for i := 0 to |apps|
      invariant forall j :: 0 <= j < i && apps[j].appId != apps[k].appId ==> !Shares(apps[k], apps[j])
    {
      if i == k || apps[k].appId == apps[i].appId {
        continue;
      }
      var shares := IsTwoAppInterfering(apps[k], apps[i]);
      if shares {
        return false;
      }
    }
    alone := true;
  }

  /** The queues that some application will use. */
  ghost predicate Used(apps: seq<App>, q: nat, n: nat)
    requires n <= |apps|
  {
    exists i :: 0 <= i < n && !Alone(apps, i) && q in apps[i].hops
  }

  /** Decides for every application, and marks the queues of those that need them. */
  method SetupNonInterferingApps(apps: seq<App>, queues: nat) returns (alone: seq<bool>, used: array<bool>)
    requires forall i, h :: 0 <= i < |apps| && 0 <= h < |apps[i].hops| ==> apps[i].hops[h] < queues
    ensures |alone| == |apps| && forall i :: 0 <= i < |apps| ==> (alone[i] <==> Alone(apps, i))
    ensures fresh(used) && used.Length == queues && forall q :: 0 <= q < queues ==> (used[q] <==> Used(apps, q, |apps|))
  {
    hide Alone;
    alone, used := [], new bool[queues](_ => false);
    for i := 0 to |apps|
      invariant |alone| == i && forall k :: 0 <= k < i ==> (alone[k] <==> Alone(apps, k))
      invariant forall q :: 0 <= q < queues ==> (used[q] <==> Used(apps, q, i))
    {
      var skips := CheckForInterferingApp(apps, i);
      alone := alone + [skips];
      ghost var before := used[..];
      if !skips {
        MarkUsedQueues(apps[i].hops, used);
      }
      forall q | 0 <= q < queues
        ensures used[q] <==> Used(apps, q, i + 1)
      {
        assert before[q] <==> Used(apps, q, i);
        OneMoreApp(apps, q, i);
      }
    }
  }

  lemma OneMoreApp(apps: seq<App>, q: nat, i: nat)
    requires i < |apps|
    ensures Used(apps, q, i + 1) <==> Used(apps, q, i) || (!Alone(apps, i) && q in apps[i].hops)
  {
    hide Alone;
  }

  method MarkUsedQueues(hops: seq<nat>, used: array<bool>)
    requires forall h :: 0 <= h < |hops| ==> hops[h] < used.Length
    modifies used
    ensures forall q :: 0 <= q < used.Length ==> (used[q] <==> old(used[q]) || q in hops)
  {
    for i := 0 to |hops|
      invariant forall q :: 0 <= q < used.Length ==> (used[q] <==> old(used[q]) || q in hops[..i])
    {
      used[hops[i]] := true;
    }
  }
}
