/**
  The transmitter of an Ethernet port: frames wait in a buffer, and each transmission wakes the port
  again when it ends. The event-driven machine is proved to follow the plain schedule in which each
  frame starts as soon as it has arrived and the gap after the frame before it is over.

  Times are real numbers. The events of a port are handled in the order of their times, events of
  one time in any order; the buffer never overflows.
 */
module EthernetPhy {
  import opened Basics

  /** A frame, with the time at which the MAC layer hands it over. */
  datatype Frame = Frame(id: nat, size: real, arrival: real)

  /** A transmission: on the wire from `start` to `finish`, at the far end by `received`. */
  datatype Sent = Sent(frame: Frame, start: real, finish: real, received: real)

  datatype Port = Port(speed: real, ifg: real, propagation: real) {
    ghost predicate Valid() {
      speed > 0.0 && ifg >= 0.0 && propagation >= 0.0
    }
  }

  function TxTime(port: Port, size: real): real
    requires port.Valid()
  {
    size * 8.0 / port.speed
  }

  function Transmission(port: Port, f: Frame, start: real): Sent
    requires port.Valid()
  {
    var tx := TxTime(port, f.size);
    Sent(f, start, start + tx, start + tx + port.propagation)
  }

  // ---------------------------------------------------------------------------------------------
  // The schedule
  // ---------------------------------------------------------------------------------------------

  /** When the last of the scheduled frames ends. */
  function End(sent: seq<Sent>): real {
    if sent == [] then 0.0 else sent[|sent| - 1].finish
  }

  /** Each frame starts when it has arrived and the gap after the frame before it is over. */
  function Schedule(port: Port, frames: seq<Frame>): (sent: seq<Sent>)
    requires port.Valid()
    ensures |sent| == |frames|
  {
    if frames == [] then []
    else
      var n := |frames| - 1;
      var before := Schedule(port, frames[..n]);
      before + [Transmission(port, frames[n], Max(frames[n].arrival, End(before) + port.ifg))]
  }

  ghost predicate Frames(frames: seq<Frame>) {
    forall i :: 0 <= i < |frames| ==> frames[i].size >= 0.0
  }

  lemma TxTimeNonNegative(port: Port, size: real)
    requires port.Valid() && size >= 0.0
    ensures TxTime(port, size) >= 0.0
  {
  }

  /** A frame is on the wire for eight bits a byte at the port's speed, and then crosses the cable. */
  ghost predicate OnWire(port: Port, x: Sent) {
    && (x.finish - x.start) * port.speed == 8.0 * x.frame.size
    && x.received == x.finish + port.propagation
  }

  lemma TransmissionOnWire(port: Port, f: Frame, start: real)
    requires port.Valid()
    ensures OnWire(port, Transmission(port, f, start))
  {
    var tx := TxTime(port, f.size);
    assert tx * port.speed == f.size * 8.0;
  }

  /** Scheduled frames keep their order and the gap between them, and none waits longer than it must. */
  lemma {:induction false} ScheduleSpaced(port: Port, frames: seq<Frame>)
    requires port.Valid() && Frames(frames)
    ensures var s := Schedule(port, frames);
      && (forall i :: 0 <= i < |s| ==> s[i].frame == frames[i] && OnWire(port, s[i]))
      && (forall i :: 0 <= i < |s| ==> s[i].start >= frames[i].arrival && s[i].finish >= s[i].start)
      && (forall i :: 0 <= i < |s| - 1 ==> s[i + 1].start >= s[i].finish + port.ifg)
      && (forall i :: 0 <= i < |s| - 1 ==>
            s[i + 1].start == frames[i + 1].arrival || s[i + 1].start == s[i].finish + port.ifg)
  {
    hide OnWire;
    if frames != [] {
      var n := |frames| - 1;
      ScheduleSpaced(port, frames[..n]);
      TxTimeNonNegative(port, frames[n].size);
      TransmissionOnWire(port, frames[n], Schedule(port, frames)[n].start);
    }
  }

  // ---------------------------------------------------------------------------------------------
  // The machine
  // ---------------------------------------------------------------------------------------------

  /** `arrived` and `sent` are history; `wakes` are the pending wake-up events. */
  datatype State = State(buffer: seq<Frame>, lastEnd: real, wakes: multiset<real>, now: real,
                         arrived: seq<Frame>, sent: seq<Sent>)

  datatype Event = Arrive(frame: Frame) | Wake(time: real)

  function Time(e: Event): real {
    match e
    case Arrive(f) => f.arrival
    case Wake(t) => t
  }

  ghost predicate Enabled(s: State, e: Event) {
    && s.now <= Time(e) && (forall w :: w in s.wakes ==> Time(e) <= w)
    && match e
       case Arrive(f) => f.size >= 0.0
       case Wake(t) => t in s.wakes
  }

  /** What the port does at an event: the buffer, the end of its last transmission, a frame sent, a wake-up posted. */
  datatype Outcome = Outcome(buffer: seq<Frame>, lastEnd: real, sent: Option<Sent>, wake: Option<real>)

  function NextWake(buffer: seq<Frame>, lastEnd: real): Option<real> {
    if buffer == [] then None else Some(lastEnd)
  }

  function HandleOut(port: Port, buffer: seq<Frame>, lastEnd: real, frame: Option<Frame>, now: real): Outcome
    requires port.Valid()
  {
    var b := if frame.Some? then buffer + [frame.value] else buffer;
    if lastEnd > now then Outcome(b, lastEnd, None, if buffer == [] then NextWake(b, lastEnd) else None)
    else if b == [] then Outcome(b, lastEnd, None, None)
    else
      var start := if lastEnd + port.ifg <= now then now else lastEnd + port.ifg;
      var t := Transmission(port, b[0], start);
      Outcome(b[1..], t.finish, Some(t), NextWake(b[1..], t.finish))
  }

  function Apply(port: Port, s: State, e: Event): State
    requires port.Valid()
  {
    var frame := if e.Arrive? then Some(e.frame) else None;
    var o := HandleOut(port, s.buffer, s.lastEnd, frame, Time(e));
    State(o.buffer, o.lastEnd,
          (if e.Wake? then s.wakes - multiset{e.time} else s.wakes)
          + (if o.wake.Some? then multiset{o.wake.value} else multiset{}),
          Time(e),
          if e.Arrive? then s.arrived + [e.frame] else s.arrived,
          if o.sent.Some? then s.sent + [o.sent.value] else s.sent)
  }

  const INIT := State([], 0.0, multiset{}, 0.0, [], [])

  // ---------------------------------------------------------------------------------------------
  // The invariant
  // ---------------------------------------------------------------------------------------------

  /** The frames still to be sent were there before the running transmission ends, which will wake the port. */
  ghost predicate Waiting(s: State) {
    s.buffer != [] ==>
      && s.lastEnd in s.wakes && s.now <= s.lastEnd
      && forall i :: 0 <= i < |s.buffer| ==> s.buffer[i].arrival <= s.lastEnd
  }

  ghost predicate OnSchedule(port: Port, s: State)
    requires port.Valid()
  {
    && |s.sent| <= |s.arrived|
    && s.buffer == s.arrived[|s.sent|..]
    && s.sent == Schedule(port, s.arrived[..|s.sent|])
    && s.lastEnd == End(s.sent)
  }

  ghost predicate Inv(port: Port, s: State)
    requires port.Valid()
  {
    && Waiting(s) && OnSchedule(port, s) && Frames(s.arrived)
    && forall w :: w in s.wakes ==> s.now <= w
  }

  lemma InitInv(port: Port)
    requires port.Valid()
    ensures Inv(port, INIT)
  {
  }

  /** The next frame goes out on schedule. */
  lemma ScheduleNext(port: Port, arrived: seq<Frame>, k: nat, now: real)
    requires port.Valid() && k < |arrived|
    requires var last := End(Schedule(port, arrived[..k]));
      last <= now && (arrived[k].arrival == now || (arrived[k].arrival <= last && now == last))
    ensures var before := Schedule(port, arrived[..k]);
      var last := End(before);
      Schedule(port, arrived[..k + 1])
        == before + [Transmission(port, arrived[k], if last + port.ifg <= now then now else last + port.ifg)]
  {
    assert arrived[..k + 1][..k] == arrived[..k];
  }

  /** Whether an event makes the port send. */
  predicate Sends(s: State, e: Event) {
    s.lastEnd <= Time(e) && (s.buffer != [] || e.Arrive?)
  }

  /** The frames on hand at an event. */
  function OnHand(s: State, e: Event): seq<Frame> {
    if e.Arrive? then s.buffer + [e.frame] else s.buffer
  }

  /** When the port starts a frame, at an event that makes it send. */
  function StartAt(port: Port, s: State, e: Event): real {
    if s.lastEnd + port.ifg <= Time(e) then Time(e) else s.lastEnd + port.ifg
  }

  lemma SendsFirst(port: Port, s: State, e: Event)
    requires port.Valid() && Sends(s, e)
    ensures OnHand(s, e) != []
    ensures var t, sent := Apply(port, s, e), Transmission(port, OnHand(s, e)[0], StartAt(port, s, e));
      && t.sent == s.sent + [sent] && t.buffer == OnHand(s, e)[1..] && t.lastEnd == sent.finish
      && t.arrived == s.arrived + (if e.Arrive? then [e.frame] else [])
  {
    hide Transmission;
  }

  /** The frames that have arrived, from the first not yet sent on. */
  lemma ArrivedRest(s: State, e: Event, arrived: seq<Frame>)
    requires |s.sent| <= |s.arrived| && s.buffer == s.arrived[|s.sent|..] && OnHand(s, e) != []
    requires arrived == s.arrived + (if e.Arrive? then [e.frame] else [])
    ensures |arrived| == |s.sent| + |OnHand(s, e)| && arrived[..|s.sent|] == s.arrived[..|s.sent|]
    ensures arrived[|s.sent|] == OnHand(s, e)[0] && arrived[|s.sent| + 1..] == OnHand(s, e)[1..]
  {
    assert arrived[|s.sent|..] == OnHand(s, e);
  }

  /** The first frame on hand has just arrived, or the transmission it waited for just ended. */
  lemma FirstOnHand(port: Port, s: State, e: Event)
    requires port.Valid() && Inv(port, s) && Enabled(s, e) && Sends(s, e)
    ensures OnHand(s, e) != [] && OnHand(s, e)[0].size >= 0.0
    ensures var a := OnHand(s, e)[0].arrival; a == Time(e) || (a <= s.lastEnd && Time(e) == s.lastEnd)
  {
    hide Schedule;
    if s.buffer != [] {
      assert OnHand(s, e)[0] == s.buffer[0] && s.buffer[0] == s.arrived[|s.sent|];
    }
  }

  lemma SendsOnSchedule(port: Port, s: State, e: Event)
    requires port.Valid() && Inv(port, s) && Enabled(s, e) && Sends(s, e)
    ensures OnSchedule(port, Apply(port, s, e)) && Apply(port, s, e).buffer == OnHand(s, e)[1..]
  {
    hide Transmission, Schedule, Apply, OnHand, Enabled, Waiting, Frames;
    SendsFirst(port, s, e);
    FirstOnHand(port, s, e);
    var t := Apply(port, s, e);
    ArrivedRest(s, e, t.arrived);
    ScheduleNext(port, t.arrived, |s.sent|, Time(e));
  }

  lemma SendsEndAfter(port: Port, s: State, e: Event)
    requires port.Valid() && Inv(port, s) && Enabled(s, e) && Sends(s, e)
    ensures Apply(port, s, e).lastEnd >= Time(e)
  {
    hide Transmission, Apply, OnHand, Inv;
    SendsFirst(port, s, e);
    FirstOnHand(port, s, e);
    FinishAfter(port, OnHand(s, e)[0], StartAt(port, s, e));
  }

  lemma FinishAfter(port: Port, f: Frame, start: real)
    requires port.Valid() && f.size >= 0.0
    ensures Transmission(port, f, start).finish >= start
  {
    TxTimeNonNegative(port, f.size);
  }

  /** The wake-ups left at an event that sends, the one it posts among them, are not over yet. */
  lemma SendsWakes(port: Port, s: State, e: Event)
    requires port.Valid() && Inv(port, s) && Enabled(s, e) && Sends(s, e)
    ensures var t := Apply(port, s, e);
      && t.now == Time(e) && (forall w :: w in t.wakes ==> w in s.wakes || w == t.lastEnd)
      && (t.buffer != [] ==> t.lastEnd in t.wakes)
      && t.arrived == s.arrived + (if e.Arrive? then [e.frame] else [])
  {
    hide Transmission, Inv, Enabled;
  }

  /** The frames on hand had arrived by the event. */
  lemma OnHandArrived(port: Port, s: State, e: Event)
    requires port.Valid() && Inv(port, s) && Enabled(s, e) && Sends(s, e)
    ensures forall i :: 0 <= i < |OnHand(s, e)| ==> OnHand(s, e)[i].arrival <= Time(e)
    ensures Frames(s.arrived + (if e.Arrive? then [e.frame] else []))
  {
    hide OnSchedule;
  }

  lemma SendsWaiting(port: Port, s: State, e: Event)
    requires port.Valid() && Inv(port, s) && Enabled(s, e) && Sends(s, e)
    ensures Inv(port, Apply(port, s, e))
  {
    SendsOnSchedule(port, s, e);
    SendsEndAfter(port, s, e);
    SendsWakes(port, s, e);
    OnHandArrived(port, s, e);
    var t, b := Apply(port, s, e), OnHand(s, e);
    hide OnSchedule, Apply, OnHand, Frames, Sends;
    assert forall i :: 0 <= i < |t.buffer| ==> t.buffer[i] == b[i + 1];
  }

  lemma WaitsKeeps(port: Port, s: State, e: Event)
    requires port.Valid() && Inv(port, s) && Enabled(s, e) && !Sends(s, e)
    ensures Inv(port, Apply(port, s, e))
  {
    hide Transmission, TxTime, Schedule;
    var t := Apply(port, s, e);
    assert t.arrived[..|s.sent|] == s.arrived[..|s.sent|];
    assert t.buffer == t.arrived[|s.sent|..];
  }

  /** Every event keeps the port on schedule and woken. */
  lemma StepKeeps(port: Port, s: State, e: Event)
    requires port.Valid() && Inv(port, s) && Enabled(s, e)
    ensures Inv(port, Apply(port, s, e))
  {
    hide Inv, Apply, Enabled;
    if Sends(s, e) {
      SendsWaiting(port, s, e);
    } else {
      WaitsKeeps(port, s, e);
    }
  }

  // ---------------------------------------------------------------------------------------------
  // What holds in every run
  // ---------------------------------------------------------------------------------------------

  ghost predicate Runs(port: Port, s: State, es: seq<Event>, t: State)
    requires port.Valid()
    decreases |es|
  {
    if es == [] then s == t else Enabled(s, es[0]) && Runs(port, Apply(port, s, es[0]), es[1..], t)
  }

  lemma {:induction false} RunKeeps(port: Port, s: State, es: seq<Event>, t: State)
    requires port.Valid() && Inv(port, s) && Runs(port, s, es, t)
    ensures Inv(port, t)
    decreases |es|
  {
    hide Inv, Apply, Enabled;
    if es != [] {
      StepKeeps(port, s, es[0]);
      RunKeeps(port, Apply(port, s, es[0]), es[1..], t);
    }
  }

  lemma AlwaysInv(port: Port, es: seq<Event>, t: State)
    requires port.Valid() && Runs(port, INIT, es, t)
    ensures Inv(port, t)
  {
    InitInv(port);
    RunKeeps(port, INIT, es, t);
  }

  /**
    What the port has sent is the schedule of the first frames that arrived: each once, in order of
    arrival, from the moment it may start; what is left waits in the buffer.
   */
  lemma FollowsSchedule(port: Port, es: seq<Event>, t: State)
    requires port.Valid() && Runs(port, INIT, es, t)
    ensures |t.sent| <= |t.arrived| && t.sent == Schedule(port, t.arrived[..|t.sent|]) && t.buffer == t.arrived[|t.sent|..]
  {
    AlwaysInv(port, es, t);
  }

  /** Frames leave in order of arrival, with at least the gap between the end of one and the start of the next. */
  lemma GapKept(port: Port, es: seq<Event>, t: State)
    requires port.Valid() && Runs(port, INIT, es, t)
    ensures |t.sent| <= |t.arrived| && forall i :: 0 <= i < |t.sent| ==> t.sent[i].frame == t.arrived[i]
    ensures forall i :: 0 <= i < |t.sent| - 1 ==> t.sent[i + 1].start >= t.sent[i].finish + port.ifg
  {
    AlwaysInv(port, es, t);
    ScheduleSpaced(port, t.arrived[..|t.sent|]);
  }

  /** No frame is stranded: while one waits, the end of the running transmission will wake the port. */
  lemma NeverStranded(port: Port, es: seq<Event>, t: State)
    requires port.Valid() && Runs(port, INIT, es, t)
    ensures t.buffer != [] ==> t.lastEnd in t.wakes && t.now <= t.lastEnd
    ensures t.wakes == multiset{} ==> t.sent == Schedule(port, t.arrived)
  {
    AlwaysInv(port, es, t);
    if t.wakes == multiset{} {
      QuietIsDone(port, t);
    }
  }

  /** While wake-ups are pending the earliest of them can be handled. */
  lemma {:induction false} EarliestWake(wakes: multiset<real>) returns (time: real)
    requires wakes != multiset{}
    ensures time in wakes && forall w :: w in wakes ==> time <= w
    decreases |wakes|
  {
    var w := SomeElement(wakes);
    var rest := wakes - multiset{w};
    if rest == multiset{} {
      time := w;
    } else {
      var least := EarliestWake(rest);
      time := if least <= w then least else w;
    }
    forall x | x in wakes
      ensures time <= x
    {
      if x !in rest {
        assert x == w;
      }
    }
  }

  /** Each wake-up leaves less to do. */
  lemma WakeShrinks(port: Port, s: State, time: real)
    requires port.Valid() && time in s.wakes
    ensures var t := Apply(port, s, Wake(time)); |t.wakes| + 2 * |t.buffer| < |s.wakes| + 2 * |s.buffer|
  {
    hide Transmission;
  }

  lemma QuietIsDone(port: Port, s: State)
    requires port.Valid() && Inv(port, s) && s.wakes == multiset{}
    ensures s.sent == Schedule(port, s.arrived)
  {
    assert |s.arrived[|s.sent|..]| == 0;
    assert s.arrived[..|s.sent|] == s.arrived;
  }

  lemma WakeEnabled(port: Port, s: State, time: real)
    requires port.Valid() && Inv(port, s) && time in s.wakes && forall w :: w in s.wakes ==> time <= w
    ensures Enabled(s, Wake(time))
  {
  }

  /** Once no more frames arrive, the port handles its wake-ups and has sent everything. */
  lemma {:induction false} Drains(port: Port, s: State) returns (es: seq<Event>, t: State)
    requires port.Valid() && Inv(port, s)
    ensures Runs(port, s, es, t) && (forall i :: 0 <= i < |es| ==> es[i].Wake?)
    ensures t.arrived == s.arrived && t.sent == Schedule(port, s.arrived) && t.wakes == multiset{}
    decreases |s.wakes| + 2 * |s.buffer|
  {
    hide Schedule, HandleOut, Inv, Waiting;
    if s.wakes == multiset{} {
      es, t := [], s;
      QuietIsDone(port, s);
    } else {
      var time := EarliestWake(s.wakes);
      var e := Wake(time);
      WakeEnabled(port, s, time);
      StepKeeps(port, s, e);
      WakeShrinks(port, s, time);
      var more;
      more, t := Drains(port, Apply(port, s, e));
      es := [e] + more;
      assert es[1..] == more;
    }
  }

  // ---------------------------------------------------------------------------------------------
  // The port as the program keeps it
  // ---------------------------------------------------------------------------------------------

  class Phy {
    const port: Port
    var packets: seq<Frame>
    var lastPacketEndTime: real

    constructor (p: Port)
      ensures port == p && packets == [] && lastPacketEndTime == 0.0
    {
      port, packets, lastPacketEndTime := p, [], 0.0;
    }

    /** Handles an event of the port: 0 when the wake-up was seen to, 1 to wait, 2 with nothing to send. */
    method HandlePhyOut(frame: Option<Frame>, now: real) returns (code: int, sent: Option<Sent>, wake: Option<real>)
      requires port.Valid()
      modifies this
      ensures Outcome(packets, lastPacketEndTime, sent, wake)
           == HandleOut(port, old(packets), old(lastPacketEndTime), frame, now)
      ensures code == 2 <==> old(lastPacketEndTime) <= now && old(packets) == [] && frame == None
      ensures code == 1 <==> old(lastPacketEndTime) > now && old(packets) != []
    {
      code, sent, wake := 0, None, None;
      var idle := packets == [];
      if frame.Some? {
        packets := packets + [frame.value];
      }
      if lastPacketEndTime > now {
        if !idle {
          return 1, None, None;
        }
      } else {
        if packets == [] {
          return 2, None, None;
        }
        var f := packets[0];
        packets := packets[1..];
        var start := if lastPacketEndTime + port.ifg <= now then now else lastPacketEndTime + port.ifg;
        var txtime := TxTime(port, f.size);
        sent := Some(Sent(f, start, start + txtime, start + txtime + port.propagation));
        lastPacketEndTime := start + txtime;
      }
      if packets != [] {
        wake := Some(lastPacketEndTime);
      }
    }
  }
}
