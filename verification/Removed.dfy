/**
 IDs that both endpoints have held and removed. Every frame with such an ID is answered with an
 Error frame with the same ID, an Error frame too, so frames on a dead ID never get fewer.
 */
module Removed {
  import opened Bytes
  import opened Frames
  import opened Options
  import opened Mux
  import opened Line
  import opened Network
  import opened Runs
  import opened Streams

  // Both ends have had the stream and neither lists it any more.
  predicate Dead(a: Half, b: Half) {
    a.port.stream.Some? && b.port.stream.Some? && !a.port.listed && !b.port.listed
  }

  // Frames written for one side that its read loop has not answered or handed over.
  function Pending(me: Half, other: Half): int {
    |other.out| - me.read + if me.port.spot.Holding? || me.port.spot.Answering? then 1 else 0
  }

  function InFlight(a: Half, b: Half): int { Pending(a, b) + Pending(b, a) }

  // A successful write of the application.
  predicate AppWrites(ev: Event) { (ev.DataWritten? && ev.ok) || (ev.EndWritten? && ev.ok)
      || (ev.CloseWritten? && ev.ok) }

  function Busy(s: Spot): int { if s.Holding? || s.Answering? then 1 else 0 }

  // What a step of a port that is no longer listed does to the frames on its way.
  predicate Passes(x: uint32, p: Port, ev: Event, r: PortEffect)
  {
    && r.p.stream.Some? && !r.p.listed
    && Busy(r.p.spot) + |SentFrames(r.sent)|
       == Busy(p.spot) + (if AppWrites(ev) then 1 else 0) + (if ev.Reads? then 1 else 0)
    && (ev.Replied? ==> r.sent.Some? && r.sent.value.id == x && IsError(r.sent.value))
  }

  lemma CallerPasses(x: uint32, p: Port, ev: Event)
    requires ByCaller(ev) && CallerStep(x, p, ev).Some? && p.stream.Some? && !p.listed && !Unopened(p)
    ensures Passes(x, p, ev, CallerStep(x, p, ev).value)
  {
    hide Writable, Carried;
  }

  lemma RecvPasses(x: uint32, p: Port, ev: Event)
    requires ByRecv(ev) && RecvStepOf(p, ev).Some? && !p.listed
    ensures Passes(x, p, ev, RecvStepOf(p, ev).value)
  {
    hide Take, AtEnd;
  }

  lemma LoopPasses(x: uint32, p: Port, ev: Event)
    requires !ByCaller(ev) && !ByRecv(ev) && LoopStepOf(x, p, ev).Some? && p.stream.Some? && !p.listed
    requires (p.spot.Holding? ==> !IsStart(p.spot.frame)) && !p.spot.Shutting? && (ev.Replied? ==> ev.ok)
    ensures Passes(x, p, ev, LoopStepOf(x, p, ev).value)
  {
    hide IsStart, Receive;
  }

  lemma DeadPort(x: uint32, me: Half, other: Half, ev: Event)
    requires HalfStep(x, me, other, ev).Some? && me.port.stream.Some? && !me.port.listed
    requires !Unopened(me.port) && (me.port.spot.Holding? ==> !IsStart(me.port.spot.frame)) && !me.port.spot.Shutting?
    requires ev.Replied? ==> ev.ok
    ensures var me' := HalfStep(x, me, other, ev).value;
      && me'.port.stream.Some? && !me'.port.listed
      && InFlight(me', other) == InFlight(me, other) + (if AppWrites(ev) then 1 else 0)
      && (ev.Replied? ==>
            |me'.out| == |me.out| + 1 && me.out < me'.out && me'.out[|me.out|].id == x && IsError(me'.out[|me.out|]))
  {
    hide HalfStep, CallerStep, RecvStepOf, LoopStepOf, Unopened, IsStart, IsError, AppWrites;
    HalfStepParts(x, me, other, ev);
    if ByCaller(ev) { CallerPasses(x, me.port, ev); }
    else if ByRecv(ev) { RecvPasses(x, me.port, ev); }
    else { LoopPasses(x, me.port, ev); }
  }

  // On a dead ID the read loops only move frames around: each one read is answered by exactly one
  // Error frame with the same ID, and the application can only add frames.
  lemma DeadLine(x: uint32, a: Half, b: Half, initiator: bool, ev: Event)
    requires LineOk(x, a, b) && Dead(a, b) && (ev.Replied? ==> ev.ok)
    requires if initiator then HalfStep(x, a, b, ev).Some? else HalfStep(x, b, a, ev).Some?
    ensures var a' := if initiator then HalfStep(x, a, b, ev).value else a;
      var b' := if initiator then b else HalfStep(x, b, a, ev).value;
      && Dead(a', b')
      && InFlight(a', b') == InFlight(a, b) + (if AppWrites(ev) then 1 else 0)
      && (ev.Replied? ==>
            var before, after := if initiator then a.out else b.out, if initiator then a'.out else b'.out;
            && |after| == |before| + 1 && before < after
            && after[|before|].id == x && IsError(after[|before|]))
  {
    hide HalfStep, PortOk;
    HeldFrames(x, a, b);
    LinePorts(x, a, b);
    NotShutting(x, a, b);
    if initiator { DeadPort(x, a, b, ev); } else { DeadPort(x, b, a, ev); }
  }

  lemma NotShutting(x: uint32, a: Half, b: Half)
    requires LineOk(x, a, b) && Dead(a, b)
    ensures !a.port.spot.Shutting? && !b.port.spot.Shutting?
  {
    hide Lossless, Living, Ordered;
  }

  // ---- In a network ----

  ghost predicate DeadIn(n: Net, x: uint32) {
    && !Absent(n.host.e.heap, x) && !Absent(n.plugin.e.heap, x)
    && x !in n.host.e.table && x !in n.plugin.e.table
  }

  function Unread(me: Party, other: Party): seq<Frame> {
    if me.read <= |other.log| then other.log[me.read..] else []
  }

  // The frame with ID `x` that a read loop has read and not yet answered.
  function Unanswered(l: Loop, x: uint32): nat {
    if (l.Got? && l.frame.id == x) || (l.Replying? && l.id == x) then 1 else 0
  }

  // Frames with ID `x` on the two wires or about to be answered.
  function Circulating(n: Net, x: uint32): nat {
    |Of(Unread(n.host, n.plugin), x)| + |Of(Unread(n.plugin, n.host), x)|
    + Unanswered(n.host.e.loop, x) + Unanswered(n.plugin.e.loop, x)
  }

  predicate AppWritesOn(e: Endpoint, a: Action, x: uint32) { Subject(e, a) == x && AppWrites(EventOf(e, a)) }

  lemma {:induction false} OfAppend(a: seq<Frame>, b: seq<Frame>, x: uint32)
    ensures Of(a + b, x) == Of(a, x) + Of(b, x)
  {
    if b == [] {
      assert a + b == a;
    } else {
      assert (a + b)[..|a + b| - 1] == a + b[..|b| - 1];
      OfAppend(a, b[..|b| - 1], x);
    }
  }

  lemma SpotUnanswered(l: Loop, x: uint32)
    ensures Unanswered(l, x) == if SpotOf(l, x).Holding? || SpotOf(l, x).Answering? then 1 else 0
  {}

  lemma PendingIs(me: Party, other: Party, x: uint32)
    requires me.read <= |other.log| && other.read <= |me.log|
    ensures Pending(HalfOf(me, other, x), HalfOf(other, me, x)) == |Of(Unread(me, other), x)| + Unanswered(me.e.loop, x)
  {
    hide Of, StreamOf, Absent, SpotOf, Unanswered;
    OfAppend(other.log[..me.read], other.log[me.read..], x);
    assert other.log[..me.read] + other.log[me.read..] == other.log;
    SpotUnanswered(me.e.loop, x);
  }

  // One step of either endpoint on a dead ID, as long as its replies are written.
  lemma DeadStep(n: Net, side: Side, a: Action, x: uint32)
    requires NetOk(n) && NetStep(n, side, a).Some? && Bounded(NetStep(n, side, a).value)
    requires x != 0 && DeadIn(n, x) && (a.Reply? ==> a.ok)
    ensures var n' := NetStep(n, side, a).value;
      && DeadIn(n', x)
      && Circulating(n', x) == Circulating(n, x) + (if AppWritesOn(Me(n, side).e, a, x) then 1 else 0)
  {
    var n' := NetStep(n, side, a).value;
    NetKeeps(n, side, a);
    PairSwap(n.host, n.plugin);
    PairSwap(n'.host, n'.plugin);
    hide EpOk, IdsOk, HalfStep, Apply, LineOk, Circulating, Of, Unread, Subject, EventOf, NetOk;
    var me, other, me' := Me(n, side), Peer(n, side), Me(n', side);
    assert PartyStep(me, other, a) == Some(me') && Peer(n', side) == other;
    DeadParty(me, other, a, x);
    CirculatingIs(n, side, x);
    CirculatingIs(n', side, x);
  }

  lemma CirculatingIs(n: Net, side: Side, x: uint32)
    requires PairOk(Me(n, side), Peer(n, side))
    ensures Circulating(n, x) == InFlight(HalfOf(Me(n, side), Peer(n, side), x), HalfOf(Peer(n, side), Me(n, side), x))
  {
    hide Of, Unread, HalfOf, Pending;
    PendingIs(n.host, n.plugin, x);
    PendingIs(n.plugin, n.host, x);
  }

  lemma DeadParty(me: Party, other: Party, a: Action, x: uint32)
    requires PairOk(me, other) && PartyStep(me, other, a).Some? && PairOk(PartyStep(me, other, a).value, other)
    requires x != 0 && !Absent(me.e.heap, x) && !Absent(other.e.heap, x) && x !in me.e.table && x !in other.e.table
    requires a.Reply? ==> a.ok
    ensures var me' := PartyStep(me, other, a).value;
      && !Absent(me'.e.heap, x) && x !in me'.e.table
      && InFlight(HalfOf(me', other, x), HalfOf(other, me', x))
         == InFlight(HalfOf(me, other, x), HalfOf(other, me, x)) + (if AppWritesOn(me.e, a, x) then 1 else 0)
  {
    hide PairOk, PartyOk, HalfStep, PartyStep, LineOk, HalfOf, Subject, EventOf, Pending, Unique, Absent, AppWrites;
    var me' := PartyStep(me, other, a).value;
    PairParts(me, other, x);
    PairParts(me', other, x);
    ReplyShape(me.e, a);
    PartyReads(me, other);
    HalfFollows(me, other, a, x);
    DeadHalves(me, other, x);
    DeadHalves(me', other, x);
    if Subject(me.e, a) == x {
      if Own(me.e, x) { DeadLine(x, HalfOf(me, other, x), HalfOf(other, me, x), true, EventOf(me.e, a)); }
      else { DeadLine(x, HalfOf(other, me, x), HalfOf(me, other, x), false, EventOf(me.e, a)); }
    }
  }

  lemma PartyReads(me: Party, other: Party)
    requires PartyOk(me, other) && PartyOk(other, me)
    ensures me.read <= |other.log| && other.read <= |me.log|
  {}

  // Both halves of the line of an ID that both ends have removed; and back.
  lemma DeadHalves(me: Party, other: Party, x: uint32)
    requires me.read <= |other.log| && other.read <= |me.log|
    ensures Dead(HalfOf(me, other, x), HalfOf(other, me, x))
       <==> !Absent(me.e.heap, x) && !Absent(other.e.heap, x) && x !in me.e.table && x !in other.e.table
  {
    hide Absent, Of;
  }

  lemma ReplyShape(e: Endpoint, a: Action)
    ensures EventOf(e, a).Replied? <==> a.Reply?
    ensures a.Reply? ==> EventOf(e, a).ok == a.ok
  {}

  // ---- In every run ----

  // No reply of a read loop fails to be written.
  predicate LinkWorks(steps: seq<Step>) {
    forall i | 0 <= i < |steps| :: steps[i].1.Reply? ==> steps[i].1.ok
  }

  // How many frames the application writes with this ID.
  function AppWritesIn(n: Net, steps: seq<Step>, x: uint32): nat
    requires NetRun(n, steps).Some?
  {
    if steps == [] then 0
    else
      var before, last := steps[..|steps| - 1], steps[|steps| - 1];
      AppWritesIn(n, before, x) + if AppWritesOn(Me(NetRun(n, before).value, last.0).e, last.1, x) then 1 else 0
  }

  lemma {:induction false} DeadRun(n: Net, steps: seq<Step>, x: uint32)
    requires NetOk(n) && NetRun(n, steps).Some? && Bounded(NetRun(n, steps).value)
    requires x != 0 && DeadIn(n, x) && LinkWorks(steps)
    ensures var end := NetRun(n, steps).value;
      NetOk(end) && DeadIn(end, x) && Circulating(end, x) == Circulating(n, x) + AppWritesIn(n, steps, x)
  {
    hide NetOk, NetStep, Bounded, DeadIn, Circulating, AppWritesOn;
    if steps != [] {
      var before, last := steps[..|steps| - 1], steps[|steps| - 1];
      var m := NetRun(n, before).value;
      CallsGrow(m, last.0, last.1);
      DeadRun(n, before, x);
      NetKeeps(m, last.0, last.1);
      DeadStep(m, last.0, last.1, x);
    }
  }

  // Conservation: once both ends have removed an ID, it stays removed, and while replies get
  // through, the frames circulating on it are those it started with plus those the application adds.
  lemma Conservation(n: Net, steps: seq<Step>, x: uint32)
    requires Reached(n) && NetRun(n, steps).Some? && Bounded(NetRun(n, steps).value)
    requires x != 0 && DeadIn(n, x) && LinkWorks(steps)
    ensures var end := NetRun(n, steps).value;
      DeadIn(end, x) && Circulating(end, x) == Circulating(n, x) + AppWritesIn(n, steps, x)
  {
    var start :| NetRun(NewNet(), start) == Some(n);
    RunOk(start);
    DeadRun(n, steps, x);
  }

  // ---- A frame that circulates for ever ----

  const OPENED: Endpoint := NewEndpoint(1).(calls := 1, nextId := 3, heap := [NewStream(1, [0], InUse)],
      table := map[1 := 0])
  const START: Frame := StartFrame(1, [0])
  const HELD: Stream := NewStream(1, [0], InUse)

  const ACCEPTED: Endpoint := NewEndpoint(2).(heap := [HELD], table := map[1 := 0])
  const ENDED: Endpoint := NewEndpoint(2).(heap := [Cancel(HELD, ClosedHere)])
  const SHUT: Endpoint := OPENED.(heap := [Cancel(HELD, PeerClosed).(closed := true)], table := map[])

  // The host opens stream 1; the plugin accepts and closes it; the host sees the Close frame and
  // then calls CloseWrite, which does not look at the state of the stream.
  function AfterOpening(): Net { Net(Party(OPENED, [START], 0), Party(NewEndpoint(2), [], 0)) }
  function AfterAccepting(): Net { Net(Party(OPENED, [START], 0), Party(ACCEPTED, [], 1)) }
  function AfterClosing(): Net { Net(Party(OPENED, [START], 0), Party(ENDED, [CloseFrame(1)], 1)) }
  function AfterAll(): Net { Net(Party(SHUT, [START, EndFrame(1)], 1), Party(ENDED, [CloseFrame(1)], 1)) }

  // A run given by the states it passes through.
  lemma {:induction false} Chain(steps: seq<Step>, states: seq<Net>)
    requires |states| == |steps| + 1
    requires forall i | 0 <= i < |steps| :: NetStep(states[i], steps[i].0, steps[i].1) == Some(states[i + 1])
    ensures NetRun(states[0], steps) == Some(states[|steps|])
  {
    hide NetStep;
    if steps != [] { Chain(steps[..|steps| - 1], states[..|steps|]); }
  }

  lemma {:induction false} RunsAppend(n: Net, s: seq<Step>, t: seq<Step>)
    requires NetRun(n, s).Some?
    ensures NetRun(n, s + t) == NetRun(NetRun(n, s).value, t)
  {
    hide NetStep;
    if t == [] {
      assert s + t == s;
    } else {
      assert (s + t)[..|s + t| - 1] == s + t[..|t| - 1];
      RunsAppend(n, s, t[..|t| - 1]);
    }
  }

  lemma PartyMoves(me: Party, other: Party, a: Action, e: Endpoint)
    requires Apply(me.e, a) == Some(Effect(e, None))
    requires a.Read? ==> me.read < |other.log| && other.log[me.read] == a.frame
    ensures PartyStep(me, other, a) == Some(Party(e, me.log, if a.Read? then me.read + 1 else me.read))
  {
    assert me.log + [] == me.log;
    hide Apply;
  }

  lemma PartyWrites(me: Party, other: Party, a: Action, e: Endpoint, f: Frame)
    requires Apply(me.e, a) == Some(Effect(e, Some(f))) && !a.Read?
    ensures PartyStep(me, other, a) == Some(Party(e, me.log + [f], me.read))
  {
    hide Apply;
  }

  lemma Opens() returns (steps: seq<Step>)
    ensures NetRun(NewNet(), steps) == Some(AfterOpening())
  {
    var h, p := NewNet().host, NewNet().plugin;
    var claimed := h.e.(calls := 1, nextId := 3, claimed := multiset{1});
    var starting := NewStream(1, [0], Starting);
    var registered := OPENED.(heap := [starting]);
    steps := [(Host, Claim), (Host, Register(1, 0, [])), (Host, WriteStart(0, true))];
    assert multiset{} + multiset{1 as uint32} == multiset{1} && claimed.claimed - multiset{1} == multiset{};
    PartyMoves(h, p, Claim, claimed);
    assert START.payload + [] == START.payload && [] + [starting] == [starting]
        && map[][1 as uint32 := 0 as nat] == map[1 := 0];
    PartyMoves(Party(claimed, [], 0), p, Register(1, 0, []), registered);
    assert [starting][0 := HELD] == [HELD] && [] + [START] == [START];
    PartyWrites(Party(registered, [], 0), p, WriteStart(0, true), OPENED, START);
    hide Apply, PartyStep;
    Chain(steps, [NewNet(), Net(Party(claimed, [], 0), p), Net(Party(registered, [], 0), p), AfterOpening()]);
  }

  lemma DispatchStart(e: Endpoint, made: Stream)
    requires e == NewEndpoint(2).(loop := Got(START)) && made == NewStream(1, [0], Unclaimed)
    ensures Apply(e, Dispatch)
         == Some(Effect(ACCEPTED.(heap := [made], loop := Routing(0, 1, 0, [])), None))
  {
    assert [] + [made] == [made] && map[][1 as uint32 := 0 as nat] == map[1 := 0] && START.payload[1..] == [];
  }

  lemma StartNotRouted(e: Endpoint)
    requires e == ACCEPTED.(heap := [NewStream(1, [0], Unclaimed)], loop := Routing(0, 1, 0, []))
    ensures Apply(e, RouteStream) == Some(Effect(e.(loop := Queueing(0, 1)), None))
  {}

  lemma StartQueued(e: Endpoint)
    requires e == ACCEPTED.(heap := [NewStream(1, [0], Unclaimed)], loop := Queueing(0, 1))
    ensures Apply(e, QueueStream) == Some(Effect(e.(loop := Idle, acceptQ := [0]), None))
  {
    var queue: seq<nat> := [0];
    assert [] + queue == queue;
  }

  lemma StartAccepted(e: Endpoint)
    requires e == ACCEPTED.(heap := [NewStream(1, [0], Unclaimed)], acceptQ := [0])
    ensures Apply(e, TakeAccepted) == Some(Effect(ACCEPTED, None))
  {
    var queue: seq<nat> := [0];
    assert queue[1..] == [];
    assert e.heap[0 := HELD] == [HELD];
  }

  lemma DispatchClose(e: Endpoint)
    requires e == OPENED.(loop := Got(CloseFrame(1)))
    ensures Apply(e, Dispatch)
         == Some(Effect(OPENED.(heap := [Cancel(HELD, PeerClosed)], loop := HalfClosed(0, 1, false)), None))
  {
    assert e.heap[0 := Cancel(HELD, PeerClosed)] == [Cancel(HELD, PeerClosed)];
  }

  lemma FinishedClose(e: Endpoint)
    requires e == OPENED.(heap := [Cancel(HELD, PeerClosed)], loop := HalfClosed(0, 1, false))
    ensures Apply(e, FinishClose) == Some(Effect(SHUT, None))
    ensures Apply(SHUT, WriteEnd(0, true)) == Some(Effect(SHUT, Some(EndFrame(1))))
  {
    assert e.heap[0 := e.heap[0].(closed := true)] == SHUT.heap && e.table - {1} == map[];
  }

  lemma StartRead()
    ensures Apply(NewEndpoint(2), Read(START)) == Some(Effect(NewEndpoint(2).(loop := Got(START)), None))
  {}

  lemma Accepts() returns (steps: seq<Step>)
    ensures NetRun(AfterOpening(), steps) == Some(AfterAccepting())
  {
    hide Apply, PartyStep;
    var h, p := AfterOpening().host, AfterOpening().plugin;
    var made := NewStream(1, [0], Unclaimed);
    var got := p.e.(loop := Got(START));
    var routing := ACCEPTED.(heap := [made], loop := Routing(0, 1, 0, []));
    var queueing := routing.(loop := Queueing(0, 1));
    var queued := routing.(loop := Idle, acceptQ := [0]);
    steps := [(Plugin, Read(START)), (Plugin, Dispatch), (Plugin, RouteStream), (Plugin, QueueStream),
              (Plugin, TakeAccepted)];
    StartRead();
    PartyMoves(p, h, Read(START), got);
    DispatchStart(got, made);
    PartyMoves(Party(got, [], 1), h, Dispatch, routing);
    StartNotRouted(routing);
    PartyMoves(Party(routing, [], 1), h, RouteStream, queueing);
    StartQueued(queueing);
    PartyMoves(Party(queueing, [], 1), h, QueueStream, queued);
    StartAccepted(queued);
    PartyMoves(Party(queued, [], 1), h, TakeAccepted, ACCEPTED);
    Chain(steps, [AfterOpening(), Net(h, Party(got, [], 1)), Net(h, Party(routing, [], 1)),
                  Net(h, Party(queueing, [], 1)), Net(h, Party(queued, [], 1)), AfterAccepting()]);
  }

  const CLOSED: Stream := Cancel(HELD, ClosedHere)
  const CLOSING: Endpoint := ACCEPTED.(heap := [CLOSED], ops := multiset{Closing(0)})
  const REMOVING: Endpoint := ACCEPTED.(heap := [CLOSED], ops := multiset{Removing(0)})

  lemma CloseBegun()
    ensures Apply(ACCEPTED, BeginClose(0)) == Some(Effect(CLOSING, None))
  {
    assert [HELD][0 := CLOSED] == [CLOSED] && multiset{} + multiset{Closing(0)} == CLOSING.ops;
  }

  lemma CloseSent()
    ensures Apply(CLOSING, WriteClose(0, true)) == Some(Effect(REMOVING, Some(CloseFrame(1))))
  {
    assert CLOSING.ops - multiset{Closing(0)} + multiset{Removing(0)} == REMOVING.ops;
  }

  lemma CloseRemoved()
    ensures Apply(REMOVING, Remove(0)) == Some(Effect(ENDED, None))
  {
    assert REMOVING.ops - multiset{Removing(0)} == multiset{} && REMOVING.table - {1} == map[];
  }

  lemma Closes() returns (steps: seq<Step>)
    ensures NetRun(AfterAccepting(), steps) == Some(AfterClosing())
  {
    hide Apply, PartyStep;
    var h, p := AfterAccepting().host, AfterAccepting().plugin;
    steps := [(Plugin, BeginClose(0)), (Plugin, WriteClose(0, true)), (Plugin, Remove(0))];
    CloseBegun();
    PartyMoves(p, h, BeginClose(0), CLOSING);
    CloseSent();
    assert [] + [CloseFrame(1)] == [CloseFrame(1)];
    PartyWrites(Party(CLOSING, [], 1), h, WriteClose(0, true), REMOVING, CloseFrame(1));
    CloseRemoved();
    PartyMoves(Party(REMOVING, [CloseFrame(1)], 1), h, Remove(0), ENDED);
    Chain(steps, [AfterAccepting(), Net(h, Party(CLOSING, [], 1)), Net(h, Party(REMOVING, [CloseFrame(1)], 1)),
                  AfterClosing()]);
  }

  lemma CloseRead()
    ensures Apply(OPENED, Read(CloseFrame(1))) == Some(Effect(OPENED.(loop := Got(CloseFrame(1))), None))
  {}

  lemma Learns() returns (steps: seq<Step>)
    ensures NetRun(AfterClosing(), steps) == Some(AfterAll())
  {
    hide Apply, PartyStep;
    var h, p := AfterClosing().host, AfterClosing().plugin;
    var got := OPENED.(loop := Got(CloseFrame(1)));
    var half := OPENED.(heap := [Cancel(HELD, PeerClosed)], loop := HalfClosed(0, 1, false));
    steps := [(Host, Read(CloseFrame(1))), (Host, Dispatch), (Host, FinishClose), (Host, WriteEnd(0, true))];
    CloseRead();
    PartyMoves(h, p, Read(CloseFrame(1)), got);
    DispatchClose(got);
    PartyMoves(Party(got, [START], 1), p, Dispatch, half);
    FinishedClose(half);
    PartyMoves(Party(half, [START], 1), p, FinishClose, SHUT);
    assert [START] + [EndFrame(1)] == [START, EndFrame(1)];
    PartyWrites(Party(SHUT, [START], 1), p, WriteEnd(0, true), SHUT, EndFrame(1));
    Chain(steps, [AfterClosing(), Net(Party(got, [START], 1), p), Net(Party(half, [START], 1), p),
                  Net(Party(SHUT, [START], 1), p), AfterAll()]);
  }

  lemma AfterAllIsReached()
    ensures Reached(AfterAll())
  {
    hide NetRun;
    var s0 := Opens();
    var s1 := Accepts();
    var s2 := Closes();
    var s3 := Learns();
    RunsAppend(NewNet(), s0, s1);
    RunsAppend(NewNet(), s0 + s1, s2);
    RunsAppend(NewNet(), s0 + s1 + s2, s3);
    assert NetRun(NewNet(), s0 + s1 + s2 + s3) == Some(AfterAll());
  }

  lemma AfterAllCirculates()
    ensures DeadIn(AfterAll(), 1) && Circulating(AfterAll(), 1) == 1
  {
    var n := AfterAll();
    assert n.plugin.e.heap[0].id == 1 == n.host.e.heap[0].id;
    assert Unread(n.host, n.plugin) == [] && Unread(n.plugin, n.host) == [EndFrame(1)];
  }

  // Quiescence fails: two endpoints can reach a state in which stream 1 is gone from both tables and
  // one frame is under way, and then one will be, however long they run.
  lemma NeverQuiet()
    ensures Reached(AfterAll()) && DeadIn(AfterAll(), 1) && Circulating(AfterAll(), 1) == 1
    ensures forall steps |
              NetRun(AfterAll(), steps).Some? && Bounded(NetRun(AfterAll(), steps).value) && LinkWorks(steps) ::
              Circulating(NetRun(AfterAll(), steps).value, 1) >= 1
  {
    var n := AfterAll();
    AfterAllIsReached();
    AfterAllCirculates();
    hide Reached, DeadIn, Circulating, NetRun, Bounded, LinkWorks, AfterAll;
    forall steps | NetRun(n, steps).Some? && Bounded(NetRun(n, steps).value) && LinkWorks(steps)
      ensures Circulating(NetRun(n, steps).value, 1) >= 1
    {
      Conservation(n, steps, 1);
    }
  }
}
