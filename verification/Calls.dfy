/** What the two kinds of routed call have in common: events, outcomes and the frames of payloads. */
module Calls {
  import opened Bytes
  import opened Frames
  import opened Options
  import opened Mux
  import opened Line

  predicate ByLoop(ev: Event) { !ByCaller(ev) && !ByRecv(ev) }

  predicate Gets(ev: Event) { ev.Polled? || ev.Woken? || ev.Drained? }

  // No cancellation, and no write or read fails.
  predicate Healthy(ev: Event) {
    && !(ev.StartWritten? && !ev.ok) && !(ev.DataWritten? && !ev.ok) && !(ev.EndWritten? && !ev.ok)
    && !(ev.CloseWritten? && !ev.ok) && !(ev.Replied? && !ev.ok)
    && !ev.StartDropped? && !ev.ConnCancels? && !ev.SweepCancels? && !ev.Left?
  }

  function LastOutcome(p: Port): Outcome {
    if p.stream.Some? && p.stream.value.outcomes != [] then p.stream.value.outcomes[|p.stream.value.outcomes| - 1]
    else EndOfStream
  }

  // The frames on the wire after each of these payloads was sent.
  function Datas(x: uint32, ps: seq<Bytes>): (fs: seq<Frame>)
    ensures |fs| == |ps| && forall i | 0 <= i < |ps| :: fs[i] == DataFrame(x, Carried(ps[i]))
  {
    seq(|ps|, i requires 0 <= i < |ps| => DataFrame(x, Carried(ps[i])))
  }

  function Payloads(fs: seq<Frame>): (ps: seq<Bytes>)
    ensures |ps| == |fs| && forall i | 0 <= i < |fs| :: ps[i] == fs[i].payload
  {
    seq(|fs|, i requires 0 <= i < |fs| => fs[i].payload)
  }

  lemma PayloadsOfDatas(x: uint32, ps: seq<Bytes>)
    ensures Payloads(Datas(x, ps)) == CarriedAll(ps)
  {
    hide Carried;
  }

  // The loop is not about to take the stream out of the table.
  predicate Calm(s: Spot) { !s.Shutting? && !s.Cutting? && !(s.Handing? && s.failing) && !s.Answering? }

  lemma UncancelledIsCalm(x: uint32, p: Port, inbox: seq<Frame>)
    requires p.stream.Some? && PortOk(x, p, inbox) && !Cancelled(p.stream.value) && Claimable(p.stream.value)
    ensures p.listed && Calm(p.spot) && !p.stream.value.closed
  {
    hide Subsequence, Outcomes, Ends;
  }

  // What the read loop can do to a stream.
  lemma LoopLeaves(x: uint32, p: Port, ev: Event)
    requires ByLoop(ev) && !ev.SweepCancels? && p.stream.Some? && PortStep(x, p, ev).Some?
    ensures var r := PortStep(x, p, ev).value;
      && r.p.stream.Some?
      && r.p.stream.value.taken == p.stream.value.taken && r.p.stream.value.outcomes == p.stream.value.outcomes
      && r.p.stream.value.causes == p.stream.value.causes
           + (if ev.Dispatched? && p.listed && IsClose(p.spot.frame) then {PeerClosed}
              else if ev.Dispatched? && p.listed && IsError(p.spot.frame) then {PeerFailed} else {})
      && (ev.Dispatched? ==> p.spot.Holding?)
      && (r.sent.Some? ==> ev.Replied? && p.spot.Answering?)
      && (p.listed && Calm(p.spot) && (ev.Dispatched? ==> !IsClose(p.spot.frame) && !IsError(p.spot.frame)) ==>
            r.p.listed && Calm(r.p.spot))
  {}

  // A handler's stream is in the hands of the application from its routing on.
  lemma LoopUses(x: uint32, p: Port, ev: Event)
    requires ByLoop(ev) && p.stream.Some? && PortStep(x, p, ev).Some?
    ensures InHand(p) || (ev.Routed? && ev.handler.Some?) ==> InHand(PortStep(x, p, ev).value.p)
  {}

  // The steps of a program that has a stream in hand, other than a returning `Recv`.
  predicate ByProgram(ev: Event) {
    ev.SendBegins? || ev.DataWritten? || ev.EndWritten? || ev.CloseBegins? || ev.CloseWritten? || ev.Removed?
    || ev.Blocked? || ev.GaveUp?
  }

  function Written(x: uint32, ev: Event): seq<Frame> {
    match ev
    case DataWritten(payload, ok) => if ok then [DataFrame(x, Carried(payload))] else []
    case EndWritten(ok) => if ok then [EndFrame(x)] else []
    case CloseWritten(ok) => if ok then [CloseFrame(x)] else []
    case _ => []
  }

  lemma ProgramCalls(x: uint32, p: Port, ev: Event)
    requires ByProgram(ev) && ByCaller(ev) && CallerStep(x, p, ev).Some?
    ensures InHand(p)
    ensures var s, r := p.stream.value, CallerStep(x, p, ev).value;
      && r.p == Port(Some(if ev.CloseBegins? then Cancel(s, ClosedHere) else s), p.listed && !ev.Removed?, p.spot)
      && SentFrames(r.sent) == Written(x, ev)
      && (ev.SendBegins? ==> !Cancelled(s)) && (ev.DataWritten? ==> Writable(ev.payload))
  {
    hide Writable, Carried;
  }

  lemma ProgramWaits(p: Port, ev: Event)
    requires ByProgram(ev) && !ByCaller(ev) && RecvStepOf(p, ev).Some?
    ensures InHand(p) && (ev.Blocked? || ev.GaveUp?) && RecvStepOf(p, ev).value == PortEffect(p, None)
  {
    hide Take, AtEnd;
  }

  lemma ProgramStep(x: uint32, me: Half, other: Half, ev: Event)
    requires ByProgram(ev) && HalfStep(x, me, other, ev).Some?
    ensures InHand(me.port)
    ensures var s := me.port.stream.value;
      && HalfStep(x, me, other, ev).value
         == Half(Port(Some(if ev.CloseBegins? then Cancel(s, ClosedHere) else s),
                      me.port.listed && !ev.Removed?, me.port.spot),
                 me.out + Written(x, ev), me.read)
      && (ev.SendBegins? ==> !Cancelled(s)) && (ev.DataWritten? ==> Writable(ev.payload))
  {
    hide HalfStep, CallerStep, RecvStepOf, LoopStepOf, Writable, Carried;
    HalfStepParts(x, me, other, ev);
    if ByCaller(ev) { ProgramCalls(x, me.port, ev); } else { ProgramWaits(me.port, ev); }
  }

  lemma DataIsWritable(x: uint32, me: Half, other: Half, ev: Event)
    requires HalfStep(x, me, other, ev).Some? && ev.DataWritten?
    ensures Writable(ev.payload)
  {
    HalfStepParts(x, me, other, ev);
    hide HalfStep, Writable, Carried, RecvStepOf, LoopStepOf;
  }

  lemma OpenedInHand(x: uint32, a: Half, b: Half)
    requires LineOk(x, a, b) && a.out != []
    ensures InHand(a.port)
  {
    hide PortOk;
  }

  // `Send` passes its check whenever the stream is in hand and not cancelled.
  lemma SendPasses(x: uint32, me: Half, other: Half, payload: Bytes)
    requires InHand(me.port) && me.port.stream.value.causes == {}
    ensures HalfStep(x, me, other, SendBegins(payload)) == Some(me)
  {
    assert me.out + [] == me.out;
  }

  lemma LoopWithout(x: uint32, p: Port, ev: Event)
    requires ByLoop(ev) && p.stream.None? && !p.listed && p.spot.Elsewhere? && PortStep(x, p, ev).Some?
    ensures var r := PortStep(x, p, ev).value; r.p.stream.None? && r.sent.None?
  {}

  lemma TakeData(s: Stream, draining: bool, x: uint32, payload: Bytes)
    requires s.queue != [] && s.queue[0] == DataFrame(x, payload)
    ensures Take(s, draining) == s.(queue := s.queue[1..], taken := s.taken + [s.queue[0]],
                                    outcomes := s.outcomes + [Received(payload)])
  {}

  lemma ClosedIsCancelled(x: uint32, p: Port, inbox: seq<Frame>)
    requires p.stream.Some? && PortOk(x, p, inbox) && p.stream.value.closed
    ensures Cancelled(p.stream.value)
  {}

  lemma LoopMakes(x: uint32, p: Port, ev: Event)
    requires ByLoop(ev) && p.stream.None? && !p.listed && PortStep(x, p, ev).Some?
    ensures var r := PortStep(x, p, ev).value;
      && (r.p.stream.Some? ==>
           ev.Dispatched? && p.spot.Holding? && r.p.stream.value == NewStream(x, p.spot.frame.payload, Unclaimed))
      && (r.sent.Some? ==> ev.Replied?) && !ev.Routed?
      && (ev.Replied? ==> p.spot.Answering?)
  {}

  // ---- Steps of a healthy stream ----

  // What a stream is opened with, and the number of the handler that is found for it.
  datatype Naming = Naming(start: Bytes, handler: nat)

  // Steps of two programs that never have to wait, and of the two read loops.
  predicate Plain(ev: Event, to: Naming) {
    match ev
    case Registers(start) => start == to.start
    case Routed(handler) => handler == Some(to.handler)
    case _ =>
      ev.StartWritten? || ev.SendBegins? || ev.DataWritten? || ev.EndWritten? || ev.CloseBegins? || ev.CloseWritten?
      || ev.Polled? || ev.Reads? || ev.Dispatched? || ev.Delivered? || ev.Shut?
  }

  // The stream is in hand, and nothing waits in it or at the loop.
  predicate Resting(h: Half) {
    && InHand(h.port) && h.port.listed && h.port.spot.Elsewhere?
    && h.port.stream.value.queue == [] && !h.port.stream.value.closed && h.port.stream.value.causes == {}
  }

  // After the loop has delivered a frame.
  function WithFrame(h: Half, f: Frame): Half
    requires h.port.stream.Some?
  {
    var s := h.port.stream.value;
    Half(Port(Some(s.(queue := s.queue + [f], offered := s.offered + [f])), h.port.listed, Elsewhere),
         h.out, h.read + 1)
  }

  lemma FrameRead(x: uint32, me: Half, other: Half, f: Frame)
    requires Resting(me) && me.read < |other.out| && other.out[me.read] == f && f.id == x
    ensures HalfStep(x, me, other, Reads(f)) == Some(Half(me.port.(spot := Holding(f)), me.out, me.read + 1))
  {}

  lemma FrameDispatched(x: uint32, me: Half, other: Half, f: Frame)
    requires me.port.stream.Some? && me.port.listed && me.port.spot == Holding(f) && !IsClose(f) && !IsError(f)
    ensures var s := me.port.stream.value;
      HalfStep(x, me, other, Dispatched)
      == Some(Half(Port(Some(s.(offered := s.offered + [f])), true, Handing(f, false)), me.out, me.read))
  {
    hide IsClose, IsError;
    DispatchedListed(x, me.port);
    assert me.out + [] == me.out;
  }

  lemma FrameDelivered(x: uint32, me: Half, other: Half, f: Frame)
    requires me.port.stream.Some? && me.port.spot == Handing(f, false)
    requires !me.port.stream.value.closed && me.port.stream.value.queue == []
    ensures var s := me.port.stream.value;
      HalfStep(x, me, other, Delivered)
      == Some(Half(Port(Some(s.(queue := s.queue + [f])), me.port.listed, Elsewhere), me.out, me.read))
  {
    DeliveredIs(x, me.port);
    assert me.out + [] == me.out;
  }

  // `Recv` returns the one frame that waits.
  lemma FrameTaken(x: uint32, me: Half, other: Half, f: Frame)
    requires Resting(me) && !IsClose(f) && !IsError(f)
    ensures var r := HalfStep(x, WithFrame(me, f), other, Polled);
      && r.Some? && Resting(r.value) && r.value.out == me.out && r.value.read == me.read + 1
      && LastOutcome(r.value.port) == OutcomeOf(f)
  {
    hide IsClose, IsError, IsCloseWrite;
    assert ([] + [f])[1..] == [];
    assert me.out + [] == me.out;
  }

  // A program's steps around a write.
  predicate Speaks(h: Half, ev: Event) {
    InHand(h.port) && match ev
      case SendBegins(_) => h.port.stream.value.causes == {}
      case DataWritten(payload, ok) => ok && Writable(payload)
      case EndWritten(ok) => ok
      case _ => false
  }

  function Said(x: uint32, h: Half, ev: Event): Half { Half(h.port, h.out + Written(x, ev), h.read) }

  lemma SpeaksIs(x: uint32, me: Half, other: Half, ev: Event)
    requires Speaks(me, ev)
    ensures Healthy(ev) && HalfStep(x, me, other, ev) == Some(Said(x, me, ev))
    ensures forall to: Naming :: Plain(ev, to)
  {
    hide Writable, Carried;
  }

  lemma CloseSpoken(x: uint32, me: Half, other: Half)
    requires InHand(me.port)
    ensures var closing := Half(me.port.(stream := Some(Cancel(me.port.stream.value, ClosedHere))), me.out, me.read);
      && HalfStep(x, me, other, CloseBegins) == Some(closing)
      && HalfStep(x, closing, other, CloseWritten(true)) == Some(Half(closing.port, me.out + [CloseFrame(x)], me.read))
  {
    assert me.out + [] == me.out;
  }

  // After the three steps of `Close`.
  function LeftHalf(x: uint32, h: Half): Half
    requires h.port.stream.Some?
  {
    Half(Port(Some(Cancel(h.port.stream.value, ClosedHere)), false, h.port.spot), h.out + [CloseFrame(x)], h.read)
  }

  lemma LeavesTable(x: uint32, me: Half, other: Half)
    requires InHand(me.port) && !me.port.spot.Shutting?
    ensures var closing := me.port.(stream := Some(Cancel(me.port.stream.value, ClosedHere)));
      HalfStep(x, Half(closing, me.out + [CloseFrame(x)], me.read), other, Removed) == Some(LeftHalf(x, me))
  {
    var out := me.out + [CloseFrame(x)];
    assert out + [] == out;
  }

  // The two states before that.
  function ClosingHalf(x: uint32, h: Half, written: bool): Half
    requires h.port.stream.Some?
  {
    Half(h.port.(stream := Some(Cancel(h.port.stream.value, ClosedHere))),
         if written then h.out + [CloseFrame(x)] else h.out, h.read)
  }

  lemma HalfCloses(x: uint32, me: Half, other: Half)
    requires InHand(me.port) && !me.port.spot.Shutting?
    ensures HalfStep(x, me, other, CloseBegins) == Some(ClosingHalf(x, me, false))
    ensures HalfStep(x, ClosingHalf(x, me, false), other, CloseWritten(true)) == Some(ClosingHalf(x, me, true))
    ensures HalfStep(x, ClosingHalf(x, me, true), other, Removed) == Some(LeftHalf(x, me))
  {
    CloseSpoken(x, me, other);
    LeavesTable(x, me, other);
    hide HalfStep;
  }

  // A stream in hand stays so.
  lemma StaysInHand(x: uint32, p: Port, ev: Event)
    requires InHand(p) && PortStep(x, p, ev).Some?
    ensures InHand(PortStep(x, p, ev).value.p)
  {
    hide Take, AtEnd, Carried, Writable, IsStart, IsClose, IsError;
    if ByCaller(ev) { hide RecvStepOf, LoopStepOf; } else if ByRecv(ev) { HandsRecv(p, ev); }
  }

  lemma HandsRecv(p: Port, ev: Event)
    requires InHand(p) && RecvStepOf(p, ev).Some?
    ensures InHand(RecvStepOf(p, ev).value.p)
  {}

  // The stream after the peer's Close frame, and after its channel is closed.
  function ClosedHalf(h: Half, closed: bool): Half
    requires h.port.stream.Some?
  {
    Half(Port(Some(Cancel(h.port.stream.value, PeerClosed).(closed := closed)), !closed,
              if closed then Elsewhere else Shutting), h.out, h.read)
  }

  lemma CloseDispatched(x: uint32, me: Half, other: Half)
    requires me.port.stream.Some? && me.port.listed && me.port.spot == Holding(CloseFrame(x))
    requires !me.port.stream.value.closed
    ensures HalfStep(x, me, other, Dispatched) == Some(ClosedHalf(me, false))
  {
    assert IsClose(CloseFrame(x));
    DispatchedListed(x, me.port);
    assert me.out + [] == me.out;
    hide IsClose, IsError;
  }

  lemma CloseShuts(x: uint32, me: Half, other: Half)
    requires me.port.stream.Some? && !me.port.stream.value.closed
    ensures HalfStep(x, ClosedHalf(me, false), other, Shut) == Some(ClosedHalf(me, true))
  {
    ShutIs(x, ClosedHalf(me, false).port);
    assert me.out + [] == me.out;
    hide PortStep;
  }

  lemma EndTaken(x: uint32, me: Half, other: Half)
    requires InHand(me.port) && me.port.stream.value.queue == [] && me.port.stream.value.closed
    ensures var r := HalfStep(x, me, other, Polled); r.Some? && LastOutcome(r.value.port) == EndOfStream
  {}

  // ---- A stream that is opened and routed ----

  function Registering(x: uint32, start: Bytes): Half {
    Half(Port(Some(NewStream(x, start, Starting)), true, Elsewhere), [], 0)
  }

  function Opener(x: uint32, start: Bytes): Half {
    Half(Port(Some(NewStream(x, start, InUse)), true, Elsewhere), [StartFrame(x, start)], 0)
  }

  function Acceptor(x: uint32, start: Bytes): Half {
    Half(Port(Some(NewStream(x, start, InUse)), true, Elsewhere), [], 1)
  }

  lemma OpenerSteps(x: uint32, start: Bytes, other: Half)
    requires |start| <= TWO32 - 13
    ensures HalfStep(x, NoHalf(), other, Registers(start)) == Some(Registering(x, start))
    ensures HalfStep(x, Registering(x, start), other, StartWritten(true)) == Some(Opener(x, start))
  {
    assert Carried(start) == start && Writable(start);
    hide Carried, Writable;
    var none: seq<Frame> := [];
    assert none + none == none && none + [StartFrame(x, start)] == [StartFrame(x, start)];
  }

  lemma AcceptorSteps(x: uint32, start: Bytes, handler: nat)
    returns (held: Half, placing: Half)
    ensures HalfStep(x, NoHalf(), Opener(x, start), Reads(StartFrame(x, start))) == Some(held)
    ensures HalfStep(x, held, Opener(x, start), Dispatched) == Some(placing)
    ensures HalfStep(x, placing, Opener(x, start), Routed(Some(handler))) == Some(Acceptor(x, start))
  {
    assert IsStart(StartFrame(x, start));
    var none: seq<Frame> := [];
    assert none + none == none;
    held := Half(Port(None, false, Holding(StartFrame(x, start))), [], 1);
    placing := Half(Port(Some(NewStream(x, start, Unclaimed)), true, Placing), [], 1);
    DispatchedUnlisted(x, held.port);
    RoutedIs(x, placing.port, Some(handler));
    hide IsStart;
  }
}
