/**
 A connection as seen from one stream ID: what either endpoint keeps for that ID, and the frames
 with that ID on the two wires. The ID belongs to one endpoint, the initiator; the other is the
 acceptor. `Network` shows that every step of two endpoints is, for each ID, one of these steps or
 no step at all, so what holds here holds of every stream of a real connection.
 */
module Line {
  import opened Bytes
  import opened Frames
  import opened Options
  import opened Mux

  // What the read loop is doing for this ID.
  datatype Spot =
    | Elsewhere
    | Holding(frame: Frame)
    | Placing
    | Answering
    | Handing(frame: Frame, failing: bool)
    | Cutting
    | Shutting

  datatype Port = Port(stream: Option<Stream>, listed: bool, spot: Spot)

  datatype Event =
    | Registers(start: Bytes) | StartWritten(ok: bool) | StartDropped
    | SendBegins(payload: Bytes) | DataWritten(payload: Bytes, ok: bool) | EndWritten(ok: bool)
    | CloseBegins | CloseWritten(ok: bool) | Removed
    | Polled | Blocked | Woken | GaveUp | Drained | Left
    | Claimed | ConnCancels
    | Reads(frame: Frame) | Dispatched | Routed(handler: Option<nat>) | Delivered | Discarded | Unlinked
    | Replied(ok: bool)
    | Shut | SweepCancels

  datatype PortEffect = PortEffect(p: Port, sent: Option<Frame>)

  predicate InHand(p: Port) { p.stream.Some? && p.stream.value.phase.InUse? }

  function Still(p: Port): Option<PortEffect> { Some(PortEffect(p, None)) }

  function Change(p: Port, s: Stream): Port { p.(stream := Some(s)) }

  function Say(p: Port, ok: bool, f: Frame): Option<PortEffect> {
    Some(PortEffect(p, if ok then Some(f) else None))
  }

  function AfterHanding(s: Spot): Spot
    requires s.Handing?
  {
    if s.failing then Cutting else Elsewhere
  }

  predicate ByCaller(ev: Event) {
    ev.Registers? || ev.StartWritten? || ev.StartDropped? || ev.SendBegins? || ev.DataWritten? || ev.EndWritten?
    || ev.CloseBegins? || ev.CloseWritten? || ev.Removed? || ev.Claimed? || ev.ConnCancels?
  }

  predicate ByRecv(ev: Event) { ev.Polled? || ev.Blocked? || ev.Woken? || ev.GaveUp? || ev.Drained? || ev.Left? }

  function CallerStep(x: uint32, p: Port, ev: Event): Option<PortEffect>
  {
    match ev
    case Registers(start) =>
      if p.stream.Some? || p.spot.Shutting? then None
      else Still(Port(Some(NewStream(x, start, Starting)), true, p.spot))
    case StartWritten(ok) =>
      if p.stream.None? || !p.stream.value.phase.Starting? || !Writable(p.stream.value.start) then None
      else
        var s := p.stream.value;
        Say(Change(p, s.(phase := if ok then InUse else StartFailed)), ok, StartFrame(x, Carried(s.start)))
    case StartDropped =>
      if p.stream.None? || !p.stream.value.phase.StartFailed? || p.spot.Shutting? then None
      else Still(Change(p, p.stream.value.(phase := Abandoned)).(listed := false))
    case SendBegins(_) => if !InHand(p) || Cancelled(p.stream.value) then None else Still(p)
    case DataWritten(payload, ok) =>
      if !InHand(p) || !Writable(payload) then None else Say(p, ok, DataFrame(x, Carried(payload)))
    case EndWritten(ok) => if !InHand(p) then None else Say(p, ok, EndFrame(x))
    case CloseBegins => if !InHand(p) then None else Still(Change(p, Cancel(p.stream.value, ClosedHere)))
    case CloseWritten(ok) =>
      if !InHand(p) || !Cancelled(p.stream.value) then None else Say(p, ok, CloseFrame(x))
    case Removed =>
      if !InHand(p) || !Cancelled(p.stream.value) || p.spot.Shutting? then None else Still(p.(listed := false))
    case Claimed =>
      if p.stream.None? || !Claimable(p.stream.value) then None
      else Still(Change(p, p.stream.value.(phase := InUse)))
    case ConnCancels =>
      if p.stream.None? || !p.listed || p.spot.Shutting? then None
          else Still(Change(p, Cancel(p.stream.value, ConnClosed)))
    case _ => None
  }

  function RecvStepOf(p: Port, ev: Event): Option<PortEffect>
  {
    if !InHand(p) then None
    else
      var s := p.stream.value;
      match ev
      case Polled =>
        if s.queue != [] then Still(Change(p, Take(s, false))) else if s.closed then Still(Change(p, AtEnd(s)))
            else None
      case Blocked => if s.queue != [] || s.closed then None else Still(p)
      case Woken =>
        if s.queue != [] then Still(Change(p, Take(s, false))) else if s.closed then Still(Change(p, AtEnd(s)))
            else None
      case GaveUp => if Cancelled(s) then Still(p) else None
      case Drained =>
        if !Cancelled(s) then None
        else Still(Change(p, if s.queue != [] then Take(s, true) else AtEnd(s)))
      case Left => Still(p)
      case _ => None
  }

  // The final sweep has cancelled the stream, so the read loop reads no more.
  predicate SweptAway(p: Port) { p.stream.Some? && LoopEnded in p.stream.value.causes }

  function LoopStepOf(x: uint32, p: Port, ev: Event): Option<PortEffect>
  {
    match ev
    case Reads(f) =>
      if p.spot.Elsewhere? && f.id == x && !SweptAway(p) then Still(p.(spot := Holding(f))) else None
    case Dispatched =>
      if !p.spot.Holding? then None
      else
        var f := p.spot.frame;
        if !p.listed then
          if IsStart(f) then
            if p.stream.Some? then None else Still(Port(Some(NewStream(x, f.payload, Unclaimed)), true, Placing))
          else Still(p.(spot := Answering))
        else if p.stream.None? then None
        else
          Still(Port(Some(Receive(p.stream.value, f)), true, if IsClose(f) then Shutting else Handing(f, IsError(f))))
    case Routed(handler) =>
      if !p.spot.Placing? || p.stream.None? || !Claimable(p.stream.value) then None
      else
        var p' := p.(spot := Elsewhere);
        Still(if handler.Some? then Change(p', p.stream.value.(phase := InUse)) else p')
    case Delivered =>
      if !p.spot.Handing? || p.stream.None? || p.stream.value.closed || |p.stream.value.queue| >= CAPACITY then None
      else
        var s := p.stream.value;
        Still(Change(p, s.(queue := s.queue + [p.spot.frame])).(spot := AfterHanding(p.spot)))
    case Discarded =>
      if !p.spot.Handing? || p.stream.None? || !Cancelled(p.stream.value) then None
      else Still(p.(spot := AfterHanding(p.spot)))
    case Unlinked => if !p.spot.Cutting? then None else Still(p.(listed := false, spot := Elsewhere))
    case Replied(ok) => if !p.spot.Answering? then None else Say(p.(spot := Elsewhere), ok, NotFoundFrame(x))
    case Shut =>
      if !p.spot.Shutting? || p.stream.None? || p.stream.value.closed then None
      else Still(Port(Some(p.stream.value.(closed := true)), false, Elsewhere))
    case SweepCancels =>
      if !p.spot.Elsewhere? || !p.listed || p.stream.None? then None
      else Still(Port(Some(Cancel(p.stream.value, LoopEnded)), true, Shutting))
    case _ => None
  }

  function PortStep(x: uint32, p: Port, ev: Event): Option<PortEffect>
  {
    if ByCaller(ev) then CallerStep(x, p, ev)
    else if ByRecv(ev) then RecvStepOf(p, ev)
    else LoopStepOf(x, p, ev)
  }

  // The steps that change most, for a port in the state that enables them.
  lemma DispatchedUnlisted(x: uint32, p: Port)
    requires p.spot.Holding? && !p.listed && (IsStart(p.spot.frame) ==> p.stream.None?)
    ensures PortStep(x, p, Dispatched)
         == Still(if IsStart(p.spot.frame) then Port(Some(NewStream(x, p.spot.frame.payload, Unclaimed)), true, Placing)
                  else p.(spot := Answering))
  {
    hide IsStart;
  }

  lemma DispatchedListed(x: uint32, p: Port)
    requires p.spot.Holding? && p.listed && p.stream.Some?
    ensures var f := p.spot.frame;
      PortStep(x, p, Dispatched)
      == Still(Port(Some(Receive(p.stream.value, f)), true, if IsClose(f) then Shutting else Handing(f, IsError(f))))
  {
    hide Receive, IsClose, IsError;
  }

  lemma RoutedIs(x: uint32, p: Port, handler: Option<nat>)
    requires p.spot.Placing? && p.stream.Some? && Claimable(p.stream.value)
    ensures PortStep(x, p, Routed(handler))
         == Still(Port(Some(if handler.Some? then p.stream.value.(phase := InUse) else p.stream.value),
                       p.listed, Elsewhere))
  {}

  lemma DeliveredIs(x: uint32, p: Port)
    requires p.spot.Handing? && p.stream.Some? && !p.stream.value.closed && |p.stream.value.queue| < CAPACITY
    ensures var s := p.stream.value;
      PortStep(x, p, Delivered)
      == Still(Port(Some(s.(queue := s.queue + [p.spot.frame])), p.listed, AfterHanding(p.spot)))
  {}

  lemma DiscardedIs(x: uint32, p: Port)
    requires p.spot.Handing? && p.stream.Some? && Cancelled(p.stream.value)
    ensures PortStep(x, p, Discarded) == Still(p.(spot := AfterHanding(p.spot)))
  {}

  lemma ShutIs(x: uint32, p: Port)
    requires p.spot.Shutting? && p.stream.Some? && !p.stream.value.closed
    ensures PortStep(x, p, Shut) == Still(Port(Some(p.stream.value.(closed := true)), false, Elsewhere))
  {}

  lemma SweptIs(x: uint32, p: Port)
    requires p.spot.Elsewhere? && p.stream.Some? && p.listed
    ensures PortStep(x, p, SweepCancels) == Still(Port(Some(Cancel(p.stream.value, LoopEnded)), true, Shutting))
  {}

  lemma ReturnedIs(x: uint32, p: Port, ev: Event)
    requires ev.Polled? || ev.Woken? || ev.Drained?
    requires InHand(p) && (p.stream.value.queue != [] || (if ev.Drained? then Cancelled(p.stream.value)
                                                          else p.stream.value.closed))
    requires ev.Drained? ==> Cancelled(p.stream.value)
    ensures var s := p.stream.value;
      PortStep(x, p, ev) == Still(Change(p, if s.queue != [] then Take(s, ev.Drained?) else AtEnd(s)))
  {
    hide Take, AtEnd;
  }

  // ---- One side of the line, with the frames it wrote and how far it read the other's ----

  datatype Half = Half(port: Port, out: seq<Frame>, read: nat)

  function SentFrames(sent: Option<Frame>): seq<Frame> { if sent.Some? then [sent.value] else [] }

  function HalfStep(x: uint32, me: Half, other: Half, ev: Event): Option<Half>
  {
    match PortStep(x, me.port, ev)
    case None => None
    case Some(PortEffect(p, sent)) =>
      if ev.Reads? then
        if me.read < |other.out| && other.out[me.read] == ev.frame then Some(Half(p, me.out, me.read + 1)) else None
      else Some(Half(p, me.out + SentFrames(sent), me.read))
  }

  lemma HalfStepParts(x: uint32, me: Half, other: Half, ev: Event)
    requires HalfStep(x, me, other, ev).Some?
    ensures PortStep(x, me.port, ev).Some?
    ensures var r, me' := PortStep(x, me.port, ev).value, HalfStep(x, me, other, ev).value;
      && me' == Half(r.p, me.out + SentFrames(r.sent), if ev.Reads? then me.read + 1 else me.read)
      && (ev.Reads? ==> r.sent.None? && me.read < |other.out| && other.out[me.read] == ev.frame)
  {}

  // ---- Delivery: what reaches `Recv` ----

  // `a` is `b` with some elements left out.
  predicate Subsequence<T(==)>(a: seq<T>, b: seq<T>)
  {
    a == []
    || (b != [] && ((a[|a| - 1] == b[|b| - 1] && Subsequence(a[..|a| - 1], b[..|b| - 1]))
      || Subsequence(a, b[..|b| - 1])))
  }

  lemma SubsequenceGrows<T>(a: seq<T>, b: seq<T>, c: T)
    requires Subsequence(a, b)
    ensures Subsequence(a, b + [c]) && Subsequence(a + [c], b + [c])
  {
    assert (b + [c])[..|b|] == b;
    assert (a + [c])[..|a|] == a;
  }

  lemma {:induction false} SubsequenceSelf<T>(a: seq<T>)
    ensures Subsequence(a, a)
  {
    if a != [] { SubsequenceSelf(a[..|a| - 1]); }
  }

  function Ends(n: nat): (r: seq<Outcome>)
    ensures |r| == n
  {
    if n == 0 then [] else Ends(n - 1) + [EndOfStream]
  }

  // Frames the loop put into the channel; and those it has offered so far, without the one it is offering.
  function Accepted(s: Stream): seq<Frame> { s.taken + s.queue }

  function Settled(p: Port): seq<Frame>
    requires p.stream.Some?
  {
    var o := p.stream.value.offered;
    if p.spot.Handing? && o != [] then o[..|o| - 1] else o
  }

  // The stream ended, if at all, only by a Close frame of the peer or by the end of the read loop.
  predicate Graceful(s: Stream) { s.causes <= {PeerClosed, LoopEnded} }

  // What was read off the wire for this ID, up to the frame the loop has not dispatched yet.
  function Handled(p: Port, inbox: seq<Frame>): seq<Frame> {
    if p.spot.Holding? && inbox != [] then inbox[..|inbox| - 1] else inbox
  }

  ghost predicate Positioned(p: Port, inbox: seq<Frame>)
    requires p.stream.Some?
  {
    var s, done := p.stream.value, Handled(p, inbox);
    && (p.spot.Holding? ==> inbox != [] && inbox[|inbox| - 1] == p.spot.frame)
    && s.offered <= done
    && (p.listed && !p.spot.Shutting? ==> s.offered == done)
    && (p.spot.Handing? ==> s.offered != [] && s.offered[|s.offered| - 1] == p.spot.frame)
    && (p.spot.Placing? ==> Claimable(s))
    && (p.spot.Answering? ==> !p.listed && inbox != [])
    && (p.spot.Cutting? ==> Cancelled(s))
    && (p.spot.Handing? && p.spot.failing ==> Cancelled(s))
    && (p.spot.Shutting? ==> p.listed && Cancelled(s))
    && (p.spot.Shutting? && s.offered != done ==>
         done != [] && s.offered == done[..|done| - 1] && IsClose(done[|done| - 1]))
    && (forall i | 0 <= i < |s.offered| :: !IsClose(s.offered[i]))
    && (PeerClosed in s.causes ==> (p.listed ==> p.spot.Shutting?) && !p.spot.Handing?
                                   && |s.offered| < |done| && IsClose(done[|s.offered|]))
    && (LoopEnded in s.causes ==> (p.spot.Shutting? || p.spot.Elsewhere?) && s.offered == done)
  }

  ghost predicate Lossless(p: Port)
    requires p.stream.Some?
  {
    var s := p.stream.value;
    && Subsequence(Accepted(s), Settled(p))
    && (!Cancelled(s) ==> Accepted(s) == Settled(p))
    && |s.queue| <= CAPACITY
  }

  ghost predicate Living(p: Port)
    requires p.stream.Some?
  {
    var s := p.stream.value;
    && (!Cancelled(s) ==> p.listed || s.phase.Abandoned?)
    && (s.closed ==> !p.listed && Cancelled(s) && !p.spot.Handing?)
  }

  ghost predicate Ordered(p: Port)
    requires p.stream.Some?
  {
    var s := p.stream.value;
    Graceful(s) ==>
      && Accepted(s) == Settled(p)
      && (Cancelled(s) ==> (s.closed || p.spot.Shutting?) && !p.spot.Handing?)
      && |s.outcomes| >= |s.taken|
      && s.outcomes == Outcomes(s.taken) + Ends(|s.outcomes| - |s.taken|)
      && (|s.outcomes| > |s.taken| ==> Cancelled(s) && s.queue == [])
  }

  ghost predicate PortOk(x: uint32, p: Port, inbox: seq<Frame>)
    requires p.stream.Some?
  {
    p.stream.value.id == x && Positioned(p, inbox) && Lossless(p) && Living(p) && Ordered(p)
  }

  // The frame moves from the queue to what was taken; a stream that stays graceful was.
  lemma TakeKeeps(s: Stream, draining: bool)
    requires s.queue != []
    ensures var s' := Take(s, draining);
      && Accepted(s') == Accepted(s) && s'.offered == s.offered && |s'.queue| < |s.queue| && |s'.taken| == |s.taken| + 1
      && (s'.causes == s.causes || s'.causes == s.causes + {FailureRead})
      && (s.outcomes == Outcomes(s.taken) ==> s'.outcomes == Outcomes(s'.taken)) && |s'.outcomes| == |s.outcomes| + 1
      && Outcomes(s'.taken) == Outcomes(s'.taken) + Ends(0) && Outcomes(s.taken) == Outcomes(s.taken) + Ends(0)
  {
    assert s.taken + [s.queue[0]] + s.queue[1..] == s.taken + s.queue;
    assert (s.taken + [s.queue[0]])[..|s.taken|] == s.taken;
  }

  lemma TakePositioned(p: Port, inbox: seq<Frame>, draining: bool)
    requires p.stream.Some? && Positioned(p, inbox) && p.stream.value.queue != []
    ensures Positioned(Change(p, Take(p.stream.value, draining)), inbox)
  {
    TakeKeeps(p.stream.value, draining);
    hide Take, Accepted, Outcomes, Ends;
  }

  lemma TakeLossless(p: Port, draining: bool)
    requires p.stream.Some? && Lossless(p) && Living(p) && p.stream.value.queue != []
    ensures Lossless(Change(p, Take(p.stream.value, draining))) && Living(Change(p, Take(p.stream.value, draining)))
  {
    TakeKeeps(p.stream.value, draining);
    hide Take, Accepted, Outcomes, Ends, Subsequence;
  }

  lemma TakeOrdered(p: Port, draining: bool)
    requires p.stream.Some? && Ordered(p) && p.stream.value.queue != []
    ensures Ordered(Change(p, Take(p.stream.value, draining)))
  {
    TakeKeeps(p.stream.value, draining);
    hide Take, Accepted, Outcomes, Ends;
  }

  lemma TakePort(x: uint32, p: Port, inbox: seq<Frame>, draining: bool)
    requires p.stream.Some? && PortOk(x, p, inbox) && p.stream.value.queue != []
    ensures PortOk(x, Change(p, Take(p.stream.value, draining)), inbox)
  {
    hide Take, Positioned, Lossless, Living, Ordered;
    TakePositioned(p, inbox, draining);
    TakeLossless(p, draining);
    TakeOrdered(p, draining);
  }

  lemma AtEndApart(p: Port, inbox: seq<Frame>)
    requires p.stream.Some? && Positioned(p, inbox) && Lossless(p) && Living(p)
    ensures var p' := Change(p, AtEnd(p.stream.value)); Positioned(p', inbox) && Lossless(p') && Living(p')
  {
    hide Subsequence;
  }

  lemma AtEndOrdered(p: Port)
    requires p.stream.Some? && Ordered(p) && p.stream.value.queue == []
    requires p.stream.value.closed || Cancelled(p.stream.value)
    requires p.stream.value.closed ==> Cancelled(p.stream.value)
    ensures Ordered(Change(p, AtEnd(p.stream.value)))
  {
    var s := p.stream.value;
    if Graceful(s) {
      var n := |s.outcomes| - |s.taken|;
      assert Ends(n + 1) == Ends(n) + [EndOfStream];
      hide Outcomes, Ends;
    }
  }

  lemma AtEndPort(x: uint32, p: Port, inbox: seq<Frame>)
    requires p.stream.Some? && PortOk(x, p, inbox) && p.stream.value.queue == []
    requires p.stream.value.closed || Cancelled(p.stream.value)
    ensures PortOk(x, Change(p, AtEnd(p.stream.value)), inbox)
  {
    assert p.stream.value.closed ==> Cancelled(p.stream.value);
    hide AtEnd, Positioned, Lossless, Living, Ordered;
    AtEndApart(p, inbox);
    AtEndOrdered(p);
  }

  // Steps of `Recv` keep the invariant of a port.
  lemma RecvPort(x: uint32, p: Port, inbox: seq<Frame>, ev: Event)
    requires p.stream.Some? && PortOk(x, p, inbox) && RecvStepOf(p, ev).Some?
    ensures var p' := RecvStepOf(p, ev).value.p; p'.stream.Some? && PortOk(x, p', inbox)
  {
    hide PortOk;
    if p.stream.value.queue != [] {
      TakePort(x, p, inbox, ev.Drained?);
    } else if ev.Polled? || ev.Woken? || ev.Drained? {
      AtEndPort(x, p, inbox);
    }
  }

  lemma CancelPort(x: uint32, p: Port, inbox: seq<Frame>, cause: Cause)
    requires p.stream.Some? && PortOk(x, p, inbox) && cause !in {PeerClosed, LoopEnded}
    ensures PortOk(x, Change(p, Cancel(p.stream.value, cause)), inbox)
  {
    assert cause in Cancel(p.stream.value, cause).causes;
  }

  lemma PhasePort(x: uint32, p: Port, inbox: seq<Frame>, phase: Phase)
    requires p.stream.Some? && PortOk(x, p, inbox)
    requires Claimable(p.stream.value) ==> phase.InUse?
    requires p.stream.value.phase.Abandoned? ==> phase.Abandoned?
    ensures PortOk(x, Change(p, p.stream.value.(phase := phase)), inbox)
  {
    hide Positioned, Lossless, Living, Ordered;
    PhaseApart(p, inbox, phase);
    PhaseOrdered(p, phase);
  }

  lemma PhaseApart(p: Port, inbox: seq<Frame>, phase: Phase)
    requires p.stream.Some? && Positioned(p, inbox) && Living(p)
    requires Claimable(p.stream.value) ==> phase.InUse?
    requires p.stream.value.phase.Abandoned? ==> phase.Abandoned?
    ensures var p' := Change(p, p.stream.value.(phase := phase)); Positioned(p', inbox) && Living(p')
  {}

  lemma PhaseOrdered(p: Port, phase: Phase)
    requires p.stream.Some? && Lossless(p) && Ordered(p)
    ensures var p' := Change(p, p.stream.value.(phase := phase)); Lossless(p') && Ordered(p')
  {
    hide Subsequence, Outcomes, Ends;
  }

  lemma UnlistPort(x: uint32, p: Port, inbox: seq<Frame>)
    requires p.stream.Some? && PortOk(x, p, inbox) && !p.spot.Shutting?
    requires Cancelled(p.stream.value) || p.stream.value.phase.Abandoned?
    ensures PortOk(x, p.(listed := false), inbox)
  {}

  // So do the calls of the application.
  lemma CallerPort(x: uint32, p: Port, inbox: seq<Frame>, ev: Event)
    requires p.stream.Some? && PortOk(x, p, inbox) && CallerStep(x, p, ev).Some?
    ensures var p' := CallerStep(x, p, ev).value.p; p'.stream.Some? && PortOk(x, p', inbox)
  {
    hide PortOk;
    var s := p.stream.value;
    match ev
    case StartWritten(ok) => PhasePort(x, p, inbox, if ok then InUse else StartFailed);
    case StartDropped =>
      PhasePort(x, p, inbox, Abandoned);
      UnlistPort(x, Change(p, s.(phase := Abandoned)), inbox);
    case CloseBegins => CancelPort(x, p, inbox, ClosedHere);
    case Removed => UnlistPort(x, p, inbox);
    case Claimed => PhasePort(x, p, inbox, InUse);
    case ConnCancels => CancelPort(x, p, inbox, ConnClosed);
    case _ =>
  }

  function Handed(s: Stream, f: Frame, failing: bool): Port {
    Port(Some((if failing then Cancel(s, PeerFailed) else s).(offered := s.offered + [f])), true, Handing(f, failing))
  }

  lemma HandPort(x: uint32, p: Port, inbox: seq<Frame>, failing: bool)
    requires p.stream.Some? && PortOk(x, p, inbox) && p.spot.Holding? && p.listed && !IsClose(p.spot.frame)
    ensures PortOk(x, Handed(p.stream.value, p.spot.frame, failing), inbox)
  {
    var f, s := p.spot.frame, p.stream.value;
    var p' := Handed(s, f, failing);
    assert s.offered + [f] == inbox;
    assert Settled(p') == s.offered == Settled(p) by { assert (s.offered + [f])[..|s.offered|] == s.offered; }
    if failing { assert PeerFailed in p'.stream.value.causes; }
    assert Positioned(p', inbox);
    hide Handled, Settled, Subsequence;
  }

  lemma ShutPort(x: uint32, p: Port, inbox: seq<Frame>)
    requires p.stream.Some? && PortOk(x, p, inbox) && p.spot.Holding? && p.listed && IsClose(p.spot.frame)
    ensures PortOk(x, Port(Some(Cancel(p.stream.value, PeerClosed)), true, Shutting), inbox)
  {}

  lemma DispatchPort(x: uint32, p: Port, inbox: seq<Frame>)
    requires p.stream.Some? && PortOk(x, p, inbox) && LoopStepOf(x, p, Dispatched).Some?
    ensures var p' := LoopStepOf(x, p, Dispatched).value.p; p'.stream.Some? && PortOk(x, p', inbox)
  {
    if p.listed {
      if IsClose(p.spot.frame) { ShutPort(x, p, inbox); } else { HandPort(x, p, inbox, IsError(p.spot.frame)); }
      hide PortOk;
    }
  }

  // The frame goes into the channel.
  function Queued(p: Port): Port
    requires p.stream.Some? && p.spot.Handing?
  {
    var s := p.stream.value;
    Port(Some(s.(queue := s.queue + [p.spot.frame])), p.listed, AfterHanding(p.spot))
  }

  lemma QueuedShape(p: Port, inbox: seq<Frame>)
    requires p.stream.Some? && Positioned(p, inbox) && p.spot.Handing?
    ensures Settled(Queued(p)) == Settled(p) + [p.spot.frame]
    ensures Accepted(Queued(p).stream.value) == Accepted(p.stream.value) + [p.spot.frame]
  {
    var s, f := p.stream.value, p.spot.frame;
    assert s.taken + (s.queue + [f]) == s.taken + s.queue + [f];
  }

  lemma QueuedPositioned(p: Port, inbox: seq<Frame>)
    requires p.stream.Some? && Positioned(p, inbox) && Living(p) && p.spot.Handing? && !p.stream.value.closed
    ensures Positioned(Queued(p), inbox) && Living(Queued(p))
  {}

  lemma QueuedLossless(p: Port, inbox: seq<Frame>)
    requires p.stream.Some? && Positioned(p, inbox) && Lossless(p)
    requires p.spot.Handing? && |p.stream.value.queue| < CAPACITY
    ensures Lossless(Queued(p))
  {
    hide Accepted, Settled, Subsequence, Positioned;
    QueuedShape(p, inbox);
    SubsequenceGrows(Accepted(p.stream.value), Settled(p), p.spot.frame);
  }

  lemma QueuedOrdered(p: Port, inbox: seq<Frame>)
    requires p.stream.Some? && Positioned(p, inbox) && Ordered(p) && p.spot.Handing?
    ensures Ordered(Queued(p))
  {
    hide Accepted, Settled, Subsequence, Positioned, Outcomes, Ends;
    QueuedShape(p, inbox);
  }

  lemma DeliverPort(x: uint32, p: Port, inbox: seq<Frame>)
    requires p.stream.Some? && PortOk(x, p, inbox) && LoopStepOf(x, p, Delivered).Some?
    ensures var p' := LoopStepOf(x, p, Delivered).value.p; p'.stream.Some? && PortOk(x, p', inbox)
  {
    assert LoopStepOf(x, p, Delivered).value.p == Queued(p);
    hide LoopStepOf, Positioned, Lossless, Living, Ordered;
    QueuedPositioned(p, inbox);
    QueuedLossless(p, inbox);
    QueuedOrdered(p, inbox);
  }

  lemma DiscardShape(x: uint32, p: Port)
    requires LoopStepOf(x, p, Discarded).Some?
    ensures p.spot.Handing? && p.stream.Some? && Cancelled(p.stream.value)
    ensures LoopStepOf(x, p, Discarded).value.p == p.(spot := AfterHanding(p.spot))
  {}

  lemma DiscardPositioned(p: Port, inbox: seq<Frame>)
    requires p.stream.Some? && Positioned(p, inbox) && Living(p) && p.spot.Handing? && Cancelled(p.stream.value)
    ensures Positioned(p.(spot := AfterHanding(p.spot)), inbox) && Living(p.(spot := AfterHanding(p.spot)))
  {}

  lemma DiscardLossless(p: Port, inbox: seq<Frame>)
    requires p.stream.Some? && Positioned(p, inbox) && Lossless(p) && Ordered(p)
    requires p.spot.Handing? && Cancelled(p.stream.value)
    ensures Lossless(p.(spot := AfterHanding(p.spot))) && Ordered(p.(spot := AfterHanding(p.spot)))
  {
    var s := p.stream.value;
    assert Settled(p) + [p.spot.frame] == s.offered == Settled(p.(spot := AfterHanding(p.spot)));
    hide Positioned, Settled, Subsequence, Outcomes, Ends;
    SubsequenceGrows(Accepted(s), Settled(p), p.spot.frame);
  }

  lemma DiscardPort(x: uint32, p: Port, inbox: seq<Frame>)
    requires p.stream.Some? && PortOk(x, p, inbox) && LoopStepOf(x, p, Discarded).Some?
    ensures var p' := LoopStepOf(x, p, Discarded).value.p; p'.stream.Some? && PortOk(x, p', inbox)
  {
    DiscardShape(x, p);
    hide LoopStepOf, Positioned, Lossless, Living, Ordered;
    DiscardPositioned(p, inbox);
    DiscardLossless(p, inbox);
  }

  lemma OtherPort(x: uint32, p: Port, inbox: seq<Frame>, ev: Event)
    requires p.stream.Some? && PortOk(x, p, inbox) && LoopStepOf(x, p, ev).Some?
    requires ev.Routed? || ev.Unlinked? || ev.Replied? || ev.Shut? || ev.SweepCancels?
    ensures var p' := LoopStepOf(x, p, ev).value.p; p'.stream.Some? && PortOk(x, p', inbox)
  {
    hide Subsequence, Outcomes, Ends;
  }

  // And the read loop, except where it reads a frame.
  lemma LoopPort(x: uint32, p: Port, inbox: seq<Frame>, ev: Event)
    requires p.stream.Some? && PortOk(x, p, inbox) && !ev.Reads? && LoopStepOf(x, p, ev).Some?
    ensures var p' := LoopStepOf(x, p, ev).value.p; p'.stream.Some? && PortOk(x, p', inbox)
  {
    hide PortOk;
    match ev
    case Delivered => DeliverPort(x, p, inbox);
    case Discarded => DiscardPort(x, p, inbox);
    case Dispatched => DispatchPort(x, p, inbox);
    case _ => OtherPort(x, p, inbox, ev);
  }

  lemma ReadPort(x: uint32, p: Port, inbox: seq<Frame>, f: Frame)
    requires p.stream.Some? && PortOk(x, p, inbox) && LoopStepOf(x, p, Reads(f)).Some?
    ensures var p' := LoopStepOf(x, p, Reads(f)).value.p; p'.stream.Some? && PortOk(x, p', inbox + [f])
  {
    assert (inbox + [f])[..|inbox|] == inbox;
  }

  // ---- Order: what the two sides can have sent and read ----

  predicate NoStart(fs: seq<Frame>) { forall i | 0 <= i < |fs| :: !IsStart(fs[i]) }

  // One Start frame, first.
  predicate Opening(fs: seq<Frame>) { fs != [] ==> IsStart(fs[0]) && NoStart(fs[1..]) }

  predicate Unopened(p: Port) {
    p.stream.None? || p.stream.value.phase.Starting? || p.stream.value.phase.StartFailed?
        || p.stream.value.phase.Abandoned?
  }

  // What the acceptor's stream object is offered: everything after the Start frame that made it.
  function Inbox(a: Half, b: Half): seq<Frame>
    requires b.read <= |a.out|
  {
    if b.read == 0 then [] else a.out[1..b.read]
  }

  ghost predicate InitiatorOk(x: uint32, a: Half, b: Half)
    requires a.read <= |b.out|
  {
    && Opening(a.out)
    && (a.out != [] ==> a.port.stream.Some? && a.out[0] == StartFrame(x, Carried(a.port.stream.value.start)))
    && (Unopened(a.port) <==> a.out == [])
    && (a.port.stream.Some? ==> PortOk(x, a.port, b.out[..a.read]) && !a.port.stream.value.phase.Unclaimed?)
    && (a.port.stream.None? ==> !a.port.listed && a.port.spot.Elsewhere?)
    && !a.port.spot.Placing?
  }

  ghost predicate AcceptorOk(x: uint32, a: Half, b: Half)
    requires b.read <= |a.out|
  {
    && NoStart(b.out)
    && (b.port.stream.Some? ==>
         b.read > 0 && b.port.stream.value.start == a.out[0].payload && Claimable(b.port.stream.value)
             && PortOk(x, b.port, Inbox(a, b)))
    && (b.port.stream.None? ==>
          && b.out == [] && !b.port.listed && b.read <= 1
          && b.port.spot == (if b.read == 0 then Elsewhere else Holding(a.out[0])))
  }

  // The invariant of a line with initiator `a` and acceptor `b`.
  ghost predicate LineOk(x: uint32, a: Half, b: Half)
  {
    && a.read <= |b.out| && b.read <= |a.out|
    && InitiatorOk(x, a, b) && AcceptorOk(x, a, b)
  }

  function NoHalf(): Half { Half(Port(None, false, Elsewhere), [], 0) }

  lemma LineStarts(x: uint32)
    ensures LineOk(x, NoHalf(), NoHalf())
  {}

  lemma PortStepKeeps(x: uint32, p: Port, inbox: seq<Frame>, ev: Event)
    requires p.stream.Some? && PortOk(x, p, inbox) && PortStep(x, p, ev).Some?
    ensures var p' := PortStep(x, p, ev).value.p;
      p'.stream.Some? && PortOk(x, p', if ev.Reads? then inbox + [ev.frame] else inbox)
  {
    hide PortOk, CallerStep, RecvStepOf, LoopStepOf;
    if ByCaller(ev) { CallerPort(x, p, inbox, ev); }
    else if ByRecv(ev) { RecvPort(x, p, inbox, ev); }
    else if ev.Reads? { ReadPort(x, p, inbox, ev.frame); }
    else { LoopPort(x, p, inbox, ev); }
  }

  // How a step changes the phase of a stream, and what it can send.
  predicate StepShape(x: uint32, p: Port, ev: Event, r: PortEffect)
  {
    && (p.stream.Some? ==>
         && r.p.stream.Some? && r.p.stream.value.start == p.stream.value.start
         && (Claimable(p.stream.value) ==> Claimable(r.p.stream.value))
         && (p.stream.value.phase.InUse? ==> r.p.stream.value.phase.InUse?)
         && (!p.stream.value.phase.Unclaimed? ==> !r.p.stream.value.phase.Unclaimed?))
    && (ev.StartWritten? || (Unopened(r.p) <==> Unopened(p))
        || (ev.Dispatched? && !p.listed && p.spot.Holding? && IsStart(p.spot.frame)))
    && (ev.StartWritten? ==>
         && Unopened(p) && p.stream.Some? && (Unopened(r.p) <==> !ev.ok) && (r.sent.Some? <==> ev.ok)
         && (r.sent.Some? ==> r.sent.value == StartFrame(x, Carried(p.stream.value.start))))
    && (!ev.StartWritten? && r.sent.Some? ==> !IsStart(r.sent.value) && (!Unopened(p) || ev.Replied?))
    && (ev.Replied? ==> p.spot.Answering?) && (ev.Dispatched? ==> p.spot.Holding?)
    && (r.p.spot.Placing? ==> p.spot.Placing? || (ev.Dispatched? && IsStart(p.spot.frame)))
  }

  lemma CallerShape(x: uint32, p: Port, ev: Event)
    requires ByCaller(ev) && CallerStep(x, p, ev).Some?
    ensures StepShape(x, p, ev, CallerStep(x, p, ev).value)
  {
    hide Carried, Writable;
  }

  lemma RecvShape(x: uint32, p: Port, ev: Event)
    requires ByRecv(ev) && RecvStepOf(p, ev).Some?
    ensures StepShape(x, p, ev, RecvStepOf(p, ev).value)
  {
    hide Take, AtEnd;
  }

  lemma LoopShape(x: uint32, p: Port, ev: Event)
    requires !ByCaller(ev) && !ByRecv(ev) && LoopStepOf(x, p, ev).Some?
    ensures StepShape(x, p, ev, LoopStepOf(x, p, ev).value)
  {
    if ev.Dispatched? { DispatchShape(x, p); } else { hide IsStart, IsClose, IsError, Receive; }
  }

  lemma DispatchShape(x: uint32, p: Port)
    requires LoopStepOf(x, p, Dispatched).Some?
    ensures StepShape(x, p, Dispatched, LoopStepOf(x, p, Dispatched).value)
  {
    hide IsStart, IsClose, IsError;
  }

  lemma PortStepShape(x: uint32, p: Port, ev: Event)
    requires PortStep(x, p, ev).Some?
    ensures StepShape(x, p, ev, PortStep(x, p, ev).value)
  {
    hide CallerStep, RecvStepOf, LoopStepOf, StepShape;
    if ByCaller(ev) { CallerShape(x, p, ev); }
    else if ByRecv(ev) { RecvShape(x, p, ev); }
    else { LoopShape(x, p, ev); }
  }

  // A stream that exists is never offered a Start frame, and "not found" is never answered before
  // the initiator opened the stream.
  lemma HeldFrames(x: uint32, a: Half, b: Half)
    requires LineOk(x, a, b)
    ensures a.port.stream.Some? && a.port.spot.Holding? ==> !IsStart(a.port.spot.frame)
    ensures b.port.stream.Some? && b.port.spot.Holding? ==> !IsStart(b.port.spot.frame)
    ensures a.port.stream.Some? && a.port.spot.Answering? ==> !Unopened(a.port)
    ensures a.port.stream.Some? && a.port.spot.Placing? ==> false
  {
    hide PortOk, IsStart;
    if a.port.stream.Some? {
      HoldsLast(x, a.port, b.out[..a.read]);
      if a.port.spot.Holding? { assert a.port.spot.frame == b.out[..a.read][a.read - 1] == b.out[a.read - 1]; }
    }
    if b.port.stream.Some? {
      HoldsLast(x, b.port, Inbox(a, b));
      if b.port.spot.Holding? { assert b.port.spot.frame == a.out[1..b.read][b.read - 2] == a.out[1..][b.read - 2]; }
    }
  }

  lemma HoldsLast(x: uint32, p: Port, inbox: seq<Frame>)
    requires p.stream.Some? && PortOk(x, p, inbox)
    ensures p.spot.Holding? ==> inbox != [] && inbox[|inbox| - 1] == p.spot.frame
    ensures p.spot.Answering? ==> inbox != []
  {
    hide Lossless, Living, Ordered;
  }

  lemma MadePort(x: uint32, ev: Event, p: Port)
    requires p.stream.None? && PortStep(x, p, ev).Some? && p.spot.Elsewhere? && ev.Registers?
    ensures PortOk(x, PortStep(x, p, ev).value.p, [])
  {}

  lemma Registration(x: uint32, a: Half, b: Half, ev: Event)
    requires LineOk(x, a, b) && HalfStep(x, a, b, ev).Some? && a.port.stream.None?
    ensures LineOk(x, HalfStep(x, a, b, ev).value, b)
  {
    MadePort(x, ev, a.port);
    var a' := HalfStep(x, a, b, ev).value;
    assert a'.out == [] && a'.read == a.read;
    hide PortOk, HalfStep;
    assert b.out[..a.read] == [];
    assert Inbox(a', b) == Inbox(a, b);
  }

  lemma OpeningGrows(fs: seq<Frame>, more: seq<Frame>)
    requires Opening(fs) && |more| <= 1
    requires fs == [] && more != [] ==> IsStart(more[0])
    requires fs != [] ==> NoStart(more)
    ensures Opening(fs + more)
  {
    if fs != [] { assert (fs + more)[1..] == fs[1..] + more; }
  }

  // What one side may be in does not depend on what the other has sent since.
  lemma AcceptorUnmoved(x: uint32, a: Half, a': Half, b: Half)
    requires b.read <= |a.out| && AcceptorOk(x, a, b) && a.out <= a'.out
    ensures AcceptorOk(x, a', b)
  {
    hide PortOk;
    assert Inbox(a', b) == Inbox(a, b);
  }

  lemma InitiatorUnmoved(x: uint32, a: Half, b: Half, b': Half)
    requires a.read <= |b.out| && InitiatorOk(x, a, b) && b.out <= b'.out
    ensures InitiatorOk(x, a, b')
  {
    hide PortOk;
    assert b'.out[..a.read] == b.out[..a.read];
  }

  lemma InitiatorMoved(x: uint32, a: Half, b: Half, ev: Event)
    requires LineOk(x, a, b) && HalfStep(x, a, b, ev).Some? && a.port.stream.Some?
    ensures var a' := HalfStep(x, a, b, ev).value; a'.read <= |b.out| && a.out <= a'.out && InitiatorOk(x, a', b)
  {
    hide PortOk, HalfStep, PortStep, Opening, AcceptorOk, IsStart;
    HalfStepParts(x, a, b, ev);
    HeldFrames(x, a, b);
    PortStepShape(x, a.port, ev);
    PortStepKeeps(x, a.port, b.out[..a.read], ev);
    if ev.Reads? { assert b.out[..a.read] + [ev.frame] == b.out[..a.read + 1]; }
    OpeningGrows(a.out, SentFrames(PortStep(x, a.port, ev).value.sent));
  }

  // Steps of the initiator.
  lemma InitiatorStep(x: uint32, a: Half, b: Half, ev: Event)
    requires LineOk(x, a, b) && HalfStep(x, a, b, ev).Some?
    ensures LineOk(x, HalfStep(x, a, b, ev).value, b)
  {
    if a.port.stream.None? {
      Registration(x, a, b, ev);
    } else {
      InitiatorMoved(x, a, b, ev);
      hide InitiatorOk, HalfStep;
      AcceptorUnmoved(x, a, HalfStep(x, a, b, ev).value, b);
      hide AcceptorOk;
    }
  }

  lemma AcceptorMade(x: uint32, start: Frame)
    ensures PortOk(x, Port(Some(NewStream(x, start.payload, Unclaimed)), true, Placing), [])
  {}

  // Without a stream, a frame is read and a Start frame makes one.
  lemma EmptyPortStep(x: uint32, p: Port, ev: Event)
    requires p.stream.None? && !p.listed && PortStep(x, p, ev).Some? && !ev.Registers?
    requires p.spot.Elsewhere? || (p.spot.Holding? && IsStart(p.spot.frame))
    ensures PortStep(x, p, ev).value
         == PortEffect(if p.spot.Elsewhere? then Port(None, false, Holding(ev.frame))
                       else Port(Some(NewStream(x, p.spot.frame.payload, Unclaimed)), true, Placing), None)
    ensures p.spot.Elsewhere? <==> ev.Reads?
  {}

  lemma AcceptorFirst(x: uint32, a: Half, b: Half, ev: Event)
    requires LineOk(x, a, b) && HalfStep(x, b, a, ev).Some? && b.port.stream.None? && !ev.Registers?
    ensures var b' := HalfStep(x, b, a, ev).value; b'.read <= |a.out| && b.out <= b'.out && AcceptorOk(x, a, b')
  {
    hide PortOk, HalfStep, PortStep, IsStart;
    HalfStepParts(x, b, a, ev);
    EmptyPortStep(x, b.port, ev);
    AcceptorMade(x, a.out[0]);
    var b' := HalfStep(x, b, a, ev).value;
    assert b' == Half(PortStep(x, b.port, ev).value.p, [], 1);
    assert Inbox(a, b') == [];
  }

  lemma AcceptorMoved(x: uint32, a: Half, b: Half, ev: Event)
    requires LineOk(x, a, b) && HalfStep(x, b, a, ev).Some? && b.port.stream.Some?
    ensures var b' := HalfStep(x, b, a, ev).value; b'.read <= |a.out| && b.out <= b'.out && AcceptorOk(x, a, b')
  {
    hide PortOk, HalfStep, PortStep, InitiatorOk, IsStart;
    HalfStepParts(x, b, a, ev);
    HeldFrames(x, a, b);
    PortStepShape(x, b.port, ev);
    PortStepKeeps(x, b.port, Inbox(a, b), ev);
    if ev.Reads? { assert Inbox(a, b) + [ev.frame] == Inbox(a, HalfStep(x, b, a, ev).value); }
  }

  // Steps of the acceptor, which never registers this ID itself.
  lemma AcceptorStep(x: uint32, a: Half, b: Half, ev: Event)
    requires LineOk(x, a, b) && HalfStep(x, b, a, ev).Some? && !ev.Registers?
    ensures LineOk(x, a, HalfStep(x, b, a, ev).value)
  {
    if b.port.stream.None? { AcceptorFirst(x, a, b, ev); } else { AcceptorMoved(x, a, b, ev); }
    hide AcceptorOk, HalfStep;
    InitiatorUnmoved(x, a, b, HalfStep(x, b, a, ev).value);
    hide InitiatorOk;
  }

  // The parts of the invariant of a line that the calls below build on.
  lemma LinePorts(x: uint32, a: Half, b: Half)
    requires LineOk(x, a, b)
    ensures a.read <= |b.out| && b.read <= |a.out|
    ensures Unopened(a.port) <==> a.out == []
    ensures a.out == [] ==> b.out == [] && b.port.stream.None?
    ensures a.port.stream.Some? ==> PortOk(x, a.port, b.out[..a.read])
    ensures a.port.stream.None? ==> !a.port.listed && a.port.spot.Elsewhere?
    ensures b.port.stream.Some? ==> PortOk(x, b.port, Inbox(a, b)) && Claimable(b.port.stream.value)
    ensures b.port.stream.None? ==> b.out == [] && !b.port.listed && !b.port.spot.Answering?
    ensures Inbox(a, b) <= if a.out == [] then [] else a.out[1..]
  {
    hide PortOk;
  }

  // A stream that at most its peer has closed: `Recv` takes, in order, what was read up to the
  // peer's first Close frame, and once the stream is cancelled all of that has been offered.
  lemma TakenUpToClose(x: uint32, p: Port, inbox: seq<Frame>, out: seq<Frame>)
    requires p.stream.Some? && PortOk(x, p, inbox) && p.stream.value.causes <= {PeerClosed} && inbox <= out
    ensures var s := p.stream.value;
      && s.offered <= out && (forall i | 0 <= i < |s.offered| :: !IsClose(s.offered[i]))
      && Accepted(s) <= s.offered
      && (Cancelled(s) ==> Accepted(s) == s.offered && |s.offered| < |out| && IsClose(out[|s.offered|]))
  {
    hide Subsequence, Outcomes, Ends;
    var s := p.stream.value;
    assert s.offered <= Handled(p, inbox) <= inbox;
    if Cancelled(s) { assert PeerClosed in s.causes; }
  }

  // A frame the loop holds for a listed stream is the next one after those it has offered; a
  // stream in use stays listed until it is cancelled.
  lemma NextFrame(x: uint32, p: Port, inbox: seq<Frame>, out: seq<Frame>)
    requires p.stream.Some? && PortOk(x, p, inbox) && inbox <= out
    ensures var s := p.stream.value;
      && (p.listed && p.spot.Holding? ==> |s.offered| < |out| && s.offered <= out && out[|s.offered|] == p.spot.frame)
      && (!Cancelled(s) && !s.phase.Abandoned? ==> p.listed)
      && (p.spot.Answering? ==> !p.listed && inbox != [])
  {
    hide Subsequence, Outcomes, Ends;
  }

  // A returning `Recv` takes the oldest frame, or reports the end of a closed or cancelled stream.
  lemma GetHalf(x: uint32, me: Half, other: Half, ev: Event)
    requires (ev.Polled? || ev.Woken? || ev.Drained?) && HalfStep(x, me, other, ev).Some?
    ensures me.port.stream.Some?
    ensures var s := me.port.stream.value;
      && (s.queue == [] ==> s.closed || Cancelled(s))
      && HalfStep(x, me, other, ev).value
         == Half(Change(me.port, if s.queue != [] then Take(s, ev.Drained?) else AtEnd(s)), me.out, me.read)
  {
    assert me.out + [] == me.out;
  }
}
