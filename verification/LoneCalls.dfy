/**
 Two new endpoints with one call between them. Every plain run of the two programs on their line is a
 run of the network, step by step; so a call can complete there exactly if it can on its line.
 */
module LoneCalls {
  import opened Bytes
  import opened Frames
  import opened Options
  import opened Mux
  import opened Line
  import opened Network
  import opened Runs
  import opened Streams
  import opened Calls
  import opened NetCalls
  import Single = SingleMulti
  import Multi = MultiSingle

  // ---- An endpoint with one stream ----

  // The stream is the host's first.
  const X: uint32 := 1

  // The read loop, from the spot it is at.
  function LoopAt(s: Spot, start: Bytes): Loop {
    match s
    case Elsewhere => Idle
    case Holding(f) => Got(f)
    case Placing => Routing(0, X, ModeOf(start), RouteOf(start))
    case Answering => Replying(X)
    case Handing(f, failing) => Offering(0, f, failing)
    case Cutting => Unlinking(0, X)
    case Shutting => HalfClosed(0, X, false)
  }

  // The plugin has one handler, and the host has claimed its first ID.
  function Lone(host: bool, to: Naming, p: Port, ops: multiset<Op>): Endpoint {
    var base := if host then NewEndpoint(1).(calls := 1, nextId := 3)
                else NewEndpoint(2).(routes := map[(ModeOf(to.start), RouteOf(to.start)) := to.handler]);
    base.(claimed := if host && p.stream.None? then multiset{X} else multiset{},
          heap := if p.stream.Some? then [p.stream.value] else [],
          table := if p.listed then map[X := 0] else map[],
          loop := LoopAt(p.spot, to.start), ops := ops)
  }

  function ActionOf(ev: Event): Action {
    match ev
    case Registers(start) => Register(X, ModeOf(start), RouteOf(start))
    case StartWritten(ok) => WriteStart(0, ok)
    case SendBegins(payload) => BeginSend(0, payload)
    case DataWritten(payload, ok) => WriteData(0, payload, ok)
    case EndWritten(ok) => WriteEnd(0, ok)
    case CloseBegins => BeginClose(0)
    case CloseWritten(ok) => WriteClose(0, ok)
    case Polled => Poll(0)
    case Reads(f) => Read(f)
    case Routed(_) => RouteStream
    case Delivered => Deliver
    case Shut => FinishClose
    case _ => Dispatch
  }

  // What is left to do in calls, before and after a step.
  function Doing(ops: multiset<Op>, ev: Event): multiset<Op> {
    match ev
    case SendBegins(payload) => ops + multiset{Sending(0, payload)}
    case DataWritten(payload, _) => ops - multiset{Sending(0, payload)}
    case CloseBegins => ops + multiset{Closing(0)}
    case CloseWritten(_) => ops - multiset{Closing(0)} + multiset{Removing(0)}
    case _ => ops
  }

  predicate Allows(ops: multiset<Op>, ev: Event) {
    (ev.DataWritten? ==> Sending(0, ev.payload) in ops) && (ev.CloseWritten? ==> Closing(0) in ops)
  }

  // A frame of the stream; the Start frame is the host's.
  predicate FrameFits(byHost: bool, to: Naming, f: Frame) {
    f.id == X && (IsStart(f) ==> byHost && f.payload == to.start)
  }

  predicate PortFits(host: bool, to: Naming, p: Port) {
    && (p.stream.Some? ==>
          var s := p.stream.value; s.id == X && s.start == to.start && (s.phase.Starting? ==> host))
    && (p.listed ==> p.stream.Some?)
    && match p.spot
       case Holding(f) => FrameFits(!host, to, f)
       case Handing(f, _) => f.id == X
       case Placing => !host && p.stream.Some?
       case _ => true
  }

  predicate HalfFits(host: bool, to: Naming, h: Half) {
    PortFits(host, to, h.port) && forall k | 0 <= k < |h.out| :: FrameFits(host, to, h.out[k])
  }

  // The route can be named in one frame.
  predicate Routable(to: Naming) { 0 < |to.start| <= TWO32 - 13 && to.start[0] <= 2 }

  lemma LoneView(host: bool, to: Naming, p: Port, ops: multiset<Op>)
    requires PortFits(host, to, p)
    ensures View(Lone(host, to, p, ops), X) == p
  {
    var e := Lone(host, to, p, ops);
    if p.stream.Some? { StreamAt(e.heap, 0); } else { assert Absent(e.heap, X); }
  }

  lemma LoneWith(host: bool, to: Naming, p: Port, ops: multiset<Op>, s: Stream, ops': multiset<Op>)
    requires p.stream.Some?
    ensures var e := Lone(host, to, p, ops);
      && e.heap == [p.stream.value]
      && With(e, 0, s).(ops := ops') == With(e.(ops := ops'), 0, s) == Lone(host, to, Change(p, s), ops')
  {}

  lemma LoneLoop(host: bool, to: Naming, p: Port, ops: multiset<Op>, spot: Spot)
    ensures Lone(host, to, p, ops).(loop := LoopAt(spot, to.start)) == Lone(host, to, p.(spot := spot), ops)
    ensures Lone(host, to, p, ops).loop == LoopAt(p.spot, to.start)
  {}

  lemma LoneOps(host: bool, to: Naming, p: Port, ops: multiset<Op>, ops': multiset<Op>)
    ensures Lone(host, to, p, ops).(ops := ops') == Lone(host, to, p, ops')
  {}

  predicate Enabled(host: bool, to: Naming, p: Port, ops: multiset<Op>, ev: Event) {
    && Plain(ev, to) && (ev.Registers? ==> host) && Allows(ops, ev)
    && PortFits(host, to, p) && Routable(to) && PortStep(X, p, ev).Some?
  }

  // The endpoint does what the line does.
  ghost predicate Does(host: bool, to: Naming, p: Port, ops: multiset<Op>, ev: Event)
  {
    && PortStep(X, p, ev).Some?
    && var r := PortStep(X, p, ev).value;
       Apply(Lone(host, to, p, ops), ActionOf(ev)) == Some(Effect(Lone(host, to, r.p, Doing(ops, ev)), r.sent))
  }

  // What a step needs of the stream and the loop.
  predicate Needs(p: Port, ev: Event) {
    && (ByCaller(ev) && !ev.Registers? ==> p.stream.Some?) && (ev.Polled? ==> p.stream.Some?)
    && (ev.Dispatched? ==> p.spot.Holding?) && (ev.Routed? ==> p.spot.Placing? && p.stream.Some?)
    && (ev.Delivered? ==> p.spot.Handing?) && (ev.Shut? ==> p.spot.Shutting?) && (ev.Reads? ==> ev.frame.id == X)
  }

  lemma StepNeeds(p: Port, ev: Event)
    requires PortStep(X, p, ev).Some?
    ensures Needs(p, ev)
  {
    hide Writable, Carried, Take, AtEnd, Receive, IsStart, IsClose;
  }

  lemma Names(host: bool, to: Naming, p: Port, ops: multiset<Op>, ev: Event)
    requires Plain(ev, to) && PortFits(host, to, p) && Routable(to) && Needs(p, ev)
    requires (ev.Registers? ==> host) && (ev.Routed? ==> !host)
    ensures var e := Lone(host, to, p, ops); Subject(e, ActionOf(ev)) == X && EventOf(e, ActionOf(ev)) == ev
  {
    var e := Lone(host, to, p, ops);
    LoneParts(host, to, p, ops);
    if ev.Registers? { assert [ModeOf(ev.start)] + RouteOf(ev.start) == ev.start; }
    if ev.Routed? {
      RouteNames(e);
      LoneHandler(to, p, ops);
    }
    hide HandlerFor, Lone, NewEndpoint;
    if !ByLoop(ev) { CallNames(e, p, ev); } else if !ev.Routed? { LoopNames(e, p, to, ev); }
    hide Subject, EventOf;
  }

  lemma CallNames(e: Endpoint, p: Port, ev: Event)
    requires !ByLoop(ev) && Plain(ev, Naming(if ev.Registers? then ev.start else [], 0)) && Needs(p, ev)
    requires p.stream.Some? ==> e.heap == [p.stream.value] && p.stream.value.id == X
    requires ev.Registers? ==> [ModeOf(ev.start)] + RouteOf(ev.start) == ev.start
    ensures Subject(e, ActionOf(ev)) == X && EventOf(e, ActionOf(ev)) == ev
  {
    hide HandlerFor, HandlerOf;
  }

  lemma LoopNames(e: Endpoint, p: Port, to: Naming, ev: Event)
    requires ByLoop(ev) && !ev.Routed? && Plain(ev, to) && Needs(p, ev) && e.loop == LoopAt(p.spot, to.start)
    requires (p.spot.Holding? ==> p.spot.frame.id == X) && (p.spot.Handing? ==> p.spot.frame.id == X)
    ensures Subject(e, ActionOf(ev)) == X && EventOf(e, ActionOf(ev)) == ev
  {
    hide HandlerFor, HandlerOf;
  }

  lemma LoneParts(host: bool, to: Naming, p: Port, ops: multiset<Op>)
    ensures var e := Lone(host, to, p, ops);
      && e.loop == LoopAt(p.spot, to.start) && e.ops == ops
      && (p.stream.Some? ==> e.heap == [p.stream.value])
      && !e.acceptClosed && e.table == (if p.listed then map[X := 0] else map[])
  {}

  lemma LoneHandler(to: Naming, p: Port, ops: multiset<Op>)
    requires Routable(to)
    ensures HandlerFor(Lone(false, to, p, ops), ModeOf(to.start), RouteOf(to.start)) == Some(to.handler)
  {}

  // The entry of a new stream, at both.
  lemma RegisterIs(e: Endpoint, p: Port, start: Bytes)
    requires !Locked(e) && X in e.claimed && CallerStep(X, p, Registers(start)).Some?
    requires [ModeOf(start)] + RouteOf(start) == start
    ensures StartStep(e, Register(X, ModeOf(start), RouteOf(start)))
         == Quiet(e.(claimed := e.claimed - multiset{X}, heap := e.heap + [NewStream(X, start, Starting)],
                     table := e.table[X := |e.heap|]))
    ensures p.stream.None? && !p.spot.Shutting?
    ensures CallerStep(X, p, Registers(start)) == Still(Port(Some(NewStream(X, start, Starting)), true, p.spot))
  {}

  lemma LoneMade(to: Naming, p: Port, ops: multiset<Op>, s: Stream)
    requires p.stream.None? && !p.listed
    ensures var e := Lone(true, to, p, ops);
      && X in e.claimed
      && e.(claimed := e.claimed - multiset{X}, heap := e.heap + [s], table := e.table[X := |e.heap|])
         == Lone(true, to, Port(Some(s), true, p.spot), ops)
  {
    var e := Lone(true, to, p, ops);
    assert e.heap + [s] == [s] && e.claimed - multiset{X} == multiset{};
  }

  lemma RegisterDoes(host: bool, to: Naming, p: Port, ops: multiset<Op>, start: Bytes)
    requires Enabled(host, to, p, ops, Registers(start))
    ensures Does(host, to, p, ops, Registers(start))
  {
    hide CallStep, RecvStep, ConnStep, ReadStep, OfferStep, EndStep, RecvStepOf, LoopStepOf;
    assert [ModeOf(start)] + RouteOf(start) == start;
    LoneParts(host, to, p, ops);
    LoneMade(to, p, ops, NewStream(X, start, Starting));
    RegisterIs(Lone(host, to, p, ops), p, start);
    hide Lone, StartStep, CallerStep, NewStream, ModeOf, RouteOf;
  }

  lemma StartDoes(host: bool, to: Naming, p: Port, ops: multiset<Op>, ok: bool)
    requires Enabled(host, to, p, ops, StartWritten(ok))
    ensures Does(host, to, p, ops, StartWritten(ok))
  {
    hide CallStep, RecvStep, ConnStep, ReadStep, OfferStep, EndStep, RecvStepOf, LoopStepOf;
    LoneParts(host, to, p, ops);
    LoneWith(host, to, p, ops, p.stream.value.(phase := if ok then InUse else StartFailed), ops);
    hide Lone, Writable, Carried;
  }

  lemma SendDoes(host: bool, to: Naming, p: Port, ops: multiset<Op>, payload: Bytes)
    requires Enabled(host, to, p, ops, SendBegins(payload))
    ensures Does(host, to, p, ops, SendBegins(payload))
  {
    hide StartStep, RecvStep, ConnStep, ReadStep, OfferStep, EndStep, RecvStepOf, LoopStepOf;
    LoneParts(host, to, p, ops);
    LoneOps(host, to, p, ops, ops + multiset{Sending(0, payload)});
    hide Lone;
  }

  // The write of a payload, at both.
  lemma DataIs(e: Endpoint, p: Port, payload: Bytes, ok: bool)
    requires e.heap != [] && Sending(0, payload) in e.ops && CallerStep(X, p, DataWritten(payload, ok)).Some?
    ensures CallStep(e, WriteData(0, payload, ok))
         == Write(e.(ops := e.ops - multiset{Sending(0, payload)}), ok, DataFrame(e.heap[0].id, Carried(payload)))
    ensures CallerStep(X, p, DataWritten(payload, ok)) == Say(p, ok, DataFrame(X, Carried(payload)))
  {
    hide Writable, Carried;
  }

  lemma DataDoes(host: bool, to: Naming, p: Port, ops: multiset<Op>, payload: Bytes, ok: bool)
    requires Enabled(host, to, p, ops, DataWritten(payload, ok))
    ensures Does(host, to, p, ops, DataWritten(payload, ok))
  {
    hide StartStep, RecvStep, ConnStep, ReadStep, OfferStep, EndStep, RecvStepOf, LoopStepOf, Writable, Carried;
    LoneParts(host, to, p, ops);
    StepNeeds(p, DataWritten(payload, ok));
    DataIs(Lone(host, to, p, ops), p, payload, ok);
    LoneOps(host, to, p, ops, Doing(ops, DataWritten(payload, ok)));
    hide Lone, CallStep, CallerStep;
  }

  lemma EndDoes(host: bool, to: Naming, p: Port, ops: multiset<Op>, ok: bool)
    requires Enabled(host, to, p, ops, EndWritten(ok))
    ensures Does(host, to, p, ops, EndWritten(ok))
  {
    hide StartStep, RecvStep, ConnStep, ReadStep, OfferStep, EndStep, RecvStepOf, LoopStepOf;
    LoneParts(host, to, p, ops);
    hide Lone;
  }

  lemma CloseDoes(host: bool, to: Naming, p: Port, ops: multiset<Op>)
    requires Enabled(host, to, p, ops, CloseBegins)
    ensures Does(host, to, p, ops, CloseBegins)
  {
    hide StartStep, RecvStep, ConnStep, ReadStep, OfferStep, EndStep, RecvStepOf, LoopStepOf;
    LoneParts(host, to, p, ops);
    LoneWith(host, to, p, ops, Cancel(p.stream.value, ClosedHere), ops + multiset{Closing(0)});
    hide Lone, Cancel;
  }

  // The write of the deferred Close, at both.
  lemma ClosedIs(e: Endpoint, p: Port, ok: bool)
    requires e.heap != [] && Closing(0) in e.ops && CallerStep(X, p, CloseWritten(ok)).Some?
    ensures CallStep(e, WriteClose(0, ok))
         == Write(e.(ops := e.ops - multiset{Closing(0)} + multiset{Removing(0)}), ok, CloseFrame(e.heap[0].id))
    ensures CallerStep(X, p, CloseWritten(ok)) == Say(p, ok, CloseFrame(X))
  {}

  lemma ClosedDoes(host: bool, to: Naming, p: Port, ops: multiset<Op>, ok: bool)
    requires Enabled(host, to, p, ops, CloseWritten(ok))
    ensures Does(host, to, p, ops, CloseWritten(ok))
  {
    hide StartStep, RecvStep, ConnStep, ReadStep, OfferStep, EndStep, RecvStepOf, LoopStepOf;
    LoneParts(host, to, p, ops);
    StepNeeds(p, CloseWritten(ok));
    ClosedIs(Lone(host, to, p, ops), p, ok);
    LoneOps(host, to, p, ops, Doing(ops, CloseWritten(ok)));
    hide Lone, CallStep, CallerStep;
  }

  lemma PollDoes(host: bool, to: Naming, p: Port, ops: multiset<Op>)
    requires Enabled(host, to, p, ops, Polled)
    ensures Does(host, to, p, ops, Polled)
  {
    hide StartStep, CallStep, ConnStep, ReadStep, OfferStep, EndStep, CallerStep, LoopStepOf;
    LoneParts(host, to, p, ops);
    LoneWith(host, to, p, ops, Returned(p.stream.value, false), ops);
    hide Lone, Take, AtEnd;
  }

  lemma ReadDoes(host: bool, to: Naming, p: Port, ops: multiset<Op>, f: Frame)
    requires Enabled(host, to, p, ops, Reads(f))
    ensures Does(host, to, p, ops, Reads(f))
  {
    hide StartStep, CallStep, RecvStep, ConnStep, OfferStep, EndStep, CallerStep, RecvStepOf;
    LoneParts(host, to, p, ops);
    LoneLoop(host, to, p, ops, Holding(f));
    hide Lone;
  }

  lemma DispatchDoes(host: bool, to: Naming, p: Port, ops: multiset<Op>)
    requires Enabled(host, to, p, ops, Dispatched)
    ensures Does(host, to, p, ops, Dispatched)
  {
    hide StartStep, CallStep, RecvStep, ConnStep, OfferStep, EndStep, CallerStep, RecvStepOf;
    var f := p.spot.frame;
    LoneParts(host, to, p, ops);
    hide DispatchFrame, Lone, Receive, IsStart, IsClose, IsError;
    if p.listed {
      DispatchFound(host, to, p, ops, f);
      DispatchedListed(X, p);
    } else if IsStart(f) {
      DispatchMade(to, p, ops, f);
      DispatchedUnlisted(X, p);
    } else {
      DispatchLost(host, to, p, ops, f);
      DispatchedUnlisted(X, p);
    }
    DispatchIs(Lone(host, to, p, ops));
    hide PortStep, ReadStep;
  }

  lemma DispatchIs(e: Endpoint)
    requires e.loop.Got? && e.loop.frame.id != 0
    ensures ReadStep(e, Dispatch) == Quiet(DispatchFrame(e, e.loop.frame))
  {
    hide DispatchFrame;
  }

  lemma DispatchFound(host: bool, to: Naming, p: Port, ops: multiset<Op>, f: Frame)
    requires p.stream.Some? && p.listed && p.spot == Holding(f) && f.id == X
    ensures var spot := if IsClose(f) then Shutting else Handing(f, IsError(f));
      DispatchFrame(Lone(host, to, p, ops), f)
      == Lone(host, to, Port(Some(Receive(p.stream.value, f)), true, spot), ops)
  {
    LoneParts(host, to, p, ops);
    DispatchFinds(Lone(host, to, p, ops), f);
    LoneWith(host, to, p, ops, Receive(p.stream.value, f), ops);
    var spot := if IsClose(f) then Shutting else Handing(f, IsError(f));
    LoneLoop(host, to, Change(p, Receive(p.stream.value, f)), ops, spot);
    hide Lone, DispatchFrame, Receive, IsClose, IsError;
  }

  lemma DispatchMade(to: Naming, p: Port, ops: multiset<Op>, f: Frame)
    requires p.stream.None? && !p.listed && p.spot == Holding(f) && f.id == X && IsStart(f) && f.payload == to.start
    ensures DispatchFrame(Lone(false, to, p, ops), f)
         == Lone(false, to, Port(Some(NewStream(X, to.start, Unclaimed)), true, Placing), ops)
  {
    DispatchMakes(Lone(false, to, p, ops), f);
    hide DispatchFrame, IsStart;
    var none: seq<Stream> := [];
    assert none + [NewStream(X, to.start, Unclaimed)] == [NewStream(X, to.start, Unclaimed)];
  }

  lemma DispatchLost(host: bool, to: Naming, p: Port, ops: multiset<Op>, f: Frame)
    requires !p.listed && p.spot == Holding(f) && f.id == X && !IsStart(f)
    ensures DispatchFrame(Lone(host, to, p, ops), f) == Lone(host, to, p.(spot := Answering), ops)
  {
    DispatchLoses(Lone(host, to, p, ops), f);
    hide DispatchFrame, IsStart;
  }

  lemma RouteDoes(host: bool, to: Naming, p: Port, ops: multiset<Op>)
    requires Enabled(host, to, p, ops, Routed(Some(to.handler)))
    ensures Does(host, to, p, ops, Routed(Some(to.handler)))
  {
    hide StartStep, CallStep, RecvStep, ConnStep, OfferStep, EndStep, CallerStep, RecvStepOf;
    var e, s := Lone(host, to, p, ops), p.stream.value.(phase := InUse);
    LoneParts(host, to, p, ops);
    LoneHandler(to, p, ops);
    RouteIs(e);
    RoutedIs(X, p, Some(to.handler));
    LoneWith(host, to, p, ops, s, ops);
    LoneLoop(host, to, Change(p, s), ops, Elsewhere);
    hide Lone, PortStep, ReadStep, HandlerFor;
  }

  lemma LoneOffers(e: Endpoint)
    requires e.loop.Offering? && e.loop.ref < |e.heap|
    requires !e.heap[e.loop.ref].closed && |e.heap[e.loop.ref].queue| < CAPACITY
    ensures var s := e.heap[e.loop.ref];
      OfferStep(e, Deliver)
      == Quiet(With(e, e.loop.ref, s.(queue := s.queue + [e.loop.frame])).(loop := AfterOffer(e.loop)))
  {}

  lemma DeliverDoes(host: bool, to: Naming, p: Port, ops: multiset<Op>)
    requires Enabled(host, to, p, ops, Delivered)
    ensures Does(host, to, p, ops, Delivered)
  {
    hide StartStep, CallStep, RecvStep, ConnStep, ReadStep, EndStep, CallerStep, RecvStepOf;
    var e, s := Lone(host, to, p, ops), p.stream.value.(queue := p.stream.value.queue + [p.spot.frame]);
    LoneParts(host, to, p, ops);
    DeliveredIs(X, p);
    LoneOffers(e);
    LoneWith(host, to, p, ops, s, ops);
    LoneLoop(host, to, Change(p, s), ops, AfterHanding(p.spot));
    hide Lone, PortStep;
  }

  lemma ShutDoes(host: bool, to: Naming, p: Port, ops: multiset<Op>)
    requires Enabled(host, to, p, ops, Shut)
    ensures Does(host, to, p, ops, Shut)
  {
    hide StartStep, CallStep, RecvStep, ConnStep, ReadStep, OfferStep, CallerStep, RecvStepOf;
    var e := Lone(host, to, p, ops);
    LoneParts(host, to, p, ops);
    ShutIs(X, p);
    FinishCloseIs(e);
    LoneShut(host, to, p, ops);
    hide Lone, PortStep, EndStep, AfterShut;
  }

  lemma LoneShut(host: bool, to: Naming, p: Port, ops: multiset<Op>)
    requires p.stream.Some? && p.spot.Shutting?
    ensures AfterShut(Lone(host, to, p, ops))
         == Lone(host, to, Port(Some(p.stream.value.(closed := true)), false, Elsewhere), ops)
  {
    var table: map<uint32, nat> := if p.listed then map[X := 0] else map[];
    assert table - {X} == map[];
  }

  // ---- Two endpoints with one stream ----

  lemma StepDoes(host: bool, to: Naming, p: Port, ops: multiset<Op>, ev: Event)
    requires Enabled(host, to, p, ops, ev)
    ensures Does(host, to, p, ops, ev)
    ensures var e := Lone(host, to, p, ops); Subject(e, ActionOf(ev)) == X && EventOf(e, ActionOf(ev)) == ev
  {
    StepNeeds(p, ev);
    Names(host, to, p, ops, ev);
    hide Enabled, Does, Lone, Subject, EventOf, ActionOf, Needs, Allows, PortFits, Routable, PortStep;
    if ev.Registers? { RegisterDoes(host, to, p, ops, ev.start); }
    else if ev.StartWritten? { StartDoes(host, to, p, ops, ev.ok); }
    else if ev.SendBegins? { SendDoes(host, to, p, ops, ev.payload); }
    else if ev.DataWritten? { DataDoes(host, to, p, ops, ev.payload, ev.ok); }
    else if ev.EndWritten? { EndDoes(host, to, p, ops, ev.ok); }
    else if ev.CloseBegins? { CloseDoes(host, to, p, ops); }
    else if ev.CloseWritten? { ClosedDoes(host, to, p, ops, ev.ok); }
    else if ev.Polled? { PollDoes(host, to, p, ops); }
    else if ev.Reads? { ReadDoes(host, to, p, ops, ev.frame); }
    else if ev.Dispatched? { DispatchDoes(host, to, p, ops); }
    else if ev.Routed? { RouteDoes(host, to, p, ops); }
    else if ev.Delivered? { DeliverDoes(host, to, p, ops); }
    else { ShutDoes(host, to, p, ops); }
  }

  // The stream stays the one it is, and writes only its own frames.
  ghost predicate Stays(host: bool, to: Naming, r: PortEffect) {
    PortFits(host, to, r.p) && (r.sent.Some? ==> FrameFits(host, to, r.sent.value))
  }

  lemma CallerStays(host: bool, to: Naming, p: Port, ev: Event)
    requires PortFits(host, to, p) && Routable(to) && Plain(ev, to) && CallerStep(X, p, ev).Some?
    requires ev.Registers? ==> host
    ensures Stays(host, to, CallerStep(X, p, ev).value)
  {
    hide Writable;
  }

  lemma RecvStays(host: bool, to: Naming, p: Port, ev: Event)
    requires PortFits(host, to, p) && RecvStepOf(p, ev).Some?
    ensures Stays(host, to, RecvStepOf(p, ev).value)
  {
    hide Take, AtEnd, FrameFits;
  }

  lemma ReceiveStays(s: Stream, f: Frame)
    ensures var s' := Receive(s, f); s'.id == s.id && s'.start == s.start && s'.phase == s.phase
  {}

  lemma LoopStays(host: bool, to: Naming, p: Port, ev: Event)
    requires PortFits(host, to, p) && Plain(ev, to) && LoopStepOf(X, p, ev).Some?
    requires ev.Reads? ==> FrameFits(!host, to, ev.frame)
    ensures Stays(host, to, LoopStepOf(X, p, ev).value)
  {
    if ev.Dispatched? && p.stream.Some? { ReceiveStays(p.stream.value, p.spot.frame); }
    hide Receive, IsStart, IsClose, IsError;
  }

  lemma StaysFitting(host: bool, to: Naming, p: Port, ev: Event)
    requires PortFits(host, to, p) && Routable(to) && Plain(ev, to) && PortStep(X, p, ev).Some?
    requires (ev.Registers? ==> host) && (ev.Reads? ==> FrameFits(!host, to, ev.frame))
    ensures Stays(host, to, PortStep(X, p, ev).value)
  {
    hide PortFits, Stays, CallerStep, RecvStepOf, LoopStepOf, Plain, Routable, FrameFits;
    if ByCaller(ev) { CallerStays(host, to, p, ev); }
    else if ByRecv(ev) { RecvStays(host, to, p, ev); }
    else { LoopStays(host, to, p, ev); }
  }

  lemma HalfStays(host: bool, to: Naming, me: Half, other: Half, ev: Event)
    requires HalfFits(host, to, me) && HalfFits(!host, to, other) && Routable(to) && Plain(ev, to)
    requires HalfStep(X, me, other, ev).Some? && (ev.Registers? ==> host)
    ensures HalfFits(host, to, HalfStep(X, me, other, ev).value)
  {
    HalfStepParts(X, me, other, ev);
    StaysFitting(host, to, me.port, ev);
    hide PortFits, FrameFits, PortStep, Plain, Routable;
  }

  function PartyOf(host: bool, to: Naming, h: Half, ops: multiset<Op>): Party {
    Party(Lone(host, to, h.port, ops), h.out, h.read)
  }

  function NetOf(to: Naming, a: Half, b: Half, aOps: multiset<Op>, bOps: multiset<Op>): Net {
    Net(PartyOf(true, to, a, aOps), PartyOf(false, to, b, bOps))
  }

  lemma HalfEnabled(host: bool, to: Naming, me: Half, other: Half, ops: multiset<Op>, ev: Event)
    requires HalfFits(host, to, me) && HalfFits(!host, to, other) && Routable(to) && Plain(ev, to)
    requires HalfStep(X, me, other, ev).Some? && (ev.Registers? ==> host) && Allows(ops, ev)
    ensures Enabled(host, to, me.port, ops, ev)
  {
    HalfStepParts(X, me, other, ev);
    hide PortFits, PortStep, Plain, Routable, Allows;
  }

  lemma OnlyReadsRead(ev: Event, to: Naming)
    requires Plain(ev, to)
    ensures ActionOf(ev).Read? <==> ev.Reads?
    ensures ev.Reads? ==> ActionOf(ev).frame == ev.frame
  {}

  lemma PartyDoes(host: bool, to: Naming, me: Half, other: Half, ops: multiset<Op>, ops': multiset<Op>, ev: Event)
    requires HalfFits(host, to, me) && HalfFits(!host, to, other) && Routable(to) && Plain(ev, to)
    requires HalfStep(X, me, other, ev).Some? && (ev.Registers? ==> host) && Allows(ops, ev)
    ensures PartyStep(PartyOf(host, to, me, ops), PartyOf(!host, to, other, ops'), ActionOf(ev))
         == Some(PartyOf(host, to, HalfStep(X, me, other, ev).value, Doing(ops, ev)))
    ensures var e := Lone(host, to, me.port, ops); Subject(e, ActionOf(ev)) == X && EventOf(e, ActionOf(ev)) == ev
  {
    HalfEnabled(host, to, me, other, ops, ev);
    HalfStepParts(X, me, other, ev);
    OnlyReadsRead(ev, to);
    hide HalfFits, Enabled, HalfStep, PortStep, Plain, Routable, Lone, Apply, Subject, EventOf, Doing, Allows, ActionOf;
    StepDoes(host, to, me.port, ops, ev);
  }

  // A step of one side in the network.
  ghost predicate Moves(n: Net, to: Naming, initiator: bool, me: Half, ev: Event, n': Net) {
    && NetStep(n, SideOf(initiator), ActionOf(ev)) == Some(n')
    && HalfFits(initiator, to, me) && View(Me(n', SideOf(initiator)).e, X) == me.port
    && var e := Me(n, SideOf(initiator)).e; Subject(e, ActionOf(ev)) == X && EventOf(e, ActionOf(ev)) == ev
  }

  lemma HostDoes(to: Naming, a: Half, b: Half, aOps: multiset<Op>, bOps: multiset<Op>, ev: Event)
    requires HalfFits(true, to, a) && HalfFits(false, to, b) && Routable(to) && Plain(ev, to)
    requires HalfStep(X, a, b, ev).Some? && Allows(aOps, ev)
    ensures var me := HalfStep(X, a, b, ev).value;
      Moves(NetOf(to, a, b, aOps, bOps), to, true, me, ev, NetOf(to, me, b, Doing(aOps, ev), bOps))
  {
    PartyDoes(true, to, a, b, aOps, bOps, ev);
    HalfStays(true, to, a, b, ev);
    LoneView(true, to, HalfStep(X, a, b, ev).value.port, Doing(aOps, ev));
    hide HalfStep, Lone, PartyStep, Plain, Routable, Doing, Allows, ActionOf, Subject, EventOf, HalfFits, View;
  }

  lemma PluginDoes(to: Naming, a: Half, b: Half, aOps: multiset<Op>, bOps: multiset<Op>, ev: Event)
    requires HalfFits(true, to, a) && HalfFits(false, to, b) && Routable(to) && Plain(ev, to)
    requires HalfStep(X, b, a, ev).Some? && !ev.Registers? && Allows(bOps, ev)
    ensures var me := HalfStep(X, b, a, ev).value;
      Moves(NetOf(to, a, b, aOps, bOps), to, false, me, ev, NetOf(to, a, me, aOps, Doing(bOps, ev)))
  {
    PartyDoes(false, to, b, a, bOps, aOps, ev);
    HalfStays(false, to, b, a, ev);
    LoneView(false, to, HalfStep(X, b, a, ev).value.port, Doing(bOps, ev));
    hide HalfStep, Lone, PartyStep, Plain, Routable, Doing, Allows, ActionOf, Subject, EventOf, HalfFits, View;
  }

  function SideOf(initiator: bool): Side { if initiator then Host else Plugin }

  // The handler is registered, and the host claims its first ID.
  function Preparing(to: Naming): seq<Step> {
    [(Plugin, AddRoute(ModeOf(to.start), RouteOf(to.start), to.handler)), (Host, Claim)]
  }

  lemma Adds(to: Naming)
    ensures Apply(NewEndpoint(2), AddRoute(ModeOf(to.start), RouteOf(to.start), to.handler))
         == Some(Effect(Lone(false, to, Port(None, false, Elsewhere), multiset{}), None))
  {}

  lemma Claims(to: Naming)
    ensures Apply(NewEndpoint(1), Claim)
         == Some(Effect(Lone(true, to, Port(None, false, Elsewhere), multiset{}), None))
  {
    var none: multiset<uint32> := multiset{};
    assert none + multiset{X} == multiset{X};
  }

  lemma Prepared(to: Naming)
    ensures NetRun(NewNet(), Preparing(to)) == Some(NetOf(to, NoHalf(), NoHalf(), multiset{}, multiset{}))
    ensures NetRun(NewNet(), Preparing(to)[..1]).Some?
    ensures HalfFits(true, to, NoHalf()) && HalfFits(false, to, NoHalf())
  {
    var t, none: seq<Frame> := Preparing(to), [];
    assert none + none == none;
    Adds(to);
    Claims(to);
    hide Apply, Lone;
    var first := Net(NewNet().host, PartyOf(false, to, NoHalf(), multiset{}));
    assert NetStep(NewNet(), t[0].0, t[0].1) == Some(first);
    assert NetStep(first, t[1].0, t[1].1) == Some(NetOf(to, NoHalf(), NoHalf(), multiset{}, multiset{}));
    hide NetStep;
    assert t[..1][..0] == [];
    assert NetRun(NewNet(), t[..1]) == Some(first);
  }

  // ---- CallSingleMulti ----

  // What a program has still to do: to write a checked payload, or what is left of a Close.
  function ClientOp(c: Single.Client, req: Bytes): Option<Op> {
    match c.at
    case Asking => Some(Sending(0, req))
    case Cancelling => Some(Closing(0))
    case Unlisting => Some(Removing(0))
    case _ => None
  }

  function ServerOp(s: Single.Server, h: Single.Handler): Option<Op> {
    match s
    case Writing(r, k) => if k < |h(r)| then Some(Sending(0, h(r)[k])) else None
    case Cancelling => Some(Closing(0))
    case Unlisting => Some(Removing(0))
    case _ => None
  }

  function Pending(o: Option<Op>): multiset<Op> { if o.Some? then multiset{o.value} else multiset{} }

  predicate Permits(o: Option<Op>, ev: Event) {
    match ev
    case SendBegins(_) => o.None?
    case DataWritten(payload, ok) => ok && o == Some(Sending(0, payload))
    case CloseBegins => o.None?
    case CloseWritten(ok) => ok && o == Some(Closing(0))
    case _ => true
  }

  function NextOp(o: Option<Op>, ev: Event): Option<Op> {
    match ev
    case SendBegins(payload) => Some(Sending(0, payload))
    case DataWritten(_, _) => None
    case CloseBegins => Some(Closing(0))
    case CloseWritten(_) => Some(Removing(0))
    case _ => o
  }

  lemma PendingDoes(o: Option<Op>, ev: Event)
    requires Permits(o, ev)
    ensures Allows(Pending(o), ev) && Doing(Pending(o), ev) == Pending(NextOp(o, ev))
  {}

  lemma ClientDoes(c: Single.Client, req: Bytes, ev: Event, p: Port, to: Naming)
    requires Plain(ev, to) && Healthy(ev) && Single.ClientStep(c, req, ev, p).Some?
    ensures Permits(ClientOp(c, req), ev)
    ensures ClientOp(Single.ClientStep(c, req, ev, p).value, req) == NextOp(ClientOp(c, req), ev)
  {}

  lemma ServerDoes(s: Single.Server, h: Single.Handler, ev: Event, p: Port, to: Naming)
    requires Plain(ev, to) && Healthy(ev) && Single.ServerStep(s, h, ev, p).Some?
    ensures Permits(ServerOp(s, h), ev) && !ev.Registers?
    ensures ServerOp(Single.ServerStep(s, h, ev, p).value, h) == NextOp(ServerOp(s, h), ev)
  {}

  // The network is at the state of the line, and so are the programs.
  ghost predicate SingleAt(to: Target, req: Bytes, h: Single.Handler, steps: seq<Step>, st: Single.Call) {
    var nm := Naming([1] + to.name, to.hid);
    && NetRun(NewNet(), steps) == Some(NetOf(nm, st.a, st.b, Pending(ClientOp(st.c, req)), Pending(ServerOp(st.s, h))))
    && SinglePrograms(steps, to, req, h) == Some((st.c, st.s))
    && HalfFits(true, nm, st.a) && HalfFits(false, nm, st.b)
  }

  lemma NetAppend(steps: seq<Step>, step: Step)
    requires NetRun(NewNet(), steps).Some?
    ensures NetRun(NewNet(), steps + [step]) == NetStep(NetRun(NewNet(), steps).value, step.0, step.1)
  {
    hide NetStep;
    assert (steps + [step])[..|steps|] == steps;
  }

  // What `SinglePrograms` says of one step more.
  lemma SingleAppend(steps: seq<Step>, side: Side, a: Action, to: Target, req: Bytes, h: Single.Handler)
    requires NetRun(NewNet(), steps).Some? && NetRun(NewNet(), steps + [(side, a)]).Some?
    requires SinglePrograms(steps, to, req, h).Some?
    ensures var e := Me(NetRun(NewNet(), steps).value, side).e;
      var p := View(Me(NetRun(NewNet(), steps + [(side, a)]).value, side).e, to.x);
      var (c, s) := SinglePrograms(steps, to, req, h).value;
      SinglePrograms(steps + [(side, a)], to, req, h)
      == if Subject(e, a) != to.x then Some((c, s))
         else if !Healthy(EventOf(e, a)) || !Named(a, EventOf(e, a), 1, to.name, to.hid) then None
         else if Initiates(side, to.x) then
           match Single.ClientStep(c, req, EventOf(e, a), p) case None => None case Some(c') => Some((c', s))
         else
           match Single.ServerStep(s, h, EventOf(e, a), p) case None => None case Some(s') => Some((c, s'))
  {
    hide NetRun, Subject, EventOf, View, Healthy, Named, Single.ClientStep, Single.ServerStep;
    assert (steps + [(side, a)])[..|steps|] == steps;
  }

  lemma PlainIsNamed(ev: Event, mode: byte, name: Bytes, hid: nat)
    requires Plain(ev, Naming([mode] + name, hid))
    ensures Named(ActionOf(ev), ev, mode, name, hid)
  {
    assert ([mode] + name)[1..] == name;
  }

  lemma SingleFollows(to: Target, req: Bytes, h: Single.Handler, steps: seq<Step>, st: Single.Call, initiator: bool,
      ev: Event)
    requires to.x == X && SingleAt(to, req, h, steps, st) && |to.name| <= TWO32 - 14
    requires Plain(ev, Naming([1] + to.name, to.hid)) && Single.CallStep(X, req, h, st, initiator, ev).Some?
    ensures SingleAt(to, req, h, steps + [(SideOf(initiator), ActionOf(ev))],
                    Single.CallStep(X, req, h, st, initiator, ev).value)
  {
    var nm, side := Naming([1] + to.name, to.hid), SideOf(initiator);
    assert Routable(nm);
    hide Routable;
    var st' := Single.CallStep(X, req, h, st, initiator, ev).value;
    if initiator {
      ClientDoes(st.c, req, ev, st'.a.port, nm);
      PendingDoes(ClientOp(st.c, req), ev);
    } else {
      ServerDoes(st.s, h, ev, st'.b.port, nm);
      PendingDoes(ServerOp(st.s, h), ev);
    }
    hide ClientOp, ServerOp, NextOp, Permits, Pending, Doing, Allows, HalfFits, HalfStep, NetOf, Plain, Healthy, Named;
    hide Single.ClientStep, Single.ServerStep;
    var aOps, bOps := Pending(ClientOp(st.c, req)), Pending(ServerOp(st.s, h));
    if initiator { HostDoes(nm, st.a, st.b, aOps, bOps, ev); } else { PluginDoes(nm, st.a, st.b, aOps, bOps, ev); }
    PlainIsNamed(ev, 1, to.name, to.hid);
    NetAppend(steps, (side, ActionOf(ev)));
    SingleAppend(steps, side, ActionOf(ev), to, req, h);
    hide NetRun, NetStep, SinglePrograms, Subject, EventOf, View, ActionOf;
  }

  lemma NoSubject(e: Endpoint, to: Naming)
    ensures Subject(e, Preparing(to)[0].1) == 0 && Subject(e, Preparing(to)[1].1) == 0
  {}

  lemma SingleStarts(to: Target, req: Bytes, h: Single.Handler)
    requires to.x == X
    ensures SingleAt(to, req, h, Preparing(Naming([1] + to.name, to.hid)), Single.NewCall())
  {
    var nm := Naming([1] + to.name, to.hid);
    var t := Preparing(nm);
    Prepared(nm);
    assert SinglePrograms([], to, req, h) == Some((Single.NewCall().c, Single.NewCall().s));
    assert t[..1] == [] + [t[0]] && t == t[..1] + [t[1]];
    assert NetRun(NewNet(), []) == Some(NewNet());
    hide NetRun, NetOf, HalfFits, View, Named, Healthy, Subject, EventOf, Single.ClientStep, Single.ServerStep;
    hide SinglePrograms;
    NoSubject(Me(NewNet(), Plugin).e, nm);
    SingleAppend([], Plugin, t[0].1, to, req, h);
    NoSubject(Me(NetRun(NewNet(), t[..1]).value, Host).e, nm);
    SingleAppend(t[..1], Host, t[1].1, to, req, h);
  }

  lemma {:induction false} SingleRealized(to: Target, req: Bytes, h: Single.Handler, moves: seq<Single.Move>)
      returns (steps: seq<Step>)
    requires to.x == X && |to.name| <= TWO32 - 14
    requires Single.PlainRun(X, req, h, Naming([1] + to.name, to.hid), moves).Some?
    ensures SingleAt(to, req, h, steps, Single.PlainRun(X, req, h, Naming([1] + to.name, to.hid), moves).value)
  {
    hide SingleAt, Single.CallStep, Plain, Single.NewCall;
    var nm := Naming([1] + to.name, to.hid);
    if moves == [] {
      SingleStarts(to, req, h);
      steps := Preparing(nm);
    } else {
      var before, m := moves[..|moves| - 1], moves[|moves| - 1];
      steps := SingleRealized(to, req, h, before);
      SingleFollows(to, req, h, steps, Single.PlainRun(X, req, h, nm, before).value, m.0, m.1);
      steps := steps + [(SideOf(m.0), ActionOf(m.1))];
    }
  }

  // A run of the network in which the caller's channel is closed.
  ghost predicate SingleComplete(steps: seq<Step>, to: Target, req: Bytes, h: Single.Handler) {
    && NetRun(NewNet(), steps).Some? && Bounded(NetRun(NewNet(), steps).value)
    && SinglePrograms(steps, to, req, h).Some? && SinglePrograms(steps, to, req, h).value.0.at.Ended?
  }

  lemma BoundedNet(to: Naming, a: Half, b: Half, aOps: multiset<Op>, bOps: multiset<Op>)
    ensures Bounded(NetOf(to, a, b, aOps, bOps))
  {}

  // The host's first call can complete between two endpoints exactly if its request and all responses
  // can be written.
  lemma SingleMultiCanComplete(to: Target, req: Bytes, h: Single.Handler)
    requires to.x == X && |to.name| <= TWO32 - 14
    ensures (exists steps :: SingleComplete(steps, to, req, h)) <==> Writable(req) && AllWritable(h(Carried(req)))
  {
    hide Writable, AllWritable, Carried, NetRun, SinglePrograms, Single.PlainRun, Single.CallRun, Bounded, NetOf;
    if Writable(req) && AllWritable(Single.Sends(h, req)) {
      var nm := Naming([1] + to.name, to.hid);
      var moves := Single.Completes(X, req, h, nm);
      var steps := SingleRealized(to, req, h, moves);
      var st := Single.PlainRun(X, req, h, nm, moves).value;
      BoundedNet(nm, st.a, st.b, Pending(ClientOp(st.c, req)), Pending(ServerOp(st.s, h)));
      assert SingleComplete(steps, to, req, h);
    }
    forall steps | SingleComplete(steps, to, req, h) ensures Writable(req) && AllWritable(Single.Sends(h, req)) {
      var moves := SingleRun(steps, to, req, h);
      Single.ReceivesSends(X, req, h, moves);
    }
  }

  // ---- CallMultiSingle ----

  function CallerOp(c: Multi.Client, reqs: seq<Bytes>): Option<Op> {
    if c.writing && c.sent < |reqs| then Some(Sending(0, reqs[c.sent])) else None
  }

  function AnswererOp(s: Multi.Server): Option<Op> {
    match s.at
    case Writing(r) => Some(Sending(0, r))
    case Cancelling => Some(Closing(0))
    case Unlisting => Some(Removing(0))
    case _ => None
  }

  lemma CallerDoes(c: Multi.Client, reqs: seq<Bytes>, ev: Event, p: Port, to: Naming)
    requires Plain(ev, to) && !ev.CloseBegins? && Healthy(ev) && c.closing == 0
    requires Multi.ClientStep(c, reqs, ev, p).Some?
    ensures Permits(CallerOp(c, reqs), ev)
    ensures var c' := Multi.ClientStep(c, reqs, ev, p).value;
      c'.closing == 0 && CallerOp(c', reqs) == NextOp(CallerOp(c, reqs), ev)
  {}

  lemma AnswererDoes(s: Multi.Server, ev: Event, p: Port, to: Naming)
    requires Plain(ev, to) && Healthy(ev) && Multi.ServerStep(s, ev, p).Some?
    ensures Permits(AnswererOp(s), ev) && !ev.Registers?
    ensures AnswererOp(Multi.ServerStep(s, ev, p).value) == NextOp(AnswererOp(s), ev)
  {}

  ghost predicate MultiAt(to: Target, reqs: seq<Bytes>, g: Multi.Handler, ticks: seq<Tick>, st: Multi.Call) {
    var nm := Naming([2] + to.name, to.hid);
    && NetRun(NewNet(), Steps(ticks))
       == Some(NetOf(nm, st.a, st.b, Pending(CallerOp(st.c, reqs)), Pending(AnswererOp(st.s))))
    && MultiPrograms(ticks, to, reqs, g) == Some((st.c, st.s))
    && HalfFits(true, nm, st.a) && HalfFits(false, nm, st.b) && st.c.closing == 0
  }

  lemma StepsAppend(ticks: seq<Tick>, tick: Tick)
    ensures Steps(ticks + [tick]) == Steps(ticks) + if tick.OnNet? then [tick.step] else []
  {
    assert (ticks + [tick])[..|ticks|] == ticks;
  }

  // What `MultiPrograms` says of one tick more.
  lemma MultiAppend(ticks: seq<Tick>, side: Side, a: Action, to: Target, reqs: seq<Bytes>, g: Multi.Handler)
    requires NetRun(NewNet(), Steps(ticks)).Some? && NetRun(NewNet(), Steps(ticks + [OnNet((side, a))])).Some?
    requires MultiPrograms(ticks, to, reqs, g).Some?
    ensures var e := Me(NetRun(NewNet(), Steps(ticks)).value, side).e;
      var p := View(Me(NetRun(NewNet(), Steps(ticks + [OnNet((side, a))])).value, side).e, to.x);
      var (c, s) := MultiPrograms(ticks, to, reqs, g).value;
      MultiPrograms(ticks + [OnNet((side, a))], to, reqs, g)
      == if Subject(e, a) != to.x then Some((c, s))
         else if !Healthy(EventOf(e, a)) || !Named(a, EventOf(e, a), 2, to.name, to.hid) then None
         else if Initiates(side, to.x) then
           match Multi.ClientStep(c, reqs, EventOf(e, a), p) case None => None case Some(c') => Some((c', s))
         else
           match Multi.ServerStep(s, EventOf(e, a), p) case None => None case Some(s') => Some((c, s'))
  {
    hide NetRun, Steps, Subject, EventOf, View, Healthy, Named, Multi.ClientStep, Multi.ServerStep;
    assert (ticks + [OnNet((side, a))])[..|ticks|] == ticks;
  }

  lemma HandlerAppend(ticks: seq<Tick>, tick: Tick, to: Target, reqs: seq<Bytes>, g: Multi.Handler)
    requires NetRun(NewNet(), Steps(ticks)).Some? && MultiPrograms(ticks, to, reqs, g).Some? && !tick.OnNet?
    ensures Steps(ticks + [tick]) == Steps(ticks)
    ensures var (c, s) := MultiPrograms(ticks, to, reqs, g).value;
      MultiPrograms(ticks + [tick], to, reqs, g)
      == match if tick.HandlerTakes? then Multi.HandlerTake(s) else Multi.HandlerReturn(s, g)
         case None => None
         case Some(s') => Some((c, s'))
  {
    StepsAppend(ticks, tick);
    hide NetRun, Steps, Subject, EventOf, View, Multi.HandlerTake, Multi.HandlerReturn;
    assert (ticks + [tick])[..|ticks|] == ticks;
  }

  lemma MultiFollows(to: Target, reqs: seq<Bytes>, g: Multi.Handler, ticks: seq<Tick>, st: Multi.Call, initiator: bool,
      ev: Event)
    requires to.x == X && MultiAt(to, reqs, g, ticks, st) && |to.name| <= TWO32 - 14
    requires Multi.PlainMove(Multi.OnLine(initiator, ev), Naming([2] + to.name, to.hid))
    requires Multi.CallStep(X, reqs, g, st, Multi.OnLine(initiator, ev)).Some?
    ensures MultiAt(to, reqs, g, ticks + [OnNet((SideOf(initiator), ActionOf(ev)))],
                   Multi.CallStep(X, reqs, g, st, Multi.OnLine(initiator, ev)).value)
  {
    var nm, side := Naming([2] + to.name, to.hid), SideOf(initiator);
    assert Routable(nm);
    hide Routable;
    var st' := Multi.CallStep(X, reqs, g, st, Multi.OnLine(initiator, ev)).value;
    if initiator {
      CallerDoes(st.c, reqs, ev, st'.a.port, nm);
      PendingDoes(CallerOp(st.c, reqs), ev);
    } else {
      AnswererDoes(st.s, ev, st'.b.port, nm);
      PendingDoes(AnswererOp(st.s), ev);
    }
    hide CallerOp, AnswererOp, NextOp, Permits, Pending, Doing, Allows, HalfFits, HalfStep, NetOf, Plain, Healthy;
    hide Named, Multi.ClientStep, Multi.ServerStep;
    var aOps, bOps := Pending(CallerOp(st.c, reqs)), Pending(AnswererOp(st.s));
    if initiator { HostDoes(nm, st.a, st.b, aOps, bOps, ev); } else { PluginDoes(nm, st.a, st.b, aOps, bOps, ev); }
    PlainIsNamed(ev, 2, to.name, to.hid);
    StepsAppend(ticks, OnNet((side, ActionOf(ev))));
    NetAppend(Steps(ticks), (side, ActionOf(ev)));
    MultiAppend(ticks, side, ActionOf(ev), to, reqs, g);
    hide NetRun, NetStep, MultiPrograms, Subject, EventOf, View, ActionOf, Steps;
  }

  lemma HandlerFollows(to: Target, reqs: seq<Bytes>, g: Multi.Handler, ticks: seq<Tick>, st: Multi.Call, m: Multi.Move)
    requires MultiAt(to, reqs, g, ticks, st) && !m.OnLine? && Multi.CallStep(X, reqs, g, st, m).Some?
    ensures MultiAt(to, reqs, g, ticks + [if m.HandlerTakes? then HandlerTakes else HandlerReturns],
                   Multi.CallStep(X, reqs, g, st, m).value)
  {
    HandlerAppend(ticks, if m.HandlerTakes? then HandlerTakes else HandlerReturns, to, reqs, g);
    hide NetRun, MultiPrograms, Steps, HalfFits, NetOf;
  }

  // A tick that is none of the stream.
  lemma MultiAside(ticks: seq<Tick>, step: Step, to: Target, reqs: seq<Bytes>, g: Multi.Handler)
    requires NetRun(NewNet(), Steps(ticks)).Some? && NetRun(NewNet(), Steps(ticks) + [step]).Some?
    requires MultiPrograms(ticks, to, reqs, g).Some?
    requires Subject(Me(NetRun(NewNet(), Steps(ticks)).value, step.0).e, step.1) != to.x
    ensures Steps(ticks + [OnNet(step)]) == Steps(ticks) + [step]
    ensures MultiPrograms(ticks + [OnNet(step)], to, reqs, g) == MultiPrograms(ticks, to, reqs, g)
  {
    hide NetRun, MultiPrograms, View, Named, Healthy, Subject, EventOf, Multi.ClientStep, Multi.ServerStep, Steps;
    StepsAppend(ticks, OnNet(step));
    assert step == (step.0, step.1);
    MultiAppend(ticks, step.0, step.1, to, reqs, g);
    var (c, s) := MultiPrograms(ticks, to, reqs, g).value;
    assert MultiPrograms(ticks + [OnNet(step)], to, reqs, g) == Some((c, s));
  }

  lemma MultiStarts(to: Target, reqs: seq<Bytes>, g: Multi.Handler) returns (ticks: seq<Tick>)
    requires to.x == X
    ensures MultiAt(to, reqs, g, ticks, Multi.NewCall())
  {
    var nm := Naming([2] + to.name, to.hid);
    var t := Preparing(nm);
    Prepared(nm);
    assert MultiPrograms([], to, reqs, g) == Some((Multi.NewCall().c, Multi.NewCall().s));
    assert [] + [t[0]] == t[..1] && t[..1] + [t[1]] == t;
    assert NetRun(NewNet(), []) == Some(NewNet()) && Steps([]) == [];
    hide NetRun, NetOf, HalfFits, Subject, Steps, MultiPrograms;
    NoSubject(NewNet().plugin.e, nm);
    MultiAside([], t[0], to, reqs, g);
    NoSubject(Me(NetRun(NewNet(), t[..1]).value, t[1].0).e, nm);
    ticks := [] + [OnNet(t[0])];
    MultiAside(ticks, t[1], to, reqs, g);
    ticks := ticks + [OnNet(t[1])];
  }

  lemma {:induction false} MultiRealized(to: Target, reqs: seq<Bytes>, g: Multi.Handler, moves: seq<Multi.Move>)
      returns (ticks: seq<Tick>)
    requires to.x == X && |to.name| <= TWO32 - 14
    requires Multi.PlainRun(X, reqs, g, Naming([2] + to.name, to.hid), moves).Some?
    ensures MultiAt(to, reqs, g, ticks, Multi.PlainRun(X, reqs, g, Naming([2] + to.name, to.hid), moves).value)
  {
    hide MultiAt, Multi.CallStep, Multi.PlainMove, Multi.NewCall;
    var nm := Naming([2] + to.name, to.hid);
    if moves == [] {
      ticks := MultiStarts(to, reqs, g);
    } else {
      var before, m := moves[..|moves| - 1], moves[|moves| - 1];
      ticks := MultiRealized(to, reqs, g, before);
      var st := Multi.PlainRun(X, reqs, g, nm, before).value;
      if m.OnLine? {
        MultiFollows(to, reqs, g, ticks, st, m.initiator, m.ev);
        ticks := ticks + [OnNet((SideOf(m.initiator), ActionOf(m.ev)))];
      } else {
        HandlerFollows(to, reqs, g, ticks, st, m);
        ticks := ticks + [if m.HandlerTakes? then HandlerTakes else HandlerReturns];
      }
    }
  }

  // A run of the network in which the caller gets a result.
  ghost predicate MultiComplete(ticks: seq<Tick>, to: Target, reqs: seq<Bytes>, g: Multi.Handler) {
    && NetRun(NewNet(), Steps(ticks)).Some? && Bounded(NetRun(NewNet(), Steps(ticks)).value)
    && MultiPrograms(ticks, to, reqs, g).Some? && !MultiPrograms(ticks, to, reqs, g).value.0.result.Pending?
  }

  // The same for a call of the other kind: its requests and the answer, if any, can be written.
  lemma MultiSingleCanComplete(to: Target, reqs: seq<Bytes>, g: Multi.Handler)
    requires to.x == X && |to.name| <= TWO32 - 14
    ensures (exists ticks :: MultiComplete(ticks, to, reqs, g))
            <==> AllWritable(reqs) && (g(CarriedAll(reqs)).Some? ==> Writable(g(CarriedAll(reqs)).value))
  {
    hide Writable, AllWritable, CarriedAll, NetRun, MultiPrograms, Multi.PlainRun, Multi.CallRun, Bounded, NetOf, Steps;
    if AllWritable(reqs) && (Multi.Answers(g, reqs).Some? ==> Writable(Multi.Answers(g, reqs).value)) {
      var nm := Naming([2] + to.name, to.hid);
      var moves := Multi.Completes(X, reqs, g, nm);
      var ticks := MultiRealized(to, reqs, g, moves);
      var st := Multi.PlainRun(X, reqs, g, nm, moves).value;
      BoundedNet(nm, st.a, st.b, Pending(CallerOp(st.c, reqs)), Pending(AnswererOp(st.s)));
      assert MultiComplete(ticks, to, reqs, g);
    }
    forall ticks | MultiComplete(ticks, to, reqs, g)
      ensures AllWritable(reqs) && (Multi.Answers(g, reqs).Some? ==> Writable(Multi.Answers(g, reqs).value))
    {
      var moves := MultiRun(ticks, to, reqs, g);
      Multi.GetsAnswer(X, reqs, g, moves);
    }
  }
}
