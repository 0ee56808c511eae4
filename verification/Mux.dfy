/**
 One endpoint of a multiplexed connection, as the sequence of steps its goroutines can take.

 A step is a critical section, a channel operation or a write. The background read loop has a
 program counter, so the places where it releases the lock in the middle of an iteration are
 states in which other goroutines step. The calls of the application are split the same way: what
 a goroutine still has to do is kept in `ops`. A Go `select` with several ready cases is several
 enabled actions. A write appends its frame, with as much of the payload as its 32-bit length lets
 through, or, if it returns an error, nothing; where filling the buffer panics there is no step.
 */
module Mux {
  import opened Bytes
  import opened Frames
  import opened Options

  // The capacity of every queue: `recvCh`, `acceptCh` and `rawMsgCh`.
  const CAPACITY: nat := 100

  // ---- Streams ----

  // Why a stream's context was cancelled.
  datatype Cause = PeerClosed | PeerFailed | LoopEnded | ClosedHere | ConnClosed | FailureRead

  datatype Phase =
    | Starting     // in the table; its Start frame is not yet written
    | StartFailed  // the Start frame could not be written; still in the table
    | Abandoned    // removed after that failure
    | Unclaimed    // made for a Start frame of the peer; nobody has received it yet
    | InUse        // in the hands of the application

  // What a call of `Recv` returns, unless its own context ends first.
  datatype Outcome = Received(payload: Bytes) | EndOfStream | PeerError(message: Bytes)

  // `start` is the payload of the Start frame, `queue` and `closed` are the channel `recvCh`; the
  // context is cancelled when `causes` is not
  // empty. The last three fields record history: the frames the loop offered to the channel, the
  // frames `Recv` took from it, and what `Recv` returned.
  datatype Stream = Stream(
    id: uint32, start: Bytes, phase: Phase, queue: seq<Frame>, closed: bool, causes: set<Cause>,
    offered: seq<Frame>, taken: seq<Frame>, outcomes: seq<Outcome>)

  function NewStream(id: uint32, start: Bytes, phase: Phase): Stream {
    Stream(id, start, phase, [], false, {}, [], [], [])
  }

  predicate Cancelled(s: Stream) { s.causes != {} }

  function OutcomeOf(f: Frame): Outcome {
    if IsClose(f) || IsCloseWrite(f) then EndOfStream
    else if IsError(f) then PeerError(f.payload)
    else Received(f.payload)
  }

  function Outcomes(fs: seq<Frame>): (r: seq<Outcome>)
    ensures |r| == |fs|
  {
    if fs == [] then [] else Outcomes(fs[..|fs| - 1]) + [OutcomeOf(fs[|fs| - 1])]
  }

  // The payloads and the errors among them.
  function Told(os: seq<Outcome>): seq<Outcome> {
    if os == [] then []
    else Told(os[..|os| - 1]) + if os[|os| - 1].EndOfStream? then [] else [os[|os| - 1]]
  }

  lemma ToldOneMore(os: seq<Outcome>, o: Outcome)
    ensures Told(os + [o]) == Told(os) + if o.EndOfStream? then [] else [o]
  {
    assert (os + [o])[..|os|] == os;
  }

  lemma OutcomesOneMore(fs: seq<Frame>, f: Frame)
    ensures Outcomes(fs + [f]) == Outcomes(fs) + [OutcomeOf(f)]
  {
    assert (fs + [f])[..|fs|] == fs;
  }

  // `Recv` takes the oldest frame. Unless it is draining, a Close or Error frame cancels the stream.
  function Take(s: Stream, draining: bool): (r: Stream)
    requires s.queue != []
    ensures r.id == s.id && r.start == s.start && r.phase == s.phase && r.closed == s.closed
  {
    var f := s.queue[0];
    var failing := IsClose(f) || (!IsCloseWrite(f) && IsError(f));
    s.(queue := s.queue[1..], taken := s.taken + [f], outcomes := s.outcomes + [OutcomeOf(f)],
       causes := if failing && !draining then s.causes + {FailureRead} else s.causes)
  }

  function AtEnd(s: Stream): (r: Stream)
    ensures r.id == s.id && r.start == s.start && r.phase == s.phase && r.closed == s.closed
  {
    s.(outcomes := s.outcomes + [EndOfStream])
  }

  function Cancel(s: Stream, cause: Cause): Stream {
    s.(causes := s.causes + {cause})
  }

  // ---- Endpoints ----

  datatype Loop =
    | Idle                                                       // about to read a header
    | Got(frame: Frame)                                          // read; the lock is not yet taken
    | Routing(ref: nat, id: uint32, mode: byte, route: Bytes)    // unlocked, finding a handler
    | Queueing(ref: nat, id: uint32)                             // unlocked, no handler, in the select on `acceptCh`
    | Replying(id: uint32)                                       // unlocked, about to answer "not found"
    | Offering(ref: nat, frame: Frame, failing: bool)            // unlocked, in the select on `recvCh`
    | Unlinking(ref: nat, id: uint32)                            // after an Error frame, about to relock
    | HalfClosed(ref: nat, id: uint32, sweeping: bool)           // locked, cancelled, channel still open
    | Sweeping                                                   // locked, after a failed read
    | EndingAccept | EndingDone | EndingRaw | Stopped

  datatype Op =
    | Sending(ref: nat, payload: Bytes)  // `Send` found the stream open
    | Closing(ref: nat)                  // `Close` cancelled the stream
    | Removing(ref: nat)                 // `Close` wrote its frame
    | Waiting(ref: nat)                  // `Recv` in its second select
    | Draining(ref: nat)                 // `Recv` chose the cancelled context there

  // A stream object is an index into `heap`; objects outlive their entry in `table`. `routes` are
  // the three handler tables, by mode, with a number for each handler.
  datatype Endpoint = Endpoint(
    first: uint32, calls: nat, nextId: uint32, claimed: multiset<uint32>,
    heap: seq<Stream>, table: map<uint32, nat>,
    loop: Loop, loopFailed: bool,
    acceptQ: seq<nat>, acceptClosed: bool, doneClosed: bool,
    rawQ: seq<Bytes>, rawTaken: seq<Bytes>, rawClosed: bool,
    routes: map<(byte, Bytes), nat>, ops: multiset<Op>, panicked: bool)

  function NewEndpoint(first: uint32): Endpoint {
    Endpoint(first, 0, first, multiset{}, [], map[], Idle, false, [], false, false,
             [], [], false, map[], multiset{}, false)
  }

  predicate Locked(e: Endpoint) { e.loop.Sweeping? || e.loop.HalfClosed? }

  datatype Action =
    // startStream: its two critical sections, its write, and its removal when the write failed
    | Claim | Register(id: uint32, mode: byte, route: Bytes) | WriteStart(ref: nat, ok: bool) | DropStart(ref: nat)
    // Send, CloseWrite, Close
    | BeginSend(ref: nat, payload: Bytes) | WriteData(ref: nat, payload: Bytes, ok: bool) | WriteEnd(ref: nat, ok: bool)
    | BeginClose(ref: nat) | WriteClose(ref: nat, ok: bool) | Remove(ref: nat)
    // Recv: its first select, its default case, and the cases of its second select
    | Poll(ref: nat) | Block(ref: nat) | Wake(ref: nat) | GiveUp(ref: nat) | Drain(ref: nat) | Quit(ref: nat)
    // WriteData, ReadData, AcceptStream, Close and handler registration of the connection
    | WriteRaw(payload: Bytes, ok: bool) | TakeRaw | TakeAccepted | CancelOne(id: uint32)
    | AddRoute(mode: byte, route: Bytes, handler: nat)
    // the read loop
    | Read(frame: Frame) | ReadFails | PushRaw | Dispatch | RouteStream | QueueStream
    | Deliver | Discard | Unlink | Reply(ok: bool)
    | FinishClose | SweepOne(id: uint32) | SweepDone | EndAccept | EndDone | EndRaw

  // The next state, and the frame written to the wire, if any.
  datatype Effect = Effect(e: Endpoint, sent: Option<Frame>)

  function Quiet(e: Endpoint): Option<Effect> { Some(Effect(e, None)) }

  function Write(e: Endpoint, ok: bool, f: Frame): Option<Effect> {
    Some(Effect(e, if ok then Some(f) else None))
  }

  function With(e: Endpoint, ref: nat, s: Stream): Endpoint
    requires ref < |e.heap|
  {
    e.(heap := e.heap[ref := s])
  }

  function Panic(e: Endpoint): Option<Effect> { Quiet(e.(panicked := true)) }

  predicate Held(e: Endpoint, ref: nat) { ref < |e.heap| && e.heap[ref].phase.InUse? }

  // "stream not found"
  const NOT_FOUND: Bytes := [115, 116, 114, 101, 97, 109, 32, 110, 111, 116, 32, 102, 111, 117, 110, 100]

  function StartFrame(id: uint32, start: Bytes): Frame { Frame(id, FLAG_START, start) }
  function DataFrame(id: uint32, payload: Bytes): Frame { Frame(id, FLAG_DATA, payload) }
  function EndFrame(id: uint32): Frame { Frame(id, FLAG_CLOSE_WRITE, []) }
  function CloseFrame(id: uint32): Frame { Frame(id, FLAG_CLOSE, []) }
  function NotFoundFrame(id: uint32): Frame { Frame(id, FLAG_ERROR, NOT_FOUND) }

  // The steps below are `None` where the action is not enabled.

  predicate ForStart(a: Action) { a.Claim? || a.Register? || a.WriteStart? || a.DropStart? }

  // Steps of startStream.
  function StartStep(e: Endpoint, a: Action): Option<Effect>
  {
    match a
    case Claim =>
      if Locked(e) || e.loopFailed then None
      else Quiet(e.(calls := e.calls + 1, nextId := (e.nextId + 2) % TWO32, claimed := e.claimed + multiset{e.nextId}))
    case Register(id, mode, route) =>
      if Locked(e) || id !in e.claimed then None
      else Quiet(e.(claimed := e.claimed - multiset{id}, heap := e.heap + [NewStream(id, [mode] + route, Starting)],
                    table := e.table[id := |e.heap|]))
    case WriteStart(ref, ok) =>
      if ref >= |e.heap| || !e.heap[ref].phase.Starting? || !Writable(e.heap[ref].start) then None
      else
        var s := e.heap[ref];
        Write(With(e, ref, s.(phase := if ok then InUse else StartFailed)), ok, StartFrame(s.id, Carried(s.start)))
    case DropStart(ref) =>
      if Locked(e) || ref >= |e.heap| || !e.heap[ref].phase.StartFailed? then None
      else
        var s := e.heap[ref];
        Quiet(With(e, ref, s.(phase := Abandoned)).(table := e.table - {s.id}))
    case _ => None
  }

  predicate ForCalls(a: Action) { a.BeginSend? || a.WriteData? || a.WriteEnd? || a.BeginClose? || a.WriteClose?
      || a.Remove? }

  // Steps of Send, CloseWrite and Close.
  function CallStep(e: Endpoint, a: Action): Option<Effect>
  {
    match a
    case BeginSend(ref, payload) =>
      if !Held(e, ref) || Cancelled(e.heap[ref]) then None
      else Quiet(e.(ops := e.ops + multiset{Sending(ref, payload)}))
    case WriteData(ref, payload, ok) =>
      if ref >= |e.heap| || Sending(ref, payload) !in e.ops || !Writable(payload) then None
      else Write(e.(ops := e.ops - multiset{Sending(ref, payload)}), ok, DataFrame(e.heap[ref].id, Carried(payload)))
    case WriteEnd(ref, ok) =>
      if !Held(e, ref) then None else Write(e, ok, EndFrame(e.heap[ref].id))
    case BeginClose(ref) =>
      if !Held(e, ref) then None
      else Quiet(With(e, ref, Cancel(e.heap[ref], ClosedHere)).(ops := e.ops + multiset{Closing(ref)}))
    case WriteClose(ref, ok) =>
      if ref >= |e.heap| || Closing(ref) !in e.ops then None
      else
        Write(e.(ops := e.ops - multiset{Closing(ref)} + multiset{Removing(ref)}), ok, CloseFrame(e.heap[ref].id))
    case Remove(ref) =>
      if Locked(e) || ref >= |e.heap| || Removing(ref) !in e.ops then None
      else Quiet(e.(ops := e.ops - multiset{Removing(ref)}, table := e.table - {e.heap[ref].id}))
    case _ => None
  }

  predicate ForRecv(a: Action) { a.Poll? || a.Block? || a.Wake? || a.GiveUp? || a.Drain? || a.Quit? }

  // Steps of Recv.
  function RecvStep(e: Endpoint, a: Action): Option<Effect>
  {
    match a
    case Poll(ref) =>
      if !Held(e, ref) then None
      else if e.heap[ref].queue != [] then Quiet(With(e, ref, Take(e.heap[ref], false)))
      else if e.heap[ref].closed then Quiet(With(e, ref, AtEnd(e.heap[ref])))
      else None
    case Block(ref) =>
      if !Held(e, ref) || e.heap[ref].queue != [] || e.heap[ref].closed then None
      else Quiet(e.(ops := e.ops + multiset{Waiting(ref)}))
    case Wake(ref) =>
      if ref >= |e.heap| || Waiting(ref) !in e.ops then None
      else
        var e' := e.(ops := e.ops - multiset{Waiting(ref)});
        if e.heap[ref].queue != [] then Quiet(With(e', ref, Take(e.heap[ref], false)))
        else if e.heap[ref].closed then Quiet(With(e', ref, AtEnd(e.heap[ref])))
        else None
    case GiveUp(ref) =>
      if ref >= |e.heap| || Waiting(ref) !in e.ops || !Cancelled(e.heap[ref]) then None
      else Quiet(e.(ops := e.ops - multiset{Waiting(ref)} + multiset{Draining(ref)}))
    case Drain(ref) =>
      if ref >= |e.heap| || Draining(ref) !in e.ops then None
      else
        var e' := e.(ops := e.ops - multiset{Draining(ref)});
        var s := e.heap[ref];
        Quiet(With(e', ref, if s.queue != [] then Take(s, true) else AtEnd(s)))
    case Quit(ref) =>
      if Waiting(ref) !in e.ops then None else Quiet(e.(ops := e.ops - multiset{Waiting(ref)}))
    case _ => None
  }

  // A stream after a `Recv` that returned.
  function Returned(s: Stream, draining: bool): Stream { if s.queue != [] then Take(s, draining) else AtEnd(s) }

  lemma ReturnedId(s: Stream, draining: bool)
    ensures Returned(s, draining).id == s.id && Returned(s, draining).closed == s.closed
  {
    hide Take, AtEnd;
  }

  lemma PollIs(e: Endpoint, ref: nat)
    requires RecvStep(e, Poll(ref)).Some?
    ensures ref < |e.heap|
    ensures RecvStep(e, Poll(ref)) == Quiet(With(e, ref, Returned(e.heap[ref], false)))
  {
    hide Take, AtEnd;
  }

  lemma WakeIs(e: Endpoint, ref: nat)
    requires RecvStep(e, Wake(ref)).Some?
    ensures ref < |e.heap|
    ensures RecvStep(e, Wake(ref))
         == Quiet(With(e.(ops := e.ops - multiset{Waiting(ref)}), ref, Returned(e.heap[ref], false)))
  {
    hide Take, AtEnd;
  }

  lemma DrainIs(e: Endpoint, ref: nat)
    requires RecvStep(e, Drain(ref)).Some?
    ensures ref < |e.heap|
    ensures RecvStep(e, Drain(ref))
         == Quiet(With(e.(ops := e.ops - multiset{Draining(ref)}), ref, Returned(e.heap[ref], true)))
  {
    hide Take, AtEnd;
  }

  // What `Recv` makes of the frame it takes, by the flags, and which frames cancel the stream; with an
  // empty queue it reports the end.
  lemma RecvTells(e: Endpoint, a: Action, ref: nat)
    requires (a == Poll(ref) || a == Wake(ref) || a == Drain(ref)) && RecvStep(e, a).Some?
    ensures ref < |e.heap| && |RecvStep(e, a).value.e.heap| == |e.heap|
    ensures var s, s' := e.heap[ref], RecvStep(e, a).value.e.heap[ref];
      && |s'.outcomes| == |s.outcomes| + 1 && s'.outcomes[..|s.outcomes|] == s.outcomes
      && var o := s'.outcomes[|s.outcomes|];
         if s.queue == [] then o == EndOfStream && s' == s.(outcomes := s'.outcomes)
         else
           var f := s.queue[0];
           && (o == EndOfStream <==> IsClose(f) || IsCloseWrite(f))
           && (o == PeerError(f.payload) <==> IsError(f) && !IsClose(f) && !IsCloseWrite(f))
           && (o == Received(f.payload) <==> !IsError(f) && !IsClose(f) && !IsCloseWrite(f))
           && s'.queue == s.queue[1..] && s'.taken == s.taken + [f]
           && s'.causes == s.causes + (if !a.Drain? && (IsClose(f) || (IsError(f) && !IsCloseWrite(f)))
                                       then {FailureRead} else {})
  {
    if a.Poll? { PollIs(e, ref); } else if a.Wake? { WakeIs(e, ref); } else { DrainIs(e, ref); }
    hide RecvStep, IsClose, IsError, IsCloseWrite;
  }

  predicate ForConn(a: Action) { a.WriteRaw? || a.TakeRaw? || a.TakeAccepted? || a.CancelOne? || a.AddRoute? }

  // Steps of calls on the connection.
  function ConnStep(e: Endpoint, a: Action): Option<Effect>
  {
    match a
    case WriteRaw(payload, ok) =>
      if !Writable(payload) then None else Write(e, ok, Frame(0, 0, Carried(payload)))
    case TakeRaw =>
      if e.rawQ == [] then None else Quiet(e.(rawQ := e.rawQ[1..], rawTaken := e.rawTaken + [e.rawQ[0]]))
    case TakeAccepted =>
      if e.acceptQ == [] || e.acceptQ[0] >= |e.heap| then None
      else
        var ref := e.acceptQ[0];
        Quiet(With(e, ref, e.heap[ref].(phase := InUse)).(acceptQ := e.acceptQ[1..]))
    case CancelOne(id) =>
      if Locked(e) || id !in e.table || e.table[id] >= |e.heap| then None
      else Quiet(With(e, e.table[id], Cancel(e.heap[e.table[id]], ConnClosed)))
    case AddRoute(mode, route, handler) => Quiet(e.(routes := e.routes[(mode, route) := handler]))
    case _ => None
  }

  // The handler of a stream; modes other than the three have none.
  function HandlerFor(e: Endpoint, mode: byte, route: Bytes): Option<nat> {
    if mode <= 2 && (mode, route) in e.routes then Some(e.routes[(mode, route)]) else None
  }

  predicate ForRead(a: Action) { a.Read? || a.ReadFails? || a.PushRaw? || a.Dispatch? || a.RouteStream?
      || a.QueueStream? }

  // Steps of the read loop up to the dispatch of a frame.
  function ReadStep(e: Endpoint, a: Action): Option<Effect>
  {
    match a
    case Read(f) => if e.loop.Idle? then Quiet(e.(loop := Got(f))) else None
    case ReadFails => if e.loop.Idle? then Quiet(e.(loop := Sweeping, loopFailed := true)) else None
    case PushRaw =>
      if !e.loop.Got? || e.loop.frame.id != 0 || |e.rawQ| >= CAPACITY then None
      else if e.rawClosed then Panic(e)
      else Quiet(e.(rawQ := e.rawQ + [e.loop.frame.payload], loop := Idle))
    case Dispatch =>
      if !e.loop.Got? || e.loop.frame.id == 0 then None else Quiet(DispatchFrame(e, e.loop.frame))
    case RouteStream =>
      if !e.loop.Routing? || e.loop.ref >= |e.heap| then None
      else if HandlerFor(e, e.loop.mode, e.loop.route).Some? then
        Quiet(With(e, e.loop.ref, e.heap[e.loop.ref].(phase := InUse)).(loop := Idle))
      else Quiet(e.(loop := Queueing(e.loop.ref, e.loop.id)))
    case QueueStream =>
      if !e.loop.Queueing? || |e.acceptQ| >= CAPACITY then None
      else if e.acceptClosed then Panic(e)
      else Quiet(e.(acceptQ := e.acceptQ + [e.loop.ref], loop := Idle))
    case _ => None
  }

  predicate ForOffer(a: Action) { a.Deliver? || a.Discard? || a.Unlink? || a.Reply? }

  // Steps of the read loop after the dispatch.
  function OfferStep(e: Endpoint, a: Action): Option<Effect>
  {
    match a
    case Deliver =>
      if !e.loop.Offering? || e.loop.ref >= |e.heap| then None
      else
        var s := e.heap[e.loop.ref];
        if s.closed then Panic(e)
        else if |s.queue| >= CAPACITY then None
        else Quiet(With(e, e.loop.ref, s.(queue := s.queue + [e.loop.frame])).(loop := AfterOffer(e.loop)))
    case Discard =>
      if !e.loop.Offering? || e.loop.ref >= |e.heap| || !Cancelled(e.heap[e.loop.ref]) then None
      else Quiet(e.(loop := AfterOffer(e.loop)))
    case Unlink =>
      if !e.loop.Unlinking? then None else Quiet(e.(table := e.table - {e.loop.id}, loop := Idle))
    case Reply(ok) =>
      if !e.loop.Replying? then None else Write(e.(loop := Idle), ok, NotFoundFrame(e.loop.id))
    case _ => None
  }

  // Steps of the read loop closing channels.
  function EndStep(e: Endpoint, a: Action): Option<Effect>
  {
    match a
    case FinishClose =>
      if !e.loop.HalfClosed? || e.loop.ref >= |e.heap| then None
      else
        var s := e.heap[e.loop.ref];
        if s.closed then Panic(e)
        else Quiet(With(e, e.loop.ref, s.(closed := true)).(
                     table := e.table - {e.loop.id}, loop := if e.loop.sweeping then Sweeping else Idle))
    case SweepOne(id) =>
      if !e.loop.Sweeping? || id !in e.table || e.table[id] >= |e.heap| then None
      else
        var ref := e.table[id];
        Quiet(With(e, ref, Cancel(e.heap[ref], LoopEnded)).(loop := HalfClosed(ref, id, true)))
    case SweepDone =>
      if !e.loop.Sweeping? || e.table != map[] then None else Quiet(e.(loop := EndingAccept))
    case EndAccept =>
      if !e.loop.EndingAccept? then None
      else if e.acceptClosed then Panic(e) else Quiet(e.(acceptClosed := true, loop := EndingDone))
    case EndDone =>
      if !e.loop.EndingDone? then None
      else if e.doneClosed then Panic(e) else Quiet(e.(doneClosed := true, loop := EndingRaw))
    case EndRaw =>
      if !e.loop.EndingRaw? then None
      else if e.rawClosed then Panic(e) else Quiet(e.(rawClosed := true, loop := Stopped))
    case _ => None
  }

  // The endpoint with the channel of the stream closed.
  function AfterShut(e: Endpoint): (e': Endpoint)
    requires e.loop.HalfClosed? && e.loop.ref < |e.heap|
  {
    With(e, e.loop.ref, e.heap[e.loop.ref].(closed := true)).(
      table := e.table - {e.loop.id}, loop := if e.loop.sweeping then Sweeping else Idle)
  }

  lemma FinishCloseIs(e: Endpoint)
    requires e.loop.HalfClosed? && e.loop.ref < |e.heap| && !e.heap[e.loop.ref].closed
    ensures EndStep(e, FinishClose) == Quiet(AfterShut(e))
  {}

  // What each action puts on the wire, flag bits and texts written out; every other action, and a write
  // that fails, puts nothing.
  function OnTheWire(e: Endpoint, a: Action): Option<Frame> {
    match a
    case WriteStart(ref, ok) =>
      if ok && ref < |e.heap| then Some(Frame(e.heap[ref].id, 1, Carried(e.heap[ref].start))) else None
    case WriteData(ref, payload, ok) =>
      if ok && ref < |e.heap| then Some(Frame(e.heap[ref].id, 2, Carried(payload))) else None
    case WriteEnd(ref, ok) => if ok && ref < |e.heap| then Some(Frame(e.heap[ref].id, 16, [])) else None
    case WriteClose(ref, ok) => if ok && ref < |e.heap| then Some(Frame(e.heap[ref].id, 4, [])) else None
    case WriteRaw(payload, ok) => if ok then Some(Frame(0, 0, Carried(payload))) else None
    case Reply(ok) =>
      if ok && e.loop.Replying? then
        Some(Frame(e.loop.id, 8, [0x73, 0x74, 0x72, 0x65, 0x61, 0x6d, 0x20, 0x6e, 0x6f, 0x74, 0x20, 0x66, 0x6f, 0x75,
                                  0x6e, 0x64]))
      else None
    case _ => None
  }

  function Apply(e: Endpoint, a: Action): Option<Effect>
  {
    if ForStart(a) then StartStep(e, a)
    else if ForCalls(a) then CallStep(e, a)
    else if ForRecv(a) then RecvStep(e, a)
    else if ForConn(a) then ConnStep(e, a)
    else if ForRead(a) then ReadStep(e, a)
    else if ForOffer(a) then OfferStep(e, a)
    else EndStep(e, a)
  }

  function AfterOffer(l: Loop): Loop
    requires l.Offering?
  {
    if l.failing then Unlinking(l.ref, l.frame.id) else Idle
  }

  lemma StartsOnTheWire(e: Endpoint, a: Action)
    requires ForStart(a) && StartStep(e, a).Some?
    ensures StartStep(e, a).value.sent == OnTheWire(e, a)
  {
    hide Carried, Writable;
  }

  lemma CallsOnTheWire(e: Endpoint, a: Action)
    requires ForCalls(a) && CallStep(e, a).Some?
    ensures CallStep(e, a).value.sent == OnTheWire(e, a)
  {
    hide Carried, Writable;
  }

  lemma RecvOffTheWire(e: Endpoint, a: Action)
    requires ForRecv(a) && RecvStep(e, a).Some?
    ensures RecvStep(e, a).value.sent == None
  {
    hide Take, AtEnd, With;
  }

  lemma ConnOnTheWire(e: Endpoint, a: Action)
    requires ForConn(a) && ConnStep(e, a).Some?
    ensures ConnStep(e, a).value.sent == OnTheWire(e, a)
  {
    hide Carried, Writable;
  }

  lemma ReadOffTheWire(e: Endpoint, a: Action)
    requires ForRead(a) && ReadStep(e, a).Some?
    ensures ReadStep(e, a).value.sent == None
  {
    hide HandlerFor, DispatchFrame, With;
  }

  lemma OfferOnTheWire(e: Endpoint, a: Action)
    requires ForOffer(a) && OfferStep(e, a).Some?
    ensures OfferStep(e, a).value.sent == OnTheWire(e, a)
  {
    hide AfterOffer, With;
  }

  lemma EndOffTheWire(e: Endpoint, a: Action)
    requires EndStep(e, a).Some?
    ensures EndStep(e, a).value.sent == None
  {
    hide With, Cancel;
  }

  lemma WritesOnTheWire(e: Endpoint, a: Action)
    requires Apply(e, a).Some?
    ensures Apply(e, a).value.sent == OnTheWire(e, a)
  {
    hide StartStep, CallStep, RecvStep, ConnStep, ReadStep, OfferStep, EndStep;
    if ForStart(a) { StartsOnTheWire(e, a); }
    else if ForCalls(a) { CallsOnTheWire(e, a); }
    else if ForRecv(a) { RecvOffTheWire(e, a); }
    else if ForConn(a) { ConnOnTheWire(e, a); }
    else if ForRead(a) { ReadOffTheWire(e, a); }
    else if ForOffer(a) { OfferOnTheWire(e, a); }
    else { EndOffTheWire(e, a); }
  }

  // What the read loop does to a stream for one of its frames while it holds the lock.
  function Receive(s: Stream, f: Frame): Stream {
    if IsClose(f) then Cancel(s, PeerClosed)
    else if IsError(f) then Cancel(s, PeerFailed).(offered := s.offered + [f])
    else s.(offered := s.offered + [f])
  }

  // What the payload of a Start frame asks for.
  function ModeOf(start: Bytes): byte { if start == [] then 0 else start[0] }
  function RouteOf(start: Bytes): Bytes { if start == [] then [] else start[1..] }

  // The critical section of the read loop for a frame of a stream.
  function DispatchFrame(e: Endpoint, f: Frame): Endpoint
  {
    if f.id !in e.table then
      if IsStart(f) then
        e.(heap := e.heap + [NewStream(f.id, f.payload, Unclaimed)], table := e.table[f.id := |e.heap|],
           loop := Routing(|e.heap|, f.id, ModeOf(f.payload), RouteOf(f.payload)))
      else e.(loop := Replying(f.id))
    else if e.table[f.id] >= |e.heap| then e
    else
      var ref := e.table[f.id];
      With(e, ref, Receive(e.heap[ref], f)).(
        loop := if IsClose(f) then HalfClosed(ref, f.id, false) else Offering(ref, f, IsError(f)))
  }

  // Its three outcomes.
  lemma DispatchMakes(e: Endpoint, f: Frame)
    requires f.id !in e.table && IsStart(f)
    ensures DispatchFrame(e, f)
         == e.(heap := e.heap + [NewStream(f.id, f.payload, Unclaimed)], table := e.table[f.id := |e.heap|],
               loop := Routing(|e.heap|, f.id, ModeOf(f.payload), RouteOf(f.payload)))
  {}

  lemma DispatchLoses(e: Endpoint, f: Frame)
    requires f.id !in e.table && !IsStart(f)
    ensures DispatchFrame(e, f) == e.(loop := Replying(f.id))
  {}

  function AfterReceive(ref: nat, f: Frame): Loop {
    if IsClose(f) then HalfClosed(ref, f.id, false) else Offering(ref, f, IsError(f))
  }

  lemma DispatchFinds(e: Endpoint, f: Frame)
    requires f.id in e.table && e.table[f.id] < |e.heap|
    ensures var ref := e.table[f.id];
      DispatchFrame(e, f) == With(e, ref, Receive(e.heap[ref], f)).(loop := AfterReceive(ref, f))
  {
    hide IsClose, IsError, Receive;
  }

  lemma DispatchDangles(e: Endpoint, f: Frame)
    requires f.id in e.table && e.table[f.id] >= |e.heap|
    ensures DispatchFrame(e, f) == e
  {}

  // ---- What every step keeps, whatever the IDs ----

  ghost predicate TableOk(e: Endpoint) {
    forall id | id in e.table ::
      e.table[id] < |e.heap| && e.heap[e.table[id]].id == id && !e.heap[e.table[id]].closed
  }

  // `Recv` returned the payloads and the errors of the frames it took, in order, and ends besides.
  ghost predicate Honest(s: Stream) { Told(s.outcomes) == Told(Outcomes(s.taken)) }

  ghost predicate QueuesOk(e: Endpoint) {
    && (forall r | 0 <= r < |e.heap| :: |e.heap[r].queue| <= CAPACITY && Honest(e.heap[r]))
    && |e.rawQ| <= CAPACITY && |e.acceptQ| <= CAPACITY
  }

  predicate Claimable(s: Stream) { s.phase.Unclaimed? || s.phase.InUse? }

  ghost predicate LoopOk(e: Endpoint) {
    match e.loop
    case Routing(ref, id, mode, route) =>
      && id != 0 && ref < |e.heap| && e.heap[ref].id == id && Claimable(e.heap[ref])
      && mode == ModeOf(e.heap[ref].start) && route == RouteOf(e.heap[ref].start)
    case Queueing(ref, id) => id != 0 && ref < |e.heap| && e.heap[ref].id == id && Claimable(e.heap[ref])
    case Offering(ref, f, failing) =>
      ref < |e.heap| && e.heap[ref].id == f.id && !e.heap[ref].closed && (failing ==> Cancelled(e.heap[ref]))
    case Replying(id) => id != 0
    case Unlinking(ref, id) => ref < |e.heap| && e.heap[ref].id == id && Cancelled(e.heap[ref])
    case HalfClosed(ref, id, _) => id in e.table && e.table[id] == ref
    case _ => true
  }

  predicate Failing(l: Loop) {
    l.Sweeping? || (l.HalfClosed? && l.sweeping) || l.EndingAccept? || l.EndingDone? || l.EndingRaw? || l.Stopped?
  }

  ghost predicate ChannelsOk(e: Endpoint) {
    && !e.panicked
    && (e.loopFailed <==> Failing(e.loop))
    && (e.acceptClosed <==> e.loop.EndingDone? || e.loop.EndingRaw? || e.loop.Stopped?)
    && (e.doneClosed <==> e.loop.EndingRaw? || e.loop.Stopped?)
    && (e.rawClosed <==> e.loop.Stopped?)
  }

  ghost predicate OpOk(e: Endpoint, op: Op) {
    Held(e, op.ref) && (op.Closing? || op.Removing? || op.Draining? ==> Cancelled(e.heap[op.ref]))
  }

  ghost predicate RefsOk(e: Endpoint) {
    && (forall i | 0 <= i < |e.acceptQ| :: e.acceptQ[i] < |e.heap| && Claimable(e.heap[e.acceptQ[i]]))
    && (forall op | op in e.ops :: OpOk(e, op))
  }

  // Only a read loop that has failed sweeps.
  ghost predicate SweepOk(e: Endpoint) {
    e.loopFailed || forall r | 0 <= r < |e.heap| :: LoopEnded !in e.heap[r].causes
  }

  ghost predicate EpOk(e: Endpoint) {
    TableOk(e) && QueuesOk(e) && LoopOk(e) && ChannelsOk(e) && RefsOk(e) && SweepOk(e)
    && e.nextId == (e.first + 2 * e.calls) % TWO32
  }

  lemma Parts(e: Endpoint)
    requires EpOk(e)
    ensures TableOk(e) && QueuesOk(e) && LoopOk(e) && ChannelsOk(e) && RefsOk(e) && SweepOk(e)
    ensures e.nextId == (e.first + 2 * e.calls) % TWO32
  {}

  lemma Whole(e: Endpoint)
    requires TableOk(e) && QueuesOk(e) && LoopOk(e) && ChannelsOk(e) && RefsOk(e) && SweepOk(e)
    requires e.nextId == (e.first + 2 * e.calls) % TWO32
    ensures EpOk(e)
  {}

  // A change of one stream that keeps its ID and its channel, and does not take it out of use.
  ghost predicate Changes(e: Endpoint, s: Stream, s': Stream) {
    && s'.id == s.id && s'.start == s.start && s'.closed == s.closed && |s'.queue| <= CAPACITY
    && (Claimable(s) ==> s'.phase.InUse? || s'.phase == s.phase)
    && (Cancelled(s) ==> Cancelled(s')) && (Honest(s) ==> Honest(s'))
    && (LoopEnded in s'.causes ==> LoopEnded in s.causes || e.loopFailed)
  }

  // The invariant survives it.
  lemma StreamChange(e: Endpoint, ref: nat, s: Stream)
    requires EpOk(e) && ref < |e.heap| && Changes(e, e.heap[ref], s)
    ensures EpOk(With(e, ref, s))
  {
    Parts(e);
    hide EpOk, TableOk, QueuesOk, LoopOk, ChannelsOk, RefsOk, SweepOk, Changes;
    ChangeTable(e, ref, s);
    ChangeQueues(e, ref, s);
    ChangeLoop(e, ref, s);
    ChangeRefs(e, ref, s);
    Whole(With(e, ref, s));
  }

  lemma ChangeTable(e: Endpoint, ref: nat, s: Stream)
    requires TableOk(e) && ref < |e.heap| && Changes(e, e.heap[ref], s)
    ensures TableOk(With(e, ref, s))
  {}

  lemma ChangeQueues(e: Endpoint, ref: nat, s: Stream)
    requires QueuesOk(e) && ChannelsOk(e) && SweepOk(e) && ref < |e.heap| && Changes(e, e.heap[ref], s)
    ensures QueuesOk(With(e, ref, s)) && ChannelsOk(With(e, ref, s)) && SweepOk(With(e, ref, s))
  {
    hide Told, Outcomes;
  }

  lemma ChangeLoop(e: Endpoint, ref: nat, s: Stream)
    requires LoopOk(e) && ref < |e.heap| && Changes(e, e.heap[ref], s)
    ensures LoopOk(With(e, ref, s))
  {}

  lemma ChangeRefs(e: Endpoint, ref: nat, s: Stream)
    requires RefsOk(e) && ref < |e.heap| && Changes(e, e.heap[ref], s)
    ensures RefsOk(With(e, ref, s))
  {}

  lemma StreamMade(e: Endpoint, id: uint32, start: Bytes, phase: Phase, l: Loop)
    requires EpOk(e) && !Locked(e)
    requires l == e.loop
             || (e.loop.Got? && id != 0 && l == Routing(|e.heap|, id, ModeOf(start), RouteOf(start))
               && phase.Unclaimed?)
    ensures EpOk(e.(heap := e.heap + [NewStream(id, start, phase)], table := e.table[id := |e.heap|], loop := l))
  {
    Parts(e);
    var s := NewStream(id, start, phase);
    var e' := e.(heap := e.heap + [s], table := e.table[id := |e.heap|], loop := l);
    hide EpOk, TableOk, QueuesOk, LoopOk, RefsOk, SweepOk;
    MadeTable(e, s, l);
    MadeQueues(e, id, start, phase, l);
    MadeRefs(e, s, l);
    MadeLoop(e, id, start, phase, l);
    Whole(e');
  }

  lemma MadeTable(e: Endpoint, s: Stream, l: Loop)
    requires TableOk(e) && !s.closed
    ensures TableOk(e.(heap := e.heap + [s], table := e.table[s.id := |e.heap|], loop := l))
  {}

  lemma MadeQueues(e: Endpoint, id: uint32, start: Bytes, phase: Phase, l: Loop)
    requires QueuesOk(e) && SweepOk(e)
    ensures var e' := e.(heap := e.heap + [NewStream(id, start, phase)], table := e.table[id := |e.heap|], loop := l);
      QueuesOk(e') && SweepOk(e')
  {
    assert Honest(NewStream(id, start, phase));
    hide Honest;
  }

  lemma MadeRefs(e: Endpoint, s: Stream, l: Loop)
    requires RefsOk(e)
    ensures RefsOk(e.(heap := e.heap + [s], table := e.table[s.id := |e.heap|], loop := l))
  {}

  lemma MadeLoop(e: Endpoint, id: uint32, start: Bytes, phase: Phase, l: Loop)
    requires LoopOk(e) && !Locked(e)
    requires l == e.loop
             || (id != 0 && l == Routing(|e.heap|, id, ModeOf(start), RouteOf(start)) && phase.Unclaimed?)
    ensures LoopOk(e.(heap := e.heap + [NewStream(id, start, phase)], table := e.table[id := |e.heap|], loop := l))
  {}

  lemma EntryRemoved(e: Endpoint, id: uint32)
    requires EpOk(e) && !Locked(e)
    ensures EpOk(e.(table := e.table - {id}))
  {
    hide Honest;
  }

  lemma LoopMoved(e: Endpoint, l: Loop)
    requires EpOk(e)
    requires e.loop.Idle? || e.loop.Got? || e.loop.Offering? || e.loop.Unlinking? || e.loop.Replying? || e.loop.Routing?
    requires !Failing(l) && LoopOk(e.(loop := l))
    ensures EpOk(e.(loop := l))
  {
    Parts(e);
    hide EpOk, TableOk, QueuesOk, LoopOk, RefsOk, SweepOk;
    LoopApart(e, l);
    Whole(e.(loop := l));
  }

  lemma LoopApart(e: Endpoint, l: Loop)
    ensures TableOk(e) ==> TableOk(e.(loop := l))
    ensures QueuesOk(e) ==> QueuesOk(e.(loop := l))
    ensures RefsOk(e) ==> RefsOk(e.(loop := l))
    ensures SweepOk(e) ==> SweepOk(e.(loop := l))
  {}

  lemma InTable(e: Endpoint, id: uint32)
    requires EpOk(e) && id in e.table
    ensures e.table[id] < |e.heap| && e.heap[e.table[id]].id == id && !e.heap[e.table[id]].closed
  {
    hide Honest;
  }

  lemma OutcomesOf(e: Endpoint, ref: nat)
    requires EpOk(e) && ref < |e.heap|
    ensures Told(e.heap[ref].outcomes) == Told(Outcomes(e.heap[ref].taken))
  {
    assert Honest(e.heap[ref]);
    hide EpOk, Told;
  }

  lemma QueueOf(e: Endpoint, ref: nat)
    requires EpOk(e) && ref < |e.heap|
    ensures |e.heap[ref].queue| <= CAPACITY
  {}

  lemma OpOf(e: Endpoint, op: Op)
    requires EpOk(e) && op in e.ops
    ensures OpOk(e, op)
  {}

  lemma OpDone(e: Endpoint, op: Op)
    requires EpOk(e)
    ensures EpOk(e.(ops := e.ops - multiset{op}))
  {}

  lemma OpAdded(e: Endpoint, op: Op)
    requires EpOk(e) && OpOk(e, op)
    ensures EpOk(e.(ops := e.ops + multiset{op}))
  {}

  lemma ClaimMade(e: Endpoint)
    requires EpOk(e)
    ensures EpOk(e.(calls := e.calls + 1, nextId := (e.nextId + 2) % TWO32, claimed := e.claimed + multiset{e.nextId}))
  {
    hide Honest;
  }

  lemma ClaimUsed(e: Endpoint, id: uint32)
    requires EpOk(e)
    ensures EpOk(e.(claimed := e.claimed - multiset{id}))
  {
    hide Honest;
  }

  lemma RawTaken(e: Endpoint)
    requires EpOk(e) && e.rawQ != []
    ensures EpOk(e.(rawQ := e.rawQ[1..], rawTaken := e.rawTaken + [e.rawQ[0]]))
  {
    hide Honest;
  }

  lemma AcceptTaken(e: Endpoint)
    requires EpOk(e) && e.acceptQ != []
    ensures EpOk(e.(acceptQ := e.acceptQ[1..]))
  {
    hide Honest;
  }

  lemma RouteAdded(e: Endpoint, mode: byte, route: Bytes, handler: nat)
    requires EpOk(e)
    ensures EpOk(e.(routes := e.routes[(mode, route) := handler]))
  {
    hide Honest;
  }

  lemma ReadFailed(e: Endpoint)
    requires EpOk(e) && e.loop.Idle?
    ensures EpOk(e.(loop := Sweeping, loopFailed := true))
  {
    hide Honest;
  }

  lemma RawPushed(e: Endpoint)
    requires EpOk(e) && e.loop.Got? && |e.rawQ| < CAPACITY
    ensures !e.rawClosed && EpOk(e.(rawQ := e.rawQ + [e.loop.frame.payload], loop := Idle))
  {
    hide Honest;
  }

  lemma AcceptPushed(e: Endpoint)
    requires EpOk(e) && e.loop.Queueing? && |e.acceptQ| < CAPACITY
    ensures !e.acceptClosed && EpOk(e.(acceptQ := e.acceptQ + [e.loop.ref], loop := Idle))
  {
    hide Honest;
  }

  lemma CloseFinished(e: Endpoint)
    requires EpOk(e) && e.loop.HalfClosed?
    ensures e.loop.ref < |e.heap| && !e.heap[e.loop.ref].closed && EpOk(AfterShut(e))
  {
    Parts(e);
    hide EpOk, TableOk, RefsOk, QueuesOk, LoopOk, SweepOk, ChannelsOk, AfterShut;
    ShutTable(e);
    ShutParts(e);
  }

  lemma ShutParts(e: Endpoint)
    requires e.loop.HalfClosed? && e.loop.ref < |e.heap| && TableOk(AfterShut(e))
    requires QueuesOk(e) && RefsOk(e) && SweepOk(e) && ChannelsOk(e) && e.nextId == (e.first + 2 * e.calls) % TWO32
    ensures EpOk(AfterShut(e))
  {
    hide EpOk, TableOk, RefsOk, QueuesOk, LoopOk, SweepOk, ChannelsOk, AfterShut;
    ShutQueues(e);
    ShutRefs(e);
    ShutLoop(e);
    Whole(AfterShut(e));
  }

  lemma ShutTable(e: Endpoint)
    requires TableOk(e) && LoopOk(e) && e.loop.HalfClosed?
    ensures e.loop.ref < |e.heap| && !e.heap[e.loop.ref].closed && TableOk(AfterShut(e))
  {}

  lemma ShutQueues(e: Endpoint)
    requires QueuesOk(e) && SweepOk(e) && e.loop.HalfClosed? && e.loop.ref < |e.heap|
    ensures QueuesOk(AfterShut(e)) && SweepOk(AfterShut(e))
  {
    var s := e.heap[e.loop.ref];
    assert Honest(s) ==> Honest(s.(closed := true));
    hide Honest;
  }

  lemma ShutRefs(e: Endpoint)
    requires RefsOk(e) && e.loop.HalfClosed? && e.loop.ref < |e.heap|
    ensures RefsOk(AfterShut(e))
  {}

  lemma ShutLoop(e: Endpoint)
    requires ChannelsOk(e) && e.loop.HalfClosed? && e.loop.ref < |e.heap|
    ensures ChannelsOk(AfterShut(e)) && LoopOk(AfterShut(e))
    ensures var e' := AfterShut(e); e'.first == e.first && e'.calls == e.calls && e'.nextId == e.nextId
  {}

  lemma SweepBegun(e: Endpoint, id: uint32)
    requires EpOk(e) && e.loop.Sweeping? && id in e.table
    ensures EpOk(e.(loop := HalfClosed(e.table[id], id, true)))
  {
    hide Honest;
  }

  lemma SweepEnded(e: Endpoint)
    requires EpOk(e) && e.loop.Sweeping?
    ensures EpOk(e.(loop := EndingAccept))
  {
    hide Honest;
  }

  lemma AcceptEnded(e: Endpoint)
    requires EpOk(e) && e.loop.EndingAccept?
    ensures !e.acceptClosed && EpOk(e.(acceptClosed := true, loop := EndingDone))
  {
    hide Honest;
  }

  lemma DoneEnded(e: Endpoint)
    requires EpOk(e) && e.loop.EndingDone?
    ensures !e.doneClosed && EpOk(e.(doneClosed := true, loop := EndingRaw))
  {
    hide Honest;
  }

  lemma RawEnded(e: Endpoint)
    requires EpOk(e) && e.loop.EndingRaw?
    ensures !e.rawClosed && EpOk(e.(rawClosed := true, loop := Stopped))
  {
    hide Honest;
  }

  lemma RegisterKeeps(e: Endpoint, id: uint32, mode: byte, route: Bytes)
    requires EpOk(e) && StartStep(e, Register(id, mode, route)).Some?
    ensures EpOk(StartStep(e, Register(id, mode, route)).value.e)
  {
    hide EpOk;
    ClaimUsed(e, id);
    StreamMade(e.(claimed := e.claimed - multiset{id}), id, [mode] + route, Starting, e.loop);
  }

  lemma WriteStartKeeps(e: Endpoint, ref: nat, ok: bool)
    requires EpOk(e) && StartStep(e, WriteStart(ref, ok)).Some?
    ensures EpOk(StartStep(e, WriteStart(ref, ok)).value.e)
  {
    hide EpOk, Writable, Carried;
    QueueOf(e, ref);
    StreamChange(e, ref, e.heap[ref].(phase := if ok then InUse else StartFailed));
  }

  lemma DropStartKeeps(e: Endpoint, ref: nat)
    requires EpOk(e) && StartStep(e, DropStart(ref)).Some?
    ensures EpOk(StartStep(e, DropStart(ref)).value.e)
  {
    hide EpOk;
    var e1 := With(e, ref, e.heap[ref].(phase := Abandoned));
    QueueOf(e, ref);
    StreamChange(e, ref, e.heap[ref].(phase := Abandoned));
    EntryRemoved(e1, e.heap[ref].id);
  }

  lemma StartKeeps(e: Endpoint, a: Action)
    requires EpOk(e) && StartStep(e, a).Some?
    ensures EpOk(StartStep(e, a).value.e)
  {
    hide EpOk, With, NewStream, Writable, Carried;
    match a
    case Claim => ClaimMade(e);
    case Register(id, mode, route) => RegisterKeeps(e, id, mode, route);
    case WriteStart(ref, ok) => WriteStartKeeps(e, ref, ok);
    case DropStart(ref) => DropStartKeeps(e, ref);
    case _ =>
  }

  lemma BeginCloseKeeps(e: Endpoint, ref: nat)
    requires EpOk(e) && CallStep(e, BeginClose(ref)).Some?
    ensures EpOk(CallStep(e, BeginClose(ref)).value.e)
  {
    hide EpOk;
    QueueOf(e, ref);
    StreamChange(e, ref, Cancel(e.heap[ref], ClosedHere));
    OpAdded(With(e, ref, Cancel(e.heap[ref], ClosedHere)), Closing(ref));
  }

  lemma WriteCloseKeeps(e: Endpoint, ref: nat, ok: bool)
    requires EpOk(e) && CallStep(e, WriteClose(ref, ok)).Some?
    ensures EpOk(CallStep(e, WriteClose(ref, ok)).value.e)
  {
    hide EpOk;
    OpOf(e, Closing(ref));
    OpDone(e, Closing(ref));
    OpAdded(e.(ops := e.ops - multiset{Closing(ref)}), Removing(ref));
  }

  lemma RemoveKeeps(e: Endpoint, ref: nat)
    requires EpOk(e) && CallStep(e, Remove(ref)).Some?
    ensures EpOk(CallStep(e, Remove(ref)).value.e)
  {
    hide EpOk;
    OpDone(e, Removing(ref));
    EntryRemoved(e.(ops := e.ops - multiset{Removing(ref)}), e.heap[ref].id);
  }

  lemma SendKeeps(e: Endpoint, a: Action)
    requires EpOk(e) && (a.BeginSend? || a.WriteData? || a.WriteEnd?) && CallStep(e, a).Some?
    ensures EpOk(CallStep(e, a).value.e)
  {
    hide EpOk, Writable, Carried;
    match a
    case BeginSend(ref, payload) => OpAdded(e, Sending(ref, payload));
    case WriteData(ref, payload, _) => OpDone(e, Sending(ref, payload));
    case WriteEnd(ref, ok) =>
  }

  lemma CallsKeep(e: Endpoint, a: Action)
    requires EpOk(e) && CallStep(e, a).Some?
    ensures EpOk(CallStep(e, a).value.e)
  {
    if a.BeginSend? || a.WriteData? || a.WriteEnd? {
      SendKeeps(e, a);
    } else {
      hide EpOk, Held, Cancel, With;
      match a
      case BeginClose(ref) => BeginCloseKeeps(e, ref);
      case WriteClose(ref, ok) => WriteCloseKeeps(e, ref, ok);
      case Remove(ref) => RemoveKeeps(e, ref);
      case _ =>
    }
  }

  lemma ReturnChanges(e: Endpoint, s: Stream, draining: bool)
    requires |s.queue| <= CAPACITY
    ensures Changes(e, s, Returned(s, draining))
  {
    if Honest(s) { ReturnIsHonest(s, draining); }
    ReturnShape(s, draining);
    hide Honest, Returned;
  }

  lemma ReturnShape(s: Stream, draining: bool)
    ensures var s' := Returned(s, draining);
      && s'.id == s.id && s'.start == s.start && s'.phase == s.phase && s'.closed == s.closed
      && |s'.queue| <= |s.queue| && (Cancelled(s) ==> Cancelled(s'))
      && (LoopEnded in s'.causes ==> LoopEnded in s.causes)
  {
    hide Told, Outcomes, OutcomeOf, IsClose, IsError, IsCloseWrite;
  }

  lemma ReturnIsHonest(s: Stream, draining: bool)
    requires Honest(s)
    ensures Honest(Returned(s, draining))
  {
    if s.queue != [] {
      OutcomesOneMore(s.taken, s.queue[0]);
      ToldOneMore(Outcomes(s.taken), OutcomeOf(s.queue[0]));
      ToldOneMore(s.outcomes, OutcomeOf(s.queue[0]));
    } else {
      ToldOneMore(s.outcomes, EndOfStream);
    }
    hide Told, Outcomes, OutcomeOf;
  }

  // A `Recv` that returns.
  lemma ReturnKeeps(e: Endpoint, ref: nat, draining: bool)
    requires EpOk(e) && ref < |e.heap|
    ensures EpOk(With(e, ref, Returned(e.heap[ref], draining)))
  {
    hide EpOk, Changes, Returned;
    QueueOf(e, ref);
    ReturnChanges(e, e.heap[ref], draining);
    StreamChange(e, ref, Returned(e.heap[ref], draining));
  }

  lemma PollKeeps(e: Endpoint, ref: nat)
    requires EpOk(e) && RecvStep(e, Poll(ref)).Some?
    ensures EpOk(RecvStep(e, Poll(ref)).value.e)
  {
    PollIs(e, ref);
    hide EpOk, RecvStep, Returned;
    ReturnKeeps(e, ref, false);
  }

  lemma WakeKeeps(e: Endpoint, ref: nat)
    requires EpOk(e) && RecvStep(e, Wake(ref)).Some?
    ensures EpOk(RecvStep(e, Wake(ref)).value.e)
  {
    WakeIs(e, ref);
    hide EpOk, RecvStep, Returned;
    OpDone(e, Waiting(ref));
    ReturnKeeps(e.(ops := e.ops - multiset{Waiting(ref)}), ref, false);
  }

  lemma DrainKeeps(e: Endpoint, ref: nat)
    requires EpOk(e) && RecvStep(e, Drain(ref)).Some?
    ensures EpOk(RecvStep(e, Drain(ref)).value.e)
  {
    DrainIs(e, ref);
    hide EpOk, RecvStep, Returned;
    OpDone(e, Draining(ref));
    ReturnKeeps(e.(ops := e.ops - multiset{Draining(ref)}), ref, true);
  }

  lemma WaitKeeps(e: Endpoint, a: Action)
    requires EpOk(e) && (a.Block? || a.GiveUp? || a.Quit?) && RecvStep(e, a).Some?
    ensures EpOk(RecvStep(e, a).value.e)
  {
    hide EpOk, Take, AtEnd;
    match a
    case Block(ref) => OpAdded(e, Waiting(ref));
    case GiveUp(ref) =>
      OpOf(e, Waiting(ref));
      OpDone(e, Waiting(ref));
      OpAdded(e.(ops := e.ops - multiset{Waiting(ref)}), Draining(ref));
    case Quit(ref) => OpDone(e, Waiting(ref));
  }

  lemma RecvKeeps(e: Endpoint, a: Action)
    requires EpOk(e) && RecvStep(e, a).Some?
    ensures EpOk(RecvStep(e, a).value.e)
  {
    if a.Block? || a.GiveUp? || a.Quit? {
      WaitKeeps(e, a);
    } else {
      hide EpOk, Held, Take, AtEnd, With;
      match a
      case Poll(ref) => PollKeeps(e, ref);
      case Wake(ref) => WakeKeeps(e, ref);
      case Drain(ref) => DrainKeeps(e, ref);
      case _ =>
    }
  }

  lemma TakeAcceptedKeeps(e: Endpoint)
    requires EpOk(e) && ConnStep(e, TakeAccepted).Some?
    ensures EpOk(ConnStep(e, TakeAccepted).value.e)
  {
    hide EpOk;
    var ref := e.acceptQ[0];
    QueueOf(e, ref);
    StreamChange(e, ref, e.heap[ref].(phase := InUse));
    AcceptTaken(With(e, ref, e.heap[ref].(phase := InUse)));
  }

  lemma CancelOneKeeps(e: Endpoint, id: uint32)
    requires EpOk(e) && ConnStep(e, CancelOne(id)).Some?
    ensures EpOk(ConnStep(e, CancelOne(id)).value.e)
  {
    hide EpOk;
    QueueOf(e, e.table[id]);
    StreamChange(e, e.table[id], Cancel(e.heap[e.table[id]], ConnClosed));
  }

  lemma ConnectionKeeps(e: Endpoint, a: Action)
    requires EpOk(e) && ConnStep(e, a).Some?
    ensures EpOk(ConnStep(e, a).value.e)
  {
    hide EpOk, With, Cancel, Writable, Carried;
    match a
    case TakeRaw => RawTaken(e);
    case TakeAccepted => TakeAcceptedKeeps(e);
    case CancelOne(id) => CancelOneKeeps(e, id);
    case AddRoute(mode, route, handler) => RouteAdded(e, mode, route, handler);
    case _ =>
  }

  lemma DispatchKeeps(e: Endpoint)
    requires EpOk(e) && e.loop.Got? && e.loop.frame.id != 0
    ensures EpOk(DispatchFrame(e, e.loop.frame))
  {
    hide EpOk, IsStart, Receive;
    var f := e.loop.frame;
    if f.id in e.table {
      DispatchHeld(e, f);
    } else if IsStart(f) {
      StreamMade(e, f.id, f.payload, Unclaimed, DispatchFrame(e, f).loop);
    } else {
      LoopMoved(e, Replying(f.id));
    }
  }

  lemma ReceiveChanges(e: Endpoint, s: Stream, f: Frame)
    requires |s.queue| <= CAPACITY
    ensures Changes(e, s, Receive(s, f)) && Receive(s, f).id == s.id && Receive(s, f).closed == s.closed
    ensures IsClose(f) || IsError(f) ==> Cancelled(Receive(s, f))
  {
    assert IsClose(f) ==> PeerClosed in Receive(s, f).causes;
    assert !IsClose(f) && IsError(f) ==> PeerFailed in Receive(s, f).causes;
    hide IsClose, IsError;
  }

  lemma DispatchHeld(e: Endpoint, f: Frame)
    requires EpOk(e) && e.loop == Got(f) && f.id in e.table
    ensures EpOk(DispatchFrame(e, f))
  {
    hide EpOk, Receive, Changes, IsClose, IsError, Cancelled;
    InTable(e, f.id);
    var ref, s' := e.table[f.id], Receive(e.heap[e.table[f.id]], f);
    QueueOf(e, ref);
    ReceiveChanges(e, e.heap[ref], f);
    StreamChange(e, ref, s');
    LoopMoved(With(e, ref, s'), if IsClose(f) then HalfClosed(ref, f.id, false) else Offering(ref, f, IsError(f)));
  }

  lemma RouteKeeps(e: Endpoint)
    requires EpOk(e) && ReadStep(e, RouteStream).Some?
    ensures EpOk(ReadStep(e, RouteStream).value.e)
  {
    hide EpOk, HandlerFor;
    if HandlerFor(e, e.loop.mode, e.loop.route).Some? {
      QueueOf(e, e.loop.ref);
      LoopMoved(e, Idle);
      StreamChange(e.(loop := Idle), e.loop.ref, e.heap[e.loop.ref].(phase := InUse));
    } else {
      RoutingOk(e);
      LoopMoved(e, Queueing(e.loop.ref, e.loop.id));
    }
  }

  lemma RoutingOk(e: Endpoint)
    requires EpOk(e) && e.loop.Routing?
    ensures e.loop.ref < |e.heap| && e.heap[e.loop.ref].id == e.loop.id && Claimable(e.heap[e.loop.ref])
    ensures LoopOk(e.(loop := Queueing(e.loop.ref, e.loop.id)))
  {
    hide Honest;
  }

  lemma ReadKeeps(e: Endpoint, a: Action)
    requires EpOk(e) && ReadStep(e, a).Some?
    ensures EpOk(ReadStep(e, a).value.e)
  {
    hide EpOk, DispatchFrame, HandlerFor, With;
    match a
    case Read(f) => LoopMoved(e, Got(f));
    case ReadFails => ReadFailed(e);
    case PushRaw => RawPushed(e);
    case Dispatch => DispatchKeeps(e);
    case RouteStream => RouteKeeps(e);
    case QueueStream => AcceptPushed(e);
    case _ =>
  }

  lemma OfferOk(e: Endpoint)
    requires EpOk(e) && e.loop.Offering?
    ensures e.loop.ref < |e.heap| && LoopOk(e.(loop := AfterOffer(e.loop))) && !e.heap[e.loop.ref].closed
  {}

  lemma DeliverKeeps(e: Endpoint)
    requires EpOk(e) && OfferStep(e, Deliver).Some?
    ensures EpOk(OfferStep(e, Deliver).value.e)
  {
    hide EpOk, LoopOk;
    OfferOk(e);
    var s := e.heap[e.loop.ref];
    LoopMoved(e, AfterOffer(e.loop));
    StreamChange(e.(loop := AfterOffer(e.loop)), e.loop.ref, s.(queue := s.queue + [e.loop.frame]));
  }

  lemma OfferKeeps(e: Endpoint, a: Action)
    requires EpOk(e) && OfferStep(e, a).Some?
    ensures EpOk(OfferStep(e, a).value.e)
  {
    hide EpOk, Cancelled;
    match a
    case Deliver => DeliverKeeps(e);
    case Discard =>
      OfferOk(e);
      LoopMoved(e, AfterOffer(e.loop));
    case Unlink =>
      LoopMoved(e, Idle);
      EntryRemoved(e.(loop := Idle), e.loop.id);
    case Reply(_) => LoopMoved(e, Idle);
    case _ =>
  }

  lemma SweepOneKeeps(e: Endpoint, id: uint32)
    requires EpOk(e) && EndStep(e, SweepOne(id)).Some?
    ensures EpOk(EndStep(e, SweepOne(id)).value.e)
  {
    Parts(e);
    hide EpOk;
    QueueOf(e, e.table[id]);
    SweepBegun(e, id);
    StreamChange(e.(loop := HalfClosed(e.table[id], id, true)), e.table[id], Cancel(e.heap[e.table[id]], LoopEnded));
  }

  lemma EndKeeps(e: Endpoint, a: Action)
    requires EpOk(e) && EndStep(e, a).Some?
    ensures EpOk(EndStep(e, a).value.e)
  {
    hide EpOk, Cancel;
    match a
    case FinishClose =>
      CloseFinished(e);
      FinishCloseIs(e);
    case SweepOne(id) => SweepOneKeeps(e, id);
    case SweepDone => SweepEnded(e);
    case EndAccept => AcceptEnded(e);
    case EndDone => DoneEnded(e);
    case EndRaw => RawEnded(e);
    case _ =>
  }

  // No step panics: no channel is closed twice or sent to after closing, every stream in the
  // table has an open channel, and it sits there under its own ID only.
  lemma StepKeeps(e: Endpoint, a: Action)
    requires EpOk(e) && Apply(e, a).Some?
    ensures EpOk(Apply(e, a).value.e)
  {
    hide StartStep, CallStep, RecvStep, ConnStep, ReadStep, OfferStep, EndStep, EpOk;
    if ForStart(a) { StartKeeps(e, a); }
    else if ForCalls(a) { CallsKeep(e, a); }
    else if ForRecv(a) { RecvKeeps(e, a); }
    else if ForConn(a) { ConnectionKeeps(e, a); }
    else if ForRead(a) { ReadKeeps(e, a); }
    else if ForOffer(a) { OfferKeeps(e, a); }
    else { EndKeeps(e, a); }
  }

  // ---- Runs of one endpoint, against any peer ----

  function Run(e: Endpoint, actions: seq<Action>): Option<Endpoint>
    decreases |actions|
  {
    if actions == [] then Some(e)
    else match Apply(e, actions[0])
         case None => None
         case Some(effect) => Run(effect.e, actions[1..])
  }

  lemma {:induction false} RunAppend(e: Endpoint, a: seq<Action>, b: seq<Action>)
    requires Run(e, a).Some?
    ensures Run(e, a + b) == Run(Run(e, a).value, b)
    decreases |a|
  {
    hide Apply;
    if a == [] {
      assert a + b == b;
    } else {
      assert (a + b)[1..] == a[1..] + b;
      RunAppend(Apply(e, a[0]).value.e, a[1..], b);
    }
  }

  lemma {:induction false} RunKeeps(e: Endpoint, actions: seq<Action>)
    requires EpOk(e) && Run(e, actions).Some?
    ensures EpOk(Run(e, actions).value)
    decreases |actions|
  {
    hide Apply, EpOk;
    if actions != [] {
      StepKeeps(e, actions[0]);
      RunKeeps(Apply(e, actions[0]).value.e, actions[1..]);
    }
  }

  lemma Discipline(e: Endpoint)
    requires EpOk(e)
    ensures !e.panicked
    ensures forall id | id in e.table ::
           e.table[id] < |e.heap| && e.heap[e.table[id]].id == id && !e.heap[e.table[id]].closed
    ensures forall i, j | i in e.table && j in e.table && e.table[i] == e.table[j] :: i == j
    ensures |e.rawQ| <= CAPACITY && |e.acceptQ| <= CAPACITY
    ensures (e.rawClosed ==> e.doneClosed) && (e.doneClosed ==> e.acceptClosed) && (e.acceptClosed ==> e.loopFailed)
  {}

  lemma NewOk(first: uint32)
    ensures EpOk(NewEndpoint(first))
  {}

  // Channel discipline in every run of an endpoint, whatever frames its peer sends, and however
  // often its 32-bit stream IDs wrap around.
  lemma ChannelDiscipline(first: uint32, actions: seq<Action>)
    requires Run(NewEndpoint(first), actions).Some?
    ensures var e := Run(NewEndpoint(first), actions).value;
      && !e.panicked
      && (forall id | id in e.table ::
           e.table[id] < |e.heap| && e.heap[e.table[id]].id == id && !e.heap[e.table[id]].closed)
      && (forall i, j | i in e.table && j in e.table && e.table[i] == e.table[j] :: i == j)
      && |e.rawQ| <= CAPACITY && |e.acceptQ| <= CAPACITY
      && (e.rawClosed ==> e.doneClosed) && (e.doneClosed ==> e.acceptClosed) && (e.acceptClosed ==> e.loopFailed)
  {
    hide Run, EpOk;
    NewOk(first);
    RunKeeps(NewEndpoint(first), actions);
    Discipline(Run(NewEndpoint(first), actions).value);
  }
}
