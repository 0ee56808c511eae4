/**
 Raw messages, the frames with stream ID 0: `ReadData` reading the connection itself, and `ReadData`
 taking from the queue that the background read loop fills.
 */
module RawMessages {
  import opened Bytes
  import opened Frames
  import opened Options
  import opened Mux
  import Line
  import opened Network
  import opened Runs
  import opened Streams

  // ---- Reading synchronously ----

  datatype ReadResult = Data(payload: Bytes) | StreamFrame(id: uint32) | ErrorFrame(message: Bytes) | LinkError

  // One call of `ReadData` while no read loop runs: its result, and what is left on the wire. The
  // payload of a stream frame is discarded, whole or cut.
  function SyncRead(w: Bytes): (r: (ReadResult, Bytes))
    ensures r.0.Data? ==> |r.1| < |w|
  {
    match ParseFrame(w)
    case Parsed(f, rest) =>
      (if f.id != 0 then StreamFrame(f.id) else if IsError(f) then ErrorFrame(f.payload) else Data(f.payload), rest)
    case PayloadCut => (if Uint32(w[4..8]) != 0 then StreamFrame(Uint32(w[4..8])) else LinkError, [])
    case _ => (LinkError, [])
  }

  // Any number of calls, one after the other, whatever they return.
  function SyncReads(w: Bytes, n: nat): (r: (seq<ReadResult>, Bytes))
    ensures |r.0| == n
    decreases n
  {
    if n == 0 then ([], w)
    else
      var (first, rest) := SyncRead(w);
      var (more, left) := SyncReads(rest, n - 1);
      ([first] + more, left)
  }

  // A frame of a stream is reported with its ID, an Error frame with its message, and any other gives its
  // payload; in each case the frame is taken off whole.
  lemma SyncFrame(f: Frame, tail: Bytes)
    requires |f.payload| < TWO32
    ensures var (r, rest) := SyncRead(Encode(f) + tail);
      && rest == tail
      && (f.id != 0 ==> r == StreamFrame(f.id))
      && (f.id == 0 && IsError(f) ==> r == ErrorFrame(f.payload))
      && (f.id == 0 && !IsError(f) ==> r == Data(f.payload))
  {
    hide Encode;
    ParseEncode(f, tail);
  }

  // Successive calls, continued past errors, report the frames one by one, and leave the frames behind.
  lemma {:induction false} SyncFrames(fs: seq<Frame>, tail: Bytes, n: nat)
    requires Sized(fs) && n <= |fs|
    ensures var (rs, left) := SyncReads(EncodeAll(fs) + tail, n);
      && left == EncodeAll(fs[n..]) + tail
      && forall i | 0 <= i < n ::
           && (fs[i].id != 0 ==> rs[i] == StreamFrame(fs[i].id))
           && (fs[i].id == 0 && IsError(fs[i]) ==> rs[i] == ErrorFrame(fs[i].payload))
           && (fs[i].id == 0 && !IsError(fs[i]) ==> rs[i] == Data(fs[i].payload))
  {
    hide SyncRead, Encode, EncodeAll, IsError;
    if n == 0 {
      assert fs[0..] == fs;
    } else {
      var rest := EncodeAll(fs[1..]) + tail;
      FirstEncoded(fs, tail);
      SyncFrame(fs[0], rest);
      SyncFrames(fs[1..], tail, n - 1);
      assert fs[1..][n - 1..] == fs[n..];
      assert forall i | 1 <= i < n :: fs[i] == fs[1..][i - 1];
    }
  }

  lemma FirstEncoded(fs: seq<Frame>, tail: Bytes)
    requires Sized(fs) && fs != []
    ensures EncodeAll(fs) + tail == Encode(fs[0]) + (EncodeAll(fs[1..]) + tail)
  {
    hide Encode;
  }

  // On a frame that is cut, the frame of a stream is still reported if its header is whole; either way
  // the channel is read to its end.
  lemma SyncCut(f: Frame, n: nat)
    requires |f.payload| < TWO32 && n < |Encode(f)|
    ensures SyncRead(Encode(f)[..n]) == (if n >= 12 && f.id != 0 then StreamFrame(f.id) else LinkError, [])
  {
    if n >= 12 {
      var w := Encode(f)[..n];
      assert w == Header(|f.payload|, f.id, f.flags) + f.payload[..n - 12];
      ParseHeader(|f.payload|, f.id, f.flags, f.payload[..n - 12]);
    }
  }

  // What successive calls return before the first error.
  function SyncPayloads(w: Bytes): seq<Bytes>
  {
    match SyncRead(w)
    case (Data(p), rest) => [p] + SyncPayloads(rest)
    case _ => []
  }

  // A frame that synchronous reading accepts.
  predicate Plain(f: Frame) { f.id == 0 && !IsError(f) }

  function Leading(fs: seq<Frame>): seq<Bytes> {
    if fs != [] && Plain(fs[0]) then [fs[0].payload] + Leading(fs[1..]) else []
  }

  lemma {:induction false} SyncIsLeading(w: Bytes)
    ensures SyncPayloads(w) == Leading(ParseAll(w).frames)
    decreases |w|
  {
    if SyncRead(w).0.Data? {
      var p := ParseFrame(w);
      SyncIsLeading(p.rest);
      assert ParseAll(w).frames[1..] == ParseAll(p.rest).frames;
    }
  }

  // ---- Reading through the queue ----

  // The payloads of the stream-0 frames; the loop does not look at their flags.
  function RawPayloads(fs: seq<Frame>): seq<Bytes> {
    if fs == [] then []
    else
      var f := fs[|fs| - 1];
      RawPayloads(fs[..|fs| - 1]) + if f.id == 0 then [f.payload] else []
  }

  lemma {:induction false} RawAppend(a: seq<Frame>, b: seq<Frame>)
    ensures RawPayloads(a + b) == RawPayloads(a) + RawPayloads(b)
  {
    if b == [] {
      assert a + b == a;
    } else {
      assert (a + b)[..|a + b| - 1] == a + b[..|b| - 1];
      RawAppend(a, b[..|b| - 1]);
    }
  }

  function FramesRead(actions: seq<Action>): seq<Frame> {
    if actions == [] then []
    else (if actions[0].Read? then [actions[0].frame] else []) + FramesRead(actions[1..])
  }

  // The raw message in the loop's hand.
  function InHand(l: Loop): seq<Bytes> { if l.Got? && l.frame.id == 0 then [l.frame.payload] else [] }

  function RawOf(e: Endpoint): seq<Bytes> { e.rawTaken + e.rawQ + InHand(e.loop) }

  lemma SameRaw(e: Endpoint, e': Endpoint)
    requires e'.rawTaken == e.rawTaken && e'.rawQ == e.rawQ && InHand(e'.loop) == InHand(e.loop)
    ensures RawOf(e') == RawOf(e)
  {}

  lemma NotInHand(l: Loop)
    ensures !l.Got? ==> InHand(l) == []
  {}

  lemma CallsLeaveRaw(e: Endpoint, a: Action)
    requires CallStep(e, a).Some?
    ensures RawOf(CallStep(e, a).value.e) == RawOf(e)
  {
    hide RawOf, Writable, Carried;
    SameRaw(e, CallStep(e, a).value.e);
  }

  lemma StartsLeaveRaw(e: Endpoint, a: Action)
    requires StartStep(e, a).Some?
    ensures RawOf(StartStep(e, a).value.e) == RawOf(e)
  {
    hide RawOf, Writable, Carried, NewStream;
    SameRaw(e, StartStep(e, a).value.e);
  }

  lemma RecvLeavesRaw(e: Endpoint, a: Action)
    requires RecvStep(e, a).Some?
    ensures RawOf(RecvStep(e, a).value.e) == RawOf(e)
  {
    hide RawOf, Returned, Take, AtEnd;
    if a.Poll? { PollIs(e, a.ref); hide RecvStep; }
    else if a.Wake? { WakeIs(e, a.ref); hide RecvStep; }
    else if a.Drain? { DrainIs(e, a.ref); hide RecvStep; }
    SameRaw(e, RecvStep(e, a).value.e);
  }

  lemma ConnMovesRaw(e: Endpoint, a: Action)
    requires ConnStep(e, a).Some?
    ensures RawOf(ConnStep(e, a).value.e) == RawOf(e)
  {
    hide Writable, Carried;
    if a.TakeRaw? {
      assert e.rawTaken + [e.rawQ[0]] + e.rawQ[1..] == e.rawTaken + e.rawQ;
    } else {
      hide RawOf;
      SameRaw(e, ConnStep(e, a).value.e);
    }
  }

  lemma PushMovesRaw(e: Endpoint)
    requires EpOk(e) && ReadStep(e, PushRaw).Some?
    ensures RawOf(ReadStep(e, PushRaw).value.e) == RawOf(e)
  {
    RawPushed(e);
    hide EpOk;
    assert e.rawTaken + (e.rawQ + InHand(e.loop)) == RawOf(e);
  }

  lemma DispatchLeavesRaw(e: Endpoint)
    requires e.loop.Got? && e.loop.frame.id != 0
    ensures RawOf(DispatchFrame(e, e.loop.frame)) == RawOf(e)
  {
    hide DispatchFrame, IsStart, Receive, AfterReceive, ModeOf, RouteOf, NewStream, RawOf, InHand;
    var f := e.loop.frame;
    AfterReceiveRaw(e);
    if f.id !in e.table {
      if IsStart(f) { DispatchMakes(e, f); } else { DispatchLoses(e, f); }
      SameRaw(e, DispatchFrame(e, f));
    } else if e.table[f.id] < |e.heap| {
      DispatchFinds(e, f);
      SameRaw(e, DispatchFrame(e, f));
    } else {
      DispatchDangles(e, f);
    }
  }

  lemma AfterReceiveRaw(e: Endpoint)
    requires e.loop.Got? && e.loop.frame.id != 0
    ensures InHand(e.loop) == []
    ensures forall ref: nat :: InHand(AfterReceive(ref, e.loop.frame)) == []
    ensures forall ref: nat, id: uint32, m: byte, r: Bytes :: InHand(Routing(ref, id, m, r)) == []
    ensures forall id: uint32 :: InHand(Replying(id)) == []
  {}

  lemma RouteLeavesRaw(e: Endpoint)
    requires ReadStep(e, RouteStream).Some?
    ensures RawOf(ReadStep(e, RouteStream).value.e) == RawOf(e)
  {
    hide HandlerFor, RawOf, InHand;
    NotInHand(e.loop);
    NotInHand(Idle);
    if HandlerFor(e, e.loop.mode, e.loop.route).Some? {
      var s := e.heap[e.loop.ref].(phase := InUse);
      SameRaw(e, With(e, e.loop.ref, s).(loop := Idle));
    } else {
      NotInHand(Queueing(e.loop.ref, e.loop.id));
      SameRaw(e, e.(loop := Queueing(e.loop.ref, e.loop.id)));
    }
  }

  lemma QueueLeavesRaw(e: Endpoint)
    requires ReadStep(e, QueueStream).Some?
    ensures RawOf(ReadStep(e, QueueStream).value.e) == RawOf(e)
  {
    hide RawOf, InHand;
    NotInHand(e.loop);
    NotInHand(Idle);
    if e.acceptClosed {
      SameRaw(e, e.(panicked := true));
    } else {
      SameRaw(e, e.(acceptQ := e.acceptQ + [e.loop.ref], loop := Idle));
    }
  }

  lemma LoopReads(e: Endpoint, a: Action)
    requires (a.Read? || a.ReadFails?) && ReadStep(e, a).Some?
    ensures RawOf(ReadStep(e, a).value.e) == RawOf(e) + RawPayloads(if a.Read? then [a.frame] else [])
  {
    if a.Read? { assert [a.frame][..0] == []; }
  }

  lemma ReadMovesRaw(e: Endpoint, a: Action)
    requires EpOk(e) && ReadStep(e, a).Some?
    ensures RawOf(ReadStep(e, a).value.e) == RawOf(e) + RawPayloads(if a.Read? then [a.frame] else [])
  {
    hide EpOk, DispatchFrame, HandlerFor, RawOf;
    NoRaw([]);
    if a.Read? || a.ReadFails? { LoopReads(e, a); }
    else if a.PushRaw? { PushMovesRaw(e); }
    else if a.Dispatch? { DispatchLeavesRaw(e); }
    else if a.RouteStream? { RouteLeavesRaw(e); }
    else { QueueLeavesRaw(e); }
    hide ReadStep, RawPayloads;
  }

  lemma DeliverLeavesRaw(e: Endpoint)
    requires OfferStep(e, Deliver).Some?
    ensures RawOf(OfferStep(e, Deliver).value.e) == RawOf(e)
  {
    hide RawOf, InHand, AfterOffer;
    var s := e.heap[e.loop.ref];
    if s.closed {
      SameRaw(e, e.(panicked := true));
    } else {
      var e' := With(e, e.loop.ref, s.(queue := s.queue + [e.loop.frame])).(loop := AfterOffer(e.loop));
      assert OfferStep(e, Deliver) == Quiet(e');
      hide OfferStep;
      AfterOfferRaw(e.loop);
      SameRaw(e, e');
    }
  }

  lemma AfterOfferRaw(l: Loop)
    requires l.Offering?
    ensures InHand(AfterOffer(l)) == InHand(l)
  {}

  lemma OfferLeavesRaw(e: Endpoint, a: Action)
    requires OfferStep(e, a).Some?
    ensures RawOf(OfferStep(e, a).value.e) == RawOf(e)
  {
    hide RawOf, InHand, AfterOffer;
    if a.Deliver? {
      DeliverLeavesRaw(e);
      hide OfferStep;
    } else if a.Discard? {
      AfterOfferRaw(e.loop);
      SameRaw(e, e.(loop := AfterOffer(e.loop)));
    } else {
      NotInHand(e.loop);
      NotInHand(Idle);
      SameRaw(e, OfferStep(e, a).value.e);
    }
  }

  lemma ShutLeavesRaw(e: Endpoint)
    requires EndStep(e, FinishClose).Some?
    ensures RawOf(EndStep(e, FinishClose).value.e) == RawOf(e)
  {
    hide RawOf, InHand;
    NotInHand(e.loop);
    if e.heap[e.loop.ref].closed {
      SameRaw(e, e.(panicked := true));
    } else {
      FinishCloseIs(e);
      hide EndStep;
      NotInHand(AfterShut(e).loop);
      SameRaw(e, AfterShut(e));
    }
  }

  lemma EndLeavesRaw(e: Endpoint, a: Action)
    requires EndStep(e, a).Some?
    ensures RawOf(EndStep(e, a).value.e) == RawOf(e)
  {
    hide RawOf, InHand, Cancel;
    if a.FinishClose? {
      ShutLeavesRaw(e);
      hide EndStep;
    } else {
      var e' := EndStep(e, a).value.e;
      NotInHand(e.loop);
      NotInHand(e'.loop);
      SameRaw(e, e');
    }
  }

  lemma StepRaw(e: Endpoint, a: Action)
    requires EpOk(e) && Apply(e, a).Some?
    ensures RawOf(Apply(e, a).value.e) == RawOf(e) + RawPayloads(if a.Read? then [a.frame] else [])
  {
    hide EpOk, RawOf, StartStep, CallStep, RecvStep, ConnStep, ReadStep, OfferStep, EndStep;
    if ForStart(a) { StartsLeaveRaw(e, a); }
    else if ForCalls(a) { CallsLeaveRaw(e, a); }
    else if ForRecv(a) { RecvLeavesRaw(e, a); }
    else if ForConn(a) { ConnMovesRaw(e, a); }
    else if ForRead(a) { ReadMovesRaw(e, a); }
    else if ForOffer(a) { OfferLeavesRaw(e, a); }
    else { EndLeavesRaw(e, a); }
  }

  lemma {:induction false} RunRaw(e: Endpoint, actions: seq<Action>)
    requires EpOk(e) && Run(e, actions).Some?
    ensures RawOf(Run(e, actions).value) == RawOf(e) + RawPayloads(FramesRead(actions))
    decreases |actions|
  {
    hide Apply, EpOk, RawOf;
    if actions == [] {
    } else {
      StepKeeps(e, actions[0]);
      StepRaw(e, actions[0]);
      RunRaw(Apply(e, actions[0]).value.e, actions[1..]);
      RawAppend(if actions[0].Read? then [actions[0].frame] else [], FramesRead(actions[1..]));
    }
  }

  // In every run of an endpoint, whatever its peer sends: what `ReadData` returned, the queue and the
  // message in the loop's hand are exactly the payloads of the stream-0 frames read.
  lemma RawDelivery(first: uint32, actions: seq<Action>)
    requires Run(NewEndpoint(first), actions).Some?
    ensures RawOf(Run(NewEndpoint(first), actions).value) == RawPayloads(FramesRead(actions))
  {
    assert RawOf(NewEndpoint(first)) == [];
    hide Run, EpOk, RawOf, RawPayloads;
    NewOk(first);
    RunRaw(NewEndpoint(first), actions);
  }

  // When `ReadData` returns an error: the queue is closed and empty.
  predicate ReadDataFails(e: Endpoint) { e.rawClosed && e.rawQ == [] }

  // The run reads the frames on the wire `w` in order, and its read fails only after the last.
  ghost predicate ReadsWire(w: Bytes, first: uint32, actions: seq<Action>) {
    && Run(NewEndpoint(first), actions).Some?
    && FramesRead(actions) <= ParseAll(w).frames
    && (Run(NewEndpoint(first), actions).value.loopFailed ==> FramesRead(actions) == ParseAll(w).frames)
  }

  lemma ClosedIsFailed(first: uint32, actions: seq<Action>)
    requires Run(NewEndpoint(first), actions).Some?
    ensures var e := Run(NewEndpoint(first), actions).value; ReadDataFails(e) ==> e.loopFailed && e.rawTaken == RawOf(e)
  {
    RunKeeps(NewEndpoint(first), actions);
    hide Run;
  }

  // With other frames mixed in, queued reads return a prefix of the stream-0 payloads, and all of
  // them before an error.
  lemma QueuedReads(w: Bytes, first: uint32, actions: seq<Action>)
    requires ReadsWire(w, first, actions)
    ensures var e, all := Run(NewEndpoint(first), actions).value, RawPayloads(ParseAll(w).frames);
      e.rawTaken <= all && (ReadDataFails(e) ==> e.rawTaken == all)
  {
    hide RawPayloads, ReadDataFails, Run, ParseAll, FramesRead;
    var fs, read := ParseAll(w).frames, FramesRead(actions);
    RawDelivery(first, actions);
    ClosedIsFailed(first, actions);
    RawAppend(read, fs[|read|..]);
    assert read + fs[|read|..] == fs;
  }

  // A refused frame is not followed by, and is not itself, a frame of stream 0.
  predicate RefusedLast(fs: seq<Frame>) {
    forall i, j | 0 <= i <= j < |fs| && !Plain(fs[i]) :: fs[j].id != 0
  }

  lemma {:induction false} NoRaw(fs: seq<Frame>)
    ensures RawPayloads(fs) == [] <==> forall i | 0 <= i < |fs| :: fs[i].id != 0
  {
    if fs != [] {
      NoRaw(fs[..|fs| - 1]);
      assert forall i | 0 <= i < |fs| - 1 :: fs[..|fs| - 1][i] == fs[i];
    }
  }

  lemma {:induction false} LeadingIsRaw(fs: seq<Frame>)
    ensures Leading(fs) <= RawPayloads(fs)
    ensures Leading(fs) == RawPayloads(fs) <==> RefusedLast(fs)
  {
    if fs != [] {
      var rest := fs[1..];
      if Plain(fs[0]) {
        RawAppend(fs[..1], rest);
        assert fs == fs[..1] + rest && RawPayloads(fs[..1][..0]) == [];
        assert RawPayloads(fs) == [fs[0].payload] + RawPayloads(rest);
        LeadingIsRaw(rest);
        assert RefusedLast(fs) <==> RefusedLast(rest) by {
          assert forall i | 0 <= i < |rest| :: rest[i] == fs[i + 1];
        }
      } else {
        NoRaw(fs);
      }
    }
  }

  // On a wire of stream-0 frames without the Error flag, reads through the queue return what
  // synchronous reads return, in every interleaving of the loop and the reader. Once they report an
  // error, the two agree exactly if no stream-0 frame comes after, or is, one that synchronous
  // reading refuses.
  lemma QueuedRefinesSync(w: Bytes, first: uint32, actions: seq<Action>)
    requires ReadsWire(w, first, actions)
    ensures var e, fs := Run(NewEndpoint(first), actions).value, ParseAll(w).frames;
      && (RefusedLast(fs) ==> e.rawTaken <= SyncPayloads(w))
      && (ReadDataFails(e) ==> SyncPayloads(w) <= e.rawTaken && (e.rawTaken == SyncPayloads(w) <==> RefusedLast(fs)))
  {
    hide RawPayloads, ReadDataFails, Run, ParseAll, SyncPayloads, ReadsWire, RefusedLast;
    QueuedReads(w, first, actions);
    SyncIsLeading(w);
    LeadingIsRaw(ParseAll(w).frames);
  }

  // ---- Between two endpoints ----

  // The raw messages a side wrote, as they were handed to `WriteData`.
  function RawWritten(steps: seq<Step>, side: Side): seq<Bytes> {
    if steps == [] then []
    else
      var (who, a) := steps[|steps| - 1];
      RawWritten(steps[..|steps| - 1], side) + if who == side && a.WriteRaw? && a.ok then [a.payload] else []
  }

  // Only `WriteData` of the connection writes frames of stream 0.
  lemma SentId(e: Endpoint, a: Action)
    requires EpOk(e) && IdsOk(e) && Apply(e, a).Some?
    ensures var sent := Apply(e, a).value.sent;
      && (a.WriteRaw? && a.ok ==> Writable(a.payload) && sent == Some(Frame(0, 0, Carried(a.payload))))
      && (!(a.WriteRaw? && a.ok) && sent.Some? ==> sent.value.id != 0)
  {
    hide Writable, Carried, EpOk, IdsOk, StartStep, CallStep, RecvStep, ConnStep, ReadStep, OfferStep, EndStep;
    if ForStart(a) { StartSends(e, a); }
    else if ForCalls(a) { CallSends(e, a); }
    else if ForRecv(a) { RecvSends(e, a); }
    else if ForConn(a) { ConnSends(e, a); }
    else if ForRead(a) { ReadSends(e, a); }
    else if ForOffer(a) { OfferSends(e, a); }
    else { EndSends(e, a); }
  }

  lemma StartSends(e: Endpoint, a: Action)
    requires IdsOk(e) && StartStep(e, a).Some?
    ensures StartStep(e, a).value.sent.Some? ==> StartStep(e, a).value.sent.value.id != 0
  {
    hide Writable, Carried, Unique, Issued, Own;
  }

  lemma CallSends(e: Endpoint, a: Action)
    requires IdsOk(e) && CallStep(e, a).Some?
    ensures CallStep(e, a).value.sent.Some? ==> CallStep(e, a).value.sent.value.id != 0
  {
    hide Writable, Carried, Unique, Issued, Own;
  }

  lemma RecvSends(e: Endpoint, a: Action)
    requires RecvStep(e, a).Some?
    ensures RecvStep(e, a).value.sent.None?
  {
    hide Take, AtEnd;
  }

  lemma ConnSends(e: Endpoint, a: Action)
    requires ConnStep(e, a).Some?
    ensures var sent := ConnStep(e, a).value.sent;
      if a.WriteRaw? && a.ok then Writable(a.payload) && sent == Some(Frame(0, 0, Carried(a.payload))) else sent.None?
  {
    hide Writable, Carried, Cancel;
  }

  lemma ReadSends(e: Endpoint, a: Action)
    requires ReadStep(e, a).Some?
    ensures ReadStep(e, a).value.sent.None?
  {
    hide DispatchFrame, HandlerFor;
  }

  lemma OfferSends(e: Endpoint, a: Action)
    requires EpOk(e) && OfferStep(e, a).Some?
    ensures OfferStep(e, a).value.sent.Some? ==> OfferStep(e, a).value.sent.value.id != 0
  {
    assert e.loop.Replying? ==> e.loop.id != 0;
    hide EpOk;
  }

  lemma EndSends(e: Endpoint, a: Action)
    requires EndStep(e, a).Some?
    ensures EndStep(e, a).value.sent.None?
  {
    hide Cancel;
  }

  // What the step of a side adds to the raw messages it wrote.
  function Adds(a: Action): seq<Bytes> { if a.WriteRaw? && a.ok then [a.payload] else [] }

  lemma AddsRaw(log: seq<Frame>, a: Action, sent: Option<Frame>)
    requires a.WriteRaw? && a.ok ==> sent == Some(Frame(0, 0, Carried(a.payload)))
    requires !(a.WriteRaw? && a.ok) && sent.Some? ==> sent.value.id != 0
    ensures RawPayloads(log + Line.SentFrames(sent)) == RawPayloads(log) + CarriedAll(Adds(a))
  {
    RawAppend(log, Line.SentFrames(sent));
    assert RawPayloads([]) == [];
    assert sent.Some? ==> [sent.value][..0] == [];
    assert RawPayloads(Line.SentFrames(sent)) == CarriedAll(Adds(a));
  }

  lemma SideRaw(me: Party, other: Party, a: Action)
    requires PartyOk(me, other) && PartyStep(me, other, a).Some?
    ensures var me' := PartyStep(me, other, a).value;
      && AllWritable(Adds(a))
      && RawPayloads(me'.log) == RawPayloads(me.log) + CarriedAll(Adds(a))
      && (RawOf(me.e) == RawPayloads(other.log[..me.read]) ==>
            me'.read <= |other.log| && RawOf(me'.e) == RawPayloads(other.log[..me'.read]))
  {
    hide EpOk, IdsOk, PartyStep, Apply, RawOf, CarriedAll, Carried, Writable, RawPayloads;
    var me' := PartyStep(me, other, a).value;
    PartyStepParts(me, other, a);
    StepRaw(me.e, a);
    SentId(me.e, a);
    AddsRaw(me.log, a, Apply(me.e, a).value.sent);
    if a.Read? {
      assert other.log[..me'.read] == other.log[..me.read] + [a.frame];
      RawAppend(other.log[..me.read], [a.frame]);
    } else {
      NoRaw([]);
    }
  }

  ghost predicate RawOk(me: Party, other: Party, written: seq<Bytes>) {
    && me.read <= |other.log|
    && RawOf(me.e) == RawPayloads(other.log[..me.read])
    && RawPayloads(other.log) == CarriedAll(written) && AllWritable(written)
  }

  lemma MoreCarried(a: seq<Bytes>, b: seq<Bytes>)
    requires AllWritable(a) && AllWritable(b)
    ensures CarriedAll(a + b) == CarriedAll(a) + CarriedAll(b) && AllWritable(a + b)
  {
    hide Carried, Writable;
  }

  lemma RawPair(me: Party, other: Party, a: Action, mine: seq<Bytes>, theirs: seq<Bytes>)
    requires PartyOk(me, other) && PartyStep(me, other, a).Some?
    requires RawOk(me, other, theirs) && RawOk(other, me, mine)
    ensures var me' := PartyStep(me, other, a).value;
      RawOk(me', other, theirs) && RawOk(other, me', mine + Adds(a))
  {
    hide PartyOk, PartyStep, RawPayloads, RawOf, CarriedAll, AllWritable, Adds;
    SideRaw(me, other, a);
    LogGrows(me, other, a);
    MoreCarried(mine, Adds(a));
    assert PartyStep(me, other, a).value.log[..other.read] == me.log[..other.read];
  }

  lemma RawStep(m: Net, side: Side, a: Action, byHost: seq<Bytes>, byPlugin: seq<Bytes>)
    requires NetOk(m) && NetStep(m, side, a).Some?
    requires RawOk(m.host, m.plugin, byPlugin) && RawOk(m.plugin, m.host, byHost)
    ensures var n := NetStep(m, side, a).value;
      && RawOk(n.host, n.plugin, byPlugin + if side.Plugin? then Adds(a) else [])
      && RawOk(n.plugin, n.host, byHost + if side.Host? then Adds(a) else [])
  {
    assert PartyOk(m.host, m.plugin) && PartyOk(m.plugin, m.host);
    assert byHost + [] == byHost && byPlugin + [] == byPlugin;
    hide PairOk, PartyOk, PartyStep, RawOk, Adds;
    if side.Host? { RawPair(m.host, m.plugin, a, byHost, byPlugin); }
    else { RawPair(m.plugin, m.host, a, byPlugin, byHost); }
  }

  lemma LogGrows(me: Party, other: Party, a: Action)
    requires PartyStep(me, other, a).Some?
    ensures me.log <= PartyStep(me, other, a).value.log
  {
    PartyStepParts(me, other, a);
    hide PartyStep;
  }

  lemma WrittenGrows(steps: seq<Step>, side: Side)
    requires steps != []
    ensures var (who, a) := steps[|steps| - 1];
      RawWritten(steps, side) == RawWritten(steps[..|steps| - 1], side) + if who == side then Adds(a) else []
  {}

  lemma NewRaw()
    ensures RawOk(NewNet().host, NewNet().plugin, []) && RawOk(NewNet().plugin, NewNet().host, [])
  {}

  lemma {:induction false} RawRun(steps: seq<Step>)
    requires NetRun(NewNet(), steps).Some? && Bounded(NetRun(NewNet(), steps).value)
    ensures var n := NetRun(NewNet(), steps).value;
      && RawOk(n.host, n.plugin, RawWritten(steps, Plugin)) && RawOk(n.plugin, n.host, RawWritten(steps, Host))
  {
    if steps == [] {
      NewRaw();
    } else {
      hide NetOk, NetStep, RawOk, Bounded, RawWritten, Adds;
      var (side, a) := steps[|steps| - 1];
      var m := NetRun(NewNet(), steps[..|steps| - 1]).value;
      CallsGrow(m, side, a);
      RawRun(steps[..|steps| - 1]);
      RunOk(steps[..|steps| - 1]);
      WrittenGrows(steps, Host);
      WrittenGrows(steps, Plugin);
      RawStep(m, side, a, RawWritten(steps[..|steps| - 1], Host), RawWritten(steps[..|steps| - 1], Plugin));
    }
  }

  // Raw messages cross a connection in order, none lost, doubled or mixed up with stream frames: what
  // one side has taken, queued or in hand is the beginning of what the other wrote, each message as
  // far as a frame carries it; they are the messages themselves exactly if all fit into a frame.
  lemma RawEndToEnd(steps: seq<Step>, side: Side)
    requires NetRun(NewNet(), steps).Some? && Bounded(NetRun(NewNet(), steps).value)
    ensures var written := RawWritten(steps, if side.Host? then Plugin else Host);
      && RawOf(Me(NetRun(NewNet(), steps).value, side).e) <= CarriedAll(written)
      && (CarriedAll(written) == written <==> AllFit(written))
  {
    RawRun(steps);
    var n := NetRun(NewNet(), steps).value;
    hide NetRun, RawOk, RawOf, RawWritten, Bounded, CarriedAll, AllFit;
    if side.Host? {
      RawBeginning(n.host, n.plugin, RawWritten(steps, Plugin));
    } else {
      RawBeginning(n.plugin, n.host, RawWritten(steps, Host));
    }
  }

  // ---- And they can arrive ----

  function RawFrames(ps: seq<Bytes>): (fs: seq<Frame>)
    ensures |fs| == |ps| && forall i | 0 <= i < |ps| :: fs[i] == Frame(0, 0, Carried(ps[i]))
  {
    seq(|ps|, i requires 0 <= i < |ps| => Frame(0, 0, Carried(ps[i])))
  }

  // Each message is written, read, queued and taken before the next.
  function Crossing(ps: seq<Bytes>): seq<Step> {
    if ps == [] then []
    else
      var p := ps[|ps| - 1];
      Crossing(ps[..|ps| - 1]) + [(Host, WriteRaw(p, true))] + [(Plugin, Read(Frame(0, 0, Carried(p))))]
      + [(Plugin, PushRaw)] + [(Plugin, TakeRaw)]
  }

  // The two endpoints after these messages have crossed.
  function Crossed(ps: seq<Bytes>): Net {
    Net(Party(NewEndpoint(1), RawFrames(ps), 0),
        Party(NewEndpoint(2).(rawTaken := CarriedAll(ps)), [], |ps|))
  }

  lemma More(steps: seq<Step>, side: Side, a: Action)
    requires NetRun(NewNet(), steps).Some?
    ensures NetRun(NewNet(), steps + [(side, a)]) == NetStep(NetRun(NewNet(), steps).value, side, a)
    ensures RawWritten(steps + [(side, a)], Host)
         == RawWritten(steps, Host) + if side.Host? && a.WriteRaw? && a.ok then [a.payload] else []
  {
    hide NetStep;
    assert (steps + [(side, a)])[..|steps|] == steps;
  }

  lemma OneCrosses(ps: seq<Bytes>, p: Bytes)
    requires Writable(p)
    ensures var f := Frame(0, 0, Carried(p));
      var written := Crossed(ps).(host := Party(NewEndpoint(1), RawFrames(ps) + [f], 0));
      var got := written.(plugin := Party(NewEndpoint(2).(rawTaken := CarriedAll(ps), loop := Got(f)), [], |ps| + 1));
      var queued := written.(plugin :=
          Party(NewEndpoint(2).(rawTaken := CarriedAll(ps), rawQ := [f.payload]), [], |ps| + 1));
      && NetStep(Crossed(ps), Host, WriteRaw(p, true)) == Some(written)
      && NetStep(written, Plugin, Read(f)) == Some(got)
      && NetStep(got, Plugin, PushRaw) == Some(queued)
      && NetStep(queued, Plugin, TakeRaw) == Some(Crossed(ps + [p]))
  {
    hide PartyStep, Carried, Writable;
    var f, e := Frame(0, 0, Carried(p)), NewEndpoint(2).(rawTaken := CarriedAll(ps));
    var host := Party(NewEndpoint(1), RawFrames(ps) + [f], 0);
    MessageWritten(Crossed(ps).host, Crossed(ps).plugin, p);
    MessageRead(Crossed(ps).plugin, host, f);
    MessageQueued(Party(e.(loop := Got(f)), [], |ps| + 1), host, f);
    MessageTaken(Party(e.(rawQ := [f.payload]), [], |ps| + 1), host);
    assert RawFrames(ps) + [f] == RawFrames(ps + [p]);
    assert CarriedAll(ps) + [f.payload] == CarriedAll(ps + [p]);
    assert [f.payload][1..] == [];
  }

  lemma MessageWritten(me: Party, other: Party, p: Bytes)
    requires Writable(p)
    ensures PartyStep(me, other, WriteRaw(p, true)) == Some(me.(log := me.log + [Frame(0, 0, Carried(p))]))
  {
    hide Writable, Carried;
  }

  lemma MessageRead(me: Party, other: Party, f: Frame)
    requires me.e.loop.Idle? && me.read < |other.log| && other.log[me.read] == f
    ensures PartyStep(me, other, Read(f)) == Some(Party(me.e.(loop := Got(f)), me.log, me.read + 1))
  {}

  lemma MessageQueued(me: Party, other: Party, f: Frame)
    requires me.e.loop == Got(f) && f.id == 0 && me.e.rawQ == [] && !me.e.rawClosed
    ensures PartyStep(me, other, PushRaw) == Some(me.(e := me.e.(rawQ := [f.payload], loop := Idle)))
  {
    assert me.e.rawQ + [f.payload] == [f.payload];
    assert me.log + [] == me.log;
  }

  lemma MessageTaken(me: Party, other: Party)
    requires me.e.rawQ != []
    ensures PartyStep(me, other, TakeRaw)
         == Some(me.(e := me.e.(rawQ := me.e.rawQ[1..], rawTaken := me.e.rawTaken + [me.e.rawQ[0]])))
  {
    assert me.log + [] == me.log;
  }

  lemma {:induction false} CrossingCrosses(ps: seq<Bytes>)
    requires AllWritable(ps)
    ensures NetRun(NewNet(), Crossing(ps)) == Some(Crossed(ps)) && RawWritten(Crossing(ps), Host) == ps
  {
    hide NetStep, Crossed, Carried, Writable;
    if ps == [] {
      NoneCrossed();
    } else {
      var before, p := ps[..|ps| - 1], ps[|ps| - 1];
      CrossingCrosses(before);
      OneCrosses(before, p);
      assert before + [p] == ps;
      var steps := Crossing(before);
      More(steps, Host, WriteRaw(p, true));
      steps := steps + [(Host, WriteRaw(p, true))];
      More(steps, Plugin, Read(Frame(0, 0, Carried(p))));
      steps := steps + [(Plugin, Read(Frame(0, 0, Carried(p))))];
      More(steps, Plugin, PushRaw);
      More(steps + [(Plugin, PushRaw)], Plugin, TakeRaw);
      hide RawWritten;
    }
  }

  lemma {:induction false} WrittenIsWritable(steps: seq<Step>, side: Side)
    requires NetRun(NewNet(), steps).Some?
    ensures AllWritable(RawWritten(steps, side))
  {
    hide Writable, NetStep;
    if steps != [] {
      WrittenIsWritable(steps[..|steps| - 1], side);
      var n, who, a := NetRun(NewNet(), steps[..|steps| - 1]).value, steps[|steps| - 1].0, steps[|steps| - 1].1;
      if a.WriteRaw? { WriteIsWritable(n, who, a); }
    }
  }

  lemma WriteIsWritable(n: Net, side: Side, a: Action)
    requires NetStep(n, side, a).Some? && a.WriteRaw?
    ensures Writable(a.payload)
  {
    hide Writable, Carried;
  }

  // The host wrote these messages, and the plugin has taken them all.
  predicate Arrived(steps: seq<Step>, ps: seq<Bytes>) {
    && NetRun(NewNet(), steps).Some? && RawWritten(steps, Host) == ps
    && NetRun(NewNet(), steps).value.plugin.e.rawTaken == CarriedAll(ps)
  }

  // Messages have a run in which the other side takes them all if and only if each can be written.
  lemma RawCanArrive(ps: seq<Bytes>)
    ensures (exists steps :: Arrived(steps, ps)) <==> AllWritable(ps)
  {
    hide NetRun, Writable, Carried, RawWritten, Crossing;
    if AllWritable(ps) {
      CrossingCrosses(ps);
      assert Arrived(Crossing(ps), ps);
    }
    if steps :| Arrived(steps, ps) { WrittenIsWritable(steps, Host); }
  }

  lemma NoneCrossed()
    ensures Crossed([]) == NewNet()
  {}

  lemma RawBeginning(me: Party, other: Party, written: seq<Bytes>)
    requires RawOk(me, other, written)
    ensures RawOf(me.e) <= CarriedAll(written) && (CarriedAll(written) == written <==> AllFit(written))
  {
    hide RawPayloads, RawOf, CarriedAll, AllWritable, AllFit;
    RawAppend(other.log[..me.read], other.log[me.read..]);
    assert other.log[..me.read] + other.log[me.read..] == other.log;
    AllCarriedExactly(written);
  }
}
