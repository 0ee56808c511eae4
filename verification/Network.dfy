/**
 Two endpoints joined by two FIFO wires. A step is one action of one endpoint; reading takes the
 next frame of the other endpoint's log, writing appends to one's own. For each stream ID, what
 the two endpoints do is a run of the `Line` of that ID.
 */
module Network {
  import opened Bytes
  import opened Frames
  import opened Options
  import opened Mux
  import opened Line

  datatype Side = Host | Plugin

  // `log` is every frame the party wrote; `read` counts the frames of the other's log it has read.
  datatype Party = Party(e: Endpoint, log: seq<Frame>, read: nat)

  datatype Net = Net(host: Party, plugin: Party)

  const HALF: nat := 0x8000_0000

  function NewNet(): Net {
    Net(Party(NewEndpoint(1), [], 0), Party(NewEndpoint(2), [], 0))
  }

  function PartyStep(me: Party, other: Party, a: Action): Option<Party>
  {
    match Apply(me.e, a)
    case None => None
    case Some(Effect(e, sent)) =>
      if a.Read? then
        if me.read < |other.log| && other.log[me.read] == a.frame then Some(Party(e, me.log, me.read + 1)) else None
      else Some(Party(e, me.log + SentFrames(sent), me.read))
  }

  function NetStep(n: Net, side: Side, a: Action): Option<Net>
  {
    match side
    case Host => (match PartyStep(n.host, n.plugin, a) case None => None case Some(p) => Some(n.(host := p)))
    case Plugin => (match PartyStep(n.plugin, n.host, a) case None => None case Some(p) => Some(n.(plugin := p)))
  }

  type Step = (Side, Action)

  function NetRun(n: Net, steps: seq<Step>): Option<Net>
  {
    if steps == [] then Some(n)
    else match NetRun(n, steps[..|steps| - 1])
         case None => None
         case Some(m) => NetStep(m, steps[|steps| - 1].0, steps[|steps| - 1].1)
  }

  // Neither endpoint has called `startStream` 2^31 times.
  predicate Bounded(n: Net) { n.host.e.calls < HALF && n.plugin.e.calls < HALF }

  // ---- The frames of one stream ----

  function Of(fs: seq<Frame>, x: uint32): (r: seq<Frame>)
    ensures |r| <= |fs|
  {
    if fs == [] then []
    else
      var f := fs[|fs| - 1];
      Of(fs[..|fs| - 1], x) + if f.id == x then [f] else []
  }

  lemma OfOne(fs: seq<Frame>, f: Frame, x: uint32)
    ensures Of(fs + [f], x) == Of(fs, x) + if f.id == x then [f] else []
  {
    assert (fs + [f])[..|fs|] == fs;
  }

  lemma {:induction false} OfPrefix(a: seq<Frame>, b: seq<Frame>, x: uint32)
    requires a <= b
    ensures Of(a, x) <= Of(b, x)
  {
    if a == b {
    } else {
      assert a <= b[..|b| - 1];
      OfPrefix(a, b[..|b| - 1], x);
    }
  }

  // ---- One endpoint seen from one stream ----

  ghost predicate Unique(heap: seq<Stream>) {
    forall i, j | 0 <= i < |heap| && 0 <= j < |heap| && heap[i].id == heap[j].id :: i == j
  }

  ghost predicate Absent(heap: seq<Stream>, x: uint32) {
    forall i | 0 <= i < |heap| :: heap[i].id != x
  }

  ghost function StreamOf(heap: seq<Stream>, x: uint32): (s: Option<Stream>)
    ensures s.None? <==> Absent(heap, x)
  {
    if i :| 0 <= i < |heap| && heap[i].id == x then Some(heap[i]) else None
  }

  // The one stream with an ID is found, and a change to a stream is seen under its own ID only.
  lemma StreamAt(heap: seq<Stream>, r: nat)
    requires Unique(heap) && r < |heap|
    ensures StreamOf(heap, heap[r].id) == Some(heap[r])
  {}

  lemma HeapChange(heap: seq<Stream>, r: nat, s: Stream, x: uint32)
    requires Unique(heap) && r < |heap| && s.id == heap[r].id
    ensures Unique(heap[r := s])
    ensures StreamOf(heap, s.id) == Some(heap[r])
    ensures StreamOf(heap[r := s], x) == if x == s.id then Some(s) else StreamOf(heap, x)
  {
    var heap' := heap[r := s];
    assert forall i | 0 <= i < |heap| :: heap'[i].id == heap[i].id;
    if x == s.id {
      StreamAt(heap', r);
    } else if i :| 0 <= i < |heap| && heap[i].id == x {
      StreamAt(heap, i);
      StreamAt(heap', i);
    } else {
      assert Absent(heap', x);
    }
  }

  lemma HeapGrowth(heap: seq<Stream>, s: Stream, x: uint32)
    requires Unique(heap + [s])
    ensures Unique(heap) && Absent(heap, s.id)
    ensures StreamOf(heap + [s], x) == if x == s.id then Some(s) else StreamOf(heap, x)
  {
    var heap' := heap + [s];
    assert forall i | 0 <= i < |heap| :: heap'[i] == heap[i];
    assert heap'[|heap|] == s;
    if x == s.id {
      StreamAt(heap', |heap|);
    } else if i :| 0 <= i < |heap| && heap[i].id == x {
      StreamAt(heap, i);
      StreamAt(heap', i);
    } else {
      assert Absent(heap', x);
    }
  }

  function SpotOf(l: Loop, x: uint32): Spot
  {
    match l
    case Got(f) => if f.id == x then Holding(f) else Elsewhere
    case Routing(_, id, _, _) => if id == x then Placing else Elsewhere
    case Queueing(_, id) => if id == x then Placing else Elsewhere
    case Replying(id) => if id == x then Answering else Elsewhere
    case Offering(_, f, failing) => if f.id == x then Handing(f, failing) else Elsewhere
    case Unlinking(_, id) => if id == x then Cutting else Elsewhere
    case HalfClosed(_, id, _) => if id == x then Shutting else Elsewhere
    case _ => Elsewhere
  }

  ghost function View(e: Endpoint, x: uint32): Port {
    Port(StreamOf(e.heap, x), x in e.table, SpotOf(e.loop, x))
  }

  function IdOf(e: Endpoint, ref: nat): uint32 {
    if ref < |e.heap| then e.heap[ref].id else 0
  }

  // The handler that the read loop finds for a new stream.
  function HandlerOf(e: Endpoint): Option<nat>
    requires e.loop.Routing?
  {
    HandlerFor(e, e.loop.mode, e.loop.route)
  }

  // The stream an action is about; 0 if it is about none.
  function Subject(e: Endpoint, a: Action): uint32
  {
    match a
    case Register(id, _, _) => id
    case WriteStart(ref, _) => IdOf(e, ref)
    case DropStart(ref) => IdOf(e, ref)
    case BeginSend(ref, _) => IdOf(e, ref)
    case WriteData(ref, _, _) => IdOf(e, ref)
    case WriteEnd(ref, _) => IdOf(e, ref)
    case BeginClose(ref) => IdOf(e, ref)
    case WriteClose(ref, _) => IdOf(e, ref)
    case Remove(ref) => IdOf(e, ref)
    case Poll(ref) => IdOf(e, ref)
    case Block(ref) => IdOf(e, ref)
    case Wake(ref) => IdOf(e, ref)
    case GiveUp(ref) => IdOf(e, ref)
    case Drain(ref) => IdOf(e, ref)
    case Quit(ref) => IdOf(e, ref)
    case TakeAccepted => if e.acceptQ != [] then IdOf(e, e.acceptQ[0]) else 0
    case CancelOne(id) => id
    case Read(f) => f.id
    case Dispatch => if e.loop.Got? then e.loop.frame.id else 0
    case RouteStream => if e.loop.Routing? && HandlerOf(e).Some? then e.loop.id else 0
    case QueueStream => if e.loop.Queueing? then e.loop.id else 0
    case Deliver => if e.loop.Offering? then e.loop.frame.id else 0
    case Discard => if e.loop.Offering? then e.loop.frame.id else 0
    case Unlink => if e.loop.Unlinking? then e.loop.id else 0
    case Reply(_) => if e.loop.Replying? then e.loop.id else 0
    case FinishClose => if e.loop.HalfClosed? then e.loop.id else 0
    case SweepOne(id) => id
    case _ => 0
  }

  // What the action is, on the line of its subject.
  function EventOf(e: Endpoint, a: Action): Event
  {
    match a
    case Register(_, mode, route) => Registers([mode] + route)
    case WriteStart(_, ok) => StartWritten(ok)
    case DropStart(_) => StartDropped
    case BeginSend(_, payload) => SendBegins(payload)
    case WriteData(_, payload, ok) => DataWritten(payload, ok)
    case WriteEnd(_, ok) => EndWritten(ok)
    case BeginClose(_) => CloseBegins
    case WriteClose(_, ok) => CloseWritten(ok)
    case Remove(_) => Removed
    case Poll(_) => Polled
    case Block(_) => Blocked
    case Wake(_) => Woken
    case GiveUp(_) => GaveUp
    case Drain(_) => Drained
    case Quit(_) => Left
    case TakeAccepted => Claimed
    case CancelOne(_) => ConnCancels
    case Read(f) => Reads(f)
    case Dispatch => Dispatched
    case RouteStream => Routed(if e.loop.Routing? then HandlerOf(e) else None)
    case QueueStream => Routed(None)
    case Deliver => Delivered
    case Discard => Discarded
    case Unlink => Unlinked
    case Reply(ok) => Replied(ok)
    case FinishClose => Shut
    case SweepOne(_) => SweepCancels
    case _ => Left
  }

  // A step of an endpoint with result `r` is, on the line of its subject, the step `EventOf` names;
  // on every other line it is no step.
  ghost predicate Follows(e: Endpoint, a: Action, r: Effect, x: uint32)
  {
    var id := Subject(e, a);
    && (r.sent.Some? ==> r.sent.value.id == id)
    && (x == id ==> PortStep(x, View(e, x), EventOf(e, a)) == Some(PortEffect(View(r.e, x), r.sent)))
    && (x != id ==> View(r.e, x) == View(e, x))
  }

  // The view of the stream that a step changes, and of any other.
  lemma ViewChanged(e: Endpoint, e': Endpoint, r: nat, s: Stream)
    requires Unique(e.heap) && r < |e.heap| && s.id == e.heap[r].id && e'.heap == e.heap[r := s]
    ensures View(e, s.id) == Port(Some(e.heap[r]), s.id in e.table, SpotOf(e.loop, s.id))
    ensures View(e', s.id) == Port(Some(s), s.id in e'.table, SpotOf(e'.loop, s.id))
  {
    hide Unique, StreamOf, Absent, SpotOf;
    HeapChange(e.heap, r, s, s.id);
  }

  lemma ViewApart(e: Endpoint, e': Endpoint, r: nat, s: Stream, x: uint32)
    requires Unique(e.heap) && r < |e.heap| && s.id == e.heap[r].id && e'.heap == e.heap[r := s] && x != s.id
    requires (x in e'.table <==> x in e.table) && SpotOf(e'.loop, x) == SpotOf(e.loop, x)
    ensures View(e', x) == View(e, x)
  {
    hide Unique, StreamOf, Absent, SpotOf;
    HeapChange(e.heap, r, s, x);
  }

  lemma ViewMade(e: Endpoint, e': Endpoint, s: Stream, x: uint32)
    requires Unique(e'.heap) && e'.heap == e.heap + [s]
    ensures View(e, s.id) == Port(None, s.id in e.table, SpotOf(e.loop, s.id))
    ensures View(e', x) == Port(if x == s.id then Some(s) else StreamOf(e.heap, x), x in e'.table, SpotOf(e'.loop, x))
  {
    hide Unique, Absent, SpotOf;
    HeapGrowth(e.heap, s, x);
  }

  lemma RegisterNames(e: Endpoint, id: uint32, mode: byte, route: Bytes)
    ensures Subject(e, Register(id, mode, route)) == id
    ensures EventOf(e, Register(id, mode, route)) == Registers([mode] + route)
  {}

  lemma RegisterFollows(e: Endpoint, id: uint32, mode: byte, route: Bytes, x: uint32)
    requires EpOk(e) && StartStep(e, Register(id, mode, route)).Some?
    requires Unique(StartStep(e, Register(id, mode, route)).value.e.heap)
    ensures Follows(e, Register(id, mode, route), StartStep(e, Register(id, mode, route)).value, x)
  {
    hide EpOk, Unique, StreamOf, Absent, Subject, EventOf, RecvStepOf, LoopStepOf;
    RegisterNames(e, id, mode, route);
    ViewMade(e, StartStep(e, Register(id, mode, route)).value.e, NewStream(id, [mode] + route, Starting), x);
  }

  lemma WriteStartNames(e: Endpoint, ref: nat, ok: bool)
    ensures Subject(e, WriteStart(ref, ok)) == IdOf(e, ref)
    ensures EventOf(e, WriteStart(ref, ok)) == StartWritten(ok)
  {}

  lemma WriteStartFollows(e: Endpoint, ref: nat, ok: bool, x: uint32)
    requires EpOk(e) && Unique(e.heap) && StartStep(e, WriteStart(ref, ok)).Some?
    ensures Follows(e, WriteStart(ref, ok), StartStep(e, WriteStart(ref, ok)).value, x)
  {
    hide EpOk, Unique, View, Subject, EventOf, RecvStepOf, LoopStepOf, Writable, Carried;
    WriteStartNames(e, ref, ok);
    var e' := StartStep(e, WriteStart(ref, ok)).value.e;
    ViewChanged(e, e', ref, e.heap[ref].(phase := if ok then InUse else StartFailed));
    if x != IdOf(e, ref) { ViewApart(e, e', ref, e.heap[ref].(phase := if ok then InUse else StartFailed), x); }
  }

  lemma DropStartNames(e: Endpoint, ref: nat)
    ensures Subject(e, DropStart(ref)) == IdOf(e, ref) && EventOf(e, DropStart(ref)) == StartDropped
  {}

  lemma DropStartFollows(e: Endpoint, ref: nat, x: uint32)
    requires EpOk(e) && Unique(e.heap) && StartStep(e, DropStart(ref)).Some?
    ensures Follows(e, DropStart(ref), StartStep(e, DropStart(ref)).value, x)
  {
    hide EpOk, Unique, View, Subject, EventOf, RecvStepOf, LoopStepOf, Writable, Carried;
    DropStartNames(e, ref);
    var e' := StartStep(e, DropStart(ref)).value.e;
    ViewChanged(e, e', ref, e.heap[ref].(phase := Abandoned));
    if x != IdOf(e, ref) { ViewApart(e, e', ref, e.heap[ref].(phase := Abandoned), x); }
  }

  lemma BeginSendNames(e: Endpoint, ref: nat, payload: Bytes)
    ensures Subject(e, BeginSend(ref, payload)) == IdOf(e, ref)
    ensures EventOf(e, BeginSend(ref, payload)) == SendBegins(payload)
  {}

  lemma BeginSendFollows(e: Endpoint, ref: nat, payload: Bytes, x: uint32)
    requires EpOk(e) && Unique(e.heap) && CallStep(e, BeginSend(ref, payload)).Some?
    ensures Follows(e, BeginSend(ref, payload), CallStep(e, BeginSend(ref, payload)).value, x)
  {
    hide EpOk, Unique, Absent, StreamOf, Subject, EventOf, RecvStepOf, LoopStepOf, Writable, Carried;
    BeginSendNames(e, ref, payload);
    StreamAt(e.heap, ref);
  }

  lemma WriteDataNames(e: Endpoint, ref: nat, payload: Bytes, ok: bool)
    ensures Subject(e, WriteData(ref, payload, ok)) == IdOf(e, ref)
    ensures EventOf(e, WriteData(ref, payload, ok)) == DataWritten(payload, ok)
  {}

  lemma WriteDataFollows(e: Endpoint, ref: nat, payload: Bytes, ok: bool, x: uint32)
    requires EpOk(e) && Unique(e.heap) && CallStep(e, WriteData(ref, payload, ok)).Some?
    ensures Follows(e, WriteData(ref, payload, ok), CallStep(e, WriteData(ref, payload, ok)).value, x)
  {
    hide EpOk, Unique, Absent, StreamOf, Subject, EventOf, RecvStepOf, LoopStepOf, Writable, Carried;
    WriteDataNames(e, ref, payload, ok);
    StreamAt(e.heap, ref);
    OpOf(e, Sending(ref, payload));
  }

  lemma WriteEndNames(e: Endpoint, ref: nat, ok: bool)
    ensures Subject(e, WriteEnd(ref, ok)) == IdOf(e, ref) && EventOf(e, WriteEnd(ref, ok)) == EndWritten(ok)
  {}

  lemma WriteEndFollows(e: Endpoint, ref: nat, ok: bool, x: uint32)
    requires EpOk(e) && Unique(e.heap) && CallStep(e, WriteEnd(ref, ok)).Some?
    ensures Follows(e, WriteEnd(ref, ok), CallStep(e, WriteEnd(ref, ok)).value, x)
  {
    hide EpOk, Unique, Absent, StreamOf, Subject, EventOf, RecvStepOf, LoopStepOf, Writable, Carried;
    WriteEndNames(e, ref, ok);
    StreamAt(e.heap, ref);
  }

  lemma BeginCloseNames(e: Endpoint, ref: nat)
    ensures Subject(e, BeginClose(ref)) == IdOf(e, ref) && EventOf(e, BeginClose(ref)) == CloseBegins
  {}

  lemma BeginCloseFollows(e: Endpoint, ref: nat, x: uint32)
    requires EpOk(e) && Unique(e.heap) && CallStep(e, BeginClose(ref)).Some?
    ensures Follows(e, BeginClose(ref), CallStep(e, BeginClose(ref)).value, x)
  {
    hide EpOk, Unique, View, Subject, EventOf, RecvStepOf, LoopStepOf, Writable, Carried;
    BeginCloseNames(e, ref);
    var e' := CallStep(e, BeginClose(ref)).value.e;
    ViewChanged(e, e', ref, Cancel(e.heap[ref], ClosedHere));
    if x != IdOf(e, ref) { ViewApart(e, e', ref, Cancel(e.heap[ref], ClosedHere), x); }
  }

  lemma WriteCloseNames(e: Endpoint, ref: nat, ok: bool)
    ensures Subject(e, WriteClose(ref, ok)) == IdOf(e, ref)
    ensures EventOf(e, WriteClose(ref, ok)) == CloseWritten(ok)
  {}

  lemma WriteCloseFollows(e: Endpoint, ref: nat, ok: bool, x: uint32)
    requires EpOk(e) && Unique(e.heap) && CallStep(e, WriteClose(ref, ok)).Some?
    ensures Follows(e, WriteClose(ref, ok), CallStep(e, WriteClose(ref, ok)).value, x)
  {
    hide EpOk, Unique, Absent, StreamOf, Subject, EventOf, RecvStepOf, LoopStepOf, Writable, Carried;
    WriteCloseNames(e, ref, ok);
    StreamAt(e.heap, ref);
    OpOf(e, Closing(ref));
  }

  lemma RemoveNames(e: Endpoint, ref: nat)
    ensures Subject(e, Remove(ref)) == IdOf(e, ref) && EventOf(e, Remove(ref)) == Removed
  {}

  lemma RemoveFollows(e: Endpoint, ref: nat, x: uint32)
    requires EpOk(e) && Unique(e.heap) && CallStep(e, Remove(ref)).Some?
    ensures Follows(e, Remove(ref), CallStep(e, Remove(ref)).value, x)
  {
    hide EpOk, Unique, Absent, StreamOf, Subject, EventOf, RecvStepOf, LoopStepOf, Writable, Carried;
    RemoveNames(e, ref);
    StreamAt(e.heap, ref);
    OpOf(e, Removing(ref));
  }

  lemma PollNames(e: Endpoint, ref: nat)
    ensures Subject(e, Poll(ref)) == IdOf(e, ref) && EventOf(e, Poll(ref)) == Polled
  {}

  lemma PollFollows(e: Endpoint, ref: nat, x: uint32)
    requires EpOk(e) && Unique(e.heap) && RecvStep(e, Poll(ref)).Some?
    ensures Follows(e, Poll(ref), RecvStep(e, Poll(ref)).value, x)
  {
    PollIs(e, ref);
    PollReady(e, ref);
    hide EpOk, Unique, View, Subject, EventOf, PortStep, Returned, RecvStep, Held;
    PollNames(e, ref);
    var s, e' := e.heap[ref], RecvStep(e, Poll(ref)).value.e;
    ReturnedId(s, false);
    ViewChanged(e, e', ref, Returned(s, false));
    if x == s.id {
      ReturnedIs(x, View(e, x), EventOf(e, Poll(ref)));
    } else {
      ViewApart(e, e', ref, Returned(s, false), x);
    }
  }

  lemma PollReady(e: Endpoint, ref: nat)
    requires EpOk(e) && RecvStep(e, Poll(ref)).Some?
    ensures Held(e, ref) && (e.heap[ref].queue != [] || e.heap[ref].closed)
  {
    hide EpOk, Take, AtEnd;
  }

  lemma BlockNames(e: Endpoint, ref: nat)
    ensures Subject(e, Block(ref)) == IdOf(e, ref) && EventOf(e, Block(ref)) == Blocked
  {}

  lemma BlockFollows(e: Endpoint, ref: nat, x: uint32)
    requires EpOk(e) && Unique(e.heap) && RecvStep(e, Block(ref)).Some?
    ensures Follows(e, Block(ref), RecvStep(e, Block(ref)).value, x)
  {
    hide EpOk, Unique, Absent, StreamOf, Subject, EventOf, CallerStep, LoopStepOf, Take, AtEnd;
    BlockNames(e, ref);
    StreamAt(e.heap, ref);
  }

  lemma WakeNames(e: Endpoint, ref: nat)
    ensures Subject(e, Wake(ref)) == IdOf(e, ref) && EventOf(e, Wake(ref)) == Woken
  {}

  lemma WakeFollows(e: Endpoint, ref: nat, x: uint32)
    requires EpOk(e) && Unique(e.heap) && RecvStep(e, Wake(ref)).Some?
    ensures Follows(e, Wake(ref), RecvStep(e, Wake(ref)).value, x)
  {
    WakeIs(e, ref);
    WakeReady(e, ref);
    hide EpOk, Unique, View, Subject, EventOf, PortStep, Returned, RecvStep, Held;
    WakeNames(e, ref);
    var s, e' := e.heap[ref], RecvStep(e, Wake(ref)).value.e;
    ReturnedId(s, false);
    ViewChanged(e, e', ref, Returned(s, false));
    if x == s.id {
      ReturnedIs(x, View(e, x), EventOf(e, Wake(ref)));
    } else {
      ViewApart(e, e', ref, Returned(s, false), x);
    }
  }

  lemma WakeReady(e: Endpoint, ref: nat)
    requires EpOk(e) && RecvStep(e, Wake(ref)).Some?
    ensures Held(e, ref) && (e.heap[ref].queue != [] || e.heap[ref].closed)
  {
    OpOf(e, Waiting(ref));
    hide EpOk, Take, AtEnd;
  }

  lemma GiveUpNames(e: Endpoint, ref: nat)
    ensures Subject(e, GiveUp(ref)) == IdOf(e, ref) && EventOf(e, GiveUp(ref)) == GaveUp
  {}

  lemma GiveUpFollows(e: Endpoint, ref: nat, x: uint32)
    requires EpOk(e) && Unique(e.heap) && RecvStep(e, GiveUp(ref)).Some?
    ensures Follows(e, GiveUp(ref), RecvStep(e, GiveUp(ref)).value, x)
  {
    hide EpOk, Unique, Absent, StreamOf, Subject, EventOf, CallerStep, LoopStepOf, Take, AtEnd;
    GiveUpNames(e, ref);
    StreamAt(e.heap, ref);
    OpOf(e, Waiting(ref));
  }

  lemma DrainNames(e: Endpoint, ref: nat)
    ensures Subject(e, Drain(ref)) == IdOf(e, ref) && EventOf(e, Drain(ref)) == Drained
  {}

  lemma DrainFollows(e: Endpoint, ref: nat, x: uint32)
    requires EpOk(e) && Unique(e.heap) && RecvStep(e, Drain(ref)).Some?
    ensures Follows(e, Drain(ref), RecvStep(e, Drain(ref)).value, x)
  {
    DrainIs(e, ref);
    DrainReady(e, ref);
    hide EpOk, Unique, View, Subject, EventOf, PortStep, Returned, RecvStep, Held;
    DrainNames(e, ref);
    var s, e' := e.heap[ref], RecvStep(e, Drain(ref)).value.e;
    ReturnedId(s, true);
    ViewChanged(e, e', ref, Returned(s, true));
    if x == s.id {
      ReturnedIs(x, View(e, x), EventOf(e, Drain(ref)));
    } else {
      ViewApart(e, e', ref, Returned(s, true), x);
    }
  }

  lemma DrainReady(e: Endpoint, ref: nat)
    requires EpOk(e) && RecvStep(e, Drain(ref)).Some?
    ensures Held(e, ref) && (e.heap[ref].queue != [] || Cancelled(e.heap[ref]))
    ensures Cancelled(e.heap[ref])
  {
    OpOf(e, Draining(ref));
    hide EpOk, Take, AtEnd;
  }

  lemma QuitNames(e: Endpoint, ref: nat)
    ensures Subject(e, Quit(ref)) == IdOf(e, ref) && EventOf(e, Quit(ref)) == Left
  {}

  lemma QuitFollows(e: Endpoint, ref: nat, x: uint32)
    requires EpOk(e) && Unique(e.heap) && RecvStep(e, Quit(ref)).Some?
    ensures Follows(e, Quit(ref), RecvStep(e, Quit(ref)).value, x)
  {
    OpOf(e, Waiting(ref));
    hide EpOk, Unique, Absent, StreamOf, Subject, EventOf, CallerStep, LoopStepOf, Take, AtEnd;
    QuitNames(e, ref);
    StreamAt(e.heap, ref);
  }

  lemma TakeAcceptedNames(e: Endpoint)
    requires e.acceptQ != []
    ensures Subject(e, TakeAccepted) == IdOf(e, e.acceptQ[0]) && EventOf(e, TakeAccepted) == Claimed
  {}

  lemma TakeAcceptedFollows(e: Endpoint, x: uint32)
    requires EpOk(e) && Unique(e.heap) && ConnStep(e, TakeAccepted).Some?
    ensures Follows(e, TakeAccepted, ConnStep(e, TakeAccepted).value, x)
  {
    assert Claimable(e.heap[e.acceptQ[0]]);
    hide EpOk, Unique, View, Subject, EventOf, RecvStepOf, LoopStepOf, Writable, Carried;
    TakeAcceptedNames(e);
    var e' := ConnStep(e, TakeAccepted).value.e;
    ViewChanged(e, e', e.acceptQ[0], e.heap[e.acceptQ[0]].(phase := InUse));
    if x != IdOf(e, e.acceptQ[0]) { ViewApart(e, e', e.acceptQ[0], e.heap[e.acceptQ[0]].(phase := InUse), x); }
  }

  lemma CancelOneNames(e: Endpoint, id: uint32)
    ensures Subject(e, CancelOne(id)) == id && EventOf(e, CancelOne(id)) == ConnCancels
  {}

  lemma CancelOneIs(e: Endpoint, id: uint32)
    requires EpOk(e) && ConnStep(e, CancelOne(id)).Some?
    ensures id in e.table && e.table[id] < |e.heap| && e.heap[e.table[id]].id == id && !Locked(e)
    ensures ConnStep(e, CancelOne(id)) == Quiet(With(e, e.table[id], Cancel(e.heap[e.table[id]], ConnClosed)))
  {
    InTable(e, id);
    hide EpOk;
  }

  lemma CancelsIs(e: Endpoint, id: uint32)
    requires !Locked(e) && View(e, id).stream.Some? && id in e.table
    ensures var s := View(e, id).stream.value;
      PortStep(id, View(e, id), ConnCancels)
      == Some(PortEffect(Port(Some(Cancel(s, ConnClosed)), true, View(e, id).spot), None))
  {
    hide StreamOf, Cancel;
  }

  lemma CancelOneFollows(e: Endpoint, id: uint32, x: uint32)
    requires EpOk(e) && Unique(e.heap) && ConnStep(e, CancelOne(id)).Some?
    ensures Follows(e, CancelOne(id), ConnStep(e, CancelOne(id)).value, x)
  {
    CancelOneIs(e, id);
    hide EpOk, Unique, View, Subject, EventOf, ConnStep, PortStep;
    CancelOneNames(e, id);
    var ref, s', e' := e.table[id], Cancel(e.heap[e.table[id]], ConnClosed), ConnStep(e, CancelOne(id)).value.e;
    ViewChanged(e, e', ref, s');
    CancelsIs(e, id);
    if x != id { ViewApart(e, e', ref, s', x); }
  }

  lemma DispatchNames(e: Endpoint)
    requires e.loop.Got?
    ensures Subject(e, Dispatch) == e.loop.frame.id && EventOf(e, Dispatch) == Dispatched
  {}

  lemma DispatchNew(e: Endpoint, x: uint32)
    requires EpOk(e) && e.loop.Got? && e.loop.frame.id !in e.table && IsStart(e.loop.frame)
    requires Unique(DispatchFrame(e, e.loop.frame).heap)
    ensures Follows(e, Dispatch, Effect(DispatchFrame(e, e.loop.frame), None), x)
  {
    hide EpOk, Unique, Absent, IsStart, StreamOf, View, Subject, EventOf, PortStep, ModeOf, RouteOf, Receive;
    DispatchNames(e);
    var f := e.loop.frame;
    ViewMade(e, DispatchFrame(e, f), NewStream(f.id, f.payload, Unclaimed), x);
    if x == f.id { DispatchedUnlisted(x, View(e, x)); } else { ViewIs(e, x); }
  }

  lemma DispatchLost(e: Endpoint, x: uint32)
    requires e.loop.Got? && e.loop.frame.id !in e.table && !IsStart(e.loop.frame)
    ensures Follows(e, Dispatch, Effect(DispatchFrame(e, e.loop.frame), None), x)
  {
    hide IsStart, StreamOf, Subject, EventOf, PortStep, Receive;
    DispatchNames(e);
    if x == e.loop.frame.id { DispatchedUnlisted(x, View(e, x)); }
  }

  lemma ViewIs(e: Endpoint, x: uint32)
    ensures View(e, x) == Port(StreamOf(e.heap, x), x in e.table, SpotOf(e.loop, x))
  {}

  lemma DispatchUnknown(e: Endpoint, x: uint32)
    requires EpOk(e) && Unique(e.heap) && e.loop.Got? && e.loop.frame.id !in e.table
    requires Unique(DispatchFrame(e, e.loop.frame).heap)
    ensures Follows(e, Dispatch, Effect(DispatchFrame(e, e.loop.frame), None), x)
  {
    hide EpOk, Unique, Follows, DispatchFrame, IsStart;
    if IsStart(e.loop.frame) { DispatchNew(e, x); } else { DispatchLost(e, x); }
  }

  lemma DispatchKnown(e: Endpoint, x: uint32)
    requires EpOk(e) && Unique(e.heap) && e.loop.Got? && e.loop.frame.id in e.table
    ensures Follows(e, Dispatch, Effect(DispatchFrame(e, e.loop.frame), None), x)
  {
    hide EpOk, Unique, View, PortStep, IsStart, IsClose, IsError, Receive, Subject, EventOf;
    DispatchNames(e);
    var f := e.loop.frame;
    InTable(e, f.id);
    var ref, s := e.table[f.id], e.heap[e.table[f.id]];
    ReceiveKeepsId(s, f);
    var e' := DispatchFrame(e, f);
    ViewChanged(e, e', ref, Receive(s, f));
    if x == f.id { DispatchedListed(x, View(e, x)); } else { ViewApart(e, e', ref, Receive(s, f), x); }
  }

  lemma ReceiveKeepsId(s: Stream, f: Frame)
    ensures Receive(s, f).id == s.id
  {}

  lemma RouteNames(e: Endpoint)
    requires e.loop.Routing?
    ensures Subject(e, RouteStream) == if HandlerOf(e).Some? then e.loop.id else 0
    ensures EventOf(e, RouteStream) == Routed(HandlerOf(e))
  {}

  lemma RouteFollows(e: Endpoint, x: uint32)
    requires x != 0 && EpOk(e) && Unique(e.heap) && ReadStep(e, RouteStream).Some?
    ensures Follows(e, RouteStream, ReadStep(e, RouteStream).value, x)
  {
    RoutingOk(e);
    RouteIs(e);
    hide EpOk, Unique, View, PortStep, Subject, EventOf, HandlerFor, ReadStep;
    RouteNames(e);
    var ref, s := e.loop.ref, e.heap[e.loop.ref];
    if HandlerOf(e).Some? {
      var e' := With(e, ref, s.(phase := InUse)).(loop := Idle);
      ViewChanged(e, e', ref, s.(phase := InUse));
      if x == e.loop.id { RoutedIs(x, View(e, x), HandlerOf(e)); }
      else { ViewApart(e, e', ref, s.(phase := InUse), x); }
    } else {
      NotRouted(e, x);
    }
  }

  lemma RouteIs(e: Endpoint)
    requires e.loop.Routing? && e.loop.ref < |e.heap|
    ensures ReadStep(e, RouteStream)
         == Quiet(if HandlerOf(e).Some?
                  then With(e, e.loop.ref, e.heap[e.loop.ref].(phase := InUse)).(loop := Idle)
                  else e.(loop := Queueing(e.loop.ref, e.loop.id)))
  {
    hide HandlerFor;
  }

  lemma NotRouted(e: Endpoint, x: uint32)
    requires e.loop.Routing?
    ensures View(e.(loop := Queueing(e.loop.ref, e.loop.id)), x) == View(e, x)
  {
    hide StreamOf;
  }

  lemma QueueFollows(e: Endpoint, x: uint32)
    requires EpOk(e) && Unique(e.heap) && ReadStep(e, QueueStream).Some?
    ensures Follows(e, QueueStream, ReadStep(e, QueueStream).value, x)
  {
    QueueingOk(e);
    QueueIs(e);
    hide EpOk, Unique, View, PortStep, ReadStep;
    var ref, s, e' := e.loop.ref, e.heap[e.loop.ref], e.(acceptQ := e.acceptQ + [e.loop.ref], loop := Idle);
    assert e.heap[ref := s] == e.heap;
    ViewChanged(e, e', ref, s);
    if x == e.loop.id { RoutedIs(x, View(e, x), None); } else { ViewApart(e, e', ref, s, x); }
  }

  lemma QueueIs(e: Endpoint)
    requires e.loop.Queueing? && !e.acceptClosed && ReadStep(e, QueueStream).Some?
    ensures ReadStep(e, QueueStream) == Quiet(e.(acceptQ := e.acceptQ + [e.loop.ref], loop := Idle))
  {}

  lemma QueueingOk(e: Endpoint)
    requires EpOk(e) && e.loop.Queueing?
    ensures !e.acceptClosed && e.loop.ref < |e.heap|
    ensures e.heap[e.loop.ref].id == e.loop.id && Claimable(e.heap[e.loop.ref])
  {}

  lemma DeliverNames(e: Endpoint)
    requires e.loop.Offering?
    ensures Subject(e, Deliver) == e.loop.frame.id && EventOf(e, Deliver) == Delivered
  {}

  lemma DeliverIs(e: Endpoint)
    requires EpOk(e) && OfferStep(e, Deliver).Some?
    ensures e.loop.Offering? && e.loop.ref < |e.heap|
    ensures var s := e.heap[e.loop.ref];
      && s.id == e.loop.frame.id && !s.closed && |s.queue| < CAPACITY
      && OfferStep(e, Deliver)
         == Quiet(With(e, e.loop.ref, s.(queue := s.queue + [e.loop.frame])).(loop := AfterOffer(e.loop)))
  {}

  lemma SpotAfterOffer(l: Loop, x: uint32)
    requires l.Offering?
    ensures SpotOf(AfterOffer(l), x) == if x == l.frame.id then AfterHanding(SpotOf(l, x)) else SpotOf(l, x)
    ensures x == l.frame.id ==> SpotOf(l, x) == Handing(l.frame, l.failing)
  {}

  lemma DeliverFollows(e: Endpoint, x: uint32)
    requires EpOk(e) && Unique(e.heap) && OfferStep(e, Deliver).Some?
    ensures Follows(e, Deliver, OfferStep(e, Deliver).value, x)
  {
    DeliverIs(e);
    hide EpOk, Unique, View, Subject, EventOf, PortStep, OfferStep, SpotOf, AfterOffer, AfterHanding;
    DeliverNames(e);
    SpotAfterOffer(e.loop, x);
    var s, e' := e.heap[e.loop.ref], OfferStep(e, Deliver).value.e;
    var s' := s.(queue := s.queue + [e.loop.frame]);
    ViewChanged(e, e', e.loop.ref, s');
    if x == s.id { DeliveredIs(x, View(e, x)); } else { ViewApart(e, e', e.loop.ref, s', x); }
  }

  lemma DiscardNames(e: Endpoint)
    requires e.loop.Offering?
    ensures Subject(e, Discard) == e.loop.frame.id && EventOf(e, Discard) == Discarded
  {}

  lemma DiscardIs(e: Endpoint)
    requires EpOk(e) && OfferStep(e, Discard).Some?
    ensures e.loop.Offering? && e.loop.ref < |e.heap|
    ensures e.heap[e.loop.ref].id == e.loop.frame.id && Cancelled(e.heap[e.loop.ref])
    ensures OfferStep(e, Discard) == Quiet(e.(loop := AfterOffer(e.loop)))
  {}

  lemma DiscardFollows(e: Endpoint, x: uint32)
    requires EpOk(e) && Unique(e.heap) && OfferStep(e, Discard).Some?
    ensures Follows(e, Discard, OfferStep(e, Discard).value, x)
  {
    DiscardIs(e);
    hide EpOk, Unique, Absent, StreamOf, Subject, EventOf, PortStep, OfferStep, SpotOf, AfterOffer, AfterHanding;
    DiscardNames(e);
    SpotAfterOffer(e.loop, x);
    StreamAt(e.heap, e.loop.ref);
    if x == e.loop.frame.id { DiscardedIs(x, View(e, x)); }
  }

  lemma UnlinkNames(e: Endpoint)
    requires e.loop.Unlinking?
    ensures Subject(e, Unlink) == e.loop.id && EventOf(e, Unlink) == Unlinked
  {}

  lemma UnlinkFollows(e: Endpoint, x: uint32)
    requires EpOk(e) && Unique(e.heap) && OfferStep(e, Unlink).Some?
    ensures Follows(e, Unlink, OfferStep(e, Unlink).value, x)
  {
    hide EpOk, Unique, Absent, StreamOf, CallerStep, RecvStepOf, Subject, EventOf;
    UnlinkNames(e);
  }

  lemma ReplyNames(e: Endpoint, ok: bool)
    requires e.loop.Replying?
    ensures Subject(e, Reply(ok)) == e.loop.id && EventOf(e, Reply(ok)) == Replied(ok)
  {}

  lemma ReplyFollows(e: Endpoint, ok: bool, x: uint32)
    requires EpOk(e) && Unique(e.heap) && OfferStep(e, Reply(ok)).Some?
    ensures Follows(e, Reply(ok), OfferStep(e, Reply(ok)).value, x)
  {
    hide EpOk, Unique, Absent, StreamOf, CallerStep, RecvStepOf, Subject, EventOf;
    ReplyNames(e, ok);
  }

  lemma FinishCloseNames(e: Endpoint)
    requires e.loop.HalfClosed?
    ensures Subject(e, FinishClose) == e.loop.id && EventOf(e, FinishClose) == Shut
  {}

  lemma AfterShutShape(e: Endpoint, x: uint32)
    requires e.loop.HalfClosed? && e.loop.ref < |e.heap|
    ensures AfterShut(e).heap == e.heap[e.loop.ref := e.heap[e.loop.ref].(closed := true)]
    ensures x in AfterShut(e).table <==> x in e.table && x != e.loop.id
    ensures SpotOf(AfterShut(e).loop, x) == Elsewhere
    ensures SpotOf(e.loop, x) == if x == e.loop.id then Shutting else Elsewhere
  {}

  lemma FinishCloseFollows(e: Endpoint, x: uint32)
    requires EpOk(e) && Unique(e.heap) && e.loop.HalfClosed?
    ensures EndStep(e, FinishClose).Some? && Follows(e, FinishClose, EndStep(e, FinishClose).value, x)
  {
    ShuttingOk(e);
    FinishCloseIs(e);
    hide EpOk, Unique, View, Subject, EventOf, PortStep, EndStep, AfterShut, SpotOf;
    FinishCloseNames(e);
    AfterShutShape(e, x);
    var s' := e.heap[e.loop.ref].(closed := true);
    if x == e.loop.id {
      ViewChanged(e, AfterShut(e), e.loop.ref, s');
      ShutIs(x, View(e, x));
    } else {
      ViewApart(e, AfterShut(e), e.loop.ref, s', x);
    }
  }

  lemma ShuttingOk(e: Endpoint)
    requires EpOk(e) && e.loop.HalfClosed?
    ensures e.loop.ref < |e.heap| && e.heap[e.loop.ref].id == e.loop.id && !e.heap[e.loop.ref].closed
  {}

  lemma SweepOneNames(e: Endpoint, id: uint32)
    ensures Subject(e, SweepOne(id)) == id && EventOf(e, SweepOne(id)) == SweepCancels
  {}

  lemma SweepOneIs(e: Endpoint, id: uint32)
    requires EpOk(e) && EndStep(e, SweepOne(id)).Some?
    ensures e.loop.Sweeping? && id in e.table && e.table[id] < |e.heap| && e.heap[e.table[id]].id == id
    ensures EndStep(e, SweepOne(id))
         == Quiet(With(e, e.table[id], Cancel(e.heap[e.table[id]], LoopEnded)).(
                    loop := HalfClosed(e.table[id], id, true)))
  {
    InTable(e, id);
    hide EpOk;
  }

  lemma SweepSpots(e: Endpoint, ref: nat, id: uint32, x: uint32)
    requires e.loop.Sweeping?
    ensures SpotOf(e.loop, x) == Elsewhere
    ensures SpotOf(HalfClosed(ref, id, true), x) == if x == id then Shutting else Elsewhere
  {}

  lemma SweepOneFollows(e: Endpoint, id: uint32, x: uint32)
    requires EpOk(e) && Unique(e.heap) && EndStep(e, SweepOne(id)).Some?
    ensures Follows(e, SweepOne(id), EndStep(e, SweepOne(id)).value, x)
  {
    SweepOneIs(e, id);
    hide EpOk, Unique, View, Subject, EventOf, PortStep, EndStep, SpotOf;
    SweepOneNames(e, id);
    var ref, s', e' := e.table[id], Cancel(e.heap[e.table[id]], LoopEnded), EndStep(e, SweepOne(id)).value.e;
    SweepSpots(e, ref, id, x);
    if x == id {
      ViewChanged(e, e', ref, s');
      SweptIs(x, View(e, x));
    } else {
      ViewApart(e, e', ref, s', x);
    }
  }

  // Every step follows the lines.
  lemma StartFollows(e: Endpoint, a: Action, x: uint32)
    requires ForStart(a) && x != 0 && EpOk(e) && Unique(e.heap)
    requires StartStep(e, a).Some? && Unique(StartStep(e, a).value.e.heap)
    ensures Follows(e, a, StartStep(e, a).value, x)
  {
    if a.Claim? {
      ClaimFollows(e, x);
    } else {
      hide StartStep, EpOk, Unique, Follows, NewStream, With, Writable, Carried;
      match a
      case Register(id, mode, route) => RegisterFollows(e, id, mode, route, x);
      case WriteStart(ref, ok) => WriteStartFollows(e, ref, ok, x);
      case DropStart(ref) => DropStartFollows(e, ref, x);
    }
  }

  lemma ClaimFollows(e: Endpoint, x: uint32)
    requires x != 0 && StartStep(e, Claim).Some?
    ensures Follows(e, Claim, StartStep(e, Claim).value, x)
  {
    hide PortStep, StreamOf, SpotOf;
  }

  lemma CallFollows(e: Endpoint, a: Action, x: uint32)
    requires ForCalls(a) && EpOk(e) && Unique(e.heap) && CallStep(e, a).Some?
    ensures Follows(e, a, CallStep(e, a).value, x)
  {
    hide CallStep, EpOk, Unique, Follows, With, Held, Cancelled, Writable, Carried;
    match a
    case BeginSend(ref, payload) => BeginSendFollows(e, ref, payload, x);
    case WriteData(ref, payload, ok) => WriteDataFollows(e, ref, payload, ok, x);
    case WriteEnd(ref, ok) => WriteEndFollows(e, ref, ok, x);
    case BeginClose(ref) => BeginCloseFollows(e, ref, x);
    case WriteClose(ref, ok) => WriteCloseFollows(e, ref, ok, x);
    case Remove(ref) => RemoveFollows(e, ref, x);
  }

  lemma RecvFollows(e: Endpoint, a: Action, x: uint32)
    requires ForRecv(a) && EpOk(e) && Unique(e.heap) && RecvStep(e, a).Some?
    ensures Follows(e, a, RecvStep(e, a).value, x)
  {
    hide RecvStep, EpOk, Unique, Follows, With, Held, Cancelled, Take, AtEnd;
    match a
    case Poll(ref) => PollFollows(e, ref, x);
    case Block(ref) => BlockFollows(e, ref, x);
    case Wake(ref) => WakeFollows(e, ref, x);
    case GiveUp(ref) => GiveUpFollows(e, ref, x);
    case Drain(ref) => DrainFollows(e, ref, x);
    case Quit(ref) => QuitFollows(e, ref, x);
  }

  // Steps that concern no stream.
  lemma RawFollows(e: Endpoint, a: Action, x: uint32)
    requires x != 0 && ConnStep(e, a).Some? && (a.WriteRaw? || a.TakeRaw? || a.AddRoute?)
    ensures Follows(e, a, ConnStep(e, a).value, x)
  {
    hide PortStep, EventOf, StreamOf, SpotOf, Writable, Carried;
  }

  lemma PushFollows(e: Endpoint, a: Action, x: uint32)
    requires x != 0 && ReadStep(e, a).Some? && (a.ReadFails? || (a.PushRaw? && !e.rawClosed))
    ensures Follows(e, a, ReadStep(e, a).value, x)
  {
    hide PortStep, EventOf, StreamOf;
  }

  lemma EndingFollows(e: Endpoint, a: Action, x: uint32)
    requires x != 0 && EndStep(e, a).Some? && (a.SweepDone? || a.EndAccept? || a.EndDone? || a.EndRaw?)
    ensures Follows(e, a, EndStep(e, a).value, x)
  {
    hide PortStep, EventOf, StreamOf;
  }

  lemma ConnFollows(e: Endpoint, a: Action, x: uint32)
    requires ForConn(a) && x != 0 && EpOk(e) && Unique(e.heap) && ConnStep(e, a).Some?
    ensures Follows(e, a, ConnStep(e, a).value, x)
  {
    hide ConnStep, EpOk, Unique, Follows, With, Writable, Carried;
    match a
    case TakeAccepted => TakeAcceptedFollows(e, x);
    case CancelOne(id) => CancelOneFollows(e, id, x);
    case _ => RawFollows(e, a, x);
  }

  lemma ReadFrameFollows(e: Endpoint, f: Frame, x: uint32)
    requires EpOk(e) && ReadStep(e, Read(f)).Some?
    ensures Follows(e, Read(f), ReadStep(e, Read(f)).value, x)
  {
    ReadingStreams(e, x);
    hide EpOk, StreamOf, CallerStep, RecvStepOf;
  }

  // While the loop reads, no stream has been cancelled by the sweep.
  lemma ReadingStreams(e: Endpoint, x: uint32)
    requires EpOk(e) && e.loop.Idle?
    ensures !SweptAway(View(e, x))
  {
    Parts(e);
    hide EpOk, TableOk, QueuesOk, LoopOk, RefsOk;
  }

  lemma ReadFollows(e: Endpoint, a: Action, x: uint32)
    requires x != 0 && EpOk(e) && Unique(e.heap) && ReadStep(e, a).Some? && Unique(ReadStep(e, a).value.e.heap)
    ensures Follows(e, a, ReadStep(e, a).value, x)
  {
    hide EpOk, Unique, Follows, DispatchFrame, HandlerFor, With;
    match a
    case Dispatch =>
      if e.loop.frame.id in e.table { DispatchKnown(e, x); } else { DispatchUnknown(e, x); }
    case RouteStream => RouteFollows(e, x);
    case QueueStream => QueueFollows(e, x);
    case Read(f) => ReadFrameFollows(e, f, x);
    case PushRaw =>
      RawPushed(e);
      PushFollows(e, a, x);
    case ReadFails => PushFollows(e, a, x);
    case _ =>
  }

  lemma OfferFollows(e: Endpoint, a: Action, x: uint32)
    requires ForOffer(a) && EpOk(e) && Unique(e.heap) && OfferStep(e, a).Some?
    ensures Follows(e, a, OfferStep(e, a).value, x)
  {
    hide OfferStep, EpOk, Unique, Follows, With, AfterOffer;
    match a
    case Deliver => DeliverFollows(e, x);
    case Discard => DiscardFollows(e, x);
    case Unlink => UnlinkFollows(e, x);
    case Reply(ok) => ReplyFollows(e, ok, x);
  }

  lemma EndFollows(e: Endpoint, a: Action, x: uint32)
    requires x != 0 && EpOk(e) && Unique(e.heap) && EndStep(e, a).Some?
    ensures Follows(e, a, EndStep(e, a).value, x)
  {
    hide EpOk, Unique, Follows, With, Cancel;
    match a
    case FinishClose => FinishCloseFollows(e, x);
    case SweepOne(id) => SweepOneFollows(e, id, x);
    case _ => EndingFollows(e, a, x);
  }

  lemma StepFollows(e: Endpoint, a: Action, x: uint32)
    requires x != 0 && EpOk(e) && Unique(e.heap) && Apply(e, a).Some? && Unique(Apply(e, a).value.e.heap)
    ensures Follows(e, a, Apply(e, a).value, x)
  {
    hide EpOk, Unique, Follows, StartStep, CallStep, RecvStep, ConnStep, ReadStep, OfferStep, EndStep;
    if ForStart(a) { StartFollows(e, a, x); }
    else if ForCalls(a) { CallFollows(e, a, x); }
    else if ForRecv(a) { RecvFollows(e, a, x); }
    else if ForConn(a) { ConnFollows(e, a, x); }
    else if ForRead(a) { ReadFollows(e, a, x); }
    else if ForOffer(a) { OfferFollows(e, a, x); }
    else { EndFollows(e, a, x); }
  }
}
