/**
 The connection as objects: `MessageConn` with its map, channels and counters, and `Stream`. Each
 method is one critical section or channel operation of the program, and is proved to be the step of
 `Mux` of the same name on the abstract state of the connection.

 The ghost fields are what the program does not store: the history of a stream, the streams that have
 left the table, and what other goroutines still have to do.
 */
module Conn {
  import opened Bytes
  import opened Frames
  import opened Options
  import opened Mux

  class Stream {
    const id: uint32
    var recvCh: seq<Frame>
    var closed: bool
    var cancelled: bool
    ghost const start: Bytes
    ghost var phase: Phase
    ghost var causes: set<Cause>
    ghost var offered: seq<Frame>
    ghost var taken: seq<Frame>
    ghost var outcomes: seq<Outcome>

    ghost predicate Valid()
      reads this
    {
      cancelled <==> causes != {}
    }

    ghost function Value(): Mux.Stream
      reads this
    {
      Mux.Stream(id, start, phase, recvCh, closed, causes, offered, taken, outcomes)
    }

    constructor (id: uint32, ghost start: Bytes, ghost phase: Phase)
      ensures Valid() && Value() == NewStream(id, start, phase)
    {
      this.id := id;
      recvCh, closed, cancelled := [], false, false;
      this.start, this.phase := start, phase;
      causes, offered, taken, outcomes := {}, [], [], [];
    }

    // Calls the context's cancel function.
    method Cancel(ghost cause: Cause)
      requires Valid()
      modifies this
      ensures Valid() && Value() == Mux.Cancel(old(Value()), cause)
      ensures cancelled && recvCh == old(recvCh) && closed == old(closed)
    {
      cancelled := true;
      causes := causes + {cause};
    }

    method CloseRecv()
      requires Valid() && !closed
      modifies this
      ensures Valid() && Value() == old(Value()).(closed := true)
      ensures closed && cancelled == old(cancelled) && recvCh == old(recvCh)
    {
      closed := true;
    }

    // Before the loop offers the frame: an Error frame cancels the stream.
    method Prepare(f: Frame)
      requires Valid() && !IsClose(f)
      modifies this
      ensures Valid() && Value() == Mux.Receive(old(Value()), f)
      ensures cancelled == (old(cancelled) || IsError(f)) && recvCh == old(recvCh) && closed == old(closed)
    {
      if IsError(f) { Cancel(PeerFailed); }
      offered := offered + [f];
    }

    // A case of a select that receives from `recvCh`: not ready, or the result of `Recv`.
    method Receive(draining: bool) returns (o: Option<Outcome>)
      requires Valid()
      modifies this
      ensures Valid()
      ensures old(recvCh) == [] && !old(closed) ==> o.None? && Value() == old(Value())
      ensures old(recvCh) == [] && old(closed) ==> o == Some(EndOfStream) && Value() == AtEnd(old(Value()))
      ensures old(recvCh) != [] ==> o == Some(OutcomeOf(old(recvCh[0]))) && Value() == Take(old(Value()), draining)
      ensures old(recvCh) != [] ==>
        var f := old(recvCh[0]);
        && (o == Some(EndOfStream) <==> IsClose(f) || IsCloseWrite(f))
        && (o == Some(PeerError(f.payload)) <==> IsError(f) && !IsClose(f) && !IsCloseWrite(f))
        && (o == Some(Received(f.payload)) <==> !IsError(f) && !IsClose(f) && !IsCloseWrite(f))
        && recvCh == old(recvCh)[1..]
        && cancelled == (old(cancelled) || (!draining && (IsClose(f) || (IsError(f) && !IsCloseWrite(f)))))
    {
      if recvCh == [] {
        if !closed { return None; }
        outcomes := outcomes + [EndOfStream];
        return Some(EndOfStream);
      }
      var f := recvCh[0];
      recvCh, taken, outcomes := recvCh[1..], taken + [f], outcomes + [OutcomeOf(f)];
      if IsClose(f) || IsCloseWrite(f) {
        if IsClose(f) && !draining { Cancel(FailureRead); }
        return Some(EndOfStream);
      }
      if IsError(f) {
        if !draining { Cancel(FailureRead); }
        return Some(PeerError(f.payload));
      }
      return Some(Received(f.payload));
    }

    // `Recv` once it has chosen the cancelled context: what is left in the channel, or the end.
    method Drain() returns (o: Outcome)
      requires Valid()
      modifies this
      ensures Valid()
      ensures Value() == if old(recvCh) != [] then Take(old(Value()), true) else AtEnd(old(Value()))
      ensures o == if old(recvCh) != [] then OutcomeOf(old(recvCh[0])) else EndOfStream
      ensures cancelled == old(cancelled)
      ensures old(recvCh) != [] ==>
        var f := old(recvCh[0]);
        && (o == EndOfStream <==> IsClose(f) || IsCloseWrite(f))
        && (o == PeerError(f.payload) <==> IsError(f) && !IsClose(f) && !IsCloseWrite(f))
        && (o == Received(f.payload) <==> !IsError(f) && !IsClose(f) && !IsCloseWrite(f))
    {
      var r := Receive(true);
      if r.Some? { return r.value; }
      outcomes := outcomes + [EndOfStream];
      return EndOfStream;
    }
  }

  // What the read loop has to do after it released the lock.
  datatype Todo =
    | Carry                                            // nothing more for this frame
    | Route(stream: Stream, mode: byte, route: Bytes)  // find a handler
    | Queue(stream: Stream)                            // offer it to `AcceptStream`
    | Answer(id: uint32)                               // answer "stream not found"
    | Offer(stream: Stream, frame: Frame, failing: bool)

  // A select on a channel: not ready, a value, or the channel is closed and empty; then the caller
  // gets the read loop's error, or end-of-file if there is none.
  datatype Case<T> = Waits | Gives(value: T) | Fails(loopError: bool)

  // The state after the critical section for a frame. Where `Mux` has two steps for a Close frame, the
  // program has one section, since nothing can happen between them.
  function AfterDispatch(e: Endpoint, f: Frame): Endpoint {
    var d := DispatchFrame(e, f);
    if d.loop.HalfClosed? then match EndStep(d, FinishClose) case Some(r) => r.e case None => d
    else d
  }

  lemma AfterClose(e: Endpoint, f: Frame)
    requires f.id in e.table && e.table[f.id] < |e.heap| && IsClose(f) && !e.heap[e.table[f.id]].closed
    ensures var ref := e.table[f.id];
      AfterDispatch(e, f)
      == With(e, ref, Mux.Cancel(e.heap[ref], PeerClosed).(closed := true)).(table := e.table - {f.id}, loop := Idle)
  {
    var ref := e.table[f.id];
    var s := Mux.Cancel(e.heap[ref], PeerClosed);
    DispatchFinds(e, f);
    FinishCloseIs(DispatchFrame(e, f));
    hide DispatchFrame, EndStep;
    assert e.heap[ref := s][ref := s.(closed := true)] == e.heap[ref := s.(closed := true)];
  }

  lemma AfterOther(e: Endpoint, f: Frame)
    requires f.id in e.table && e.table[f.id] < |e.heap| && !IsClose(f)
    ensures var ref := e.table[f.id];
      AfterDispatch(e, f) == With(e, ref, Mux.Receive(e.heap[ref], f)).(loop := Offering(ref, f, IsError(f)))
  {}

  lemma AfterStart(e: Endpoint, f: Frame)
    requires f.id !in e.table && IsStart(f)
    ensures AfterDispatch(e, f)
         == e.(heap := e.heap + [NewStream(f.id, f.payload, Unclaimed)], table := e.table[f.id := |e.heap|],
               loop := Routing(|e.heap|, f.id, ModeOf(f.payload), RouteOf(f.payload)))
  {}

  lemma AfterLost(e: Endpoint, f: Frame)
    requires f.id !in e.table && !IsStart(f)
    ensures AfterDispatch(e, f) == e.(loop := Replying(f.id))
  {}

  lemma RouteIs(e: Endpoint)
    requires e.loop.Routing? && e.loop.ref < |e.heap|
    ensures var ref, s := e.loop.ref, e.heap[e.loop.ref];
      ReadStep(e, RouteStream)
      == Quiet(if HandlerFor(e, e.loop.mode, e.loop.route).Some?
               then With(e, ref, s.(phase := InUse)).(loop := Idle)
               else e.(loop := Queueing(ref, e.loop.id)))
  {
    hide HandlerFor;
  }

  lemma QueueIs(e: Endpoint)
    requires e.loop.Queueing? && !e.acceptClosed
    ensures ReadStep(e, QueueStream)
         == if |e.acceptQ| >= CAPACITY then None else Quiet(e.(acceptQ := e.acceptQ + [e.loop.ref], loop := Idle))
  {}

  lemma TakeRawIs(e: Endpoint)
    ensures ConnStep(e, TakeRaw)
         == if e.rawQ == [] then None else Quiet(e.(rawQ := e.rawQ[1..], rawTaken := e.rawTaken + [e.rawQ[0]]))
  {}

  lemma TakeAcceptedIs(e: Endpoint)
    requires e.acceptQ != [] ==> e.acceptQ[0] < |e.heap|
    ensures ConnStep(e, TakeAccepted)
         == if e.acceptQ == [] then None
            else Quiet(With(e, e.acceptQ[0], e.heap[e.acceptQ[0]].(phase := InUse)).(acceptQ := e.acceptQ[1..]))
  {}

  lemma WakeStep(e: Endpoint, ref: nat)
    requires ref < |e.heap| && Waiting(ref) in e.ops
    ensures var s := e.heap[ref];
      RecvStep(e, Wake(ref))
      == if s.queue != [] || s.closed
         then Quiet(With(e.(ops := e.ops - multiset{Waiting(ref)}), ref, Returned(s, false)))
         else None
  {
    hide Take, AtEnd;
  }

  lemma GiveUpStep(e: Endpoint, ref: nat)
    requires ref < |e.heap| && Waiting(ref) in e.ops
    ensures RecvStep(e, GiveUp(ref))
         == if Cancelled(e.heap[ref]) then Quiet(e.(ops := e.ops - multiset{Waiting(ref)} + multiset{Draining(ref)}))
            else None
  {}

  lemma DrainStep(e: Endpoint, ref: nat)
    requires ref < |e.heap| && Draining(ref) in e.ops
    ensures var s := e.heap[ref];
      RecvStep(e, Drain(ref))
      == Quiet(With(e.(ops := e.ops - multiset{Draining(ref)}), ref, Returned(s, true)))
  {
    hide Take, AtEnd;
  }

  // ---- The final sweep, as one step ----

  predicate Listed(e: Endpoint, i: nat)
    requires i < |e.heap|
  {
    e.heap[i].id in e.table && e.table[e.heap[i].id] == i
  }

  // The streams after those listed under an ID outside `rest` were cancelled and their channels closed.
  function SweptStreams(e: Endpoint, rest: set<uint32>): (heap: seq<Mux.Stream>)
    ensures |heap| == |e.heap|
  {
    seq(|e.heap|, i requires 0 <= i < |e.heap| =>
      if Listed(e, i) && e.heap[i].id !in rest then Mux.Cancel(e.heap[i], LoopEnded).(closed := true) else e.heap[i])
  }

  // What `handleReadLoopError` does to the streams and the table.
  function Swept(e: Endpoint): Endpoint {
    e.(heap := SweptStreams(e, {}), table := map[], loopFailed := true, loop := EndingAccept)
  }

  function Restrict(table: map<uint32, nat>, rest: set<uint32>): map<uint32, nat> {
    map id | id in table && id in rest :: table[id]
  }

  lemma CancelStep(m: Endpoint, id: uint32)
    requires m.loop.Sweeping? && id in m.table && m.table[id] < |m.heap|
    ensures Apply(m, SweepOne(id))
         == Quiet(With(m, m.table[id], Mux.Cancel(m.heap[m.table[id]], LoopEnded)).(
                    loop := HalfClosed(m.table[id], id, true)))
  {}

  lemma CloseStep(m: Endpoint)
    requires m.loop.HalfClosed? && m.loop.ref < |m.heap| && !m.heap[m.loop.ref].closed && m.loop.sweeping
    ensures Apply(m, FinishClose)
         == Quiet(m.(heap := m.heap[m.loop.ref := m.heap[m.loop.ref].(closed := true)],
            table := m.table - {m.loop.id}, loop := Sweeping))
  {}

  // Two steps of the sweep: a stream is cancelled, then its channel closed.
  lemma SweepPair(m: Endpoint, id: uint32)
    requires m.loop.Sweeping? && id in m.table && m.table[id] < |m.heap| && !m.heap[m.table[id]].closed
    ensures var s := m.heap[m.table[id]];
      Run(m, [SweepOne(id), FinishClose])
      == Some(m.(heap := m.heap[m.table[id] := Mux.Cancel(s, LoopEnded).(closed := true)], table := m.table - {id}))
  {
    var ref, s := m.table[id], Mux.Cancel(m.heap[m.table[id]], LoopEnded);
    var half := With(m, ref, s).(loop := HalfClosed(ref, id, true));
    var done := m.(heap := m.heap[ref := s.(closed := true)], table := m.table - {id});
    assert Apply(m, SweepOne(id)) == Quiet(half) by { CancelStep(m, id); }
    assert Apply(half, FinishClose) == Quiet(done) by {
      CloseStep(half);
      assert half.heap[ref := s.(closed := true)] == done.heap;
    }
    hide Apply;
    assert [SweepOne(id), FinishClose][1..] == [FinishClose] && [FinishClose][1..] == [];
  }

  lemma SweptMore(e: Endpoint, rest: set<uint32>, id: uint32)
    requires TableOk(e) && id in rest && rest <= e.table.Keys
    ensures var ref, heap := e.table[id], SweptStreams(e, rest);
      && heap[ref] == e.heap[ref] && !heap[ref].closed
      && SweptStreams(e, rest - {id}) == heap[ref := Mux.Cancel(heap[ref], LoopEnded).(closed := true)]
      && Restrict(e.table, rest - {id}) == Restrict(e.table, rest) - {id}
  {
    assert Listed(e, e.table[id]);
    assert forall i | 0 <= i < |e.heap| && Listed(e, i) && e.heap[i].id == id :: i == e.table[id];
  }

  lemma NothingSwept(e: Endpoint)
    ensures SweptStreams(e, e.table.Keys) == e.heap
  {}

  // In any order of the map, the sweep is a run of the small steps.
  lemma {:induction false} SweepRuns(e: Endpoint, rest: set<uint32>) returns (actions: seq<Action>)
    requires TableOk(e) && rest <= e.table.Keys
    ensures Run(e.(heap := SweptStreams(e, rest), table := Restrict(e.table, rest), loop := Sweeping), actions)
         == Some(e.(heap := SweptStreams(e, {}), table := map[], loop := Sweeping))
  {
    var m := e.(heap := SweptStreams(e, rest), table := Restrict(e.table, rest), loop := Sweeping);
    if rest == {} {
      actions := [];
      assert Restrict(e.table, {}) == map[];
    } else {
      hide Apply, Listed, SweptStreams, TableOk;
      var id :| id in rest;
      SweptMore(e, rest, id);
      TableEntry(e, id);
      SweepPair(m, id);
      var more := SweepRuns(e, rest - {id});
      RunAppend(m, [SweepOne(id), FinishClose], more);
      actions := [SweepOne(id), FinishClose] + more;
    }
  }

  lemma TableEntry(e: Endpoint, id: uint32)
    requires TableOk(e) && id in e.table
    ensures e.table[id] < |e.heap| && e.heap[e.table[id]].id == id
  {}

  // The whole of `handleReadLoopError` is a run: the read fails, each stream is cancelled and its
  // channel closed, and the sweep ends.
  lemma SweptIsRun(e: Endpoint) returns (actions: seq<Action>)
    requires EpOk(e) && e.loop.Idle?
    ensures Run(e, actions) == Some(Swept(e))
  {
    Parts(e);
    hide EpOk, Apply;
    var failed := e.(loop := Sweeping, loopFailed := true);
    assert Apply(e, ReadFails) == Quiet(failed) by { FailStep(e); }
    assert SweptStreams(failed, failed.table.Keys) == failed.heap
        && Restrict(failed.table, failed.table.Keys) == failed.table;
    var sweep := SweepRuns(failed, failed.table.Keys);
    var swept := failed.(heap := SweptStreams(failed, {}), table := map[]);
    assert SweptStreams(failed, {}) == SweptStreams(e, {});
    assert Apply(swept, SweepDone) == Quiet(Swept(e)) by { DoneStep(swept); }
    RunAppend(failed, sweep, [SweepDone]);
    assert [SweepDone][1..] == [];
    actions := [ReadFails] + (sweep + [SweepDone]);
    assert actions[1..] == sweep + [SweepDone];
  }

  lemma FailStep(e: Endpoint)
    requires e.loop.Idle?
    ensures Apply(e, ReadFails) == Quiet(e.(loop := Sweeping, loopFailed := true))
  {}

  lemma DoneStep(e: Endpoint)
    requires e.loop.Sweeping? && e.table == map[]
    ensures Apply(e, SweepDone) == Quiet(e.(loop := EndingAccept))
  {}

  // ---- Closing the connection, as one step ----

  // The streams after those listed under an ID outside `rest` were cancelled.
  function CancelledStreams(e: Endpoint, rest: set<uint32>): (heap: seq<Mux.Stream>)
    ensures |heap| == |e.heap|
  {
    seq(|e.heap|, i requires 0 <= i < |e.heap| =>
      if Listed(e, i) && e.heap[i].id !in rest then Mux.Cancel(e.heap[i], ConnClosed) else e.heap[i])
  }

  lemma CancelledMore(e: Endpoint, rest: set<uint32>, id: uint32)
    requires TableOk(e) && id in rest && rest <= e.table.Keys
    ensures var ref, heap := e.table[id], CancelledStreams(e, rest);
      && heap[ref] == e.heap[ref]
      && CancelledStreams(e, rest - {id}) == heap[ref := Mux.Cancel(heap[ref], ConnClosed)]
  {
    assert Listed(e, e.table[id]);
    assert forall i | 0 <= i < |e.heap| && Listed(e, i) && e.heap[i].id == id :: i == e.table[id];
  }

  lemma NothingCancelled(e: Endpoint)
    ensures CancelledStreams(e, e.table.Keys) == e.heap
  {}

  lemma CancelOneIs(e: Endpoint, id: uint32)
    requires !Locked(e) && id in e.table && e.table[id] < |e.heap|
    ensures Apply(e, CancelOne(id)) == Quiet(With(e, e.table[id], Mux.Cancel(e.heap[e.table[id]], ConnClosed)))
  {}

  lemma CancelOneStep(e: Endpoint, id: uint32)
    requires !Locked(e) && id in e.table && e.table[id] < |e.heap|
    ensures Run(e, [CancelOne(id)]) == Some(With(e, e.table[id], Mux.Cancel(e.heap[e.table[id]], ConnClosed)))
  {
    hide Apply;
    CancelOneIs(e, id);
    assert [CancelOne(id)][1..] == [];
  }

  // In any order of the map, it is a run of the small steps.
  lemma {:induction false} CancelAllRuns(e: Endpoint, rest: set<uint32>) returns (actions: seq<Action>)
    requires TableOk(e) && !Locked(e) && rest <= e.table.Keys
    ensures Run(e.(heap := CancelledStreams(e, rest)), actions) == Some(e.(heap := CancelledStreams(e, {})))
  {
    if rest == {} {
      actions := [];
    } else {
      hide Apply, Listed, CancelledStreams, TableOk;
      var id :| id in rest;
      var m := e.(heap := CancelledStreams(e, rest));
      CancelledMore(e, rest, id);
      TableEntry(e, id);
      CancelOneStep(m, id);
      var more := CancelAllRuns(e, rest - {id});
      RunAppend(m, [CancelOne(id)], more);
      actions := [CancelOne(id)] + more;
    }
  }

  // ---- The streams of a connection ----

  // Distinct objects, each consistent.
  ghost predicate ValidStreams(heap: seq<Stream>)
    reads heap
  {
    && (forall i, j | 0 <= i < j < |heap| :: heap[i] != heap[j])
    && (forall i | 0 <= i < |heap| :: heap[i].Valid())
  }

  ghost function ValuesOf(heap: seq<Stream>): (values: seq<Mux.Stream>)
    reads heap
    ensures |values| == |heap|
  {
    seq(|heap|, i requires 0 <= i < |heap| reads heap => heap[i].Value())
  }

  // The objects in the table are those that `table` points to by index.
  predicate TableMatches(streams: map<uint32, Stream>, table: map<uint32, nat>, heap: seq<Stream>) {
    && streams.Keys == table.Keys
    && (forall id | id in table :: table[id] < |heap| && streams[id] == heap[table[id]])
  }

  predicate QueueMatches(acceptCh: seq<Stream>, accepted: seq<nat>, heap: seq<Stream>) {
    && |acceptCh| == |accepted|
    && (forall i | 0 <= i < |accepted| :: accepted[i] < |heap| && acceptCh[i] == heap[accepted[i]])
  }

  lemma MoreStreams(heap: seq<Stream>, s: Stream)
    requires ValidStreams(heap) && s.Valid() && s !in heap
    ensures ValidStreams(heap + [s]) && ValuesOf(heap + [s]) == ValuesOf(heap) + [s.Value()]
  {}

  lemma TableGrows(streams: map<uint32, Stream>, table: map<uint32, nat>, heap: seq<Stream>, s: Stream, id: uint32)
    requires TableMatches(streams, table, heap)
    ensures TableMatches(streams[id := s], table[id := |heap|], heap + [s])
  {}

  lemma TableShrinks(streams: map<uint32, Stream>, table: map<uint32, nat>, heap: seq<Stream>, id: uint32)
    requires TableMatches(streams, table, heap)
    ensures TableMatches(streams - {id}, table - {id}, heap)
  {}

  lemma NoTable(heap: seq<Stream>)
    ensures TableMatches(map[], map[], heap)
  {}

  lemma QueueStays(acceptCh: seq<Stream>, accepted: seq<nat>, heap: seq<Stream>, s: Stream)
    requires QueueMatches(acceptCh, accepted, heap)
    ensures QueueMatches(acceptCh, accepted, heap + [s])
  {}

  // One stream has changed.
  lemma OneChanged(heap: seq<Stream>, r: nat, before: seq<Mux.Stream>)
    requires r < |heap| == |before| && forall i | 0 <= i < |heap| && i != r :: heap[i].Value() == before[i]
    ensures ValuesOf(heap) == before[r := heap[r].Value()]
  {}

  class MessageConn {
    var readLoopStarted: bool
    var streams: map<uint32, Stream>
    var acceptCh: seq<Stream>
    var acceptClosed: bool
    var rawMsgCh: seq<Bytes>
    var rawClosed: bool
    var readLoopDone: bool
    var readLoopErr: bool
    var nextStreamID: uint32
    var handlers: map<(byte, Bytes), nat>
    var rwcClosed: bool
    ghost const first: uint32
    ghost var heap: seq<Stream>
    ghost var table: map<uint32, nat>
    ghost var accepted: seq<nat>
    ghost var rawTaken: seq<Bytes>
    ghost var calls: nat
    ghost var claimed: multiset<uint32>
    ghost var ops: multiset<Op>

    ghost predicate Valid()
      reads this, heap
    {
      && ValidStreams(heap) && TableMatches(streams, table, heap) && QueueMatches(acceptCh, accepted, heap)
    }

    ghost function Values(): seq<Mux.Stream>
      reads this, heap
    {
      ValuesOf(heap)
    }

    // The endpoint of `Mux` that this connection is, with its read loop at `l`.
    ghost function Abs(l: Loop): Endpoint
      reads this, heap
    {
      Endpoint(first, calls, nextStreamID, claimed, Values(), table, l, readLoopErr, accepted, acceptClosed,
               readLoopDone, rawMsgCh, rawTaken, rawClosed, handlers, ops, false)
    }

    constructor (isHost: bool)
      ensures Valid() && Abs(Idle) == NewEndpoint(if isHost then 1 else 2) && !readLoopStarted && !rwcClosed
      ensures nextStreamID == if isHost then 1 else 2
      ensures streams == map[] && acceptCh == [] && rawMsgCh == [] && handlers == map[] && !readLoopErr
    {
      readLoopStarted, rwcClosed := false, false;
      streams, acceptCh, acceptClosed, rawMsgCh, rawClosed := map[], [], false, [], false;
      readLoopDone, readLoopErr, handlers := false, false, map[];
      nextStreamID := if isHost then 1 else 2;
      first := if isHost then 1 else 2;
      heap, table, accepted, rawTaken, calls, claimed, ops := [], map[], [], [], 0, multiset{}, multiset{};
    }

    // startStream, first critical section.
    method NextID(ghost l: Loop) returns (id: Option<uint32>)
      requires Valid() && !Locked(Abs(l))
      modifies this
      ensures Valid() && heap == old(heap)
      ensures id.None? <==> StartStep(old(Abs(l)), Claim).None?
      ensures id.None? ==> Abs(l) == old(Abs(l))
      ensures id.Some? ==> id.value == old(nextStreamID) && StartStep(old(Abs(l)), Claim) == Quiet(Abs(l))
      ensures id.None? <==> old(readLoopErr)
      ensures nextStreamID == if id.None? then old(nextStreamID) else (old(nextStreamID) + 2) % 0x1_0000_0000
      ensures streams == old(streams) && handlers == old(handlers)
    {
      hide ValidStreams, ValuesOf, TableMatches, QueueMatches;
      if readLoopErr { return None; }
      id := Some(nextStreamID);
      claimed := claimed + multiset{nextStreamID};
      nextStreamID := (nextStreamID + 2) % TWO32;
      calls := calls + 1;
    }

    // startStream, second critical section.
    method Register(id: uint32, mode: byte, route: Bytes, ghost l: Loop) returns (s: Stream)
      requires Valid() && !Locked(Abs(l)) && id in claimed
      modifies this
      ensures Valid() && heap == old(heap) + [s] && fresh(s)
      ensures StartStep(old(Abs(l)), Mux.Register(id, mode, route)) == Quiet(Abs(l))
      ensures streams == old(streams)[id := s] && s.id == id && s.start == [mode] + route
      ensures s.recvCh == [] && !s.closed && !s.cancelled && nextStreamID == old(nextStreamID)
    {
      hide ValidStreams, ValuesOf, TableMatches, QueueMatches;
      s := new Stream(id, [mode] + route, Starting);
      Insert(s, l);
      claimed := claimed - multiset{id};
    }

    // Puts a new stream into the table.
    method Insert(s: Stream, ghost l: Loop)
      requires Valid() && s.Valid() && s !in heap
      modifies `streams, `table, `heap
      ensures Valid() && heap == old(heap) + [s]
      ensures Abs(l) == old(Abs(l)).(heap := old(Values()) + [s.Value()], table := old(table)[s.id := |old(heap)|])
      ensures streams == old(streams)[s.id := s]
    {
      hide ValidStreams, ValuesOf, TableMatches, QueueMatches, Stream.Value;
      MoreStreams(heap, s);
      TableGrows(streams, table, heap, s, s.id);
      QueueStays(acceptCh, accepted, heap, s);
      streams := streams[s.id := s];
      table := table[s.id := |heap|];
      heap := heap + [s];
    }

    // Deletes an entry of the table.
    method RemoveStream(id: uint32, ghost l: Loop)
      requires Valid()
      modifies this
      ensures Valid() && heap == old(heap)
      ensures Abs(l) == old(Abs(l)).(table := old(table) - {id})
      ensures streams == old(streams) - {id}
    {
      hide ValidStreams, ValuesOf, TableMatches, QueueMatches;
      TableShrinks(streams, table, heap, id);
      streams := streams - {id};
      table := table - {id};
    }

    // What is left to do agrees with the program counter of the read loop.
    ghost predicate Matches(todo: Todo, l: Loop)
      reads this
    {
      match todo
      case Carry => l == Idle
      case Route(s, mode, route) =>
        l.Routing? && l.mode == mode && l.route == route && l.ref < |heap| && heap[l.ref] == s
      case Queue(s) => l.Queueing? && l.ref < |heap| && heap[l.ref] == s
      case Answer(id) => l == Replying(id)
      case Offer(s, f, failing) =>
        l.Offering? && l.frame == f && l.failing == failing && l.ref < |heap| && heap[l.ref] == s
    }

    // The read loop's critical section for a frame of a stream.
    method Dispatch(f: Frame) returns (todo: Todo, ghost next: Loop)
      requires Valid() && f.id != 0 && (f.id in streams ==> !streams[f.id].closed && streams[f.id].id == f.id)
      modifies this, if f.id in streams then {streams[f.id]} else {}
      ensures Valid() && Matches(todo, next)
      ensures Abs(next) == AfterDispatch(old(Abs(Got(f))), f)
      ensures f.id !in old(streams) && !IsStart(f) ==> todo == Answer(f.id) && streams == old(streams)
      ensures f.id !in old(streams) && IsStart(f) ==>
        && todo.Route? && fresh(todo.stream) && streams == old(streams)[f.id := todo.stream]
        && todo.stream.id == f.id && todo.stream.recvCh == [] && !todo.stream.closed && !todo.stream.cancelled
        && (if f.payload == [] then todo.mode == 0 && todo.route == [] else [todo.mode] + todo.route == f.payload)
      ensures f.id in old(streams) ==>
        var s := old(streams[f.id]);
        && s.recvCh == old(streams[f.id].recvCh)
        && (IsClose(f) ==> todo == Carry && streams == old(streams) - {f.id} && s.cancelled && s.closed)
        && (!IsClose(f) ==>
              && todo == Offer(s, f, IsError(f)) && streams == old(streams)
              && s.cancelled == (old(streams[f.id].cancelled) || IsError(f)) && !s.closed)
    {
      assert f.id in streams <==> f.id in table;
      hide ValidStreams, ValuesOf, TableMatches, QueueMatches, IsStart, AfterDispatch;
      if f.id in streams {
        todo, next := DispatchHeld(f);
      } else if IsStart(f) {
        AfterStart(Abs(Got(f)), f);
        todo, next := DispatchStart(f);
      } else {
        AfterLost(Abs(Got(f)), f);
        todo, next := Answer(f.id), Replying(f.id);
      }
    }

    method DispatchStart(f: Frame) returns (todo: Todo, ghost next: Loop)
      requires Valid()
      modifies this
      ensures Valid() && Matches(todo, next)
      ensures var e := old(Abs(Got(f)));
        Abs(next) == e.(heap := e.heap + [NewStream(f.id, f.payload, Unclaimed)], table := e.table[f.id := |e.heap|],
                        loop := Routing(|e.heap|, f.id, ModeOf(f.payload), RouteOf(f.payload)))
      ensures todo.Route? && fresh(todo.stream) && streams == old(streams)[f.id := todo.stream]
      ensures todo.stream.id == f.id && todo.stream.recvCh == [] && !todo.stream.closed && !todo.stream.cancelled
      ensures if f.payload == [] then todo.mode == 0 && todo.route == [] else [todo.mode] + todo.route == f.payload
    {
      hide ValidStreams, ValuesOf, TableMatches, QueueMatches;
      var mode: byte, route: Bytes := 0, [];
      if |f.payload| >= 1 { mode, route := f.payload[0], f.payload[1..]; }
      var s := new Stream(f.id, f.payload, Unclaimed);
      Insert(s, Got(f));
      todo, next := Route(s, mode, route), Routing(|heap| - 1, f.id, mode, route);
    }

    method DispatchHeld(f: Frame) returns (todo: Todo, ghost next: Loop)
      requires Valid() && f.id in streams && !streams[f.id].closed && streams[f.id].id == f.id
      modifies this, streams[f.id]
      ensures Valid() && Matches(todo, next)
      ensures Abs(next) == AfterDispatch(old(Abs(Got(f))), f)
      ensures var s := old(streams[f.id]);
        && s.recvCh == old(streams[f.id].recvCh)
        && (IsClose(f) ==> todo == Carry && streams == old(streams) - {f.id} && s.cancelled && s.closed)
        && (!IsClose(f) ==>
              && todo == Offer(s, f, IsError(f)) && streams == old(streams)
              && s.cancelled == (old(streams[f.id].cancelled) || IsError(f)) && !s.closed)
    {
      hide AfterDispatch, ValidStreams, ValuesOf, QueueMatches, TableMatches;
      if IsClose(f) {
        HeldClose(f);
        todo, next := Carry, Idle;
      } else {
        todo, next := HeldOther(f);
      }
    }

    // The stream under an ID, by index.
    lemma Entry(id: uint32)
      requires Valid() && id in streams
      ensures id in table && table[id] < |heap| && heap[table[id]] == streams[id] && streams[id].Valid()
      ensures ValuesOf(heap)[table[id]] == streams[id].Value()
    {}

    method HeldClose(f: Frame)
      requires Valid() && f.id in streams && !streams[f.id].closed && streams[f.id].id == f.id && IsClose(f)
      modifies this, streams[f.id]
      ensures Valid() && Abs(Idle) == AfterDispatch(old(Abs(Got(f))), f)
      ensures streams == old(streams) - {f.id}
      ensures var s := old(streams[f.id]); s.cancelled && s.closed && s.recvCh == old(streams[f.id].recvCh)
    {
      hide AfterDispatch, ValidStreams, ValuesOf, TableMatches, QueueMatches;
      Entry(f.id);
      AfterClose(Abs(Got(f)), f);
      CloseListed(f.id, PeerClosed);
      RemoveStream(f.id, Idle);
    }

    method HeldOther(f: Frame) returns (todo: Todo, ghost next: Loop)
      requires Valid() && f.id in streams && !streams[f.id].closed && streams[f.id].id == f.id && !IsClose(f)
      modifies this, streams[f.id]
      ensures Valid() && Matches(todo, next)
      ensures Abs(next) == AfterDispatch(old(Abs(Got(f))), f)
      ensures todo == Offer(old(streams[f.id]), f, IsError(f)) && streams == old(streams)
      ensures var s := old(streams[f.id]);
        && s.recvCh == old(streams[f.id].recvCh) && s.closed == old(streams[f.id].closed)
        && s.cancelled == (old(streams[f.id].cancelled) || IsError(f))
    {
      hide AfterDispatch, ValidStreams, ValuesOf, TableMatches, QueueMatches, IsClose, IsError, Mux.Receive;
      Entry(f.id);
      AfterOther(Abs(Got(f)), f);
      PrepareListed(f);
      todo, next := Offer(streams[f.id], f, IsError(f)), Offering(table[f.id], f, IsError(f));
    }

    method PrepareListed(f: Frame)
      requires Valid() && f.id in streams && !IsClose(f)
      modifies streams[f.id]
      ensures Valid() && Values() == old(Values())[table[f.id] := Mux.Receive(old(Values())[table[f.id]], f)]
      ensures var s := streams[f.id];
        && s.recvCh == old(s.recvCh) && s.closed == old(s.closed)
        && s.cancelled == (old(s.cancelled) || IsError(f))
    {
      Entry(f.id);
      streams[f.id].Prepare(f);
      OneChanged(heap, table[f.id], old(Values()));
    }

    // Cancels one stream of the table and closes its channel.
    method CloseListed(id: uint32, ghost cause: Cause)
      requires Valid() && id in streams && !streams[id].closed
      modifies streams[id]
      ensures Valid()
      ensures Values() == old(Values())[table[id] := Mux.Cancel(old(Values())[table[id]], cause).(closed := true)]
      ensures var s := streams[id]; s.cancelled && s.closed && s.recvCh == old(s.recvCh)
    {
      Entry(id);
      var s := streams[id];
      s.Cancel(cause);
      s.CloseRecv();
      OneChanged(heap, table[id], old(Values()));
    }

    // The read loop's send on `recvCh`: done if there is room.
    method Deliver(s: Stream, f: Frame, ghost l: Loop) returns (sent: bool)
      requires Valid() && l.Offering? && l.frame == f && l.ref < |heap| && heap[l.ref] == s && !s.closed
      modifies s
      ensures Valid()
      ensures OfferStep(old(Abs(l)), Mux.Deliver)
           == if sent then Quiet(Abs(if l.failing then Unlinking(l.ref, l.frame.id) else Idle)) else None
      ensures sent <==> |old(s.recvCh)| < 100
      ensures s.recvCh == if sent then old(s.recvCh) + [f] else old(s.recvCh)
    {
      if |s.recvCh| >= CAPACITY { return false; }
      s.recvCh := s.recvCh + [f];
      OneChanged(heap, l.ref, old(Values()));
      return true;
    }

    // HandleBidi, HandleSingleMulti and HandleMultiSingle: a later handler replaces an earlier one.
    method Handle(mode: byte, route: Bytes, handler: nat, ghost l: Loop)
      requires Valid()
      modifies this
      ensures Valid() && heap == old(heap)
      ensures ConnStep(old(Abs(l)), AddRoute(mode, route, handler)) == Quiet(Abs(l))
      ensures handlers == old(handlers)[(mode, route) := handler]
    {
      hide ValidStreams, ValuesOf, TableMatches, QueueMatches;
      handlers := handlers[(mode, route) := handler];
    }

    // After the lock is released for a Start frame: look for a handler, once, and start it. If there is
    // none, the stream is still to be offered to `AcceptStream`.
    method RouteStream(s: Stream, mode: byte, route: Bytes, ghost l: Loop)
        returns (handler: Option<nat>, todo: Todo, ghost next: Loop)
      requires Valid() && Matches(Route(s, mode, route), l)
      modifies s
      ensures Valid() && Matches(todo, next) && ReadStep(old(Abs(l)), Mux.RouteStream) == Quiet(Abs(next))
      ensures handler == HandlerFor(old(Abs(l)), mode, route)
      ensures handler == if mode <= 2 && (mode, route) in handlers then Some(handlers[(mode, route)]) else None
      ensures todo == if handler.Some? then Carry else Queue(s)
    {
      hide ValidStreams, ValuesOf, TableMatches, QueueMatches, ReadStep;
      RouteIs(Abs(l));
      if mode <= 2 && (mode, route) in handlers {
        StartHandler(s, l);
        return Some(handlers[(mode, route)]), Carry, Idle;
      }
      return None, Queue(s), Queueing(l.ref, l.id);
    }

    // The read loop's send on `acceptCh`: done if there is room.
    method QueueStream(s: Stream, ghost l: Loop) returns (sent: bool)
      requires Valid() && Matches(Queue(s), l) && !acceptClosed
      modifies this
      ensures Valid() && ReadStep(old(Abs(l)), Mux.QueueStream) == if sent then Quiet(Abs(Idle)) else None
      ensures sent <==> |old(acceptCh)| < 100
      ensures acceptCh == if sent then old(acceptCh) + [s] else old(acceptCh)
    {
      hide ValidStreams, ValuesOf, TableMatches, QueueMatches, ReadStep;
      QueueIs(Abs(l));
      QueueLength();
      if |acceptCh| >= CAPACITY { return false; }
      OfferAccept(s, l);
      return true;
    }

    lemma QueueLength()
      requires Valid()
      ensures |acceptCh| == |accepted|
    {}

    // The handler's goroutine gets the stream.
    ghost method StartHandler(s: Stream, l: Loop)
      requires Valid() && l.Routing? && l.ref < |heap| && heap[l.ref] == s
      modifies s
      ensures Valid() && Abs(Idle) == With(old(Abs(l)), l.ref, old(Abs(l)).heap[l.ref].(phase := InUse)).(loop := Idle)
    {
      s.phase := InUse;
      OneChanged(heap, l.ref, old(Values()));
    }

    method OfferAccept(s: Stream, ghost l: Loop)
      requires Valid() && l.Queueing? && l.ref < |heap| && heap[l.ref] == s
      modifies this
      ensures Valid() && Abs(Idle) == old(Abs(l)).(acceptQ := old(Abs(l)).acceptQ + [l.ref], loop := Idle)
      ensures acceptCh == old(acceptCh) + [s]
    {
      hide ValidStreams, ValuesOf, TableMatches;
      acceptCh, accepted := acceptCh + [s], accepted + [l.ref];
    }

    // AcceptStream: the oldest stream; an error once the channel is closed and empty; or it waits.
    method Accept(ghost l: Loop) returns (s: Case<Stream>)
      requires Valid()
      modifies this, if acceptCh == [] then {} else {acceptCh[0]}
      ensures Valid() && ConnStep(old(Abs(l)), TakeAccepted) == if s.Gives? then Quiet(Abs(l)) else None
      ensures s.Gives? <==> old(acceptCh) != []
      ensures s.Gives? ==> s.value == old(acceptCh[0]) && s.value.phase.InUse? && acceptCh == old(acceptCh)[1..]
      ensures s.Fails? <==> old(acceptCh) == [] && old(acceptClosed)
      ensures s.Fails? ==> s.loopError == readLoopErr
    {
      hide ValidStreams, ValuesOf, TableMatches, QueueMatches, ConnStep, Valid;
      QueueLength();
      OldestAccepted();
      TakeAcceptedIs(Abs(l));
      if acceptCh == [] { return if acceptClosed then Fails(readLoopErr) else Waits; }
      var taken := acceptCh[0];
      ghost var ref := accepted[0];
      PopAccepted(l);
      HandOver(taken, ref, l);
      return Gives(taken);
    }

    lemma OldestAccepted()
      requires Valid()
      ensures acceptCh != [] ==> accepted != [] && accepted[0] < |heap| && acceptCh[0] == heap[accepted[0]]
    {}

    // The stream passes into the hands of the application.
    ghost method HandOver(s: Stream, ref: nat, l: Loop)
      requires Valid() && ref < |heap| && heap[ref] == s
      modifies s
      ensures Valid() && s.phase.InUse? && Abs(l) == With(old(Abs(l)), ref, old(Abs(l)).heap[ref].(phase := InUse))
    {
      s.phase := InUse;
      OneChanged(heap, ref, old(Values()));
    }

    method PopAccepted(ghost l: Loop)
      requires Valid() && acceptCh != []
      modifies this
      ensures Valid() && heap == old(heap) && Abs(l) == old(Abs(l)).(acceptQ := old(Abs(l)).acceptQ[1..])
      ensures readLoopErr == old(readLoopErr) && acceptCh == old(acceptCh)[1..]
    {
      hide ValidStreams, ValuesOf, TableMatches;
      acceptCh, accepted := acceptCh[1..], accepted[1..];
    }

    // The read loop's send on `rawMsgCh`.
    method PushRaw(f: Frame) returns (sent: bool)
      requires Valid() && f.id == 0 && !rawClosed
      modifies this
      ensures Valid() && ReadStep(old(Abs(Got(f))), Mux.PushRaw) == if sent then Quiet(Abs(Idle)) else None
      ensures sent <==> |old(rawMsgCh)| < 100
      ensures rawMsgCh == if sent then old(rawMsgCh) + [f.payload] else old(rawMsgCh)
    {
      hide ValidStreams, ValuesOf, TableMatches, QueueMatches;
      if |rawMsgCh| >= CAPACITY { return false; }
      rawMsgCh := rawMsgCh + [f.payload];
      return true;
    }

    // ReadData, while the read loop runs: the oldest message; an error once the channel is closed and
    // empty; or it waits.
    method TakeRaw(ghost l: Loop) returns (data: Case<Bytes>)
      requires Valid()
      modifies this
      ensures Valid() && ConnStep(old(Abs(l)), Mux.TakeRaw) == if data.Gives? then Quiet(Abs(l)) else None
      ensures data.Gives? <==> old(rawMsgCh) != []
      ensures data.Gives? ==> rawTaken == old(rawTaken) + [data.value]
      ensures data.Gives? ==> data.value == old(rawMsgCh[0]) && rawMsgCh == old(rawMsgCh)[1..]
      ensures data.Fails? <==> old(rawMsgCh) == [] && old(rawClosed)
      ensures data.Fails? ==> data.loopError == readLoopErr
    {
      hide ValidStreams, ValuesOf, TableMatches, QueueMatches, ConnStep;
      TakeRawIs(Abs(l));
      if rawMsgCh == [] { return if rawClosed then Fails(readLoopErr) else Waits; }
      data := Gives(rawMsgCh[0]);
      rawMsgCh, rawTaken := rawMsgCh[1..], rawTaken + [rawMsgCh[0]];
    }

    // The first select of `Recv`, on a stream in the hands of the application.
    method Poll(s: Stream, ghost ref: nat, ghost l: Loop) returns (o: Option<Outcome>)
      requires Valid() && ref < |heap| && heap[ref] == s && s.phase.InUse?
      modifies s
      ensures Valid() && RecvStep(old(Abs(l)), Mux.Poll(ref)) == if o.Some? then Quiet(Abs(l)) else None
      ensures o.Some? ==> s.outcomes == old(s.outcomes) + [o.value]
      ensures old(s.recvCh) == [] ==> o == if s.closed then Some(EndOfStream) else None
      ensures old(s.recvCh) != [] ==>
        var f := old(s.recvCh[0]);
        && (o == Some(EndOfStream) <==> IsClose(f) || IsCloseWrite(f))
        && (o == Some(PeerError(f.payload)) <==> IsError(f) && !IsClose(f) && !IsCloseWrite(f))
        && (o == Some(Received(f.payload)) <==> !IsError(f) && !IsClose(f) && !IsCloseWrite(f))
        && s.recvCh == old(s.recvCh)[1..]
        && s.cancelled == (old(s.cancelled) || IsClose(f) || (IsError(f) && !IsCloseWrite(f)))
    {
      o := s.Receive(false);
      OneChanged(heap, ref, old(Values()));
    }

    // `Send` looks whether the stream is cancelled; its write follows.
    method Send(s: Stream, payload: Bytes, ghost ref: nat, ghost l: Loop) returns (ok: bool)
      requires Valid() && ref < |heap| && heap[ref] == s && s.phase.InUse?
      modifies this
      ensures Valid() && heap == old(heap) && streams == old(streams) && handlers == old(handlers)
      ensures ok <==> !s.cancelled
      ensures CallStep(old(Abs(l)), Mux.BeginSend(ref, payload)) == if ok then Quiet(Abs(l)) else None
    {
      InUseValue(ref);
      StreamValid(ref);
      hide ValidStreams, ValuesOf, TableMatches, QueueMatches;
      if s.cancelled { return false; }
      ops := ops + multiset{Sending(ref, payload)};
      return true;
    }

    lemma StreamValid(ref: nat)
      requires ValidStreams(heap) && ref < |heap|
      ensures heap[ref].Valid()
    {}

    // The default case of the first select of `Recv`: neither a frame nor the end.
    method Block(s: Stream, ghost ref: nat, ghost l: Loop) returns (waits: bool)
      requires Valid() && ref < |heap| && heap[ref] == s && s.phase.InUse?
      modifies this
      ensures Valid() && heap == old(heap) && streams == old(streams)
      ensures waits <==> s.recvCh == [] && !s.closed
      ensures RecvStep(old(Abs(l)), Mux.Block(ref)) == if waits then Quiet(Abs(l)) else None
    {
      InUseValue(ref);
      hide ValidStreams, ValuesOf, TableMatches, QueueMatches;
      if s.recvCh != [] || s.closed { return false; }
      ops := ops + multiset{Waiting(ref)};
      return true;
    }

    // The cases of its second select: a frame or the end of the channel ...
    method Wake(s: Stream, ghost ref: nat, ghost l: Loop) returns (o: Option<Outcome>)
      requires Valid() && ref < |heap| && heap[ref] == s && Waiting(ref) in ops
      modifies this, s
      ensures Valid() && RecvStep(old(Abs(l)), Mux.Wake(ref)) == if o.Some? then Quiet(Abs(l)) else None
      ensures old(s.recvCh) == [] ==> o == if old(s.closed) then Some(EndOfStream) else None
      ensures old(s.recvCh) != [] ==>
        var f := old(s.recvCh[0]);
        && (o == Some(EndOfStream) <==> IsClose(f) || IsCloseWrite(f))
        && (o == Some(PeerError(f.payload)) <==> IsError(f) && !IsClose(f) && !IsCloseWrite(f))
        && (o == Some(Received(f.payload)) <==> !IsError(f) && !IsClose(f) && !IsCloseWrite(f))
        && s.recvCh == old(s.recvCh)[1..]
        && s.cancelled == (old(s.cancelled) || IsClose(f) || (IsError(f) && !IsCloseWrite(f)))
    {
      hide *;
      WakeIs(ref, l);
      o := ReceiveAt(s, false, ref, l);
      if o.Some? { Finish(Waiting(ref), l); }
    }

    lemma WakeIs(ref: nat, l: Loop)
      requires ref < |heap| && Waiting(ref) in ops
      ensures RecvStep(Abs(l), Mux.Wake(ref))
           == if heap[ref].recvCh != [] || heap[ref].closed
              then Quiet(With(Abs(l), ref, Returned(heap[ref].Value(), false)).(ops := ops - multiset{Waiting(ref)}))
              else None
    {
      WakeStep(Abs(l), ref);
      InUseValue(ref);
    }

    // What another goroutine had to do is done.
    ghost method Finish(op: Op, l: Loop)
      requires Valid()
      modifies `ops
      ensures Valid() && ops == old(ops) - multiset{op}
      ensures Abs(l) == old(Abs(l)).(ops := old(ops) - multiset{op})
    {
      hide ValidStreams, ValuesOf, TableMatches, QueueMatches;
      ops := ops - multiset{op};
    }

    // A receiving case of a select, on a stream of this connection.
    method ReceiveAt(s: Stream, draining: bool, ghost ref: nat, ghost l: Loop) returns (o: Option<Outcome>)
      requires Valid() && ref < |heap| && heap[ref] == s
      modifies s
      ensures Valid()
      ensures Abs(l) == if o.Some? then With(old(Abs(l)), ref, Returned(old(s.Value()), draining)) else old(Abs(l))
      ensures old(s.recvCh) == [] ==> o == if old(s.closed) then Some(EndOfStream) else None
      ensures old(s.recvCh) != [] ==>
        var f := old(s.recvCh[0]);
        && (o == Some(EndOfStream) <==> IsClose(f) || IsCloseWrite(f))
        && (o == Some(PeerError(f.payload)) <==> IsError(f) && !IsClose(f) && !IsCloseWrite(f))
        && (o == Some(Received(f.payload)) <==> !IsError(f) && !IsClose(f) && !IsCloseWrite(f))
        && s.recvCh == old(s.recvCh)[1..]
        && s.cancelled == (old(s.cancelled) || (!draining && (IsClose(f) || (IsError(f) && !IsCloseWrite(f)))))
    {
      hide IsClose, IsError, IsCloseWrite, Take, AtEnd;
      o := s.Receive(draining);
      OneChanged(heap, ref, old(Values()));
    }

    // ... or the cancelled context.
    method GiveUp(s: Stream, ghost ref: nat, ghost l: Loop) returns (cancelled: bool)
      requires Valid() && ref < |heap| && heap[ref] == s && Waiting(ref) in ops
      modifies this
      ensures Valid() && heap == old(heap) && streams == old(streams)
      ensures cancelled <==> s.cancelled
      ensures RecvStep(old(Abs(l)), Mux.GiveUp(ref)) == if cancelled then Quiet(Abs(l)) else None
    {
      InUseValue(ref);
      StreamValid(ref);
      GiveUpStep(Abs(l), ref);
      hide ValidStreams, ValuesOf, TableMatches, QueueMatches, RecvStep;
      if !s.cancelled { return false; }
      ops := ops - multiset{Waiting(ref)} + multiset{Draining(ref)};
      return true;
    }

    method DrainStream(s: Stream, ghost ref: nat, ghost l: Loop) returns (o: Outcome)
      requires Valid() && ref < |heap| && heap[ref] == s && Draining(ref) in ops
      modifies this, s
      ensures Valid() && RecvStep(old(Abs(l)), Mux.Drain(ref)) == Quiet(Abs(l))
      ensures s.cancelled == old(s.cancelled) && (old(s.recvCh) == [] ==> o == EndOfStream)
      ensures old(s.recvCh) != [] ==>
        var f := old(s.recvCh[0]);
        && (o == EndOfStream <==> IsClose(f) || IsCloseWrite(f))
        && (o == PeerError(f.payload) <==> IsError(f) && !IsClose(f) && !IsCloseWrite(f))
        && (o == Received(f.payload) <==> !IsError(f) && !IsClose(f) && !IsCloseWrite(f))
    {
      DrainStep(Abs(l), ref);
      InUseValue(ref);
      hide IsClose, IsError, IsCloseWrite, Returned, RecvStep, Valid, ValuesOf;
      o := DrainAt(s, ref, l);
      Finish(Draining(ref), l);
    }

    method DrainAt(s: Stream, ghost ref: nat, ghost l: Loop) returns (o: Outcome)
      requires Valid() && ref < |heap| && heap[ref] == s
      modifies s
      ensures Valid() && Abs(l) == With(old(Abs(l)), ref, Returned(old(s.Value()), true))
      ensures s.cancelled == old(s.cancelled) && (old(s.recvCh) == [] ==> o == EndOfStream)
      ensures old(s.recvCh) != [] ==>
        var f := old(s.recvCh[0]);
        && (o == EndOfStream <==> IsClose(f) || IsCloseWrite(f))
        && (o == PeerError(f.payload) <==> IsError(f) && !IsClose(f) && !IsCloseWrite(f))
        && (o == Received(f.payload) <==> !IsError(f) && !IsClose(f) && !IsCloseWrite(f))
    {
      hide IsClose, IsError, IsCloseWrite, Take, AtEnd;
      o := s.Drain();
      OneChanged(heap, ref, old(Values()));
    }

    // The read loop's other case on `recvCh`: the stream is cancelled, and the frame is dropped.
    method Discard(s: Stream, ghost l: Loop) returns (dropped: bool)
      requires Valid() && l.Offering? && l.ref < |heap| && heap[l.ref] == s
      ensures dropped <==> s.cancelled
      ensures OfferStep(Abs(l), Mux.Discard)
           == if dropped then Quiet(Abs(if l.failing then Unlinking(l.ref, l.frame.id) else Idle)) else None
    {
      InUseValue(l.ref);
      StreamValid(l.ref);
      return s.cancelled;
    }

    // After an Error frame its stream leaves the table; after any other it stays.
    method AfterFrame(id: uint32, failing: bool, ghost ref: nat) returns (ghost next: Loop)
      requires Valid() && id != 0
      modifies this
      ensures Valid() && heap == old(heap) && next == Idle
      ensures streams == if failing then old(streams) - {id} else old(streams)
      ensures failing ==> OfferStep(old(Abs(Unlinking(ref, id))), Unlink) == Quiet(Abs(Idle))
      ensures !failing ==> Abs(Idle) == old(Abs(Idle))
    {
      if failing { RemoveStream(id, Idle); }
      return Idle;
    }

    // startStream, after its write has failed.
    method DropStart(s: Stream, ghost ref: nat, ghost l: Loop)
      requires Valid() && !Locked(Abs(l)) && ref < |heap| && heap[ref] == s && s.phase.StartFailed?
      modifies this, s
      ensures Valid() && streams == old(streams) - {s.id}
      ensures StartStep(old(Abs(l)), Mux.DropStart(ref)) == Quiet(Abs(l))
    {
      InUseValue(ref);
      s.phase := Abandoned;
      OneChanged(heap, ref, old(Values()));
      RemoveStream(s.id, l);
    }

    // The frame that startStream hands to the writer, and what follows from `ok`, which the writer reports.
    method WriteStart(s: Stream, mode: byte, route: Bytes, ok: bool, ghost ref: nat, ghost l: Loop)
        returns (f: Frame)
      requires Valid() && ref < |heap| && heap[ref] == s && s.phase.Starting? && s.start == [mode] + route
      modifies s
      ensures Valid() && f == Frame(s.id, 1, [mode] + route) && s.phase == if ok then InUse else StartFailed
      ensures Writable(f.payload) ==>
          StartStep(old(Abs(l)), Mux.WriteStart(ref, ok)) == Write(Abs(l), ok, OnWire(f))
    {
      InUseValue(ref);
      hide Writable, OnWire;
      s.phase := if ok then InUse else StartFailed;
      OneChanged(heap, ref, old(Values()));
      return Frame(s.id, FLAG_START, [mode] + route);
    }

    // The frame of a `Send` that has found its stream open.
    method WriteData(s: Stream, payload: Bytes, ok: bool, ghost ref: nat, ghost l: Loop) returns (f: Frame)
      requires Valid() && ref < |heap| && heap[ref] == s && Sending(ref, payload) in ops
      modifies `ops
      ensures Valid() && f == Frame(s.id, 2, payload)
      ensures Writable(payload) ==>
          CallStep(old(Abs(l)), Mux.WriteData(ref, payload, ok)) == Write(Abs(l), ok, OnWire(f))
    {
      f := Frame(s.id, FLAG_DATA, payload);
      assert f.flags == 2;
      hide *;
      if Writable(payload) { WriteDataIs(ref, payload, ok, l); }
      Finish(Sending(ref, payload), l);
    }

    lemma WriteDataIs(ref: nat, payload: Bytes, ok: bool, l: Loop)
      requires ref < |heap| && Sending(ref, payload) in ops && Writable(payload)
      ensures CallStep(Abs(l), Mux.WriteData(ref, payload, ok))
           == Write(Abs(l).(ops := ops - multiset{Sending(ref, payload)}), ok,
                    OnWire(Frame(heap[ref].id, FLAG_DATA, payload)))
    {
      InUseValue(ref);
      hide Writable, Carried;
    }

    // The frame of `CloseWrite`, on any stream in hand.
    method WriteEnd(s: Stream, ok: bool, ghost ref: nat, ghost l: Loop) returns (f: Frame)
      requires Valid() && ref < |heap| && heap[ref] == s && s.phase.InUse?
      ensures f == Frame(s.id, 16, [])
      ensures CallStep(Abs(l), Mux.WriteEnd(ref, ok)) == Write(Abs(l), ok, f)
    {
      InUseValue(ref);
      return Frame(s.id, FLAG_CLOSE_WRITE, []);
    }

    // The second step of `Stream.Close`, which goes on whatever the writer reports.
    method WriteClose(s: Stream, ok: bool, ghost ref: nat, ghost l: Loop) returns (f: Frame)
      requires Valid() && ref < |heap| && heap[ref] == s && Closing(ref) in ops
      modifies `ops
      ensures Valid() && f == Frame(s.id, 4, []) && Removing(ref) in ops
      ensures CallStep(old(Abs(l)), Mux.WriteClose(ref, ok)) == Write(Abs(l), ok, f)
    {
      f := Frame(s.id, FLAG_CLOSE, []);
      assert f.flags == 4;
      hide *;
      WriteCloseIs(ref, ok, l);
      Finish(Closing(ref), l);
      Commence(Removing(ref), l);
    }

    lemma WriteCloseIs(ref: nat, ok: bool, l: Loop)
      requires ref < |heap| && Closing(ref) in ops
      ensures CallStep(Abs(l), Mux.WriteClose(ref, ok))
           == Write(Abs(l).(ops := ops - multiset{Closing(ref)} + multiset{Removing(ref)}), ok,
                    Frame(heap[ref].id, FLAG_CLOSE, []))
    {
      InUseValue(ref);
    }

    // Something is left for another goroutine.
    ghost method Commence(op: Op, l: Loop)
      requires Valid()
      modifies `ops
      ensures Valid() && op in ops && ops == old(ops) + multiset{op}
      ensures Abs(l) == old(Abs(l)).(ops := old(ops) + multiset{op})
    {
      hide ValidStreams, ValuesOf, TableMatches, QueueMatches;
      ops := ops + multiset{op};
    }

    // The answer of the read loop to a frame of no stream.
    method WriteNotFound(id: uint32, ok: bool) returns (f: Frame)
      requires Valid()
      ensures f == Frame(id, 8, NOT_FOUND)
      ensures OfferStep(Abs(Replying(id)), Reply(ok)) == Write(Abs(Idle), ok, f)
    {
      return Frame(id, FLAG_ERROR, NOT_FOUND);
    }

    // The last step of `Stream.Close`.
    method EndClose(s: Stream, ghost ref: nat, ghost l: Loop)
      requires Valid() && !Locked(Abs(l)) && ref < |heap| && heap[ref] == s && Removing(ref) in ops
      modifies this
      ensures Valid() && heap == old(heap) && streams == old(streams) - {s.id}
      ensures CallStep(old(Abs(l)), Mux.Remove(ref)) == Quiet(Abs(l))
    {
      InUseValue(ref);
      RemoveStream(s.id, l);
      hide ValidStreams, ValuesOf, TableMatches, QueueMatches;
      ops := ops - multiset{Removing(ref)};
    }

    // The first step of `Stream.Close`; its write and `RemoveStream` follow.
    method BeginClose(s: Stream, ghost ref: nat, ghost l: Loop)
      requires Valid() && ref < |heap| && heap[ref] == s && s.phase.InUse?
      modifies this, s
      ensures Valid() && CallStep(old(Abs(l)), Mux.BeginClose(ref)) == Quiet(Abs(l))
      ensures s.cancelled && s.recvCh == old(s.recvCh) && streams == old(streams)
    {
      InUseValue(ref);
      hide ValidStreams, ValuesOf, TableMatches, QueueMatches;
      CancelHeld(s, ref);
      ops := ops + multiset{Closing(ref)};
    }

    lemma InUseValue(ref: nat)
      requires ref < |heap|
      ensures ValuesOf(heap)[ref] == heap[ref].Value()
    {}

    method CancelHeld(s: Stream, ghost ref: nat)
      requires Valid() && ref < |heap| && heap[ref] == s
      modifies s
      ensures Valid() && Values() == old(Values())[ref := Mux.Cancel(old(Values())[ref], ClosedHere)]
      ensures s.cancelled && s.recvCh == old(s.recvCh)
    {
      s.Cancel(ClosedHere);
      OneChanged(heap, ref, old(Values()));
    }

    // handleReadLoopError: in the order in which the map happens to be ranged over, each stream is
    // cancelled and its channel closed; then the table is emptied and `acceptCh` closed.
    method HandleReadLoopError()
      requires Valid() && TableOk(Abs(Idle)) && !acceptClosed
      modifies this, heap
      ensures Valid() && Abs(EndingAccept) == Swept(old(Abs(Idle))).(acceptClosed := true)
      ensures streams == map[] && readLoopErr && acceptClosed
      ensures forall id | id in old(streams) :: old(streams)[id].cancelled && old(streams)[id].closed
    {
      hide ValidStreams, ValuesOf, TableMatches, QueueMatches, SweptStreams, TableOk;
      SweepAll();
      EmptyTable(Idle);
      EndAccepting();
    }

    method EmptyTable(ghost l: Loop)
      requires Valid()
      modifies `streams, `table
      ensures Valid() && Abs(l) == old(Abs(l)).(table := map[]) && streams == map[]
    {
      hide ValidStreams, ValuesOf, QueueMatches, TableMatches;
      NoTable(heap);
      streams, table := map[], map[];
    }

    method EndAccepting()
      requires Valid()
      modifies `readLoopErr, `acceptClosed
      ensures Valid()
      ensures Abs(EndingAccept) == old(Abs(Idle)).(loopFailed := true, acceptClosed := true, loop := EndingAccept)
      ensures readLoopErr && acceptClosed
    {
      hide ValidStreams, ValuesOf, QueueMatches, TableMatches;
      readLoopErr, acceptClosed := true, true;
    }

    // A listed stream whose channel is open in `e` is open as an object.
    lemma OpenEntry(e: Endpoint, id: uint32)
      requires Valid() && id in streams && Values() == e.heap && !e.heap[table[id]].closed
      ensures !streams[id].closed && table[id] < |e.heap|
    {
      Entry(id);
    }

    lemma Keys()
      requires Valid()
      ensures streams.Keys == table.Keys && forall id | id in table :: table[id] < |heap|
    {}

    method SweepAll()
      requires Valid() && TableOk(Abs(Idle))
      modifies heap
      ensures Valid() && Values() == SweptStreams(old(Abs(Idle)), {})
      ensures forall id | id in streams :: streams[id].cancelled && streams[id].closed
    {
      hide ValidStreams, ValuesOf, TableMatches, QueueMatches, SweptStreams, TableOk, Valid;
      ghost var e := Abs(Idle);
      Keys();
      var rest := streams.Keys;
      NothingSwept(e);
      while rest != {}
        invariant Valid() && rest <= streams.Keys && Values() == SweptStreams(e, rest)
        invariant forall id | id in streams && id !in rest :: streams[id].cancelled && streams[id].closed
      {
        var id :| id in rest;
        SweptMore(e, rest, id);
        OpenEntry(Abs(Idle), id);
        Entry(id);
        CloseListed(id, LoopEnded);
        rest := rest - {id};
      }
    }

    method CancelListed(id: uint32)
      requires Valid() && id in streams
      modifies streams[id]
      ensures Valid() && Values() == old(Values())[table[id] := Mux.Cancel(old(Values())[table[id]], ConnClosed)]
      ensures streams[id].cancelled
    {
      Entry(id);
      streams[id].Cancel(ConnClosed);
      OneChanged(heap, table[id], old(Values()));
    }

    // Close: every stream of the table is cancelled, if a read loop serves them; then the channel
    // under the connection is closed.
    method Close(ghost l: Loop)
      requires Valid() && TableOk(Abs(l)) && !Locked(Abs(l))
      modifies this, heap
      ensures Valid() && heap == old(heap) && rwcClosed && readLoopStarted == old(readLoopStarted)
      ensures Abs(l) == if readLoopStarted then old(Abs(l)).(heap := CancelledStreams(old(Abs(l)), {})) else old(Abs(l))
      ensures streams == old(streams)
      ensures readLoopStarted ==> forall id | id in streams :: streams[id].cancelled
    {
      hide ValidStreams, ValuesOf, TableMatches, QueueMatches, CancelledStreams, TableOk;
      if readLoopStarted { CancelAll(l); }
      rwcClosed := true;
    }

    method CancelAll(ghost l: Loop)
      requires Valid() && TableOk(Abs(l))
      modifies heap
      ensures Valid() && Values() == CancelledStreams(old(Abs(l)), {})
      ensures forall id | id in streams :: streams[id].cancelled
    {
      hide ValidStreams, ValuesOf, TableMatches, QueueMatches, CancelledStreams, TableOk, Valid;
      ghost var e := Abs(l);
      Keys();
      var rest := streams.Keys;
      NothingCancelled(e);
      while rest != {}
        invariant Valid() && rest <= streams.Keys && Values() == CancelledStreams(e, rest)
        invariant forall id | id in streams && id !in rest :: streams[id].cancelled
      {
        var id :| id in rest;
        CancelledMore(e, rest, id);
        Entry(id);
        CancelListed(id);
        rest := rest - {id};
      }
    }
  }
}
