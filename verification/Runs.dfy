/** Every run of two endpoints keeps the invariant of every line; the theorems about streams follow. */
module Runs {
  import opened Bytes
  import opened Frames
  import opened Options
  import opened Mux
  import opened Line
  import opened Network

  // ---- Stream IDs ----

  predicate Own(e: Endpoint, id: uint32) { id % 2 == e.first % 2 }

  // Handed out by one of the `startStream` calls so far, as long as the counter has not wrapped.
  predicate Issued(e: Endpoint, id: uint32) { Own(e, id) && e.first <= id < e.first + 2 * e.calls }

  ghost predicate IdsOk(e: Endpoint)
  {
    && 1 <= e.first <= 2 && e.calls < HALF
    && Unique(e.heap)
    && (forall id: uint32 | id in e.claimed :: Issued(e, id) && e.claimed[id] == 1 && Absent(e.heap, id))
    && (forall i | 0 <= i < |e.heap| :: e.heap[i].id != 0 && (Own(e, e.heap[i].id) ==> Issued(e, e.heap[i].id)))
  }

  // `e'` has the counter and the IDs of `e`.
  ghost predicate SameIds(e: Endpoint, e': Endpoint) {
    && e'.first == e.first && e'.calls == e.calls && e'.claimed == e.claimed
    && |e'.heap| == |e.heap| && forall i | 0 <= i < |e.heap| :: e'.heap[i].id == e.heap[i].id
  }

  lemma SameIdsKeep(e: Endpoint, e': Endpoint)
    requires IdsOk(e) && SameIds(e, e')
    ensures IdsOk(e')
  {}

  predicate SameHeap(e: Endpoint, e': Endpoint) {
    e'.first == e.first && e'.calls == e.calls && e'.claimed == e.claimed && e'.heap == e.heap
  }

  lemma AllTheSame(e: Endpoint, e': Endpoint)
    requires SameHeap(e, e')
    ensures SameIds(e, e')
  {}

  lemma SameButOne(e: Endpoint, e1: Endpoint, ref: nat, s: Stream)
    requires SameHeap(e, e1) && ref < |e.heap| && s.id == e.heap[ref].id
    ensures SameIds(e, With(e1, ref, s))
  {}

  lemma ClaimIds(e: Endpoint)
    requires EpOk(e) && IdsOk(e) && e.calls + 1 < HALF
    ensures IdsOk(e.(calls := e.calls + 1, nextId := (e.nextId + 2) % TWO32, claimed := e.claimed + multiset{e.nextId}))
  {
    Parts(e);
    hide EpOk;
    assert e.nextId == e.first + 2 * e.calls;
    assert !Issued(e, e.nextId);
    assert Absent(e.heap, e.nextId);
    hide Unique, Absent;
    ClaimOne(e.claimed, e.nextId);
  }

  lemma ClaimOne(claimed: multiset<uint32>, id: uint32)
    requires id !in claimed
    ensures (claimed + multiset{id})[id] == 1
    ensures forall i: uint32 | i in claimed :: (claimed + multiset{id})[i] == claimed[i]
    ensures forall i: uint32 | i in claimed + multiset{id} :: i in claimed || i == id
  {}

  lemma RegisterIds(e: Endpoint, id: uint32, start: Bytes, phase: Phase, table: map<uint32, nat>)
    requires IdsOk(e) && id in e.claimed
    ensures IdsOk(e.(claimed := e.claimed - multiset{id}, heap := e.heap + [NewStream(id, start, phase)],
        table := table))
  {
    assert Issued(e, id) && Absent(e.heap, id);
  }

  lemma AcceptIds(e: Endpoint, id: uint32, start: Bytes, table: map<uint32, nat>, l: Loop)
    requires IdsOk(e) && id != 0 && !Own(e, id) && Absent(e.heap, id)
    ensures IdsOk(e.(heap := e.heap + [NewStream(id, start, Unclaimed)], table := table, loop := l))
  {}

  // A frame that makes a stream: its ID is the peer's, and new.
  ghost predicate MakesNew(e: Endpoint, a: Action) {
    a.Dispatch? && e.loop.Got? && e.loop.frame.id !in e.table && IsStart(e.loop.frame) ==>
      !Own(e, e.loop.frame.id) && Absent(e.heap, e.loop.frame.id)
  }

  lemma StartIds(e: Endpoint, a: Action)
    requires EpOk(e) && IdsOk(e) && StartStep(e, a).Some? && StartStep(e, a).value.e.calls < HALF
    ensures IdsOk(StartStep(e, a).value.e)
  {
    hide EpOk, IdsOk, Own, Issued, SameIds, Writable, Carried;
    if a.Claim? {
      ClaimIds(e);
    } else if a.Register? {
      RegisterIds(e, a.id, [a.mode] + a.route, Starting, e.table[a.id := |e.heap|]);
    } else if a.WriteStart? {
      SameButOne(e, e, a.ref, e.heap[a.ref].(phase := if a.ok then InUse else StartFailed));
      SameIdsKeep(e, StartStep(e, a).value.e);
    } else {
      DropIds(e, a.ref);
      hide StartStep;
    }
  }

  lemma DropIds(e: Endpoint, ref: nat)
    requires IdsOk(e) && StartStep(e, DropStart(ref)).Some?
    ensures IdsOk(StartStep(e, DropStart(ref)).value.e)
  {
    hide IdsOk, SameIds;
    SameButOne(e, e.(table := e.table - {e.heap[ref].id}), ref, e.heap[ref].(phase := Abandoned));
    SameIdsKeep(e, StartStep(e, DropStart(ref)).value.e);
  }

  lemma KnownIds(e: Endpoint)
    requires e.loop.Got? && e.loop.frame.id in e.table && e.table[e.loop.frame.id] < |e.heap|
    ensures SameIds(e, DispatchFrame(e, e.loop.frame))
  {
    hide SameIds, Receive, IsClose, IsError;
    var f := e.loop.frame;
    var ref := e.table[f.id];
    ReceiveKeepsId(e.heap[ref], f);
    SameButOne(e, e.(loop := DispatchFrame(e, f).loop), ref, Receive(e.heap[ref], f));
  }

  lemma DispatchIds(e: Endpoint)
    requires e.loop.Got? && !(e.loop.frame.id !in e.table && IsStart(e.loop.frame))
    ensures SameIds(e, DispatchFrame(e, e.loop.frame))
  {
    hide SameIds, Receive, IsStart;
    if e.loop.frame.id in e.table && e.table[e.loop.frame.id] < |e.heap| { KnownIds(e); }
    else { AllTheSame(e, DispatchFrame(e, e.loop.frame)); }
  }

  lemma RouteIds(e: Endpoint)
    requires ReadStep(e, RouteStream).Some?
    ensures SameIds(e, ReadStep(e, RouteStream).value.e)
  {
    hide SameIds, HandlerFor;
    if HandlerFor(e, e.loop.mode, e.loop.route).Some? {
      SameButOne(e, e.(loop := Idle), e.loop.ref, e.heap[e.loop.ref].(phase := InUse));
    } else {
      AllTheSame(e, e.(loop := Queueing(e.loop.ref, e.loop.id)));
    }
  }

  predicate Makes(e: Endpoint, a: Action) {
    a.Dispatch? && e.loop.Got? && e.loop.frame.id !in e.table && IsStart(e.loop.frame)
  }

  // Steps of the read loop that make no stream.
  lemma ReadSame(e: Endpoint, a: Action)
    requires ReadStep(e, a).Some? && !Makes(e, a)
    ensures SameIds(e, ReadStep(e, a).value.e)
  {
    hide SameIds, DispatchFrame, HandlerFor, IsStart, With;
    if a.Dispatch? { DispatchIds(e); }
    else if a.RouteStream? { RouteIds(e); hide ReadStep; }
    else { AllTheSame(e, ReadStep(e, a).value.e); }
  }

  lemma ReadIds(e: Endpoint, a: Action)
    requires EpOk(e) && IdsOk(e) && ReadStep(e, a).Some? && MakesNew(e, a)
    ensures IdsOk(ReadStep(e, a).value.e)
  {
    hide EpOk, IdsOk, Own, SameIds;
    if Makes(e, a) {
      hide Absent, IsStart;
      var f := e.loop.frame;
      AcceptIds(e, f.id, f.payload, DispatchFrame(e, f).table, DispatchFrame(e, f).loop);
    } else {
      ReadSame(e, a);
      SameIdsKeep(e, ReadStep(e, a).value.e);
    }
  }

  lemma CallIds(e: Endpoint, a: Action)
    requires CallStep(e, a).Some?
    ensures SameIds(e, CallStep(e, a).value.e)
  {
    hide SameIds, Writable, Carried, With, Cancel;
    if a.BeginClose? { CloseIds(e, a.ref); } else { AllTheSame(e, CallStep(e, a).value.e); }
  }

  lemma CloseIds(e: Endpoint, ref: nat)
    requires CallStep(e, BeginClose(ref)).Some?
    ensures SameIds(e, CallStep(e, BeginClose(ref)).value.e)
  {
    hide SameIds;
    SameButOne(e, e.(ops := e.ops + multiset{Closing(ref)}), ref, Cancel(e.heap[ref], ClosedHere));
  }

  lemma PollIds(e: Endpoint, ref: nat)
    requires RecvStep(e, Poll(ref)).Some?
    ensures SameIds(e, RecvStep(e, Poll(ref)).value.e)
  {
    PollIs(e, ref);
    hide RecvStep, SameIds, Returned;
    ReturnedId(e.heap[ref], false);
    SameButOne(e, e, ref, Returned(e.heap[ref], false));
  }

  lemma WakeIds(e: Endpoint, ref: nat)
    requires RecvStep(e, Wake(ref)).Some?
    ensures SameIds(e, RecvStep(e, Wake(ref)).value.e)
  {
    WakeIs(e, ref);
    hide RecvStep, SameIds, Returned;
    ReturnedId(e.heap[ref], false);
    SameButOne(e, e.(ops := e.ops - multiset{Waiting(ref)}), ref, Returned(e.heap[ref], false));
  }

  lemma DrainIds(e: Endpoint, ref: nat)
    requires RecvStep(e, Drain(ref)).Some?
    ensures SameIds(e, RecvStep(e, Drain(ref)).value.e)
  {
    DrainIs(e, ref);
    hide RecvStep, SameIds, Returned;
    ReturnedId(e.heap[ref], true);
    SameButOne(e, e.(ops := e.ops - multiset{Draining(ref)}), ref, Returned(e.heap[ref], true));
  }

  lemma RecvIds(e: Endpoint, a: Action)
    requires RecvStep(e, a).Some?
    ensures SameIds(e, RecvStep(e, a).value.e)
  {
    hide SameIds, Take, AtEnd;
    if a.Poll? { PollIds(e, a.ref); hide RecvStep; }
    else if a.Wake? { WakeIds(e, a.ref); hide RecvStep; }
    else if a.Drain? { DrainIds(e, a.ref); hide RecvStep; }
    else { AllTheSame(e, RecvStep(e, a).value.e); }
  }

  lemma ConnIds(e: Endpoint, a: Action)
    requires ConnStep(e, a).Some?
    ensures SameIds(e, ConnStep(e, a).value.e)
  {
    hide SameIds, Writable, Carried;
    if a.TakeAccepted? {
      var ref := e.acceptQ[0];
      SameButOne(e, e.(acceptQ := e.acceptQ[1..]), ref, e.heap[ref].(phase := InUse));
    } else if a.CancelOne? {
      SameButOne(e, e, e.table[a.id], Cancel(e.heap[e.table[a.id]], ConnClosed));
    } else {
      AllTheSame(e, ConnStep(e, a).value.e);
    }
  }

  lemma OfferIds(e: Endpoint, a: Action)
    requires OfferStep(e, a).Some?
    ensures SameIds(e, OfferStep(e, a).value.e)
  {
    hide SameIds, AfterOffer, With;
    if a.Deliver? { DeliverIds(e); } else { AllTheSame(e, OfferStep(e, a).value.e); }
  }

  lemma DeliverIds(e: Endpoint)
    requires OfferStep(e, Deliver).Some?
    ensures SameIds(e, OfferStep(e, Deliver).value.e)
  {
    hide SameIds, AfterOffer;
    var s := e.heap[e.loop.ref];
    if s.closed {
      AllTheSame(e, OfferStep(e, Deliver).value.e);
    } else {
      SameButOne(e, e.(loop := AfterOffer(e.loop)), e.loop.ref, s.(queue := s.queue + [e.loop.frame]));
    }
  }

  lemma ShutIds(e: Endpoint)
    requires EndStep(e, FinishClose).Some?
    ensures SameIds(e, EndStep(e, FinishClose).value.e)
  {
    hide SameIds;
    var s := e.heap[e.loop.ref];
    if s.closed {
      AllTheSame(e, EndStep(e, FinishClose).value.e);
    } else {
      FinishCloseIs(e);
      SameButOne(e, e.(table := e.table - {e.loop.id}, loop := if e.loop.sweeping then Sweeping else Idle),
                 e.loop.ref, s.(closed := true));
    }
  }

  lemma SweepIds(e: Endpoint, id: uint32)
    requires EndStep(e, SweepOne(id)).Some?
    ensures SameIds(e, EndStep(e, SweepOne(id)).value.e)
  {
    hide SameIds;
    var ref := e.table[id];
    SameButOne(e, e.(loop := HalfClosed(ref, id, true)), ref, Cancel(e.heap[ref], LoopEnded));
  }

  lemma EndIds(e: Endpoint, a: Action)
    requires EndStep(e, a).Some?
    ensures SameIds(e, EndStep(e, a).value.e)
  {
    hide SameIds, With, Cancel;
    if a.FinishClose? { ShutIds(e); hide EndStep; }
    else if a.SweepOne? { SweepIds(e, a.id); hide EndStep; }
    else { AllTheSame(e, EndStep(e, a).value.e); }
  }

  lemma IdsKeep(e: Endpoint, a: Action)
    requires EpOk(e) && IdsOk(e) && Apply(e, a).Some? && Apply(e, a).value.e.calls < HALF && MakesNew(e, a)
    ensures IdsOk(Apply(e, a).value.e)
  {
    hide EpOk, IdsOk, MakesNew, SameIds, StartStep, CallStep, RecvStep, ConnStep, ReadStep, OfferStep, EndStep;
    if ForStart(a) { StartIds(e, a); }
    else if ForRead(a) { ReadIds(e, a); }
    else {
      if ForCalls(a) { CallIds(e, a); }
      else if ForRecv(a) { RecvIds(e, a); }
      else if ForConn(a) { ConnIds(e, a); }
      else if ForOffer(a) { OfferIds(e, a); }
      else { EndIds(e, a); }
      SameIdsKeep(e, Apply(e, a).value.e);
    }
  }

  // ---- Both halves of a line, as they are in a network ----

  ghost function HalfOf(me: Party, other: Party, x: uint32): Half
    requires me.read <= |other.log|
  {
    Half(View(me.e, x), Of(me.log, x), |Of(other.log[..me.read], x)|)
  }

  ghost predicate PartyOk(p: Party, other: Party) {
    EpOk(p.e) && IdsOk(p.e) && p.read <= |other.log|
  }

  lemma ReadNext(log: seq<Frame>, read: nat, x: uint32)
    requires read < |log|
    ensures Of(log[..read + 1], x) == Of(log[..read], x) + if log[read].id == x then [log[read]] else []
    ensures Of(log[..read], x) <= Of(log, x)
    ensures log[read].id == x ==> |Of(log[..read], x)| < |Of(log, x)| && Of(log, x)[|Of(log[..read], x)|] == log[read]
  {
    assert log[..read + 1] == log[..read] + [log[read]];
    OfOne(log[..read], log[read], x);
    OfPrefix(log[..read], log, x);
    OfPrefix(log[..read + 1], log, x);
  }

  lemma EventShape(e: Endpoint, a: Action)
    ensures EventOf(e, a).Reads? <==> a.Read?
    ensures a.Read? ==> Subject(e, a) == a.frame.id && EventOf(e, a) == Reads(a.frame)
    ensures EventOf(e, a).Registers? <==> a.Register?
    ensures a.Register? ==> Subject(e, a) == a.id
  {}

  lemma PartyStepParts(me: Party, other: Party, a: Action)
    requires PartyStep(me, other, a).Some?
    ensures Apply(me.e, a).Some?
    ensures var r, me' := Apply(me.e, a).value, PartyStep(me, other, a).value;
      && me' == Party(r.e, me.log + SentFrames(r.sent), if a.Read? then me.read + 1 else me.read)
      && (a.Read? ==> r.sent.None? && me.read < |other.log| && other.log[me.read] == a.frame)
  {}

  // The other half of a line sees only the frames it has read.
  lemma OtherHalf(me: Party, me': Party, other: Party, x: uint32)
    requires other.read <= |me.log| && me.log <= me'.log
    ensures HalfOf(other, me', x) == HalfOf(other, me, x)
  {
    hide Of, View;
    assert me'.log[..other.read] == me.log[..other.read];
  }

  lemma LogOf(log: seq<Frame>, sent: Option<Frame>, id: uint32, x: uint32)
    requires sent.Some? ==> sent.value.id == id
    ensures Of(log + SentFrames(sent), x) == Of(log, x) + if id == x then SentFrames(sent) else []
  {
    if sent.Some? { OfOne(log, sent.value, x); } else { assert log + [] == log; }
    hide Of;
  }

  // What `PartyStepParts` and `StepFollows` say of a step.
  ghost predicate Moved(me: Party, me': Party, other: Party, a: Action, x: uint32)
  {
    && Apply(me.e, a).Some?
    && var r := Apply(me.e, a).value;
    && me' == Party(r.e, me.log + SentFrames(r.sent), if a.Read? then me.read + 1 else me.read)
    && me.read <= |other.log|
    && (a.Read? ==> r.sent.None? && me.read < |other.log| && other.log[me.read] == a.frame)
    && (a.Read? <==> EventOf(me.e, a).Reads?)
    && (a.Read? ==> Subject(me.e, a) == a.frame.id && EventOf(me.e, a) == Reads(a.frame))
    && Follows(me.e, a, r, x)
  }

  lemma SubjectHalf(me: Party, me': Party, other: Party, a: Action, x: uint32)
    requires Moved(me, me', other, a, x) && Subject(me.e, a) == x && other.read <= |me.log|
    ensures HalfStep(x, HalfOf(me, other, x), HalfOf(other, me, x), EventOf(me.e, a)) == Some(HalfOf(me', other, x))
  {
    hide Apply, PortStep, View, Subject, EventOf, Of;
    LogOf(me.log, Apply(me.e, a).value.sent, x, x);
    if a.Read? {
      ReadNext(other.log, me.read, x);
      assert me'.log == me.log;
    }
  }

  lemma StillHalf(me: Party, me': Party, other: Party, a: Action, x: uint32)
    requires Moved(me, me', other, a, x) && Subject(me.e, a) != x
    ensures HalfOf(me', other, x) == HalfOf(me, other, x)
  {
    hide Apply, PortStep, View, Subject, EventOf, Of;
    LogOf(me.log, Apply(me.e, a).value.sent, Subject(me.e, a), x);
    if a.Read? { ReadNext(other.log, me.read, x); }
    assert Of(me.log, x) + [] == Of(me.log, x);
  }

  lemma StepMoved(me: Party, other: Party, a: Action, x: uint32)
    requires x != 0 && PartyOk(me, other) && PartyStep(me, other, a).Some?
    requires Unique(PartyStep(me, other, a).value.e.heap)
    ensures var me' := PartyStep(me, other, a).value;
      Moved(me, me', other, a, x) && me'.read <= |other.log| && me.log <= me'.log
  {
    assert Unique(me.e.heap);
    PartyStepParts(me, other, a);
    hide Apply, EpOk, IdsOk, Unique, Subject, EventOf, PartyStep, Follows;
    EventShape(me.e, a);
    StepFollows(me.e, a, x);
  }

  // A step of one party is a step of its half of the line of the subject, and moves no other half.
  lemma HalfFollows(me: Party, other: Party, a: Action, x: uint32)
    requires x != 0 && PartyOk(me, other) && other.read <= |me.log| && PartyStep(me, other, a).Some?
    requires Unique(PartyStep(me, other, a).value.e.heap)
    ensures var me' := PartyStep(me, other, a).value;
      && me'.read <= |other.log| && me.log <= me'.log
      && HalfOf(other, me', x) == HalfOf(other, me, x)
      && if Subject(me.e, a) == x
         then HalfStep(x, HalfOf(me, other, x), HalfOf(other, me, x), EventOf(me.e, a)) == Some(HalfOf(me', other, x))
         else HalfOf(me', other, x) == HalfOf(me, other, x)
  {
    hide Apply, EpOk, IdsOk, PortStep, View, Subject, EventOf, PartyStep, Of, HalfOf, HalfStep, Moved;
    var me' := PartyStep(me, other, a).value;
    StepMoved(me, other, a, x);
    OtherHalf(me, me', other, x);
    if Subject(me.e, a) == x { SubjectHalf(me, me', other, a, x); } else { StillHalf(me, me', other, a, x); }
  }

  // ---- The invariant of a network ----

  ghost predicate LineBetween(me: Party, other: Party, x: uint32)
    requires me.read <= |other.log| && other.read <= |me.log|
  {
    if Own(me.e, x) then LineOk(x, HalfOf(me, other, x), HalfOf(other, me, x))
    else LineOk(x, HalfOf(other, me, x), HalfOf(me, other, x))
  }

  ghost predicate PairOk(me: Party, other: Party)
  {
    && PartyOk(me, other) && PartyOk(other, me)
    && me.e.first != other.e.first
    && forall x: uint32 | x != 0 :: LineBetween(me, other, x)
  }

  lemma PairSwap(me: Party, other: Party)
    requires PairOk(me, other)
    ensures PairOk(other, me)
  {
    hide EpOk, HalfOf, LineOk;
    forall x: uint32 | x != 0 ensures LineBetween(other, me, x) {
      assert LineBetween(me, other, x);
      assert Own(me.e, x) <==> !Own(other.e, x);
    }
  }

  // The parts of the invariant of a pair.
  lemma PairParts(me: Party, other: Party, x: uint32)
    requires PairOk(me, other) && x != 0
    ensures PartyOk(me, other) && PartyOk(other, me) && Unique(me.e.heap) && LineBetween(me, other, x)
  {
    hide EpOk, LineBetween, Unique;
  }

  // A Start frame only ever makes a new stream, under an ID of the peer.
  lemma StartIsNew(me: Party, other: Party, a: Action)
    requires PairOk(me, other) && Apply(me.e, a).Some?
    ensures MakesNew(me.e, a)
  {
    if a.Dispatch? && me.e.loop.Got? && IsStart(me.e.loop.frame) && me.e.loop.frame.id != 0 {
      var f := me.e.loop.frame;
      assert LineBetween(me, other, f.id);
      hide EpOk, IdsOk, PortOk;
      if Own(me.e, f.id) {
        assert HalfOf(me, other, f.id).port.spot == Holding(f);
        HeldFrames(f.id, HalfOf(me, other, f.id), HalfOf(other, me, f.id));
      } else {
        HeldFrames(f.id, HalfOf(other, me, f.id), HalfOf(me, other, f.id));
        assert HalfOf(me, other, f.id).port.spot == Holding(f);
      }
    }
  }

  lemma CountGrows(e: Endpoint, a: Action)
    requires Apply(e, a).Some?
    ensures Apply(e, a).value.e.first == e.first && Apply(e, a).value.e.calls >= e.calls
  {
    hide StartStep, CallStep, RecvStep, ConnStep, ReadStep, OfferStep, EndStep;
    if ForStart(a) { StartCount(e, a); }
    else if ForCalls(a) { CallIds(e, a); }
    else if ForRecv(a) { RecvIds(e, a); }
    else if ForConn(a) { ConnIds(e, a); }
    else if ForRead(a) { ReadCount(e, a); }
    else if ForOffer(a) { OfferIds(e, a); }
    else { EndIds(e, a); }
  }

  lemma WithCount(e: Endpoint, ref: nat, s: Stream)
    requires ref < |e.heap|
    ensures With(e, ref, s).first == e.first && With(e, ref, s).calls == e.calls
  {}

  lemma StartCount(e: Endpoint, a: Action)
    requires StartStep(e, a).Some?
    ensures StartStep(e, a).value.e.first == e.first && StartStep(e, a).value.e.calls >= e.calls
  {
    hide Writable, Carried, NewStream, With;
    if a.WriteStart? {
      WithCount(e, a.ref, e.heap[a.ref].(phase := if a.ok then InUse else StartFailed));
    } else if a.DropStart? {
      WithCount(e, a.ref, e.heap[a.ref].(phase := Abandoned));
    }
  }

  lemma ReadCount(e: Endpoint, a: Action)
    requires ReadStep(e, a).Some?
    ensures ReadStep(e, a).value.e.first == e.first && ReadStep(e, a).value.e.calls == e.calls
  {
    hide IsStart;
    if Makes(e, a) { hide ModeOf, RouteOf; } else { ReadSame(e, a); hide ReadStep; }
  }

  lemma OwnStays(e: Endpoint, a: Action)
    requires IdsOk(e) && Apply(e, a).Some?
    ensures a.Register? ==> Own(e, a.id)
  {
    hide CallStep, RecvStep, ConnStep, OfferStep, EndStep;
    assert a.Register? ==> Issued(e, a.id);
  }

  lemma LineFollows(me: Party, other: Party, a: Action, x: uint32)
    requires PairOk(me, other) && PartyStep(me, other, a).Some? && x != 0
    requires PartyOk(PartyStep(me, other, a).value, other)
    ensures var me' := PartyStep(me, other, a).value;
      me'.e.first == me.e.first && me.log <= me'.log && LineBetween(me', other, x)
  {
    var me' := PartyStep(me, other, a).value;
    assert LineBetween(me, other, x);
    assert Unique(me'.e.heap);
    PartyStepParts(me, other, a);
    CountGrows(me.e, a);
    OwnStays(me.e, a);
    hide EpOk, IdsOk, LineOk, PartyStep, HalfOf, Subject, EventOf;
    HalfFollows(me, other, a, x);
    if Subject(me.e, a) == x {
      EventShape(me.e, a);
      if Own(me.e, x) { InitiatorStep(x, HalfOf(me, other, x), HalfOf(other, me, x), EventOf(me.e, a)); }
      else { AcceptorStep(x, HalfOf(other, me, x), HalfOf(me, other, x), EventOf(me.e, a)); }
    }
  }

  lemma PairStep(me: Party, other: Party, a: Action)
    requires PairOk(me, other) && PartyStep(me, other, a).Some? && PartyStep(me, other, a).value.e.calls < HALF
    ensures PairOk(PartyStep(me, other, a).value, other)
  {
    var me' := PartyStep(me, other, a).value;
    PartyStepParts(me, other, a);
    StartIsNew(me, other, a);
    StepKeeps(me.e, a);
    IdsKeep(me.e, a);
    CountGrows(me.e, a);
    hide EpOk, IdsOk, LineBetween, PartyStep, Apply;
    assert PartyOk(me', other);
    forall x: uint32 | x != 0 ensures me.log <= me'.log && LineBetween(me', other, x) {
      LineFollows(me, other, a, x);
    }
  }

  ghost predicate NetOk(n: Net) { n.host.e.first == 1 && n.plugin.e.first == 2 && PairOk(n.host, n.plugin) }

  lemma NetStarts()
    ensures NetOk(NewNet())
  {
    var n := NewNet();
    forall x: uint32 | x != 0 ensures LineBetween(n.host, n.plugin, x) {
      assert HalfOf(n.host, n.plugin, x) == NoHalf();
      assert HalfOf(n.plugin, n.host, x) == NoHalf();
      LineStarts(x);
    }
  }

  lemma NetKeeps(n: Net, side: Side, a: Action)
    requires NetOk(n) && NetStep(n, side, a).Some? && Bounded(NetStep(n, side, a).value)
    ensures NetOk(NetStep(n, side, a).value)
  {
    hide PairOk, PartyStep;
    if side.Host? {
      OwnSide(n.host, n.plugin, a);
      PairStep(n.host, n.plugin, a);
    } else {
      PairSwap(n.host, n.plugin);
      OwnSide(n.plugin, n.host, a);
      PairStep(n.plugin, n.host, a);
      PairSwap(PartyStep(n.plugin, n.host, a).value, n.host);
    }
  }

  lemma OwnSide(me: Party, other: Party, a: Action)
    requires PairOk(me, other) && PartyStep(me, other, a).Some?
    ensures PartyStep(me, other, a).value.e.first == me.e.first && PartyStep(me, other, a).value.e.calls >= me.e.calls
  {
    PartyStepParts(me, other, a);
    CountGrows(me.e, a);
  }

  lemma CallsGrow(n: Net, side: Side, a: Action)
    requires NetStep(n, side, a).Some? && Bounded(NetStep(n, side, a).value)
    ensures Bounded(n)
  {
    var e := if side.Host? then n.host.e else n.plugin.e;
    assert Apply(e, a).Some?;
    CountGrows(e, a);
    hide Apply;
  }

  // Every state two endpoints can reach, in any interleaving, with any reads, write errors and
  // read errors, satisfies the invariant.
  lemma {:induction false} RunOk(steps: seq<Step>)
    requires NetRun(NewNet(), steps).Some? && Bounded(NetRun(NewNet(), steps).value)
    ensures NetOk(NetRun(NewNet(), steps).value)
  {
    hide NetOk, NetStep, Bounded;
    if steps == [] {
      NetStarts();
    } else {
      var m := NetRun(NewNet(), steps[..|steps| - 1]).value;
      CallsGrow(m, steps[|steps| - 1].0, steps[|steps| - 1].1);
      RunOk(steps[..|steps| - 1]);
      NetKeeps(m, steps[|steps| - 1].0, steps[|steps| - 1].1);
    }
  }
}
