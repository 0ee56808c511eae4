/**
 What goroutines begin and end in an endpoint, and when they can go on: each `Send` that found its stream
 open writes one frame, each `Close` writes one frame and then removes its entry, each waiting `Recv` ends
 once; and the read loop stands still only at a full queue.
 */
module Progress {
  import opened Bytes
  import opened Frames
  import opened Options
  import opened Mux

  // What a step leaves to be done, and what it was the doing of.
  function Begun(a: Action): multiset<Op> {
    match a
    case BeginSend(ref, payload) => multiset{Sending(ref, payload)}
    case BeginClose(ref) => multiset{Closing(ref)}
    case WriteClose(ref, _) => multiset{Removing(ref)}
    case Block(ref) => multiset{Waiting(ref)}
    case GiveUp(ref) => multiset{Draining(ref)}
    case _ => multiset{}
  }

  function Done(a: Action): multiset<Op> {
    match a
    case WriteData(ref, payload, _) => multiset{Sending(ref, payload)}
    case WriteClose(ref, _) => multiset{Closing(ref)}
    case Remove(ref) => multiset{Removing(ref)}
    case Wake(ref) => multiset{Waiting(ref)}
    case GiveUp(ref) => multiset{Waiting(ref)}
    case Quit(ref) => multiset{Waiting(ref)}
    case Drain(ref) => multiset{Draining(ref)}
    case _ => multiset{}
  }

  function AllBegun(actions: seq<Action>): multiset<Op> {
    if actions == [] then multiset{} else Begun(actions[0]) + AllBegun(actions[1..])
  }

  function AllDone(actions: seq<Action>): multiset<Op> {
    if actions == [] then multiset{} else Done(actions[0]) + AllDone(actions[1..])
  }

  // What is to be done, as one value.
  datatype Todo = Todo(ops: multiset<Op>)

  function TodoOf(e: Endpoint): Todo { Todo(e.ops) }

  // One step: what was to be done and what it began are what is to be done then and what it did.
  lemma StepBalance(e: Endpoint, a: Action)
    requires Apply(e, a).Some?
    ensures Apply(e, a).value.e.ops + Done(a) == e.ops + Begun(a)
  {
    hide StartStep, CallStep, RecvStep, ConnStep, ReadStep, OfferStep, EndStep;
    if ForStart(a) { StartBalance(e, a); }
    else if ForCalls(a) { CallBalance(e, a); }
    else if ForRecv(a) { RecvBalance(e, a); }
    else if ForConn(a) { ConnBalance(e, a); }
    else if ForRead(a) { ReadBalance(e, a); }
    else if ForOffer(a) { OfferBalance(e, a); }
    else { EndBalance(e, a); }
  }

  lemma StartBalance(e: Endpoint, a: Action)
    requires ForStart(a) && StartStep(e, a).Some?
    ensures TodoOf(StartStep(e, a).value.e) == TodoOf(e)
  {
    hide Writable, Carried;
  }

  lemma CallBalance(e: Endpoint, a: Action)
    requires ForCalls(a) && CallStep(e, a).Some?
    ensures CallStep(e, a).value.e.ops + Done(a) == e.ops + Begun(a)
  {
    hide Writable, Carried, Cancel;
    if a.BeginSend? || a.BeginClose? {
      CallBegins(e, a);
    } else if a.WriteClose? {
      CloseWrites(e, a.ref, a.ok);
    } else {
      CallEnds(e, a);
    }
  }

  lemma CallBegins(e: Endpoint, a: Action)
    requires (a.BeginSend? || a.BeginClose?) && CallStep(e, a).Some?
    ensures CallStep(e, a).value.e.ops == e.ops + Begun(a)
  {
    hide Cancel;
  }

  lemma CallEnds(e: Endpoint, a: Action)
    requires (a.WriteData? || a.WriteEnd? || a.Remove?) && CallStep(e, a).Some?
    ensures CallStep(e, a).value.e.ops + Done(a) == e.ops
  {
    hide Writable, Carried;
  }

  lemma CloseWrites(e: Endpoint, ref: nat, ok: bool)
    requires CallStep(e, WriteClose(ref, ok)).Some?
    ensures CallStep(e, WriteClose(ref, ok)).value.e.ops + multiset{Closing(ref)} == e.ops + multiset{Removing(ref)}
  {}

  lemma RecvBalance(e: Endpoint, a: Action)
    requires ForRecv(a) && RecvStep(e, a).Some?
    ensures RecvStep(e, a).value.e.ops + Done(a) == e.ops + Begun(a)
  {
    hide Returned, Take, AtEnd;
    if a.Poll? { PollIs(e, a.ref); hide RecvStep; }
    else if a.Wake? { WakeTakes(e, a.ref); }
    else if a.Drain? { DrainTakes(e, a.ref); }
  }

  lemma WakeTakes(e: Endpoint, ref: nat)
    requires RecvStep(e, Wake(ref)).Some?
    ensures RecvStep(e, Wake(ref)).value.e.ops + multiset{Waiting(ref)} == e.ops
  {
    WakeIs(e, ref);
    hide Returned, Take, AtEnd;
  }

  lemma DrainTakes(e: Endpoint, ref: nat)
    requires RecvStep(e, Drain(ref)).Some?
    ensures RecvStep(e, Drain(ref)).value.e.ops + multiset{Draining(ref)} == e.ops
  {
    DrainIs(e, ref);
    hide Returned, Take, AtEnd;
  }

  lemma ConnBalance(e: Endpoint, a: Action)
    requires ForConn(a) && ConnStep(e, a).Some?
    ensures TodoOf(ConnStep(e, a).value.e) == TodoOf(e)
  {
    hide Writable, Carried;
  }

  lemma ReadBalance(e: Endpoint, a: Action)
    requires ForRead(a) && ReadStep(e, a).Some?
    ensures TodoOf(ReadStep(e, a).value.e) == TodoOf(e)
  {
    hide DispatchFrame;
    if a.Dispatch? {
      DispatchBalance(e, e.loop.frame);
    } else if a.RouteStream? {
      hide HandlerFor;
    }
  }

  lemma DispatchBalance(e: Endpoint, f: Frame)
    ensures TodoOf(DispatchFrame(e, f)) == TodoOf(e)
  {
    hide Receive, IsStart, IsClose, IsError, ModeOf, RouteOf;
  }

  lemma OfferBalance(e: Endpoint, a: Action)
    requires ForOffer(a) && OfferStep(e, a).Some?
    ensures TodoOf(OfferStep(e, a).value.e) == TodoOf(e)
  {
    hide AfterOffer, Cancelled;
  }

  lemma EndBalance(e: Endpoint, a: Action)
    requires !ForStart(a) && !ForCalls(a) && !ForRecv(a) && !ForConn(a) && !ForRead(a) && !ForOffer(a)
    requires EndStep(e, a).Some?
    ensures TodoOf(EndStep(e, a).value.e) == TodoOf(e) && Begun(a) == multiset{} && Done(a) == multiset{}
  {
    hide Cancel;
  }

  // Over every run: what goroutines have still to do is what they began without what they did. So a `Send`
  // writes at most one frame, and a `Close` removes its entry once, and only after its one write.
  lemma {:induction false} Balance(e: Endpoint, actions: seq<Action>)
    requires Run(e, actions).Some?
    ensures Run(e, actions).value.ops + AllDone(actions) == e.ops + AllBegun(actions)
    decreases |actions|
  {
    hide Apply, Begun, Done;
    if actions != [] {
      var a, e' := actions[0], Apply(e, actions[0]).value.e;
      StepBalance(e, a);
      Balance(e', actions[1..]);
      var left := Run(e', actions[1..]).value.ops;
      assert left + AllDone(actions) == (left + AllDone(actions[1..])) + Done(a);
      assert e'.ops + AllBegun(actions[1..]) + Done(a) == (e'.ops + Done(a)) + AllBegun(actions[1..]);
    }
  }

  // ---- Going on ----

  // What remains to be done can be done: a check of `Send` is followed by its write unless the payload
  // cannot be written, a `Close` goes on to its write and, once the lock is free, to the removal, and a `Recv`
  // that waits returns exactly if there is a frame, or the end, or the stream is cancelled.
  lemma Proceeds(e: Endpoint, op: Op)
    requires EpOk(e) && op in e.ops
    ensures op.ref < |e.heap|
    ensures (exists a :: op in Done(a) && !a.Quit? && Apply(e, a).Some?)
        <==> match op
             case Sending(_, payload) => Writable(payload)
             case Closing(_) => true
             case Removing(_) => !e.loop.Sweeping? && !e.loop.HalfClosed?
             case Waiting(ref) => e.heap[ref].queue != [] || e.heap[ref].closed || e.heap[ref].causes != {}
             case Draining(_) => true
  {
    Parts(e);
    hide EpOk, TableOk, QueuesOk, LoopOk, ChannelsOk, SweepOk, Writable, Take, AtEnd;
    assert OpOk(e, op);
    match op
    case Sending(ref, payload) => SendProceeds(e, ref, payload);
    case Closing(ref) => CloseProceeds(e, ref);
    case Removing(ref) => RemoveProceeds(e, ref);
    case Waiting(ref) => WaitProceeds(e, ref);
    case Draining(ref) => DrainProceeds(e, ref);
  }

  lemma SendProceeds(e: Endpoint, ref: nat, payload: Bytes)
    requires ref < |e.heap| && Sending(ref, payload) in e.ops
    ensures (exists a :: Sending(ref, payload) in Done(a) && Apply(e, a).Some?) <==> Writable(payload)
  {
    hide Writable;
    assert Sending(ref, payload) in Done(WriteData(ref, payload, true));
    assert Apply(e, WriteData(ref, payload, true)).Some? <==> Writable(payload);
  }

  lemma CloseProceeds(e: Endpoint, ref: nat)
    requires ref < |e.heap| && Closing(ref) in e.ops
    ensures exists a :: Closing(ref) in Done(a) && !a.Quit? && Apply(e, a).Some?
  {
    assert Closing(ref) in Done(WriteClose(ref, true));
    assert Apply(e, WriteClose(ref, true)).Some?;
  }

  lemma RemoveProceeds(e: Endpoint, ref: nat)
    requires ref < |e.heap| && Removing(ref) in e.ops
    ensures (exists a :: Removing(ref) in Done(a) && !a.Quit? && Apply(e, a).Some?)
        <==> !e.loop.Sweeping? && !e.loop.HalfClosed?
  {
    assert Removing(ref) in Done(Remove(ref));
    assert Apply(e, Remove(ref)).Some? <==> !Locked(e);
  }

  lemma WaitProceeds(e: Endpoint, ref: nat)
    requires ref < |e.heap| && Waiting(ref) in e.ops
    ensures (exists a :: Waiting(ref) in Done(a) && !a.Quit? && Apply(e, a).Some?)
        <==> e.heap[ref].queue != [] || e.heap[ref].closed || e.heap[ref].causes != {}
  {
    hide Take, AtEnd;
    assert Waiting(ref) in Done(Wake(ref)) && Waiting(ref) in Done(GiveUp(ref));
    assert Apply(e, Wake(ref)).Some? <==> e.heap[ref].queue != [] || e.heap[ref].closed;
    assert Apply(e, GiveUp(ref)).Some? <==> e.heap[ref].causes != {};
  }

  lemma DrainProceeds(e: Endpoint, ref: nat)
    requires ref < |e.heap| && Draining(ref) in e.ops
    ensures exists a :: Draining(ref) in Done(a) && !a.Quit? && Apply(e, a).Some?
  {
    hide Take, AtEnd;
    assert Draining(ref) in Done(Drain(ref));
    assert Apply(e, Drain(ref)).Some?;
  }

  predicate ByLoop(a: Action) {
    !ForStart(a) && !ForCalls(a) && !ForRecv(a) && !ForConn(a)
  }

  // The queue that the loop has to put something into is full, or the loop has ended.
  predicate Stands(e: Endpoint) {
    match e.loop
    case Got(f) => f.id == 0 && |e.rawQ| == 100
    case Queueing(_, _) => |e.acceptQ| == 100
    case Offering(ref, _, _) => ref < |e.heap| && |e.heap[ref].queue| == 100 && e.heap[ref].causes == {}
    case Stopped => true
    case _ => false
  }

  ghost predicate LoopMoves(e: Endpoint) { exists a :: ByLoop(a) && Apply(e, a).Some? }

  // In every state that an endpoint reaches, the read loop can go on unless it stands at a full queue, and
  // never at that of a cancelled stream.
  lemma LoopStandsExactly(e: Endpoint)
    requires EpOk(e)
    ensures LoopMoves(e) <==> !Stands(e)
  {
    Parts(e);
    hide EpOk, RefsOk, SweepOk, Honest;
    if Stands(e) {
      forall a | ByLoop(a) ensures Apply(e, a).None? { StandsStill(e, a); }
    } else {
      var a := Moves(e);
    }
  }

  lemma StandsStill(e: Endpoint, a: Action)
    requires LoopOk(e) && Stands(e) && ByLoop(a)
    ensures Apply(e, a).None?
  {
    hide StartStep, CallStep, RecvStep, ConnStep, DispatchFrame, AfterOffer, HandlerFor, With;
  }

  lemma Moves(e: Endpoint) returns (a: Action)
    requires TableOk(e) && LoopOk(e) && QueuesOk(e) && !Stands(e)
    ensures ByLoop(a) && Apply(e, a).Some?
  {
    hide StartStep, CallStep, RecvStep, ConnStep, ReadStep, OfferStep, EndStep, Honest;
    if e.loop.Idle? || e.loop.Got? || e.loop.Routing? || e.loop.Queueing? {
      a := Reads(e);
    } else if e.loop.Replying? || e.loop.Offering? || e.loop.Unlinking? {
      a := Offers(e);
    } else {
      a := Closes(e);
    }
  }

  lemma Reads(e: Endpoint) returns (a: Action)
    requires LoopOk(e) && QueuesOk(e) && !Stands(e)
    requires e.loop.Idle? || e.loop.Got? || e.loop.Routing? || e.loop.Queueing?
    ensures ForRead(a) && ReadStep(e, a).Some?
  {
    hide DispatchFrame, HandlerFor, Honest;
    match e.loop
    case Idle => a := ReadFails;
    case Got(f) => a := if f.id == 0 then PushRaw else Dispatch;
    case Routing(_, _, _, _) => a := RouteStream;
    case Queueing(_, _) => a := QueueStream;
  }

  lemma Offers(e: Endpoint) returns (a: Action)
    requires LoopOk(e) && QueuesOk(e) && !Stands(e)
    requires e.loop.Replying? || e.loop.Offering? || e.loop.Unlinking?
    ensures ForOffer(a) && OfferStep(e, a).Some?
  {
    hide AfterOffer, Honest;
    match e.loop
    case Replying(_) => a := Reply(true);
    case Offering(ref, _, _) => a := if |e.heap[ref].queue| < 100 then Deliver else Discard;
    case Unlinking(_, _) => a := Unlink;
  }

  lemma Sweeps(e: Endpoint) returns (a: Action)
    requires TableOk(e) && e.loop.Sweeping?
    ensures (a.SweepDone? || a.SweepOne?) && EndStep(e, a).Some?
  {
    hide With, Cancel;
    if e.table == map[] { return SweepDone; }
    var id :| id in e.table;
    return SweepOne(id);
  }

  lemma Closes(e: Endpoint) returns (a: Action)
    requires TableOk(e) && LoopOk(e) && !Stands(e)
    requires e.loop.HalfClosed? || e.loop.Sweeping? || Failing(e.loop)
    ensures !ForOffer(a) && !ForRead(a) && ByLoop(a) && EndStep(e, a).Some?
  {
    hide Cancel;
    match e.loop
    case HalfClosed(_, _, _) => a := FinishClose;
    case Sweeping =>
      a := Sweeps(e);
    case EndingAccept => a := EndAccept;
    case EndingDone => a := EndDone;
    case EndingRaw => a := EndRaw;
  }
}
