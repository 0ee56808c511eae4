/**
 What becomes of a stream that its peer has closed or failed: it is in the table only while the read loop
 is about to take it out.
 */
module Failures {
  import opened Bytes
  import opened Frames
  import opened Options
  import opened Mux

  // The read loop is about to take this stream out of the table.
  predicate Leaving(l: Loop, ref: nat) {
    || (l.Offering? && l.failing && l.ref == ref)
    || (l.Unlinking? && l.ref == ref)
    || (l.HalfClosed? && l.ref == ref)
  }

  // The loop has read neither a Close nor an Error frame for the stream.
  ghost predicate Sound(s: Stream) {
    && PeerClosed !in s.causes && PeerFailed !in s.causes
    && forall i | 0 <= i < |s.offered| :: !IsError(s.offered[i]) && !IsClose(s.offered[i])
  }

  ghost predicate ListedSound(e: Endpoint) {
    forall id | id in e.table && e.table[id] < |e.heap| :: Leaving(e.loop, e.table[id]) || Sound(e.heap[e.table[id]])
  }

  lemma StartKeepsSound(e: Endpoint, a: Action)
    requires TableOk(e) && ListedSound(e) && ForStart(a) && StartStep(e, a).Some?
    ensures ListedSound(StartStep(e, a).value.e)
  {
    hide Writable, Carried;
    if a.Register? {
      assert Sound(NewStream(a.id, [a.mode] + a.route, Starting));
    }
  }

  lemma CallKeepsSound(e: Endpoint, a: Action)
    requires TableOk(e) && ListedSound(e) && ForCalls(a) && CallStep(e, a).Some?
    ensures ListedSound(CallStep(e, a).value.e)
  {
    hide Writable, Carried, IsError, IsClose;
    if a.BeginClose? { assert Sound(e.heap[a.ref]) ==> Sound(Cancel(e.heap[a.ref], ClosedHere)); hide Sound, Cancel; }
  }

  lemma TakenStaysSound(s: Stream, draining: bool)
    ensures Sound(s) ==> Sound(Returned(s, draining))
  {
    hide IsError, IsClose, IsCloseWrite;
  }

  lemma RecvKeepsSound(e: Endpoint, a: Action)
    requires TableOk(e) && ListedSound(e) && ForRecv(a) && RecvStep(e, a).Some?
    ensures ListedSound(RecvStep(e, a).value.e)
  {
    hide Sound, Returned, Take, AtEnd;
    if a.Poll? {
      PollIs(e, a.ref);
      TakenStaysSound(e.heap[a.ref], false);
      hide RecvStep;
    } else if a.Wake? {
      WakeIs(e, a.ref);
      TakenStaysSound(e.heap[a.ref], false);
      hide RecvStep;
    } else if a.Drain? {
      DrainIs(e, a.ref);
      TakenStaysSound(e.heap[a.ref], true);
      hide RecvStep;
    }
  }

  lemma ConnKeepsSound(e: Endpoint, a: Action)
    requires TableOk(e) && ListedSound(e) && ForConn(a) && ConnStep(e, a).Some?
    ensures ListedSound(ConnStep(e, a).value.e)
  {
    hide Writable, Carried, IsError, IsClose;
  }

  lemma DispatchKeepsSound(e: Endpoint, f: Frame)
    requires TableOk(e) && ListedSound(e) && e.loop == Got(f)
    ensures ListedSound(DispatchFrame(e, f))
  {
    if f.id in e.table {
      DispatchFinds(e, f);
      assert Sound(e.heap[e.table[f.id]]);
      assert !IsClose(f) && !IsError(f) ==> Sound(Receive(e.heap[e.table[f.id]], f));
      hide DispatchFrame, Receive, IsClose, IsError;
      assert forall id | id in e.table && id != f.id :: e.table[id] != e.table[f.id];
    } else if IsStart(f) {
      DispatchMakes(e, f);
      assert Sound(NewStream(f.id, f.payload, Unclaimed));
      hide DispatchFrame, Sound;
    } else {
      DispatchLoses(e, f);
      hide DispatchFrame, Sound;
    }
  }

  lemma ReadKeepsSound(e: Endpoint, a: Action)
    requires TableOk(e) && ListedSound(e) && ForRead(a) && ReadStep(e, a).Some?
    ensures ListedSound(ReadStep(e, a).value.e)
  {
    hide DispatchFrame, HandlerFor, IsError, IsClose;
    if a.Dispatch? {
      DispatchKeepsSound(e, e.loop.frame);
      hide ListedSound;
    } else {
      ReadLeaves(e, a);
      StaysSound(e, ReadStep(e, a).value.e);
      hide ReadStep;
    }
  }

  // A step that makes no entry, makes no stream unsound and does not turn the loop away from one.
  ghost predicate Harmless(e: Endpoint, e': Endpoint) {
    && |e'.heap| == |e.heap| && (forall id | id in e'.table :: id in e.table && e'.table[id] == e.table[id])
    && forall r | 0 <= r < |e.heap| ::
         && (Sound(e.heap[r]) ==> Sound(e'.heap[r])) && (Leaving(e.loop, r) ==> Leaving(e'.loop, r))
  }

  lemma StaysSound(e: Endpoint, e': Endpoint)
    requires ListedSound(e) && Harmless(e, e')
    ensures ListedSound(e')
  {
    hide Sound, Leaving;
  }

  lemma ReadLeaves(e: Endpoint, a: Action)
    requires ForRead(a) && !a.Dispatch? && ReadStep(e, a).Some?
    ensures Harmless(e, ReadStep(e, a).value.e)
  {
    hide DispatchFrame, HandlerFor, IsError, IsClose;
    if a.RouteStream? && HandlerFor(e, e.loop.mode, e.loop.route).Some? { RouteLeaves(e); }
  }

  lemma RouteLeaves(e: Endpoint)
    requires e.loop.Routing? && e.loop.ref < |e.heap|
    ensures Harmless(e, With(e, e.loop.ref, e.heap[e.loop.ref].(phase := InUse)).(loop := Idle))
  {
    var s := e.heap[e.loop.ref];
    assert forall r :: !Leaving(e.loop, r);
    hide Sound, Leaving, With;
    if Sound(s) { InUseSound(s); }
    OneHarmless(e, e.loop.ref, s.(phase := InUse), Idle);
  }

  lemma OneHarmless(e: Endpoint, ref: nat, s: Stream, l: Loop)
    requires ref < |e.heap| && (Sound(e.heap[ref]) ==> Sound(s)) && forall r :: Leaving(e.loop, r) ==> Leaving(l, r)
    ensures Harmless(e, With(e, ref, s).(loop := l))
  {
    hide Sound, Leaving;
  }

  lemma InUseSound(s: Stream)
    requires Sound(s)
    ensures Sound(s.(phase := InUse))
  {}

  lemma OfferKeepsSound(e: Endpoint, a: Action)
    requires TableOk(e) && LoopOk(e) && ListedSound(e) && ForOffer(a) && OfferStep(e, a).Some?
    ensures ListedSound(OfferStep(e, a).value.e)
  {
    hide IsError, IsClose;
    if a.Deliver? {
      DeliverKeepsSound(e);
      hide OfferStep;
    }
  }

  lemma DeliverKeepsSound(e: Endpoint)
    requires TableOk(e) && LoopOk(e) && ListedSound(e) && OfferStep(e, Deliver).Some?
    ensures ListedSound(OfferStep(e, Deliver).value.e)
  {
    hide IsError, IsClose;
    var s := e.heap[e.loop.ref];
    var s' := s.(queue := s.queue + [e.loop.frame]);
    assert Sound(s) ==> Sound(s');
    hide Sound;
    var e' := With(e, e.loop.ref, s').(loop := AfterOffer(e.loop));
    assert OfferStep(e, Deliver) == Quiet(e');
    hide OfferStep;
    OneHarmless(e, e.loop.ref, s', AfterOffer(e.loop));
    StaysSound(e, e');
  }

  lemma EndKeepsSound(e: Endpoint, a: Action)
    requires TableOk(e) && LoopOk(e) && ListedSound(e) && EndStep(e, a).Some?
    ensures ListedSound(EndStep(e, a).value.e)
  {
    hide IsError, IsClose;
    if a.FinishClose? {
      FinishClosesSound(e);
      hide EndStep;
    } else if a.SweepOne? {
      SweepsSound(e, a.id);
      hide EndStep;
    }
  }

  lemma FinishClosesSound(e: Endpoint)
    requires TableOk(e) && LoopOk(e) && ListedSound(e) && e.loop.HalfClosed? && EndStep(e, FinishClose).Some?
    ensures ListedSound(EndStep(e, FinishClose).value.e)
  {
    FinishCloseIs(e);
    hide EndStep, Sound;
    assert forall id | id in e.table && e.table[id] == e.loop.ref :: id == e.loop.id;
  }

  lemma SweepsSound(e: Endpoint, id: uint32)
    requires TableOk(e) && ListedSound(e) && EndStep(e, SweepOne(id)).Some?
    ensures ListedSound(EndStep(e, SweepOne(id)).value.e)
  {
    var s := e.heap[e.table[id]];
    assert Sound(s) ==> Sound(Cancel(s, LoopEnded));
    hide Sound, Cancel;
  }

  lemma StepKeepsSound(e: Endpoint, a: Action)
    requires EpOk(e) && ListedSound(e) && Apply(e, a).Some?
    ensures ListedSound(Apply(e, a).value.e)
  {
    Parts(e);
    hide StartStep, CallStep, RecvStep, ConnStep, ReadStep, OfferStep, EndStep, EpOk, TableOk, LoopOk, ListedSound;
    if ForStart(a) { StartKeepsSound(e, a); }
    else if ForCalls(a) { CallKeepsSound(e, a); }
    else if ForRecv(a) { RecvKeepsSound(e, a); }
    else if ForConn(a) { ConnKeepsSound(e, a); }
    else if ForRead(a) { ReadKeepsSound(e, a); }
    else if ForOffer(a) { OfferKeepsSound(e, a); }
    else { EndKeepsSound(e, a); }
  }

  lemma {:induction false} RunKeepsSound(e: Endpoint, actions: seq<Action>)
    requires EpOk(e) && ListedSound(e) && Run(e, actions).Some?
    ensures ListedSound(Run(e, actions).value)
    decreases |actions|
  {
    hide Apply, EpOk, ListedSound;
    if actions != [] {
      StepKeeps(e, actions[0]);
      StepKeepsSound(e, actions[0]);
      RunKeepsSound(Apply(e, actions[0]).value.e, actions[1..]);
    }
  }

  // In every run of an endpoint, even past the wrap-around of IDs: a listed stream has been sent neither a
  // Close nor an Error frame that the loop has read, unless the loop is about to take it out.
  lemma ListedIsSound(first: uint32, actions: seq<Action>, id: uint32)
    requires Run(NewEndpoint(first), actions).Some?
    requires id in Run(NewEndpoint(first), actions).value.table
    ensures var e := Run(NewEndpoint(first), actions).value;
      && e.table[id] < |e.heap|
      && (Leaving(e.loop, e.table[id]) || Sound(e.heap[e.table[id]]))
  {
    NewOk(first);
    RunKeeps(NewEndpoint(first), actions);
    RunKeepsSound(NewEndpoint(first), actions);
    Parts(Run(NewEndpoint(first), actions).value);
    hide Run, EpOk, Sound, Leaving;
  }
}
