/**
 After the final sweep. `startStream` looks at the read loop's error and enters its stream in two
 critical sections, so a call caught between them enters a stream that the sweep never sees.
 */
module Sweep {
  import opened Bytes
  import opened Options
  import opened Mux

  // The sweep is over.
  predicate Swept(l: Loop) { l.EndingAccept? || l.EndingDone? || l.EndingRaw? || l.Stopped? }

  // The streams there were have their channels open or closed as before.
  ghost predicate SameChannels(heap: seq<Stream>, heap': seq<Stream>) {
    |heap| <= |heap'| && forall r | 0 <= r < |heap| :: heap'[r].closed == heap[r].closed
  }

  lemma OneStream(heap: seq<Stream>, r: nat, s: Stream)
    requires r < |heap| && s.closed == heap[r].closed
    ensures SameChannels(heap, heap[r := s])
  {}

  lemma StartAfter(e: Endpoint, a: Action)
    requires EpOk(e) && Swept(e.loop) && StartStep(e, a).Some?
    ensures var e' := StartStep(e, a).value.e;
      && e'.loop == e.loop && (e.claimed == multiset{} && e.table == map[] ==>
           e'.claimed == multiset{} && e'.table == map[])
      && SameChannels(e.heap, e'.heap)
  {
    hide SameChannels;
    if a.Register? {
      OneMore(e.heap, NewStream(a.id, [a.mode] + a.route, Starting));
    } else if a.WriteStart? {
      OneStream(e.heap, a.ref, e.heap[a.ref].(phase := if a.ok then InUse else StartFailed));
    } else if a.DropStart? {
      DropAfter(e, a.ref);
    }
  }

  lemma NoStream(heap: seq<Stream>)
    ensures SameChannels(heap, heap)
  {}

  lemma DropAfter(e: Endpoint, r: nat)
    requires StartStep(e, DropStart(r)).Some?
    ensures var e' := StartStep(e, DropStart(r)).value.e;
      && e'.loop == e.loop && e'.claimed == e.claimed && (e.table == map[] ==> e'.table == map[])
      && SameChannels(e.heap, e'.heap)
  {
    hide SameChannels;
    OneStream(e.heap, r, e.heap[r].(phase := Abandoned));
  }

  lemma OneMore(heap: seq<Stream>, s: Stream)
    ensures SameChannels(heap, heap + [s])
  {}

  lemma CallsAfter(e: Endpoint, a: Action)
    requires CallStep(e, a).Some?
    ensures var e' := CallStep(e, a).value.e;
      && e'.loop == e.loop && e'.claimed == e.claimed && (e.table == map[] ==> e'.table == map[])
      && SameChannels(e.heap, e'.heap)
  {
    hide SameChannels;
    if a.BeginClose? { OneStream(e.heap, a.ref, Cancel(e.heap[a.ref], ClosedHere)); } else { NoStream(e.heap); }
  }

  lemma PollAfter(e: Endpoint, r: nat)
    requires RecvStep(e, Poll(r)).Some?
    ensures var e' := RecvStep(e, Poll(r)).value.e;
      && e'.loop == e.loop && e'.claimed == e.claimed && e'.table == e.table
      && SameChannels(e.heap, e'.heap)
  {
    PollIs(e, r);
    hide RecvStep, Returned, SameChannels;
    ReturnedId(e.heap[r], false);
    OneStream(e.heap, r, Returned(e.heap[r], false));
  }

  lemma WakeAfter(e: Endpoint, r: nat)
    requires RecvStep(e, Wake(r)).Some?
    ensures var e' := RecvStep(e, Wake(r)).value.e;
      && e'.loop == e.loop && e'.claimed == e.claimed && e'.table == e.table
      && SameChannels(e.heap, e'.heap)
  {
    WakeIs(e, r);
    hide RecvStep, Returned, SameChannels;
    ReturnedId(e.heap[r], false);
    OneStream(e.heap, r, Returned(e.heap[r], false));
  }

  lemma DrainAfter(e: Endpoint, r: nat)
    requires RecvStep(e, Drain(r)).Some?
    ensures var e' := RecvStep(e, Drain(r)).value.e;
      && e'.loop == e.loop && e'.claimed == e.claimed && e'.table == e.table
      && SameChannels(e.heap, e'.heap)
  {
    DrainIs(e, r);
    hide RecvStep, Returned, SameChannels;
    ReturnedId(e.heap[r], true);
    OneStream(e.heap, r, Returned(e.heap[r], true));
  }

  lemma RecvAfter(e: Endpoint, a: Action)
    requires RecvStep(e, a).Some?
    ensures var e' := RecvStep(e, a).value.e;
      && e'.loop == e.loop && e'.claimed == e.claimed && e'.table == e.table
      && SameChannels(e.heap, e'.heap)
  {
    hide SameChannels, Take, AtEnd;
    if a.Poll? { PollAfter(e, a.ref); hide RecvStep; }
    else if a.Wake? { WakeAfter(e, a.ref); hide RecvStep; }
    else if a.Drain? { DrainAfter(e, a.ref); hide RecvStep; }
    else { NoStream(e.heap); }
  }

  lemma ConnAfter(e: Endpoint, a: Action)
    requires ConnStep(e, a).Some?
    ensures var e' := ConnStep(e, a).value.e;
      && e'.loop == e.loop && e'.claimed == e.claimed && e'.table == e.table
      && SameChannels(e.heap, e'.heap)
  {
    hide SameChannels;
    if a.TakeAccepted? {
      OneStream(e.heap, e.acceptQ[0], e.heap[e.acceptQ[0]].(phase := InUse));
    } else if a.CancelOne? {
      OneStream(e.heap, e.table[a.id], Cancel(e.heap[e.table[a.id]], ConnClosed));
    } else {
      NoStream(e.heap);
    }
  }

  // The read loop only closes what is left to close.
  lemma LoopIsOver(e: Endpoint, a: Action)
    requires Swept(e.loop)
    ensures ReadStep(e, a).None? && OfferStep(e, a).None?
  {
    hide HandlerFor, DispatchFrame, AfterOffer;
  }

  lemma EndAfter(e: Endpoint, a: Action)
    requires Swept(e.loop) && EndStep(e, a).Some?
    ensures var e' := EndStep(e, a).value.e;
      Swept(e'.loop) && e'.claimed == e.claimed && e'.table == e.table && e'.heap == e.heap
  {
    hide With, Cancel;
    assert a.EndAccept? || a.EndDone? || a.EndRaw?;
  }

  lemma LoopAfter(e: Endpoint, a: Action)
    requires Swept(e.loop) && !ForStart(a) && !ForCalls(a) && !ForRecv(a) && !ForConn(a) && Apply(e, a).Some?
    ensures var e' := Apply(e, a).value.e;
      Swept(e'.loop) && e'.claimed == e.claimed && e'.table == e.table && e'.heap == e.heap
  {
    hide ReadStep, OfferStep, EndStep, Swept;
    LoopIsOver(e, a);
    EndAfter(e, a);
  }

  ghost predicate Later(e: Endpoint, e': Endpoint) {
    && Swept(e'.loop)
    && (e.claimed == multiset{} && e.table == map[] ==> e'.claimed == multiset{} && e'.table == map[])
    && SameChannels(e.heap, e'.heap)
  }

  lemma StepAfter(e: Endpoint, a: Action)
    requires EpOk(e) && Swept(e.loop) && Apply(e, a).Some?
    ensures Later(e, Apply(e, a).value.e)
  {
    hide EpOk, StartStep, CallStep, RecvStep, ConnStep, ReadStep, OfferStep, EndStep;
    if ForStart(a) { StartAfter(e, a); }
    else if ForCalls(a) { CallsAfter(e, a); }
    else if ForRecv(a) { RecvAfter(e, a); }
    else if ForConn(a) { ConnAfter(e, a); }
    else {
      LoopAfter(e, a);
      NoStream(e.heap);
    }
  }

  // From then on no channel of a stream is ever closed.
  lemma {:induction false} RunAfter(e: Endpoint, actions: seq<Action>)
    requires EpOk(e) && Swept(e.loop) && Run(e, actions).Some?
    ensures Later(e, Run(e, actions).value)
    decreases |actions|
  {
    hide EpOk, Apply;
    if actions != [] {
      StepAfter(e, actions[0]);
      StepKeeps(e, actions[0]);
      RunAfter(Apply(e, actions[0]).value.e, actions[1..]);
    }
  }

  // A stream that is entered late is open and not cancelled in a connection whose read loop is gone:
  // `Recv` on it blocks, and its channel is never closed.
  lemma LateStream(e: Endpoint, id: uint32, mode: byte, route: Bytes, actions: seq<Action>)
    requires EpOk(e) && Swept(e.loop) && id in e.claimed
    requires Apply(e, Register(id, mode, route)).Some? ==>
               Run(Apply(e, Register(id, mode, route)).value.e, actions).Some?
    ensures Apply(e, Register(id, mode, route)).Some?
    ensures var e1 := Apply(e, Register(id, mode, route)).value.e;
      var r, end := |e.heap|, Run(e1, actions).value;
      && id in e1.table && e1.table[id] == r && !Cancelled(e1.heap[r])
      && r < |end.heap| && !end.heap[r].closed
  {
    var a := Register(id, mode, route);
    RegisterLate(e, id, mode, route);
    StepKeeps(e, a);
    hide Apply, EpOk, Run;
    RunAfter(Apply(e, a).value.e, actions);
  }

  lemma RegisterLate(e: Endpoint, id: uint32, mode: byte, route: Bytes)
    requires Swept(e.loop) && id in e.claimed
    ensures Apply(e, Register(id, mode, route)).Some?
    ensures var e1 := Apply(e, Register(id, mode, route)).value.e;
      && Swept(e1.loop) && id in e1.table && e1.table[id] == |e.heap|
      && e1.heap == e.heap + [NewStream(id, [mode] + route, Starting)]
  {}

  // A call of `startStream` has its ID when the read fails; there is no other stream to sweep.
  const CAUGHT: seq<Action> := [Claim, ReadFails, SweepDone, EndAccept, EndDone, EndRaw]

  lemma {:induction false} Steps(states: seq<Endpoint>, actions: seq<Action>)
    requires |states| == |actions| + 1
    requires forall i | 0 <= i < |actions| :: Apply(states[i], actions[i]) == Quiet(states[i + 1])
    ensures Run(states[0], actions) == Some(states[|actions|])
    decreases |actions|
  {
    hide Apply;
    if actions != [] { Steps(states[1..], actions[1..]); }
  }

  function CaughtStates(first: uint32): (states: seq<Endpoint>)
    ensures |states| == 7
  {
    var e0 := NewEndpoint(first);
    var e1 := e0.(calls := 1, nextId := (first + 2) % TWO32, claimed := multiset{first});
    var e2 := e1.(loop := Sweeping, loopFailed := true);
    var e3 := e2.(loop := EndingAccept);
    var e4 := e3.(acceptClosed := true, loop := EndingDone);
    var e5 := e4.(doneClosed := true, loop := EndingRaw);
    [e0, e1, e2, e3, e4, e5, e5.(rawClosed := true, loop := Stopped)]
  }

  lemma CaughtClaims(first: uint32)
    ensures Apply(CaughtStates(first)[0], Claim) == Quiet(CaughtStates(first)[1])
  {
    assert multiset{} + multiset{first} == multiset{first};
  }

  lemma CaughtFails(e: Endpoint)
    requires e.loop.Idle? && e.table == map[] && !e.acceptClosed && !e.doneClosed && !e.rawClosed
    ensures var e2 := e.(loop := Sweeping, loopFailed := true);
      && Apply(e, ReadFails) == Quiet(e2) && Apply(e2, SweepDone) == Quiet(e2.(loop := EndingAccept))
  {}

  lemma CaughtEnds(e: Endpoint)
    requires e.loop.EndingAccept? && !e.acceptClosed && !e.doneClosed && !e.rawClosed
    ensures var e4 := e.(acceptClosed := true, loop := EndingDone);
      var e5 := e4.(doneClosed := true, loop := EndingRaw);
      && Apply(e, EndAccept) == Quiet(e4) && Apply(e4, EndDone) == Quiet(e5)
      && Apply(e5, EndRaw) == Quiet(e5.(rawClosed := true, loop := Stopped))
  {
    hide EndStep;
    var e4 := e.(acceptClosed := true, loop := EndingDone);
    EndAcceptIs(e);
    EndDoneIs(e4);
    EndRawIs(e4.(doneClosed := true, loop := EndingRaw));
  }

  lemma EndAcceptIs(e: Endpoint)
    requires e.loop.EndingAccept? && !e.acceptClosed
    ensures EndStep(e, EndAccept) == Quiet(e.(acceptClosed := true, loop := EndingDone))
  {}

  lemma EndDoneIs(e: Endpoint)
    requires e.loop.EndingDone? && !e.doneClosed
    ensures EndStep(e, EndDone) == Quiet(e.(doneClosed := true, loop := EndingRaw))
  {}

  lemma EndRawIs(e: Endpoint)
    requires e.loop.EndingRaw? && !e.rawClosed
    ensures EndStep(e, EndRaw) == Quiet(e.(rawClosed := true, loop := Stopped))
  {}

  // It does happen: a new endpoint can come to such a state, whatever mode and route are asked for.
  lemma SweepMissesCaller(first: uint32)
    ensures Run(NewEndpoint(first), CAUGHT).Some?
    ensures var e := Run(NewEndpoint(first), CAUGHT).value;
      EpOk(e) && e.loop.Stopped? && first in e.claimed && e.table == map[]
  {
    hide Apply, EpOk, Run;
    var states := CaughtStates(first);
    CaughtClaims(first);
    CaughtFails(states[1]);
    CaughtEnds(states[3]);
    NewOk(first);
    Steps(states, CAUGHT);
    RunKeeps(states[0], CAUGHT);
  }

  lemma EnterLate(e: Endpoint, id: uint32, mode: byte, route: Bytes)
    requires Swept(e.loop) && id in e.claimed
    ensures Run(e, [Register(id, mode, route)]).Some? && id in Run(e, [Register(id, mode, route)]).value.table
  {
    var a := Register(id, mode, route);
    RegisterLate(e, id, mode, route);
    hide Apply;
    assert [a][1..] == [];
  }

  // Exactly when the sweep was final: the table stays empty whatever happens next if and only if no
  // call of `startStream` has taken an ID and not yet entered its stream.
  lemma SweepIsFinal(e: Endpoint)
    requires EpOk(e) && Swept(e.loop) && e.table == map[]
    ensures (forall actions | Run(e, actions).Some? :: Run(e, actions).value.table == map[])
            <==> e.claimed == multiset{}
  {
    hide Run, EpOk;
    if e.claimed == multiset{} {
      forall actions | Run(e, actions).Some? ensures Run(e, actions).value.table == map[] { RunAfter(e, actions); }
    } else {
      var id :| id in e.claimed;
      EnterLate(e, id, 0, []);
      assert Run(e, [Register(id, 0, [])]).value.table != map[];
    }
  }
}
