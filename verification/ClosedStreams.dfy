/** Streams whose channel has been closed: they end once and for all, and `Recv` on them never blocks again. */
module ClosedStreams {
  import opened Frames
  import opened Options
  import opened Mux
  import opened Line
  import opened Network
  import opened Streams

  // How many frames `Recv` took from `s` until it became `t`, and how many ends it reported then.
  function TakenSince(s: Stream, t: Stream): int { |t.taken| - |s.taken| }
  function EndsSince(s: Stream, t: Stream): int { |t.outcomes| - |s.outcomes| - TakenSince(s, t) }

  // The closed stream `s` has become `t`: `Recv` took `k` frames, in order, and then, with the queue
  // empty, reported the end `m` times.
  predicate EndingBy(s: Stream, t: Stream, k: nat, m: nat)
  {
    && t.id == s.id && t.closed
    && k <= |s.queue| && t.taken == s.taken + s.queue[..k] && t.queue == s.queue[k..]
    && t.outcomes == s.outcomes + Outcomes(s.queue[..k]) + Ends(m)
    && (m > 0 ==> t.queue == [])
  }

  predicate Ending(s: Stream, t: Stream)
  {
    TakenSince(s, t) >= 0 && EndsSince(s, t) >= 0 && EndingBy(s, t, TakenSince(s, t), EndsSince(s, t))
  }

  // ---- One step ----

  // Nothing that `Recv` sees has changed.
  predicate Untouched(s: Stream, t: Stream) {
    t.id == s.id && t.closed == s.closed && t.queue == s.queue && t.taken == s.taken && t.outcomes == s.outcomes
  }

  lemma StillEnding(s: Stream, t: Stream)
    requires s.closed && Untouched(s, t)
    ensures Ending(s, t)
  {}

  lemma TakeEnding(s: Stream, draining: bool)
    requires s.closed && s.queue != []
    ensures Ending(s, Take(s, draining))
  {
    var t := Take(s, draining);
    assert s.queue[..1] == [s.queue[0]] && s.queue[..1][..0] == [];
    assert Outcomes(s.queue[..1]) == Outcomes(s.queue[..1][..0]) + [OutcomeOf(s.queue[0])];
    assert EndsSince(s, t) == 0;
    hide Outcomes;
  }

  lemma AtEndEnding(s: Stream)
    requires s.closed && s.queue == []
    ensures Ending(s, AtEnd(s))
  {
    assert Ends(1) == Ends(0) + [EndOfStream];
  }

  lemma ReturnedEnding(s: Stream, draining: bool)
    requires s.closed
    ensures Ending(s, Returned(s, draining))
  {
    hide Ending, Take, AtEnd;
    if s.queue != [] { TakeEnding(s, draining); } else { AtEndEnding(s); }
  }

  // What an endpoint does to one of its streams in a step that is no `Recv`.
  ghost predicate Leaves(e: Endpoint, e': Endpoint, r: nat)
    requires r < |e.heap|
  {
    r < |e'.heap| && (e.heap[r].closed ==> Untouched(e.heap[r], e'.heap[r]))
  }

  lemma AllLeft(e: Endpoint, e': Endpoint, r: nat)
    requires r < |e.heap| && e.heap <= e'.heap
    ensures Leaves(e, e', r)
  {}

  lemma OneTouched(e: Endpoint, e': Endpoint, ref: nat, s: Stream, r: nat)
    requires r < |e.heap| && ref < |e.heap| && e'.heap == e.heap[ref := s]
    requires e.heap[ref].closed ==> Untouched(e.heap[ref], s)
    ensures Leaves(e, e', r)
  {}

  lemma StartLeaves(e: Endpoint, a: Action, r: nat)
    requires r < |e.heap| && StartStep(e, a).Some?
    ensures Leaves(e, StartStep(e, a).value.e, r)
  {
    hide Writable, Carried, Leaves;
    var e' := StartStep(e, a).value.e;
    if a.WriteStart? {
      OneTouched(e, e', a.ref, e.heap[a.ref].(phase := if a.ok then InUse else StartFailed), r);
    } else if a.DropStart? {
      OneTouched(e, e', a.ref, e.heap[a.ref].(phase := Abandoned), r);
    } else {
      AllLeft(e, e', r);
    }
  }

  lemma CallLeaves(e: Endpoint, a: Action, r: nat)
    requires r < |e.heap| && CallStep(e, a).Some?
    ensures Leaves(e, CallStep(e, a).value.e, r)
  {
    hide Writable, Carried, Leaves;
    var e' := CallStep(e, a).value.e;
    if a.BeginClose? { OneTouched(e, e', a.ref, Cancel(e.heap[a.ref], ClosedHere), r); } else { AllLeft(e, e', r); }
  }

  lemma ConnLeaves(e: Endpoint, a: Action, r: nat)
    requires r < |e.heap| && ConnStep(e, a).Some?
    ensures Leaves(e, ConnStep(e, a).value.e, r)
  {
    hide Writable, Carried;
  }

  lemma ReceiveLeaves(s: Stream, f: Frame)
    ensures Untouched(s, Receive(s, f))
  {
    hide IsClose, IsError;
  }

  lemma DispatchLeaves(e: Endpoint, r: nat)
    requires r < |e.heap| && e.loop.Got?
    ensures Leaves(e, DispatchFrame(e, e.loop.frame), r)
  {
    hide IsStart, Receive, Untouched, Leaves, DispatchFrame, AfterReceive, ModeOf, RouteOf, NewStream;
    var f, e' := e.loop.frame, DispatchFrame(e, e.loop.frame);
    if f.id !in e.table {
      if IsStart(f) { DispatchMakes(e, f); } else { DispatchLoses(e, f); }
      AllLeft(e, e', r);
    } else if e.table[f.id] < |e.heap| {
      DispatchFinds(e, f);
      ReceiveLeaves(e.heap[e.table[f.id]], f);
      OneTouched(e, e', e.table[f.id], Receive(e.heap[e.table[f.id]], f), r);
    } else {
      DispatchDangles(e, f);
      AllLeft(e, e, r);
    }
  }

  lemma RouteLeaves(e: Endpoint, r: nat)
    requires r < |e.heap| && ReadStep(e, RouteStream).Some?
    ensures Leaves(e, ReadStep(e, RouteStream).value.e, r)
  {
    hide HandlerFor, Leaves;
    var e' := ReadStep(e, RouteStream).value.e;
    if HandlerFor(e, e.loop.mode, e.loop.route).Some? {
      OneTouched(e, e', e.loop.ref, e.heap[e.loop.ref].(phase := InUse), r);
    } else {
      AllLeft(e, e', r);
    }
  }

  lemma ReadLeaves(e: Endpoint, a: Action, r: nat)
    requires r < |e.heap| && ReadStep(e, a).Some?
    ensures Leaves(e, ReadStep(e, a).value.e, r)
  {
    hide Leaves, DispatchFrame;
    if a.Dispatch? { DispatchLeaves(e, r); }
    else if a.RouteStream? { RouteLeaves(e, r); hide ReadStep; }
    else { AllLeft(e, ReadStep(e, a).value.e, r); }
  }

  // A frame is never delivered to a closed channel.
  lemma OfferLeaves(e: Endpoint, a: Action, r: nat)
    requires r < |e.heap| && OfferStep(e, a).Some?
    ensures Leaves(e, OfferStep(e, a).value.e, r)
  {
    hide AfterOffer, Leaves;
    var e' := OfferStep(e, a).value.e;
    if a.Deliver? && !e.heap[e.loop.ref].closed {
      var s := e.heap[e.loop.ref];
      OneTouched(e, e', e.loop.ref, s.(queue := s.queue + [e.loop.frame]), r);
    } else {
      AllLeft(e, e', r);
    }
  }

  lemma EndLeaves(e: Endpoint, a: Action, r: nat)
    requires r < |e.heap| && EndStep(e, a).Some?
    ensures Leaves(e, EndStep(e, a).value.e, r)
  {
    hide Leaves;
    var e' := EndStep(e, a).value.e;
    if a.FinishClose? && !e.heap[e.loop.ref].closed {
      OneTouched(e, e', e.loop.ref, e.heap[e.loop.ref].(closed := true), r);
    } else if a.SweepOne? {
      OneTouched(e, e', e.table[a.id], Cancel(e.heap[e.table[a.id]], LoopEnded), r);
    } else {
      AllLeft(e, e', r);
    }
  }

  lemma PollEnds(e: Endpoint, ref: nat, r: nat)
    requires r < |e.heap| && e.heap[r].closed && RecvStep(e, Poll(ref)).Some?
    ensures r < |RecvStep(e, Poll(ref)).value.e.heap| && Ending(e.heap[r], RecvStep(e, Poll(ref)).value.e.heap[r])
  {
    PollIs(e, ref);
    hide RecvStep, Ending, Returned;
    if ref == r { ReturnedEnding(e.heap[r], false); } else { StillEnding(e.heap[r], e.heap[r]); }
  }

  lemma WakeEnds(e: Endpoint, ref: nat, r: nat)
    requires r < |e.heap| && e.heap[r].closed && RecvStep(e, Wake(ref)).Some?
    ensures r < |RecvStep(e, Wake(ref)).value.e.heap| && Ending(e.heap[r], RecvStep(e, Wake(ref)).value.e.heap[r])
  {
    WakeIs(e, ref);
    hide RecvStep, Ending, Returned;
    if ref == r { ReturnedEnding(e.heap[r], false); } else { StillEnding(e.heap[r], e.heap[r]); }
  }

  lemma DrainEnds(e: Endpoint, ref: nat, r: nat)
    requires r < |e.heap| && e.heap[r].closed && RecvStep(e, Drain(ref)).Some?
    ensures r < |RecvStep(e, Drain(ref)).value.e.heap| && Ending(e.heap[r], RecvStep(e, Drain(ref)).value.e.heap[r])
  {
    DrainIs(e, ref);
    hide RecvStep, Ending, Returned;
    if ref == r { ReturnedEnding(e.heap[r], true); } else { StillEnding(e.heap[r], e.heap[r]); }
  }

  lemma RecvEnds(e: Endpoint, a: Action, r: nat)
    requires r < |e.heap| && e.heap[r].closed && RecvStep(e, a).Some?
    ensures r < |RecvStep(e, a).value.e.heap| && Ending(e.heap[r], RecvStep(e, a).value.e.heap[r])
  {
    hide Ending, Take, AtEnd;
    if a.Poll? { PollEnds(e, a.ref, r); hide RecvStep; }
    else if a.Wake? { WakeEnds(e, a.ref, r); hide RecvStep; }
    else if a.Drain? { DrainEnds(e, a.ref, r); hide RecvStep; }
    else { StillEnding(e.heap[r], e.heap[r]); }
  }

  lemma StepEnds(e: Endpoint, a: Action, r: nat)
    requires r < |e.heap| && e.heap[r].closed && Apply(e, a).Some?
    ensures r < |Apply(e, a).value.e.heap| && Ending(e.heap[r], Apply(e, a).value.e.heap[r])
  {
    hide Ending, StartStep, CallStep, RecvStep, ConnStep, ReadStep, OfferStep, EndStep;
    if ForRecv(a) {
      RecvEnds(e, a, r);
    } else {
      if ForStart(a) { StartLeaves(e, a, r); }
      else if ForCalls(a) { CallLeaves(e, a, r); }
      else if ForConn(a) { ConnLeaves(e, a, r); }
      else if ForRead(a) { ReadLeaves(e, a, r); }
      else if ForOffer(a) { OfferLeaves(e, a, r); }
      else { EndLeaves(e, a, r); }
      StillEnding(e.heap[r], Apply(e, a).value.e.heap[r]);
    }
  }

  // ---- Any number of steps ----

  lemma {:induction false} OutcomesAppend(a: seq<Frame>, b: seq<Frame>)
    ensures Outcomes(a + b) == Outcomes(a) + Outcomes(b)
  {
    if b == [] {
      assert a + b == a;
    } else {
      assert (a + b)[..|a + b| - 1] == a + b[..|b| - 1];
      OutcomesAppend(a, b[..|b| - 1]);
    }
  }

  lemma {:induction false} EndsAppend(m: nat, n: nat)
    ensures Ends(m) + Ends(n) == Ends(m + n)
  {
    if n > 0 { EndsAppend(m, n - 1); }
  }

  lemma SplitQueue(q: seq<Frame>, j: nat, k: nat)
    requires j + k <= |q|
    ensures q[j..][..k] == q[j..j + k] && q[..j] + q[j..j + k] == q[..j + k] && q[j..][k..] == q[j + k..]
  {}

  lemma EndingByTwice(s: Stream, t: Stream, u: Stream, j: nat, m: nat, k: nat, n: nat)
    requires EndingBy(s, t, j, m) && EndingBy(t, u, k, n)
    ensures EndingBy(s, u, j + k, m + n)
  {
    hide Outcomes, Ends;
    SplitQueue(s.queue, j, k);
    JoinOutcomes(s.outcomes, s.queue[..j], m, t.queue[..k], n);
    assert s.taken + s.queue[..j] + s.queue[j..j + k] == s.taken + (s.queue[..j] + s.queue[j..j + k]);
  }

  lemma EndingIs(s: Stream, t: Stream, j: nat, m: nat)
    requires EndingBy(s, t, j, m)
    ensures TakenSince(s, t) == j && EndsSince(s, t) == m && Ending(s, t)
  {
    hide Outcomes, Ends;
  }

  lemma EndingTwice(s: Stream, t: Stream, u: Stream)
    requires Ending(s, t) && Ending(t, u)
    ensures Ending(s, u)
  {
    hide EndingBy, TakenSince, EndsSince;
    var j, m, k, n := TakenSince(s, t), EndsSince(s, t), TakenSince(t, u), EndsSince(t, u);
    assert j >= 0 && m >= 0 && k >= 0 && n >= 0 && EndingBy(s, t, j, m) && EndingBy(t, u, k, n);
    hide Ending;
    EndingByTwice(s, t, u, j, m, k, n);
    EndingIs(s, u, j + k, m + n);
  }

  // Outcomes of frames, then ends; after the first end there are no more frames.
  lemma JoinOutcomes(before: seq<Outcome>, a: seq<Frame>, m: nat, b: seq<Frame>, n: nat)
    requires m > 0 ==> b == []
    ensures before + Outcomes(a) + Ends(m) + Outcomes(b) + Ends(n) == before + Outcomes(a + b) + Ends(m + n)
  {
    OutcomesAppend(a, b);
    EndsAppend(m, n);
    hide Ends, Outcomes;
    if m > 0 {
      assert Outcomes(b) == [];
    } else {
      assert Ends(m) == [];
    }
  }

  lemma {:induction false} ClosedStays(n: Net, side: Side, r: nat, steps: seq<Step>)
    requires r < |Me(n, side).e.heap| && Me(n, side).e.heap[r].closed && NetRun(n, steps).Some?
    ensures var e, e' := Me(n, side).e, Me(NetRun(n, steps).value, side).e;
      r < |e'.heap| && Ending(e.heap[r], e'.heap[r])
  {
    hide NetStep, Ending;
    var s := Me(n, side).e.heap[r];
    if steps == [] {
      StillEnding(s, s);
    } else {
      var (who, a) := steps[|steps| - 1];
      var m := NetRun(n, steps[..|steps| - 1]).value;
      ClosedStays(n, side, r, steps[..|steps| - 1]);
      EndingIsClosed(s, Me(m, side).e.heap[r]);
      SideStep(m, side, who, a, r);
      EndingTwice(s, Me(m, side).e.heap[r], Me(NetStep(m, who, a).value, side).e.heap[r]);
    }
  }

  lemma EndingIsClosed(s: Stream, t: Stream)
    requires Ending(s, t)
    ensures t.closed
  {}

  lemma SideStep(m: Net, side: Side, who: Side, a: Action, r: nat)
    requires r < |Me(m, side).e.heap| && Me(m, side).e.heap[r].closed && NetStep(m, who, a).Some?
    ensures var e, e' := Me(m, side).e, Me(NetStep(m, who, a).value, side).e;
      r < |e'.heap| && Ending(e.heap[r], e'.heap[r])
  {
    hide Ending, Apply;
    var s := Me(m, side).e.heap[r];
    if who == side { StepEnds(Me(m, side).e, a, r); } else { StillEnding(s, s); }
  }

  lemma ClosedReturns(e: Endpoint, r: nat)
    requires r < |e.heap| && e.heap[r].closed
    ensures Apply(e, Block(r)).None?
    ensures e.heap[r].phase.InUse? ==> Apply(e, Poll(r)).Some?
    ensures Waiting(r) in e.ops ==> Apply(e, Wake(r)).Some?
    ensures Draining(r) in e.ops ==> Apply(e, Drain(r)).Some?
  {}

  // Whatever two endpoints do after the channel of a stream was closed: it stays closed; what was
  // queued is returned in order, then the end and only the end, as often as `Recv` is called; no call
  // of `Recv` starts to wait, and every call can return, also one that had been waiting.
  lemma ClosedForEver(n: Net, side: Side, r: nat, steps: seq<Step>)
    requires r < |Me(n, side).e.heap| && Me(n, side).e.heap[r].closed && NetRun(n, steps).Some?
    ensures var s, e' := Me(n, side).e.heap[r], Me(NetRun(n, steps).value, side).e;
      && r < |e'.heap| && Ending(s, e'.heap[r])
      && (s.queue == [] ==>
            e'.heap[r].queue == [] && e'.heap[r].outcomes == s.outcomes + Ends(EndsSince(s, e'.heap[r])))
      && Apply(e', Block(r)).None?
      && (e'.heap[r].phase.InUse? ==> Apply(e', Poll(r)).Some?)
      && (Waiting(r) in e'.ops ==> Apply(e', Wake(r)).Some?)
      && (Draining(r) in e'.ops ==> Apply(e', Drain(r)).Some?)
  {
    ClosedStays(n, side, r, steps);
    hide Apply, NetRun;
    var s, e' := Me(n, side).e.heap[r], Me(NetRun(n, steps).value, side).e;
    ClosedReturns(e', r);
    assert s.queue == [] ==> s.queue[..0] == [] && s.outcomes + [] == s.outcomes;
  }
}
