/**
 From frames to bytes. `Network` lets an endpoint append frames to a log and its peer read them from it.
 Here the writes of an endpoint are given to the byte channel of `Transport`, with its buffers, lock and
 pieces: the bytes on the wire are the encoded log, and however many of them have arrived, a reader
 parses the beginning of the log.
 */
module Wire {
  import opened Bytes
  import opened Frames
  import opened Options
  import opened Mux
  import opened Line
  import opened Network
  import opened Streams
  import opened Transport

  // The frame that a step hands to the writer, before anything is cut off; and whether the write succeeds.
  function Handed(e: Endpoint, a: Action): Option<Frame>
  {
    match a
    case WriteStart(ref, _) => if ref < |e.heap| then Some(StartFrame(e.heap[ref].id, e.heap[ref].start)) else None
    case WriteData(ref, payload, _) => if ref < |e.heap| then Some(DataFrame(e.heap[ref].id, payload)) else None
    case WriteEnd(ref, _) => if ref < |e.heap| then Some(EndFrame(e.heap[ref].id)) else None
    case WriteClose(ref, _) => if ref < |e.heap| then Some(CloseFrame(e.heap[ref].id)) else None
    case WriteRaw(payload, _) => Some(Frame(0, 0, payload))
    case Reply(_) => if e.loop.Replying? then Some(NotFoundFrame(e.loop.id)) else None
    case _ => None
  }

  predicate Succeeds(a: Action) {
    match a
    case WriteStart(_, ok) => ok
    case WriteData(_, _, ok) => ok
    case WriteEnd(_, ok) => ok
    case WriteClose(_, ok) => ok
    case WriteRaw(_, ok) => ok
    case Reply(ok) => ok
    case _ => false
  }

  // What a step puts into the log is the frame handed over, as the wire carries it.
  ghost predicate SendsHanded(e: Endpoint, a: Action, sent: Option<Frame>) {
    match Handed(e, a)
    case None => sent.None?
    case Some(f) => Writable(f.payload) && sent == if Succeeds(a) then Some(OnWire(f)) else None
  }

  lemma SentIsHanded(e: Endpoint, a: Action)
    requires Apply(e, a).Some?
    ensures SendsHanded(e, a, Apply(e, a).value.sent)
  {
    hide Writable, Carried, StartStep, CallStep, RecvStep, ConnStep, ReadStep, OfferStep, EndStep;
    if ForStart(a) { StartHanded(e, a); }
    else if ForCalls(a) { CallHanded(e, a); }
    else if ForRecv(a) { RecvHanded(e, a); }
    else if ForConn(a) { ConnHanded(e, a); }
    else if ForRead(a) { ReadHanded(e, a); }
    else if ForOffer(a) { OfferHanded(e, a); }
    else { EndHanded(e, a); }
  }

  lemma StartHanded(e: Endpoint, a: Action)
    requires ForStart(a) && StartStep(e, a).Some?
    ensures SendsHanded(e, a, StartStep(e, a).value.sent)
  {
    hide Writable, Carried, NewStream, With;
  }

  lemma CallHanded(e: Endpoint, a: Action)
    requires ForCalls(a) && CallStep(e, a).Some?
    ensures SendsHanded(e, a, CallStep(e, a).value.sent)
  {
    hide Writable, Carried, With;
  }

  lemma RecvHanded(e: Endpoint, a: Action)
    requires ForRecv(a) && RecvStep(e, a).Some?
    ensures SendsHanded(e, a, RecvStep(e, a).value.sent)
  {
    hide Take, AtEnd, With;
  }

  lemma ConnHanded(e: Endpoint, a: Action)
    requires ForConn(a) && ConnStep(e, a).Some?
    ensures SendsHanded(e, a, ConnStep(e, a).value.sent)
  {
    hide Writable, Carried, With;
  }

  lemma ReadHanded(e: Endpoint, a: Action)
    requires ForRead(a) && ReadStep(e, a).Some?
    ensures SendsHanded(e, a, ReadStep(e, a).value.sent)
  {
    hide DispatchFrame, HandlerFor, With;
  }

  lemma OfferHanded(e: Endpoint, a: Action)
    requires ForOffer(a) && OfferStep(e, a).Some?
    ensures SendsHanded(e, a, OfferStep(e, a).value.sent)
  {
    hide Writable, Carried, With;
  }

  lemma EndHanded(e: Endpoint, a: Action)
    requires !ForStart(a) && !ForCalls(a) && !ForRecv(a) && !ForConn(a) && !ForRead(a) && !ForOffer(a)
    requires EndStep(e, a).Some?
    ensures SendsHanded(e, a, EndStep(e, a).value.sent)
  {
    hide With;
  }

  // ---- The channel of one side ----

  // A write takes the lock and hands over its buffer; or it fails, without a part being written.
  function Writes(e: Endpoint, a: Action): seq<WriterStep> {
    match Handed(e, a)
    case None => []
    case Some(f) => if Succeeds(a) then [Arrive(f), Lock(f), Put(|BufferOf(f)|), Unlock] else [Arrive(f), Lock(f), Fail]
  }

  ghost function ChannelOf(steps: seq<Step>, side: Side): seq<WriterStep>
    requires NetRun(NewNet(), steps).Some?
  {
    if steps == [] then []
    else
      var before, who, a := steps[..|steps| - 1], steps[|steps| - 1].0, steps[|steps| - 1].1;
      ChannelOf(before, side)
      + if who == side then Writes(Me(NetRun(NewNet(), before).value, side).e, a) else []
  }

  // The frames a side handed to its writer and had written, as it handed them over.
  ghost function WrittenBy(steps: seq<Step>, side: Side): seq<Frame>
    requires NetRun(NewNet(), steps).Some?
  {
    if steps == [] then []
    else
      var before, who, a := steps[..|steps| - 1], steps[|steps| - 1].0, steps[|steps| - 1].1;
      WrittenBy(before, side)
      + if who == side && Succeeds(a) then HandedFrames(Me(NetRun(NewNet(), before).value, side).e, a) else []
  }

  function HandedFrames(e: Endpoint, a: Action): seq<Frame> {
    if Handed(e, a).Some? then [Handed(e, a).value] else []
  }

  lemma {:induction false} RunMore(s: seq<WriterStep>, t: seq<WriterStep>)
    requires ChannelRun(s).Some?
    ensures t != [] ==> ChannelRun(s + t) == match ChannelRun(s + t[..|t| - 1])
                                             case None => None
                                             case Some(c) => ChannelStep(c, t[|t| - 1])
    ensures ChannelRun(s + []) == ChannelRun(s)
  {
    hide ChannelStep;
    assert s + [] == s;
    if t != [] { assert (s + t)[..|s + t| - 1] == s + t[..|t| - 1]; }
  }

  // A channel nobody is writing to or waiting for.
  ghost predicate Resting(c: Channel) { Paired(c) && !c.locked && c.waiting == multiset{} }

  // The channel after one more frame, of which `n` bytes were written.
  function After(c: Channel, f: Frame, n: nat): Channel
    requires n <= |BufferOf(f)|
  {
    c.(wire := c.wire + BufferOf(f)[..n], order := c.order + [f], put := c.put + [n],
       arrived := c.arrived + multiset{f})
  }

  function Locks(c: Channel, f: Frame): Channel {
    c.(locked := true, order := c.order + [f], put := c.put + [0], arrived := c.arrived + multiset{f})
  }

  lemma LocksIt(c: Channel, f: Frame)
    requires Resting(c) && Writable(f.payload)
    ensures ChannelStep(c, Arrive(f)).Some?
    ensures ChannelStep(ChannelStep(c, Arrive(f)).value, Lock(f)) == Some(Locks(c, f))
  {
    BufferIsFrame(f);
    hide FillBuffer, Writable, Carried, Encode;
    assert multiset{} + multiset{f} - multiset{f} == multiset{};
  }

  lemma PutsIt(c: Channel, f: Frame)
    requires Resting(c) && Writable(f.payload)
    ensures var m := ChannelStep(Locks(c, f), Put(|BufferOf(f)|));
      m.Some? && ChannelStep(m.value, Unlock) == Some(After(c, f, |BufferOf(f)|))
  {
    BufferIs(f);
    hide BufferOf, Writable;
    var b, i := BufferOf(f), |c.order|;
    assert (c.put + [0])[i := |b|] == c.put + [|b|];
    assert b[0..|b|] == b == b[..|b|];
  }

  lemma FailsIt(c: Channel, f: Frame)
    requires Resting(c)
    ensures ChannelStep(Locks(c, f), Fail) == Some(After(c, f, 0))
  {
    hide BufferOf;
    assert BufferOf(f)[..0] == [] && c.wire + [] == c.wire;
  }

  lemma WholeWrite(s: seq<WriterStep>, c: Channel, f: Frame)
    requires ChannelRun(s) == Some(c) && Resting(c) && Writable(f.payload)
    ensures ChannelRun(s + [Arrive(f), Lock(f), Put(|BufferOf(f)|), Unlock]) == Some(After(c, f, |BufferOf(f)|))
  {
    hide ChannelRun, ChannelStep, BufferOf, Writable;
    var t := [Arrive(f), Lock(f), Put(|BufferOf(f)|), Unlock];
    LocksIt(c, f);
    PutsIt(c, f);
    assert t[..3][..2] == t[..2] && t[..2][..1] == t[..1] && t[..1][..0] == [];
    RunMore(s, t[..1]);
    RunMore(s, t[..2]);
    RunMore(s, t[..3]);
    RunMore(s, t);
  }

  lemma FailedWrite(s: seq<WriterStep>, c: Channel, f: Frame)
    requires ChannelRun(s) == Some(c) && Resting(c) && Writable(f.payload)
    ensures ChannelRun(s + [Arrive(f), Lock(f), Fail]) == Some(After(c, f, 0))
  {
    hide ChannelRun, ChannelStep, BufferOf, Writable;
    var t := [Arrive(f), Lock(f), Fail];
    LocksIt(c, f);
    FailsIt(c, f);
    assert t[..2][..1] == t[..1] && t[..1][..0] == [];
    RunMore(s, t[..1]);
    RunMore(s, t[..2]);
    RunMore(s, t);
  }

  // The channel has put exactly the log on the wire.
  ghost predicate Carries(c: Channel, log: seq<Frame>) {
    && Resting(c) && Fills(c.order)
    && (forall i | 0 <= i < |c.order| :: c.put[i] == 0 || c.put[i] == |BufferOf(c.order[i])|)
    && WholeFrames(c.order, c.put) == log
  }

  lemma AfterCarries(c: Channel, f: Frame, ok: bool, log: seq<Frame>)
    requires Carries(c, log) && Writable(f.payload)
    ensures Carries(After(c, f, if ok then |BufferOf(f)| else 0), log + if ok then [OnWire(f)] else [])
  {
    BufferIs(f);
    hide BufferOf, Writable, OnWire;
    var d := After(c, f, if ok then |BufferOf(f)| else 0);
    assert d.order[..|c.order|] == c.order && d.put[..|c.order|] == c.put;
  }

  lemma StepCarries(s: seq<WriterStep>, c: Channel, e: Endpoint, a: Action, log: seq<Frame>)
    requires ChannelRun(s) == Some(c) && Carries(c, log) && Apply(e, a).Some?
    ensures ChannelRun(s + Writes(e, a)).Some?
    ensures Carries(ChannelRun(s + Writes(e, a)).value, log + SentFrames(Apply(e, a).value.sent))
  {
    hide ChannelRun, Carries, Apply, After, Writable, BufferOf, OnWire, Succeeds, Handed;
    SentIsHanded(e, a);
    if Handed(e, a).None? {
      assert s + [] == s && log + [] == log;
    } else {
      var f := Handed(e, a).value;
      CarriesRests(c, log);
      if Succeeds(a) { WholeWrite(s, c, f); } else { FailedWrite(s, c, f); }
      AfterCarries(c, f, Succeeds(a), log);
    }
  }

  lemma CarriesRests(c: Channel, log: seq<Frame>)
    requires Carries(c, log)
    ensures Resting(c)
  {}

  lemma NewCarries()
    ensures Carries(NEW_CHANNEL, [])
  {}

  // What a step of the network does to the log of a side.
  lemma LogOfStep(m: Net, who: Side, a: Action, side: Side)
    requires NetStep(m, who, a).Some?
    ensures who == side ==> Apply(Me(m, side).e, a).Some?
    ensures Me(NetStep(m, who, a).value, side).log
         == Me(m, side).log + if who == side then SentFrames(Apply(Me(m, side).e, a).value.sent) else []
  {
    if who == side { SideLog(Me(m, side), Peer(m, side), a); }
    hide PartyStep, Apply;
    assert Me(m, side).log + [] == Me(m, side).log;
  }

  lemma SideLog(me: Party, other: Party, a: Action)
    requires PartyStep(me, other, a).Some?
    ensures Apply(me.e, a).Some? && PartyStep(me, other, a).value.log == me.log + SentFrames(Apply(me.e, a).value.sent)
  {
    hide Apply, Succeeds;
    if a.Read? { ReadIsSilent(me.e, a); }
    assert me.log + [] == me.log;
  }

  lemma ReadIsSilent(e: Endpoint, a: Action)
    requires a.Read? && Apply(e, a).Some?
    ensures Apply(e, a).value.sent.None?
  {
    SentIsHanded(e, a);
    hide Apply;
  }

  lemma {:induction false} ChannelCarries(steps: seq<Step>, side: Side)
    requires NetRun(NewNet(), steps).Some?
    ensures ChannelRun(ChannelOf(steps, side)).Some?
    ensures Carries(ChannelRun(ChannelOf(steps, side)).value, Me(NetRun(NewNet(), steps).value, side).log)
  {
    hide NetStep, Carries, ChannelRun, Apply, Writes;
    if steps == [] {
      NewCarries();
      NoSteps();
    } else {
      var before, who, a := steps[..|steps| - 1], steps[|steps| - 1].0, steps[|steps| - 1].1;
      ChannelCarries(before, side);
      var m, s := NetRun(NewNet(), before).value, ChannelOf(before, side);
      LogOfStep(m, who, a, side);
      if who == side {
        StepCarries(s, ChannelRun(s).value, Me(m, side).e, a, Me(m, side).log);
      } else {
        assert s + [] == s && Me(m, side).log + [] == Me(m, side).log;
      }
    }
  }

  lemma NoSteps()
    ensures ChannelRun([]) == Some(NEW_CHANNEL)
  {}

  // The log is what was written, each frame as the wire carries it.
  function AllOnWire(fs: seq<Frame>): (r: seq<Frame>)
    ensures |r| == |fs| && forall i | 0 <= i < |fs| :: r[i] == OnWire(fs[i])
  {
    seq(|fs|, i requires 0 <= i < |fs| => OnWire(fs[i]))
  }

  lemma WrittenMore(written: seq<Frame>, e: Endpoint, a: Action)
    requires Apply(e, a).Some? && Fills(written)
    ensures var more := if Succeeds(a) then HandedFrames(e, a) else [];
      && Fills(written + more)
      && AllOnWire(written + more) == AllOnWire(written) + SentFrames(Apply(e, a).value.sent)
  {
    hide Apply, Succeeds, Handed, Writable, OnWire;
    SentIsHanded(e, a);
  }

  lemma {:induction false} LogIsWritten(steps: seq<Step>, side: Side)
    requires NetRun(NewNet(), steps).Some?
    ensures Me(NetRun(NewNet(), steps).value, side).log == AllOnWire(WrittenBy(steps, side))
    ensures Fills(WrittenBy(steps, side))
  {
    hide NetStep, Apply, HandedFrames, AllOnWire, Fills, Succeeds;
    if steps == [] {
      NothingWritten();
    } else {
      var before, who, a := steps[..|steps| - 1], steps[|steps| - 1].0, steps[|steps| - 1].1;
      LogIsWritten(before, side);
      var m := NetRun(NewNet(), before).value;
      LogOfStep(m, who, a, side);
      if who == side {
        WrittenMore(WrittenBy(before, side), Me(m, side).e, a);
      } else {
        assert WrittenBy(before, side) + [] == WrittenBy(before, side) && Me(m, side).log + [] == Me(m, side).log;
      }
    }
  }

  lemma NothingWritten()
    ensures AllOnWire([]) == [] && Fills([])
  {}

  // The log is what was written, unchanged, exactly if every payload fits into a frame.
  lemma WrittenWhole(steps: seq<Step>, side: Side)
    requires NetRun(NewNet(), steps).Some?
    ensures var log, written := Me(NetRun(NewNet(), steps).value, side).log, WrittenBy(steps, side);
      && log == AllOnWire(written)
      && (log == written <==> forall i | 0 <= i < |written| :: |written[i].payload| <= TWO32 - 13)
  {
    hide NetRun, Writable, Carried, WrittenBy;
    LogIsWritten(steps, side);
    var written := WrittenBy(steps, side);
    forall i | 0 <= i < |written| ensures OnWire(written[i]) == written[i] <==> |written[i].payload| <= TWO32 - 13 {
      CarriedExactly(written[i].payload);
    }
  }

  // End to end: a stream is delivered nothing but frames that the peer handed to its writer, none twice
  // nor out of order, each as far as a frame carries it; they arrive unchanged exactly if all fit.
  lemma DeliveredAsWritten(steps: seq<Step>, side: Side, r: nat)
    requires NetRun(NewNet(), steps).Some? && Bounded(NetRun(NewNet(), steps).value)
    requires r < |Me(NetRun(NewNet(), steps).value, side).e.heap|
    ensures var s := Me(NetRun(NewNet(), steps).value, side).e.heap[r];
      var written := WrittenBy(steps, if side.Host? then Plugin else Host);
      && Subsequence(s.taken + s.queue, Body(AllOnWire(written), s.id))
      && (AllOnWire(written) == written <==> forall i | 0 <= i < |written| :: |written[i].payload| <= TWO32 - 13)
  {
    hide NetRun, Subsequence, Body, AllOnWire, WrittenBy, Bounded;
    assert Reached(NetRun(NewNet(), steps).value);
    Delivery(NetRun(NewNet(), steps).value, side, r);
    WrittenWhole(steps, if side.Host? then Plugin else Host);
  }

  // The channel refines the log: the writes of a side, in any run of the network, are a run of its
  // channel that puts exactly the encoded log on the wire. Whatever part of those bytes has arrived, a
  // reader parses a beginning of the log: all frames that have arrived whole, and nothing else.
  lemma LogIsWire(steps: seq<Step>, side: Side, n: nat) returns (k: nat)
    requires NetRun(NewNet(), steps).Some?
    ensures ChannelRun(ChannelOf(steps, side)).Some?
    ensures var wire, log := ChannelRun(ChannelOf(steps, side)).value.wire, Me(NetRun(NewNet(), steps).value, side).log;
      && Sized(log) && wire == EncodeAll(log) && ParseAll(wire) == Reading(log, AtBoundary)
      && (n <= |wire| ==>
           && k <= |log| && |EncodeAll(log[..k])| <= n && (k < |log| ==> n < |EncodeAll(log[..k + 1])|)
           && ParseAll(wire[..n]) == Reading(log[..k], if n == |EncodeAll(log[..k])| then AtBoundary else Cut))
  {
    hide ChannelRun, NetRun, ParseAll, EncodeAll, Pieces, WholeFrames, BufferOf, NoneTorn, ChannelOf, Carries;
    ChannelCarries(steps, side);
    var c := ChannelRun(ChannelOf(steps, side)).value;
    ChannelRunOk(ChannelOf(steps, side));
    CarriedIsSound(c, Me(NetRun(NewNet(), steps).value, side).log);
    WritersKeepFrames(ChannelOf(steps, side));
    k := 0;
    if n <= |c.wire| { k := Truncation(Me(NetRun(NewNet(), steps).value, side).log, n); }
  }

  lemma CarriedIsSound(c: Channel, log: seq<Frame>)
    requires Carries(c, log) && WireOk(c)
    ensures NoneTorn(c.order, c.put) && WholeFrames(c.order, c.put) == log && Sized(log) && c.wire == EncodeAll(log)
  {
    hide BufferOf, Writable, EncodeAll, Pieces, WholeFrames;
    PiecesAreFrames(c.order, c.put);
  }
}
