/** What holds of streams and their IDs in every run of two endpoints. */
module Streams {
  import opened Bytes
  import opened Frames
  import opened Options
  import opened Mux
  import opened Line
  import opened Network
  import opened Runs

  function Me(n: Net, side: Side): Party { if side.Host? then n.host else n.plugin }
  function Peer(n: Net, side: Side): Party { if side.Host? then n.plugin else n.host }

  // What the endpoint has read off its wire.
  function ReadBy(n: Net, side: Side): seq<Frame> {
    var read, log := Me(n, side).read, Peer(n, side).log;
    if read <= |log| then log[..read] else log
  }

  // A state that two endpoints can reach before either has called `startStream` 2^31 times.
  ghost predicate Reached(n: Net) {
    Bounded(n) && exists steps :: NetRun(NewNet(), steps) == Some(n)
  }

  lemma ReachedOk(n: Net, side: Side)
    requires Reached(n)
    ensures PairOk(Me(n, side), Peer(n, side))
  {
    var steps :| NetRun(NewNet(), steps) == Some(n);
    RunOk(steps);
    PairSwap(n.host, n.plugin);
  }

  lemma EndpointOk(n: Net, side: Side)
    requires Reached(n)
    ensures EpOk(Me(n, side).e)
  {
    ReachedOk(n, side);
    hide Reached, LineBetween, EpOk;
  }

  // The frames of a stream that follow its Start frame.
  function Body(fs: seq<Frame>, x: uint32): (r: seq<Frame>)
    ensures |r| <= |fs|
  {
    if fs == [] then []
    else
      var f := fs[|fs| - 1];
      Body(fs[..|fs| - 1], x) + if f.id == x && !IsStart(f) then [f] else []
  }

  lemma {:induction false} BodyOfUnopened(fs: seq<Frame>, x: uint32)
    requires NoStart(Of(fs, x))
    ensures Body(fs, x) == Of(fs, x)
  {
    if fs != [] {
      var g := Of(fs[..|fs| - 1], x);
      assert g <= Of(fs, x);
      if fs[|fs| - 1].id == x { assert Of(fs, x)[|g|] == fs[|fs| - 1]; }
      BodyOfUnopened(fs[..|fs| - 1], x);
    }
  }

  lemma {:induction false} BodyOfOpened(fs: seq<Frame>, x: uint32)
    requires Opening(Of(fs, x)) && Of(fs, x) != []
    ensures Body(fs, x) == Of(fs, x)[1..]
  {
    var g, f := Of(fs[..|fs| - 1], x), fs[|fs| - 1];
    if g == [] {
      BodyOfUnopened(fs[..|fs| - 1], x);
    } else {
      assert g[1..] <= Of(fs, x)[1..];
      if f.id == x { assert Of(fs, x)[1..] == g[1..] + [f] && Of(fs, x)[1..][|g| - 1] == f; }
      BodyOfOpened(fs[..|fs| - 1], x);
    }
  }

  lemma {:induction false} BodyPrefix(a: seq<Frame>, b: seq<Frame>, x: uint32)
    requires a <= b
    ensures Body(a, x) <= Body(b, x)
  {
    if a != b {
      assert a <= b[..|b| - 1];
      BodyPrefix(a, b[..|b| - 1], x);
    }
  }

  lemma {:induction false} SubsequenceOfPrefix<T>(a: seq<T>, b: seq<T>, c: seq<T>)
    requires Subsequence(a, b) && b <= c
    ensures Subsequence(a, c)
  {
    if b != c {
      SubsequenceOfPrefix(a, b, c[..|c| - 1]);
    }
  }

  // ---- IDs ----

  // The ID handed out by the k-th call of `startStream`, in 32-bit arithmetic.
  function NthId(first: uint32, k: nat): uint32 { (first + 2 * k) % TWO32 }

  ghost predicate Distinct(first: uint32, calls: nat) {
    && (forall k: nat | k < calls :: NthId(first, k) != 0)
    && (forall j: nat, k: nat | j < k < calls :: NthId(first, j) != NthId(first, k))
  }

  // Exactly how many calls get distinct, nonzero IDs: 2^31 on the host, one less on the plugin,
  // whose 2^31-th ID is 0, the ID of raw messages.
  lemma DistinctIds(calls: nat)
    ensures Distinct(1, calls) <==> calls <= HALF
    ensures Distinct(2, calls) <==> calls < HALF
  {
    Unwrapped(1, calls);
    Unwrapped(2, calls);
    assert NthId(1, 0) == 1 == NthId(1, HALF) && NthId(2, HALF - 1) == 0;
    hide NthId;
  }

  lemma Unwrapped(first: uint32, calls: nat)
    ensures forall k: nat | k < calls && first + 2 * k < TWO32 :: NthId(first, k) == first + 2 * k
  {}

  // The IDs of the two endpoints never meet, wrapped or not.
  lemma DisjointIds(j: nat, k: nat)
    ensures NthId(1, j) != NthId(2, k)
  {
    assert NthId(1, j) % 2 == 1 && NthId(2, k) % 2 == 0;
  }

  // Whatever a step inserts into a stream table goes under a nonzero ID that neither the table nor
  // any earlier stream of that endpoint has; a stream registered here is unknown to the peer.
  lemma NoCollision(n: Net, side: Side, a: Action)
    requires Reached(n) && NetStep(n, side, a).Some?
    ensures var e := Me(n, side).e;
      && (a.Register? ==> a.id != 0 && a.id !in e.table && Absent(e.heap, a.id) && Absent(Peer(n, side).e.heap, a.id))
      && (a.Dispatch? && IsStart(e.loop.frame) ==> e.loop.frame.id !in e.table && Absent(e.heap, e.loop.frame.id))
  {
    ReachedOk(n, side);
    StepOfSide(n, side, a);
    hide Reached, PairOk, NetStep, Apply, Absent, IsStart;
    if a.Register? {
      RegisterIsNew(Me(n, side), Peer(n, side), a.id, a.mode, a.route);
    } else if a.Dispatch? {
      DispatchGot(Me(n, side).e);
      if IsStart(Me(n, side).e.loop.frame) { StartDispatch(Me(n, side), Peer(n, side), Me(n, side).e.loop.frame); }
    }
  }

  lemma StepOfSide(n: Net, side: Side, a: Action)
    requires NetStep(n, side, a).Some?
    ensures Apply(Me(n, side).e, a).Some?
  {
    hide Apply;
  }

  lemma DispatchGot(e: Endpoint)
    requires Apply(e, Dispatch).Some?
    ensures e.loop.Got? && e.loop.frame.id != 0
  {}

  lemma RegisterIsNew(me: Party, other: Party, id: uint32, mode: byte, route: Bytes)
    requires PairOk(me, other) && Apply(me.e, Register(id, mode, route)).Some?
    ensures id != 0 && id !in me.e.table && Absent(me.e.heap, id) && Absent(other.e.heap, id)
  {
    assert TableOk(me.e) && IdsOk(me.e) && Issued(me.e, id) && Absent(me.e.heap, id);
    hide EpOk, Unique, PortOk;
    OwnStays(me.e, Register(id, mode, route));
    assert LineBetween(me, other, id);
    assert HalfOf(me, other, id).port.stream.None?;
  }

  lemma StartDispatch(me: Party, other: Party, f: Frame)
    requires PairOk(me, other) && me.e.loop == Got(f) && IsStart(f) && f.id != 0
    ensures f.id !in me.e.table && Absent(me.e.heap, f.id)
  {
    assert LineBetween(me, other, f.id);
    assert HalfOf(me, other, f.id).port.spot == Holding(f);
    hide EpOk, IdsOk, PortOk;
    if Own(me.e, f.id) {
      HeldFrames(f.id, HalfOf(me, other, f.id), HalfOf(other, me, f.id));
    } else {
      HeldFrames(f.id, HalfOf(other, me, f.id), HalfOf(me, other, f.id));
    }
  }

  // The line of a stream of a reachable state.
  lemma ReachedLine(n: Net, side: Side, x: uint32)
    requires Reached(n) && x != 0
    ensures var me, other := Me(n, side), Peer(n, side);
      && me.read <= |other.log| && other.read <= |me.log|
      && if Own(me.e, x) then LineOk(x, HalfOf(me, other, x), HalfOf(other, me, x))
         else LineOk(x, HalfOf(other, me, x), HalfOf(me, other, x))
  {
    ReachedOk(n, side);
    hide Reached, EpOk, IdsOk, LineOk;
    assert LineBetween(Me(n, side), Peer(n, side), x);
  }

  // "stream not found" is only ever sent for an ID this endpoint has held and removed.
  lemma NotFoundIsRemoved(n: Net, side: Side)
    requires Reached(n) && Me(n, side).e.loop.Replying?
    ensures var e := Me(n, side).e;
      e.loop.id !in e.table && exists i :: 0 <= i < |e.heap| && e.heap[i].id == e.loop.id
  {
    var me, other := Me(n, side), Peer(n, side);
    var x := me.e.loop.id;
    ReachedOk(n, side);
    ReplyingId(me.e);
    ReachedLine(n, side, x);
    hide Reached, PairOk, Own, LineOk, Of, StreamOf, PortOk;
    var a, b := HalfOf(me, other, x), HalfOf(other, me, x);
    assert a.port.spot == Answering && a.port.listed == (x in me.e.table);
    ViewStream(me.e, x);
    if Own(me.e, x) { AnsweringHeld(x, a, b, a.port); } else { AnsweringHeld(x, b, a, a.port); }
  }

  lemma ReplyingId(e: Endpoint)
    requires EpOk(e) && e.loop.Replying?
    ensures e.loop.id != 0
  {}

  lemma AnsweringHeld(x: uint32, a: Half, b: Half, p: Port)
    requires LineOk(x, a, b) && (p == a.port || p == b.port) && p.spot.Answering?
    ensures p.stream.Some? && !p.listed
  {
    hide LineOk, PortOk;
    LinePorts(x, a, b);
    if a.port.stream.Some? { NextFrame(x, a.port, b.out[..a.read], b.out[..a.read]); }
    if b.port.stream.Some? { NextFrame(x, b.port, Inbox(a, b), Inbox(a, b)); }
  }

  // On the wire, a stream begins with its one Start frame, written by the end whose ID it is; the
  // other end writes none, and nothing at all on that stream before it has read the Start frame.
  lemma StartFirst(n: Net, side: Side, x: uint32)
    requires Reached(n) && x != 0 && Own(Me(n, side).e, x)
    ensures var mine, theirs := Of(Me(n, side).log, x), Of(Peer(n, side).log, x);
      && (mine != [] ==> IsStart(mine[0]) && NoStart(mine[1..]) && !Absent(Me(n, side).e.heap, x))
      && NoStart(theirs)
      && (theirs != [] ==> Of(ReadBy(n, if side.Host? then Plugin else Host), x) != [])
  {
    hide Reached, LineOk, Of, View, Own, Absent, NoStart, IsStart;
    var me, other := Me(n, side), Peer(n, side);
    ReachedLine(n, side, x);
    StartOrder(x, HalfOf(me, other, x), HalfOf(other, me, x));
    ViewStream(me.e, x);
  }

  lemma StartOrder(x: uint32, a: Half, b: Half)
    requires LineOk(x, a, b)
    ensures Opening(a.out) && NoStart(b.out) && (a.out != [] ==> a.port.stream.Some?)
    ensures b.out != [] ==> b.read > 0
  {
    hide PortOk;
  }

  lemma ViewStream(e: Endpoint, x: uint32)
    ensures View(e, x).stream.None? <==> Absent(e.heap, x)
  {
    hide Absent;
  }

  // What the payload of a Start frame asks for.
  predicate Asked(payload: Bytes, mode: byte, route: Bytes) {
    if payload == [] then mode == 0 && route == [] else payload == [mode] + route
  }

  // A stream is offered to the handler that the peer's `startStream` asked for, or to that of as much
  // of the route as fits into a frame.
  lemma RouteArrives(n: Net, side: Side)
    requires Reached(n) && Me(n, side).e.loop.Routing?
    ensures var loop, asked := Me(n, side).e.loop, StreamOf(Peer(n, side).e.heap, Me(n, side).e.loop.id);
      && asked.Some?
      && Asked(Carried(asked.value.start), loop.mode, loop.route)
      && (|asked.value.start| < TWO32 ==> Asked(asked.value.start, loop.mode, loop.route))
  {
    StartArrives(n, side);
    hide Reached, Carried, StreamOf;
    var asked := StreamOf(Peer(n, side).e.heap, Me(n, side).e.loop.id);
    AsksFor(Carried(asked.value.start));
  }

  lemma AsksFor(payload: Bytes)
    ensures Asked(payload, ModeOf(payload), RouteOf(payload))
  {}

  lemma StartArrives(n: Net, side: Side)
    requires Reached(n) && Me(n, side).e.loop.Routing?
    ensures var loop, asked := Me(n, side).e.loop, StreamOf(Peer(n, side).e.heap, Me(n, side).e.loop.id);
      && asked.Some?
      && loop.mode == ModeOf(Carried(asked.value.start)) && loop.route == RouteOf(Carried(asked.value.start))
  {
    var me, other := Me(n, side), Peer(n, side);
    var x := me.e.loop.id;
    ReachedOk(n, side);
    assert LineBetween(me, other, x);
    assert HalfOf(me, other, x).port.spot == Placing;
    StreamAt(me.e.heap, me.e.loop.ref);
    hide PortOk;
  }

  // ---- Delivery ----

  // The frame of the stream that the read loop has read and not yet handed over.
  function InLoop(l: Loop, x: uint32): seq<Frame> {
    if l.Got? && l.frame.id == x then [l.frame]
    else if l.Offering? && l.frame.id == x then [l.frame]
    else []
  }

  // What was read for a stream object, as its line has it.
  ghost function InboxOf(me: Party, other: Party, x: uint32): seq<Frame>
    requires me.read <= |other.log| && other.read <= |me.log|
    requires LineBetween(me, other, x)
  {
    if Own(me.e, x) then HalfOf(other, me, x).out[..HalfOf(me, other, x).read]
    else Inbox(HalfOf(other, me, x), HalfOf(me, other, x))
  }

  // How far the line has been read, in terms of the log.
  lemma ReadOfLine(me: Party, other: Party, x: uint32)
    requires me.read <= |other.log| && other.read <= |me.log|
    ensures var read, mine, theirs := Of(other.log[..me.read], x), HalfOf(me, other, x), HalfOf(other, me, x);
      mine.read == |read| <= |theirs.out| && theirs.out[..mine.read] == read
  {
    hide Of, View;
    OfPrefix(other.log[..me.read], other.log, x);
  }

  lemma InboxIsBody(me: Party, other: Party, x: uint32)
    requires PairOk(me, other) && x != 0 && !Absent(me.e.heap, x)
    ensures LineBetween(me, other, x) && InboxOf(me, other, x) == Body(other.log[..me.read], x)
  {
    PairParts(me, other, x);
    assert me.read <= |other.log| && other.read <= |me.log|;
    hide PairOk, PartyOk, LineOk, Body, Of, View, PortOk, Absent, Own;
    ViewStream(me.e, x);
    ReadOfLine(me, other, x);
    var read, mine, theirs := other.log[..me.read], HalfOf(me, other, x), HalfOf(other, me, x);
    assert mine.port.stream.Some?;
    hide HalfOf;
    if Own(me.e, x) {
      LineOrder(x, mine, theirs);
      BodyOfUnopened(read, x);
    } else {
      LineOrder(x, theirs, mine);
      BodyOfOpened(read, x);
    }
  }

  // One Start frame, from the initiator, comes first on a line.
  lemma LineOrder(x: uint32, a: Half, b: Half)
    requires LineOk(x, a, b)
    ensures a.read <= |b.out| && NoStart(b.out[..a.read]) && b.read <= |a.out| && Opening(a.out[..b.read])
    ensures b.port.stream.Some? ==> b.read > 0 && Inbox(a, b) == a.out[..b.read][1..]
  {
    hide PortOk;
  }

  lemma PortOf(me: Party, other: Party, r: nat)
    requires PairOk(me, other) && r < |me.e.heap|
    ensures var x := me.e.heap[r].id;
      && x != 0 && LineBetween(me, other, x) && View(me.e, x).stream == Some(me.e.heap[r])
      && PortOk(x, View(me.e, x), Body(other.log[..me.read], x))
      && (View(me.e, x).spot.Holding? ==> !IsStart(View(me.e, x).spot.frame))
      && (Unopened(View(me.e, x)) ==> Body(other.log[..me.read], x) == [])
  {
    var x := me.e.heap[r].id;
    StreamAt(me.e.heap, r);
    InboxIsBody(me, other, x);
    PairParts(me, other, x);
    hide PairOk, PartyOk, LineBetween, PortOk, Absent, Body;
    PortOnLine(me, other, x);
  }

  lemma PortOnLine(me: Party, other: Party, x: uint32)
    requires me.read <= |other.log| && other.read <= |me.log|
    requires LineBetween(me, other, x) && View(me.e, x).stream.Some?
    ensures PortOk(x, View(me.e, x), InboxOf(me, other, x))
    ensures View(me.e, x).spot.Holding? ==> !IsStart(View(me.e, x).spot.frame)
    ensures Unopened(View(me.e, x)) ==> InboxOf(me, other, x) == []
  {
    hide PortOk, View, Of;
    if Own(me.e, x) {
      HeldFrames(x, HalfOf(me, other, x), HalfOf(other, me, x));
    } else {
      HeldFrames(x, HalfOf(other, me, x), HalfOf(me, other, x));
    }
  }

  // A stream object of a reachable state, as the port of its line.
  lemma ReachedPort(n: Net, side: Side, r: nat)
    requires Reached(n) && r < |Me(n, side).e.heap|
    ensures var e := Me(n, side).e;
      var x := e.heap[r].id;
      && View(e, x).stream == Some(e.heap[r])
      && PortOk(x, View(e, x), Body(ReadBy(n, side), x))
      && Body(ReadBy(n, side), x) <= Body(Peer(n, side).log, x)
      && (Unopened(View(e, x)) ==> Body(ReadBy(n, side), x) == [])
  {
    var me, other := Me(n, side), Peer(n, side);
    ReachedOk(n, side);
    hide Reached;
    assert me.read <= |other.log|;
    PortOf(me, other, r);
    hide PairOk, LineBetween, PortOk, View;
    BodyPrefix(ReadBy(n, side), other.log, me.e.heap[r].id);
  }

  // The payloads and error texts of frames, by their flags; a Close or CloseWrite frame has neither.
  function Reports(fs: seq<Frame>): seq<Outcome> {
    if fs == [] then []
    else
      var f := fs[|fs| - 1];
      Reports(fs[..|fs| - 1])
      + (if IsClose(f) || IsCloseWrite(f) then [] else if IsError(f) then [PeerError(f.payload)]
         else [Received(f.payload)])
  }

  lemma {:induction false} ReportsOf(fs: seq<Frame>)
    ensures Told(Outcomes(fs)) == Reports(fs)
  {
    hide IsClose, IsError, IsCloseWrite;
    if fs != [] {
      var before, f := fs[..|fs| - 1], fs[|fs| - 1];
      ReportsOf(before);
      ToldOneMore(Outcomes(before), OutcomeOf(f));
      hide Told;
    }
  }

  lemma {:induction false} ToldHas(os: seq<Outcome>, o: Outcome)
    requires o in os && !o.EndOfStream?
    ensures o in Told(os)
  {
    if o != os[|os| - 1] { ToldHas(os[..|os| - 1], o); }
  }

  lemma {:induction false} ReportHas(fs: seq<Frame>, o: Outcome) returns (f: Frame)
    requires o in Reports(fs)
    ensures f in fs && !IsClose(f) && !IsCloseWrite(f)
    ensures o == if IsError(f) then PeerError(f.payload) else Received(f.payload)
  {
    hide IsClose, IsError, IsCloseWrite;
    f := fs[|fs| - 1];
    if o in Reports(fs[..|fs| - 1]) { f := ReportHas(fs[..|fs| - 1], o); }
  }

  lemma {:induction false} SubsequenceHas<T>(a: seq<T>, b: seq<T>, x: T)
    requires Subsequence(a, b) && x in a
    ensures x in b
  {
    if Subsequence(a, b[..|b| - 1]) { SubsequenceHas(a, b[..|b| - 1], x); }
    else if x != a[|a| - 1] { SubsequenceHas(a[..|a| - 1], b[..|b| - 1], x); }
  }

  lemma {:induction false} BodyHas(fs: seq<Frame>, x: uint32, f: Frame)
    requires f in Body(fs, x)
    ensures f in fs && f.id == x
  {
    if fs != [] && f in Body(fs[..|fs| - 1], x) { BodyHas(fs[..|fs| - 1], x, f); }
  }

  // A payload that `Recv` returned was in a frame that the peer wrote on that ID and that is neither an
  // Error nor an end; an error that it returned has the text of an Error frame of the peer.
  lemma ReceivedIsSent(n: Net, side: Side, r: nat, k: nat)
    requires Reached(n) && r < |Me(n, side).e.heap| && k < |Me(n, side).e.heap[r].outcomes|
    ensures var s, log := Me(n, side).e.heap[r], Peer(n, side).log;
      && (s.outcomes[k].Received? ==>
            exists f :: f in log && f.id == s.id && f.payload == s.outcomes[k].payload
                        && !IsError(f) && !IsClose(f) && !IsCloseWrite(f))
      && (s.outcomes[k].PeerError? ==>
            exists f :: f in log && f.id == s.id && f.payload == s.outcomes[k].message
                        && IsError(f) && !IsClose(f) && !IsCloseWrite(f))
  {
    hide Reached, Told, Reports, Subsequence, IsClose, IsError, IsCloseWrite, Body;
    Delivery(n, side, r);
    var s, log := Me(n, side).e.heap[r], Peer(n, side).log;
    var o := s.outcomes[k];
    if !o.EndOfStream? {
      ToldHas(s.outcomes, o);
      var f := ReportHas(s.taken, o);
      SubsequenceHas(s.taken + s.queue, Body(log, s.id), f);
      BodyHas(log, s.id, f);
    }
  }

  // Nothing is delivered that the peer did not send on that ID, nor twice, nor out of order. Until
  // the stream is cancelled nothing is missing either: what `Recv` took, the queue and the frame
  // in the loop's hand are exactly what was read off the wire. What `Recv` returned, but for ends, is what
  // the frames it took carried, in order, however the stream ended.
  lemma Delivery(n: Net, side: Side, r: nat)
    requires Reached(n) && r < |Me(n, side).e.heap|
    ensures var e, other := Me(n, side).e, Peer(n, side);
      var s := e.heap[r];
      && Subsequence(s.taken + s.queue, Body(other.log, s.id))
      && |s.queue| <= CAPACITY
      && (!Cancelled(s) ==> s.taken + s.queue + InLoop(e.loop, s.id) == Body(ReadBy(n, side), s.id))
      && Told(s.outcomes) == Reports(s.taken)
  {
    EndpointOk(n, side);
    OutcomesOf(Me(n, side).e, r);
    ReportsOf(Me(n, side).e.heap[r].taken);
    hide Reached, Subsequence, View, EpOk, Told;
    var e, s := Me(n, side).e, Me(n, side).e.heap[r];
    var p, body := View(e, s.id), Body(ReadBy(n, side), s.id);
    ReachedPort(n, side, r);
    SubsequenceOfPrefix(Accepted(s), Settled(p), s.offered);
    SubsequenceOfPrefix(Accepted(s), s.offered, Handled(p, body));
    SubsequenceOfPrefix(Accepted(s), Handled(p, body), body);
    SubsequenceOfPrefix(Accepted(s), body, Body(Peer(n, side).log, s.id));
    if !Cancelled(s) {
      ViewSpot(e, s.id);
      Uncancelled(s.id, p, body, e.loop);
    }
  }

  lemma ViewSpot(e: Endpoint, x: uint32)
    ensures View(e, x).spot == SpotOf(e.loop, x)
  {}

  lemma Uncancelled(x: uint32, p: Port, body: seq<Frame>, l: Loop)
    requires p.stream.Some? && PortOk(x, p, body) && p.spot == SpotOf(l, x) && !Cancelled(p.stream.value)
    requires Unopened(p) ==> body == []
    ensures Accepted(p.stream.value) + InLoop(l, x) == body
  {
    UncancelledParts(x, p, body);
    SpotIsInLoop(l, x);
    hide PortOk, SpotOf, InLoop, Accepted, Settled, Handled;
    HandJoins(p, body);
  }

  // What is settled and the frame at hand are all that was read.
  lemma HandJoins(p: Port, body: seq<Frame>)
    requires p.stream.Some? && p.stream.value.offered == Handled(p, body)
    requires p.spot.Handing? || p.spot.Holding? ==> body != [] && body[|body| - 1] == p.spot.frame
    ensures Settled(p) + (if p.spot.Handing? || p.spot.Holding? then [p.spot.frame] else []) == body
  {
    if body != [] { assert body == body[..|body| - 1] + [body[|body| - 1]]; }
  }

  lemma SpotIsInLoop(l: Loop, x: uint32)
    ensures var spot := SpotOf(l, x); InLoop(l, x) == if spot.Handing? || spot.Holding? then [spot.frame] else []
  {}

  // While a stream is not cancelled, all that was handled has been offered and accepted.
  lemma UncancelledParts(x: uint32, p: Port, body: seq<Frame>)
    requires p.stream.Some? && PortOk(x, p, body) && !Cancelled(p.stream.value)
    requires Unopened(p) ==> body == []
    ensures var o := p.stream.value.offered;
      && o == Handled(p, body) && Accepted(p.stream.value) == Settled(p)
      && (p.spot.Handing? || p.spot.Holding? ==> body != [] && body[|body| - 1] == p.spot.frame)
  {
    hide Subsequence, Outcomes, Ends, Ordered, Settled, Accepted;
  }

  // A stream that ends only by a Close frame of its peer or by the end of the read loop loses
  // nothing: `Recv` returns what was offered, in order, each CloseWrite as one end-of-stream in its
  // place; any further end-of-stream comes after the last frame. Ended by a Close frame, it was
  // offered all that was read before that frame; ended by the sweep, all that was read.
  lemma GracefulEnd(n: Net, side: Side, r: nat)
    requires Reached(n) && r < |Me(n, side).e.heap| && Graceful(Me(n, side).e.heap[r])
    ensures var s := Me(n, side).e.heap[r];
      var body := Body(ReadBy(n, side), s.id);
      && |s.taken| <= |s.outcomes|
      && s.outcomes == Outcomes(s.taken) + Ends(|s.outcomes| - |s.taken|)
      && (|s.taken| < |s.outcomes| ==> s.taken == s.offered && Cancelled(s))
      && (s.closed ==> s.taken + s.queue == s.offered)
      && (PeerClosed in s.causes ==>
           |s.offered| < |body| && s.offered == body[..|s.offered|] && IsClose(body[|s.offered|]))
      && (LoopEnded in s.causes ==> s.offered == body)
  {
    hide Reached, PortOk, View;
    ReachedPort(n, side, r);
    var e, s := Me(n, side).e, Me(n, side).e.heap[r];
    GracefulPort(s.id, View(e, s.id), Body(ReadBy(n, side), s.id));
  }

  lemma GracefulPort(x: uint32, p: Port, body: seq<Frame>)
    requires p.stream.Some? && PortOk(x, p, body) && Graceful(p.stream.value)
    ensures var s := p.stream.value;
      && |s.taken| <= |s.outcomes|
      && s.outcomes == Outcomes(s.taken) + Ends(|s.outcomes| - |s.taken|)
      && (|s.taken| < |s.outcomes| ==> s.taken == s.offered && Cancelled(s))
      && (s.closed ==> s.taken + s.queue == s.offered)
      && (PeerClosed in s.causes ==>
           |s.offered| < |body| && s.offered == body[..|s.offered|] && IsClose(body[|s.offered|]))
      && (LoopEnded in s.causes ==> s.offered == body)
  {
    var s := p.stream.value;
    assert s.queue == [] ==> s.taken + s.queue == s.taken;
    hide Outcomes, Ends, Subsequence;
  }
}
