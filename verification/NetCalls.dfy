/**
 The two kinds of routed call in a real network. Two endpoints take any steps at all; those on
 stream `x` that belong to the application are the steps of the two programs, and nothing on that
 stream is cancelled or fails to be written. Then the call equals a direct call of the handler.
 */
module NetCalls {
  import opened Bytes
  import opened Frames
  import opened Options
  import opened Mux
  import opened Line
  import opened Network
  import opened Runs
  import opened Streams
  import opened Routes
  import opened Calls
  import Single = SingleMulti
  import Multi = MultiSingle

  // The host's streams have odd IDs.
  predicate Initiates(side: Side, x: uint32) { side.Host? <==> x % 2 == 1 }

  function Initiator(x: uint32): Side { if x % 2 == 1 then Host else Plugin }
  function Acceptor(x: uint32): Side { if x % 2 == 1 then Plugin else Host }

  ghost function HalfIn(n: Net, side: Side, x: uint32): Half
    requires NetOk(n)
  {
    PairSwap(n.host, n.plugin);
    HalfOf(Me(n, side), Peer(n, side), x)
  }

  // A step of the network on stream `x` is a step of its half of the line.
  lemma StepOnLine(m: Net, side: Side, a: Action, x: uint32)
    requires x != 0 && NetOk(m) && NetStep(m, side, a).Some? && Bounded(NetStep(m, side, a).value)
    ensures var n, me, other := NetStep(m, side, a).value, side, if side.Host? then Plugin else Host;
      && NetOk(n) && HalfIn(n, other, x) == HalfIn(m, other, x)
      && HalfIn(n, side, x).port == View(Me(n, side).e, x)
      && if Subject(Me(m, side).e, a) == x
         then HalfStep(x, HalfIn(m, side, x), HalfIn(m, other, x), EventOf(Me(m, side).e, a))
            == Some(HalfIn(n, side, x))
         else HalfIn(n, side, x) == HalfIn(m, side, x)
  {
    hide EpOk, IdsOk, LineBetween, HalfStep, PartyStep, HalfOf, View, Subject, EventOf, Unique, NetOk;
    var n := NetStep(m, side, a).value;
    NetKeeps(m, side, a);
    BothPairs(m, x);
    BothPairs(n, x);
    StepOfParty(m, side, a);
    HalfFollows(Me(m, side), Peer(m, side), a, x);
    HalvesIn(m, x);
    HalvesIn(n, x);
    PortIn(n, side, x);
  }

  lemma BothPairs(n: Net, x: uint32)
    requires x != 0 && NetOk(n)
    ensures PartyOk(n.host, n.plugin) && PartyOk(n.plugin, n.host)
    ensures n.host.read <= |n.plugin.log| && n.plugin.read <= |n.host.log|
    ensures Unique(n.host.e.heap) && Unique(n.plugin.e.heap)
  {
    PairSwap(n.host, n.plugin);
    PairParts(n.host, n.plugin, x);
    PairParts(n.plugin, n.host, x);
    hide EpOk, IdsOk, Unique, PairOk;
  }

  lemma StepOfParty(m: Net, side: Side, a: Action)
    requires NetStep(m, side, a).Some?
    ensures PartyStep(Me(m, side), Peer(m, side), a) == Some(Me(NetStep(m, side, a).value, side))
    ensures Peer(NetStep(m, side, a).value, side) == Peer(m, side)
  {
    hide PartyStep;
  }

  lemma HalvesIn(n: Net, x: uint32)
    requires NetOk(n) && n.host.read <= |n.plugin.log| && n.plugin.read <= |n.host.log|
    ensures HalfIn(n, Host, x) == HalfOf(n.host, n.plugin, x) && HalfIn(n, Plugin, x) == HalfOf(n.plugin, n.host, x)
  {
    hide NetOk, HalfOf;
  }

  lemma PortIn(n: Net, side: Side, x: uint32)
    requires NetOk(n)
    ensures HalfIn(n, side, x).port == View(Me(n, side).e, x)
  {
    hide NetOk, View, Of;
  }

  // ---- The route and its handler ----

  // On its stream, startStream is called with this mode and route, and the read loop starts this handler.
  predicate Named(a: Action, ev: Event, mode: byte, name: Bytes, hid: nat) {
    (a.Register? ==> a.mode == mode && a.route == name) && (ev.Routed? ==> ev.handler == Some(hid))
  }

  lemma NamedStart(e: Endpoint, a: Action, mode: byte, name: Bytes, hid: nat)
    requires Named(a, EventOf(e, a), mode, name, hid)
    ensures EventOf(e, a).Registers? ==> EventOf(e, a).start == [mode] + name
  {}

  ghost predicate NamedSteps(steps: seq<Step>, x: uint32, mode: byte, name: Bytes, hid: nat)
    requires NetRun(NewNet(), steps).Some?
  {
    steps == []
    || var before, side, a := steps[..|steps| - 1], steps[|steps| - 1].0, steps[|steps| - 1].1;
       var e := Me(NetRun(NewNet(), before).value, side).e;
       NamedSteps(before, x, mode, name, hid) && (Subject(e, a) == x ==> Named(a, EventOf(e, a), mode, name, hid))
  }

  // When the acceptor's loop looked for a handler, `hid` was the last that had been registered there for
  // the mode and route that the Start frame carries.
  ghost predicate Registered(steps: seq<Step>, x: uint32, start: Bytes, hid: nat) {
    exists k :: 0 <= k < |steps| && steps[k] == (Acceptor(x), RouteStream) && HandlerAt(steps[..k], x, start, hid)
  }

  ghost predicate HandlerAt(steps: seq<Step>, x: uint32, start: Bytes, hid: nat) {
    exists mode: byte, route: Bytes ::
      Asked(Carried(start), mode, route) && mode <= 2 && LastAdded(ActionsOf(steps, Acceptor(x)), mode, route, hid)
  }

  lemma RegisteredLater(steps: seq<Step>, x: uint32, start: Bytes, hid: nat)
    requires steps != [] && Registered(steps[..|steps| - 1], x, start, hid)
    ensures Registered(steps, x, start, hid)
  {
    hide HandlerAt;
    var before := steps[..|steps| - 1];
    var k :| 0 <= k < |before| && before[k] == (Acceptor(x), RouteStream) && HandlerAt(before[..k], x, start, hid);
    assert before[..k] == steps[..k] && before[k] == steps[k];
  }

  // The initiator's stream is made by startStream only.
  lemma StartStays(x: uint32, a: Half, b: Half, ev: Event, start: Bytes)
    requires LineOk(x, a, b) && HalfStep(x, a, b, ev).Some? && (ev.Registers? ==> ev.start == start)
    requires a.port.stream.Some? ==> a.port.stream.value.start == start
    ensures var p := HalfStep(x, a, b, ev).value.port; p.stream.Some? ==> p.stream.value.start == start
  {
    hide LineOk, HalfStep, PortStep;
    LinePorts(x, a, b);
    HalfStepParts(x, a, b, ev);
    if a.port.stream.Some? { PortStepShape(x, a.port, ev); } else { OnlyRegisters(x, a.port, ev); }
  }

  lemma OnlyRegisters(x: uint32, p: Port, ev: Event)
    requires p.stream.None? && !p.listed && p.spot.Elsewhere? && PortStep(x, p, ev).Some?
    ensures var q := PortStep(x, p, ev).value.p; q.stream.Some? ==> ev.Registers? && q.stream.value.start == ev.start
  {}

  // The line of a stream in a reached state, by its initiator.
  lemma LineIn(n: Net, x: uint32)
    requires x != 0 && NetOk(n)
    ensures LineOk(x, HalfIn(n, Initiator(x), x), HalfIn(n, Acceptor(x), x))
  {
    PairSwap(n.host, n.plugin);
    hide EpOk, LineOk, HalfOf;
    assert LineBetween(n.host, n.plugin, x) && LineBetween(n.plugin, n.host, x);
  }

  lemma {:induction false} StartIs(steps: seq<Step>, x: uint32, mode: byte, name: Bytes, hid: nat)
    requires x != 0 && NetRun(NewNet(), steps).Some? && Bounded(NetRun(NewNet(), steps).value)
    requires NamedSteps(steps, x, mode, name, hid)
    ensures var n := NetRun(NewNet(), steps).value;
      && NetOk(n)
      && var p := HalfIn(n, Initiator(x), x).port; p.stream.Some? ==> p.stream.value.start == [mode] + name
  {
    hide Named, NetOk, NetStep, HalfIn, HalfStep, Subject, EventOf, Bounded, LineOk;
    if steps == [] {
      NewHalves(x);
    } else {
      var before, side, a := steps[..|steps| - 1], steps[|steps| - 1].0, steps[|steps| - 1].1;
      var m := NetRun(NewNet(), before).value;
      CallsGrow(m, side, a);
      StartIs(before, x, mode, name, hid);
      StepOnLine(m, side, a, x);
      LineIn(m, x);
      if side == Initiator(x) && Subject(Me(m, side).e, a) == x {
        NamedStart(Me(m, side).e, a, mode, name, hid);
        StartStays(x, HalfIn(m, Initiator(x), x), HalfIn(m, Acceptor(x), x), EventOf(Me(m, side).e, a), [mode] + name);
      }
    }
  }

  // The handler started for a stream is the one registered under what its Start frame carries.
  lemma RouteStarts(before: seq<Step>, m: Net, x: uint32, mode: byte, name: Bytes, hid: nat)
    requires x != 0 && NetRun(NewNet(), before) == Some(m) && Bounded(m)
    requires NamedSteps(before, x, mode, name, hid)
    requires var e := Me(m, Acceptor(x)).e; e.loop.Routing? && e.loop.id == x && HandlerOf(e) == Some(hid)
    ensures HandlerAt(before, x, [mode] + name, hid)
  {
    hide NetRun, Bounded, HandlerFor;
    StartIs(before, x, mode, name, hid);
    assert Reached(m);
    hide NetOk, NamedSteps;
    RouteArrives(m, Acceptor(x));
    InitiatorStream(m, x);
    SideRun(before, Acceptor(x));
    hide Run, LastAdded, Asked;
    HandlerIsLast(if Acceptor(x).Host? then 1 else 2, ActionsOf(before, Acceptor(x)), hid);
  }

  lemma InitiatorStream(m: Net, x: uint32)
    requires NetOk(m)
    ensures HalfIn(m, Initiator(x), x).port.stream == StreamOf(Peer(m, Acceptor(x)).e.heap, x)
  {
    hide PairOk, Of, StreamOf;
  }

  lemma RoutedShape(e: Endpoint, a: Action, x: uint32)
    requires x != 0 && Subject(e, a) == x && EventOf(e, a).Routed? && EventOf(e, a).handler.Some?
    ensures a == RouteStream && e.loop.Routing? && e.loop.id == x && EventOf(e, a).handler == HandlerOf(e)
  {
    hide HandlerFor;
  }

  // A call: its stream, the route that the caller names, and the number of the handler.
  datatype Target = Target(x: uint32, name: Bytes, hid: nat)

  type SinglePair = (Single.Client, Single.Server)
  type MultiPair = (Multi.Client, Multi.Server)

  // ---- CallSingleMulti ----

  // Where the two programs of the stream are after the steps; `None` if one of them would not have
  // taken a step that was taken, or something on the stream failed or was cancelled. The caller names
  // the route, and `h` is what the handler with number `hid` computes.
  ghost function SinglePrograms(steps: seq<Step>, to: Target, req: Bytes, h: Single.Handler): Option<SinglePair>
    requires NetRun(NewNet(), steps).Some?
  {
    if steps == [] then Some((Single.NewCall().c, Single.NewCall().s))
    else
      var before, side, a := steps[..|steps| - 1], steps[|steps| - 1].0, steps[|steps| - 1].1;
      var e, p := Me(NetRun(NewNet(), before).value, side).e, View(Me(NetRun(NewNet(), steps).value, side).e, to.x);
      match SinglePrograms(before, to, req, h)
      case None => None
      case Some((c, s)) =>
        if Subject(e, a) != to.x then Some((c, s))
        else if !Healthy(EventOf(e, a)) || !Named(a, EventOf(e, a), 1, to.name, to.hid) then None
        else if Initiates(side, to.x) then
          match Single.ClientStep(c, req, EventOf(e, a), p) case None => None case Some(c') => Some((c', s))
        else
          match Single.ServerStep(s, h, EventOf(e, a), p) case None => None case Some(s') => Some((c, s'))
  }

  lemma {:induction false} SingleRun(steps: seq<Step>, to: Target, req: Bytes, h: Single.Handler)
      returns (moves: seq<Single.Move>)
    requires to.x != 0 && NetRun(NewNet(), steps).Some? && Bounded(NetRun(NewNet(), steps).value)
    requires SinglePrograms(steps, to, req, h).Some?
    ensures var n, cs := NetRun(NewNet(), steps).value, SinglePrograms(steps, to, req, h).value;
      && NetOk(n)
      && Single.CallRun(to.x, req, h, moves)
         == Some(Single.Call(HalfIn(n, Initiator(to.x), to.x), HalfIn(n, Acceptor(to.x), to.x), cs.0, cs.1))
  {
    hide NetOk, NetStep, HalfIn, HalfStep, Subject, EventOf, Healthy, Named, Single.ClientStep, Single.ServerStep,
        Single.NewCall, Bounded, View;
    if steps == [] {
      moves := [];
      NewHalves(to.x);
    } else {
      var before, side, a := steps[..|steps| - 1], steps[|steps| - 1].0, steps[|steps| - 1].1;
      var m := NetRun(NewNet(), before).value;
      CallsGrow(m, side, a);
      moves := SingleRun(before, to, req, h);
      StepOnLine(m, side, a, to.x);
      if Subject(Me(m, side).e, a) == to.x {
        var last := (Initiates(side, to.x), EventOf(Me(m, side).e, a));
        assert (moves + [last])[..|moves|] == moves;
        moves := moves + [last];
      }
    }
  }

  lemma {:induction false} SingleNamed(steps: seq<Step>, to: Target, req: Bytes, h: Single.Handler)
    requires NetRun(NewNet(), steps).Some? && SinglePrograms(steps, to, req, h).Some?
    ensures NamedSteps(steps, to.x, 1, to.name, to.hid)
  {
    hide NetStep, Subject, EventOf, Named, Healthy, Single.ClientStep, Single.ServerStep, Single.NewCall, View;
    if steps != [] { SingleNamed(steps[..|steps| - 1], to, req, h); }
  }

  lemma SingleLeavesUnrouted(s: Single.Server, h: Single.Handler, ev: Event, p: Port)
    requires s.Unrouted? && Single.ServerStep(s, h, ev, p).Some?
    ensures Single.ServerStep(s, h, ev, p).value.Unrouted? || ev.Routed?
  {}

  lemma {:induction false} SingleRoute(steps: seq<Step>, to: Target, req: Bytes, h: Single.Handler)
    requires to.x != 0 && NetRun(NewNet(), steps).Some? && Bounded(NetRun(NewNet(), steps).value)
    requires SinglePrograms(steps, to, req, h).Some?
    ensures SinglePrograms(steps, to, req, h).value.1.Unrouted? || Registered(steps, to.x, [1] + to.name, to.hid)
  {
    hide NetStep, Subject, EventOf, Healthy, Single.ClientStep, Single.ServerStep, Bounded, View, Registered, HandlerAt,
        HandlerFor;
    if steps != [] {
      var before, side, a := steps[..|steps| - 1], steps[|steps| - 1].0, steps[|steps| - 1].1;
      var m, n := NetRun(NewNet(), before).value, NetRun(NewNet(), steps).value;
      CallsGrow(m, side, a);
      SingleRoute(before, to, req, h);
      var e, s := Me(m, side).e, SinglePrograms(before, to, req, h).value.1;
      if !s.Unrouted? {
        RegisteredLater(steps, to.x, [1] + to.name, to.hid);
      } else if Subject(e, a) == to.x && !Initiates(side, to.x) {
        SingleLeavesUnrouted(s, h, EventOf(e, a), View(Me(n, side).e, to.x));
        if EventOf(e, a).Routed? {
          SingleNamed(before, to, req, h);
          RoutedNow(steps, m, to.x, 1, to.name, to.hid);
        }
      }
    }
  }

  // The last step starts the handler.
  lemma RoutedNow(steps: seq<Step>, m: Net, x: uint32, mode: byte, name: Bytes, hid: nat)
    requires x != 0 && steps != [] && NetRun(NewNet(), steps[..|steps| - 1]) == Some(m) && Bounded(m)
    requires steps[|steps| - 1].0 == Acceptor(x) && NamedSteps(steps[..|steps| - 1], x, mode, name, hid)
    requires var e, a := Me(m, Acceptor(x)).e, steps[|steps| - 1].1;
      Subject(e, a) == x && EventOf(e, a) == Routed(Some(hid))
    ensures Registered(steps, x, [mode] + name, hid)
  {
    hide NetRun, NamedSteps, Subject, EventOf, HandlerFor, HandlerAt;
    RoutedShape(Me(m, Acceptor(x)).e, steps[|steps| - 1].1, x);
    RouteStarts(steps[..|steps| - 1], m, x, mode, name, hid);
    assert steps[|steps| - 1] == (Acceptor(x), RouteStream);
  }

  lemma NewHalves(x: uint32)
    ensures NetOk(NewNet())
    ensures HalfIn(NewNet(), Host, x) == NoHalf() == HalfIn(NewNet(), Plugin, x)
    ensures Single.NewCall().a == Single.NewCall().b == NoHalf() == Multi.NewCall().a == Multi.NewCall().b
  {
    NetStarts();
  }

  // Whatever else two endpoints do meanwhile, the channel of `CallSingleMulti` yields the sends of the
  // handler registered for the route it names, in order, and all of them before it is closed.
  lemma SingleMultiEqualsDirectCall(steps: seq<Step>, to: Target, req: Bytes, h: Single.Handler)
    requires to.x != 0 && NetRun(NewNet(), steps).Some? && Bounded(NetRun(NewNet(), steps).value)
    requires SinglePrograms(steps, to, req, h).Some?
    ensures var (c, s) := SinglePrograms(steps, to, req, h).value;
      && c.responses <= CarriedAll(h(Carried(req)))
      && (!Single.Before(c.at) ==> (Carried(req) == req <==> |req| <= TWO32 - 13))
      && (!Single.Before(c.at) && !c.at.Listening? ==>
           && !s.Unrouted? && c.responses == CarriedAll(h(Carried(req)))
           && (|req| <= TWO32 - 13 ==> (c.responses == h(req) <==> AllFit(h(req)))))
      && (!s.Unrouted? ==> Registered(steps, to.x, [1] + to.name, to.hid))
  {
    hide SinglePrograms, NetOk, NetRun, Single.CallRun, Bounded, Registered, Carried, CarriedAll, AllFit;
    var moves := SingleRun(steps, to, req, h);
    Single.EqualsDirectCall(to.x, req, h, moves);
    SingleRoute(steps, to, req, h);
  }

  // ---- CallMultiSingle ----

  // A step of the network, or of the handler reading from its channel.
  datatype Tick = OnNet(step: Step) | HandlerTakes | HandlerReturns

  function Steps(ticks: seq<Tick>): (r: seq<Step>)
    ensures |r| <= |ticks|
  {
    if ticks == [] then []
    else Steps(ticks[..|ticks| - 1]) + if ticks[|ticks| - 1].OnNet? then [ticks[|ticks| - 1].step] else []
  }

  lemma StepsOf(ticks: seq<Tick>)
    requires ticks != []
    ensures var before, last := ticks[..|ticks| - 1], ticks[|ticks| - 1];
      if last.OnNet? then Steps(ticks) != [] && Steps(ticks)[..|Steps(ticks)| - 1] == Steps(before)
          && Steps(ticks)[|Steps(ticks)| - 1] == last.step
      else Steps(ticks) == Steps(before)
  {}

  ghost function MultiPrograms(ticks: seq<Tick>, to: Target, reqs: seq<Bytes>, g: Multi.Handler): Option<MultiPair>
    requires NetRun(NewNet(), Steps(ticks)).Some?
  {
    if ticks == [] then Some((Multi.NewCall().c, Multi.NewCall().s))
    else
      StepsOf(ticks);
      var before := ticks[..|ticks| - 1];
      match MultiPrograms(before, to, reqs, g)
      case None => None
      case Some((c, s)) =>
        match ticks[|ticks| - 1]
        case HandlerTakes => (match Multi.HandlerTake(s) case None => None case Some(s') => Some((c, s')))
        case HandlerReturns => (match Multi.HandlerReturn(s, g) case None => None case Some(s') => Some((c, s')))
        case OnNet((side, a)) =>
          var e, p := Me(NetRun(NewNet(), Steps(before)).value, side).e,
                      View(Me(NetRun(NewNet(), Steps(ticks)).value, side).e, to.x);
          if Subject(e, a) != to.x then Some((c, s))
          else if !Healthy(EventOf(e, a)) || !Named(a, EventOf(e, a), 2, to.name, to.hid) then None
          else if Initiates(side, to.x) then
            match Multi.ClientStep(c, reqs, EventOf(e, a), p) case None => None case Some(c') => Some((c', s))
          else
            match Multi.ServerStep(s, EventOf(e, a), p) case None => None case Some(s') => Some((c, s'))
  }

  lemma {:induction false} MultiRun(ticks: seq<Tick>, to: Target, reqs: seq<Bytes>, g: Multi.Handler)
      returns (moves: seq<Multi.Move>)
    requires to.x != 0 && NetRun(NewNet(), Steps(ticks)).Some? && Bounded(NetRun(NewNet(), Steps(ticks)).value)
    requires MultiPrograms(ticks, to, reqs, g).Some?
    ensures var n, cs := NetRun(NewNet(), Steps(ticks)).value, MultiPrograms(ticks, to, reqs, g).value;
      && NetOk(n)
      && Multi.CallRun(to.x, reqs, g, moves)
         == Some(Multi.Call(HalfIn(n, Initiator(to.x), to.x), HalfIn(n, Acceptor(to.x), to.x), cs.0, cs.1))
  {
    hide NetOk, NetStep, HalfIn, HalfStep, Subject, EventOf, Healthy, Named, Bounded, View;
    hide Multi.ClientStep, Multi.ServerStep, Multi.NewCall, Multi.HandlerTake, Multi.HandlerReturn;
    if ticks == [] {
      moves := [];
      NewHalves(to.x);
    } else {
      StepsOf(ticks);
      hide Steps;
      var before := ticks[..|ticks| - 1];
      var m := NetRun(NewNet(), Steps(before)).value;
      match ticks[|ticks| - 1]
      case HandlerTakes =>
        moves := MultiRun(before, to, reqs, g);
        assert (moves + [Multi.HandlerTakes])[..|moves|] == moves;
        moves := moves + [Multi.HandlerTakes];
      case HandlerReturns =>
        moves := MultiRun(before, to, reqs, g);
        assert (moves + [Multi.HandlerReturns])[..|moves|] == moves;
        moves := moves + [Multi.HandlerReturns];
      case OnNet((side, a)) =>
        CallsGrow(m, side, a);
        moves := MultiRun(before, to, reqs, g);
        StepOnLine(m, side, a, to.x);
        if Subject(Me(m, side).e, a) == to.x {
          var last := Multi.OnLine(Initiates(side, to.x), EventOf(Me(m, side).e, a));
          assert (moves + [last])[..|moves|] == moves;
          moves := moves + [last];
        }
    }
  }

  lemma {:induction false} MultiNamed(ticks: seq<Tick>, to: Target, reqs: seq<Bytes>, g: Multi.Handler)
    requires NetRun(NewNet(), Steps(ticks)).Some? && MultiPrograms(ticks, to, reqs, g).Some?
    ensures NamedSteps(Steps(ticks), to.x, 2, to.name, to.hid)
  {
    hide NetStep, Subject, EventOf, Named, Healthy, View;
    hide Multi.ClientStep, Multi.ServerStep, Multi.NewCall, Multi.HandlerTake, Multi.HandlerReturn;
    if ticks != [] {
      StepsOf(ticks);
      MultiNamed(ticks[..|ticks| - 1], to, reqs, g);
    }
  }

  // Only the routing of its stream takes the server out of its first stage.
  lemma MultiLeavesUnrouted(s: Multi.Server, g: Multi.Handler, ev: Event, p: Port)
    requires s.at.Unrouted?
    ensures Multi.HandlerTake(s).None? && Multi.HandlerReturn(s, g).None?
    ensures Multi.ServerStep(s, ev, p).Some? ==> Multi.ServerStep(s, ev, p).value.at.Unrouted? || ev.Routed?
  {}

  lemma MultiRouteStep(ticks: seq<Tick>, to: Target, reqs: seq<Bytes>, g: Multi.Handler)
    requires to.x != 0 && NetRun(NewNet(), Steps(ticks)).Some? && Bounded(NetRun(NewNet(), Steps(ticks)).value)
    requires MultiPrograms(ticks, to, reqs, g).Some? && ticks != [] && ticks[|ticks| - 1].OnNet?
    requires var before := ticks[..|ticks| - 1];
      && NetRun(NewNet(), Steps(before)).Some? && MultiPrograms(before, to, reqs, g).Some?
      && MultiPrograms(before, to, reqs, g).value.1.at.Unrouted?
    ensures MultiPrograms(ticks, to, reqs, g).value.1.at.Unrouted?
            || Registered(Steps(ticks), to.x, [2] + to.name, to.hid)
  {
    hide NetStep, Subject, EventOf, Healthy, Multi.ClientStep, Multi.ServerStep, Bounded, View, Registered;
    StepsOf(ticks);
    var before := ticks[..|ticks| - 1];
    var (side, a) := ticks[|ticks| - 1].step;
    var m, n := NetRun(NewNet(), Steps(before)).value, NetRun(NewNet(), Steps(ticks)).value;
    hide Steps;
    CallsGrow(m, side, a);
    var e, s := Me(m, side).e, MultiPrograms(before, to, reqs, g).value.1;
    if Subject(e, a) == to.x && !Initiates(side, to.x) {
      MultiLeavesUnrouted(s, g, EventOf(e, a), View(Me(n, side).e, to.x));
      if EventOf(e, a).Routed? {
        MultiNamed(before, to, reqs, g);
        RoutedNow(Steps(ticks), m, to.x, 2, to.name, to.hid);
      }
    }
  }

  lemma {:induction false} MultiRoute(ticks: seq<Tick>, to: Target, reqs: seq<Bytes>, g: Multi.Handler)
    requires to.x != 0 && NetRun(NewNet(), Steps(ticks)).Some? && Bounded(NetRun(NewNet(), Steps(ticks)).value)
    requires MultiPrograms(ticks, to, reqs, g).Some?
    ensures MultiPrograms(ticks, to, reqs, g).value.1.at.Unrouted?
            || Registered(Steps(ticks), to.x, [2] + to.name, to.hid)
  {
    hide NetStep, Subject, EventOf, Healthy, Multi.ClientStep, Multi.ServerStep, Bounded, View, Registered, Named;
    hide Multi.HandlerTake, Multi.HandlerReturn;
    if ticks != [] {
      StepsOf(ticks);
      hide Steps;
      var before := ticks[..|ticks| - 1];
      if ticks[|ticks| - 1].OnNet? {
        var (side, a) := ticks[|ticks| - 1].step;
        CallsGrow(NetRun(NewNet(), Steps(before)).value, side, a);
      }
      MultiRoute(before, to, reqs, g);
      var s := MultiPrograms(before, to, reqs, g).value.1;
      if s.at.Unrouted? {
        MultiLeavesUnrouted(s, g, Left, Port(None, false, Elsewhere));
        if ticks[|ticks| - 1].OnNet? { MultiRouteStep(ticks, to, reqs, g); }
      } else if ticks[|ticks| - 1].OnNet? {
        RegisteredLater(Steps(ticks), to.x, [2] + to.name, to.hid);
      }
    }
  }

  // Whatever else two endpoints do meanwhile, the handler registered for the route that
  // `CallMultiSingle` names sees the requests in order, and the call returns what it returned.
  lemma MultiSingleEqualsDirectCall(ticks: seq<Tick>, to: Target, reqs: seq<Bytes>, g: Multi.Handler)
    requires to.x != 0 && NetRun(NewNet(), Steps(ticks)).Some? && Bounded(NetRun(NewNet(), Steps(ticks)).value)
    requires MultiPrograms(ticks, to, reqs, g).Some?
    ensures var (c, s) := MultiPrograms(ticks, to, reqs, g).value;
      && s.seen <= CarriedAll(reqs)
      && (!Multi.Reading(s.at) ==> s.seen == CarriedAll(reqs) && (s.seen == reqs <==> AllFit(reqs)))
      && (!c.result.Pending? ==>
           && c.result == Multi.Returned(Multi.CarriedAnswer(g(CarriedAll(reqs)))) && !Multi.Reading(s.at)
           && (AllFit(reqs) ==> (c.result == Multi.Returned(g(reqs)) <==> Multi.AnswerFits(g(reqs)))))
      && (!s.at.Unrouted? ==> Registered(Steps(ticks), to.x, [2] + to.name, to.hid))
  {
    hide MultiPrograms, NetOk, NetRun, Multi.CallRun, Bounded, Registered, CarriedAll, AllFit, Steps;
    var moves := MultiRun(ticks, to, reqs, g);
    Multi.EqualsDirectCall(to.x, reqs, g, moves);
    MultiRoute(ticks, to, reqs, g);
  }
}
