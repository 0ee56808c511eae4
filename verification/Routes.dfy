/**
 Handlers and routes: the handler that the read loop starts for a stream is the one that was registered
 last for the stream's mode and route, whatever else was registered.
 */
module Routes {
  import opened Bytes
  import opened Frames
  import opened Options
  import opened Mux
  import opened Network
  import Line
  import opened Streams

  // `handler` was the last to be registered for this mode and route.
  ghost predicate LastAdded(actions: seq<Action>, mode: byte, route: Bytes, handler: nat) {
    exists k :: LastAt(actions, k, mode, route, handler)
  }

  ghost predicate LastAt(actions: seq<Action>, k: int, mode: byte, route: Bytes, handler: nat) {
    && 0 <= k < |actions| && actions[k] == AddRoute(mode, route, handler)
    && forall j | k < j < |actions| :: !(actions[j].AddRoute? && actions[j].mode == mode && actions[j].route == route)
  }

  predicate Added(actions: seq<Action>, mode: byte, route: Bytes) {
    exists k :: 0 <= k < |actions| && actions[k].AddRoute? && actions[k].mode == mode && actions[k].route == route
  }

  // The table of an endpoint, as one value.
  datatype Table = Table(entries: map<(byte, Bytes), nat>)

  function TableOf(e: Endpoint): Table { Table(e.routes) }

  // Only a registration changes the table.
  lemma OnlyAdds(e: Endpoint, a: Action)
    requires Apply(e, a).Some? && !a.AddRoute?
    ensures TableOf(Apply(e, a).value.e) == TableOf(e)
  {
    hide StartStep, CallStep, RecvStep, ConnStep, ReadStep, OfferStep, EndStep;
    if ForStart(a) { StartRoutes(e, a); }
    else if ForCalls(a) { CallRoutes(e, a); }
    else if ForRecv(a) { RecvRoutes(e, a); }
    else if ForConn(a) { ConnRoutes(e, a); }
    else if ForRead(a) { ReadRoutes(e, a); }
    else if ForOffer(a) { OfferRoutes(e, a); }
    else { EndRoutes(e, a); }
  }

  lemma StartRoutes(e: Endpoint, a: Action)
    requires StartStep(e, a).Some?
    ensures TableOf(StartStep(e, a).value.e) == TableOf(e)
  {
    hide Writable, Carried;
  }

  lemma CallRoutes(e: Endpoint, a: Action)
    requires CallStep(e, a).Some?
    ensures TableOf(CallStep(e, a).value.e) == TableOf(e)
  {
    hide Writable, Carried;
  }

  lemma RecvRoutes(e: Endpoint, a: Action)
    requires RecvStep(e, a).Some?
    ensures TableOf(RecvStep(e, a).value.e) == TableOf(e)
  {
    hide Returned, Take, AtEnd;
    if a.Poll? { PollIs(e, a.ref); hide RecvStep; }
    else if a.Wake? { WakeIs(e, a.ref); hide RecvStep; }
    else if a.Drain? { DrainIs(e, a.ref); hide RecvStep; }
  }

  lemma ConnRoutes(e: Endpoint, a: Action)
    requires ConnStep(e, a).Some? && !a.AddRoute?
    ensures TableOf(ConnStep(e, a).value.e) == TableOf(e)
  {
    hide Writable, Carried;
  }

  lemma ReadRoutes(e: Endpoint, a: Action)
    requires ReadStep(e, a).Some?
    ensures TableOf(ReadStep(e, a).value.e) == TableOf(e)
  {
    hide DispatchFrame;
    if a.RouteStream? {
      RouteRoutes(e);
      hide ReadStep;
    } else if a.Dispatch? {
      DispatchRoutes(e, e.loop.frame);
    }
  }

  lemma RouteRoutes(e: Endpoint)
    requires ReadStep(e, RouteStream).Some?
    ensures TableOf(ReadStep(e, RouteStream).value.e) == TableOf(e)
  {
    RouteIs(e);
    hide ReadStep, HandlerOf;
  }

  lemma DispatchRoutes(e: Endpoint, f: Frame)
    ensures TableOf(DispatchFrame(e, f)) == TableOf(e)
  {
    hide Receive, IsStart, IsClose, IsError;
  }

  lemma OfferRoutes(e: Endpoint, a: Action)
    requires OfferStep(e, a).Some?
    ensures TableOf(OfferStep(e, a).value.e) == TableOf(e)
  {
    hide AfterOffer;
  }

  lemma EndRoutes(e: Endpoint, a: Action)
    requires EndStep(e, a).Some?
    ensures TableOf(EndStep(e, a).value.e) == TableOf(e)
  {}

  lemma AddIs(e: Endpoint, mode: byte, route: Bytes, handler: nat)
    ensures Apply(e, AddRoute(mode, route, handler)) == Quiet(e.(routes := e.routes[(mode, route) := handler]))
  {}

  function Lookup(e: Endpoint, mode: byte, route: Bytes): Option<nat> {
    if (mode, route) in e.routes then Some(e.routes[(mode, route)]) else None
  }

  lemma AddedMore(a: Action, rest: seq<Action>, mode: byte, route: Bytes)
    ensures Added([a] + rest, mode, route)
            <==> (a.AddRoute? && a.mode == mode && a.route == route) || Added(rest, mode, route)
  {
    var all := [a] + rest;
    if k :| 0 <= k < |rest| && rest[k].AddRoute? && rest[k].mode == mode && rest[k].route == route {
      assert all[k + 1] == rest[k];
    }
    if a.AddRoute? && a.mode == mode && a.route == route { assert all[0] == a; }
    if k :| 0 <= k < |all| && all[k].AddRoute? && all[k].mode == mode && all[k].route == route {
      if k > 0 { assert rest[k - 1] == all[k]; }
    }
  }

  lemma LastMore(a: Action, rest: seq<Action>, mode: byte, route: Bytes, handler: nat)
    ensures LastAdded([a] + rest, mode, route, handler)
            <==> LastAdded(rest, mode, route, handler)
                 || (a == AddRoute(mode, route, handler) && !Added(rest, mode, route))
  {
    hide LastAt, Added;
    forall k | LastAt(rest, k, mode, route, handler) ensures LastAt([a] + rest, k + 1, mode, route, handler) {
      LastLater(a, rest, k, mode, route, handler);
    }
    FirstIsLast(a, rest, mode, route, handler);
    forall k | k > 0 && LastAt([a] + rest, k, mode, route, handler) ensures LastAt(rest, k - 1, mode, route, handler) {
      LastEarlier(a, rest, k, mode, route, handler);
    }
    forall k | LastAt([a] + rest, k, mode, route, handler) ensures k >= 0 {
      NotBefore(a, rest, k, mode, route, handler);
    }
  }

  lemma LastLater(a: Action, rest: seq<Action>, k: int, mode: byte, route: Bytes, handler: nat)
    requires LastAt(rest, k, mode, route, handler)
    ensures LastAt([a] + rest, k + 1, mode, route, handler)
  {
    assert forall j | k + 1 < j < |[a] + rest| :: ([a] + rest)[j] == rest[j - 1];
  }

  lemma LastEarlier(a: Action, rest: seq<Action>, k: int, mode: byte, route: Bytes, handler: nat)
    requires k > 0 && LastAt([a] + rest, k, mode, route, handler)
    ensures LastAt(rest, k - 1, mode, route, handler)
  {
    assert forall j | 0 <= j < |rest| :: rest[j] == ([a] + rest)[j + 1];
  }

  lemma FirstIsLast(a: Action, rest: seq<Action>, mode: byte, route: Bytes, handler: nat)
    ensures LastAt([a] + rest, 0, mode, route, handler)
            <==> a == AddRoute(mode, route, handler) && !Added(rest, mode, route)
  {
    assert forall j | 0 <= j < |rest| :: rest[j] == ([a] + rest)[j + 1];
  }

  lemma NotBefore(a: Action, rest: seq<Action>, k: int, mode: byte, route: Bytes, handler: nat)
    requires LastAt([a] + rest, k, mode, route, handler)
    ensures k >= 0
  {}

  // A run, from any endpoint: what was registered last counts, and what was there before otherwise.
  lemma {:induction false} RunRoutes(e: Endpoint, actions: seq<Action>, mode: byte, route: Bytes, h: nat)
    requires Run(e, actions).Some?
    ensures Lookup(Run(e, actions).value, mode, route) == Some(h)
            <==> LastAdded(actions, mode, route, h)
                 || (!Added(actions, mode, route) && Lookup(e, mode, route) == Some(h))
    decreases |actions|
  {
    hide Apply, LastAdded, Added;
    if actions == [] {
      NothingAdded(mode, route);
    } else {
      var a, rest := actions[0], actions[1..];
      assert actions == [a] + rest;
      RunRoutes(Apply(e, a).value.e, rest, mode, route, h);
      AddedMore(a, rest, mode, route);
      LastMore(a, rest, mode, route, h);
      StepLookup(e, a, mode, route);
      hide Lookup;
    }
  }

  lemma NothingAdded(mode: byte, route: Bytes)
    ensures !Added([], mode, route) && forall h: nat :: !LastAdded([], mode, route, h)
  {}

  lemma StepLookup(e: Endpoint, a: Action, mode: byte, route: Bytes)
    requires Apply(e, a).Some?
    ensures Lookup(Apply(e, a).value.e, mode, route)
         == if a.AddRoute? && a.mode == mode && a.route == route then Some(a.handler) else Lookup(e, mode, route)
  {
    hide Apply;
    if a.AddRoute? { AddIs(e, a.mode, a.route, a.handler); } else { OnlyAdds(e, a); }
  }

  lemma {:induction false} SomeIsLast(actions: seq<Action>, mode: byte, route: Bytes)
    ensures Added(actions, mode, route) <==> exists h: nat :: LastAdded(actions, mode, route, h)
    decreases |actions|
  {
    if actions == [] {
      NothingAdded(mode, route);
    } else {
      var a, rest := actions[0], actions[1..];
      assert actions == [a] + rest;
      SomeIsLast(rest, mode, route);
      AddedMore(a, rest, mode, route);
      hide Added, LastAdded;
      if h :| LastAdded(rest, mode, route, h) {
        LastMore(a, rest, mode, route, h);
      } else if a.AddRoute? && a.mode == mode && a.route == route {
        LastMore(a, rest, mode, route, a.handler);
      } else if h :| LastAdded(actions, mode, route, h) {
        LastMore(a, rest, mode, route, h);
      }
    }
  }

  // What the lookup of a handler comes to.
  ghost predicate Routes(e: Endpoint, handler: Option<nat>) {
    && e.loop.Routing? && e.loop.ref < |e.heap| && EventOf(e, RouteStream) == Line.Routed(handler)
    && Apply(e, RouteStream)
       == Quiet(if handler.Some?
                then e.(heap := e.heap[e.loop.ref := e.heap[e.loop.ref].(phase := InUse)], loop := Idle)
                else e.(loop := Queueing(e.loop.ref, e.loop.id)))
  }

  lemma LookupRoutes(e: Endpoint)
    requires EpOk(e) && e.loop.Routing?
    ensures Routes(e, if e.loop.mode <= 2 then Lookup(e, e.loop.mode, e.loop.route) else None)
  {
    Mux.RoutingOk(e);
    RouteNames(e);
    RouteIs(e);
    hide EpOk, Subject, EventOf, ReadStep;
  }

  // In any run of an endpoint: where the loop looks for a handler of a stream, it starts the one that was
  // registered last for exactly the stream's mode and route, and the stream is in the handler's hands; it
  // finds none, and the stream goes to `acceptCh`, exactly if none was ever registered or the mode is
  // not one of the three.
  lemma RoutedToLast(first: uint32, actions: seq<Action>)
    requires Run(NewEndpoint(first), actions).Some? && Run(NewEndpoint(first), actions).value.loop.Routing?
    ensures var e := Run(NewEndpoint(first), actions).value;
      var mode, route := e.loop.mode, e.loop.route;
      if mode <= 2 && Added(actions, mode, route)
      then exists h: nat :: LastAdded(actions, mode, route, h) && Routes(e, Some(h))
      else Routes(e, None)
  {
    var e := Run(NewEndpoint(first), actions).value;
    NewOk(first);
    RunKeeps(NewEndpoint(first), actions);
    LookupRoutes(e);
    SomeIsLast(actions, e.loop.mode, e.loop.route);
    forall h: nat
      ensures Lookup(e, e.loop.mode, e.loop.route) == Some(h) <==> LastAdded(actions, e.loop.mode, e.loop.route, h)
    {
      RunRoutes(NewEndpoint(first), actions, e.loop.mode, e.loop.route, h);
    }
    hide Run, EpOk, Routes, LastAdded, Added;
  }

  // The handler that the loop finds, in terms of the run.
  lemma HandlerIsLast(first: uint32, actions: seq<Action>, hid: nat)
    requires Run(NewEndpoint(first), actions).Some? && Run(NewEndpoint(first), actions).value.loop.Routing?
    ensures var e := Run(NewEndpoint(first), actions).value;
      HandlerOf(e) == Some(hid) <==> e.loop.mode <= 2 && LastAdded(actions, e.loop.mode, e.loop.route, hid)
  {
    var e := Run(NewEndpoint(first), actions).value;
    RunRoutes(NewEndpoint(first), actions, e.loop.mode, e.loop.route, hid);
    hide Run, LastAdded, Added;
  }

  // ---- In a network ----

  function ActionsOf(steps: seq<Step>, side: Side): seq<Action> {
    if steps == [] then []
    else
      var (who, a) := steps[|steps| - 1];
      ActionsOf(steps[..|steps| - 1], side) + if who == side then [a] else []
  }

  // What one side does in a run of two endpoints is a run of its own.
  lemma {:induction false} SideRun(steps: seq<Step>, side: Side)
    requires NetRun(NewNet(), steps).Some?
    ensures Run(NewEndpoint(if side.Host? then 1 else 2), ActionsOf(steps, side))
         == Some(Me(NetRun(NewNet(), steps).value, side).e)
  {
    hide Apply;
    if steps != [] {
      var before := steps[..|steps| - 1];
      var (who, a) := steps[|steps| - 1];
      SideRun(before, side);
      var first := NewEndpoint(if side.Host? then 1 else 2);
      if who == side {
        var e := Me(NetRun(NewNet(), before).value, side).e;
        RunAppend(first, ActionsOf(before, side), [a]);
        assert [a][1..] == [];
      } else {
        assert ActionsOf(steps, side) == ActionsOf(before, side);
      }
    }
  }
}
