/**
 `CallSingleMulti` against a registered handler: the caller gets what a direct call of the handler
 would send. The two programs are automata over the events of their stream; every interleaving of
 their steps with both read loops is a run, as long as nothing is cancelled and no write fails.
 */
module SingleMulti {
  import opened Bytes
  import opened Frames
  import opened Options
  import opened Mux
  import opened Line
  import opened Calls

  // A handler, as the responses it sends for a request.
  type Handler = Bytes -> seq<Bytes>

  // What the handler sends in this call: it sees as much of the request as a frame carries.
  function Sends(h: Handler, req: Bytes): seq<Bytes> { h(Carried(req)) }

  datatype Caller =
    | Opening            // in startStream
    | Ready              // startStream returned
    | Asking             // `Send` found the stream open
    | Asked              // the request is written
    | Listening          // CloseWrite is written; the goroutine loops on `Recv`
    | Ended              // `Recv` returned an error; the response channel is closed
    | Cancelling         // the deferred Close cancelled the stream
    | Unlisting          // ... and wrote its frame
    | Gone

  datatype Client = Client(at: Caller, responses: seq<Bytes>)

  datatype Server =
    | Unrouted
    | Reading                              // in the handler's `Recv`
    | Running(req: Bytes, sent: nat)       // in the handler, with that many responses sent
    | Writing(req: Bytes, sent: nat)       // `Send` found the stream open
    | Cancelling                           // the deferred Close cancelled the stream
    | Unlisting                            // ... and wrote its frame
    | Gone
    | Refused                              // `Recv` returned an error

  // The caller's next state; `p` is its port after the event.
  function ClientStep(c: Client, req: Bytes, ev: Event, p: Port): Option<Client>
  {
    if ByLoop(ev) then Some(c)
    else match c.at
      case Opening =>
        if ev.Registers? then Some(c) else if ev == StartWritten(true) then Some(c.(at := Ready)) else None
      case Ready => if ev == SendBegins(req) then Some(c.(at := Asking)) else None
      case Asking => if ev == DataWritten(req, true) then Some(c.(at := Asked)) else None
      case Asked => if ev == EndWritten(true) then Some(c.(at := Listening)) else None
      case Listening =>
        if ev.Blocked? || ev.GaveUp? then Some(c)
        else if Gets(ev) then
          var o := LastOutcome(p);
          Some(if o.Received? then c.(responses := c.responses + [o.payload]) else c.(at := Caller.Ended))
        else None
      case Ended => if ev.CloseBegins? then Some(c.(at := Caller.Cancelling)) else None
      case Cancelling => if ev == CloseWritten(true) then Some(c.(at := Caller.Unlisting)) else None
      case Unlisting => if ev.Removed? then Some(c.(at := Caller.Gone)) else None
      case Gone => None
  }

  function ServerStep(s: Server, h: Handler, ev: Event, p: Port): Option<Server>
  {
    if ev.Routed? then
      if s.Unrouted? && ev.handler.Some? then Some(Server.Reading) else None
    else if ByLoop(ev) then Some(s)
    else match s
      case Unrouted => None
      case Reading =>
        if ev.Blocked? || ev.GaveUp? then Some(s)
        else if Gets(ev) then
          var o := LastOutcome(p);
          Some(if o.Received? then Running(o.payload, 0) else Refused)
        else None
      case Running(req, k) =>
        if k < |h(req)| then
          if ev == SendBegins(h(req)[k]) then Some(Writing(req, k)) else None
        else if ev.CloseBegins? then Some(Server.Cancelling) else None
      case Writing(req, k) =>
        if k < |h(req)| && ev == DataWritten(h(req)[k], true) then Some(Running(req, k + 1)) else None
      case Refused => if ev.CloseBegins? then Some(Server.Cancelling) else None
      case Cancelling => if ev == CloseWritten(true) then Some(Server.Unlisting) else None
      case Unlisting => if ev.Removed? then Some(Server.Gone) else None
      case Gone => None
  }

  // The goroutine passes on what its `Recv` returns, and stops at the end or an error; the handler gets the
  // payload that its `Recv` returns, and nothing else.
  lemma ListenerPassesOn(c: Client, req: Bytes, ev: Event, p: Port)
    requires c.at.Listening? && Gets(ev) && ClientStep(c, req, ev, p).Some?
    ensures var o, c' := LastOutcome(p), ClientStep(c, req, ev, p).value;
      && (o.Received? ==> c' == Client(Listening, c.responses + [o.payload]))
      && (o.EndOfStream? || o.PeerError? ==> c' == Client(Caller.Ended, c.responses))
  {}

  lemma HandlerGets(s: Server, h: Handler, ev: Event, p: Port)
    requires s.Reading? && Gets(ev) && ServerStep(s, h, ev, p).Some?
    ensures var o, s' := LastOutcome(p), ServerStep(s, h, ev, p).value;
      && (forall b :: s' == Running(b, 0) <==> o == Received(b))
      && (s' == Refused <==> o.EndOfStream? || o.PeerError?)
  {}

  datatype Call = Call(a: Half, b: Half, c: Client, s: Server)

  function NewCall(): Call { Call(NoHalf(), NoHalf(), Client(Opening, []), Unrouted) }

  function CallStep(x: uint32, req: Bytes, h: Handler, st: Call, initiator: bool, ev: Event): Option<Call>
  {
    if !Healthy(ev) then None
    else if initiator then
      match HalfStep(x, st.a, st.b, ev)
      case None => None
      case Some(a) =>
        (match ClientStep(st.c, req, ev, a.port) case None => None case Some(c) => Some(st.(a := a, c := c)))
    else
      match HalfStep(x, st.b, st.a, ev)
      case None => None
      case Some(b) =>
        (match ServerStep(st.s, h, ev, b.port) case None => None case Some(s) => Some(st.(b := b, s := s)))
  }

  type Move = (bool, Event)

  function CallRun(x: uint32, req: Bytes, h: Handler, moves: seq<Move>): Option<Call>
  {
    if moves == [] then Some(NewCall())
    else match CallRun(x, req, h, moves[..|moves| - 1])
         case None => None
         case Some(st) => CallStep(x, req, h, st, moves[|moves| - 1].0, moves[|moves| - 1].1)
  }

  // ---- The invariant ----

  predicate Answered(s: Server) { s == Server.Unlisting || s == Server.Gone }

  // What the acceptor has written, with `k` the handler's responses.
  ghost predicate ServerOut(x: uint32, k: seq<Bytes>, out: seq<Frame>, s: Server)
  {
    match s
    case Unrouted => out == []
    case Reading => out == []
    case Running(_, n) => n <= |k| && out == Datas(x, k)[..n] && AllWritable(k[..n])
    case Writing(_, n) => n < |k| && out == Datas(x, k)[..n] && AllWritable(k[..n])
    case Cancelling => out == Datas(x, k) && AllWritable(k)
    case Refused => false
    case _ => Datas(x, k) + [CloseFrame(x)] <= out && AllWritable(k)
  }

  ghost predicate ServerOk(x: uint32, req: Bytes, h: Handler, b: Half, s: Server)
  {
    && ServerOut(x, Sends(h, req), b.out, s)
    && (s.Running? || s.Writing? ==> s.req == Carried(req))
    && (!s.Unrouted? && !Answered(s) ==> InHand(b.port))
    && (s.Unrouted? || s.Reading? ==> b.port.stream.Some? ==>
          b.port.stream.value.causes == {} && b.port.stream.value.taken == [])
    && (s.Running? || s.Writing? ==> b.port.stream.value.causes == {})
    && (s == Server.Cancelling ==> b.port.listed && Calm(b.port.spot))
  }

  // What the initiator has written after its Start frame, until the acceptor's Close frame.
  ghost predicate ClientOut(x: uint32, req: Bytes, out: seq<Frame>, at: Caller, answered: bool)
  {
    match at
    case Opening => out == []
    case Ready => |out| == 1
    case Asking => |out| == 1
    case Asked => Writable(req) && |out| >= 2 && (!answered ==> out[1..] == [DataFrame(x, Carried(req))])
    case _ => Writable(req) && |out| >= 2 && (!answered ==> out[1..] == [DataFrame(x, Carried(req)), EndFrame(x)])
  }

  predicate Before(at: Caller) { at.Opening? || at.Ready? || at.Asking? || at.Asked? }

  ghost predicate ClientOk(x: uint32, req: Bytes, h: Handler, a: Half, c: Client, answered: bool)
  {
    && ClientOut(x, req, a.out, c.at, answered)
    && (Before(c.at) || c.at.Listening? || c.at.Ended? ==>
         a.port.stream.Some? ==> a.port.stream.value.causes <= {PeerClosed})
    && (Before(c.at) ==>
         c.responses == [] && (a.port.stream.Some? ==>
             a.port.stream.value.taken == [] && a.port.stream.value.outcomes == []))
    && (c.at.Listening? ==> a.port.stream.Some? && c.responses == Payloads(a.port.stream.value.taken)
                            && |a.port.stream.value.outcomes| == |a.port.stream.value.taken|)
    && (!Before(c.at) && !c.at.Listening? ==> c.responses == CarriedAll(Sends(h, req)) && answered)
  }

  ghost predicate CallOk(x: uint32, req: Bytes, h: Handler, st: Call)
  {
    && LineOk(x, st.a, st.b)
    && ServerOk(x, req, h, st.b, st.s)
    && ClientOk(x, req, h, st.a, st.c, Answered(st.s))
    && (!st.s.Unrouted? && !st.s.Reading? ==> !st.c.at.Opening? && !st.c.at.Ready? && !st.c.at.Asking?)
  }

  // What is on the acceptor's wire before its first Close frame.
  lemma AnswersUpToClose(x: uint32, k: seq<Bytes>, out: seq<Frame>, s: Server, offered: seq<Frame>)
    requires ServerOut(x, k, out, s) && offered <= out
    requires forall i | 0 <= i < |offered| :: !IsClose(offered[i])
    ensures offered <= Datas(x, k)
    ensures |offered| < |out| && IsClose(out[|offered|]) ==> Answered(s) && offered == Datas(x, k)
  {
    var all := Datas(x, k);
    if Answered(s) {
      assert out[|k|] == (all + [CloseFrame(x)])[|k|] == CloseFrame(x);
      assert out[..|k|] == all;
      assert |offered| <= |k|;
    } else {
      assert out <= all;
    }
    if |offered| < |k| && |offered| < |out| { assert out[|offered|] == all[|offered|]; }
  }

  // Until the acceptor's Close frame, the initiator is offered responses only, and all of them.
  lemma OfferedResponses(x: uint32, k: seq<Bytes>, a: Half, b: Half, s: Server)
    requires LineOk(x, a, b) && ServerOut(x, k, b.out, s)
    requires a.port.stream.Some? && a.port.stream.value.causes <= {PeerClosed}
    ensures var q := a.port.stream.value;
      && Accepted(q) <= Datas(x, k)
      && (Cancelled(q) ==> Answered(s) && Accepted(q) == Datas(x, k))
  {
    hide Carried, Writable, LineOk, PortOk, ServerOut;
    var q := a.port.stream.value;
    LinePorts(x, a, b);
    TakenUpToClose(x, a.port, b.out[..a.read], b.out);
    AnswersUpToClose(x, k, b.out, s, q.offered);
  }

  // What reaches the acceptor before it has closed the stream.
  lemma OfferedRequest(x: uint32, req: Bytes, a: Half, b: Half, c: Client)
    requires LineOk(x, a, b) && ClientOut(x, req, a.out, c.at, false) && b.port.stream.Some?
    ensures b.port.stream.value.causes == {} ==>
              && Accepted(b.port.stream.value) <= [DataFrame(x, Carried(req)), EndFrame(x)]
              && b.port.listed && Calm(b.port.spot)
              && (Accepted(b.port.stream.value) != [] ==> |a.out| >= 2) && !b.port.stream.value.closed
    ensures b.port.listed && b.port.spot.Holding? ==> !IsClose(b.port.spot.frame) && !IsError(b.port.spot.frame)
  {
    hide Carried, Writable, LineOk, PortOk;
    var rest := if |a.out| <= 1 then [] else [DataFrame(x, Carried(req)), EndFrame(x)];
    LinePorts(x, a, b);
    assert a.out != [] ==> a.out[1..] <= rest;
    NextFrame(x, b.port, Inbox(a, b), rest);
    if b.port.stream.value.causes == {} {
      TakenUpToClose(x, b.port, Inbox(a, b), rest);
      UncancelledIsCalm(x, b.port, Inbox(a, b));
    }
  }

  // Before the acceptor answers in full, the initiator is still listed, so it never answers
  // "not found"; and the only frame it is handed that could cancel it is the Close frame.
  lemma InitiatorHeld(x: uint32, req: Bytes, h: Handler, st: Call)
    requires CallOk(x, req, h, st) && st.a.port.stream.Some?
    requires st.a.port.stream.value.causes <= {PeerClosed}
    ensures st.a.port.spot.Answering? ==> Answered(st.s) && !Unopened(st.a.port)
    ensures st.a.port.listed && st.a.port.spot.Holding? && !IsClose(st.a.port.spot.frame) ==>
        !IsError(st.a.port.spot.frame)
  {
    hide Carried, Writable, LineOk, PortOk, ServerOut, ClientOk;
    var a, b := st.a, st.b;
    HeldFrames(x, a, b);
    LinePorts(x, a, b);
    OfferedResponses(x, Sends(h, req), a, b, st.s);
    TakenUpToClose(x, a.port, b.out[..a.read], b.out);
    NextFrame(x, a.port, b.out[..a.read], b.out);
    if a.port.listed && a.port.spot.Holding? {
      NextAnswer(x, Sends(h, req), b.out, st.s, a.port.stream.value.offered);
    }
  }

  lemma NextAnswer(x: uint32, k: seq<Bytes>, out: seq<Frame>, s: Server, offered: seq<Frame>)
    requires ServerOut(x, k, out, s) && offered <= out && |offered| < |out|
    requires forall i | 0 <= i < |offered| :: !IsClose(offered[i])
    ensures out[|offered|] == CloseFrame(x)
            || (|offered| < |k| && out[|offered|] == DataFrame(x, Carried(k[|offered|])))
  {
    AnswersUpToClose(x, k, out, s, offered);
    var all := Datas(x, k);
    if Answered(s) {
      assert out[|offered|] == (all + [CloseFrame(x)])[|offered|];
    } else {
      assert out <= all;
      assert out[|offered|] == all[|offered|];
    }
  }

  // ---- Steps of the caller's side ----

  lemma ClientByLoop(x: uint32, req: Bytes, h: Handler, st: Call, ev: Event)
    requires CallOk(x, req, h, st) && ByLoop(ev) && CallStep(x, req, h, st, true, ev).Some?
    ensures var st' := CallStep(x, req, h, st, true, ev).value; ClientOk(x, req, h, st'.a, st'.c, Answered(st'.s))
  {
    hide Carried, Writable, LineOk, PortOk, ServerOk, HalfStep, PortStep, IsClose, IsError;
    var a, b := st.a, st.b;
    HalfStepParts(x, a, b, ev);
    LinePorts(x, a, b);
    if a.port.stream.Some? {
      LoopLeaves(x, a.port, ev);
      if st.c.at.Listening? || st.c.at.Ended? || Before(st.c.at) { InitiatorHeld(x, req, h, st); }
      hide CallOk;
    } else {
      LoopWithout(x, a.port, ev);
      hide CallOk;
    }
  }

  // The next frame in the caller's queue is the next response.
  lemma ClientHasResponse(x: uint32, req: Bytes, h: Handler, st: Call)
    requires CallOk(x, req, h, st) && st.c.at.Listening?
    ensures st.a.port.stream.Some?
    ensures var q, k := st.a.port.stream.value, Sends(h, req);
      q.queue != [] ==> |q.taken| < |k| && q.queue[0] == DataFrame(x, Carried(k[|q.taken|]))
  {
    hide Carried, Writable, LineOk, PortOk, ServerOut, ServerOk, ClientOut;
    var q, all := st.a.port.stream.value, Datas(x, Sends(h, req));
    OfferedResponses(x, Sends(h, req), st.a, st.b, st.s) by { ServerOuts(x, req, h, st.b, st.s); }
    assert q.taken + q.queue <= all;
    if q.queue != [] { assert q.queue[0] == (q.taken + q.queue)[|q.taken|] == all[|q.taken|]; }
  }

  lemma ClientTakes(x: uint32, req: Bytes, h: Handler, st: Call, ev: Event)
    requires CallOk(x, req, h, st) && Gets(ev) && CallStep(x, req, h, st, true, ev).Some?
    requires st.a.port.stream.Some? && st.a.port.stream.value.queue != []
    ensures var st' := CallStep(x, req, h, st, true, ev).value; ClientOk(x, req, h, st'.a, st'.c, Answered(st'.s))
  {
    hide Carried, Writable, LineOk, PortOk, ServerOk, HalfStep, ClientOut, Take, Sends;
    var a, q := st.a, st.a.port.stream.value;
    GetHalf(x, a, st.b, ev);
    ClientHasResponse(x, req, h, st);
    TakeData(q, ev.Drained?, x, Carried(Sends(h, req)[|q.taken|]));
    assert Payloads(q.taken + [q.queue[0]]) == Payloads(q.taken) + [q.queue[0].payload];
  }

  // A stream that is closed or cancelled and has nothing left has yielded every response.
  lemma AllReceived(x: uint32, k: seq<Bytes>, a: Half, b: Half, s: Server)
    requires LineOk(x, a, b) && ServerOut(x, k, b.out, s)
    requires a.port.stream.Some? && a.port.stream.value.causes <= {PeerClosed} && a.port.stream.value.queue == []
    requires a.port.stream.value.closed || Cancelled(a.port.stream.value)
    ensures Answered(s) && Payloads(a.port.stream.value.taken) == CarriedAll(k)
  {
    hide Carried, Writable, LineOk, PortOk, ServerOut;
    var q := a.port.stream.value;
    LinePorts(x, a, b);
    if q.closed { ClosedIsCancelled(x, a.port, b.out[..a.read]); }
    OfferedResponses(x, k, a, b, s);
    assert q.taken + q.queue == q.taken;
    PayloadsOfDatas(x, k);
  }

  lemma ClientEnds(x: uint32, req: Bytes, h: Handler, st: Call, ev: Event)
    requires CallOk(x, req, h, st) && Gets(ev) && CallStep(x, req, h, st, true, ev).Some?
    requires st.a.port.stream.Some? && st.a.port.stream.value.queue == []
    ensures var st' := CallStep(x, req, h, st, true, ev).value; ClientOk(x, req, h, st'.a, st'.c, Answered(st'.s))
  {
    hide Carried, Writable, LineOk, PortOk, ServerOut, ServerOk, HalfStep, Payloads;
    GetHalf(x, st.a, st.b, ev);
    ServerOuts(x, req, h, st.b, st.s);
    AllReceived(x, Sends(h, req), st.a, st.b, st.s);
  }

  lemma ClientGets(x: uint32, req: Bytes, h: Handler, st: Call, ev: Event)
    requires CallOk(x, req, h, st) && Gets(ev) && CallStep(x, req, h, st, true, ev).Some?
    ensures var st' := CallStep(x, req, h, st, true, ev).value; ClientOk(x, req, h, st'.a, st'.c, Answered(st'.s))
  {
    GetHalf(x, st.a, st.b, ev);
    hide CallOk, CallStep, ClientOk;
    if st.a.port.stream.value.queue != [] { ClientTakes(x, req, h, st, ev); } else { ClientEnds(x, req, h, st, ev); }
  }

  lemma ServerOuts(x: uint32, req: Bytes, h: Handler, b: Half, s: Server)
    requires ServerOk(x, req, h, b, s)
    ensures ServerOut(x, Sends(h, req), b.out, s)
  {}

  lemma ClientCalls(x: uint32, req: Bytes, h: Handler, st: Call, ev: Event)
    requires CallOk(x, req, h, st) && !ByLoop(ev) && !Gets(ev) && CallStep(x, req, h, st, true, ev).Some?
    ensures var st' := CallStep(x, req, h, st, true, ev).value; ClientOk(x, req, h, st'.a, st'.c, Answered(st'.s))
  {
    hide Carried, Writable, LineOk, PortOk, ServerOk, HalfStep, ClientOut;
    ClientWrites(x, req, h, st, ev);
    if st.c.at.Opening? { OpeningStep(x, st.a, st.b, ev); } else { ProgramStep(x, st.a, st.b, ev); }
  }

  lemma ClientOutGrows(x: uint32, req: Bytes, c: Client, out: seq<Frame>, ev: Event, p: Port, answered: bool)
    requires ClientOut(x, req, out, c.at, answered) && ClientStep(c, req, ev, p).Some? && !c.at.Opening?
    requires !ByLoop(ev) && !Gets(ev) && (ev.DataWritten? ==> Writable(ev.payload))
    requires !Before(c.at) && !c.at.Listening? ==> answered
    ensures ClientOut(x, req, out + Written(x, ev), ClientStep(c, req, ev, p).value.at, answered)
  {
    hide Carried, Writable;
    assert (out + Written(x, ev))[1..] == out[1..] + Written(x, ev);
    assert out + [] == out;
  }

  lemma ClientWrites(x: uint32, req: Bytes, h: Handler, st: Call, ev: Event)
    requires CallOk(x, req, h, st) && !ByLoop(ev) && !Gets(ev) && CallStep(x, req, h, st, true, ev).Some?
    ensures var st' := CallStep(x, req, h, st, true, ev).value; ClientOut(x, req, st'.a.out, st'.c.at, Answered(st'.s))
  {
    hide Carried, Writable, LineOk, PortOk, ServerOk, HalfStep;
    if st.c.at.Opening? {
      OpeningStep(x, st.a, st.b, ev);
    } else {
      ClientProgram(st.c, req, ev, CallStep(x, req, h, st, true, ev).value.a.port);
      ProgramStep(x, st.a, st.b, ev);
      hide ClientOut, ClientStep, Written;
      ClientOutGrows(x, req, st.c, st.a.out, ev, HalfStep(x, st.a, st.b, ev).value.port, Answered(st.s));
    }
  }

  lemma ClientProgram(c: Client, req: Bytes, ev: Event, p: Port)
    requires !c.at.Opening? && !ByLoop(ev) && !Gets(ev) && ClientStep(c, req, ev, p).Some?
    ensures ByProgram(ev)
  {}

  lemma OpeningStep(x: uint32, a: Half, b: Half, ev: Event)
    requires (ev.Registers? || ev == StartWritten(true)) && HalfStep(x, a, b, ev).Some?
    ensures var a' := HalfStep(x, a, b, ev).value;
      && |a'.out| == |a.out| + (if ev.Registers? then 0 else 1)
      && a'.port.stream.Some? && (ev.StartWritten? ==> a.port.stream.Some?)
      && var s, s' := if a.port.stream.Some? then a.port.stream.value
        else NewStream(x, [], InUse), a'.port.stream.value;
         s'.causes == s.causes && s'.taken == s.taken && s'.outcomes == s.outcomes
  {}

  // ---- Steps of the handler's side ----

  lemma ServerByLoop(x: uint32, req: Bytes, h: Handler, st: Call, ev: Event)
    requires CallOk(x, req, h, st) && ByLoop(ev) && CallStep(x, req, h, st, false, ev).Some? && !Answered(st.s)
    ensures var st' := CallStep(x, req, h, st, false, ev).value; ServerOk(x, req, h, st'.b, st'.s) && !Answered(st'.s)
  {
    hide Carried, Writable, LineOk, PortOk, HalfStep, PortStep, IsClose, IsError;
    var a, b := st.a, st.b;
    HalfStepParts(x, b, a, ev);
    LinePorts(x, a, b);
    if b.port.stream.Some? {
      OfferedRequest(x, req, a, b, st.c);
      LoopLeaves(x, b.port, ev);
      LoopUses(x, b.port, ev);
      hide CallOk, ClientOut, ClientOk;
    } else {
      hide CallOk, ClientOut, ClientOk;
      LoopMakes(x, b.port, ev);
    }
  }

  // The handler's one `Recv` finds the request: its channel is open and holds nothing else.
  lemma ServerHasRequest(x: uint32, req: Bytes, h: Handler, st: Call)
    requires CallOk(x, req, h, st) && st.s.Reading?
    ensures InHand(st.b.port)
    ensures var q := st.b.port.stream.value;
      && !(q.queue == [] && (q.closed || Cancelled(q)))
      && (q.queue != [] ==> q.queue[0] == DataFrame(x, Carried(req)) && |st.a.out| >= 2)
  {
    hide Carried, Writable, LineOk, PortOk, ClientOk, ServerOut, ClientOut;
    ClientOuts(x, req, h, st);
    OfferedRequest(x, req, st.a, st.b, st.c);
    var q := st.b.port.stream.value;
    assert q.taken == [] ==> q.taken + q.queue == q.queue;
  }

  lemma ServerHasInput(x: uint32, req: Bytes, h: Handler, st: Call, ev: Event)
    requires CallOk(x, req, h, st) && Gets(ev) && CallStep(x, req, h, st, false, ev).Some?
    ensures st.s.Reading? && InHand(st.b.port) && |st.a.out| >= 2
    ensures var q := st.b.port.stream.value;
      && q.queue != [] && q.queue[0] == DataFrame(x, Carried(req))
      && CallStep(x, req, h, st, false, ev).value
         == st.(b := Half(Change(st.b.port, Take(q, ev.Drained?)), st.b.out, st.b.read), s := Running(Carried(req), 0))
  {
    hide Carried, Writable, CallOk, HalfStep, Take;
    assert st.s.Reading?;
    GetHalf(x, st.b, st.a, ev);
    ServerHasRequest(x, req, h, st);
    var q := st.b.port.stream.value;
    TakeData(q, ev.Drained?, x, Carried(req));
  }

  lemma ClientOuts(x: uint32, req: Bytes, h: Handler, st: Call)
    requires CallOk(x, req, h, st) && !Answered(st.s)
    ensures ClientOut(x, req, st.a.out, st.c.at, false)
  {}

  lemma ServerGets(x: uint32, req: Bytes, h: Handler, st: Call, ev: Event)
    requires CallOk(x, req, h, st) && Gets(ev) && CallStep(x, req, h, st, false, ev).Some?
    ensures var st' := CallStep(x, req, h, st, false, ev).value; ServerOk(x, req, h, st'.b, st'.s)
  {
    hide Carried, Writable, LineOk, PortOk, CallStep, ClientOk, Take;
    ServerHasInput(x, req, h, st, ev);
    TakeData(st.b.port.stream.value, ev.Drained?, x, Carried(req));
    assert Datas(x, Sends(h, req))[..0] == [];
  }

  // What a step of the handler's program does to its half.
  lemma ServerProgram(x: uint32, req: Bytes, h: Handler, st: Call, ev: Event)
    requires CallOk(x, req, h, st) && !ByLoop(ev) && !Gets(ev) && CallStep(x, req, h, st, false, ev).Some?
        && !Answered(st.s)
    ensures InHand(st.b.port) && ByProgram(ev)
    ensures var st', s := CallStep(x, req, h, st, false, ev).value, st.b.port.stream.value;
      && st'.b == Half(Port(Some(if ev.CloseBegins? then Cancel(s, ClosedHere) else s),
                            st.b.port.listed && !ev.Removed?, st.b.port.spot),
                       st.b.out + Written(x, ev), st.b.read)
      && (ev.DataWritten? ==> Writable(ev.payload))
      && (s.causes == {} ==> st.b.port.listed && Calm(st.b.port.spot))
  {
    hide Carried, Writable, LineOk, PortOk, HalfStep, ClientOk, ServerOut, Written;
    ClientOuts(x, req, h, st);
    ProgramStep(x, st.b, st.a, ev);
    OfferedRequest(x, req, st.a, st.b, st.c);
    hide ClientOut;
  }

  lemma ServerSends(x: uint32, req: Bytes, h: Handler, st: Call, ev: Event)
    requires CallOk(x, req, h, st) && (ev.SendBegins? || ev.DataWritten?) && CallStep(x, req, h, st, false, ev).Some?
    ensures var st' := CallStep(x, req, h, st, false, ev).value; ServerOk(x, req, h, st'.b, st'.s)
  {
    hide Carried, Writable, LineOk, PortOk, HalfStep, ClientOk, Calm;
    ServerProgram(x, req, h, st, ev);
    var k, all := Sends(h, req), Datas(x, Sends(h, req));
    assert st.s.Writing? ==>
        && all[..st.s.sent] + [all[st.s.sent]] == all[..st.s.sent + 1]
        && k[..st.s.sent + 1] == k[..st.s.sent] + [k[st.s.sent]];
    assert st.b.out + [] == st.b.out;
  }

  lemma ServerCloses(x: uint32, req: Bytes, h: Handler, st: Call, ev: Event)
    requires CallOk(x, req, h, st) && !ByLoop(ev) && !Gets(ev) && CallStep(x, req, h, st, false, ev).Some?
        && !Answered(st.s) && !ev.SendBegins? && !ev.DataWritten?
    ensures var st' := CallStep(x, req, h, st, false, ev).value; ServerOk(x, req, h, st'.b, st'.s)
  {
    hide Carried, Writable, LineOk, PortOk, HalfStep, ClientOk, Calm;
    ServerProgram(x, req, h, st, ev);
    var k, all := Sends(h, req), Datas(x, Sends(h, req));
    assert all[..|k|] == all && k[..|k|] == k;
    assert st.b.out + [] == st.b.out;
  }

  lemma ServerCalls(x: uint32, req: Bytes, h: Handler, st: Call, ev: Event)
    requires CallOk(x, req, h, st) && !ByLoop(ev) && !Gets(ev) && CallStep(x, req, h, st, false, ev).Some?
        && !Answered(st.s)
    ensures var st' := CallStep(x, req, h, st, false, ev).value; ServerOk(x, req, h, st'.b, st'.s)
  {
    hide CallOk, CallStep, ServerOk;
    if ev.SendBegins? || ev.DataWritten? { ServerSends(x, req, h, st, ev); } else { ServerCloses(x, req, h, st, ev); }
  }

  lemma AnsweredStays(x: uint32, req: Bytes, h: Handler, st: Call, ev: Event)
    requires CallOk(x, req, h, st) && CallStep(x, req, h, st, false, ev).Some? && Answered(st.s)
    ensures var st' := CallStep(x, req, h, st, false, ev).value;
      ServerOk(x, req, h, st'.b, st'.s) && Answered(st'.s)
  {
    hide Carried, Writable, LineOk, HalfStep, PortStep, ClientOk;
    HalfStepParts(x, st.b, st.a, ev);
    assert st.b.out <= HalfStep(x, st.b, st.a, ev).value.out;
  }

  lemma AnsweredLater(x: uint32, req: Bytes, h: Handler, a: Half, c: Client, answered: bool)
    requires ClientOk(x, req, h, a, c, false)
    ensures ClientOk(x, req, h, a, c, answered)
  {}

  lemma CallStarts(x: uint32, req: Bytes, h: Handler)
    ensures CallOk(x, req, h, NewCall())
  {
    LineStarts(x);
  }

  lemma ClientMoves(x: uint32, req: Bytes, h: Handler, st: Call, ev: Event)
    requires CallOk(x, req, h, st) && CallStep(x, req, h, st, true, ev).Some?
    ensures CallOk(x, req, h, CallStep(x, req, h, st, true, ev).value)
  {
    hide Carried, Writable, LineOk, ServerOk, ClientOk, HalfStep;
    InitiatorStep(x, st.a, st.b, ev);
    if ByLoop(ev) { ClientByLoop(x, req, h, st, ev); }
    else if Gets(ev) { ClientGets(x, req, h, st, ev); }
    else { ClientCalls(x, req, h, st, ev); }
  }

  lemma ServerMoves(x: uint32, req: Bytes, h: Handler, st: Call, ev: Event)
    requires CallOk(x, req, h, st) && CallStep(x, req, h, st, false, ev).Some?
    ensures CallOk(x, req, h, CallStep(x, req, h, st, false, ev).value)
  {
    var st' := CallStep(x, req, h, st, false, ev).value;
    ClientIsPast(x, req, h, st, ev);
    hide Carried, Writable, LineOk, ServerOk, ClientOk, HalfStep;
    AcceptorStep(x, st.a, st.b, ev);
    if Answered(st.s) { AnsweredStays(x, req, h, st, ev); }
    else {
      AnsweredLater(x, req, h, st.a, st.c, Answered(st'.s));
      if ByLoop(ev) { ServerByLoop(x, req, h, st, ev); }
      else if Gets(ev) { ServerGets(x, req, h, st, ev); }
      else { ServerCalls(x, req, h, st, ev); }
    }
  }

  // The handler runs only once the request is written.
  lemma ClientIsPast(x: uint32, req: Bytes, h: Handler, st: Call, ev: Event)
    requires CallOk(x, req, h, st) && CallStep(x, req, h, st, false, ev).Some?
    ensures var st' := CallStep(x, req, h, st, false, ev).value;
      !ev.Registers? && (!st'.s.Unrouted? && !st'.s.Reading? ==>
          !st.c.at.Opening? && !st.c.at.Ready? && !st.c.at.Asking?)
  {
    hide Carried, Writable, LineOk, HalfStep;
    if Gets(ev) { ServerHasInput(x, req, h, st, ev); }
    hide ServerOk;
  }

  lemma {:induction false} RunKeepsCall(x: uint32, req: Bytes, h: Handler, moves: seq<Move>)
    requires CallRun(x, req, h, moves).Some?
    ensures CallOk(x, req, h, CallRun(x, req, h, moves).value)
  {
    hide CallOk, CallStep;
    if moves == [] {
      CallStarts(x, req, h);
    } else {
      RunKeepsCall(x, req, h, moves[..|moves| - 1]);
      var st, m := CallRun(x, req, h, moves[..|moves| - 1]).value, moves[|moves| - 1];
      if m.0 { ClientMoves(x, req, h, st, m.1); } else { ServerMoves(x, req, h, st, m.1); }
    }
  }

  lemma ClientNotRefused(x: uint32, req: Bytes, h: Handler, st: Call)
    requires CallOk(x, req, h, st) && st.c.at.Ready?
    ensures CallStep(x, req, h, st, true, SendBegins(req)) == Some(st.(c := st.c.(at := Asking)))
  {
    hide Carried, Writable, LineOk, PortOk, HalfStep, ServerOut;
    OpenedInHand(x, st.a, st.b);
    OfferedResponses(x, Sends(h, req), st.a, st.b, st.s) by { ServerOuts(x, req, h, st.b, st.s); }
    hide ServerOk;
    SendPasses(x, st.a, st.b, req);
  }

  lemma ServerNotRefused(x: uint32, req: Bytes, h: Handler, st: Call)
    requires CallOk(x, req, h, st)
    ensures !st.s.Refused?
    ensures st.s.Running? && st.s.sent < |Sends(h, req)| ==>
              CallStep(x, req, h, st, false, SendBegins(Sends(h, req)[st.s.sent]))
              == Some(st.(s := Writing(Carried(req), st.s.sent)))
  {
    hide Carried, Writable, LineOk, PortOk, HalfStep, ClientOk;
    if st.s.Running? && st.s.sent < |Sends(h, req)| { SendPasses(x, st.b, st.a, Sends(h, req)[st.s.sent]); }
  }

  // No `Send` and no `Recv` of the two programs returns an error, except the caller's last `Recv`.
  lemma NeverRefused(x: uint32, req: Bytes, h: Handler, moves: seq<Move>)
    requires CallRun(x, req, h, moves).Some?
    ensures var st := CallRun(x, req, h, moves).value;
      && !st.s.Refused?
      && (st.c.at.Ready? ==> CallStep(x, req, h, st, true, SendBegins(req)) == Some(st.(c := st.c.(at := Asking))))
      && (st.s.Running? && st.s.sent < |Sends(h, req)| ==>
            CallStep(x, req, h, st, false, SendBegins(Sends(h, req)[st.s.sent]))
              == Some(st.(s := Writing(Carried(req), st.s.sent))))
  {
    hide CallStep, CallOk, CallRun;
    RunKeepsCall(x, req, h, moves);
    var st := CallRun(x, req, h, moves).value;
    ServerNotRefused(x, req, h, st);
    if st.c.at.Ready? { ClientNotRefused(x, req, h, st); }
  }

  // What the caller has received is always the beginning of the handler's sends, as far as frames
  // carry them; when the channel is closed it has received them all.
  lemma ReceivesSends(x: uint32, req: Bytes, h: Handler, moves: seq<Move>)
    requires CallRun(x, req, h, moves).Some?
    ensures var c, s, k := CallRun(x, req, h, moves).value.c, CallRun(x, req, h, moves).value.s, Sends(h, req);
      && c.responses <= CarriedAll(k)
      && (!Before(c.at) || c.at.Asked? ==> Writable(req))
      && (!Before(c.at) && !c.at.Listening? ==> Answered(s) && c.responses == CarriedAll(k) && AllWritable(k))
  {
    RunKeepsCall(x, req, h, moves);
    var st := CallRun(x, req, h, moves).value;
    hide LineOk, PortOk, CallRun, Carried, Writable, Sends;
    if st.c.at.Listening? { ListenerHas(x, Sends(h, req), st); }
  }

  // What the listening caller has is the beginning of the responses.
  lemma ListenerHas(x: uint32, k: seq<Bytes>, st: Call)
    requires LineOk(x, st.a, st.b) && ServerOut(x, k, st.b.out, st.s) && st.a.port.stream.Some?
    requires st.a.port.stream.value.causes <= {PeerClosed} && st.c.responses == Payloads(st.a.port.stream.value.taken)
    ensures st.c.responses <= CarriedAll(k)
  {
    hide LineOk, PortOk, Carried, Writable;
    OfferedResponses(x, k, st.a, st.b, st.s);
    var q := st.a.port.stream.value;
    assert q.taken <= Accepted(q) <= Datas(x, k);
    PayloadsOfDatas(x, k);
  }

  // The response channel never yields anything but the handler's sends, in order; when it is closed
  // it has yielded them all. For a request that fits into a frame it equals a direct call exactly
  // if every response fits; a longer request is not the one the handler sees.
  lemma EqualsDirectCall(x: uint32, req: Bytes, h: Handler, moves: seq<Move>)
    requires CallRun(x, req, h, moves).Some?
    ensures var c, s := CallRun(x, req, h, moves).value.c, CallRun(x, req, h, moves).value.s;
      && c.responses <= CarriedAll(h(Carried(req)))
      && (!Before(c.at) ==> (Carried(req) == req <==> |req| <= TWO32 - 13))
      && (!Before(c.at) && !c.at.Listening? ==>
           && Answered(s) && c.responses == CarriedAll(h(Carried(req)))
           && (|req| <= TWO32 - 13 ==> (c.responses == h(req) <==> AllFit(h(req)))))
  {
    hide CallRun, Carried, CarriedAll, Writable, AllWritable, AllFit;
    ReceivesSends(x, req, h, moves);
    var c := CallRun(x, req, h, moves).value.c;
    if !Before(c.at) {
      CarriedExactly(req);
      if !c.at.Listening? { AllCarriedExactly(Sends(h, req)); }
    }
  }

  // ---- Its end ----

  lemma OneMore(x: uint32, req: Bytes, h: Handler, moves: seq<Move>, initiator: bool, ev: Event)
    requires CallRun(x, req, h, moves).Some?
    ensures CallRun(x, req, h, moves + [(initiator, ev)])
         == CallStep(x, req, h, CallRun(x, req, h, moves).value, initiator, ev)
  {
    hide CallStep;
    assert (moves + [(initiator, ev)])[..|moves|] == moves;
  }

  lemma CallerLeaves(x: uint32, req: Bytes, h: Handler, st: Call)
    requires InHand(st.a.port) && !st.a.port.spot.Shutting? && st.c.at.Ended?
    ensures var begun := st.(a := ClosingHalf(x, st.a, false), c := st.c.(at := Caller.Cancelling));
      var written := st.(a := ClosingHalf(x, st.a, true), c := st.c.(at := Caller.Unlisting));
      && CallStep(x, req, h, st, true, CloseBegins) == Some(begun)
      && CallStep(x, req, h, begun, true, CloseWritten(true)) == Some(written)
      && CallStep(x, req, h, written, true, Removed)
         == Some(st.(a := LeftHalf(x, st.a), c := st.c.(at := Caller.Gone)))
  {
    HalfCloses(x, st.a, st.b);
    hide HalfStep, ClosingHalf, LeftHalf, ServerStep;
  }

  lemma HandlerLeaves(x: uint32, req: Bytes, h: Handler, st: Call)
    requires InHand(st.b.port) && !st.b.port.spot.Shutting? && st.s.Running? && st.s.sent == |h(st.s.req)|
    ensures var begun := st.(b := ClosingHalf(x, st.b, false), s := Server.Cancelling);
      var written := st.(b := ClosingHalf(x, st.b, true), s := Server.Unlisting);
      && CallStep(x, req, h, st, false, CloseBegins) == Some(begun)
      && CallStep(x, req, h, begun, false, CloseWritten(true)) == Some(written)
      && CallStep(x, req, h, written, false, Removed) == Some(st.(b := LeftHalf(x, st.b), s := Server.Gone))
  {
    HalfCloses(x, st.b, st.a);
    hide HalfStep, ClosingHalf, LeftHalf, ClientStep;
  }

  lemma ThreeMore(x: uint32, req: Bytes, h: Handler, moves: seq<Move>, initiator: bool)
    requires CallRun(x, req, h, moves).Some?
    requires var st := CallRun(x, req, h, moves).value;
      && CallStep(x, req, h, st, initiator, CloseBegins).Some?
      && var begun := CallStep(x, req, h, st, initiator, CloseBegins).value;
         CallStep(x, req, h, begun, initiator, CloseWritten(true)).Some?
    ensures var st := CallRun(x, req, h, moves).value;
      var begun := CallStep(x, req, h, st, initiator, CloseBegins).value;
      var written := CallStep(x, req, h, begun, initiator, CloseWritten(true)).value;
      CallRun(x, req, h, moves + [(initiator, CloseBegins), (initiator, CloseWritten(true)), (initiator, Removed)])
      == CallStep(x, req, h, written, initiator, Removed)
  {
    hide CallStep, CallRun;
    var one := moves + [(initiator, CloseBegins)];
    var two := one + [(initiator, CloseWritten(true))];
    OneMore(x, req, h, moves, initiator, CloseBegins);
    OneMore(x, req, h, one, initiator, CloseWritten(true));
    OneMore(x, req, h, two, initiator, Removed);
    assert moves + [(initiator, CloseBegins), (initiator, CloseWritten(true)), (initiator, Removed)]
        == two + [(initiator, Removed)];
  }

  // In every state reached in which the response channel is closed, or the handler has sent everything, the
  // deferred Close can run to its end, unless the read loop has the lock: it writes one Close frame and
  // takes the stream out of the table, and touches nothing else.
  lemma CallerCloses(x: uint32, req: Bytes, h: Handler, moves: seq<Move>)
    requires CallRun(x, req, h, moves).Some?
    requires var st := CallRun(x, req, h, moves).value; st.c.at.Ended? && !st.a.port.spot.Shutting?
    ensures var st := CallRun(x, req, h, moves).value;
      && InHand(st.a.port)
      && CallRun(x, req, h, moves + [(true, CloseBegins), (true, CloseWritten(true)), (true, Removed)])
         == Some(st.(a := LeftHalf(x, st.a), c := st.c.(at := Caller.Gone)))
  {
    RunKeepsCall(x, req, h, moves);
    var st := CallRun(x, req, h, moves).value;
    hide CallRun, CallStep, LineOk, ServerOk, LeftHalf;
    OpenedInHand(x, st.a, st.b);
    CallerLeaves(x, req, h, st);
    ThreeMore(x, req, h, moves, true);
  }

  lemma HandlerCloses(x: uint32, req: Bytes, h: Handler, moves: seq<Move>)
    requires CallRun(x, req, h, moves).Some?
    requires var st := CallRun(x, req, h, moves).value;
      st.s.Running? && st.s.sent == |Sends(h, req)| && !st.b.port.spot.Shutting?
    ensures var st := CallRun(x, req, h, moves).value;
      && InHand(st.b.port)
      && CallRun(x, req, h, moves + [(false, CloseBegins), (false, CloseWritten(true)), (false, Removed)])
         == Some(st.(b := LeftHalf(x, st.b), s := Server.Gone))
  {
    RunKeepsCall(x, req, h, moves);
    var st := CallRun(x, req, h, moves).value;
    hide CallRun, CallStep, LineOk, ClientOk, LeftHalf;
    HandlerLeaves(x, req, h, st);
    ThreeMore(x, req, h, moves, false);
  }

  // ---- A call that can complete does ----

  // A run of plain steps.
  function PlainRun(x: uint32, req: Bytes, h: Handler, to: Naming, moves: seq<Move>): Option<Call>
  {
    if moves == [] then Some(NewCall())
    else match PlainRun(x, req, h, to, moves[..|moves| - 1])
         case None => None
         case Some(st) =>
           var (initiator, ev) := moves[|moves| - 1];
           if Plain(ev, to) then CallStep(x, req, h, st, initiator, ev) else None
  }

  lemma {:induction false} PlainIsRun(x: uint32, req: Bytes, h: Handler, to: Naming, moves: seq<Move>)
    requires PlainRun(x, req, h, to, moves).Some?
    ensures CallRun(x, req, h, moves) == PlainRun(x, req, h, to, moves)
  {
    hide CallStep;
    if moves != [] { PlainIsRun(x, req, h, to, moves[..|moves| - 1]); }
  }

  lemma Extend(x: uint32, req: Bytes, h: Handler, to: Naming, moves: seq<Move>, initiator: bool, ev: Event)
    requires PlainRun(x, req, h, to, moves).Some? && Plain(ev, to)
    ensures PlainRun(x, req, h, to, moves + [(initiator, ev)])
         == CallStep(x, req, h, PlainRun(x, req, h, to, moves).value, initiator, ev)
  {
    hide CallStep;
    assert (moves + [(initiator, ev)])[..|moves|] == moves;
  }

  function HalfAt(st: Call, initiator: bool): Half { if initiator then st.a else st.b }

  function WithHalf(st: Call, initiator: bool, me: Half): Call {
    if initiator then st.(a := me) else st.(b := me)
  }

  // A step of the read loop is none of the two programs.
  lemma LoopExtends(x: uint32, req: Bytes, h: Handler, to: Naming, moves: seq<Move>, initiator: bool, ev: Event)
      returns (longer: seq<Move>)
    requires PlainRun(x, req, h, to, moves).Some? && ByLoop(ev) && !ev.Routed? && Healthy(ev) && Plain(ev, to)
    requires var st := PlainRun(x, req, h, to, moves).value;
      HalfStep(x, HalfAt(st, initiator), HalfAt(st, !initiator), ev).Some?
    ensures var st := PlainRun(x, req, h, to, moves).value;
      PlainRun(x, req, h, to, longer)
      == Some(WithHalf(st, initiator, HalfStep(x, HalfAt(st, initiator), HalfAt(st, !initiator), ev).value))
  {
    hide HalfStep, CallRun;
    Extend(x, req, h, to, moves, initiator, ev);
    longer := moves + [(initiator, ev)];
  }

  // A frame reaches the queue.
  lemma Arrives(x: uint32, req: Bytes, h: Handler, to: Naming, moves: seq<Move>, initiator: bool, f: Frame)
      returns (longer: seq<Move>)
    requires PlainRun(x, req, h, to, moves).Some?
    requires var st := PlainRun(x, req, h, to, moves).value;
      var me, other := HalfAt(st, initiator), HalfAt(st, !initiator);
      Resting(me) && me.read < |other.out| && other.out[me.read] == f && f.id == x && !IsClose(f) && !IsError(f)
    ensures var st := PlainRun(x, req, h, to, moves).value;
      PlainRun(x, req, h, to, longer) == Some(WithHalf(st, initiator, WithFrame(HalfAt(st, initiator), f)))
  {
    hide PlainRun, HalfStep, IsClose, IsError;
    var st := PlainRun(x, req, h, to, moves).value;
    var me, other := HalfAt(st, initiator), HalfAt(st, !initiator);
    FrameRead(x, me, other, f);
    longer := LoopExtends(x, req, h, to, moves, initiator, Reads(f));
    var held := HalfStep(x, me, other, Reads(f)).value;
    FrameDispatched(x, held, other, f);
    longer := LoopExtends(x, req, h, to, longer, initiator, Dispatched);
    var handing := HalfStep(x, held, other, Dispatched).value;
    FrameDelivered(x, handing, other, f);
    longer := LoopExtends(x, req, h, to, longer, initiator, Delivered);
  }

  // A step of a program around a write.
  lemma SpeaksOn(x: uint32, req: Bytes, h: Handler, to: Naming, moves: seq<Move>, initiator: bool, ev: Event)
      returns (longer: seq<Move>)
    requires PlainRun(x, req, h, to, moves).Some? && Speaks(HalfAt(PlainRun(x, req, h, to, moves).value, initiator), ev)
    requires var st := PlainRun(x, req, h, to, moves).value;
      if initiator then ClientStep(st.c, req, ev, st.a.port).Some? else ServerStep(st.s, h, ev, st.b.port).Some?
    ensures var st := PlainRun(x, req, h, to, moves).value;
      PlainRun(x, req, h, to, longer)
      == Some(if initiator
              then st.(a := Said(x, st.a, ev), c := ClientStep(st.c, req, ev, st.a.port).value)
              else st.(b := Said(x, st.b, ev), s := ServerStep(st.s, h, ev, st.b.port).value))
  {
    hide PlainRun, HalfStep, ClientStep, ServerStep, Speaks, Healthy, Plain;
    var st := PlainRun(x, req, h, to, moves).value;
    SpeaksIs(x, HalfAt(st, initiator), HalfAt(st, !initiator), ev);
    Extend(x, req, h, to, moves, initiator, ev);
    longer := moves + [(initiator, ev)];
  }

  // Any step of one end.
  lemma Moves(x: uint32, req: Bytes, h: Handler, to: Naming, moves: seq<Move>, initiator: bool, ev: Event, me: Half)
      returns (longer: seq<Move>)
    requires PlainRun(x, req, h, to, moves).Some? && Healthy(ev) && Plain(ev, to)
    requires var st := PlainRun(x, req, h, to, moves).value;
      && HalfStep(x, HalfAt(st, initiator), HalfAt(st, !initiator), ev) == Some(me)
      && if initiator then ClientStep(st.c, req, ev, me.port).Some? else ServerStep(st.s, h, ev, me.port).Some?
    ensures var st := PlainRun(x, req, h, to, moves).value;
      PlainRun(x, req, h, to, longer)
      == Some(if initiator then st.(a := me, c := ClientStep(st.c, req, ev, me.port).value)
              else st.(b := me, s := ServerStep(st.s, h, ev, me.port).value))
  {
    hide PlainRun, HalfStep, ClientStep, ServerStep, Healthy, Plain;
    Extend(x, req, h, to, moves, initiator, ev);
    longer := moves + [(initiator, ev)];
  }

  lemma Starts(x: uint32, req: Bytes, h: Handler, to: Naming) returns (moves: seq<Move>)
    requires |to.start| <= TWO32 - 13
    ensures PlainRun(x, req, h, to, moves) == Some(Call(Opener(x, to.start), NoHalf(), Client(Ready, []), Unrouted))
  {
    moves := [];
    assert PlainRun(x, req, h, to, moves) == Some(NewCall());
    hide PlainRun, HalfStep, Opener, Registering, CallStep;
    OpenerSteps(x, to.start, NoHalf());
    moves := Moves(x, req, h, to, moves, true, Registers(to.start), Registering(x, to.start));
    moves := Moves(x, req, h, to, moves, true, StartWritten(true), Opener(x, to.start));
  }

  // The stream is open at both ends, and the handler is about to read its request.
  lemma Opens(x: uint32, req: Bytes, h: Handler, to: Naming) returns (moves: seq<Move>)
    requires |to.start| <= TWO32 - 13
    ensures PlainRun(x, req, h, to, moves)
         == Some(Call(Opener(x, to.start), Acceptor(x, to.start), Client(Ready, []), Server.Reading))
  {
    hide PlainRun, HalfStep, Opener, Acceptor, CallStep;
    moves := Starts(x, req, h, to);
    var held, placing := AcceptorSteps(x, to.start, to.handler);
    moves := Moves(x, req, h, to, moves, false, Reads(StartFrame(x, to.start)), held);
    moves := Moves(x, req, h, to, moves, false, Dispatched, placing);
    moves := Moves(x, req, h, to, moves, false, Routed(Some(to.handler)), Acceptor(x, to.start));
  }

  // The caller listens, and the handler has sent `k` responses, which were all received.
  predicate Under(st: Call, req: Bytes, k: nat) {
    && Resting(st.a) && Resting(st.b) && st.a.read == |st.b.out|
    && st.c.at.Listening? && st.s == Running(Carried(req), k)
  }

  // `Recv` of one end returns the frame that has arrived.
  lemma Takes(x: uint32, req: Bytes, h: Handler, to: Naming, moves: seq<Move>, initiator: bool, f: Frame)
      returns (longer: seq<Move>, me: Half)
    requires PlainRun(x, req, h, to, moves).Some?
    requires var st := PlainRun(x, req, h, to, moves).value;
      var me, other := HalfAt(st, initiator), HalfAt(st, !initiator);
      && Resting(me) && me.read < |other.out| && other.out[me.read] == f && f.id == x && !IsClose(f) && !IsError(f)
      && if initiator then st.c.at.Listening? else st.s.Reading?
    ensures var st := PlainRun(x, req, h, to, moves).value;
      && Resting(me) && me.out == HalfAt(st, initiator).out && me.read == HalfAt(st, initiator).read + 1
      && LastOutcome(me.port) == OutcomeOf(f)
      && PlainRun(x, req, h, to, longer)
         == Some(if initiator then st.(a := me, c := ClientStep(st.c, req, Polled, me.port).value)
                 else st.(b := me, s := ServerStep(st.s, h, Polled, me.port).value))
  {
    hide PlainRun, HalfStep, IsClose, IsError, WithFrame, OutcomeOf;
    var st := PlainRun(x, req, h, to, moves).value;
    longer := Arrives(x, req, h, to, moves, initiator, f);
    FrameTaken(x, HalfAt(st, initiator), HalfAt(st, !initiator), f);
    me := HalfStep(x, WithFrame(HalfAt(st, initiator), f), HalfAt(st, !initiator), Polled).value;
    longer := Moves(x, req, h, to, longer, initiator, Polled, me);
  }

  lemma Requests(x: uint32, req: Bytes, h: Handler, to: Naming, moves: seq<Move>) returns (longer: seq<Move>)
    requires Writable(req)
    requires PlainRun(x, req, h, to, moves)
          == Some(Call(Opener(x, to.start), Acceptor(x, to.start), Client(Ready, []), Server.Reading))
    ensures PlainRun(x, req, h, to, longer).Some? && Under(PlainRun(x, req, h, to, longer).value, req, 0)
  {
    hide PlainRun, HalfStep, Writable, Carried, ServerStep;
    longer := SpeaksOn(x, req, h, to, moves, true, SendBegins(req));
    longer := SpeaksOn(x, req, h, to, longer, true, DataWritten(req, true));
    longer := SpeaksOn(x, req, h, to, longer, true, EndWritten(true));
    var f := DataFrame(x, Carried(req));
    var st := PlainRun(x, req, h, to, longer).value;
    assert Resting(st.a) && Resting(st.b) && st.a.out[1] == f && st.b.read == 1 && st.c.at.Listening?;
    hide ClientStep;
    var me;
    longer, me := Takes(x, req, h, to, longer, false, f);
    Understood(h, req, me.port);
  }

  // The handler's `Recv` returned the request.
  lemma Understood(h: Handler, req: Bytes, p: Port)
    requires LastOutcome(p) == Received(Carried(req))
    ensures ServerStep(Server.Reading, h, Polled, p) == Some(Running(Carried(req), 0))
  {
    hide Carried;
  }

  // One response.
  lemma Responds(x: uint32, req: Bytes, h: Handler, to: Naming, k: nat, moves: seq<Move>) returns (longer: seq<Move>)
    requires PlainRun(x, req, h, to, moves).Some? && Under(PlainRun(x, req, h, to, moves).value, req, k)
    requires k < |Sends(h, req)| && Writable(Sends(h, req)[k])
    ensures PlainRun(x, req, h, to, longer).Some? && Under(PlainRun(x, req, h, to, longer).value, req, k + 1)
  {
    hide PlainRun, HalfStep, Writable, Carried, ClientStep;
    var p := Sends(h, req)[k];
    var f := DataFrame(x, Carried(p));
    longer := SpeaksOn(x, req, h, to, moves, false, SendBegins(p));
    longer := SpeaksOn(x, req, h, to, longer, false, DataWritten(p, true));
    var st := PlainRun(x, req, h, to, longer).value;
    assert Resting(st.a) && Resting(st.b) && st.b.out[st.a.read] == f && st.s == Running(Carried(req), k + 1);
    hide ServerStep;
    var me;
    longer, me := Takes(x, req, h, to, longer, true, f);
    StillListening(st.c, req, p, me.port);
  }

  lemma StillListening(c: Client, req: Bytes, p: Bytes, port: Port)
    requires c.at.Listening? && LastOutcome(port) == Received(Carried(p))
    ensures ClientStep(c, req, Polled, port) == Some(c.(responses := c.responses + [Carried(p)]))
  {
    hide Carried;
  }

  // The deferred Close reaches the caller.
  lemma Closes(x: uint32, req: Bytes, h: Handler, to: Naming, moves: seq<Move>) returns (longer: seq<Move>)
    requires PlainRun(x, req, h, to, moves).Some? && Under(PlainRun(x, req, h, to, moves).value, req, |Sends(h, req)|)
    ensures PlainRun(x, req, h, to, longer).Some? && PlainRun(x, req, h, to, longer).value.c.at.Ended?
  {
    hide PlainRun, HalfStep, Carried, ClientStep;
    var st := PlainRun(x, req, h, to, moves).value;
    CloseSpoken(x, st.b, st.a);
    var closing := HalfStep(x, st.b, st.a, CloseBegins).value;
    longer := Moves(x, req, h, to, moves, false, CloseBegins, closing);
    var closed := Half(closing.port, st.b.out + [CloseFrame(x)], st.b.read);
    longer := Moves(x, req, h, to, longer, false, CloseWritten(true), closed);
    hide ServerStep;
    longer := Learns(x, req, h, to, longer);
  }

  lemma Learns(x: uint32, req: Bytes, h: Handler, to: Naming, moves: seq<Move>) returns (longer: seq<Move>)
    requires PlainRun(x, req, h, to, moves).Some?
    requires var st := PlainRun(x, req, h, to, moves).value;
      Resting(st.a) && st.c.at.Listening? && st.a.read < |st.b.out| && st.b.out[st.a.read] == CloseFrame(x)
    ensures PlainRun(x, req, h, to, longer).Some? && PlainRun(x, req, h, to, longer).value.c.at.Ended?
  {
    hide PlainRun, HalfStep;
    var st := PlainRun(x, req, h, to, moves).value;
    FrameRead(x, st.a, st.b, CloseFrame(x));
    var held := Half(st.a.port.(spot := Holding(CloseFrame(x))), st.a.out, st.a.read + 1);
    CloseDispatched(x, held, st.b);
    CloseShuts(x, held, st.b);
    EndTaken(x, ClosedHalf(held, true), st.b);
    hide ClosedHalf, Resting;
    longer := LoopExtends(x, req, h, to, moves, true, Reads(CloseFrame(x)));
    longer := LoopExtends(x, req, h, to, longer, true, Dispatched);
    longer := LoopExtends(x, req, h, to, longer, true, Shut);
    var me := HalfStep(x, ClosedHalf(held, true), st.b, Polled).value;
    longer := Moves(x, req, h, to, longer, true, Polled, me);
  }

  lemma Completes(x: uint32, req: Bytes, h: Handler, to: Naming) returns (moves: seq<Move>)
    requires |to.start| <= TWO32 - 13 && Writable(req) && AllWritable(Sends(h, req))
    ensures PlainRun(x, req, h, to, moves).Some? && PlainRun(x, req, h, to, moves).value.c.at.Ended?
  {
    hide PlainRun, Under, Writable;
    moves := Opens(x, req, h, to);
    moves := Requests(x, req, h, to, moves);
    var k := 0;
    while k < |Sends(h, req)|
      invariant k <= |Sends(h, req)| && PlainRun(x, req, h, to, moves).Some?
      invariant Under(PlainRun(x, req, h, to, moves).value, req, k)
    {
      moves := Responds(x, req, h, to, k, moves);
      k := k + 1;
    }
    moves := Closes(x, req, h, to, moves);
  }

  // A call can complete exactly if its request and all responses can be written.
  lemma CanComplete(x: uint32, req: Bytes, h: Handler)
    ensures (exists moves :: CallRun(x, req, h, moves).Some? && CallRun(x, req, h, moves).value.c.at.Ended?)
            <==> Writable(req) && AllWritable(h(Carried(req)))
  {
    hide CallRun, PlainRun, Writable, AllWritable, Carried;
    if Writable(req) && AllWritable(Sends(h, req)) {
      var moves := Completes(x, req, h, Naming([1], 0));
      PlainIsRun(x, req, h, Naming([1], 0), moves);
    }
    forall moves | CallRun(x, req, h, moves).Some? && CallRun(x, req, h, moves).value.c.at.Ended?
      ensures Writable(req) && AllWritable(Sends(h, req))
    {
      ReceivesSends(x, req, h, moves);
    }
  }
}
