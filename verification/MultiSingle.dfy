/**
 `CallMultiSingle` against a registered handler that reads its requests to the end: the handler sees
 the requests in order and the caller gets its answer, or no answer and no error if it failed.
 Both ends run two goroutines: the caller sends while it waits, the server receives while the
 handler reads.
 */
module MultiSingle {
  import opened Bytes
  import opened Frames
  import opened Options
  import opened Mux
  import opened Line
  import opened Calls

  // A handler that reads to the end of its input: its answer, or `None` if it returns an error.
  type Handler = seq<Bytes> -> Option<Bytes>

  // What the handler returns in this call: it sees as much of each request as a frame carries.
  function Answers(g: Handler, reqs: seq<Bytes>): Option<Bytes> { g(CarriedAll(reqs)) }

  // An answer as it reaches the caller, and whether it fits into a frame.
  function CarriedAnswer(answer: Option<Bytes>): Option<Bytes> {
    match answer case Some(r) => Some(Carried(r)) case None => None
  }

  predicate AnswerFits(answer: Option<Bytes>) { answer.Some? ==> |answer.value| <= TWO32 - 13 }

  // What the caller's one `Recv` has given: nothing yet, a response or nil, or an error.
  datatype Result = Pending | Returned(resp: Option<Bytes>) | Failed(error: Bytes)

  // The sending goroutine is between two requests or has a checked one to write; `closing` counts
  // the steps of the deferred Close.
  datatype Client = Client(started: bool, sent: nat, writing: bool, ended: bool, result: Result, closing: nat)

  datatype Stage =
    | Unrouted
    | Serving                     // the handler reads its requests
    | Answering(resp: Bytes)      // it returned; `Send` is next
    | Writing(resp: Bytes)        // `Send` found the stream open
    | Answered                    // CloseWrite is next
    | Finishing                   // the deferred Close is next
    | Cancelling | Unlisting | Gone

  // `pushed` is what the receiving goroutine put into the handler's channel, `seen` what the handler
  // took from it; `inputEnded` says that the channel is closed.
  datatype Server = Server(at: Stage, pushed: seq<Bytes>, seen: seq<Bytes>, inputEnded: bool)

  function ClientStep(c: Client, reqs: seq<Bytes>, ev: Event, p: Port): Option<Client>
  {
    if ByLoop(ev) then Some(c)
    else if !c.started then
      if ev.Registers? then Some(c) else if ev == StartWritten(true) then Some(c.(started := true)) else None
    else match ev
      case SendBegins(payload) =>
        if !c.writing && c.sent < |reqs| && payload == reqs[c.sent] then Some(c.(writing := true)) else None
      case DataWritten(payload, ok) =>
        if c.writing && c.sent < |reqs| && payload == reqs[c.sent] && ok
            then Some(c.(writing := false, sent := c.sent + 1)) else None
      case EndWritten(ok) =>
        if !c.writing && !c.ended && c.sent == |reqs| && ok then Some(c.(ended := true)) else None
      case CloseBegins => if !c.result.Pending? && c.closing == 0 then Some(c.(closing := 1)) else None
      case CloseWritten(ok) => if c.closing == 1 && ok then Some(c.(closing := 2)) else None
      case Removed => if c.closing == 2 then Some(c.(closing := 3)) else None
      case _ =>
        if !c.result.Pending? then None
        else if ev.Blocked? || ev.GaveUp? then Some(c)
        else if Gets(ev) then
          match LastOutcome(p)
          case Received(b) => Some(c.(result := Returned(Some(b))))
          case EndOfStream => Some(c.(result := Returned(None)))
          case PeerError(m) => Some(c.(result := Failed(m)))
        else None
  }

  function ServerStep(s: Server, ev: Event, p: Port): Option<Server>
  {
    if ev.Routed? then
      if s.at.Unrouted? && ev.handler.Some? then Some(s.(at := Serving)) else None
    else if ByLoop(ev) then Some(s)
    else if (ev.Blocked? || ev.GaveUp?) && s.at.Serving? && !s.inputEnded then Some(s)
    else if Gets(ev) && s.at.Serving? && !s.inputEnded then
      var o := LastOutcome(p);
      Some(if o.Received? then s.(pushed := s.pushed + [o.payload]) else s.(inputEnded := true))
    else match s.at
      case Answering(r) => if ev == SendBegins(r) then Some(s.(at := Writing(r))) else None
      case Writing(r) => if ev == DataWritten(r, true) then Some(s.(at := Answered)) else None
      case Answered => if ev == EndWritten(true) then Some(s.(at := Finishing)) else None
      case Finishing => if ev.CloseBegins? then Some(s.(at := Cancelling)) else None
      case Cancelling => if ev == CloseWritten(true) then Some(s.(at := Unlisting)) else None
      case Unlisting => if ev.Removed? then Some(s.(at := Gone)) else None
      case _ => None
  }

  // The caller's result is what its `Recv` returned, the end of the stream being no error.
  lemma ResultIsOutcome(c: Client, reqs: seq<Bytes>, ev: Event, p: Port)
    requires c.started && Gets(ev) && ClientStep(c, reqs, ev, p).Some?
    ensures var o, r := LastOutcome(p), ClientStep(c, reqs, ev, p).value.result;
      && c.result.Pending?
      && (forall b :: r == Returned(Some(b)) <==> o == Received(b))
      && (r == Returned(None) <==> o == EndOfStream)
      && (forall m :: r == Failed(m) <==> o == PeerError(m))
  {}

  // The handler takes a request from its channel; or finds it closed and empty, and returns.
  function HandlerTake(s: Server): Option<Server> {
    if s.at.Serving? && |s.seen| < |s.pushed| then Some(s.(seen := s.seen + [s.pushed[|s.seen|]])) else None
  }

  function HandlerReturn(s: Server, g: Handler): Option<Server> {
    if s.at.Serving? && s.inputEnded && |s.seen| == |s.pushed|
    then Some(s.(at := match g(s.seen) case Some(r) => Stage.Answering(r) case None => Finishing)) else None
  }

  datatype Move = OnLine(initiator: bool, ev: Event) | HandlerTakes | HandlerReturns

  datatype Call = Call(a: Half, b: Half, c: Client, s: Server)

  function NewCall(): Call {
    Call(NoHalf(), NoHalf(), Client(false, 0, false, false, Pending, 0), Server(Unrouted, [], [], false))
  }

  function CallStep(x: uint32, reqs: seq<Bytes>, g: Handler, st: Call, m: Move): Option<Call>
  {
    match m
    case OnLine(initiator, ev) =>
      if !Healthy(ev) then None
      else if initiator then
        (match HalfStep(x, st.a, st.b, ev)
         case None => None
         case Some(a) =>
           match ClientStep(st.c, reqs, ev, a.port) case None => None case Some(c) => Some(st.(a := a, c := c)))
      else
        (match HalfStep(x, st.b, st.a, ev)
         case None => None
         case Some(b) =>
           match ServerStep(st.s, ev, b.port) case None => None case Some(s) => Some(st.(b := b, s := s)))
    case HandlerTakes => (match HandlerTake(st.s) case None => None case Some(s) => Some(st.(s := s)))
    case HandlerReturns => (match HandlerReturn(st.s, g) case None => None case Some(s) => Some(st.(s := s)))
  }

  function CallRun(x: uint32, reqs: seq<Bytes>, g: Handler, moves: seq<Move>): Option<Call>
  {
    if moves == [] then Some(NewCall())
    else match CallRun(x, reqs, g, moves[..|moves| - 1])
         case None => None
         case Some(st) => CallStep(x, reqs, g, st, moves[|moves| - 1])
  }

  // ---- The invariant ----

  predicate Closed(at: Stage) { at.Unlisting? || at.Gone? }

  predicate Reading(at: Stage) { at.Unrouted? || at.Serving? }

  predicate Silent(at: Stage) { Reading(at) || at.Answering? || at.Writing? }

  // What the acceptor writes.
  function Script(x: uint32, answer: Option<Bytes>): seq<Frame> {
    match answer
    case Some(r) => [DataFrame(x, Carried(r)), EndFrame(x), CloseFrame(x)]
    case None => [CloseFrame(x)]
  }

  // How much of it is written at each stage.
  function Progress(answer: Option<Bytes>, at: Stage): nat {
    match at
    case Answered => if answer.Some? then 1 else 0
    case Finishing => if answer.Some? then 2 else 0
    case Cancelling => if answer.Some? then 2 else 0
    case _ => 0
  }

  // What the initiator writes after its Start frame, and how much of it is written.
  function Asks(x: uint32, reqs: seq<Bytes>): seq<Frame> { Datas(x, reqs) + [EndFrame(x)] }

  function Asked(x: uint32, reqs: seq<Bytes>, sent: nat, ended: bool): seq<Frame> {
    if !ended && sent <= |reqs| then Asks(x, reqs)[..sent] else Asks(x, reqs)
  }

  ghost predicate StageOk(s: Server, reqs: seq<Bytes>, g: Handler)
  {
    && s.seen <= s.pushed
    && (!Reading(s.at) ==> s.seen == CarriedAll(reqs) && s.inputEnded)
    && (s.at.Answering? || s.at.Writing? ==> Answers(g, reqs) == Some(s.at.resp))
    && (s.at.Answered? ==> Answers(g, reqs).Some?)
    && (!Silent(s.at) && Answers(g, reqs).Some? ==> Writable(Answers(g, reqs).value))
    && (s.at.Unrouted? ==> s.pushed == [] && !s.inputEnded)
    && (s.inputEnded ==> s.pushed == CarriedAll(reqs))
  }

  predicate CountOk(c: Client, s: Server, reqs: seq<Bytes>)
  {
    && c.sent <= |reqs| && AllWritable(reqs[..c.sent])
    && (c.ended ==> c.sent == |reqs| && !c.writing) && (c.writing ==> c.sent < |reqs|)
    && (c.result.Pending? ==> c.closing == 0)
    && (!c.started ==> c.sent == 0 && !c.ended && !c.writing && c.result.Pending?)
    && |s.pushed| <= c.sent && (s.inputEnded ==> c.ended)
  }

  // The caller has received nothing, and its stream is cancelled at most by a Close frame.
  ghost predicate Unheard(p: Port) {
    p.stream.Some? ==>
      p.stream.value.causes <= {PeerClosed} && p.stream.value.taken == [] && p.stream.value.outcomes == []
  }

  // While the caller waits and the acceptor has not closed: exactly this has been written, and the
  // acceptor's stream is not cancelled but by its own Close.
  ghost predicate AskingOk(x: uint32, reqs: seq<Bytes>, a: Half, c: Client)
  {
    if c.started then a.out != [] && a.out[1..] == Asked(x, reqs, c.sent, c.ended) else a.out == []
  }

  ghost predicate ServingOk(x: uint32, reqs: seq<Bytes>, answer: Option<Bytes>, b: Half, s: Server)
  {
    && b.out == Script(x, answer)[..Progress(answer, s.at)]
    && (!s.at.Unrouted? ==> InHand(b.port))
    && (b.port.stream.Some? && !s.at.Cancelling? ==> b.port.stream.value.causes == {})
    && (s.at.Cancelling? ==> b.port.listed && Calm(b.port.spot))
    && (s.at.Unrouted? && b.port.stream.Some? ==> b.port.stream.value.taken == [])
    && (s.at.Serving? && !s.inputEnded ==>
          b.port.stream.value.taken <= Datas(x, reqs) && s.pushed == Payloads(b.port.stream.value.taken))
  }

  ghost predicate WaitingOk(x: uint32, reqs: seq<Bytes>, answer: Option<Bytes>, st: Call)
  {
    if Closed(st.s.at) then Script(x, answer) <= st.b.out
    else AskingOk(x, reqs, st.a, st.c) && ServingOk(x, reqs, answer, st.b, st.s)
  }

  ghost predicate CallOk(x: uint32, reqs: seq<Bytes>, g: Handler, st: Call)
  {
    && LineOk(x, st.a, st.b)
    && StageOk(st.s, reqs, g) && CountOk(st.c, st.s, reqs)
    && (st.c.started ==> InHand(st.a.port))
    && (st.c.result.Pending? ==> Unheard(st.a.port) && WaitingOk(x, reqs, Answers(g, reqs), st))
    && (!st.c.result.Pending? ==> st.c.result == Returned(CarriedAnswer(Answers(g, reqs))) && !Silent(st.s.at))
  }

  // ---- What each side is offered while the caller waits ----

  // The next frame after some of the acceptor's frames without a Close.
  lemma NextOfScript(x: uint32, answer: Option<Bytes>, out: seq<Frame>, offered: seq<Frame>, n: nat)
    requires n < |Script(x, answer)|
    requires out == Script(x, answer)[..n] || Script(x, answer) <= out
    requires offered <= out && forall i | 0 <= i < |offered| :: !IsClose(offered[i])
    ensures |offered| < |Script(x, answer)| && offered == Script(x, answer)[..|offered|]
    ensures |offered| < |out| ==> out[|offered|] == Script(x, answer)[|offered|]
  {
    var all := Script(x, answer);
    assert IsClose(all[|all| - 1]);
    if out == all[..n] {
    } else {
      assert out[|all| - 1] == all[|all| - 1];
      assert |offered| < |all|;
    }
  }

  // What the initiator is offered: the beginning of the script, up to its Close frame.
  lemma OfferedAnswer(x: uint32, reqs: seq<Bytes>, g: Handler, st: Call)
    requires CallOk(x, reqs, g, st) && st.c.result.Pending? && st.a.port.stream.Some?
    ensures var q, all := st.a.port.stream.value, Script(x, Answers(g, reqs));
      && |Accepted(q)| < |all| && Accepted(q) == all[..|Accepted(q)|]
      && (Cancelled(q) ==> Closed(st.s.at) && IsClose(all[|Accepted(q)|]))
      && (st.a.port.listed && st.a.port.spot.Holding? && !IsClose(st.a.port.spot.frame) ==>
           !IsError(st.a.port.spot.frame))
      && (st.a.port.spot.Answering? ==> Closed(st.s.at) && !Unopened(st.a.port))
      && (Accepted(q) != [] ==> !Silent(st.s.at))
  {
    hide Carried, Writable, LineOk, PortOk, StageOk, CountOk, AskingOk;
    var a, b := st.a, st.b;
    HeldFrames(x, a, b);
    LinePorts(x, a, b);
    TakenUpToClose(x, a.port, b.out[..a.read], b.out);
    NextFrame(x, a.port, b.out[..a.read], b.out);
    NextOfScript(x, Answers(g, reqs), b.out, a.port.stream.value.offered, Progress(Answers(g, reqs), st.s.at));
    hide WaitingOk;
    ScriptFlags(x, Answers(g, reqs));
    hide IsClose, IsError, Script;
  }

  lemma ScriptFlags(x: uint32, answer: Option<Bytes>)
    ensures var all := Script(x, answer);
      forall i | 0 <= i < |all| :: (IsClose(all[i]) <==> i == |all| - 1) && !IsError(all[i])
  {}

  // What the initiator has written after its Start frame, as far as the acceptor has read it.
  lemma AskedInbox(x: uint32, reqs: seq<Bytes>, a: Half, b: Half, c: Client)
    requires LineOk(x, a, b) && AskingOk(x, reqs, a, c)
    ensures b.read <= |a.out| && Inbox(a, b) <= Asked(x, reqs, c.sent, c.ended)
  {
    hide LineOk, Asked;
    LinePorts(x, a, b);
  }

  // What the acceptor is offered: requests and the CloseWrite, as far as they are written.
  lemma OfferedRequests(x: uint32, reqs: seq<Bytes>, g: Handler, st: Call)
    requires CallOk(x, reqs, g, st) && st.c.result.Pending? && !Closed(st.s.at) && st.b.port.stream.Some?
    ensures var p := st.b.port;
      && (p.stream.value.causes == {} ==>
           Accepted(p.stream.value) <= Asked(x, reqs, st.c.sent, st.c.ended) && p.listed && Calm(p.spot)
               && !p.stream.value.closed)
      && (p.listed && p.spot.Holding? ==> !IsClose(p.spot.frame) && !IsError(p.spot.frame))
  {
    hide Carried, Writable, LineOk, PortOk, StageOk, CountOk, ServingOk, AskingOk, Asked, IsClose, IsError, Calm;
    var a, b, all := st.a, st.b, Asked(x, reqs, st.c.sent, st.c.ended);
    LinePorts(x, a, b);
    AskedInbox(x, reqs, a, b, st.c);
    AskedFlags(x, reqs, st.c.sent, st.c.ended);
    NextFrame(x, b.port, Inbox(a, b), all);
    if b.port.stream.value.causes == {} {
      TakenUpToClose(x, b.port, Inbox(a, b), all);
      UncancelledIsCalm(x, b.port, Inbox(a, b));
    }
  }

  lemma AskedFlags(x: uint32, reqs: seq<Bytes>, sent: nat, ended: bool)
    ensures var all := Asked(x, reqs, sent, ended);
      forall i | 0 <= i < |all| :: !IsClose(all[i]) && !IsError(all[i])
  {
    hide Carried;
  }

  // ---- Steps of the caller's side ----

  lemma ClientByLoop(x: uint32, reqs: seq<Bytes>, g: Handler, st: Call, ev: Event)
    requires CallOk(x, reqs, g, st) && ByLoop(ev) && CallStep(x, reqs, g, st, OnLine(true, ev)).Some?
    requires LineOk(x, CallStep(x, reqs, g, st, OnLine(true, ev)).value.a, st.b)
    ensures CallOk(x, reqs, g, CallStep(x, reqs, g, st, OnLine(true, ev)).value)
  {
    hide Carried, Writable, LineOk, PortOk, StageOk, CountOk, HalfStep, PortStep, IsClose, IsError;
    hide ServingOk, Asked, Script;
    HalfStepParts(x, st.a, st.b, ev);
    LinePorts(x, st.a, st.b);
    if st.a.port.stream.Some? {
      LoopLeaves(x, st.a.port, ev);
      LoopUses(x, st.a.port, ev);
      if st.c.result.Pending? { OfferedAnswer(x, reqs, g, st); }
    } else {
      LoopWithout(x, st.a.port, ev);
    }
  }

  // The caller's one `Recv` finds the answer, or the end of a stream without one.
  lemma ClientHasAnswer(x: uint32, reqs: seq<Bytes>, g: Handler, st: Call)
    requires CallOk(x, reqs, g, st) && st.c.result.Pending? && st.a.port.stream.Some?
    ensures var q, answer := st.a.port.stream.value, Answers(g, reqs);
      && (q.queue != [] ==>
            !Silent(st.s.at) && answer.Some? && q.queue[0] == DataFrame(x, Carried(answer.value)))
      && (q.queue == [] && (q.closed || Cancelled(q)) ==> !Silent(st.s.at) && answer.None?)
  {
    hide Carried, Writable, LineOk, PortOk, StageOk, CountOk, WaitingOk, Asked, Answers;
    var q := st.a.port.stream.value;
    OfferedAnswer(x, reqs, g, st);
    assert q.taken == [] ==> q.taken + q.queue == q.queue;
    LinePorts(x, st.a, st.b);
    if q.closed { ClosedIsCancelled(x, st.a.port, st.b.out[..st.a.read]); }
    if q.queue != [] { assert q.queue[0] == Script(x, Answers(g, reqs))[0]; }
  }

  // It returns what the handler returned.
  lemma ClientGets(x: uint32, reqs: seq<Bytes>, g: Handler, st: Call, ev: Event)
    requires CallOk(x, reqs, g, st) && Gets(ev) && CallStep(x, reqs, g, st, OnLine(true, ev)).Some?
    requires LineOk(x, CallStep(x, reqs, g, st, OnLine(true, ev)).value.a, st.b)
    ensures CallOk(x, reqs, g, CallStep(x, reqs, g, st, OnLine(true, ev)).value)
  {
    hide Carried, Writable, LineOk, HalfStep, WaitingOk, StageOk, Unheard, Take, Answers, AllWritable;
    GetHalf(x, st.a, st.b, ev);
    ClientHasAnswer(x, reqs, g, st);
    var q := st.a.port.stream.value;
    if q.queue != [] { TakeData(q, ev.Drained?, x, Carried(Answers(g, reqs).value)); }
  }

  lemma AskedGrows(x: uint32, reqs: seq<Bytes>, sent: nat)
    ensures sent < |reqs| ==>
        Asked(x, reqs, sent + 1, false) == Asked(x, reqs, sent, false) + [DataFrame(x, Carried(reqs[sent]))]
    ensures sent == |reqs| ==> Asked(x, reqs, sent, true) == Asked(x, reqs, sent, false) + [EndFrame(x)]
    ensures Asked(x, reqs, 0, false) == []
  {}

  lemma ClientOpens(x: uint32, reqs: seq<Bytes>, g: Handler, st: Call, ev: Event)
    requires CallOk(x, reqs, g, st) && !ByLoop(ev) && !st.c.started && CallStep(x, reqs, g, st, OnLine(true, ev)).Some?
    requires LineOk(x, CallStep(x, reqs, g, st, OnLine(true, ev)).value.a, st.b)
    ensures CallOk(x, reqs, g, CallStep(x, reqs, g, st, OnLine(true, ev)).value)
  {
    hide Carried, Writable, LineOk, PortOk, StageOk, LoopStepOf, Script, ServingOk;
    var a' := CallStep(x, reqs, g, st, OnLine(true, ev)).value.a;
    AskedGrows(x, reqs, st.c.sent);
    LinePorts(x, st.a, st.b);
    LinePorts(x, a', st.b);
    assert ev.StartWritten? ==> |a'.out| == 1 && a'.out[1..] == [];
    hide Asked;
  }

  // What the caller writes after its Start frame.
  lemma ClientWrites(x: uint32, reqs: seq<Bytes>, a: Half, b: Half, c: Client, ev: Event)
    requires AskingOk(x, reqs, a, c) && c.started && !ByLoop(ev) && !Gets(ev) && HalfStep(x, a, b, ev).Some?
    requires ClientStep(c, reqs, ev, HalfStep(x, a, b, ev).value.port).Some? && !ev.CloseWritten?
    requires c.ended ==> !c.writing
    ensures AskingOk(x, reqs, HalfStep(x, a, b, ev).value,
        ClientStep(c, reqs, ev, HalfStep(x, a, b, ev).value.port).value)
  {
    hide HalfStep;
    ProgramStep(x, a, b, ev);
    AskedGrows(x, reqs, c.sent);
    var more := Written(x, ev);
    assert (a.out + more)[1..] == a.out[1..] + more;
    assert a.out[1..] + [] == a.out[1..];
    hide Asked;
  }

  lemma ClientCalls(x: uint32, reqs: seq<Bytes>, g: Handler, st: Call, ev: Event)
    requires CallOk(x, reqs, g, st) && !ByLoop(ev) && !Gets(ev) && st.c.started
        && CallStep(x, reqs, g, st, OnLine(true, ev)).Some?
    requires LineOk(x, CallStep(x, reqs, g, st, OnLine(true, ev)).value.a, st.b)
    ensures CallOk(x, reqs, g, CallStep(x, reqs, g, st, OnLine(true, ev)).value)
  {
    hide Carried, Writable, LineOk, StageOk, HalfStep, Script, AskingOk, ServingOk, ClientStep;
    if ev.DataWritten? { DataIsWritable(x, st.a, st.b, ev); }
    ClientCounts(reqs, st.c, st.s, ev, CallStep(x, reqs, g, st, OnLine(true, ev)).value.a.port);
    hide CountOk;
    if AskingOk(x, reqs, st.a, st.c) && !ev.CloseWritten? { ClientWrites(x, reqs, st.a, st.b, st.c, ev); }
    ProgramStep(x, st.a, st.b, ev);
  }

  // A started caller sends what is left of its requests, and closes only once it has its result.
  lemma ClientCounts(reqs: seq<Bytes>, c: Client, s: Server, ev: Event, p: Port)
    requires CountOk(c, s, reqs) && c.started && !ByLoop(ev) && !Gets(ev) && ClientStep(c, reqs, ev, p).Some?
    requires ev.DataWritten? ==> Writable(ev.payload)
    ensures var c' := ClientStep(c, reqs, ev, p).value; CountOk(c', s, reqs) && c'.started && c'.result == c.result
    ensures c.ended ==> !c.writing
    ensures c.result.Pending? ==> !ev.CloseBegins? && !ev.CloseWritten? && !ev.Removed?
    ensures ByProgram(ev)
  {
    hide Writable;
    assert c.sent < |reqs| ==> reqs[..c.sent + 1] == reqs[..c.sent] + [reqs[c.sent]];
  }

  // ---- Steps of the handler's side ----

  lemma ServerByLoop(x: uint32, reqs: seq<Bytes>, g: Handler, st: Call, ev: Event)
    requires CallOk(x, reqs, g, st) && ByLoop(ev) && CallStep(x, reqs, g, st, OnLine(false, ev)).Some?
    requires st.c.result.Pending? && !Closed(st.s.at)
    ensures var st' := CallStep(x, reqs, g, st, OnLine(false, ev)).value;
      ServingOk(x, reqs, Answers(g, reqs), st'.b, st'.s)
  {
    hide Carried, Writable, LineOk, PortOk, HalfStep, PortStep, IsClose, IsError, AskingOk, Script, CountOk;
    var a, b := st.a, st.b;
    HalfStepParts(x, b, a, ev);
    LinePorts(x, a, b);
    if b.port.stream.Some? {
      OfferedRequests(x, reqs, g, st);
      LoopLeaves(x, b.port, ev);
      LoopUses(x, b.port, ev);
    } else {
      LoopMakes(x, b.port, ev);
    }
  }

  // Whether a `Recv` gets something: the channel of an uncancelled stream is open.
  lemma ServerHasInput(x: uint32, reqs: seq<Bytes>, g: Handler, st: Call, ev: Event)
    requires CallOk(x, reqs, g, st) && Gets(ev) && CallStep(x, reqs, g, st, OnLine(false, ev)).Some?
    ensures st.s.at.Serving? && !st.s.inputEnded && st.c.result.Pending? && st.b.port.stream.Some?
    ensures var q := st.b.port.stream.value;
      && q.queue != [] && Accepted(q) <= Asked(x, reqs, st.c.sent, st.c.ended)
      && CallStep(x, reqs, g, st, OnLine(false, ev)).value
         == st.(b := Half(Change(st.b.port, Take(q, ev.Drained?)), st.b.out, st.b.read),
                s := Heard(st.s, Take(q, ev.Drained?)))
  {
    hide Carried, Writable, LineOk, PortOk, HalfStep, AskingOk, Script, OutcomeOf, Take, CountOk, Asked;
    GetHalf(x, st.b, st.a, ev);
    OfferedRequests(x, reqs, g, st);
    TakeShape(st.b.port.stream.value, ev.Drained?);
  }

  function Heard(s: Server, q: Stream): Server {
    if q.outcomes != [] && q.outcomes[|q.outcomes| - 1].Received?
        then s.(pushed := s.pushed + [q.outcomes[|q.outcomes| - 1].payload])
    else s.(inputEnded := true)
  }

  lemma TakeShape(s: Stream, draining: bool)
    requires s.queue != []
    ensures Take(s, draining).outcomes == s.outcomes + [OutcomeOf(s.queue[0])]
  {}

  lemma ServerGets(x: uint32, reqs: seq<Bytes>, g: Handler, st: Call, ev: Event)
    requires CallOk(x, reqs, g, st) && Gets(ev) && CallStep(x, reqs, g, st, OnLine(false, ev)).Some?
    ensures var st' := CallStep(x, reqs, g, st, OnLine(false, ev)).value;
      && ServingOk(x, reqs, Answers(g, reqs), st'.b, st'.s)
      && StageOk(st'.s, reqs, g) && CountOk(st'.c, st'.s, reqs) && st'.s.at.Serving?
  {
    hide Carried, Writable, LineOk, PortOk, CallStep, AskingOk, Script, Asked, Take, Datas;
    ServerHasInput(x, reqs, g, st, ev);
    var q := st.b.port.stream.value;
    NextRequest(x, reqs, st.c, q.taken, q.queue);
    if |q.taken| < |reqs| { TakeData(q, ev.Drained?, x, Carried(reqs[|q.taken|])); }
    else { TakeEnd(q, ev.Drained?, x); }
  }

  // The frame after the requests taken is the next request, or the CloseWrite after them all.
  lemma NextRequest(x: uint32, reqs: seq<Bytes>, c: Client, taken: seq<Frame>, queue: seq<Frame>)
    requires taken + queue <= Asked(x, reqs, c.sent, c.ended) && queue != [] && taken <= Datas(x, reqs)
        && c.sent <= |reqs|
    ensures if |taken| < |reqs|
            then queue[0] == DataFrame(x, Carried(reqs[|taken|])) && taken + [queue[0]] <= Datas(x, reqs)
                 && Payloads(taken + [queue[0]]) == Payloads(taken) + [Carried(reqs[|taken|])]
                 && (!c.ended ==> |taken| < c.sent)
            else queue[0] == EndFrame(x) && Payloads(taken) == CarriedAll(reqs) && c.ended
  {
    var k := |taken|;
    assert queue[0] == (taken + queue)[k] == Asked(x, reqs, c.sent, c.ended)[k] == Asks(x, reqs)[k];
    if k == |reqs| {
      assert taken == Datas(x, reqs);
      PayloadsOfDatas(x, reqs);
    }
  }

  lemma TakeEnd(s: Stream, draining: bool, x: uint32)
    requires s.queue != [] && s.queue[0] == EndFrame(x)
    ensures Take(s, draining) == s.(queue := s.queue[1..], taken := s.taken + [s.queue[0]],
                                    outcomes := s.outcomes + [EndOfStream])
  {}

  // A step of the serving program, by its stage.
  lemma ServerProgram(s: Server, ev: Event, p: Port)
    requires !ByLoop(ev) && !Gets(ev) && ServerStep(s, ev, p).Some?
    ensures ByProgram(ev)
    ensures ev.CloseBegins? ==> s.at.Finishing?
    ensures ev.Removed? ==> s.at.Unlisting?
  {}

  lemma ScriptParts(x: uint32, r: Bytes)
    ensures var all := Script(x, Some(r));
      && all[..0] == [] && all[..1] == [DataFrame(x, Carried(r))]
      && all[..2] == [DataFrame(x, Carried(r)), EndFrame(x)] && all[..1] + [EndFrame(x)] == all[..2]
      && all[..2] + [CloseFrame(x)] == all
  {}

  lemma ScriptGrows(x: uint32, reqs: seq<Bytes>, g: Handler, s: Server, ev: Event, p: Port)
    requires StageOk(s, reqs, g) && !ByLoop(ev) && !Gets(ev) && Healthy(ev)
    requires !Closed(s.at) && ServerStep(s, ev, p).Some?
    ensures var s', all := ServerStep(s, ev, p).value, Script(x, Answers(g, reqs));
      all[..Progress(Answers(g, reqs), s.at)] + Written(x, ev)
      == if Closed(s'.at) then all else all[..Progress(Answers(g, reqs), s'.at)]
  {
    hide Carried, Writable, Answers;
    if Answers(g, reqs).Some? {
      AnswerGrows(x, reqs, g, s, ev, p);
    } else {
      var none: seq<Frame> := [];
      assert none + none == none;
    }
  }

  lemma AnswerGrows(x: uint32, reqs: seq<Bytes>, g: Handler, s: Server, ev: Event, p: Port)
    requires StageOk(s, reqs, g) && !ByLoop(ev) && !Gets(ev) && Healthy(ev)
    requires !Closed(s.at) && ServerStep(s, ev, p).Some? && Answers(g, reqs).Some?
    ensures var s', all := ServerStep(s, ev, p).value, Script(x, Answers(g, reqs));
      all[..Progress(Answers(g, reqs), s.at)] + Written(x, ev)
      == if Closed(s'.at) then all else all[..Progress(Answers(g, reqs), s'.at)]
  {
    hide Carried, Writable, Answers;
    var answer := Answers(g, reqs);
    var done := Script(x, answer)[..Progress(answer, s.at)];
    assert done + [] == done;
    ScriptParts(x, answer.value);
    hide Script;
  }

  lemma ServerCalls(x: uint32, reqs: seq<Bytes>, g: Handler, st: Call, ev: Event)
    requires CallOk(x, reqs, g, st) && !ByLoop(ev) && !Gets(ev) && CallStep(x, reqs, g, st, OnLine(false, ev)).Some?
    requires st.c.result.Pending? && !Closed(st.s.at)
    ensures var st' := CallStep(x, reqs, g, st, OnLine(false, ev)).value;
      if Closed(st'.s.at) then Script(x, Answers(g, reqs)) <= st'.b.out
      else ServingOk(x, reqs, Answers(g, reqs), st'.b, st'.s)
  {
    hide Carried, Writable, LineOk, PortOk, HalfStep, AskingOk, CountOk, StageOk;
    hide Asked, Script, Progress, Written, Answers;
    var p' := CallStep(x, reqs, g, st, OnLine(false, ev)).value.b.port;
    ServerProgram(st.s, ev, p');
    ProgramStep(x, st.b, st.a, ev);
    OfferedRequests(x, reqs, g, st);
    ScriptGrows(x, reqs, g, st.s, ev, p');
    hide Calm;
  }

  // Stages only move on, whatever the caller does.
  lemma StageMoves(reqs: seq<Bytes>, g: Handler, c: Client, s: Server, ev: Event, p: Port)
    requires StageOk(s, reqs, g) && CountOk(c, s, reqs) && !Gets(ev) && ServerStep(s, ev, p).Some?
    requires ev.DataWritten? ==> Writable(ev.payload)
    ensures var s' := ServerStep(s, ev, p).value;
      && StageOk(s', reqs, g) && CountOk(c, s', reqs) && !ev.Registers?
      && (Closed(s.at) ==> Closed(s'.at)) && (!Silent(s.at) ==> !Silent(s'.at))
  {
    hide Carried, Writable, Answers, AllWritable;
  }

  lemma ServerStage(x: uint32, reqs: seq<Bytes>, g: Handler, st: Call, ev: Event)
    requires CallOk(x, reqs, g, st) && !Gets(ev) && CallStep(x, reqs, g, st, OnLine(false, ev)).Some?
    ensures var st' := CallStep(x, reqs, g, st, OnLine(false, ev)).value;
      && st'.a == st.a && st'.c == st.c && HalfStep(x, st.b, st.a, ev) == Some(st'.b)
      && StageOk(st'.s, reqs, g) && CountOk(st'.c, st'.s, reqs) && !ev.Registers?
      && (Closed(st.s.at) ==> Closed(st'.s.at)) && (!Silent(st.s.at) ==> !Silent(st'.s.at))
  {
    hide Carried, Writable, LineOk, HalfStep, WaitingOk, StageOk, CountOk, ServerStep, Silent;
    if ev.DataWritten? { DataIsWritable(x, st.b, st.a, ev); }
    StageMoves(reqs, g, st.c, st.s, ev, CallStep(x, reqs, g, st, OnLine(false, ev)).value.b.port);
  }

  lemma OutGrows(x: uint32, me: Half, other: Half, ev: Event)
    requires HalfStep(x, me, other, ev).Some?
    ensures me.out <= HalfStep(x, me, other, ev).value.out
  {
    HalfStepParts(x, me, other, ev);
    hide HalfStep;
  }

  lemma ServerMoves(x: uint32, reqs: seq<Bytes>, g: Handler, st: Call, ev: Event)
    requires CallOk(x, reqs, g, st) && CallStep(x, reqs, g, st, OnLine(false, ev)).Some?
    ensures CallOk(x, reqs, g, CallStep(x, reqs, g, st, OnLine(false, ev)).value)
  {
    hide Carried, Writable, LineOk, StageOk, CountOk, ServingOk, AskingOk, HalfStep, Script;
    var st' := CallStep(x, reqs, g, st, OnLine(false, ev)).value;
    if Gets(ev) {
      ServerGets(x, reqs, g, st, ev);
    } else {
      ServerStage(x, reqs, g, st, ev);
      if st.c.result.Pending? && !Closed(st.s.at) {
        if ByLoop(ev) { ServerByLoop(x, reqs, g, st, ev); } else { ServerCalls(x, reqs, g, st, ev); }
      }
    }
    OutGrows(x, st.b, st.a, ev);
    AcceptorStep(x, st.a, st.b, ev);
  }

  lemma ClientMoves(x: uint32, reqs: seq<Bytes>, g: Handler, st: Call, ev: Event)
    requires CallOk(x, reqs, g, st) && CallStep(x, reqs, g, st, OnLine(true, ev)).Some?
    ensures CallOk(x, reqs, g, CallStep(x, reqs, g, st, OnLine(true, ev)).value)
  {
    InitiatorStep(x, st.a, st.b, ev);
    hide Carried, Writable, LineOk, HalfStep, CallOk;
    if ByLoop(ev) { ClientByLoop(x, reqs, g, st, ev); }
    else if !st.c.started { ClientOpens(x, reqs, g, st, ev); }
    else if Gets(ev) { ClientGets(x, reqs, g, st, ev); }
    else { ClientCalls(x, reqs, g, st, ev); }
  }

  lemma HandlerMoves(x: uint32, reqs: seq<Bytes>, g: Handler, st: Call, m: Move)
    requires CallOk(x, reqs, g, st) && !m.OnLine? && CallStep(x, reqs, g, st, m).Some?
    ensures CallOk(x, reqs, g, CallStep(x, reqs, g, st, m).value)
  {
    hide Carried, Writable, LineOk, AskingOk, StageOk, HandlerTake, HandlerReturn, Script, Answers;
    if m.HandlerTakes? { TakeKeepsStage(st.s, reqs, g); } else { ReturnKeepsStage(st.s, reqs, g); }
  }

  lemma TakeKeepsStage(s: Server, reqs: seq<Bytes>, g: Handler)
    requires StageOk(s, reqs, g) && HandlerTake(s).Some?
    ensures var s' := HandlerTake(s).value;
      s.at.Serving? && s' == s.(seen := s'.seen) && StageOk(s', reqs, g)
  {
    hide Carried, CarriedAll, Writable, Answers;
  }

  lemma ReturnKeepsStage(s: Server, reqs: seq<Bytes>, g: Handler)
    requires StageOk(s, reqs, g) && HandlerReturn(s, g).Some?
    ensures var s' := HandlerReturn(s, g).value;
      && s.at.Serving? && s' == s.(at := s'.at) && StageOk(s', reqs, g)
      && s'.at == match Answers(g, reqs) case Some(r) => Stage.Answering(r) case None => Finishing
  {
    hide Carried, CarriedAll, Writable;
    assert s.seen == s.pushed;
  }

  lemma CallStarts(x: uint32, reqs: seq<Bytes>, g: Handler)
    ensures CallOk(x, reqs, g, NewCall())
  {
    LineStarts(x);
  }

  lemma {:induction false} RunKeepsCall(x: uint32, reqs: seq<Bytes>, g: Handler, moves: seq<Move>)
    requires CallRun(x, reqs, g, moves).Some?
    ensures CallOk(x, reqs, g, CallRun(x, reqs, g, moves).value)
  {
    hide CallOk, CallStep;
    if moves == [] {
      CallStarts(x, reqs, g);
    } else {
      RunKeepsCall(x, reqs, g, moves[..|moves| - 1]);
      var st, m := CallRun(x, reqs, g, moves[..|moves| - 1]).value, moves[|moves| - 1];
      match m
      case OnLine(initiator, ev) =>
        if initiator { ClientMoves(x, reqs, g, st, ev); } else { ServerMoves(x, reqs, g, st, ev); }
      case _ => HandlerMoves(x, reqs, g, st, m);
    }
  }

  lemma ClientNotRefused(x: uint32, reqs: seq<Bytes>, g: Handler, st: Call)
    requires CallOk(x, reqs, g, st) && st.c.started && !st.c.ended && !st.c.writing && st.c.sent < |reqs|
    ensures CallStep(x, reqs, g, st, OnLine(true, SendBegins(reqs[st.c.sent])))
        == Some(st.(c := st.c.(writing := true)))
  {
    hide Carried, Writable, LineOk, PortOk, HalfStep, WaitingOk;
    OfferedAnswer(x, reqs, g, st);
    SendPasses(x, st.a, st.b, reqs[st.c.sent]);
  }

  lemma ServerNotRefused(x: uint32, reqs: seq<Bytes>, g: Handler, st: Call)
    requires CallOk(x, reqs, g, st) && st.s.at.Answering?
    ensures CallStep(x, reqs, g, st, OnLine(false, SendBegins(st.s.at.resp)))
        == Some(st.(s := st.s.(at := Writing(st.s.at.resp))))
  {
    hide Carried, Writable, LineOk, PortOk, HalfStep, AskingOk;
    SendPasses(x, st.b, st.a, st.s.at.resp);
  }

  // Neither end's `Send` is ever refused, and the caller's `Recv` never fails.
  lemma NeverRefused(x: uint32, reqs: seq<Bytes>, g: Handler, moves: seq<Move>)
    requires CallRun(x, reqs, g, moves).Some?
    ensures var st := CallRun(x, reqs, g, moves).value;
      && !st.c.result.Failed?
      && (st.c.started && !st.c.ended && !st.c.writing && st.c.sent < |reqs| ==>
            CallStep(x, reqs, g, st, OnLine(true, SendBegins(reqs[st.c.sent])))
                == Some(st.(c := st.c.(writing := true))))
      && (st.s.at.Answering? ==>
            CallStep(x, reqs, g, st, OnLine(false, SendBegins(st.s.at.resp)))
                == Some(st.(s := st.s.(at := Writing(st.s.at.resp)))))
  {
    RunKeepsCall(x, reqs, g, moves);
    var st := CallRun(x, reqs, g, moves).value;
    hide Carried, Writable, LineOk, WaitingOk, HalfStep, CallRun;
    if st.c.started && !st.c.ended && !st.c.writing && st.c.sent < |reqs| { ClientNotRefused(x, reqs, g, st); }
    if st.s.at.Answering? { ServerNotRefused(x, reqs, g, st); }
    hide CallStep;
  }

  // What the handler sees and what the caller gets, as far as frames carry them.
  lemma GetsAnswer(x: uint32, reqs: seq<Bytes>, g: Handler, moves: seq<Move>)
    requires CallRun(x, reqs, g, moves).Some?
    ensures var st := CallRun(x, reqs, g, moves).value;
      && st.s.seen <= CarriedAll(reqs)
      && (!Reading(st.s.at) ==> st.s.seen == CarriedAll(reqs) && AllWritable(reqs))
      && (!st.c.result.Pending? ==>
           && st.c.result == Returned(CarriedAnswer(Answers(g, reqs))) && !Reading(st.s.at)
           && (Answers(g, reqs).Some? ==> Writable(Answers(g, reqs).value)))
  {
    hide Carried, Writable, LineOk, CallRun, Answers;
    RunKeepsCall(x, reqs, g, moves);
    assert reqs[..|reqs|] == reqs;
  }

  // The handler never sees anything but the requests, in order, and returns only when it has seen
  // them all. The caller gets what it returned: its answer, or nil without an error if it failed.
  // The handler sees the requests themselves exactly if they all fit into frames; then the call
  // equals a direct call exactly if the answer fits.
  lemma EqualsDirectCall(x: uint32, reqs: seq<Bytes>, g: Handler, moves: seq<Move>)
    requires CallRun(x, reqs, g, moves).Some?
    ensures var st := CallRun(x, reqs, g, moves).value;
      && st.s.seen <= CarriedAll(reqs)
      && (!Reading(st.s.at) ==> st.s.seen == CarriedAll(reqs) && (st.s.seen == reqs <==> AllFit(reqs)))
      && (!st.c.result.Pending? ==>
           && st.c.result == Returned(CarriedAnswer(g(CarriedAll(reqs)))) && !Reading(st.s.at)
           && (AllFit(reqs) ==> (st.c.result == Returned(g(reqs)) <==> AnswerFits(g(reqs)))))
  {
    hide CallRun, Carried, CarriedAll, Writable, AllWritable, AllFit;
    GetsAnswer(x, reqs, g, moves);
    var st := CallRun(x, reqs, g, moves).value;
    if !Reading(st.s.at) { AllCarriedExactly(reqs); }
    if !st.c.result.Pending? && Answers(g, reqs).Some? { CarriedExactly(Answers(g, reqs).value); }
  }

  // ---- Its end ----

  lemma OneMore(x: uint32, reqs: seq<Bytes>, g: Handler, moves: seq<Move>, m: Move)
    requires CallRun(x, reqs, g, moves).Some?
    ensures CallRun(x, reqs, g, moves + [m]) == CallStep(x, reqs, g, CallRun(x, reqs, g, moves).value, m)
  {
    hide CallStep;
    assert (moves + [m])[..|moves|] == moves;
  }

  // The stream is in the hands of the handler from its routing on.
  lemma {:induction false} HandlerHolds(x: uint32, reqs: seq<Bytes>, g: Handler, moves: seq<Move>)
    requires CallRun(x, reqs, g, moves).Some?
    ensures var st := CallRun(x, reqs, g, moves).value; !st.s.at.Unrouted? ==> InHand(st.b.port)
  {
    hide CallStep;
    if moves != [] {
      var before, m := moves[..|moves| - 1], moves[|moves| - 1];
      HandlerHolds(x, reqs, g, before);
      StepHolds(x, reqs, g, CallRun(x, reqs, g, before).value, m);
    }
  }

  lemma StepHolds(x: uint32, reqs: seq<Bytes>, g: Handler, st: Call, m: Move)
    requires (!st.s.at.Unrouted? ==> InHand(st.b.port)) && CallStep(x, reqs, g, st, m).Some?
    ensures var st' := CallStep(x, reqs, g, st, m).value; !st'.s.at.Unrouted? ==> InHand(st'.b.port)
  {
    hide HalfStep, ClientStep, PortStep;
    if m.OnLine? && !m.initiator {
      HalfStepParts(x, st.b, st.a, m.ev);
      if InHand(st.b.port) {
        StaysInHand(x, st.b.port, m.ev);
      } else {
        FirstRouted(st.s, m.ev, HalfStep(x, st.b, st.a, m.ev).value.port);
        if m.ev.Routed? { RoutedHolds(x, st.b.port, m.ev); }
      }
    }
  }

  lemma FirstRouted(s: Server, ev: Event, p: Port)
    requires s.at.Unrouted? && ServerStep(s, ev, p).Some?
    ensures ServerStep(s, ev, p).value.at.Unrouted? || (ev.Routed? && ev.handler.Some?)
  {}

  lemma RoutedHolds(x: uint32, p: Port, ev: Event)
    requires ev.Routed? && ev.handler.Some? && PortStep(x, p, ev).Some?
    ensures InHand(PortStep(x, p, ev).value.p)
  {}

  lemma CallerLeaves(x: uint32, reqs: seq<Bytes>, g: Handler, st: Call)
    requires InHand(st.a.port) && !st.a.port.spot.Shutting?
    requires st.c.started && !st.c.result.Pending? && st.c.closing == 0
    ensures var begun := st.(a := ClosingHalf(x, st.a, false), c := st.c.(closing := 1));
      var written := st.(a := ClosingHalf(x, st.a, true), c := st.c.(closing := 2));
      && CallStep(x, reqs, g, st, OnLine(true, CloseBegins)) == Some(begun)
      && CallStep(x, reqs, g, begun, OnLine(true, CloseWritten(true))) == Some(written)
      && CallStep(x, reqs, g, written, OnLine(true, Removed))
         == Some(st.(a := LeftHalf(x, st.a), c := st.c.(closing := 3)))
  {
    HalfCloses(x, st.a, st.b);
    hide HalfStep, ClosingHalf, LeftHalf, ServerStep;
  }

  lemma HandlerLeaves(x: uint32, reqs: seq<Bytes>, g: Handler, st: Call)
    requires InHand(st.b.port) && !st.b.port.spot.Shutting? && st.s.at.Finishing?
    ensures var begun := st.(b := ClosingHalf(x, st.b, false), s := st.s.(at := Cancelling));
      var written := st.(b := ClosingHalf(x, st.b, true), s := st.s.(at := Unlisting));
      && CallStep(x, reqs, g, st, OnLine(false, CloseBegins)) == Some(begun)
      && CallStep(x, reqs, g, begun, OnLine(false, CloseWritten(true))) == Some(written)
      && CallStep(x, reqs, g, written, OnLine(false, Removed))
         == Some(st.(b := LeftHalf(x, st.b), s := st.s.(at := Gone)))
  {
    HalfCloses(x, st.b, st.a);
    hide HalfStep, ClosingHalf, LeftHalf, ClientStep;
  }

  lemma ThreeMore(x: uint32, reqs: seq<Bytes>, g: Handler, moves: seq<Move>, initiator: bool)
    requires CallRun(x, reqs, g, moves).Some?
    requires var st := CallRun(x, reqs, g, moves).value;
      && CallStep(x, reqs, g, st, OnLine(initiator, CloseBegins)).Some?
      && var begun := CallStep(x, reqs, g, st, OnLine(initiator, CloseBegins)).value;
         CallStep(x, reqs, g, begun, OnLine(initiator, CloseWritten(true))).Some?
    ensures var st := CallRun(x, reqs, g, moves).value;
      var begun := CallStep(x, reqs, g, st, OnLine(initiator, CloseBegins)).value;
      var written := CallStep(x, reqs, g, begun, OnLine(initiator, CloseWritten(true))).value;
      CallRun(x, reqs, g, moves + CloseMoves(initiator))
      == CallStep(x, reqs, g, written, OnLine(initiator, Removed))
  {
    hide CallStep, CallRun;
    var one := moves + [OnLine(initiator, CloseBegins)];
    var two := one + [OnLine(initiator, CloseWritten(true))];
    OneMore(x, reqs, g, moves, OnLine(initiator, CloseBegins));
    OneMore(x, reqs, g, one, OnLine(initiator, CloseWritten(true)));
    OneMore(x, reqs, g, two, OnLine(initiator, Removed));
    assert moves + CloseMoves(initiator) == two + [OnLine(initiator, Removed)];
  }

  // The deferred Close of one of the two.
  function CloseMoves(initiator: bool): seq<Move> {
    [OnLine(initiator, CloseBegins), OnLine(initiator, CloseWritten(true)), OnLine(initiator, Removed)]
  }

  // In every state reached in which the caller has its result, or the handler has answered, the deferred
  // Close can run to its end, unless the read loop has the lock: it writes one Close frame and takes
  // the stream out of the table, and touches nothing else.
  lemma CallerCloses(x: uint32, reqs: seq<Bytes>, g: Handler, moves: seq<Move>)
    requires CallRun(x, reqs, g, moves).Some?
    requires var st := CallRun(x, reqs, g, moves).value;
      !st.c.result.Pending? && st.c.closing == 0 && !st.a.port.spot.Shutting?
    ensures var st := CallRun(x, reqs, g, moves).value;
      && InHand(st.a.port)
      && CallRun(x, reqs, g, moves + CloseMoves(true)) == Some(st.(a := LeftHalf(x, st.a), c := st.c.(closing := 3)))
  {
    RunKeepsCall(x, reqs, g, moves);
    var st := CallRun(x, reqs, g, moves).value;
    hide CallRun, CallStep, LineOk, WaitingOk, StageOk, LeftHalf, CloseMoves;
    CallerLeaves(x, reqs, g, st);
    ThreeMore(x, reqs, g, moves, true);
  }

  lemma HandlerCloses(x: uint32, reqs: seq<Bytes>, g: Handler, moves: seq<Move>)
    requires CallRun(x, reqs, g, moves).Some?
    requires var st := CallRun(x, reqs, g, moves).value; st.s.at.Finishing? && !st.b.port.spot.Shutting?
    ensures var st := CallRun(x, reqs, g, moves).value;
      && InHand(st.b.port)
      && CallRun(x, reqs, g, moves + CloseMoves(false)) == Some(st.(b := LeftHalf(x, st.b), s := st.s.(at := Gone)))
  {
    HandlerHolds(x, reqs, g, moves);
    var st := CallRun(x, reqs, g, moves).value;
    hide CallRun, CallStep, LeftHalf, CloseMoves;
    HandlerLeaves(x, reqs, g, st);
    ThreeMore(x, reqs, g, moves, false);
  }

  // ---- A call that can complete does ----

  // The caller's deferred Close comes after its result.
  predicate PlainMove(m: Move, to: Naming) { m.OnLine? ==> Plain(m.ev, to) && !(m.initiator && m.ev.CloseBegins?) }

  // A run of plain steps.
  function PlainRun(x: uint32, reqs: seq<Bytes>, g: Handler, to: Naming, moves: seq<Move>): Option<Call>
  {
    if moves == [] then Some(NewCall())
    else match PlainRun(x, reqs, g, to, moves[..|moves| - 1])
         case None => None
         case Some(st) =>
           if PlainMove(moves[|moves| - 1], to) then CallStep(x, reqs, g, st, moves[|moves| - 1]) else None
  }

  lemma {:induction false} PlainIsRun(x: uint32, reqs: seq<Bytes>, g: Handler, to: Naming, moves: seq<Move>)
    requires PlainRun(x, reqs, g, to, moves).Some?
    ensures CallRun(x, reqs, g, moves) == PlainRun(x, reqs, g, to, moves)
  {
    hide CallStep;
    if moves != [] { PlainIsRun(x, reqs, g, to, moves[..|moves| - 1]); }
  }

  lemma Extend(x: uint32, reqs: seq<Bytes>, g: Handler, to: Naming, moves: seq<Move>, m: Move)
    requires PlainRun(x, reqs, g, to, moves).Some? && PlainMove(m, to)
    ensures PlainRun(x, reqs, g, to, moves + [m]) == CallStep(x, reqs, g, PlainRun(x, reqs, g, to, moves).value, m)
  {
    hide CallStep;
    assert (moves + [m])[..|moves|] == moves;
  }

  function HalfAt(st: Call, initiator: bool): Half { if initiator then st.a else st.b }

  // A step of one end on its stream.
  lemma Moves(x: uint32, reqs: seq<Bytes>, g: Handler, to: Naming, moves: seq<Move>, initiator: bool, ev: Event,
      me: Half) returns (longer: seq<Move>)
    requires PlainRun(x, reqs, g, to, moves).Some? && Healthy(ev) && PlainMove(OnLine(initiator, ev), to)
    requires var st := PlainRun(x, reqs, g, to, moves).value;
      && HalfStep(x, HalfAt(st, initiator), HalfAt(st, !initiator), ev) == Some(me)
      && if initiator then ClientStep(st.c, reqs, ev, me.port).Some? else ServerStep(st.s, ev, me.port).Some?
    ensures var st := PlainRun(x, reqs, g, to, moves).value;
      PlainRun(x, reqs, g, to, longer)
      == Some(if initiator then st.(a := me, c := ClientStep(st.c, reqs, ev, me.port).value)
              else st.(b := me, s := ServerStep(st.s, ev, me.port).value))
  {
    hide PlainRun, HalfStep, ClientStep, ServerStep, Healthy, PlainMove;
    Extend(x, reqs, g, to, moves, OnLine(initiator, ev));
    longer := moves + [OnLine(initiator, ev)];
  }

  // A step of the read loop is none of the two programs.
  lemma LoopExtends(x: uint32, reqs: seq<Bytes>, g: Handler, to: Naming, moves: seq<Move>, initiator: bool, ev: Event)
      returns (longer: seq<Move>)
    requires PlainRun(x, reqs, g, to, moves).Some? && ByLoop(ev) && !ev.Routed? && Healthy(ev) && Plain(ev, to)
    requires var st := PlainRun(x, reqs, g, to, moves).value;
      HalfStep(x, HalfAt(st, initiator), HalfAt(st, !initiator), ev).Some?
    ensures var st := PlainRun(x, reqs, g, to, moves).value;
      var me := HalfStep(x, HalfAt(st, initiator), HalfAt(st, !initiator), ev).value;
      PlainRun(x, reqs, g, to, longer) == Some(if initiator then st.(a := me) else st.(b := me))
  {
    hide HalfStep, CallRun;
    var st := PlainRun(x, reqs, g, to, moves).value;
    var me := HalfStep(x, HalfAt(st, initiator), HalfAt(st, !initiator), ev).value;
    longer := Moves(x, reqs, g, to, moves, initiator, ev, me);
  }

  // A step of a program around a write.
  lemma SpeaksOn(x: uint32, reqs: seq<Bytes>, g: Handler, to: Naming, moves: seq<Move>, initiator: bool, ev: Event)
      returns (longer: seq<Move>)
    requires PlainRun(x, reqs, g, to, moves).Some?
    requires Speaks(HalfAt(PlainRun(x, reqs, g, to, moves).value, initiator), ev)
    requires var st := PlainRun(x, reqs, g, to, moves).value;
      if initiator then ClientStep(st.c, reqs, ev, st.a.port).Some? else ServerStep(st.s, ev, st.b.port).Some?
    ensures var st := PlainRun(x, reqs, g, to, moves).value;
      PlainRun(x, reqs, g, to, longer)
      == Some(if initiator
              then st.(a := Said(x, st.a, ev), c := ClientStep(st.c, reqs, ev, st.a.port).value)
              else st.(b := Said(x, st.b, ev), s := ServerStep(st.s, ev, st.b.port).value))
  {
    hide PlainRun, HalfStep, ClientStep, ServerStep, Healthy, Plain;
    var st := PlainRun(x, reqs, g, to, moves).value;
    SpeaksIs(x, HalfAt(st, initiator), HalfAt(st, !initiator), ev);
    longer := Moves(x, reqs, g, to, moves, initiator, ev, Said(x, HalfAt(st, initiator), ev));
  }

  // A frame reaches the queue.
  lemma Arrives(x: uint32, reqs: seq<Bytes>, g: Handler, to: Naming, moves: seq<Move>, initiator: bool, f: Frame)
      returns (longer: seq<Move>)
    requires PlainRun(x, reqs, g, to, moves).Some?
    requires var st := PlainRun(x, reqs, g, to, moves).value;
      var me, other := HalfAt(st, initiator), HalfAt(st, !initiator);
      Resting(me) && me.read < |other.out| && other.out[me.read] == f && f.id == x && !IsClose(f) && !IsError(f)
    ensures var st := PlainRun(x, reqs, g, to, moves).value;
      PlainRun(x, reqs, g, to, longer)
      == Some(if initiator then st.(a := WithFrame(st.a, f)) else st.(b := WithFrame(st.b, f)))
  {
    hide PlainRun, HalfStep, IsClose, IsError;
    var st := PlainRun(x, reqs, g, to, moves).value;
    var me, other := HalfAt(st, initiator), HalfAt(st, !initiator);
    FrameRead(x, me, other, f);
    longer := LoopExtends(x, reqs, g, to, moves, initiator, Reads(f));
    var held := HalfStep(x, me, other, Reads(f)).value;
    FrameDispatched(x, held, other, f);
    longer := LoopExtends(x, reqs, g, to, longer, initiator, Dispatched);
    var handing := HalfStep(x, held, other, Dispatched).value;
    FrameDelivered(x, handing, other, f);
    longer := LoopExtends(x, reqs, g, to, longer, initiator, Delivered);
  }

  // `Recv` of one end returns the frame that has arrived.
  lemma Takes(x: uint32, reqs: seq<Bytes>, g: Handler, to: Naming, moves: seq<Move>, initiator: bool, f: Frame)
      returns (longer: seq<Move>, me: Half)
    requires PlainRun(x, reqs, g, to, moves).Some?
    requires var st := PlainRun(x, reqs, g, to, moves).value;
      var me, other := HalfAt(st, initiator), HalfAt(st, !initiator);
      && Resting(me) && me.read < |other.out| && other.out[me.read] == f && f.id == x && !IsClose(f) && !IsError(f)
      && if initiator then st.c.started && st.c.result.Pending? else st.s.at.Serving? && !st.s.inputEnded
    ensures var st := PlainRun(x, reqs, g, to, moves).value;
      && Resting(me) && me.out == HalfAt(st, initiator).out && me.read == HalfAt(st, initiator).read + 1
      && LastOutcome(me.port) == OutcomeOf(f)
      && PlainRun(x, reqs, g, to, longer)
         == Some(if initiator then st.(a := me, c := ClientStep(st.c, reqs, Polled, me.port).value)
                 else st.(b := me, s := ServerStep(st.s, Polled, me.port).value))
  {
    hide PlainRun, HalfStep, IsClose, IsError, WithFrame, OutcomeOf;
    var st := PlainRun(x, reqs, g, to, moves).value;
    longer := Arrives(x, reqs, g, to, moves, initiator, f);
    FrameTaken(x, HalfAt(st, initiator), HalfAt(st, !initiator), f);
    me := HalfStep(x, WithFrame(HalfAt(st, initiator), f), HalfAt(st, !initiator), Polled).value;
    longer := Moves(x, reqs, g, to, longer, initiator, Polled, me);
  }

  lemma Starts(x: uint32, reqs: seq<Bytes>, g: Handler, to: Naming) returns (moves: seq<Move>)
    requires |to.start| <= TWO32 - 13
    ensures PlainRun(x, reqs, g, to, moves)
         == Some(NewCall().(a := Opener(x, to.start), c := Client(true, 0, false, false, Pending, 0)))
  {
    moves := [];
    assert PlainRun(x, reqs, g, to, moves) == Some(NewCall());
    hide PlainRun, HalfStep, Opener, Registering, CallStep;
    OpenerSteps(x, to.start, NoHalf());
    moves := Moves(x, reqs, g, to, moves, true, Registers(to.start), Registering(x, to.start));
    moves := Moves(x, reqs, g, to, moves, true, StartWritten(true), Opener(x, to.start));
  }

  // The handler serves, and `k` requests have reached it.
  predicate Under(st: Call, k: nat) {
    && Resting(st.a) && Resting(st.b) && st.b.read == |st.a.out| && st.a.read == |st.b.out|
    && st.c == Client(true, k, false, false, Pending, 0)
    && st.s.at.Serving? && !st.s.inputEnded && |st.s.seen| == |st.s.pushed|
  }

  // The stream is open at both ends.
  lemma Opens(x: uint32, reqs: seq<Bytes>, g: Handler, to: Naming) returns (moves: seq<Move>)
    requires |to.start| <= TWO32 - 13
    ensures PlainRun(x, reqs, g, to, moves).Some? && Under(PlainRun(x, reqs, g, to, moves).value, 0)
  {
    assert Resting(Opener(x, to.start)) && Resting(Acceptor(x, to.start));
    assert Acceptor(x, to.start).read == |Opener(x, to.start).out|;
    assert Opener(x, to.start).read == |Acceptor(x, to.start).out|;
    hide PlainRun, HalfStep, Opener, Acceptor, CallStep, Resting;
    moves := Starts(x, reqs, g, to);
    var held, placing := AcceptorSteps(x, to.start, to.handler);
    moves := Moves(x, reqs, g, to, moves, false, Reads(StartFrame(x, to.start)), held);
    moves := Moves(x, reqs, g, to, moves, false, Dispatched, placing);
    moves := Moves(x, reqs, g, to, moves, false, Routed(Some(to.handler)), Acceptor(x, to.start));
  }

  // One request.
  lemma Asking(x: uint32, reqs: seq<Bytes>, g: Handler, to: Naming, k: nat, moves: seq<Move>)
      returns (longer: seq<Move>)
    requires PlainRun(x, reqs, g, to, moves).Some? && Under(PlainRun(x, reqs, g, to, moves).value, k)
    requires k < |reqs| && Writable(reqs[k])
    ensures PlainRun(x, reqs, g, to, longer).Some? && Under(PlainRun(x, reqs, g, to, longer).value, k + 1)
  {
    hide PlainRun, HalfStep, Writable, Carried;
    longer := SpeaksOn(x, reqs, g, to, moves, true, SendBegins(reqs[k]));
    longer := SpeaksOn(x, reqs, g, to, longer, true, DataWritten(reqs[k], true));
    var f := DataFrame(x, Carried(reqs[k]));
    var st := PlainRun(x, reqs, g, to, longer).value;
    assert Resting(st.a) && Resting(st.b) && st.a.out[st.b.read] == f;
    assert st.c == Client(true, k + 1, false, false, Pending, 0);
    hide ClientStep, Resting;
    var me;
    longer, me := Takes(x, reqs, g, to, longer, false, f);
    Extend(x, reqs, g, to, longer, HandlerTakes);
    longer := longer + [HandlerTakes];
  }

  // The end of the requests; the handler returns.
  lemma Ending(x: uint32, reqs: seq<Bytes>, g: Handler, to: Naming, moves: seq<Move>) returns (longer: seq<Move>)
    requires PlainRun(x, reqs, g, to, moves).Some? && Under(PlainRun(x, reqs, g, to, moves).value, |reqs|)
    ensures PlainRun(x, reqs, g, to, longer).Some?
    ensures var st := PlainRun(x, reqs, g, to, longer).value;
      && Resting(st.a) && Resting(st.b) && st.a.read == |st.b.out| && st.c.started && st.c.result.Pending?
      && st.s.at == match Answers(g, reqs) case Some(r) => Stage.Answering(r) case None => Finishing
  {
    hide PlainRun, HalfStep, CarriedAll;
    longer := SpeaksOn(x, reqs, g, to, moves, true, EndWritten(true));
    var st := PlainRun(x, reqs, g, to, longer).value;
    assert Resting(st.a) && Resting(st.b) && st.a.out[st.b.read] == EndFrame(x);
    assert st.c.started && st.c.result.Pending?;
    hide ClientStep, Resting;
    var me;
    longer, me := Takes(x, reqs, g, to, longer, false, EndFrame(x));
    Extend(x, reqs, g, to, longer, HandlerReturns);
    longer := longer + [HandlerReturns];
    PlainIsRun(x, reqs, g, to, longer);
    GetsAnswer(x, reqs, g, longer);
  }

  // The answer reaches the caller.
  lemma Answering(x: uint32, reqs: seq<Bytes>, g: Handler, to: Naming, moves: seq<Move>) returns (longer: seq<Move>)
    requires PlainRun(x, reqs, g, to, moves).Some?
    requires var st := PlainRun(x, reqs, g, to, moves).value;
      && Resting(st.a) && Resting(st.b) && st.a.read == |st.b.out| && st.c.started && st.c.result.Pending?
      && st.s.at.Answering? && Writable(st.s.at.resp)
    ensures PlainRun(x, reqs, g, to, longer).Some? && !PlainRun(x, reqs, g, to, longer).value.c.result.Pending?
  {
    hide PlainRun, HalfStep, Writable, Carried;
    var r := PlainRun(x, reqs, g, to, moves).value.s.at.resp;
    longer := SpeaksOn(x, reqs, g, to, moves, false, SendBegins(r));
    longer := SpeaksOn(x, reqs, g, to, longer, false, DataWritten(r, true));
    var f := DataFrame(x, Carried(r));
    var st := PlainRun(x, reqs, g, to, longer).value;
    assert Resting(st.a) && st.b.out[st.a.read] == f && st.c.started && st.c.result.Pending?;
    hide ServerStep, Resting;
    var me;
    longer, me := Takes(x, reqs, g, to, longer, true, f);
  }

  // If there is none, the deferred Close does.
  lemma Closing(x: uint32, reqs: seq<Bytes>, g: Handler, to: Naming, moves: seq<Move>) returns (longer: seq<Move>)
    requires PlainRun(x, reqs, g, to, moves).Some?
    requires var st := PlainRun(x, reqs, g, to, moves).value;
      && Resting(st.a) && Resting(st.b) && st.a.read == |st.b.out| && st.c.started && st.c.result.Pending?
      && st.s.at.Finishing?
    ensures PlainRun(x, reqs, g, to, longer).Some? && !PlainRun(x, reqs, g, to, longer).value.c.result.Pending?
  {
    hide PlainRun, HalfStep, ClientStep;
    var st := PlainRun(x, reqs, g, to, moves).value;
    CloseSpoken(x, st.b, st.a);
    var closing := HalfStep(x, st.b, st.a, CloseBegins).value;
    longer := Moves(x, reqs, g, to, moves, false, CloseBegins, closing);
    var closed := Half(closing.port, st.b.out + [CloseFrame(x)], st.b.read);
    longer := Moves(x, reqs, g, to, longer, false, CloseWritten(true), closed);
    hide ServerStep;
    longer := Learns(x, reqs, g, to, longer);
  }

  lemma Learns(x: uint32, reqs: seq<Bytes>, g: Handler, to: Naming, moves: seq<Move>) returns (longer: seq<Move>)
    requires PlainRun(x, reqs, g, to, moves).Some?
    requires var st := PlainRun(x, reqs, g, to, moves).value;
      && Resting(st.a) && st.a.read < |st.b.out| && st.b.out[st.a.read] == CloseFrame(x)
      && st.c.started && st.c.result.Pending?
    ensures PlainRun(x, reqs, g, to, longer).Some? && !PlainRun(x, reqs, g, to, longer).value.c.result.Pending?
  {
    hide PlainRun, HalfStep;
    var st := PlainRun(x, reqs, g, to, moves).value;
    FrameRead(x, st.a, st.b, CloseFrame(x));
    var held := Half(st.a.port.(spot := Holding(CloseFrame(x))), st.a.out, st.a.read + 1);
    CloseDispatched(x, held, st.b);
    CloseShuts(x, held, st.b);
    EndTaken(x, ClosedHalf(held, true), st.b);
    hide ClosedHalf, Resting;
    longer := LoopExtends(x, reqs, g, to, moves, true, Reads(CloseFrame(x)));
    longer := LoopExtends(x, reqs, g, to, longer, true, Dispatched);
    longer := LoopExtends(x, reqs, g, to, longer, true, Shut);
    var me := HalfStep(x, ClosedHalf(held, true), st.b, Polled).value;
    longer := Moves(x, reqs, g, to, longer, true, Polled, me);
  }

  lemma Completes(x: uint32, reqs: seq<Bytes>, g: Handler, to: Naming) returns (moves: seq<Move>)
    requires |to.start| <= TWO32 - 13 && AllWritable(reqs)
    requires Answers(g, reqs).Some? ==> Writable(Answers(g, reqs).value)
    ensures PlainRun(x, reqs, g, to, moves).Some? && !PlainRun(x, reqs, g, to, moves).value.c.result.Pending?
  {
    hide PlainRun, Under, Writable, Answers;
    moves := Opens(x, reqs, g, to);
    var k := 0;
    while k < |reqs|
      invariant k <= |reqs| && PlainRun(x, reqs, g, to, moves).Some? && Under(PlainRun(x, reqs, g, to, moves).value, k)
    {
      moves := Asking(x, reqs, g, to, k, moves);
      k := k + 1;
    }
    moves := Ending(x, reqs, g, to, moves);
    if Answers(g, reqs).Some? {
      moves := Answering(x, reqs, g, to, moves);
    } else {
      moves := Closing(x, reqs, g, to, moves);
    }
  }

  // A call can complete exactly if its requests and the answer, if any, can be written.
  lemma CanComplete(x: uint32, reqs: seq<Bytes>, g: Handler)
    ensures (exists moves :: CallRun(x, reqs, g, moves).Some? && !CallRun(x, reqs, g, moves).value.c.result.Pending?)
            <==> AllWritable(reqs) && (g(CarriedAll(reqs)).Some? ==> Writable(g(CarriedAll(reqs)).value))
  {
    hide CallRun, PlainRun, Writable, AllWritable, CarriedAll;
    if AllWritable(reqs) && (Answers(g, reqs).Some? ==> Writable(Answers(g, reqs).value)) {
      var moves := Completes(x, reqs, g, Naming([2], 0));
      PlainIsRun(x, reqs, g, Naming([2], 0), moves);
    }
    forall moves | CallRun(x, reqs, g, moves).Some? && !CallRun(x, reqs, g, moves).value.c.result.Pending?
      ensures AllWritable(reqs) && (Answers(g, reqs).Some? ==> Writable(Answers(g, reqs).value))
    {
      GetsAnswer(x, reqs, g, moves);
    }
  }
}
