/**
 Concurrent calls of the host's client over one connection. Each call takes an ID, leaves a channel
 of capacity one under it, writes its request and waits; one reader looks up the ID of each response
 and offers the payload to the channel it finds. The peer may answer in any order, late or never. What
 crosses is what frames carry of the encodings, and both ends read what they can of it; that a connection
 is such a pair of wires is `RawMessages.RawEndToEnd`.
 */
module HostClient {
  import opened Bytes
  import opened Options
  import opened Messages
  import opened Frames
  import opened HostCodec

  datatype Outcome = Answer(payload: ResponsePayload) | WriteFailed | GaveUp

  datatype Stage =
    | Claimed   // has its ID and its channel
    | Stored    // the channel is in the table
    | Waiting   // the request is written; in the select
    | Returning(outcome: Outcome)
    | Returned(outcome: Outcome)  // the deferred Delete has run

  // `channel` is the channel of capacity one.
  datatype Call = Call(id: uint32, command: Bytes, payload: RequestPayload, stage: Stage,
      channel: Option<ResponsePayload>)

  // What the reader is doing: between the table and the channel it holds no lock. It stops at a payload
  // that it cannot decode.
  datatype Reader =
    | Ready | Got(resp: IPCRespMessage) | Offering(call: nat, payload: ResponsePayload) | Stopped

  // `requests` and `responses` are the payloads on the two wires, `accepted` what the peer has read and not
  // answered. `serving` says whether the peer still reads: it stops as the reader does.
  datatype Client = Client(
    activeID: uint32, calls: seq<Call>, callbacks: map<uint32, nat>, reader: Reader,
    requests: seq<Bytes>, serving: bool, accepted: seq<IPCReqMessage>, responses: seq<Bytes>)

  const NEW_CLIENT: Client := Client(0, [], map[], Ready, [], true, [], [])

  // The negotiated codec, and what the peer answers.
  datatype Plugin = Plugin(codec: Codec, answer: IPCReqMessage -> IPCRespMessage)

  datatype Step =
    | Begin(command: Bytes, payload: RequestPayload) | Store(call: nat) | Write(call: nat, ok: bool)
    | Receive(call: nat) | GiveUp(call: nat) | Delete(call: nat)
    | PeerReads | PeerAnswers(k: nat) | PeerDrops(k: nat)
    | Read | Lookup | Offer

  function Request(c: Call): IPCReqMessage { IPCReqMessage(c.id, c.command, c.payload) }

  function At(s: Client, i: nat, stage: Stage): Client
    requires i < |s.calls|
  {
    s.(calls := s.calls[i := s.calls[i].(stage := stage)])
  }

  predicate Is(s: Client, i: nat, stage: Stage) { i < |s.calls| && s.calls[i].stage == stage }

  // Steps of `Call`.
  function CallStep(s: Client, plugin: Plugin, t: Step): Option<Client>
  {
    match t
    case Begin(command, payload) =>
      var id := (s.activeID + 1) % TWO32;
      Some(s.(activeID := id, calls := s.calls + [Call(id, command, payload, Claimed, None)]))
    case Store(i) =>
      if Is(s, i, Claimed) then Some(At(s, i, Stored).(callbacks := s.callbacks[s.calls[i].id := i])) else None
    case Write(i, ok) =>
      if !Is(s, i, Stored) then None
      else if !ok then Some(At(s, i, Returning(WriteFailed)))
      else
        var b := plugin.codec.marshalRequest(Request(s.calls[i]));
        if Writable(b) then Some(At(s, i, Waiting).(requests := s.requests + [Carried(b)])) else None
    case Receive(i) =>
      if Is(s, i, Waiting) && s.calls[i].channel.Some?
      then
        var c := s.calls[i];
        Some(s.(calls := s.calls[i := c.(stage := Returning(Answer(c.channel.value)), channel := None)]))
      else None
    case GiveUp(i) => if Is(s, i, Waiting) then Some(At(s, i, Returning(GaveUp))) else None
    case Delete(i) =>
      if i < |s.calls| && s.calls[i].stage.Returning?
      then Some(At(s, i, Returned(s.calls[i].stage.outcome)).(callbacks := s.callbacks - {s.calls[i].id})) else None
    case _ => None
  }

  // Steps of the peer: it answers any request it has read, in any order, or drops it.
  function PeerStep(s: Client, plugin: Plugin, t: Step): Option<Client>
  {
    match t
    case PeerReads =>
      if !s.serving || s.requests == [] then None
      else
        var r := plugin.codec.unmarshalRequest(s.requests[0]);
        Some(s.(requests := s.requests[1..], serving := r.Some?,
                accepted := if r.Some? then s.accepted + [r.value] else s.accepted))
    case PeerAnswers(k) =>
      if k >= |s.accepted| then None
      else
        var b := plugin.codec.marshalResponse(plugin.answer(s.accepted[k]));
        if Writable(b)
        then Some(s.(accepted := s.accepted[..k] + s.accepted[k + 1..], responses := s.responses + [Carried(b)]))
        else None
    case PeerDrops(k) =>
      if k >= |s.accepted| then None else Some(s.(accepted := s.accepted[..k] + s.accepted[k + 1..]))
    case _ => None
  }

  // Steps of the reader.
  function ReaderStep(s: Client, plugin: Plugin, t: Step): Option<Client>
  {
    match t
    case Read =>
      if !s.reader.Ready? || s.responses == [] then None
      else
        var r := plugin.codec.unmarshalResponse(s.responses[0]);
        Some(s.(reader := if r.Some? then Got(r.value) else Stopped, responses := s.responses[1..]))
    case Lookup =>
      if !s.reader.Got? then None
      else if s.reader.resp.id in s.callbacks then
        Some(s.(reader := Offering(s.callbacks[s.reader.resp.id], s.reader.resp.payload)))
      else Some(s.(reader := Ready))
    case Offer =>
      if !s.reader.Offering? || s.reader.call >= |s.calls| then None
      else
        var c := s.calls[s.reader.call];
        Some(s.(reader := Ready,
                calls := if c.channel.None? then s.calls[s.reader.call := c.(channel := Some(s.reader.payload))]
                    else s.calls))
    case _ => None
  }

  predicate ByPeer(t: Step) { t.PeerReads? || t.PeerAnswers? || t.PeerDrops? }
  predicate ByReader(t: Step) { t.Read? || t.Lookup? || t.Offer? }

  function Next(s: Client, plugin: Plugin, t: Step): Option<Client> {
    if ByPeer(t) then PeerStep(s, plugin, t)
    else if ByReader(t) then ReaderStep(s, plugin, t)
    else CallStep(s, plugin, t)
  }

  function Run(plugin: Plugin, steps: seq<Step>): Option<Client> {
    if steps == [] then Some(NEW_CLIENT)
    else match Run(plugin, steps[..|steps| - 1]) case None => None case Some(s) => Next(s, plugin, steps[|steps| - 1])
  }

  // ---- The invariant ----

  // The ID of the i-th call.
  function IdOf(i: nat): uint32 { (i + 1) % TWO32 }

  // Exactly 2^32 calls get distinct IDs; the next one collides with the first.
  lemma DistinctIds(calls: nat)
    ensures (forall i: nat, j: nat | i < j < calls :: IdOf(i) != IdOf(j)) <==> calls <= TWO32
  {
    if calls <= TWO32 {
      forall i: nat, j: nat | i < j < calls ensures IdOf(i) != IdOf(j) {
        if IdOf(i) == IdOf(j) { SameIdIsFar(i, j); }
      }
    } else {
      assert IdOf(0) == IdOf(TWO32);
    }
  }

  lemma SameIdIsFar(i: nat, j: nat)
    requires i < j && IdOf(i) == IdOf(j)
    ensures j >= i + TWO32
  {
    var a, b := (i + 1) / TWO32, (j + 1) / TWO32;
    assert i + 1 == a * TWO32 + IdOf(i) && j + 1 == b * TWO32 + IdOf(j);
  }

  // Its request is on the wire, or was.
  predicate Wrote(c: Call) {
    c.stage.Waiting? || ((c.stage.Returning? || c.stage.Returned?) && !c.stage.outcome.WriteFailed?)
  }

  ghost predicate SentBy(s: Client, r: IPCReqMessage) {
    exists i :: 0 <= i < |s.calls| && Wrote(s.calls[i]) && r == Request(s.calls[i])
  }

  ghost predicate Answers(s: Client, plugin: Plugin, r: IPCRespMessage) {
    exists i :: 0 <= i < |s.calls| && Wrote(s.calls[i]) && r == plugin.answer(Request(s.calls[i]))
  }

  // No request that was written, and no answer to one, is read as another message.
  predicate Intact(s: Client, plugin: Plugin) {
    forall i | 0 <= i < |s.calls| && Wrote(s.calls[i]) ::
      && RequestKept(plugin.codec, Request(s.calls[i]))
      && ResponseKept(plugin.codec, plugin.answer(Request(s.calls[i])))
  }

  ghost predicate Own(c: Call, plugin: Plugin, p: ResponsePayload) { p == plugin.answer(Request(c)).payload }

  ghost predicate CallOk(plugin: Plugin, c: Call, i: nat) {
    && c.id == IdOf(i)
    && (c.channel.Some? ==> Own(c, plugin, c.channel.value))
    && (c.stage.Returning? && c.stage.outcome.Answer? ==> Own(c, plugin, c.stage.outcome.payload))
    && (c.stage.Returned? && c.stage.outcome.Answer? ==> Own(c, plugin, c.stage.outcome.payload))
  }

  ghost predicate CallsOk(s: Client, plugin: Plugin) {
    && s.activeID == |s.calls| % TWO32
    && (forall i | 0 <= i < |s.calls| :: CallOk(plugin, s.calls[i], i))
    && (forall id | id in s.callbacks :: s.callbacks[id] < |s.calls| && s.calls[s.callbacks[id]].id == id)
  }

  ghost predicate Asks(s: Client, plugin: Plugin, b: Bytes) {
    var r := plugin.codec.unmarshalRequest(b);
    r.Some? ==> SentBy(s, r.value)
  }

  ghost predicate Replies(s: Client, plugin: Plugin, b: Bytes) {
    var r := plugin.codec.unmarshalResponse(b);
    r.Some? ==> Answers(s, plugin, r.value)
  }

  ghost predicate WiresOk(s: Client, plugin: Plugin) {
    && (forall k | 0 <= k < |s.requests| :: Asks(s, plugin, s.requests[k]))
    && (forall k | 0 <= k < |s.accepted| :: SentBy(s, s.accepted[k]))
    && (forall k | 0 <= k < |s.responses| :: Replies(s, plugin, s.responses[k]))
  }

  ghost predicate ReaderOk(s: Client, plugin: Plugin) {
    match s.reader
    case Got(r) => Answers(s, plugin, r)
    case Offering(i, p) => i < |s.calls| && Own(s.calls[i], plugin, p)
    case _ => true
  }

  ghost predicate ClientOk(s: Client, plugin: Plugin) {
    CallsOk(s, plugin) && WiresOk(s, plugin) && ReaderOk(s, plugin)
  }

  // The peer answers under the ID of the request.
  ghost predicate KeepsId(plugin: Plugin) { forall r :: plugin.answer(r).id == r.id }

  // The calls keep what they asked and wrote, and there may be more of them.
  ghost predicate Extends(s: Client, s': Client) {
    && |s.calls| <= |s'.calls|
    && forall i | 0 <= i < |s.calls| ::
         Request(s'.calls[i]) == Request(s.calls[i]) && (Wrote(s.calls[i]) ==> Wrote(s'.calls[i]))
  }

  lemma StepExtends(s: Client, plugin: Plugin, t: Step)
    requires Next(s, plugin, t).Some?
    ensures Extends(s, Next(s, plugin, t).value)
  {
    if !ByPeer(t) && !ByReader(t) {
      hide CallStep;
      CallExtends(s, plugin, t);
    } else {
      hide CallStep, Carried, Writable, Wrote, Request;
    }
  }

  lemma WasIntact(s: Client, s': Client, plugin: Plugin)
    requires Intact(s', plugin) && Extends(s, s')
    ensures Intact(s, plugin)
  {
    hide RequestKept, ResponseKept, Wrote;
  }

  // What was sent or answered before still is.
  lemma SentLasts(s: Client, s': Client, plugin: Plugin)
    requires Extends(s, s')
    ensures forall r | SentBy(s, r) :: SentBy(s', r)
    ensures forall r | Answers(s, plugin, r) :: Answers(s', plugin, r)
  {
    hide Wrote;
    forall r | SentBy(s, r) ensures SentBy(s', r) {
      var i :| 0 <= i < |s.calls| && Wrote(s.calls[i]) && r == Request(s.calls[i]);
      assert r == Request(s'.calls[i]);
    }
    forall r | Answers(s, plugin, r) ensures Answers(s', plugin, r) {
      var i :| 0 <= i < |s.calls| && Wrote(s.calls[i]) && r == plugin.answer(Request(s.calls[i]));
      assert r == plugin.answer(Request(s'.calls[i]));
    }
  }

  lemma WiresLast(s: Client, s': Client, plugin: Plugin)
    requires WiresOk(s, plugin) && Extends(s, s')
    requires s'.requests == s.requests && s'.accepted == s.accepted && s'.responses == s.responses
    ensures WiresOk(s', plugin)
  {
    SentLasts(s, s', plugin);
    hide SentBy, Answers, Extends;
  }

  lemma ReaderLasts(s: Client, s': Client, plugin: Plugin)
    requires ReaderOk(s, plugin) && Extends(s, s') && s'.reader == s.reader
    ensures ReaderOk(s', plugin)
  {
    SentLasts(s, s', plugin);
    if s.reader.Offering? { assert Request(s'.calls[s.reader.call]) == Request(s.calls[s.reader.call]); }
    hide SentBy, Answers, Extends;
  }

  lemma CallKeeps(s: Client, plugin: Plugin, t: Step)
    requires ClientOk(s, plugin) && CallStep(s, plugin, t).Some? && Intact(CallStep(s, plugin, t).value, plugin)
    ensures ClientOk(CallStep(s, plugin, t).value, plugin)
  {
    var s' := CallStep(s, plugin, t).value;
    CallsKeep(s, plugin, t);
    CallExtends(s, plugin, t);
    hide CallsOk, WiresOk, Extends, Intact;
    CallLeaves(s, plugin, t);
    ReaderLasts(s, s', plugin);
    hide ReaderOk;
    WiresLast(s, s'.(requests := s.requests), plugin);
    if t.Write? && t.ok { RequestSent(s, s', t.call, plugin); } else { hide CallStep; }
  }

  lemma CallExtends(s: Client, plugin: Plugin, t: Step)
    requires CallStep(s, plugin, t).Some?
    ensures var s' := CallStep(s, plugin, t).value; Extends(s, s') && Extends(s, s'.(requests := s.requests))
  {
    if !t.Begin? {
      hide Extends;
      var s' := CallStep(s, plugin, t).value;
      OneExtends(s, s', t.call);
      OneExtends(s, s'.(requests := s.requests), t.call);
    }
  }

  lemma OneExtends(s: Client, s': Client, i: nat)
    requires i < |s.calls| && |s'.calls| == |s.calls| && s'.calls == s.calls[i := s'.calls[i]]
    requires Request(s'.calls[i]) == Request(s.calls[i]) && (Wrote(s.calls[i]) ==> Wrote(s'.calls[i]))
    ensures Extends(s, s')
  {
    hide Wrote, Request;
  }

  lemma CallLeaves(s: Client, plugin: Plugin, t: Step)
    requires CallStep(s, plugin, t).Some?
    ensures var s' := CallStep(s, plugin, t).value;
      && s'.accepted == s.accepted && s'.responses == s.responses && s'.reader == s.reader
      && (!(t.Write? && t.ok) ==> s'.requests == s.requests)
  {}

  lemma RequestSent(s: Client, s': Client, i: nat, plugin: Plugin)
    requires CallStep(s, plugin, Write(i, true)) == Some(s') && WiresOk(s'.(requests := s.requests), plugin)
    requires Intact(s', plugin)
    ensures WiresOk(s', plugin)
  {
    var c, c' := s.calls[i], s'.calls[i];
    var b := plugin.codec.marshalRequest(Request(c));
    assert Wrote(c') && Request(c') == Request(c);
    assert RequestKept(plugin.codec, Request(c'));
    hide Intact, Wrote, Carried, Writable;
    assert SentBy(s', Request(c));
    assert s'.requests == s.requests + [Carried(b)];
    AlikeCalls(s'.(requests := s.requests), s', plugin);
    hide SentBy, Answers;
    assert Asks(s', plugin, Carried(b));
    AlikeWires(s'.(requests := s.requests), s', plugin);
  }

  lemma BeginKeeps(s: Client, plugin: Plugin, command: Bytes, payload: RequestPayload)
    requires CallsOk(s, plugin)
    ensures CallsOk(CallStep(s, plugin, Begin(command, payload)).value, plugin)
  {
    hide Own;
  }

  // A call that moves on without a new result; the table changes only under its ID.
  lemma CallMoves(s: Client, plugin: Plugin, i: nat, c: Call, callbacks: map<uint32, nat>)
    requires CallsOk(s, plugin) && i < |s.calls| && c.id == s.calls[i].id && CallOk(plugin, c, i)
    requires callbacks == s.callbacks || callbacks == s.callbacks[c.id := i] || callbacks == s.callbacks - {c.id}
    ensures CallsOk(s.(calls := s.calls[i := c], callbacks := callbacks), plugin)
  {
    hide CallOk;
  }

  lemma MovedCallOk(s: Client, plugin: Plugin, i: nat)
    requires CallsOk(s, plugin) && i < |s.calls|
    ensures var c := s.calls[i];
      && CallOk(plugin, c, i) && CallOk(plugin, c.(stage := Stored), i) && CallOk(plugin, c.(stage := Waiting), i)
      && CallOk(plugin, c.(stage := Returning(WriteFailed)), i)
      && CallOk(plugin, c.(stage := Returning(GaveUp)), i)
      && (c.channel.Some? ==>
            CallOk(plugin, c.(stage := Returning(Answer(c.channel.value)), channel := None), i))
      && (c.stage.Returning? ==> CallOk(plugin, c.(stage := Returned(c.stage.outcome)), i))
  {
    assert CallOk(plugin, s.calls[i], i);
    hide IdOf, CallsOk;
  }

  lemma CallsKeep(s: Client, plugin: Plugin, t: Step)
    requires CallsOk(s, plugin) && CallStep(s, plugin, t).Some?
    ensures CallsOk(CallStep(s, plugin, t).value, plugin)
  {
    if t.Begin? {
      BeginKeeps(s, plugin, t.command, t.payload);
    } else {
      hide CallsOk, CallOk;
      MovedCallOk(s, plugin, t.call);
      var s' := CallStep(s, plugin, t).value;
      CallMoves(s, plugin, t.call, s'.calls[t.call], s'.callbacks);
      SameCalls(s.(calls := s.calls[t.call := s'.calls[t.call]], callbacks := s'.callbacks), s', plugin);
    }
  }

  lemma SameCalls(s: Client, s': Client, plugin: Plugin)
    requires CallsOk(s, plugin) && s'.calls == s.calls && s'.callbacks == s.callbacks && s'.activeID == s.activeID
    ensures CallsOk(s', plugin)
  {}

  // The same calls have sent the same requests, and have the same answers.
  lemma AlikeCalls(s: Client, s': Client, plugin: Plugin)
    requires s'.calls == s.calls
    ensures forall r :: SentBy(s', r) <==> SentBy(s, r)
    ensures forall r :: Answers(s', plugin, r) <==> Answers(s, plugin, r)
  {}

  lemma AlikeWires(s: Client, s': Client, plugin: Plugin)
    requires s'.calls == s.calls
    ensures forall b :: Asks(s', plugin, b) <==> Asks(s, plugin, b)
    ensures forall b :: Replies(s', plugin, b) <==> Replies(s, plugin, b)
  {
    AlikeCalls(s, s', plugin);
    hide SentBy, Answers;
  }

  // The answer to a request that was sent is not read as another one.
  lemma AnswerKept(s: Client, plugin: Plugin, r: IPCReqMessage)
    requires SentBy(s, r) && Intact(s, plugin) && Writable(plugin.codec.marshalResponse(plugin.answer(r)))
    ensures Replies(s, plugin, Carried(plugin.codec.marshalResponse(plugin.answer(r))))
  {
    hide Wrote, Carried, Writable, RequestKept;
    var i :| 0 <= i < |s.calls| && Wrote(s.calls[i]) && r == Request(s.calls[i]);
    assert Answers(s, plugin, plugin.answer(r));
    assert ResponseKept(plugin.codec, plugin.answer(r));
  }

  lemma PeerWires(s: Client, plugin: Plugin, t: Step)
    requires WiresOk(s, plugin) && PeerStep(s, plugin, t).Some? && Intact(s, plugin)
    ensures WiresOk(PeerStep(s, plugin, t).value, plugin)
  {
    var s' := PeerStep(s, plugin, t).value;
    AlikeCalls(s, s', plugin);
    AlikeWires(s, s', plugin);
    hide SentBy, Answers, Intact, Replies, Carried, Writable;
    if t.PeerReads? { assert Asks(s, plugin, s.requests[0]); }
    if t.PeerAnswers? { AnswerKept(s, plugin, s.accepted[t.k]); }
  }

  lemma PeerKeeps(s: Client, plugin: Plugin, t: Step)
    requires ClientOk(s, plugin) && PeerStep(s, plugin, t).Some? && Intact(s, plugin)
    ensures ClientOk(PeerStep(s, plugin, t).value, plugin)
  {
    hide CallsOk, WiresOk, SentBy, Answers, Intact, Carried, Writable;
    var s' := PeerStep(s, plugin, t).value;
    SameCalls(s, s', plugin);
    AlikeCalls(s, s', plugin);
    PeerWires(s, plugin, t);
  }

  // A response belongs to the call that the table has under its ID, as long as IDs are not reused.
  lemma FoundIsOwn(s: Client, plugin: Plugin)
    requires ClientOk(s, plugin) && KeepsId(plugin) && |s.calls| <= TWO32
    requires s.reader.Got? && s.reader.resp.id in s.callbacks
    ensures var i := s.callbacks[s.reader.resp.id]; i < |s.calls| && Own(s.calls[i], plugin, s.reader.resp.payload)
  {
    var r := s.reader.resp;
    var i :| 0 <= i < |s.calls| && Wrote(s.calls[i]) && r == plugin.answer(Request(s.calls[i]));
    var j := s.callbacks[r.id];
    assert plugin.answer(Request(s.calls[i])).id == s.calls[i].id;
    assert CallOk(plugin, s.calls[i], i) && CallOk(plugin, s.calls[j], j);
    DistinctIds(|s.calls|);
  }

  lemma ReaderCalls(s: Client, plugin: Plugin, t: Step)
    requires CallsOk(s, plugin) && ReaderOk(s, plugin) && ReaderStep(s, plugin, t).Some?
    ensures CallsOk(ReaderStep(s, plugin, t).value, plugin) && Extends(s, ReaderStep(s, plugin, t).value)
  {
    hide CallsOk;
    var s' := ReaderStep(s, plugin, t).value;
    if t.Offer? && s.calls[s.reader.call].channel.None? {
      OfferedCallOk(s, plugin, s.reader.call, s.reader.payload);
      CallMoves(s, plugin, s.reader.call, s'.calls[s.reader.call], s.callbacks);
      SameCalls(s.(calls := s'.calls), s', plugin);
    } else {
      SameCalls(s, s', plugin);
    }
  }

  lemma OfferedCallOk(s: Client, plugin: Plugin, i: nat, p: ResponsePayload)
    requires CallsOk(s, plugin) && i < |s.calls| && Own(s.calls[i], plugin, p)
    ensures CallOk(plugin, s.calls[i].(channel := Some(p)), i)
  {
    assert CallOk(plugin, s.calls[i], i);
    hide CallsOk;
  }

  lemma ReaderKeeps(s: Client, plugin: Plugin, t: Step)
    requires ClientOk(s, plugin) && KeepsId(plugin) && |s.calls| <= TWO32 && ReaderStep(s, plugin, t).Some?
    ensures ClientOk(ReaderStep(s, plugin, t).value, plugin)
  {
    if t.Lookup? && s.reader.resp.id in s.callbacks { FoundIsOwn(s, plugin); }
    ReaderCalls(s, plugin, t);
    hide CallsOk, KeepsId, ReaderStep;
    ReaderWires(s, plugin, t);
    ReaderMoves(s, plugin, t);
  }

  lemma ReaderWires(s: Client, plugin: Plugin, t: Step)
    requires WiresOk(s, plugin) && ReaderStep(s, plugin, t).Some? && Extends(s, ReaderStep(s, plugin, t).value)
    ensures WiresOk(ReaderStep(s, plugin, t).value, plugin)
  {
    var s' := ReaderStep(s, plugin, t).value;
    WiresLast(s, s'.(responses := s.responses), plugin);
    AlikeCalls(s'.(responses := s.responses), s', plugin);
    AlikeWires(s'.(responses := s.responses), s', plugin);
    hide SentBy, Extends, Asks, Replies;
  }

  lemma ReaderMoves(s: Client, plugin: Plugin, t: Step)
    requires WiresOk(s, plugin) && ReaderStep(s, plugin, t).Some?
    requires t.Lookup? && s.reader.resp.id in s.callbacks ==>
      var i := s.callbacks[s.reader.resp.id]; i < |s.calls| && Own(s.calls[i], plugin, s.reader.resp.payload)
    ensures ReaderOk(ReaderStep(s, plugin, t).value, plugin)
  {
    hide Own, Answers;
    if t.Read? {
      assert Replies(s, plugin, s.responses[0]);
      AlikeCalls(s, ReaderStep(s, plugin, t).value, plugin);
    }
  }

  lemma {:induction false} RunKeeps(plugin: Plugin, steps: seq<Step>)
    requires Run(plugin, steps).Some? && |Run(plugin, steps).value.calls| <= TWO32 && KeepsId(plugin)
    requires Intact(Run(plugin, steps).value, plugin)
    ensures ClientOk(Run(plugin, steps).value, plugin)
  {
    if steps != [] {
      var s, t := Run(plugin, steps[..|steps| - 1]).value, steps[|steps| - 1];
      StepExtends(s, plugin, t);
      WasIntact(s, Run(plugin, steps).value, plugin);
      RunKeeps(plugin, steps[..|steps| - 1]);
      hide ClientOk, Intact, CallStep, PeerStep, ReaderStep, KeepsId;
      if ByPeer(t) { PeerKeeps(s, plugin, t); }
      else if ByReader(t) { ReaderKeeps(s, plugin, t); }
      else { CallKeeps(s, plugin, t); }
    }
  }

  // Correlation: in every interleaving of at most 2^32 calls with the reader and the peer, over any codec,
  // if no message that was written is read as another one, a call that returns a result returns the answer
  // to its own request.
  lemma Correlation(plugin: Plugin, steps: seq<Step>, i: nat)
    requires Run(plugin, steps).Some? && |Run(plugin, steps).value.calls| <= TWO32 && KeepsId(plugin)
    requires Intact(Run(plugin, steps).value, plugin)
    requires i < |Run(plugin, steps).value.calls|
    ensures var c := Run(plugin, steps).value.calls[i];
      (c.stage.Returning? || c.stage.Returned?) && c.stage.outcome.Answer? ==>
        c.stage.outcome.payload == plugin.answer(IPCReqMessage(c.id, c.command, c.payload)).payload
  {
    RunKeeps(plugin, steps);
    assert CallOk(plugin, Run(plugin, steps).value.calls[i], i);
    hide Run;
  }

  // ---- From a request on the wire to a result ----

  lemma Extend(plugin: Plugin, steps: seq<Step>, t: Step)
    requires Run(plugin, steps).Some?
    ensures Run(plugin, steps + [t]) == Next(Run(plugin, steps).value, plugin, t)
  {
    hide Next;
    assert (steps + [t])[..|steps|] == steps;
  }

  function Then(s: Client, plugin: Plugin, steps: seq<Step>): Option<Client>
    decreases |steps|
  {
    if steps == [] then Some(s)
    else match Next(s, plugin, steps[0]) case None => None case Some(s') => Then(s', plugin, steps[1..])
  }

  lemma {:induction false} RunOn(plugin: Plugin, steps: seq<Step>, more: seq<Step>)
    requires Run(plugin, steps).Some? && Then(Run(plugin, steps).value, plugin, more).Some?
    ensures Run(plugin, steps + more) == Then(Run(plugin, steps).value, plugin, more)
    decreases |more|
  {
    hide Next;
    if more == [] {
      assert steps + more == steps;
    } else {
      Extend(plugin, steps, more[0]);
      RunOn(plugin, steps + [more[0]], more[1..]);
      assert steps + [more[0]] + more[1..] == steps + more;
    }
  }

  // Nothing is on the wires, and both ends read.
  predicate Quiet(s: Client) {
    s.requests == [] && s.responses == [] && s.serving && s.reader == Ready
  }

  // The request and its answer are written and read as themselves.
  predicate Delivers(plugin: Plugin, m: IPCReqMessage) {
    RequestCrosses(plugin.codec, m) && ResponseCrosses(plugin.codec, plugin.answer(m))
  }

  // The first payload on the wire is read as the request `m`, and the j-th call waits under the ID of `m`.
  ghost predicate Awaits(s: Client, plugin: Plugin, m: IPCReqMessage, j: nat) {
    && s.requests != [] && plugin.codec.unmarshalRequest(s.requests[0]) == Some(m) && Quiet(s.(requests := []))
    && Is(s, j, Waiting) && s.calls[j].channel == None
    && m.id in s.callbacks && s.callbacks[m.id] == j
  }

  function Answering(k: nat, j: nat): seq<Step> { [PeerReads, PeerAnswers(k)] + [Read, Lookup, Offer] + [Receive(j)] }

  lemma PeerAnswersFirst(plugin: Plugin, s: Client, m: IPCReqMessage)
    requires s.requests != [] && plugin.codec.unmarshalRequest(s.requests[0]) == Some(m) && Quiet(s.(requests := []))
    requires Writable(plugin.codec.marshalResponse(plugin.answer(m)))
    ensures var answer := Carried(plugin.codec.marshalResponse(plugin.answer(m)));
      Then(s, plugin, [PeerReads, PeerAnswers(|s.accepted|)])
      == Some(s.(requests := s.requests[1..], responses := [answer]))
  {
    hide Carried, Writable, CallStep, ReaderStep;
    var t := [PeerReads, PeerAnswers(|s.accepted|)];
    var s1 := Next(s, plugin, t[0]).value;
    assert s1.accepted == s.accepted + [m];
    var s2 := Next(s1, plugin, t[1]).value;
    assert s2.responses == [Carried(plugin.codec.marshalResponse(plugin.answer(m)))];
    assert s2.accepted == s.accepted;
    hide Next;
    assert Then(s2, plugin, t[1..][1..]) == Some(s2);
  }

  lemma ReaderHandsOver(plugin: Plugin, s: Client, r: IPCRespMessage, j: nat)
    requires s.reader == Ready && Is(s, j, Waiting) && s.calls[j].channel == None
    requires s.responses != [] && plugin.codec.unmarshalResponse(s.responses[0]) == Some(r)
    requires r.id in s.callbacks && s.callbacks[r.id] == j
    ensures Then(s, plugin, [Read, Lookup, Offer])
         == Some(s.(responses := s.responses[1..], calls := s.calls[j := s.calls[j].(channel := Some(r.payload))]))
  {
    hide PeerStep, CallStep;
    var t := [Read, Lookup, Offer];
    var s1 := Next(s, plugin, t[0]).value;
    var s2 := Next(s1, plugin, t[1]).value;
    var s3 := Next(s2, plugin, t[2]).value;
    hide Next;
    assert Then(s3, plugin, t[1..][1..][1..]) == Some(s3);
    assert Then(s1, plugin, t[1..]) == Some(s3);
  }

  lemma ReceivesIt(plugin: Plugin, s: Client, c: Call, p: ResponsePayload, j: nat)
    requires j < |s.calls| && c.stage == Waiting && s.calls[j] == c.(channel := Some(p))
    ensures var r := Then(s, plugin, [Receive(j)]);
      r.Some? && r.value.calls == s.calls[j := c.(stage := Returning(Answer(p)), channel := None)]
  {
    hide PeerStep, ReaderStep;
    var s1 := Next(s, plugin, Receive(j)).value;
    hide Next;
    assert Then(s1, plugin, [Receive(j)][1..]) == Some(s1);
  }

  // One list of steps after the other.
  lemma {:induction false} ThenAppend(s: Client, plugin: Plugin, a: seq<Step>, b: seq<Step>)
    requires Then(s, plugin, a).Some?
    ensures Then(s, plugin, a + b) == Then(Then(s, plugin, a).value, plugin, b)
    decreases |a|
  {
    hide Next;
    if a == [] {
      assert a + b == b;
    } else {
      ThenAppend(Next(s, plugin, a[0]).value, plugin, a[1..], b);
      assert (a + b)[1..] == a[1..] + b;
    }
  }

  // The answer to `m` finds the channel of that call.
  lemma Answered(plugin: Plugin, s: Client, m: IPCReqMessage, j: nat)
    requires KeepsId(plugin) && Awaits(s, plugin, m, j)
    requires ResponseCrosses(plugin.codec, plugin.answer(m))
    ensures var r := Then(s, plugin, Answering(|s.accepted|, j));
      && r.Some?
      && r.value.calls == s.calls[j := s.calls[j].(stage := Returning(Answer(plugin.answer(m).payload)))]
  {
    hide Carried, Writable, Then;
    PeerAnswersFirst(plugin, s, m);
    var a, b := [PeerReads, PeerAnswers(|s.accepted|)], [Read, Lookup, Offer];
    var s2 := Then(s, plugin, a).value;
    ReaderHandsOver(plugin, s2, plugin.answer(m), j);
    ThenAppend(s, plugin, a, b);
    ReceivesIt(plugin, Then(s2, plugin, b).value, s.calls[j], plugin.answer(m).payload, j);
    ThenAppend(s, plugin, a + b, [Receive(j)]);
  }

  // In the state reached, if any, the i-th call returns this result.
  predicate Returns(r: Option<Client>, i: nat, payload: ResponsePayload) {
    r.Some? && Is(r.value, i, Returning(Answer(payload)))
  }

  // ---- One call more ----

  // A client whose calls have only taken their IDs.
  ghost predicate AllClaimed(s: Client, n: nat, command: Bytes, payload: RequestPayload) {
    && |s.calls| == n && s.activeID == n % TWO32
    && (forall i | 0 <= i < n :: s.calls[i] == Call(IdOf(i), command, payload, Claimed, None))
    && s.callbacks == map[] && Quiet(s) && s.accepted == []
  }

  lemma ClaimOne(s: Client, plugin: Plugin, k: nat, command: Bytes, payload: RequestPayload)
    requires AllClaimed(s, k, command, payload)
    ensures Next(s, plugin, Begin(command, payload)).Some?
    ensures AllClaimed(Next(s, plugin, Begin(command, payload)).value, k + 1, command, payload)
  {
    hide ReaderStep, PeerStep;
    NextId(k);
    assert Next(s, plugin, Begin(command, payload))
        == Some(s.(activeID := IdOf(k), calls := s.calls + [Call(IdOf(k), command, payload, Claimed, None)]));
    hide Next, IdOf;
  }

  lemma NextId(k: nat)
    ensures (k % TWO32 + 1) % TWO32 == IdOf(k) == (k + 1) % TWO32
  {}

  lemma ClaimMany(plugin: Plugin, n: nat, command: Bytes, payload: RequestPayload) returns (steps: seq<Step>)
    ensures Run(plugin, steps).Some? && AllClaimed(Run(plugin, steps).value, n, command, payload)
  {
    steps := [];
    assert Run(plugin, steps) == Some(NEW_CLIENT);
    assert AllClaimed(NEW_CLIENT, 0, command, payload);
    hide Run, Next, AllClaimed;
    var k := 0;
    while k < n
      invariant k <= n && Run(plugin, steps).Some? && AllClaimed(Run(plugin, steps).value, k, command, payload)
    {
      Extend(plugin, steps, Begin(command, payload));
      ClaimOne(Run(plugin, steps).value, plugin, k, command, payload);
      steps := steps + [Begin(command, payload)];
      k := k + 1;
    }
  }

  // The bound is exact: with one call more, the last may return the answer to the first.
  lemma Miscorrelation(plugin: Plugin, command: Bytes, first: RequestPayload, last: RequestPayload)
      returns (steps: seq<Step>)
    requires KeepsId(plugin) && Delivers(plugin, IPCReqMessage(1, command, first))
    requires Writable(plugin.codec.marshalRequest(IPCReqMessage(1, command, last)))
    ensures Run(plugin, steps).Some? && |Run(plugin, steps).value.calls| == TWO32 + 1
    ensures var calls := Run(plugin, steps).value.calls;
      && calls[0].payload == first && calls[TWO32].payload == last
      && calls[TWO32].stage == Returning(Answer(plugin.answer(IPCReqMessage(1, command, first)).payload))
  {
    hide Run, Next, AllClaimed, Then, Awaits, Quiet;
    steps := ClaimMany(plugin, TWO32, command, first);
    OneMore(Run(plugin, steps).value, plugin, command, first, last);
    Extend(plugin, steps, Begin(command, last));
    steps := steps + [Begin(command, last)];
    var s := Run(plugin, steps).value;
    BothAsk(plugin, s, command, first, last);
    RunOn(plugin, steps, ASKING);
    steps := steps + ASKING;
    s := Run(plugin, steps).value;
    Answered(plugin, s, IPCReqMessage(1, command, first), TWO32);
    RunOn(plugin, steps, Answering(0, TWO32));
    steps := steps + Answering(0, TWO32);
  }

  lemma OneMore(s: Client, plugin: Plugin, command: Bytes, first: RequestPayload, last: RequestPayload)
    requires AllClaimed(s, TWO32, command, first)
    ensures Next(s, plugin, Begin(command, last)).Some?
    ensures var s' := Next(s, plugin, Begin(command, last)).value;
      && |s'.calls| == TWO32 + 1
      && s'.calls[0] == Call(1, command, first, Claimed, None)
        && s'.calls[TWO32] == Call(1, command, last, Claimed, None)
      && s'.callbacks == map[] && Quiet(s') && s'.accepted == []
  {
    hide PeerStep, ReaderStep;
    assert IdOf(0) == 1;
  }

  const ASKING: seq<Step> := [Store(0), Write(0, true), Store(TWO32), Write(TWO32, true)]

  // Both calls are waiting, and the table has the last one under the ID they share.
  lemma BothAsk(plugin: Plugin, s: Client, command: Bytes, first: RequestPayload, last: RequestPayload)
    requires |s.calls| == TWO32 + 1
    requires s.calls[0] == Call(1, command, first, Claimed, None)
        && s.calls[TWO32] == Call(1, command, last, Claimed, None)
    requires s.callbacks == map[] && Quiet(s) && s.accepted == []
    requires Delivers(plugin, IPCReqMessage(1, command, first))
    requires Writable(plugin.codec.marshalRequest(IPCReqMessage(1, command, last)))
    ensures Then(s, plugin, ASKING).Some?
    ensures var s' := Then(s, plugin, ASKING).value;
      && Awaits(s', plugin, IPCReqMessage(1, command, first), TWO32) && s'.accepted == []
      && |s'.calls| == TWO32 + 1 && s'.calls[0].payload == first
      && s'.calls[TWO32] == Call(1, command, last, Waiting, None)
  {
    var m := ASKING;
    hide PeerStep, ReaderStep, Carried, Writable;
    var s1 := Next(s, plugin, m[0]).value;
    var s2 := Next(s1, plugin, m[1]).value;
    assert s2.requests == [Carried(plugin.codec.marshalRequest(IPCReqMessage(1, command, first)))];
    var s3 := Next(s2, plugin, m[2]).value;
    var s4 := Next(s3, plugin, m[3]).value;
    assert Awaits(s4, plugin, IPCReqMessage(1, command, first), TWO32);
    hide Next, Awaits;
    assert Then(s4, plugin, m[1..][1..][1..][1..]) == Some(s4);
    assert Then(s2, plugin, m[1..][1..]) == Some(s4);
  }

  // ---- The reader goes on ----

  // The next response on the wire, or the next request, cannot be unmarshalled.
  predicate BadResponse(plugin: Plugin, r: Option<Client>) {
    r.Some? && r.value.responses != [] && plugin.codec.unmarshalResponse(r.value.responses[0]).None?
  }

  predicate BadRequest(plugin: Plugin, r: Option<Client>) {
    r.Some? && r.value.requests != [] && plugin.codec.unmarshalRequest(r.value.requests[0]).None?
  }

  lemma StopsAtStep(s: Client, plugin: Plugin, t: Step)
    requires Next(s, plugin, t).Some?
    ensures var s' := Next(s, plugin, t).value;
      && (s'.reader.Stopped? <==> s.reader.Stopped? || (t.Read? && BadResponse(plugin, Some(s))))
      && (!s'.serving <==> !s.serving || (t.PeerReads? && BadRequest(plugin, Some(s))))
  {
    hide Carried, Writable;
  }

  // The reader stops, and the peer stops serving, exactly at a payload that cannot be unmarshalled.
  lemma {:induction false} StopsAtGarbage(plugin: Plugin, steps: seq<Step>)
    requires Run(plugin, steps).Some?
    ensures var s := Run(plugin, steps).value;
      && (s.reader.Stopped? <==>
            exists k :: 0 <= k < |steps| && steps[k] == Read && BadResponse(plugin, Run(plugin, steps[..k])))
      && (!s.serving <==>
            exists k :: 0 <= k < |steps| && steps[k] == PeerReads && BadRequest(plugin, Run(plugin, steps[..k])))
  {
    hide Next;
    if steps != [] {
      var before := steps[..|steps| - 1];
      StopsAtGarbage(plugin, before);
      StopsAtStep(Run(plugin, before).value, plugin, steps[|steps| - 1]);
      hide BadResponse, BadRequest;
      assert forall k | 0 <= k < |before| :: before[k] == steps[k] && before[..k] == steps[..k];
    }
  }

  // Every request that was written, and its answer if it can be written, is read as itself.
  predicate Sound(s: Client, plugin: Plugin) {
    forall i | 0 <= i < |s.calls| && Wrote(s.calls[i]) ::
      && RequestCrosses(plugin.codec, Request(s.calls[i]))
      && var answer := plugin.answer(Request(s.calls[i]));
         Writable(plugin.codec.marshalResponse(answer)) ==> ResponseCrosses(plugin.codec, answer)
  }

  // Both ends still read, and can read what is under way.
  predicate Readable(s: Client, plugin: Plugin) {
    && s.serving && !s.reader.Stopped?
    && (forall k | 0 <= k < |s.requests| :: plugin.codec.unmarshalRequest(s.requests[k]).Some?)
    && (forall k | 0 <= k < |s.responses| :: plugin.codec.unmarshalResponse(s.responses[k]).Some?)
  }

  lemma SoundIsIntact(s: Client, plugin: Plugin)
    requires Sound(s, plugin)
    ensures Intact(s, plugin)
  {
    hide Wrote, Request;
  }

  lemma WasSound(s: Client, s': Client, plugin: Plugin)
    requires Sound(s', plugin) && Extends(s, s')
    ensures Sound(s, plugin)
  {
    hide RequestCrosses, ResponseCrosses, Wrote;
  }

  lemma CallReadable(s: Client, plugin: Plugin, t: Step)
    requires Readable(s, plugin) && CallStep(s, plugin, t).Some? && Sound(CallStep(s, plugin, t).value, plugin)
    ensures Readable(CallStep(s, plugin, t).value, plugin)
  {
    hide Carried, Writable;
    var s' := CallStep(s, plugin, t).value;
    if t.Write? && t.ok {
      assert Wrote(s'.calls[t.call]) && Request(s'.calls[t.call]) == Request(s.calls[t.call]);
      hide Sound, Wrote;
    }
  }

  lemma PeerReadable(s: Client, plugin: Plugin, t: Step)
    requires Readable(s, plugin) && PeerStep(s, plugin, t).Some? && Sound(s, plugin) && WiresOk(s, plugin)
    ensures Readable(PeerStep(s, plugin, t).value, plugin)
  {
    hide Carried, Writable, Asks, Replies;
    if t.PeerAnswers? {
      var i :| 0 <= i < |s.calls| && Wrote(s.calls[i]) && s.accepted[t.k] == Request(s.calls[i]);
      hide Sound, WiresOk, Wrote;
    }
  }

  lemma {:induction false} RunReadable(plugin: Plugin, steps: seq<Step>)
    requires Run(plugin, steps).Some? && |Run(plugin, steps).value.calls| <= TWO32 && KeepsId(plugin)
    requires Sound(Run(plugin, steps).value, plugin)
    ensures Readable(Run(plugin, steps).value, plugin) && ClientOk(Run(plugin, steps).value, plugin)
  {
    SoundIsIntact(Run(plugin, steps).value, plugin);
    RunKeeps(plugin, steps);
    if steps != [] {
      var s, t := Run(plugin, steps[..|steps| - 1]).value, steps[|steps| - 1];
      StepExtends(s, plugin, t);
      WasSound(s, Run(plugin, steps).value, plugin);
      RunReadable(plugin, steps[..|steps| - 1]);
      hide Readable, Sound, Intact, CallsOk, WiresOk, ReaderOk, CallStep, PeerStep, ReaderStep, KeepsId, Extends;
      if ByPeer(t) { PeerReadable(s, plugin, t); }
      else if ByReader(t) { ReaderReadable(s, plugin, t); }
      else { CallReadable(s, plugin, t); }
    }
  }

  lemma ReaderReadable(s: Client, plugin: Plugin, t: Step)
    requires Readable(s, plugin) && ReaderStep(s, plugin, t).Some?
    ensures Readable(ReaderStep(s, plugin, t).value, plugin)
  {}

  // ---- A new call returns ----

  // What the peer and the reader leave of the calls.
  predicate Alike(s: Client, s': Client) {
    s'.activeID == s.activeID && |s'.calls| == |s.calls| && s'.callbacks == s.callbacks && s'.serving == s.serving
  }

  predicate TableFits(s: Client) {
    && (forall id | id in s.callbacks :: s.callbacks[id] < |s.calls|)
    && (s.reader.Offering? ==> s.reader.call < |s.calls|)
  }

  // The reader ends its turn.
  lemma ReaderEnds(s: Client, plugin: Plugin) returns (more: seq<Step>, s': Client)
    requires TableFits(s) && !s.reader.Stopped?
    ensures Then(s, plugin, more) == Some(s') && s'.reader == Ready && Alike(s, s') && TableFits(s')
    ensures s'.requests == s.requests && s'.responses == s.responses && s'.accepted == s.accepted
  {
    hide PeerStep, CallStep;
    if s.reader.Ready? {
      more, s' := [], s;
    } else if s.reader.Offering? {
      more, s' := [Offer], Next(s, plugin, Offer).value;
      assert [Offer][1..] == [];
      assert Then(s', plugin, []) == Some(s');
    } else {
      var looked := Next(s, plugin, Lookup).value;
      var rest;
      rest, s' := OfferEnds(looked, plugin);
      more := [Lookup] + rest;
      assert more[1..] == rest;
      hide Next;
    }
  }

  lemma OfferEnds(s: Client, plugin: Plugin) returns (more: seq<Step>, s': Client)
    requires TableFits(s) && (s.reader.Ready? || s.reader.Offering?)
    ensures Then(s, plugin, more) == Some(s') && s'.reader == Ready && Alike(s, s') && TableFits(s')
    ensures s'.requests == s.requests && s'.responses == s.responses && s'.accepted == s.accepted
  {
    hide PeerStep, CallStep;
    if s.reader.Ready? {
      more, s' := [], s;
    } else {
      more, s' := [Offer], Next(s, plugin, Offer).value;
      assert [Offer][1..] == [];
      assert Then(s', plugin, []) == Some(s');
    }
  }

  // The reader takes everything off its wire.
  lemma {:induction false} ReaderDrains(s: Client, plugin: Plugin) returns (more: seq<Step>, s': Client)
    requires TableFits(s) && !s.reader.Stopped?
    requires forall k | 0 <= k < |s.responses| :: plugin.codec.unmarshalResponse(s.responses[k]).Some?
    ensures Then(s, plugin, more) == Some(s') && s'.reader == Ready && Alike(s, s') && TableFits(s')
    ensures s'.requests == s.requests && s'.responses == [] && s'.accepted == s.accepted
    decreases |s.responses|
  {
    var s1;
    more, s1 := ReaderEnds(s, plugin);
    if s.responses == [] {
      s' := s1;
    } else {
      var s2 := TakesResponse(s1, plugin);
      var rest;
      rest, s' := ReaderDrains(s2, plugin);
      ThenAppend(s, plugin, more, [Read]);
      ThenAppend(s, plugin, more + [Read], rest);
      more := more + [Read] + rest;
      hide Then, Next;
    }
  }

  lemma TakesResponse(s: Client, plugin: Plugin) returns (s': Client)
    requires TableFits(s) && s.reader == Ready && s.responses != []
    requires plugin.codec.unmarshalResponse(s.responses[0]).Some?
    ensures Then(s, plugin, [Read]) == Some(s') && s'.reader.Got? && Alike(s, s') && TableFits(s')
    ensures s'.requests == s.requests && s'.responses == s.responses[1..] && s'.accepted == s.accepted
  {
    hide PeerStep, CallStep;
    s' := Next(s, plugin, Read).value;
    hide Next;
    assert Then(s', plugin, [Read][1..]) == Some(s');
  }

  // The peer takes everything off its wire.
  lemma {:induction false} PeerDrains(s: Client, plugin: Plugin) returns (more: seq<Step>, s': Client)
    requires s.serving && forall k | 0 <= k < |s.requests| :: plugin.codec.unmarshalRequest(s.requests[k]).Some?
    ensures Then(s, plugin, more) == Some(s') && Alike(s, s') && s'.requests == []
    ensures s'.reader == s.reader && s'.responses == s.responses
    decreases |s.requests|
  {
    hide ReaderStep, CallStep, Carried, Writable;
    if s.requests == [] {
      more, s' := [], s;
    } else {
      var s1 := Next(s, plugin, PeerReads).value;
      var rest;
      rest, s' := PeerDrains(s1, plugin);
      more := [PeerReads] + rest;
      assert more[1..] == rest;
      hide Next;
    }
  }

  function NewCall(j: nat, command: Bytes, payload: RequestPayload): seq<Step> {
    [Begin(command, payload), Store(j), Write(j, true)]
  }

  // A call whose request is read as `m`.
  lemma NewCallAsks(plugin: Plugin, s: Client, command: Bytes, payload: RequestPayload, m: IPCReqMessage)
      returns (s': Client)
    requires Quiet(s) && m.id == (s.activeID + 1) % TWO32
    requires var b := plugin.codec.marshalRequest(IPCReqMessage(m.id, command, payload));
      Writable(b) && plugin.codec.unmarshalRequest(Carried(b)) == Some(m)
    ensures Then(s, plugin, NewCall(|s.calls|, command, payload)) == Some(s')
    ensures Awaits(s', plugin, m, |s.calls|) && |s'.calls| == |s.calls| + 1 && s'.accepted == s.accepted
  {
    var t := NewCall(|s.calls|, command, payload);
    hide PeerStep, ReaderStep, Carried, Writable;
    var s1 := Next(s, plugin, t[0]).value;
    var s2 := Next(s1, plugin, t[1]).value;
    s' := Next(s2, plugin, t[2]).value;
    assert Awaits(s', plugin, m, |s.calls|);
    hide Next, Awaits;
    assert Then(s', plugin, t[1..][1..][1..]) == Some(s');
    assert Then(s1, plugin, t[1..]) == Some(s');
  }

  // A call when nothing is under way.
  lemma QuietCall(plugin: Plugin, s: Client, command: Bytes, payload: RequestPayload, m: IPCReqMessage)
      returns (more: seq<Step>)
    requires KeepsId(plugin) && Quiet(s) && m.id == (s.activeID + 1) % TWO32
    requires var b := plugin.codec.marshalRequest(IPCReqMessage(m.id, command, payload));
      Writable(b) && plugin.codec.unmarshalRequest(Carried(b)) == Some(m)
    requires ResponseCrosses(plugin.codec, plugin.answer(m))
    ensures more == NewCall(|s.calls|, command, payload) + Answering(|s.accepted|, |s.calls|)
    ensures Returns(Then(s, plugin, more), |s.calls|, plugin.answer(m).payload)
  {
    var s' := NewCallAsks(plugin, s, command, payload, m);
    Answered(plugin, s', m, |s.calls|);
    ThenAppend(s, plugin, NewCall(|s.calls|, command, payload), Answering(|s.accepted|, |s.calls|));
    more := NewCall(|s.calls|, command, payload) + Answering(|s.accepted|, |s.calls|);
    hide Then, Answering, NewCall, Quiet, KeepsId, Carried, Writable;
  }

  // Peer and reader can take what is under way off the wires.
  lemma Drains(s: Client, plugin: Plugin) returns (more: seq<Step>, s': Client)
    requires TableFits(s) && Readable(s, plugin)
    ensures Then(s, plugin, more) == Some(s') && Quiet(s') && Alike(s, s')
  {
    var a, b, s1;
    a, s1 := PeerDrains(s, plugin);
    TableStays(s, s1);
    b, s' := ReaderDrains(s1, plugin);
    hide Then, TableFits;
    ThenAppend(s, plugin, a, b);
    more := a + b;
  }

  // Whatever has happened, with calls given up and their answers late or never, a new call can be made
  // and returns the answer to its request, as long as the messages written so far are read as themselves.
  lemma NewCallReturns(plugin: Plugin, steps: seq<Step>, command: Bytes, payload: RequestPayload)
      returns (more: seq<Step>)
    requires Run(plugin, steps).Some? && |Run(plugin, steps).value.calls| <= TWO32 && KeepsId(plugin)
    requires Sound(Run(plugin, steps).value, plugin)
    requires Delivers(plugin, IPCReqMessage((Run(plugin, steps).value.activeID + 1) % TWO32, command, payload))
    ensures var s := Run(plugin, steps).value;
      Returns(Run(plugin, steps + more), |s.calls|,
              plugin.answer(IPCReqMessage((s.activeID + 1) % TWO32, command, payload)).payload)
  {
    hide *;
    RunReadable(plugin, steps);
    var s := Run(plugin, steps).value;
    ClientFits(s, plugin);
    var m := IPCReqMessage((s.activeID + 1) % TWO32, command, payload);
    more := CallGoesThrough(plugin, s, command, payload, m);
    ReturnsOn(plugin, steps, more, |s.calls|, plugin.answer(m).payload);
  }

  lemma CallGoesThrough(plugin: Plugin, s: Client, command: Bytes, payload: RequestPayload, m: IPCReqMessage)
      returns (more: seq<Step>)
    requires TableFits(s) && Readable(s, plugin) && KeepsId(plugin)
    requires m == IPCReqMessage((s.activeID + 1) % TWO32, command, payload) && Delivers(plugin, m)
    ensures Returns(Then(s, plugin, more), |s.calls|, plugin.answer(m).payload)
  {
    hide KeepsId, TableFits, Run, Then, Readable, Quiet, Returns, Writable, Carried;
    var a, s' := Drains(s, plugin);
    var b := QuietCall(plugin, s', command, payload, m);
    ThenAppend(s, plugin, a, b);
    more := a + b;
  }

  lemma ReturnsOn(plugin: Plugin, steps: seq<Step>, more: seq<Step>, i: nat, payload: ResponsePayload)
    requires Run(plugin, steps).Some? && Returns(Then(Run(plugin, steps).value, plugin, more), i, payload)
    ensures Returns(Run(plugin, steps + more), i, payload)
  {
    hide Run, Then;
    RunOn(plugin, steps, more);
  }

  lemma ClientFits(s: Client, plugin: Plugin)
    requires ClientOk(s, plugin)
    ensures TableFits(s)
  {
    hide CallOk, WiresOk;
  }

  lemma TableStays(s: Client, s': Client)
    requires TableFits(s) && Alike(s, s') && s'.reader == s.reader
    ensures TableFits(s')
  {}

  // An answer whose call is gone is skipped, and nothing else changes.
  lemma LateAnswer(s: Client, plugin: Plugin)
    requires s.reader.Got? && s.reader.resp.id !in s.callbacks
    ensures Next(s, plugin, Lookup) == Some(s.(reader := Ready))
  {}

  // ---- The table has only calls under way ----

  predicate UnderWay(c: Call) { c.stage.Stored? || c.stage.Waiting? || c.stage.Returning? }

  ghost predicate TableLive(s: Client) {
    forall id | id in s.callbacks ::
      var i := s.callbacks[id]; i < |s.calls| && s.calls[i].id == id && UnderWay(s.calls[i])
  }

  lemma StepLive(s: Client, plugin: Plugin, t: Step)
    requires TableLive(s) && Next(s, plugin, t).Some?
    ensures TableLive(Next(s, plugin, t).value)
  {
    hide Carried, Writable;
    if ByPeer(t) { hide CallStep, ReaderStep; }
    else if ByReader(t) { hide CallStep, PeerStep; }
    else {
      hide PeerStep, ReaderStep;
      if !t.Begin? { CallLive(s, plugin, t); }
    }
  }

  lemma CallLive(s: Client, plugin: Plugin, t: Step)
    requires TableLive(s) && CallStep(s, plugin, t).Some? && !t.Begin?
    ensures TableLive(CallStep(s, plugin, t).value)
  {
    hide Carried, Writable, TableLive, UnderWay;
    var s' := CallStep(s, plugin, t).value;
    var i := t.call;
    if !t.Delete? { StaysUnderWay(s, plugin, t); }
    OneLive(s, s', i);
  }

  lemma StaysUnderWay(s: Client, plugin: Plugin, t: Step)
    requires CallStep(s, plugin, t).Some? && !t.Begin? && !t.Delete?
    ensures var c, c' := s.calls[t.call], CallStep(s, plugin, t).value.calls[t.call];
      (UnderWay(c) || t.Store? ==> UnderWay(c'))
  {
    hide Carried, Writable;
  }

  // One call moves; the table changes under its ID only, and not to a call that is not under way.
  lemma OneLive(s: Client, s': Client, i: nat)
    requires TableLive(s) && i < |s.calls| && |s'.calls| == |s.calls| && s'.calls == s.calls[i := s'.calls[i]]
    requires s'.calls[i].id == s.calls[i].id
    requires
      || (s'.callbacks == s.callbacks && (UnderWay(s.calls[i]) ==> UnderWay(s'.calls[i])))
      || (s'.callbacks == s.callbacks[s.calls[i].id := i] && UnderWay(s'.calls[i]))
      || s'.callbacks == s.callbacks - {s.calls[i].id}
    ensures TableLive(s')
  {
    hide UnderWay;
  }

  // A call leaves the table when it returns: its callback is there only from its `Store` to its `Delete`.
  lemma {:induction false} RunLive(plugin: Plugin, steps: seq<Step>)
    requires Run(plugin, steps).Some?
    ensures TableLive(Run(plugin, steps).value)
  {
    if steps != [] {
      RunLive(plugin, steps[..|steps| - 1]);
      hide Next, TableLive;
      StepLive(Run(plugin, steps[..|steps| - 1]).value, plugin, steps[|steps| - 1]);
    }
  }

  // How a call that has its ID can end without an answer, at any time.
  function Ending(s: Client, i: nat): seq<Step>
    requires i < |s.calls|
  {
    match s.calls[i].stage
    case Claimed => [Store(i), Write(i, false), Delete(i)]
    case Stored => [Write(i, false), Delete(i)]
    case Waiting => [GiveUp(i), Delete(i)]
    case Returning(_) => [Delete(i)]
    case Returned(_) => []
  }

  // A call whose write fails, that is cancelled or that times out returns, with an error, and leaves the
  // table; nothing else changes.
  lemma {:induction false} CallEnds(plugin: Plugin, s: Client, i: nat)
    requires i < |s.calls|
    ensures var c, r := s.calls[i], Then(s, plugin, Ending(s, i));
      && r.Some?
      && r.value.calls == s.calls[i := c.(stage := Returned(
           if c.stage.Waiting? then GaveUp
           else if c.stage.Returning? || c.stage.Returned? then c.stage.outcome else WriteFailed))]
      && (!c.stage.Returned? ==> r.value == s.(calls := r.value.calls, callbacks := s.callbacks - {c.id}))
    decreases |Ending(s, i)|
  {
    hide PeerStep, ReaderStep, Carried, Writable;
    var t := Ending(s, i);
    if t != [] {
      var s' := Next(s, plugin, t[0]).value;
      assert Ending(s', i) == t[1..];
      CallEnds(plugin, s', i);
      assert s'.callbacks - {s.calls[i].id} == s.callbacks - {s.calls[i].id};
    }
  }

  // ---- With MessagePack ----

  // If a request or an answer is written, it fits into its frame.
  predicate Fits(s: Client, plugin: Plugin) {
    forall i | 0 <= i < |s.calls| && Wrote(s.calls[i]) ::
      && FitsIfWritten(RequestBytes(Request(s.calls[i])))
      && FitsIfWritten(ResponseBytes(plugin.answer(Request(s.calls[i]))))
  }

  predicate FitsIfWritten(b: Bytes) { Writable(b) ==> |b| <= TWO32 - 13 }

  lemma FitsIsIntact(s: Client, plugin: Plugin)
    requires plugin.codec == MSGPACK && Fits(s, plugin)
    ensures Intact(s, plugin)
  {
    hide RequestBytes, ResponseBytes, RequestOf, ResponseOf, Writable, Carried, Wrote, Request;
    forall m | FitsIfWritten(RequestBytes(m)) ensures RequestKept(MSGPACK, m) {
      if Writable(RequestBytes(m)) { RequestExactly(m); }
    }
    forall m | FitsIfWritten(ResponseBytes(m)) ensures ResponseKept(MSGPACK, m) {
      if Writable(ResponseBytes(m)) { ResponseExactly(m); }
    }
  }

  // So with MessagePack the size of the encodings is what matters.
  lemma FittingCorrelation(plugin: Plugin, steps: seq<Step>, i: nat)
    requires Run(plugin, steps).Some? && |Run(plugin, steps).value.calls| <= TWO32 && KeepsId(plugin)
    requires plugin.codec == MSGPACK && Fits(Run(plugin, steps).value, plugin)
    requires i < |Run(plugin, steps).value.calls|
    ensures var c := Run(plugin, steps).value.calls[i];
      (c.stage.Returning? || c.stage.Returned?) && c.stage.outcome.Answer? ==>
        c.stage.outcome.payload == plugin.answer(IPCReqMessage(c.id, c.command, c.payload)).payload
  {
    hide Run, Intact, Fits;
    FitsIsIntact(Run(plugin, steps).value, plugin);
    Correlation(plugin, steps, i);
  }

  // ---- A request that is read as another ----

  // The one call ever made.
  function OneCall(command: Bytes, payload: RequestPayload): seq<Step> {
    NewCall(0, command, payload) + Answering(0, 0)
  }

  // A call whose request is read as another one returns the answer to that.
  lemma MisreadCall(plugin: Plugin, command: Bytes, payload: RequestPayload, m: IPCReqMessage)
    requires KeepsId(plugin)
    requires var b := plugin.codec.marshalRequest(IPCReqMessage(1, command, payload));
      m.id == 1 && Writable(b) && plugin.codec.unmarshalRequest(Carried(b)) == Some(m)
    requires ResponseCrosses(plugin.codec, plugin.answer(m))
    ensures Returns(Run(plugin, OneCall(command, payload)), 0, plugin.answer(m).payload)
  {
    assert Run(plugin, []) == Some(NEW_CLIENT) && Quiet(NEW_CLIENT);
    hide Run, Then, Answering, NewCall, Carried, Writable, KeepsId;
    var steps := QuietCall(plugin, NEW_CLIENT, command, payload, m);
    RunOn(plugin, [], steps);
    assert [] + steps == steps;
  }

  // With a command of 2^32 bytes or more a call may return the answer to a request that was never made.
  lemma AnotherAnswer(plugin: Plugin, c: Bytes, p: RequestPayload, q: RequestPayload)
    requires plugin.codec == MSGPACK && KeepsId(plugin)
    requires |c| + |PayloadBytes(q)| <= TWO32 - 47 && |PayloadBytes(p)| == |PayloadBytes(q)|
    requires |ResponseBytes(plugin.answer(IPCReqMessage(1, c, q)))| <= TWO32 - 13
    ensures Returns(Run(plugin, OneCall(LongCommand(c, q), p)), 0,
                    plugin.answer(IPCReqMessage(1, c, q)).payload)
  {
    hide Run, RequestBytes, ResponseBytes, PayloadBytes, RequestOf, ResponseOf, LongCommand, OneCall;
    var m := IPCReqMessage(1, c, q);
    ReadAsAnother(1, c, p, q);
    ResponseExactly(plugin.answer(m));
    MisreadCall(plugin, LongCommand(c, q), p, m);
  }

  // ---- With the plugin's serving loop as the peer ----

  datatype Config = Config(messagePrefix: Bytes, nodeID: Bytes)

  // "SUCCESS"
  const SUCCESS: Bytes := [0x53, 0x55, 0x43, 0x43, 0x45, 0x53, 0x53]

  // What the plugin answers: the ID and the command come back, the message names the task.
  function Reply(cfg: Config, req: IPCReqMessage): IPCRespMessage {
    IPCRespMessage(req.id, req.command, ResponsePayload(200,
      TaskResult(cfg.messagePrefix + req.payload.taskName, ExtraResult(cfg.nodeID, SUCCESS))))
  }

  // A reply goes out under the ID and the command of its request.
  lemma ReplyEchoes(cfg: Config, req: IPCReqMessage)
    ensures var r := Reply(cfg, req);
      && r.id == req.id && r.command == req.command && r.payload.code == 200
      && r.payload.result.message == cfg.messagePrefix + req.payload.taskName
      && r.payload.result.extra == ExtraResult(cfg.nodeID, [0x53, 0x55, 0x43, 0x43, 0x45, 0x53, 0x53])
  {}

  function Serving(cfg: Config): Plugin { Plugin(MSGPACK, req => Reply(cfg, req)) }

  // A call that returns a result returns the prefix and the name of the task it asked for.
  lemma MessageNamesTask(cfg: Config, steps: seq<Step>, i: nat)
    requires Run(Serving(cfg), steps).Some? && Fits(Run(Serving(cfg), steps).value, Serving(cfg))
    requires |Run(Serving(cfg), steps).value.calls| <= TWO32 && i < |Run(Serving(cfg), steps).value.calls|
    ensures var c := Run(Serving(cfg), steps).value.calls[i];
      (c.stage.Returning? || c.stage.Returned?) && c.stage.outcome.Answer? ==>
        c.stage.outcome.payload.result.message == cfg.messagePrefix + c.payload.taskName
  {
    FittingCorrelation(Serving(cfg), steps, i);
    hide Run, Fits;
  }

  // With a longer command it may return the name of another task.
  lemma MessageNamesAnother(cfg: Config, c: Bytes, p: RequestPayload, q: RequestPayload)
    requires |c| + |PayloadBytes(q)| <= TWO32 - 47 && |PayloadBytes(p)| == |PayloadBytes(q)|
    requires |ResponseBytes(Reply(cfg, IPCReqMessage(1, c, q)))| <= TWO32 - 13
    ensures Returns(Run(Serving(cfg), OneCall(LongCommand(c, q), p)), 0,
                    ResponsePayload(200, TaskResult(cfg.messagePrefix + q.taskName, ExtraResult(cfg.nodeID, SUCCESS))))
  {
    AnotherAnswer(Serving(cfg), c, p, q);
    hide Run;
  }

  // ---- The client as an object ----

  // A channel of capacity one.
  class Channel {
    var slot: Option<ResponsePayload>

    constructor ()
      ensures slot == None
    {
      slot := None;
    }

    // `select { case ch <- p: default: }`
    method TrySend(p: ResponsePayload)
      modifies this
      ensures slot == if old(slot).None? then Some(p) else old(slot)
    {
      if slot.None? { slot := Some(p); }
    }
  }

  lemma DeleteIs(s: Client, plugin: Plugin, i: nat)
    requires i < |s.calls| && s.calls[i].stage.Returning?
    ensures CallStep(s, plugin, Delete(i))
         == Some(At(s, i, Returned(s.calls[i].stage.outcome)).(callbacks := s.callbacks - {s.calls[i].id}))
  {}

  // The counter and the table of `ipcClient`. `state` is the state of the calls, the reader and the
  // peer above; every method is one step of it.
  class IpcClient {
    var activeID: uint32
    var callbacks: map<uint32, Channel>
    ghost var channels: seq<Channel>
    ghost var state: Client
    ghost const plugin: Plugin

    ghost predicate Valid()
      reads this, channels
    {
      && activeID == state.activeID
      && |channels| == |state.calls|
      && (forall i, j | 0 <= i < j < |channels| :: channels[i] != channels[j])
      && (forall i | 0 <= i < |channels| :: channels[i].slot == state.calls[i].channel)
      && callbacks.Keys == state.callbacks.Keys
      && (forall id | id in callbacks ::
           state.callbacks[id] < |channels| && callbacks[id] == channels[state.callbacks[id]])
    }

    constructor (ghost plugin: Plugin)
      ensures Valid() && state == NEW_CLIENT && this.plugin == plugin
    {
      this.plugin := plugin;
      activeID, callbacks := 0, map[];
      channels, state := [], NEW_CLIENT;
    }

    method NextID(command: Bytes, payload: RequestPayload) returns (reqID: uint32, ch: Channel)
      requires Valid()
      modifies this
      ensures Valid() && CallStep(old(state), plugin, Begin(command, payload)) == Some(state)
      ensures fresh(ch) && channels == old(channels) + [ch] && reqID == state.calls[|old(state).calls|].id
      ensures reqID == (old(activeID) + 1) % 0x1_0000_0000 && activeID == reqID && ch.slot == None
      ensures callbacks == old(callbacks)
    {
      activeID := (activeID + 1) % TWO32;
      reqID := activeID;
      ch := new Channel();
      channels := channels + [ch];
      state := CallStep(state, plugin, Begin(command, payload)).value;
    }

    method Store(reqID: uint32, ch: Channel, ghost call: nat)
      requires Valid() && Is(state, call, Claimed) && ch == channels[call] && reqID == state.calls[call].id
      modifies this
      ensures Valid() && channels == old(channels) && CallStep(old(state), plugin, Step.Store(call)) == Some(state)
      ensures callbacks == old(callbacks)[reqID := ch] && activeID == old(activeID)
    {
      callbacks := callbacks[reqID := ch];
      state := CallStep(state, plugin, Step.Store(call)).value;
    }

    method Delete(reqID: uint32, ghost call: nat)
      requires Valid() && call < |state.calls| && state.calls[call].stage.Returning? && reqID == state.calls[call].id
      modifies this
      ensures Valid() && channels == old(channels) && CallStep(old(state), plugin, Step.Delete(call)) == Some(state)
      ensures callbacks == old(callbacks) - {reqID} && activeID == old(activeID)
    {
      DeleteIs(state, plugin, call);
      hide CallStep;
      callbacks := callbacks - {reqID};
      state := CallStep(state, plugin, Step.Delete(call)).value;
      assert state.callbacks == old(state.callbacks) - {reqID};
      assert callbacks.Keys == old(callbacks.Keys) - {reqID} == state.callbacks.Keys;
    }

    // The case of the waiting select in which the result is ready.
    method Receive(ch: Channel, ghost call: nat) returns (result: ResponsePayload)
      requires Valid() && Is(state, call, Waiting) && ch == channels[call] && ch.slot.Some?
      modifies this, ch
      ensures Valid() && channels == old(channels) && CallStep(old(state), plugin, Step.Receive(call)) == Some(state)
      ensures state.calls[call].stage == Returning(Answer(result))
      ensures Some(result) == old(ch.slot) && ch.slot == None && callbacks == old(callbacks)
    {
      result := ch.slot.value;
      ch.slot := None;
      state := CallStep(state, plugin, Step.Receive(call)).value;
    }

    // The reader's lookup.
    method Load(resp: IPCRespMessage) returns (ch: Option<Channel>)
      requires Valid() && state.reader == Got(resp)
      modifies this
      ensures Valid() && channels == old(channels) && ReaderStep(old(state), plugin, Lookup) == Some(state)
      ensures ch.Some? <==> state.reader.Offering?
      ensures ch.Some? ==>
          state.reader.call < |channels| && ch.value == channels[state.reader.call]
              && state.reader.payload == resp.payload
      ensures ch == if resp.id in callbacks then Some(callbacks[resp.id]) else None
      ensures ch.None? ==> state == old(state).(reader := Ready)
      ensures callbacks == old(callbacks) && activeID == old(activeID)
    {
      ch := if resp.id in callbacks then Some(callbacks[resp.id]) else None;
      state := ReaderStep(state, plugin, Lookup).value;
    }

    // The reader's offer.
    method Send(ch: Channel, p: ResponsePayload)
      requires Valid() && state.reader.Offering? && state.reader.payload == p
      requires state.reader.call < |channels| && ch == channels[state.reader.call]
      modifies this, ch
      ensures Valid() && channels == old(channels) && ReaderStep(old(state), plugin, Offer) == Some(state)
      ensures ch.slot == (if old(ch.slot).None? then Some(p) else old(ch.slot)) && state.reader == Ready
      ensures callbacks == old(callbacks) && activeID == old(activeID)
    {
      ch.TrySend(p);
      state := ReaderStep(state, plugin, Offer).value;
    }
  }
}
