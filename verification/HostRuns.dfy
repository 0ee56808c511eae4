/**
 The host's client over whole runs: its two wires are queues that lose and reorder nothing, every request
 the peer has read is answered or dropped once, and how a call ends is told by the steps of that call alone.
 */
module HostRuns {
  import opened Bytes
  import opened Options
  import opened Messages
  import opened Frames
  import opened HostCodec
  import opened HostClient

  // ---- The wires ----

  // What a step puts on the wire to the peer, what on the wire back, and which request it takes from those
  // that the peer has read.
  function Asking(plugin: Plugin, s: Client, t: Step): seq<Bytes> {
    if t.Write? && t.ok && t.call < |s.calls| then [Carried(plugin.codec.marshalRequest(Request(s.calls[t.call])))]
    else []
  }

  function Replying(plugin: Plugin, s: Client, t: Step): seq<Bytes> {
    if t.PeerAnswers? && t.k < |s.accepted| then
      [Carried(plugin.codec.marshalResponse(plugin.answer(s.accepted[t.k])))]
    else []
  }

  function Settling(s: Client, t: Step): multiset<IPCReqMessage> {
    if (t.PeerAnswers? || t.PeerDrops?) && t.k < |s.accepted| then multiset{s.accepted[t.k]} else multiset{}
  }

  function AllAsked(plugin: Plugin, steps: seq<Step>): seq<Bytes>
    requires Run(plugin, steps).Some?
  {
    if steps == [] then []
    else
      var before := steps[..|steps| - 1];
      AllAsked(plugin, before) + Asking(plugin, Run(plugin, before).value, steps[|steps| - 1])
  }

  function AllReplied(plugin: Plugin, steps: seq<Step>): seq<Bytes>
    requires Run(plugin, steps).Some?
  {
    if steps == [] then []
    else
      var before := steps[..|steps| - 1];
      AllReplied(plugin, before) + Replying(plugin, Run(plugin, before).value, steps[|steps| - 1])
  }

  function AllSettled(plugin: Plugin, steps: seq<Step>): multiset<IPCReqMessage>
    requires Run(plugin, steps).Some?
  {
    if steps == [] then multiset{}
    else
      var before := steps[..|steps| - 1];
      AllSettled(plugin, before) + Settling(Run(plugin, before).value, steps[|steps| - 1])
  }

  function Count(steps: seq<Step>, t: Step): nat {
    if steps == [] then 0 else Count(steps[..|steps| - 1], t) + if steps[|steps| - 1] == t then 1 else 0
  }

  // The requests that can be read among these payloads.
  function Understood(plugin: Plugin, bs: seq<Bytes>): seq<IPCReqMessage> {
    if bs == [] then []
    else
      var r := plugin.codec.unmarshalRequest(bs[|bs| - 1]);
      Understood(plugin, bs[..|bs| - 1]) + if r.Some? then [r.value] else []
  }

  // One wire after a step that puts these payloads on it, or takes one off.
  predicate Flows(wire: seq<Bytes>, wire': seq<Bytes>, put: seq<Bytes>, takes: bool) {
    if takes then wire != [] && wire' == wire[1..] && put == [] else wire' == wire + put
  }

  lemma CallFlows(s: Client, plugin: Plugin, t: Step)
    requires !ByPeer(t) && !ByReader(t) && CallStep(s, plugin, t).Some?
    ensures var s' := CallStep(s, plugin, t).value;
      && Flows(s.requests, s'.requests, Asking(plugin, s, t), false) && Replying(plugin, s, t) == []
      && s'.responses == s.responses && s'.accepted == s.accepted && Settling(s, t) == multiset{}
  {
    hide Carried, Writable;
  }

  lemma PeerFlows(s: Client, plugin: Plugin, t: Step)
    requires ByPeer(t) && PeerStep(s, plugin, t).Some?
    ensures var s' := PeerStep(s, plugin, t).value;
      && Flows(s.requests, s'.requests, [], t.PeerReads?) && Asking(plugin, s, t) == []
      && Flows(s.responses, s'.responses, Replying(plugin, s, t), false)
      && multiset(s'.accepted) + Settling(s, t)
         == multiset(s.accepted)
            + (if t.PeerReads? then multiset(Understood(plugin, s.requests[..1])) else multiset{})
  {
    hide PeerStep, Understood;
    if t.PeerReads? { ReadFlows(s, plugin); } else { SettledFlows(s, plugin, t); }
  }

  lemma ReadFlows(s: Client, plugin: Plugin)
    requires PeerStep(s, plugin, PeerReads).Some?
    ensures var s' := PeerStep(s, plugin, PeerReads).value;
      && s.requests != [] && s'.requests == s.requests[1..] && s'.responses == s.responses
      && multiset(s'.accepted) == multiset(s.accepted) + multiset(Understood(plugin, s.requests[..1]))
  {
    FirstUnderstood(plugin, s.requests);
    var first := Understood(plugin, s.requests[..1]);
    hide Understood;
    assert PeerStep(s, plugin, PeerReads).value.accepted == s.accepted + first;
    hide PeerStep;
  }

  lemma SettledFlows(s: Client, plugin: Plugin, t: Step)
    requires (t.PeerAnswers? || t.PeerDrops?) && PeerStep(s, plugin, t).Some?
    ensures var s' := PeerStep(s, plugin, t).value;
      && s'.requests == s.requests && s'.responses == s.responses + Replying(plugin, s, t)
      && multiset(s'.accepted) + Settling(s, t) == multiset(s.accepted)
  {
    hide Carried, Writable;
    var s', left := PeerStep(s, plugin, t).value, s.accepted[..t.k] + s.accepted[t.k + 1..];
    assert s'.accepted == left && s'.requests == s.requests && s'.responses == s.responses + Replying(plugin, s, t);
    assert Settling(s, t) == multiset{s.accepted[t.k]};
    hide PeerStep, Settling, Replying;
    TakenOut(s.accepted, t.k);
  }

  lemma FirstUnderstood(plugin: Plugin, bs: seq<Bytes>)
    requires bs != []
    ensures var r := plugin.codec.unmarshalRequest(bs[0]);
      Understood(plugin, bs[..1]) == if r.Some? then [r.value] else []
  {
    assert bs[..1] == [bs[0]] && bs[..1][..0] == [];
    assert Understood(plugin, bs[..1][..0]) == [];
  }

  lemma TakenOut<T>(xs: seq<T>, k: nat)
    requires k < |xs|
    ensures multiset(xs[..k] + xs[k + 1..]) + multiset{xs[k]} == multiset(xs)
  {
    assert xs == xs[..k] + [xs[k]] + xs[k + 1..];
  }

  lemma ReaderFlows(s: Client, plugin: Plugin, t: Step)
    requires ByReader(t) && ReaderStep(s, plugin, t).Some?
    ensures var s' := ReaderStep(s, plugin, t).value;
      && s'.requests == s.requests && s'.accepted == s.accepted && Settling(s, t) == multiset{}
      && Flows(s.responses, s'.responses, [], t.Read?) && Asking(plugin, s, t) == [] && Replying(plugin, s, t) == []
  {}

  lemma UnderstoodMore(plugin: Plugin, bs: seq<Bytes>, b: Bytes)
    ensures Understood(plugin, bs + [b]) == Understood(plugin, bs) + Understood(plugin, [b])
  {
    assert (bs + [b])[..|bs|] == bs;
    assert [b][..0] == [] && Understood(plugin, [b][..0]) == [];
  }

  // Each step, for both wires and for what the peer has read.
  lemma StepFlows(s: Client, plugin: Plugin, t: Step)
    requires Next(s, plugin, t).Some?
    ensures var s' := Next(s, plugin, t).value;
      && Flows(s.requests, s'.requests, Asking(plugin, s, t), t.PeerReads?)
      && Flows(s.responses, s'.responses, Replying(plugin, s, t), t.Read?)
      && multiset(s'.accepted) + Settling(s, t)
         == multiset(s.accepted)
            + (if t.PeerReads? then multiset(Understood(plugin, s.requests[..1])) else multiset{})
  {
    hide CallStep, PeerStep, ReaderStep, Asking, Replying, Settling, Understood;
    if ByPeer(t) { PeerFlows(s, plugin, t); }
    else if ByReader(t) { ReaderFlows(s, plugin, t); }
    else { CallFlows(s, plugin, t); }
  }

  // A wire that is what was put on it without as much of its beginning as was taken.
  predicate Queue(wire: seq<Bytes>, put: seq<Bytes>, taken: nat) { taken <= |put| && wire == put[taken..] }

  lemma QueueStep(wire: seq<Bytes>, wire': seq<Bytes>, put: seq<Bytes>, more: seq<Bytes>, taken: nat, takes: bool)
    requires Queue(wire, put, taken) && Flows(wire, wire', more, takes)
    ensures Queue(wire', put + more, if takes then taken + 1 else taken)
    ensures takes ==> taken < |put| && more == [] && wire[..1] == [put[taken]]
  {}

  // Over every run: what is on a wire is what was put on it, in order, without as much of its beginning as
  // was read.
  lemma {:induction false} WiresAreQueues(plugin: Plugin, steps: seq<Step>)
    requires Run(plugin, steps).Some?
    ensures Queue(Run(plugin, steps).value.requests, AllAsked(plugin, steps), Count(steps, PeerReads))
    ensures Queue(Run(plugin, steps).value.responses, AllReplied(plugin, steps), Count(steps, Read))
  {
    hide Next, Asking, Replying, Settling, Understood, Queue, Flows;
    if steps == [] {
      EmptyQueue();
    } else {
      var before, t := steps[..|steps| - 1], steps[|steps| - 1];
      var s, s' := Run(plugin, before).value, Run(plugin, steps).value;
      WiresAreQueues(plugin, before);
      StepFlows(s, plugin, t);
      QueueStep(s.requests, s'.requests, AllAsked(plugin, before), Asking(plugin, s, t), Count(before, PeerReads),
                t.PeerReads?);
      QueueStep(s.responses, s'.responses, AllReplied(plugin, before), Replying(plugin, s, t), Count(before, Read),
                t.Read?);
    }
  }

  lemma EmptyQueue()
    ensures Queue([], [], 0)
  {}

  // What the peer has read and understood, from its steps.
  function Taking(plugin: Plugin, s: Client, t: Step): multiset<IPCReqMessage> {
    if t.PeerReads? then multiset(Understood(plugin, s.requests[..if s.requests == [] then 0 else 1])) else multiset{}
  }

  function AllTaken(plugin: Plugin, steps: seq<Step>): multiset<IPCReqMessage>
    requires Run(plugin, steps).Some?
  {
    if steps == [] then multiset{}
    else
      var before := steps[..|steps| - 1];
      AllTaken(plugin, before) + Taking(plugin, Run(plugin, before).value, steps[|steps| - 1])
  }

  lemma {:induction false} TakenIsSettled(plugin: Plugin, steps: seq<Step>)
    requires Run(plugin, steps).Some?
    ensures multiset(Run(plugin, steps).value.accepted) + AllSettled(plugin, steps) == AllTaken(plugin, steps)
  {
    hide Next, Settling, Understood;
    if steps != [] {
      var before, t := steps[..|steps| - 1], steps[|steps| - 1];
      var s := Run(plugin, before).value;
      TakenIsSettled(plugin, before);
      StepFlows(s, plugin, t);
      Exchange(multiset(s.accepted), multiset(Run(plugin, steps).value.accepted), Settling(s, t), Taking(plugin, s, t),
               AllSettled(plugin, before));
    }
  }

  lemma Exchange<T>(was: multiset<T>, now: multiset<T>, less: multiset<T>, more: multiset<T>, rest: multiset<T>)
    requires now + less == was + more
    ensures now + (rest + less) == (was + rest) + more
  {
    assert now + (rest + less) == (now + less) + rest;
  }

  lemma {:induction false} TakenIsUnderstood(plugin: Plugin, steps: seq<Step>)
    requires Run(plugin, steps).Some?
    ensures Count(steps, PeerReads) <= |AllAsked(plugin, steps)|
    ensures AllTaken(plugin, steps)
         == multiset(Understood(plugin, AllAsked(plugin, steps)[..Count(steps, PeerReads)]))
  {
    WiresAreQueues(plugin, steps);
    if steps != [] {
      var before, t := steps[..|steps| - 1], steps[|steps| - 1];
      var s := Run(plugin, before).value;
      TakenIsUnderstood(plugin, before);
      WiresAreQueues(plugin, before);
      StepFlows(s, plugin, t);
      QueueStep(s.requests, Run(plugin, steps).value.requests, AllAsked(plugin, before), Asking(plugin, s, t),
                Count(before, PeerReads), t.PeerReads?);
      hide Next, Asking, Replying, Settling, Understood, Flows;
      TakenMore(plugin, AllAsked(plugin, before), Asking(plugin, s, t), Count(before, PeerReads));
    }
  }

  lemma TakenMore(plugin: Plugin, asked: seq<Bytes>, more: seq<Bytes>, read: nat)
    requires read <= |asked|
    ensures (asked + more)[..read] == asked[..read]
    ensures read < |asked| && more == [] ==>
        multiset(Understood(plugin, (asked + more)[..read + 1]))
        == multiset(Understood(plugin, asked[..read])) + multiset(Understood(plugin, [asked[read]]))
  {
    if read < |asked| && more == [] {
      assert (asked + more)[..read + 1] == asked[..read] + [asked[read]];
      UnderstoodMore(plugin, asked[..read], asked[read]);
    }
  }

  // And the requests that were read and understood are those answered or dropped, each once, and those
  // that the peer still has.
  lemma AnsweredOnce(plugin: Plugin, steps: seq<Step>)
    requires Run(plugin, steps).Some?
    ensures var asked, read := AllAsked(plugin, steps), Count(steps, PeerReads);
      && read <= |asked|
      && multiset(Run(plugin, steps).value.accepted) + AllSettled(plugin, steps)
         == multiset(Understood(plugin, asked[..read]))
  {
    TakenIsSettled(plugin, steps);
    TakenIsUnderstood(plugin, steps);
  }

  // ---- How a call ends ----

  function StageOf(s: Client, i: nat): Option<Stage> { if i < |s.calls| then Some(s.calls[i].stage) else None }

  function OutcomeOf(stage: Option<Stage>): Option<Outcome> {
    if stage.Some? && (stage.value.Returning? || stage.value.Returned?) then Some(stage.value.outcome) else None
  }

  // The i-th call, by the steps that name it: it waits, or was answered or given up, only after its request
  // was written, it was answered if and only if it received, it failed if and only if its write did, and
  // it is over if and only if its entry was deleted.
  ghost predicate ToldBy(steps: seq<Step>, i: nat, stage: Option<Stage>) {
    var o := OutcomeOf(stage);
    && (Store(i) in steps <==> stage.Some? && !stage.value.Claimed?)
    && (Write(i, true) in steps <==> stage == Some(Waiting) || (o.Some? && !o.value.WriteFailed?))
    && (Write(i, false) in steps <==> o == Some(WriteFailed))
    && (Receive(i) in steps <==> o.Some? && o.value.Answer?)
    && (GiveUp(i) in steps <==> o == Some(GaveUp))
    && (Delete(i) in steps <==> stage.Some? && stage.value.Returned?)
  }

  lemma OthersKeepStages(s: Client, plugin: Plugin, t: Step, i: nat)
    requires (ByPeer(t) || ByReader(t)) && Next(s, plugin, t).Some?
    ensures StageOf(Next(s, plugin, t).value, i) == StageOf(s, i)
  {
    hide Carried, Writable;
  }

  predicate Names(t: Step, i: nat) {
    (t.Store? || t.Write? || t.Receive? || t.GiveUp? || t.Delete?) && t.call == i
  }

  lemma UnnamedKeepsStage(s: Client, plugin: Plugin, t: Step, i: nat)
    requires CallStep(s, plugin, t).Some? && !Names(t, i)
    ensures var now := StageOf(CallStep(s, plugin, t).value, i);
      now == StageOf(s, i) || (StageOf(s, i) == None && now == Some(Claimed))
  {
    hide Carried, Writable;
  }

  lemma NamedChangesStage(s: Client, plugin: Plugin, t: Step, i: nat)
    requires CallStep(s, plugin, t).Some? && Names(t, i)
    ensures var was, now := StageOf(s, i), StageOf(CallStep(s, plugin, t).value, i);
      Changes(t, was, now)
  {
    hide Carried, Writable;
  }

  // What a step that names the call does to its stage.
  predicate Changes(t: Step, was: Option<Stage>, now: Option<Stage>) {
    && was.Some? && now.Some?
    && match t
       case Store(_) => was == Some(Claimed) && now == Some(Stored)
       case Write(_, ok) => was == Some(Stored) && now == Some(if ok then Waiting else Returning(WriteFailed))
       case Receive(_) => was == Some(Waiting) && now.value.Returning? && now.value.outcome.Answer?
       case GiveUp(_) => was == Some(Waiting) && now == Some(Returning(GaveUp))
       case Delete(_) => was.value.Returning? && now == Some(Returned(was.value.outcome))
       case _ => true
  }

  lemma ToldWithout(before: seq<Step>, t: Step, i: nat, was: Option<Stage>, now: Option<Stage>)
    requires ToldBy(before, i, was) && !Names(t, i) && (now == was || (was == None && now == Some(Claimed)))
    ensures ToldBy(before + [t], i, now)
  {}

  lemma ToldWith(before: seq<Step>, t: Step, i: nat, was: Option<Stage>, now: Option<Stage>)
    requires ToldBy(before, i, was) && Names(t, i) && Changes(t, was, now)
    ensures ToldBy(before + [t], i, now)
  {}

  lemma StepTells(s: Client, plugin: Plugin, t: Step, before: seq<Step>, i: nat)
    requires Next(s, plugin, t).Some? && ToldBy(before, i, StageOf(s, i))
    ensures ToldBy(before + [t], i, StageOf(Next(s, plugin, t).value, i))
  {
    var s' := Next(s, plugin, t).value;
    hide CallStep, PeerStep, ReaderStep, StageOf, ToldBy, Changes;
    if Names(t, i) {
      NamedChangesStage(s, plugin, t, i);
      ToldWith(before, t, i, StageOf(s, i), StageOf(s', i));
    } else {
      if ByPeer(t) || ByReader(t) { OthersKeepStages(s, plugin, t, i); } else { UnnamedKeepsStage(s, plugin, t, i); }
      ToldWithout(before, t, i, StageOf(s, i), StageOf(s', i));
    }
  }

  lemma NothingTold(i: nat)
    ensures ToldBy([], i, StageOf(NEW_CLIENT, i))
  {}

  // Over every run.
  lemma {:induction false} EndsAsTold(plugin: Plugin, steps: seq<Step>, i: nat)
    requires Run(plugin, steps).Some?
    ensures ToldBy(steps, i, StageOf(Run(plugin, steps).value, i))
  {
    hide ToldBy, StageOf, Next;
    if steps == [] {
      NothingTold(i);
    } else {
      var before, t := steps[..|steps| - 1], steps[|steps| - 1];
      EndsAsTold(plugin, before, i);
      StepTells(Run(plugin, before).value, plugin, t, before, i);
      assert steps == before + [t];
    }
  }
}
