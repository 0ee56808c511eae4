/**
 The byte channel under a connection: reads that return any positive number of bytes, the loops that
 read exact amounts over them, the buffers that the writers fill, and the lock that keeps frames whole.
 */
module Transport {
  import opened Bytes
  import opened Frames
  import opened Options
  import opened RawMessages

  // ---- Reading ----

  datatype Fill = Full | Nothing | Partial

  // The reading end of a channel: the bytes that are still to come.
  class Link {
    var ahead: Bytes

    constructor (bytes: Bytes)
      ensures ahead == bytes
    {
      ahead := bytes;
    }

    // One read: any positive number of bytes that fit, or none at the end of the channel.
    method Read(buf: array<byte>, from: nat) returns (n: nat)
      requires from < buf.Length
      modifies this, buf
      ensures n <= |old(ahead)| && n <= buf.Length - from && (n == 0 <==> old(ahead) == [])
      ensures ahead == old(ahead)[n..]
      ensures buf[..] == old(buf[..from]) + old(ahead)[..n] + old(buf[from + n..])
    {
      if ahead == [] { return 0; }
      var most := if |ahead| < buf.Length - from then |ahead| else buf.Length - from;
      var k: nat :| 1 <= k <= most;
      n := k;
      ghost var before := buf[..];
      forall i | 0 <= i < n { buf[from + i] := ahead[i]; }
      assert buf[..] == before[..from] + ahead[..n] + before[from + n..];
      ahead := ahead[n..];
    }

    // Fills the whole buffer, however the bytes arrive.
    method ReadFull(buf: array<byte>) returns (fill: Fill)
      modifies this, buf
      ensures fill.Full? <==> buf.Length <= |old(ahead)|
      ensures fill.Nothing? <==> buf.Length > 0 && old(ahead) == []
      ensures fill.Full? ==> buf[..] == old(ahead)[..buf.Length] && ahead == old(ahead)[buf.Length..]
      ensures !fill.Full? ==> ahead == []
    {
      var n := 0;
      while n < buf.Length
        invariant n <= buf.Length && n <= |old(ahead)|
        invariant buf[..n] == old(ahead)[..n]
        invariant ahead == old(ahead)[n..]
      {
        ghost var filled, rest := buf[..n], ahead;
        var k := Read(buf, n);
        if k == 0 {
          return if n == 0 then Nothing else Partial;
        }
        assert buf[..n + k] == filled + rest[..k] == old(ahead)[..n + k];
        n := n + k;
      }
      assert buf[..] == buf[..buf.Length];
      return Full;
    }

    // The read loop's part for one frame: a header, then its payload.
    method ReadFrame() returns (p: Parse)
      modifies this
      ensures p == ParseFrame(old(ahead))
      ensures ahead == if p.Parsed? then p.rest else []
    {
      var header := new byte[12];
      var fill := ReadFull(header);
      if !fill.Full? {
        return if fill.Nothing? then Ended else HeaderCut;
      }
      ghost var w := old(ahead);
      HeaderFields(header, w);
      var length, id, flags := GetUint32(header, 0), GetUint32(header, 4), GetUint32(header, 8);
      var payload := new byte[length];
      if length > 0 {
        fill := ReadFull(payload);
        if !fill.Full? { return PayloadCut; }
      }
      return Parsed(Frame(id, flags, payload[..]), ahead);
    }

    // `ReadData` while no read loop runs.
    method ReadData() returns (r: ReadResult)
      modifies this
      ensures (r, ahead) == SyncRead(old(ahead))
      ensures match ParseFrame(old(ahead))
              case Parsed(f, rest) =>
                && ahead == rest
                && r == (if f.id != 0 then StreamFrame(f.id) else if IsError(f) then ErrorFrame(f.payload)
                         else Data(f.payload))
              case PayloadCut =>
                var id := Uint32(old(ahead)[4..8]);
                ahead == [] && r == (if id != 0 then StreamFrame(id) else LinkError)
              case _ => ahead == [] && r == LinkError
    {
      var header := new byte[12];
      var fill := ReadFull(header);
      if !fill.Full? { return LinkError; }
      HeaderFields(header, old(ahead));
      var length, id, flags := GetUint32(header, 0), GetUint32(header, 4), GetUint32(header, 8);
      if id != 0 {
        if length > 0 {
          var discard := new byte[length];
          fill := ReadFull(discard);
        }
        return StreamFrame(id);
      }
      var payload := new byte[length];
      if length > 0 {
        fill := ReadFull(payload);
        if !fill.Full? { return LinkError; }
      }
      assert payload[..] == old(ahead)[12..12 + length];
      if IsError(Frame(id, flags, payload[..])) { return ErrorFrame(payload[..]); }
      return Data(payload[..]);
    }

    // Every frame up to the first error, as the read loop takes them.
    method ReadAll() returns (frames: seq<Frame>, stop: Stop)
      modifies this
      ensures Reading(frames, stop) == ParseAll(old(ahead))
    {
      hide ParseAll, ParseFrame;
      frames := [];
      while true
        invariant ParseAll(old(ahead)) == Reading(frames + ParseAll(ahead).frames, ParseAll(ahead).stop)
        decreases |ahead|
      {
        ParseAllUnfolds(ahead);
        var p := ReadFrame();
        if !p.Parsed? {
          return frames, if p.Ended? then AtBoundary else Cut;
        }
        Regroup(frames, p.frame, ParseAll(p.rest).frames);
        frames := frames + [p.frame];
      }
    }
  }

  lemma Regroup(a: seq<Frame>, f: Frame, b: seq<Frame>)
    ensures a + ([f] + b) == a + [f] + b
  {}

  lemma ParseAllUnfolds(w: Bytes)
    ensures ParseAll(w) == match ParseFrame(w)
                           case Parsed(f, rest) => Reading([f] + ParseAll(rest).frames, ParseAll(rest).stop)
                           case Ended => Reading([], AtBoundary)
                           case _ => Reading([], Cut)
  {}

  // The big-endian word at an offset.
  function GetUint32(a: array<byte>, at: nat): uint32
    requires at + 4 <= a.Length
    reads a
  {
    Uint32(a[at..at + 4])
  }

  lemma HeaderFields(header: array<byte>, w: Bytes)
    requires header.Length == 12 <= |w| && header[..] == w[..12]
    ensures GetUint32(header, 0) == Uint32(w[0..4]) && GetUint32(header, 4) == Uint32(w[4..8])
    ensures GetUint32(header, 8) == Uint32(w[8..12])
  {
    assert header[0..4] == w[0..4] && header[4..8] == w[4..8] && header[8..12] == w[8..12];
  }

  // ---- Writing ----

  method SetUint32(a: array<byte>, at: nat, v: uint32)
    requires at + 4 <= a.Length
    modifies a
    ensures a[..] == old(a[..at]) + PutUint32(v) + old(a[at + 4..])
  {
    ghost var before := a[..];
    a[at] := (v / 0x100_0000) as byte;
    a[at + 1] := (v / 0x1_0000 % 256) as byte;
    a[at + 2] := (v / 256 % 256) as byte;
    a[at + 3] := (v % 256) as byte;
    FourBytes(v);
    assert a[..] == before[..at] + a[at..at + 4] + before[at + 4..];
  }

  lemma FourBytes(v: uint32)
    ensures PutUint32(v)
         == [(v / 0x100_0000) as byte, (v / 0x1_0000 % 256) as byte, (v / 256 % 256) as byte, (v % 256) as byte]
  {
    var a, b, c := v / 256, v / 256 / 256, v / 256 / 256 / 256;
    assert b == v / 0x1_0000 && c == v / 0x100_0000;
    assert PutBigEndian(c, 1) == [(c % 256) as byte];
    assert PutBigEndian(b, 2) == [(c % 256) as byte, (b % 256) as byte];
    assert PutBigEndian(a, 3) == [(c % 256) as byte, (b % 256) as byte, (a % 256) as byte];
  }

  // What `WriteData` and `writeStreamFrame` hand to the channel: 32-bit arithmetic throughout.
  method FillFrame(f: Frame) returns (filled: Buffer)
    ensures filled == FillBuffer(f)
  {
    var length: uint32 := |f.payload| % TWO32;
    var size: uint32 := (12 + length) % TWO32;
    var buf := new byte[size];
    if buf.Length < 12 { return SliceOutOfRange; }
    SetHeader(buf, length, f.id, f.flags);
    hide Header;
    assert buf[..12] == Header(length, f.id, f.flags);
    Copy(buf, 12, f.payload);
    return Filled(buf[..]);
  }

  method SetHeader(buf: array<byte>, length: uint32, id: uint32, flags: uint32)
    requires buf.Length >= 12
    modifies buf
    ensures buf[..] == Header(length, id, flags) + old(buf[12..])
  {
    hide PutUint32;
    ghost var before := buf[..];
    SetUint32(buf, 0, length);
    assert buf[..4] == PutUint32(length);
    SetUint32(buf, 4, id);
    assert buf[..8] == PutUint32(length) + PutUint32(id);
    SetUint32(buf, 8, flags);
    assert buf[..12] == Header(length, id, flags) && buf[12..] == before[12..];
  }

  // Go's `copy(buf[at:], from)`.
  method Copy(buf: array<byte>, at: nat, from: Bytes)
    requires at <= buf.Length
    modifies buf
    ensures var room := buf.Length - at;
      if room < |from| then buf[..] == old(buf[..at]) + from[..room]
          else buf[..] == old(buf[..at]) + from + old(buf[at + |from|..])
  {
    ghost var before := buf[..];
    var copied := if buf.Length - at < |from| then buf.Length - at else |from|;
    forall i | 0 <= i < copied { buf[at + i] := from[i]; }
    assert buf[..] == before[..at] + from[..copied] + before[at + copied..];
    assert from[..|from|] == from;
  }

  // ---- Concurrent writers ----

  // `order` is the frames in the order in which their writers got the lock `wMu`, and `put` says how
  // many bytes of each are on the wire; the last is under way while the channel is locked.
  datatype Channel = Channel(
    wire: Bytes, order: seq<Frame>, put: seq<nat>, locked: bool,
    arrived: multiset<Frame>, waiting: multiset<Frame>, left: multiset<Frame>)

  const NEW_CHANNEL: Channel := Channel([], [], [], false, multiset{}, multiset{}, multiset{})

  datatype WriterStep =
    | Arrive(frame: Frame)  // a writer has filled its buffer
    | Leave(frame: Frame)   // its context has ended before it asks for the lock
    | Lock(frame: Frame)
    | Put(count: nat)       // the channel takes some of the buffer
    | Unlock                // the write has returned, all of the buffer taken
    | Fail                  // the write returns an error, whatever was taken; others go on behind it

  // The buffer of a frame, as `FillFrame` fills it.
  function BufferOf(f: Frame): Bytes { if FillBuffer(f).Filled? then FillBuffer(f).bytes else [] }

  predicate Paired(c: Channel) { |c.put| == |c.order| }

  function ChannelStep(c: Channel, s: WriterStep): Option<Channel>
  {
    match s
    case Arrive(f) =>
      if FillBuffer(f).SliceOutOfRange? then None
      else Some(c.(arrived := c.arrived + multiset{f}, waiting := c.waiting + multiset{f}))
    case Leave(f) =>
      if f !in c.waiting then None
      else Some(c.(waiting := c.waiting - multiset{f}, left := c.left + multiset{f}))
    case Lock(f) =>
      if c.locked || f !in c.waiting then None
      else Some(c.(locked := true, order := c.order + [f], put := c.put + [0], waiting := c.waiting - multiset{f}))
    case Put(n) =>
      if !c.locked || !Paired(c) || c.order == [] || n == 0 then None
      else
        var i := |c.order| - 1;
        if c.put[i] + n > |BufferOf(c.order[i])| then None
        else
          Some(c.(wire := c.wire + BufferOf(c.order[i])[c.put[i]..c.put[i] + n], put := c.put[i := c.put[i] + n]))
    case Unlock =>
      if c.locked && Paired(c) && c.order != [] && c.put[|c.order| - 1] == |BufferOf(c.order[|c.order| - 1])|
      then Some(c.(locked := false)) else None
    case Fail => if c.locked then Some(c.(locked := false)) else None
  }

  function ChannelRun(steps: seq<WriterStep>): Option<Channel> {
    if steps == [] then Some(NEW_CHANNEL)
    else match ChannelRun(steps[..|steps| - 1]) case None => None case Some(c) => ChannelStep(c, steps[|steps| - 1])
  }

  // ---- What is on the wire ----

  predicate Fills(order: seq<Frame>) { forall i | 0 <= i < |order| :: Writable(order[i].payload) }

  // The pieces of the buffers, one after the other.
  function Pieces(order: seq<Frame>, put: seq<nat>): Bytes
    requires |put| == |order|
  {
    if order == [] then []
    else
      var i, b := |order| - 1, BufferOf(order[|order| - 1]);
      Pieces(order[..i], put[..i]) + if put[i] <= |b| then b[..put[i]] else b
  }

  // A part of the i-th frame is on the wire, but not all of it.
  predicate Torn(order: seq<Frame>, put: seq<nat>, i: nat)
    requires i < |put| == |order|
  {
    0 < put[i] < |BufferOf(order[i])|
  }

  // The frames that are on the wire whole, as the wire carries them.
  function WholeFrames(order: seq<Frame>, put: seq<nat>): (fs: seq<Frame>)
    requires |put| == |order|
    ensures |fs| <= |order|
  {
    if order == [] then []
    else
      var i := |order| - 1;
      WholeFrames(order[..i], put[..i]) + if put[i] == |BufferOf(order[i])| then [OnWire(order[i])] else []
  }

  ghost predicate NoneTorn(order: seq<Frame>, put: seq<nat>)
    requires |put| == |order|
  {
    forall i | 0 <= i < |order| :: !Torn(order, put, i)
  }

  lemma BufferIs(f: Frame)
    requires Writable(f.payload)
    ensures |OnWire(f).payload| <= TWO32 - 13 && BufferOf(f) == Encode(OnWire(f)) && |BufferOf(f)| >= 12
  {
    BufferIsFrame(f);
    hide FillBuffer, Carried;
  }

  lemma EncodeAllLast(fs: seq<Frame>, f: Frame)
    requires Sized(fs) && |f.payload| <= TWO32 - 13
    ensures Sized(fs + [f]) && EncodeAll(fs + [f]) == EncodeAll(fs) + Encode(f)
  {
    EncodeAllAppend(fs, [f]);
    assert EncodeAll([f]) == Encode(f) + EncodeAll([]);
  }

  lemma {:induction false} WholeSized(order: seq<Frame>, put: seq<nat>)
    requires |put| == |order| && Fills(order)
    ensures Sized(WholeFrames(order, put))
  {
    hide BufferOf, OnWire, Writable;
    if order != [] {
      var i := |order| - 1;
      WholeSized(order[..i], put[..i]);
      BufferIs(order[i]);
    }
  }

  // While no frame is torn, the wire is the whole frames.
  lemma {:induction false} PiecesAreFrames(order: seq<Frame>, put: seq<nat>)
    requires |put| == |order| && Fills(order) && NoneTorn(order, put)
    requires forall i | 0 <= i < |order| :: put[i] <= |BufferOf(order[i])|
    ensures Sized(WholeFrames(order, put)) && Pieces(order, put) == EncodeAll(WholeFrames(order, put))
  {
    hide BufferOf, OnWire, Writable, EncodeAll, Encode;
    WholeSized(order, put);
    if order == [] {
      EncodeNone();
    } else {
      var i, fs := |order| - 1, WholeFrames(order[..|order| - 1], put[..|order| - 1]);
      assert forall j | 0 <= j < i :: order[..i][j] == order[j] && put[..i][j] == put[j];
      TornStep(order, put);
      PiecesAreFrames(order[..i], put[..i]);
      BufferIs(order[i]);
      if put[i] == 0 {
        assert BufferOf(order[i])[..0] == [] && Pieces(order, put) == EncodeAll(fs) + [] && fs + [] == fs;
      } else {
        assert BufferOf(order[i])[..put[i]] == BufferOf(order[i]);
        EncodeAllLast(fs, OnWire(order[i]));
      }
    }
  }

  lemma EncodeNone()
    ensures EncodeAll([]) == []
  {}

  // ---- The invariant ----

  // Every frame that arrived waits, has left, or is in the order, once.
  ghost predicate CountOk(c: Channel)
  {
    && Fills(c.order) && (forall f | f in c.waiting :: Writable(f.payload))
    && c.arrived == multiset(c.order) + c.waiting + c.left
  }

  ghost predicate WireOk(c: Channel)
  {
    && Paired(c) && (c.locked ==> c.order != [])
    && (forall i | 0 <= i < |c.order| :: c.put[i] <= |BufferOf(c.order[i])|)
    && c.wire == Pieces(c.order, c.put)
  }

  lemma ArriveCounts(c: Channel, s: WriterStep)
    requires CountOk(c) && s.Arrive? && ChannelStep(c, s).Some?
    ensures CountOk(ChannelStep(c, s).value)
  {
    BufferIsFrame(s.frame);
    hide FillBuffer, Writable, Carried, Encode;
    assert c.arrived + multiset{s.frame} == multiset(c.order) + (c.waiting + multiset{s.frame}) + c.left;
  }

  lemma LockCounts(c: Channel, s: WriterStep)
    requires CountOk(c) && s.Lock? && ChannelStep(c, s).Some?
    ensures CountOk(ChannelStep(c, s).value)
  {
    hide Writable;
    assert multiset(c.order + [s.frame]) == multiset(c.order) + multiset{s.frame};
  }

  lemma LeaveCounts(c: Channel, s: WriterStep)
    requires CountOk(c) && s.Leave? && ChannelStep(c, s).Some?
    ensures CountOk(ChannelStep(c, s).value)
  {
    hide Writable;
  }

  lemma CountKeeps(c: Channel, s: WriterStep)
    requires CountOk(c) && ChannelStep(c, s).Some?
    ensures CountOk(ChannelStep(c, s).value)
  {
    hide BufferOf, FillBuffer, Writable;
    if s.Arrive? { ArriveCounts(c, s); hide ChannelStep, CountOk; }
    else if s.Lock? { LockCounts(c, s); hide ChannelStep, CountOk; }
    else if s.Leave? { LeaveCounts(c, s); hide ChannelStep, CountOk; }
  }

  lemma LockWire(c: Channel, f: Frame)
    requires WireOk(c)
    ensures WireOk(c.(locked := true, order := c.order + [f], put := c.put + [0]))
  {
    hide BufferOf;
    var n := |c.order|;
    assert (c.order + [f])[..n] == c.order && (c.put + [0])[..n] == c.put;
    assert BufferOf(f)[..0] == [] && c.wire + [] == c.wire;
  }

  lemma PutWire(c: Channel, n: nat)
    requires WireOk(c) && c.locked
    requires var i := |c.order| - 1; c.put[i] + n <= |BufferOf(c.order[i])|
    ensures var i := |c.order| - 1;
      WireOk(c.(wire := c.wire + BufferOf(c.order[i])[c.put[i]..c.put[i] + n], put := c.put[i := c.put[i] + n]))
  {
    hide BufferOf;
    var i := |c.order| - 1;
    var put' := c.put[i := c.put[i] + n];
    assert put'[..i] == c.put[..i];
    Glue(Pieces(c.order[..i], c.put[..i]), BufferOf(c.order[i]), c.put[i], n);
  }

  lemma Glue(before: Bytes, b: Bytes, i: nat, n: nat)
    requires i + n <= |b|
    ensures before + b[..i] + b[i..i + n] == before + b[..i + n]
  {}

  lemma WireKeeps(c: Channel, s: WriterStep)
    requires WireOk(c) && ChannelStep(c, s).Some?
    ensures WireOk(ChannelStep(c, s).value)
  {
    hide BufferOf, Pieces, FillBuffer;
    if s.Lock? { LockWire(c, s.frame); } else if s.Put? { PutWire(c, s.count); }
  }

  lemma {:induction false} ChannelRunOk(steps: seq<WriterStep>)
    requires ChannelRun(steps).Some?
    ensures CountOk(ChannelRun(steps).value) && WireOk(ChannelRun(steps).value)
  {
    hide CountOk, WireOk, ChannelStep;
    if steps == [] {
      NewChannelOk();
    } else {
      ChannelRunOk(steps[..|steps| - 1]);
      CountKeeps(ChannelRun(steps[..|steps| - 1]).value, steps[|steps| - 1]);
      WireKeeps(ChannelRun(steps[..|steps| - 1]).value, steps[|steps| - 1]);
    }
  }

  lemma NewChannelOk()
    ensures CountOk(NEW_CHANNEL) && WireOk(NEW_CHANNEL)
  {}

  // ---- Who tears ----

  function Failures(steps: seq<WriterStep>): nat {
    if steps == [] then 0 else Failures(steps[..|steps| - 1]) + if steps[|steps| - 1].Fail? then 1 else 0
  }

  // How many frames are not on the wire whole.
  function Unfinished(order: seq<Frame>, put: seq<nat>): nat
    requires |put| == |order|
  {
    if order == [] then 0
    else
      var i := |order| - 1;
      Unfinished(order[..i], put[..i]) + if put[i] == |BufferOf(order[i])| then 0 else 1
  }

  // Those behind which the lock was given up.
  function Abandoned(c: Channel): nat
    requires Paired(c)
  {
    if c.locked && c.order != [] then Unfinished(c.order[..|c.order| - 1], c.put[..|c.order| - 1])
    else Unfinished(c.order, c.put)
  }

  lemma StepAbandons(c: Channel, s: WriterStep)
    requires WireOk(c) && ChannelStep(c, s).Some?
    ensures Paired(ChannelStep(c, s).value)
    ensures Abandoned(ChannelStep(c, s).value) <= Abandoned(c) + if s.Fail? then 1 else 0
  {
    hide BufferOf, FillBuffer, Pieces;
    var n := |c.order|;
    if s.Lock? {
      assert (c.order + [s.frame])[..n] == c.order && (c.put + [0])[..n] == c.put;
    } else if s.Put? {
      var put' := ChannelStep(c, s).value.put;
      assert put'[..n - 1] == c.put[..n - 1];
    }
  }

  lemma {:induction false} AbandonedByFailure(steps: seq<WriterStep>)
    requires ChannelRun(steps).Some?
    ensures Paired(ChannelRun(steps).value) && Abandoned(ChannelRun(steps).value) <= Failures(steps)
  {
    hide ChannelStep, WireOk, Abandoned;
    if steps == [] {
      assert Abandoned(NEW_CHANNEL) == 0 by { NoneAbandoned(); }
    } else {
      var before := steps[..|steps| - 1];
      ChannelRunOk(before);
      AbandonedByFailure(before);
      StepAbandons(ChannelRun(before).value, steps[|steps| - 1]);
    }
  }

  lemma NoneAbandoned()
    ensures Abandoned(NEW_CHANNEL) == 0
  {}

  lemma {:induction false} AllFinished(order: seq<Frame>, put: seq<nat>)
    requires |put| == |order| && Unfinished(order, put) == 0
    ensures NoneTorn(order, put)
  {
    hide BufferOf;
    if order != [] {
      var i := |order| - 1;
      AllFinished(order[..i], put[..i]);
      assert forall j | 0 <= j < i :: Torn(order[..i], put[..i], j) == Torn(order, put, j);
    }
  }

  // The lock keeps frames whole: a frame is cut short only by a failed write of its own, so that there are no
  // more of them than failed writes and the one under way; when no write has failed and none is under
  // way, no frame is torn.
  lemma TornByFailure(steps: seq<WriterStep>)
    requires ChannelRun(steps).Some?
    ensures var c := ChannelRun(steps).value;
      && Paired(c)
      && Unfinished(c.order, c.put) <= Failures(steps) + (if c.locked then 1 else 0)
      && (Failures(steps) == 0 && !c.locked ==> NoneTorn(c.order, c.put))
  {
    AbandonedByFailure(steps);
    var c := ChannelRun(steps).value;
    hide ChannelRun, BufferOf, Failures;
    if Unfinished(c.order, c.put) == 0 { AllFinished(c.order, c.put); }
  }

  // ---- Reading it ----

  // What a reader that stops between two frames has consumed is all of their bytes.
  function Total(fs: seq<Frame>): nat { if fs == [] then 0 else 12 + |fs[0].payload| + Total(fs[1..]) }

  lemma {:induction false} WholeReading(w: Bytes)
    ensures ParseAll(w).stop.AtBoundary? ==> |w| == Total(ParseAll(w).frames)
    decreases |w|
  {
    ParseAllUnfolds(w);
    var p := ParseFrame(w);
    if p.Parsed? {
      WholeReading(p.rest);
      ParsedSize(w);
      hide ParseFrame, ParseAll;
      assert ([p.frame] + ParseAll(p.rest).frames)[1..] == ParseAll(p.rest).frames;
    }
  }

  lemma ParsedSize(w: Bytes)
    requires ParseFrame(w).Parsed?
    ensures |w| == 12 + |ParseFrame(w).frame.payload| + |ParseFrame(w).rest|
  {
    hide Uint32;
  }

  lemma {:induction false} TotalIs(fs: seq<Frame>)
    requires Sized(fs)
    ensures |EncodeAll(fs)| == Total(fs)
  {
    if fs != [] { TotalIs(fs[1..]); }
  }

  // What one frame adds to the wire, and to the whole frames.
  lemma OneMore(order: seq<Frame>, put: seq<nat>)
    requires 0 < |put| == |order| && Fills(order) && put[|order| - 1] <= |BufferOf(order[|order| - 1])|
    ensures var i := |order| - 1;
      var before, fs := Pieces(order[..i], put[..i]), WholeFrames(order[..i], put[..i]);
      && Sized(fs) && Sized(WholeFrames(order, put))
      && |Pieces(order, put)| == |before| + put[i]
      && |EncodeAll(WholeFrames(order, put))|
         == |EncodeAll(fs)| + if put[i] == |BufferOf(order[i])| then put[i] else 0
  {
    hide BufferOf, OnWire, Writable, EncodeAll, Encode;
    WholeSized(order, put);
    var i := |order| - 1;
    WholeSized(order[..i], put[..i]);
    BufferIs(order[i]);
    if put[i] == |BufferOf(order[i])| {
      EncodeAllLast(WholeFrames(order[..i], put[..i]), OnWire(order[i]));
    } else {
      assert WholeFrames(order[..i], put[..i]) + [] == WholeFrames(order[..i], put[..i]);
    }
  }

  // A torn frame puts bytes on the wire that belong to no whole frame.
  lemma {:induction false} TornBytes(order: seq<Frame>, put: seq<nat>)
    requires |put| == |order| && Fills(order)
    requires forall i | 0 <= i < |order| :: put[i] <= |BufferOf(order[i])|
    ensures Sized(WholeFrames(order, put)) && |Pieces(order, put)| >= |EncodeAll(WholeFrames(order, put))|
    ensures |Pieces(order, put)| == |EncodeAll(WholeFrames(order, put))| ==> NoneTorn(order, put)
  {
    hide BufferOf, Writable, EncodeAll, Pieces, WholeFrames, NoneTorn;
    if order == [] {
      NoFrames(order, put);
    } else {
      var i := |order| - 1;
      TornBytes(order[..i], put[..i]);
      OneMore(order, put);
      TornStep(order, put);
    }
  }

  lemma NoFrames(order: seq<Frame>, put: seq<nat>)
    requires order == [] && put == []
    ensures Pieces(order, put) == [] && WholeFrames(order, put) == [] && EncodeAll([]) == [] && NoneTorn(order, put)
  {}

  lemma TornStep(order: seq<Frame>, put: seq<nat>)
    requires 0 < |put| == |order|
    ensures var i := |order| - 1;
      NoneTorn(order, put) <==> NoneTorn(order[..i], put[..i]) && !Torn(order, put, i)
  {
    hide BufferOf;
    var i := |order| - 1;
    assert forall j | 0 <= j < i :: order[..i][j] == order[j] && put[..i][j] == put[j];
    assert forall j | 0 <= j < i :: Torn(order[..i], put[..i], j) <==> Torn(order, put, j);
  }

  lemma NothingAhead()
    ensures ParseAll([]) == Reading([], AtBoundary)
  {}

  // Framing, exactly. However many writers interleave, in whatever pieces and with whatever failures:
  // a reader of the wire gets just the frames written whole, in lock order, and ends at a boundary,
  // if and only if no write stopped inside its frame. Each frame that arrived was written, waits or left.
  lemma WritersKeepFrames(steps: seq<WriterStep>)
    requires ChannelRun(steps).Some?
    ensures var c := ChannelRun(steps).value;
      && Paired(c) && c.arrived == multiset(c.order) + c.waiting + c.left
      && (ParseAll(c.wire) == Reading(WholeFrames(c.order, c.put), AtBoundary) <==> NoneTorn(c.order, c.put))
  {
    hide ChannelRun, ParseAll, EncodeAll, Pieces, WholeFrames, BufferOf, NoneTorn, Total, Fills;
    ChannelRunOk(steps);
    var c := ChannelRun(steps).value;
    var fs := WholeFrames(c.order, c.put);
    TornBytes(c.order, c.put);
    if NoneTorn(c.order, c.put) {
      PiecesAreFrames(c.order, c.put);
      ParseAllEncodeAll(fs, []);
      NothingAhead();
      assert EncodeAll(fs) + [] == EncodeAll(fs) && fs + [] == fs;
    } else if ParseAll(c.wire) == Reading(fs, AtBoundary) {
      WholeReading(c.wire);
      TotalIs(fs);
    }
  }

  lemma {:induction false} PiecesPrefix(order: seq<Frame>, put: seq<nat>, t: nat)
    requires t <= |order| == |put|
    ensures Pieces(order[..t], put[..t]) <= Pieces(order, put)
  {
    hide BufferOf;
    if t == |order| {
      assert order[..t] == order && put[..t] == put;
    } else {
      var i := |order| - 1;
      assert order[..i][..t] == order[..t] && put[..i][..t] == put[..t];
      PiecesPrefix(order[..i], put[..i], t);
    }
  }

  // The frames before the t-th, none of them torn, and what the t-th has put on the wire if it is torn.
  ghost predicate SoundUpTo(c: Channel, t: nat) {
    t <= |c.order| == |c.put| && NoneTorn(c.order[..t], c.put[..t])
  }

  function WithTear(c: Channel, t: nat): nat
    requires t <= |c.order| == |c.put|
  {
    if t < |c.order| && Torn(c.order, c.put, t) then t + 1 else t
  }

  // The wire so far is a beginning of whole frames.
  lemma SoundIsEncoded(c: Channel, t: nat)
    requires CountOk(c) && WireOk(c) && SoundUpTo(c, t)
    ensures var fs, m := WholeFrames(c.order[..t], c.put[..t]), WithTear(c, t);
      && Sized(fs) && Pieces(c.order[..t], c.put[..t]) == EncodeAll(fs)
      && Pieces(c.order[..m], c.put[..m]) <= c.wire
      && (m > t ==>
           && |OnWire(c.order[t]).payload| <= TWO32 - 13
           && Sized(fs + [OnWire(c.order[t])])
           && Pieces(c.order[..m], c.put[..m]) < EncodeAll(fs + [OnWire(c.order[t])]))
  {
    hide BufferOf, OnWire, Writable, EncodeAll, Encode;
    var m := WithTear(c, t);
    PiecesPrefix(c.order, c.put, m);
    PiecesAreFrames(c.order[..t], c.put[..t]);
    if m > t {
      assert c.order[..m][..t] == c.order[..t] && c.put[..m][..t] == c.put[..t];
      BufferIs(c.order[t]);
      EncodeAllLast(WholeFrames(c.order[..t], c.put[..t]), OnWire(c.order[t]));
    }
  }

  // Up to the first torn frame nothing is lost, whatever comes behind it. The reader gets the frames
  // written whole before it; where its view of the wire ends earlier, it has those that end before,
  // and it stops at a boundary exactly when its view ends at one.
  lemma FramesBeforeTear(steps: seq<WriterStep>, t: nat, n: nat) returns (k: nat)
    requires ChannelRun(steps).Some? && SoundUpTo(ChannelRun(steps).value, t)
    requires var c := ChannelRun(steps).value; n <= |Pieces(c.order[..WithTear(c, t)], c.put[..WithTear(c, t)])|
    ensures var c := ChannelRun(steps).value;
      var fs := WholeFrames(c.order[..t], c.put[..t]);
      && n <= |c.wire| && fs <= ParseAll(c.wire).frames
      && Sized(fs) && k <= |fs| && |EncodeAll(fs[..k])| <= n && (k < |fs| ==> n < |EncodeAll(fs[..k + 1])|)
      && ParseAll(c.wire[..n]) == Reading(fs[..k], if n == |EncodeAll(fs[..k])| then AtBoundary else Cut)
  {
    hide ChannelRun, ParseAll, EncodeAll, Pieces, WholeFrames, BufferOf, NoneTorn, Torn, OnWire;
    var c := ChannelRun(steps).value;
    ChannelRunOk(steps);
    SoundIsEncoded(c, t);
    var fs, m := WholeFrames(c.order[..t], c.put[..t]), WithTear(c, t);
    PiecesPrefix(c.order, c.put, t);
    var tail := c.wire[|EncodeAll(fs)|..];
    assert c.wire == EncodeAll(fs) + tail;
    ParseAllEncodeAll(fs, tail);
    if m > t {
      var gs := fs + [OnWire(c.order[t])];
      assert c.wire[..n] == EncodeAll(gs)[..n];
      k := Truncation(gs, n);
      NotAll(gs, k, n);
      assert gs[..k] == fs[..k] && (k < |fs| ==> gs[..k + 1] == fs[..k + 1]);
    } else {
      assert c.wire[..n] == EncodeAll(fs)[..n];
      k := Truncation(fs, n);
    }
  }

  lemma NotAll(gs: seq<Frame>, k: nat, n: nat)
    requires Sized(gs) && k <= |gs| && |EncodeAll(gs[..k])| <= n < |EncodeAll(gs)|
    ensures k < |gs|
  {
    hide EncodeAll;
    assert gs[..|gs|] == gs;
  }
}
