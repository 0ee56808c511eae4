/**
 The frame format shared by every peer: a 12-byte header (payload length, stream ID and flags,
 each a big-endian 32-bit word) followed by the payload.
 */
module Frames {
  import opened Bytes

  datatype Frame = Frame(id: uint32, flags: uint32, payload: Bytes)

  const FLAG_START: uint32 := 1
  const FLAG_DATA: uint32 := 2
  const FLAG_CLOSE: uint32 := 4
  const FLAG_ERROR: uint32 := 8
  const FLAG_CLOSE_WRITE: uint32 := 16

  predicate IsStart(f: Frame) { f.flags % 2 == 1 }
  predicate IsClose(f: Frame) { f.flags / 4 % 2 == 1 }
  predicate IsError(f: Frame) { f.flags / 8 % 2 == 1 }
  predicate IsCloseWrite(f: Frame) { f.flags / 16 % 2 == 1 }

  // Each flag is one bit of the word.
  lemma FlagsAreBits(f: Frame, high: nat, closeWrite: nat, error: nat, close: nat, data: nat, start: nat)
    requires closeWrite <= 1 && error <= 1 && close <= 1 && data <= 1 && start <= 1
    requires f.flags == 32 * high + 16 * closeWrite + 8 * error + 4 * close + 2 * data + start
    ensures (IsStart(f) <==> start == 1) && (IsClose(f) <==> close == 1) && (IsError(f) <==> error == 1)
    ensures IsCloseWrite(f) <==> closeWrite == 1
  {
    LowBit(16 * high + 8 * closeWrite + 4 * error + 2 * close + data, start, 2);
    LowBit(8 * high + 4 * closeWrite + 2 * error + close, 2 * data + start, 4);
    LowBit(4 * high + 2 * closeWrite + error, 4 * close + 2 * data + start, 8);
    LowBit(2 * high + closeWrite, 8 * error + 4 * close + 2 * data + start, 16);
  }

  lemma LowBit(high: nat, low: nat, unit: nat)
    requires low < unit && (unit == 2 || unit == 4 || unit == 8 || unit == 16)
    ensures (unit * high + low) / unit == high && (unit * high + low) % unit == low
  {}

  // ---- Writing ----

  function Header(length: uint32, id: uint32, flags: uint32): (h: Bytes)
    ensures |h| == 12
  {
    PutUint32(length) + PutUint32(id) + PutUint32(flags)
  }

  // The frame as its reader expects it.
  function Encode(f: Frame): Bytes
    requires |f.payload| < TWO32
  {
    Header(|f.payload|, f.id, f.flags) + f.payload
  }

  datatype Buffer = Filled(bytes: Bytes) | SliceOutOfRange

  // What a writer puts in its buffer: the length is truncated to 32 bits, the size `12+length`
  // wraps around, a buffer shorter than the header cannot be sliced, and `copy` stops at its end.
  function FillBuffer(f: Frame): Buffer
  {
    var length: uint32 := |f.payload| % TWO32;
    var size := (12 + length) % TWO32;
    if size < 12 then SliceOutOfRange
    else
      var room := size - 12;
      Filled(Header(length, f.id, f.flags) + f.payload[..if room < |f.payload| then room else |f.payload|])
  }

  // What of a payload gets onto the wire, and whether any frame does: all of a payload under
  // 2^32-12 bytes, a panic instead of the next 12 lengths, and so on modulo 2^32.
  function Carried(payload: Bytes): (r: Bytes)
    ensures |payload| < TWO32 ==> r == payload
    ensures |r| == |payload| % TWO32
  {
    payload[..|payload| % TWO32]
  }

  predicate Writable(payload: Bytes)
    ensures |payload| <= TWO32 - 13 ==> Writable(payload)
  {
    |payload| % TWO32 <= TWO32 - 13
  }

  // A writable payload arrives as it was exactly if it has at most 2^32-13 bytes.
  lemma CarriedExactly(payload: Bytes)
    requires Writable(payload)
    ensures Carried(payload) == payload <==> |payload| <= TWO32 - 13
  {
    if |payload| >= TWO32 { assert |Carried(payload)| < |payload|; }
  }

  function CarriedAll(ps: seq<Bytes>): (r: seq<Bytes>)
    ensures |r| == |ps| && forall i | 0 <= i < |ps| :: r[i] == Carried(ps[i])
  {
    seq(|ps|, i requires 0 <= i < |ps| => Carried(ps[i]))
  }

  predicate AllWritable(ps: seq<Bytes>) { forall i | 0 <= i < |ps| :: Writable(ps[i]) }

  // Every payload fits into a frame.
  predicate AllFit(ps: seq<Bytes>) { forall i | 0 <= i < |ps| :: |ps[i]| <= TWO32 - 13 }

  lemma AllCarriedExactly(ps: seq<Bytes>)
    requires AllWritable(ps)
    ensures CarriedAll(ps) == ps <==> AllFit(ps)
  {
    hide Carried, Writable;
    forall i | 0 <= i < |ps| ensures CarriedAll(ps)[i] == ps[i] <==> |ps[i]| <= TWO32 - 13 { CarriedExactly(ps[i]); }
  }

  function OnWire(f: Frame): Frame { f.(payload := Carried(f.payload)) }

  // ---- Reading ----

  datatype Parse = Parsed(frame: Frame, rest: Bytes) | Ended | HeaderCut | PayloadCut

  function ParseFrame(w: Bytes): (r: Parse)
    ensures r.Parsed? ==> |r.rest| < |w|
  {
    if |w| == 0 then Ended
    else if |w| < 12 then HeaderCut
    else
      var length := Uint32(w[0..4]);
      if |w| < 12 + length then PayloadCut
      else Parsed(Frame(Uint32(w[4..8]), Uint32(w[8..12]), w[12..12 + length]), w[12 + length..])
  }

  // How reading stops: cleanly between two frames, or inside one.
  datatype Stop = AtBoundary | Cut

  datatype Reading = Reading(frames: seq<Frame>, stop: Stop)

  function ParseAll(w: Bytes): Reading
  {
    match ParseFrame(w)
    case Parsed(f, rest) => var r := ParseAll(rest); Reading([f] + r.frames, r.stop)
    case Ended => Reading([], AtBoundary)
    case _ => Reading([], Cut)
  }

  predicate Sized(fs: seq<Frame>) {
    forall i | 0 <= i < |fs| :: |fs[i].payload| <= TWO32 - 13
  }

  function EncodeAll(fs: seq<Frame>): Bytes
    requires Sized(fs)
  {
    if fs == [] then [] else Encode(fs[0]) + EncodeAll(fs[1..])
  }

  // ---- One frame ----

  lemma ParseHeader(length: uint32, id: uint32, flags: uint32, tail: Bytes)
    ensures var w := Header(length, id, flags) + tail;
            |w| == 12 + |tail| && Uint32(w[0..4]) == length && Uint32(w[4..8]) == id && Uint32(w[8..12]) == flags
                && w[12..] == tail
  {
    var w := Header(length, id, flags) + tail;
    assert w[0..4] == PutUint32(length);
    assert w[4..8] == PutUint32(id);
    assert w[8..12] == PutUint32(flags);
    Uint32OfPut(length);
    Uint32OfPut(id);
    Uint32OfPut(flags);
  }

  lemma ParseEncode(f: Frame, rest: Bytes)
    requires |f.payload| < TWO32
    ensures ParseFrame(Encode(f) + rest) == Parsed(f, rest)
  {
    var w := Encode(f) + rest;
    assert w == Header(|f.payload|, f.id, f.flags) + (f.payload + rest);
    ParseHeader(|f.payload|, f.id, f.flags, f.payload + rest);
    assert w[12..12 + |f.payload|] == w[12..][..|f.payload|] == f.payload;
    assert w[12 + |f.payload|..] == w[12..][|f.payload|..] == rest;
  }

  // Length, ID and flags, in this order, then the payload.
  lemma Layout(f: Frame)
    requires |f.payload| < TWO32
    ensures var b := Encode(f);
      && |b| == 12 + |f.payload|
      && b[0..4] == PutUint32(|f.payload|) && b[4..8] == PutUint32(f.id) && b[8..12] == PutUint32(f.flags)
      && b[12..] == f.payload
  {
    hide PutUint32;
  }

  // Only encoded frames parse as frames.
  lemma ParsesExactly(w: Bytes, f: Frame, rest: Bytes)
    ensures ParseFrame(w) == Parsed(f, rest) <==> |f.payload| < TWO32 && w == Encode(f) + rest
    ensures (ParseFrame(w).Ended? <==> w == []) && (ParseFrame(w).HeaderCut? <==> 0 < |w| < 12)
  {
    if |f.payload| < TWO32 { ParseEncode(f, rest); }
    if ParseFrame(w) == Parsed(f, rest) {
      PutOfUint32(w[0..4]);
      PutOfUint32(w[4..8]);
      PutOfUint32(w[8..12]);
      hide PutUint32, Uint32;
      assert w == w[0..4] + w[4..8] + w[8..12] + w[12..12 + |f.payload|] + w[12 + |f.payload|..];
    }
  }

  lemma PutOfUint32(b: Bytes)
    requires |b| == 4
    ensures PutUint32(Uint32(b)) == b
  {
    PutOfBigEndian(b);
  }

  // What a writer's buffer holds is an encoded frame: the one it was given, cut short to a
  // payload that its length field can name.
  lemma BufferIsFrame(f: Frame)
    ensures |Carried(f.payload)| < TWO32
    ensures FillBuffer(f) == if Writable(f.payload) then Filled(Encode(OnWire(f))) else SliceOutOfRange
  {
    var length: uint32 := |f.payload| % TWO32;
    if Writable(f.payload) {
      assert (12 + length) % TWO32 == 12 + length;
      assert f.payload[..if length < |f.payload| then length else |f.payload|] == Carried(f.payload);
    } else {
      assert (12 + length) % TWO32 == 12 + length - TWO32;
    }
    hide Header;
  }

  // A payload survives the 32-bit size arithmetic exactly up to 2^32-13 bytes; past that the
  // writer panics or sends a shorter frame.
  lemma PayloadBound(f: Frame)
    ensures FillBuffer(f).Filled? && ParseFrame(FillBuffer(f).bytes) == Parsed(f, [])
            <==> |f.payload| <= TWO32 - 13
  {
    BufferIsFrame(f);
    hide FillBuffer, ParseFrame, Encode, Carried;
    if Writable(f.payload) {
      ParseEncode(OnWire(f), []);
      assert Encode(OnWire(f)) + [] == Encode(OnWire(f));
      CarriedExactly(f.payload);
    }
  }

  // ---- Sequences of frames ----

  lemma {:induction false} EncodeAllAppend(a: seq<Frame>, b: seq<Frame>)
    requires Sized(a) && Sized(b)
    ensures Sized(a + b) && EncodeAll(a + b) == EncodeAll(a) + EncodeAll(b)
  {
    hide Encode;
    if a == [] {
      assert a + b == b;
    } else {
      EncodeAllAppend(a[1..], b);
      assert (a + b)[1..] == a[1..] + b;
      assert Encode(a[0]) + EncodeAll(a[1..]) + EncodeAll(b) == Encode(a[0]) + (EncodeAll(a[1..]) + EncodeAll(b));
    }
  }

  // Reading one encoded frame first, then the rest.
  lemma ParseAllStep(f: Frame, tail: Bytes)
    requires |f.payload| < TWO32
    ensures ParseAll(Encode(f) + tail) == Reading([f] + ParseAll(tail).frames, ParseAll(tail).stop)
  {
    ParseEncode(f, tail);
  }

  // The reader recovers exactly the frames written, then goes on with whatever follows them.
  lemma {:induction false} ParseAllEncodeAll(fs: seq<Frame>, tail: Bytes)
    requires Sized(fs)
    ensures ParseAll(EncodeAll(fs) + tail) == Reading(fs + ParseAll(tail).frames, ParseAll(tail).stop)
  {
    hide ParseAll, ParseFrame, Encode;
    if fs == [] {
      assert EncodeAll(fs) + tail == tail;
    } else {
      var after := EncodeAll(fs[1..]) + tail;
      calc {
        ParseAll(EncodeAll(fs) + tail);
        { assert EncodeAll(fs) + tail == Encode(fs[0]) + after; }
        ParseAll(Encode(fs[0]) + after);
        { ParseAllStep(fs[0], after); }
        Reading([fs[0]] + ParseAll(after).frames, ParseAll(after).stop);
        { ParseAllEncodeAll(fs[1..], tail); }
        Reading([fs[0]] + (fs[1..] + ParseAll(tail).frames), ParseAll(tail).stop);
        { assert [fs[0]] + (fs[1..] + ParseAll(tail).frames) == fs + ParseAll(tail).frames; }
        Reading(fs + ParseAll(tail).frames, ParseAll(tail).stop);
      }
    }
  }

  // A proper beginning of one encoded frame parses to nothing.
  lemma ParseCutFrame(f: Frame, n: nat)
    requires |f.payload| < TWO32
    requires n < |Encode(f)|
    ensures ParseAll(Encode(f)[..n]) == Reading([], if n == 0 then AtBoundary else Cut)
  {
    if n >= 12 {
      var w := Encode(f)[..n];
      assert w == Header(|f.payload|, f.id, f.flags) + f.payload[..n - 12];
      ParseHeader(|f.payload|, f.id, f.flags, f.payload[..n - 12]);
    }
  }

  lemma EncodeAllTake(fs: seq<Frame>, k: nat)
    requires Sized(fs) && 0 < k <= |fs|
    ensures EncodeAll(fs[..k]) == Encode(fs[0]) + EncodeAll(fs[1..][..k - 1])
  {
    assert fs[..k][1..] == fs[1..][..k - 1];
  }

  lemma NothingCut()
    ensures EncodeAll([]) == [] && ParseAll([]) == Reading([], AtBoundary)
  {}

  // A cut in the first frame.
  lemma CutInFirst(fs: seq<Frame>, n: nat)
    requires Sized(fs) && fs != [] && n < |Encode(fs[0])|
    ensures n <= |EncodeAll(fs)| && n < |EncodeAll(fs[..1])|
    ensures ParseAll(EncodeAll(fs)[..n]) == Reading([], if n == 0 then AtBoundary else Cut)
  {
    ParseCutFrame(fs[0], n);
    hide Encode, ParseAll;
    assert EncodeAll(fs)[..n] == Encode(fs[0])[..n];
    EncodeAllTake(fs, 1);
  }

  // A cut behind it.
  lemma CutBehind(fs: seq<Frame>, n: nat)
    requires Sized(fs) && fs != [] && |Encode(fs[0])| <= n <= |EncodeAll(fs)|
    ensures var m := n - |Encode(fs[0])|;
      && m <= |EncodeAll(fs[1..])|
      && var r := ParseAll(EncodeAll(fs[1..])[..m]);
         ParseAll(EncodeAll(fs)[..n]) == Reading([fs[0]] + r.frames, r.stop)
  {
    hide Encode, ParseAll;
    var tail := EncodeAll(fs[1..])[..n - |Encode(fs[0])|];
    assert EncodeAll(fs)[..n] == Encode(fs[0]) + tail;
    ParseAllStep(fs[0], tail);
  }

  // Wherever the wire is cut, the reader gets the complete frames, then stops; it stops at a
  // boundary exactly when no partial frame is left.
  lemma {:induction false} Truncation(fs: seq<Frame>, n: nat) returns (k: nat)
    requires Sized(fs) && n <= |EncodeAll(fs)|
    ensures k <= |fs| && |EncodeAll(fs[..k])| <= n
    ensures k < |fs| ==> n < |EncodeAll(fs[..k + 1])|
    ensures ParseAll(EncodeAll(fs)[..n])
            == Reading(fs[..k], if n == |EncodeAll(fs[..k])| then AtBoundary else Cut)
  {
    hide ParseFrame, ParseAll, Encode, EncodeAll;
    NothingCut();
    if fs == [] {
      k := 0;
      assert EncodeAll(fs)[..n] == [];
    } else if n < |Encode(fs[0])| {
      k := 0;
      CutInFirst(fs, n);
      assert fs[..0] == [];
    } else {
      CutBehind(fs, n);
      var j := Truncation(fs[1..], n - |Encode(fs[0])|);
      k := j + 1;
      EncodeAllTake(fs, k);
      if k < |fs| { EncodeAllTake(fs, k + 1); }
      assert [fs[0]] + fs[1..][..j] == fs[..k];
    }
  }
}
