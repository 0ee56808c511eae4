/**
 The formats of the MessagePack specification that the messages use: the int, str and map format
 families, and skipping over an object of any format.
 */
module MsgPack {
  import opened Bytes
  import opened Options

  datatype Parse<+T> = Ok(value: T, rest: Bytes) | Err

  function Take(b: Bytes, n: nat): Parse<Bytes> {
    if n <= |b| then Ok(b[..n], b[n..]) else Err
  }

  // A big-endian number of `k` bytes.
  function ReadNumber(b: Bytes, k: nat): Parse<nat> {
    if k <= |b| then Ok(BigEndian(b[..k]), b[k..]) else Err
  }

  // As many bytes as a length of `k` bytes says, and `more` besides.
  function ReadSized(b: Bytes, k: nat, more: nat): Parse<Bytes> {
    match ReadNumber(b, k)
    case Ok(n, rest) => Take(rest, n + more)
    case Err => Err
  }

  // ---- str ----

  function AppendStr(s: Bytes): Bytes {
    if |s| < 32 then [(0xa0 + |s|) as byte] + s
    else if |s| < 0x100 then [0xd9] + PutBigEndian(|s|, 1) + s
    else if |s| < 0x1_0000 then [0xda] + PutBigEndian(|s|, 2) + s
    else [0xdb] + PutBigEndian(|s|, 4) + s
  }

  function ReadStr(b: Bytes): (r: Parse<Bytes>)
    ensures r.Ok? ==> |r.rest| < |b|
  {
    if b == [] then Err
    else if 0xa0 <= b[0] < 0xc0 then Take(b[1..], b[0] as nat - 0xa0)
    else if b[0] == 0xd9 then ReadSized(b[1..], 1, 0)
    else if b[0] == 0xda then ReadSized(b[1..], 2, 0)
    else if b[0] == 0xdb then ReadSized(b[1..], 4, 0)
    else Err
  }

  // ---- int ----

  const MIN_INT: int := -0x8000_0000_0000_0000
  const MAX_INT: int := 0x7fff_ffff_ffff_ffff

  function AppendUint(u: nat): Bytes {
    if u < 0x80 then [u as byte]
    else if u < 0x100 then [0xcc] + PutBigEndian(u, 1)
    else if u < 0x1_0000 then [0xcd] + PutBigEndian(u, 2)
    else if u < TWO32 then [0xce] + PutBigEndian(u, 4)
    else [0xcf] + PutBigEndian(u, 8)
  }

  function AppendInt(i: int): Bytes
    requires MIN_INT <= i <= MAX_INT
  {
    if i >= 0 then AppendUint(i)
    else if i >= -0x20 then [(0x100 + i) as byte]
    else if i >= -0x80 then [0xd0] + PutBigEndian(0x100 + i, 1)
    else if i >= -0x8000 then [0xd1] + PutBigEndian(0x1_0000 + i, 2)
    else if i >= -0x8000_0000 then [0xd2] + PutBigEndian(TWO32 + i, 4)
    else [0xd3] + PutBigEndian(TWO32 * TWO32 + i, 8)
  }

  function ReadUnsigned(b: Bytes, k: nat): Parse<int> {
    match ReadNumber(b, k) case Ok(n, rest) => Ok(n, rest) case Err => Err
  }

  // Two's complement.
  function ReadSigned(b: Bytes, k: nat): Parse<int> {
    match ReadNumber(b, k)
    case Ok(n, rest) => Ok(if 2 * n < Power256(k) then n else n - Power256(k), rest)
    case Err => Err
  }

  // The value of an int of any format.
  function ReadIntValue(b: Bytes): (r: Parse<int>)
    ensures r.Ok? ==> |r.rest| < |b|
  {
    if b == [] then Err
    else if b[0] < 0x80 then Ok(b[0] as int, b[1..])
    else if b[0] >= 0xe0 then Ok(b[0] as int - 0x100, b[1..])
    else if b[0] == 0xcc then ReadUnsigned(b[1..], 1)
    else if b[0] == 0xcd then ReadUnsigned(b[1..], 2)
    else if b[0] == 0xce then ReadUnsigned(b[1..], 4)
    else if b[0] == 0xcf then ReadUnsigned(b[1..], 8)
    else if b[0] == 0xd0 then ReadSigned(b[1..], 1)
    else if b[0] == 0xd1 then ReadSigned(b[1..], 2)
    else if b[0] == 0xd2 then ReadSigned(b[1..], 4)
    else if b[0] == 0xd3 then ReadSigned(b[1..], 8)
    else Err
  }

  function ReadWithin(b: Bytes, low: int, high: int): (r: Parse<int>)
    ensures r.Ok? ==> |r.rest| < |b| && low <= r.value <= high
  {
    match ReadIntValue(b)
    case Ok(i, rest) => if low <= i <= high then Ok(i, rest) else Err
    case Err => Err
  }

  // ---- map ----

  function MapHeader(n: nat): Bytes {
    if n < 16 then [(0x80 + n) as byte]
    else if n < 0x1_0000 then [0xde] + PutBigEndian(n, 2)
    else [0xdf] + PutBigEndian(n, 4)
  }

  function ReadMapHeader(b: Bytes): (r: Parse<nat>)
    ensures r.Ok? ==> |r.rest| < |b|
  {
    if b == [] then Err
    else if 0x80 <= b[0] < 0x90 then Ok(b[0] as nat - 0x80, b[1..])
    else if b[0] == 0xde then ReadNumber(b[1..], 2)
    else if b[0] == 0xdf then ReadNumber(b[1..], 4)
    else Err
  }

  // ---- Skipping ----

  function Elements(p: Parse<nat>, each: nat): Parse<nat> {
    match p case Ok(n, rest) => Ok(each * n, rest) case Err => Err
  }

  function Without(p: Parse<Bytes>): Parse<nat> {
    match p case Ok(_, rest) => Ok(0, rest) case Err => Err
  }

  // What follows the first byte of an object of a format above 0xc0: a fixed number of bytes, a length
  // of `k` bytes and that many bytes and `more`, or a count of `k` bytes of elements or pairs.
  datatype Layout = Fixed(n: nat) | Sized(k: nat, more: nat) | Counted(k: nat, each: nat) | Unused

  function LayoutOf(format: byte): Layout
  {
    match format
    case 0xc0 => Fixed(0) case 0xc2 => Fixed(0) case 0xc3 => Fixed(0)                            // nil, false, true
    case 0xc4 => Sized(1, 0) case 0xc5 => Sized(2, 0) case 0xc6 => Sized(4, 0)                   // bin
    case 0xc7 => Sized(1, 1) case 0xc8 => Sized(2, 1) case 0xc9 => Sized(4, 1)                   // ext
    case 0xca => Fixed(4) case 0xcb => Fixed(8)                                                  // float
    case 0xcc => Fixed(1) case 0xcd => Fixed(2) case 0xce => Fixed(4) case 0xcf => Fixed(8)      // uint
    case 0xd0 => Fixed(1) case 0xd1 => Fixed(2) case 0xd2 => Fixed(4) case 0xd3 => Fixed(8)      // int
    // fixext
    case 0xd4 => Fixed(2) case 0xd5 => Fixed(3) case 0xd6 => Fixed(5) case 0xd7 => Fixed(9) case 0xd8 => Fixed(17)
    case 0xd9 => Sized(1, 0) case 0xda => Sized(2, 0) case 0xdb => Sized(4, 0)                   // str
    case 0xdc => Counted(2, 1) case 0xdd => Counted(4, 1)                                        // array
    case 0xde => Counted(2, 2) case 0xdf => Counted(4, 2)                                        // map
    case _ => Unused
  }

  function ReadHead(layout: Layout, b: Bytes): Parse<nat>
  {
    match layout
    case Fixed(n) => Without(Take(b, n))
    case Sized(k, more) => Without(ReadSized(b, k, more))
    case Counted(k, each) => Elements(ReadNumber(b, k), each)
    case Unused => Err
  }

  // An object without its elements: how many elements follow.
  function SkipHead(b: Bytes): (r: Parse<nat>)
    ensures r.Ok? ==> |r.rest| < |b|
  {
    if b == [] then Err
    else if b[0] < 0x80 || b[0] >= 0xe0 then Ok(0, b[1..])
    else if b[0] < 0x90 then Ok(2 * (b[0] as nat - 0x80), b[1..])
    else if b[0] < 0xa0 then Ok(b[0] as nat - 0x90, b[1..])
    else if b[0] < 0xc0 then Without(Take(b[1..], b[0] as nat - 0xa0))
    else ReadHead(LayoutOf(b[0]), b[1..])
  }

  function SkipMany(n: nat, b: Bytes): (r: Option<Bytes>)
    ensures r.Some? ==> |r.value| <= |b| && (n > 0 ==> |r.value| < |b|)
    decreases |b|
  {
    if n == 0 then Some(b)
    else match SkipHead(b)
         case Ok(elements, rest) => SkipMany(n - 1 + elements, rest)
         case Err => None
  }

  function Skip(b: Bytes): Option<Bytes> { SkipMany(1, b) }

  lemma SkipStep(n: nat, b: Bytes)
    requires n > 0 && SkipHead(b).Ok?
    ensures SkipMany(n, b) == SkipMany(n - 1 + SkipHead(b).value, SkipHead(b).rest)
  {}

  // ---- Reading looks only at what it consumes ----

  lemma NumberLocal(b: Bytes, k: nat, more: Bytes)
    ensures ReadNumber(b, k).Ok? ==> ReadNumber(b + more, k) == Ok(ReadNumber(b, k).value, ReadNumber(b, k).rest + more)
  {
    if k <= |b| { assert (b + more)[..k] == b[..k] && (b + more)[k..] == b[k..] + more; }
  }

  lemma TakeLocal(b: Bytes, n: nat, more: Bytes)
    ensures Take(b, n).Ok? ==> Take(b + more, n) == Ok(Take(b, n).value, Take(b, n).rest + more)
  {
    if n <= |b| { assert (b + more)[..n] == b[..n] && (b + more)[n..] == b[n..] + more; }
  }

  lemma SizedLocal(b: Bytes, k: nat, extra: nat, more: Bytes)
    ensures ReadSized(b, k, extra).Ok? ==>
              ReadSized(b + more, k, extra) == Ok(ReadSized(b, k, extra).value, ReadSized(b, k, extra).rest + more)
  {
    NumberLocal(b, k, more);
    var p := ReadNumber(b, k);
    if p.Ok? { TakeLocal(p.rest, p.value + extra, more); }
    hide ReadNumber, Take;
  }

  lemma StrLocal(b: Bytes, more: Bytes)
    ensures ReadStr(b).Ok? ==> ReadStr(b + more) == Ok(ReadStr(b).value, ReadStr(b).rest + more)
  {
    if b != [] {
      assert (b + more)[1..] == b[1..] + more;
      TakeLocal(b[1..], if 0xa0 <= b[0] then b[0] as nat - 0xa0 else 0, more);
      SizedLocal(b[1..], 1, 0, more);
      SizedLocal(b[1..], 2, 0, more);
      SizedLocal(b[1..], 4, 0, more);
      hide Take, ReadSized;
    }
  }

  lemma HeaderLocal(b: Bytes, more: Bytes)
    ensures ReadMapHeader(b).Ok? ==>
              ReadMapHeader(b + more) == Ok(ReadMapHeader(b).value, ReadMapHeader(b).rest + more)
  {
    if b != [] {
      assert (b + more)[1..] == b[1..] + more;
      NumberLocal(b[1..], 2, more);
      NumberLocal(b[1..], 4, more);
      hide ReadNumber;
    }
  }

  lemma WordLocal(b: Bytes, k: nat, more: Bytes)
    ensures ReadUnsigned(b, k).Ok? ==>
              ReadUnsigned(b + more, k) == Ok(ReadUnsigned(b, k).value, ReadUnsigned(b, k).rest + more)
    ensures ReadSigned(b, k).Ok? ==> ReadSigned(b + more, k) == Ok(ReadSigned(b, k).value, ReadSigned(b, k).rest + more)
  {
    NumberLocal(b, k, more);
    hide ReadNumber, Power256;
  }

  lemma IntLocal(b: Bytes, more: Bytes)
    ensures ReadIntValue(b).Ok? ==> ReadIntValue(b + more) == Ok(ReadIntValue(b).value, ReadIntValue(b).rest + more)
  {
    hide ReadUnsigned, ReadSigned;
    if b != [] {
      assert (b + more)[1..] == b[1..] + more;
      WordLocal(b[1..], 1, more);
      WordLocal(b[1..], 2, more);
      WordLocal(b[1..], 4, more);
      WordLocal(b[1..], 8, more);
    }
  }

  lemma HeadLocal(layout: Layout, b: Bytes, more: Bytes)
    ensures ReadHead(layout, b).Ok? ==>
        ReadHead(layout, b + more) == Ok(ReadHead(layout, b).value, ReadHead(layout, b).rest + more)
  {
    match layout
    case Fixed(n) => TakeLocal(b, n, more);
    case Sized(k, extra) => SizedLocal(b, k, extra, more);
    case Counted(k, _) => NumberLocal(b, k, more);
    case Unused =>
  }

  lemma SkipHeadLocal(b: Bytes, more: Bytes)
    ensures SkipHead(b).Ok? ==> SkipHead(b + more) == Ok(SkipHead(b).value, SkipHead(b).rest + more)
  {
    if b != [] {
      assert (b + more)[1..] == b[1..] + more;
      if 0xa0 <= b[0] { TakeLocal(b[1..], b[0] as nat - 0xa0, more); }
      HeadLocal(LayoutOf(b[0]), b[1..], more);
      hide Take, ReadHead, LayoutOf;
    }
  }

  lemma {:induction false} SkipLocal(n: nat, b: Bytes, more: Bytes)
    ensures SkipMany(n, b).Some? ==> SkipMany(n, b + more) == Some(SkipMany(n, b).value + more)
    decreases |b|
  {
    hide SkipHead;
    if n > 0 {
      SkipHeadLocal(b, more);
      var p := SkipHead(b);
      if p.Ok? { SkipLocal(n - 1 + p.value, p.rest, more); }
    }
  }

  // ---- Round trips ----

  lemma NumberOfPut(v: nat, k: nat, rest: Bytes)
    requires v < Power256(k)
    ensures ReadNumber(PutBigEndian(v, k) + rest, k) == Ok(v, rest)
  {
    BigEndianOfPut(v, k);
    assert (PutBigEndian(v, k) + rest)[..k] == PutBigEndian(v, k);
    assert (PutBigEndian(v, k) + rest)[k..] == rest;
  }

  lemma SizedOfPut(s: Bytes, k: nat, rest: Bytes)
    requires |s| < Power256(k)
    ensures ReadSized(PutBigEndian(|s|, k) + s + rest, k, 0) == Ok(s, rest)
  {
    NumberOfPut(|s|, k, s + rest);
    assert PutBigEndian(|s|, k) + (s + rest) == PutBigEndian(|s|, k) + s + rest;
    assert (s + rest)[..|s|] == s && (s + rest)[|s|..] == rest;
    hide ReadNumber;
  }

  lemma ShortStr(s: Bytes, rest: Bytes)
    requires |s| < 32
    ensures ReadStr([(0xa0 + |s|) as byte] + s + rest) == Ok(s, rest)
  {
    var b := [(0xa0 + |s|) as byte] + s + rest;
    assert b[1..] == s + rest;
    assert (s + rest)[..|s|] == s && (s + rest)[|s|..] == rest;
  }

  lemma AfterFormat(format: byte, length: Bytes, s: Bytes, rest: Bytes)
    ensures var b := [format] + length + s + rest; b != [] && b[0] == format && b[1..] == length + s + rest
  {
    assert [format] + length + s + rest == [format] + (length + s + rest);
  }

  lemma LongStr(s: Bytes, format: byte, k: nat, rest: Bytes)
    requires (format == 0xd9 && k == 1) || (format == 0xda && k == 2) || (format == 0xdb && k == 4)
    requires |s| < Power256(k)
    ensures ReadStr([format] + PutBigEndian(|s|, k) + s + rest) == Ok(s, rest)
  {
    hide Power256, PutBigEndian, ReadSized;
    AfterFormat(format, PutBigEndian(|s|, k), s, rest);
    SizedOfPut(s, k, rest);
  }

  lemma StrRoundTrip(s: Bytes, rest: Bytes)
    requires |s| < TWO32
    ensures ReadStr(AppendStr(s) + rest) == Ok(s, rest)
    ensures |AppendStr(s)| <= 5 + |s|
  {
    hide Power256, PutBigEndian, ReadStr;
    Power256Values();
    if |s| < 32 { ShortStr(s, rest); }
    else if |s| < 0x100 { LongStr(s, 0xd9, 1, rest); }
    else if |s| < 0x1_0000 { LongStr(s, 0xda, 2, rest); }
    else { LongStr(s, 0xdb, 4, rest); }
  }

  lemma OneByteInt(b: byte, rest: Bytes)
    ensures ([b] + rest)[1..] == rest
  {}

  lemma UnsignedOfPut(u: nat, format: byte, k: nat, rest: Bytes)
    requires u < Power256(k)
    requires (format, k) == (0xcc, 1) || (format, k) == (0xcd, 2) || (format, k) == (0xce, 4)
        || (format, k) == (0xcf, 8)
    ensures ReadIntValue([format] + PutBigEndian(u, k) + rest) == Ok(u, rest)
  {
    hide Power256, PutBigEndian, ReadNumber, ReadSigned;
    var b := [format] + PutBigEndian(u, k) + rest;
    assert b[1..] == PutBigEndian(u, k) + rest;
    NumberOfPut(u, k, rest);
  }

  lemma SignedOfPut(i: int, format: byte, k: nat, rest: Bytes)
    requires 0 <= Power256(k) + 2 * i && i < 0
    requires (format, k) == (0xd0, 1) || (format, k) == (0xd1, 2) || (format, k) == (0xd2, 4)
        || (format, k) == (0xd3, 8)
    ensures ReadIntValue([format] + PutBigEndian(Power256(k) + i, k) + rest) == Ok(i, rest)
  {
    hide Power256, PutBigEndian, ReadNumber, ReadUnsigned;
    var b := [format] + PutBigEndian(Power256(k) + i, k) + rest;
    assert b[1..] == PutBigEndian(Power256(k) + i, k) + rest;
    NumberOfPut(Power256(k) + i, k, rest);
  }

  lemma UintRoundTrip(u: nat, rest: Bytes)
    requires u < TWO32 * TWO32
    ensures ReadIntValue(AppendUint(u) + rest) == Ok(u, rest)
    ensures |AppendUint(u)| <= 9 && (u < TWO32 ==> |AppendUint(u)| <= 5)
  {
    hide Power256, PutBigEndian;
    Power256Values();
    if u < 0x80 {
      OneByteInt(u as byte, rest);
    } else {
      hide ReadIntValue;
      if u < 0x100 { UnsignedOfPut(u, 0xcc, 1, rest); }
      else if u < 0x1_0000 { UnsignedOfPut(u, 0xcd, 2, rest); }
      else if u < TWO32 { UnsignedOfPut(u, 0xce, 4, rest); }
      else { UnsignedOfPut(u, 0xcf, 8, rest); }
    }
  }

  lemma IntRoundTrip(i: int, rest: Bytes)
    requires MIN_INT <= i <= MAX_INT
    ensures ReadIntValue(AppendInt(i) + rest) == Ok(i, rest)
    ensures |AppendInt(i)| <= 9
  {
    hide Power256, PutBigEndian, AppendUint;
    Power256Values();
    if -0x20 <= i < 0 {
      OneByteInt((0x100 + i) as byte, rest);
    } else {
      hide ReadIntValue;
      if i >= 0 { UintRoundTrip(i, rest); }
      else if i >= -0x80 { SignedOfPut(i, 0xd0, 1, rest); }
      else if i >= -0x8000 { SignedOfPut(i, 0xd1, 2, rest); }
      else if i >= -0x8000_0000 { SignedOfPut(i, 0xd2, 4, rest); }
      else { SignedOfPut(i, 0xd3, 8, rest); }
    }
  }

  lemma HeaderRoundTrip(n: nat, rest: Bytes)
    requires n < TWO32
    ensures ReadMapHeader(MapHeader(n) + rest) == Ok(n, rest)
  {
    var b := MapHeader(n) + rest;
    Power256Values();
    hide Power256, PutBigEndian;
    if n < 16 {
      assert b[1..] == rest;
    } else {
      var k := if n < 0x1_0000 then 2 else 4;
      assert b[1..] == PutBigEndian(n, k) + rest;
      NumberOfPut(n, k, rest);
      hide ReadNumber;
    }
  }

  // ---- Skipping what was appended ----

  lemma HighHead(b: Bytes)
    requires b != [] && 0xc0 <= b[0] < 0xe0
    ensures SkipHead(b) == ReadHead(LayoutOf(b[0]), b[1..])
  {
    hide ReadHead, LayoutOf, Take;
  }

  lemma SizedHead(s: Bytes, format: byte, k: nat, rest: Bytes)
    requires 0xc0 <= format < 0xe0 && LayoutOf(format) == Sized(k, 0) && |s| < Power256(k)
    ensures SkipHead([format] + PutBigEndian(|s|, k) + s + rest) == Ok(0, rest)
  {
    hide Power256, PutBigEndian, ReadSized, SkipHead, LayoutOf;
    AfterFormat(format, PutBigEndian(|s|, k), s, rest);
    HighHead([format] + PutBigEndian(|s|, k) + s + rest);
    SizedOfPut(s, k, rest);
  }

  lemma StrHead(s: Bytes, rest: Bytes)
    requires |s| < TWO32
    ensures SkipHead(AppendStr(s) + rest) == Ok(0, rest)
  {
    Power256Values();
    if |s| < 32 {
      var b := AppendStr(s) + rest;
      assert b[1..] == s + rest;
      assert (s + rest)[|s|..] == rest;
    } else {
      hide Power256, PutBigEndian, SkipHead;
      if |s| < 0x100 { SizedHead(s, 0xd9, 1, rest); }
      else if |s| < 0x1_0000 { SizedHead(s, 0xda, 2, rest); }
      else { SizedHead(s, 0xdb, 4, rest); }
    }
  }

  lemma WordHead(v: nat, format: byte, k: nat, rest: Bytes)
    requires LayoutOf(format) == Fixed(k)
    ensures 0xc0 < format < 0xe0 ==> SkipHead([format] + PutBigEndian(v, k) + rest) == Ok(0, rest)
  {
    hide PutBigEndian;
    var b := [format] + PutBigEndian(v, k) + rest;
    assert b[1..] == PutBigEndian(v, k) + rest;
    assert (PutBigEndian(v, k) + rest)[k..] == rest;
  }

  lemma ByteHead(b: byte, rest: Bytes)
    requires b < 0x80 || b >= 0xe0
    ensures SkipHead([b] + rest) == Ok(0, rest)
  {
    OneByteInt(b, rest);
  }

  lemma IntHead(i: int, rest: Bytes)
    requires MIN_INT <= i <= MAX_INT
    ensures SkipHead(AppendInt(i) + rest) == Ok(0, rest)
  {
    hide Power256, PutBigEndian, SkipHead;
    if 0 <= i < 0x80 { ByteHead(i as byte, rest); }
    else if -0x20 <= i < 0 { ByteHead((0x100 + i) as byte, rest); }
    else if i >= 0 {
      if i < 0x100 { WordHead(i, 0xcc, 1, rest); }
      else if i < 0x1_0000 { WordHead(i, 0xcd, 2, rest); }
      else if i < TWO32 { WordHead(i, 0xce, 4, rest); }
      else { WordHead(i, 0xcf, 8, rest); }
    }
    else if i >= -0x80 { WordHead(0x100 + i, 0xd0, 1, rest); }
    else if i >= -0x8000 { WordHead(0x1_0000 + i, 0xd1, 2, rest); }
    else if i >= -0x8000_0000 { WordHead(TWO32 + i, 0xd2, 4, rest); }
    else { WordHead(TWO32 * TWO32 + i, 0xd3, 8, rest); }
  }

  lemma MapHead(n: nat, rest: Bytes)
    requires n < TWO32
    ensures SkipHead(MapHeader(n) + rest) == Ok(2 * n, rest)
  {
    hide Power256, PutBigEndian, ReadNumber;
    if n < 16 { FixMapHead(n, rest); }
    else if n < 0x1_0000 { SizedMapHead(n, 0xde, 2, rest); }
    else { SizedMapHead(n, 0xdf, 4, rest); }
  }

  lemma FixMapHead(n: nat, rest: Bytes)
    requires n < 16
    ensures SkipHead([(0x80 + n) as byte] + rest) == Ok(2 * n, rest)
  {
    assert ([(0x80 + n) as byte] + rest)[1..] == rest;
  }

  lemma SizedMapHead(n: nat, format: byte, k: nat, rest: Bytes)
    requires (format == 0xde && k == 2 && n < 0x1_0000) || (format == 0xdf && k == 4 && n < TWO32)
    ensures SkipHead([format] + PutBigEndian(n, k) + rest) == Ok(2 * n, rest)
  {
    hide Power256, PutBigEndian, ReadNumber;
    Power256Values();
    var b := [format] + PutBigEndian(n, k) + rest;
    assert b[1..] == PutBigEndian(n, k) + rest;
    NumberOfPut(n, k, rest);
  }
}
