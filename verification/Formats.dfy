/**
 MessagePack objects in every format of the specification, and that the readers of `MsgPack` read exactly
 these: a value in any format that can hold it, and nothing else.
 */
module Formats {
  import opened Bytes
  import opened Options
  import opened MsgPack

  // The place of a length of 1, 2, 4 or 8 bytes in its format family.
  function Place(k: nat): nat { if k == 1 then 0 else if k == 2 then 1 else if k == 4 then 2 else 3 }

  // ---- int ----

  // An int is one byte, or a format byte and `k` bytes, without a sign or in two's complement.
  datatype IntForm = PosFix | NegFix | Unsigned(k: nat) | Signed(k: nat)

  predicate Width(k: nat) { k == 1 || k == 2 || k == 4 || k == 8 }

  predicate IntFits(f: IntForm, v: int) {
    match f
    case PosFix => 0 <= v < 0x80
    case NegFix => -0x20 <= v < 0
    case Unsigned(k) => Width(k) && 0 <= v < Power256(k)
    case Signed(k) => Width(k) && 0 <= Power256(k) + 2 * v && 2 * v < Power256(k)
  }

  function IntBytes(f: IntForm, v: int): Bytes
    requires IntFits(f, v)
  {
    match f
    case PosFix => [v as byte]
    case NegFix => [(0x100 + v) as byte]
    case Unsigned(k) => [(0xcc + Place(k)) as byte] + PutBigEndian(v, k)
    case Signed(k) => [(0xd0 + Place(k)) as byte] + PutBigEndian(if v < 0 then Power256(k) + v else v, k)
  }

  lemma UnsignedReads(v: nat, k: nat, rest: Bytes)
    requires Width(k) && v < Power256(k)
    ensures ReadIntValue(IntBytes(Unsigned(k), v) + rest) == Ok(v, rest)
  {
    hide Power256, PutBigEndian, ReadNumber, ReadSigned;
    var b := IntBytes(Unsigned(k), v) + rest;
    assert b[1..] == PutBigEndian(v, k) + rest;
    NumberOfPut(v, k, rest);
  }

  lemma SignedReads(v: int, k: nat, rest: Bytes)
    requires Width(k) && 0 <= Power256(k) + 2 * v && 2 * v < Power256(k)
    ensures ReadIntValue(IntBytes(Signed(k), v) + rest) == Ok(v, rest)
  {
    hide Power256, PutBigEndian, ReadNumber, ReadUnsigned;
    var b := IntBytes(Signed(k), v) + rest;
    assert b[1..] == PutBigEndian(if v < 0 then Power256(k) + v else v, k) + rest;
    NumberOfPut(if v < 0 then Power256(k) + v else v, k, rest);
  }

  // A value is read from any format that can hold it.
  lemma IntReads(f: IntForm, v: int, rest: Bytes)
    requires IntFits(f, v)
    ensures ReadIntValue(IntBytes(f, v) + rest) == Ok(v, rest)
  {
    hide Power256, PutBigEndian;
    if f.Unsigned? { UnsignedReads(v, f.k, rest); }
    else if f.Signed? { SignedReads(v, f.k, rest); }
    else { OneByteInt(IntBytes(f, v)[0], rest); }
  }

  lemma NumberRead(b: Bytes, k: nat)
    requires ReadNumber(b, k).Ok?
    ensures var p := ReadNumber(b, k); p.value < Power256(k) && b == PutBigEndian(p.value, k) + p.rest
  {
    PutOfBigEndian(b[..k]);
    assert b == b[..k] + b[k..];
    hide Power256, PutBigEndian, BigEndian;
  }

  function WidthAt(place: nat): (k: nat)
    ensures place < 4 ==> Width(k) && Place(k) == place
  {
    if place == 0 then 1 else if place == 1 then 2 else if place == 2 then 4 else 8
  }

  function IntFormOf(format: byte): IntForm {
    if format < 0x80 then PosFix
    else if format >= 0xe0 then NegFix
    else if format < 0xd0 then Unsigned(WidthAt(if format < 0xcc then 0 else format as nat - 0xcc))
    else Signed(WidthAt(format as nat - 0xd0))
  }

  // What is read is a value in one of the formats.
  lemma IntOnly(b: Bytes) returns (f: IntForm)
    requires ReadIntValue(b).Ok?
    ensures var p := ReadIntValue(b); IntFits(f, p.value) && b == IntBytes(f, p.value) + p.rest
  {
    hide Power256, PutBigEndian, ReadNumber;
    f := IntFormOf(b[0]);
    assert b == [b[0]] + b[1..];
    if f.Unsigned? || f.Signed? { NumberRead(b[1..], f.k); }
  }

  // ---- str ----

  datatype StrForm = FixStr | StrOf(k: nat)

  predicate StrFits(f: StrForm, s: Bytes) {
    match f
    case FixStr => |s| < 32
    case StrOf(k) => (k == 1 || k == 2 || k == 4) && |s| < Power256(k)
  }

  function StrBytes(f: StrForm, s: Bytes): Bytes
    requires StrFits(f, s)
  {
    match f
    case FixStr => [(0xa0 + |s|) as byte] + s
    case StrOf(k) => [(0xd9 + Place(k)) as byte] + PutBigEndian(|s|, k) + s
  }

  lemma StrReads(f: StrForm, s: Bytes, rest: Bytes)
    requires StrFits(f, s)
    ensures ReadStr(StrBytes(f, s) + rest) == Ok(s, rest)
  {
    hide Power256, PutBigEndian, ReadStr;
    if f.FixStr? { ShortStr(s, rest); } else { LongStr(s, (0xd9 + Place(f.k)) as byte, f.k, rest); }
  }

  lemma TakeRead(b: Bytes, n: nat)
    requires Take(b, n).Ok?
    ensures |Take(b, n).value| == n && b == Take(b, n).value + Take(b, n).rest
  {
    assert b == b[..n] + b[n..];
  }

  lemma SizedRead(b: Bytes, k: nat, more: nat)
    requires ReadSized(b, k, more).Ok?
    ensures var p := ReadSized(b, k, more);
      && more <= |p.value| && |p.value| - more < Power256(k)
      && b == PutBigEndian(|p.value| - more, k) + p.value + p.rest
  {
    NumberRead(b, k);
    var n := ReadNumber(b, k);
    TakeRead(n.rest, n.value + more);
    hide Power256, PutBigEndian, ReadNumber, Take;
    var p := ReadSized(b, k, more);
    Assoc(PutBigEndian(n.value, k), p.value, p.rest);
  }

  lemma StrOnly(b: Bytes) returns (f: StrForm)
    requires ReadStr(b).Ok?
    ensures var p := ReadStr(b); StrFits(f, p.value) && b == StrBytes(f, p.value) + p.rest
  {
    hide Power256, PutBigEndian, ReadSized;
    assert b == [b[0]] + b[1..];
    if b[0] < 0xc0 {
      f := FixStr;
      TakeRead(b[1..], b[0] as nat - 0xa0);
      hide Take;
      Assoc([b[0]], ReadStr(b).value, ReadStr(b).rest);
    } else {
      f := StrOf(WidthAt(b[0] as nat - 0xd9));
      SizedRead(b[1..], f.k, 0);
      var p := ReadStr(b);
      Assoc([b[0]], PutBigEndian(|p.value|, f.k) + p.value, p.rest);
      Assoc([b[0]], PutBigEndian(|p.value|, f.k), p.value);
    }
  }

  // ---- Counts of arrays and maps ----

  datatype CountForm = FixCount | CountOf(k: nat)

  predicate CountFits(f: CountForm, n: nat) {
    match f
    case FixCount => n < 16
    case CountOf(k) => (k == 2 || k == 4) && n < Power256(k)
  }

  function MapBytes(f: CountForm, n: nat): Bytes
    requires CountFits(f, n)
  {
    match f
    case FixCount => [(0x80 + n) as byte]
    case CountOf(k) => [if k == 2 then 0xde else 0xdf] + PutBigEndian(n, k)
  }

  function ArrayBytes(f: CountForm, n: nat): Bytes
    requires CountFits(f, n)
  {
    match f
    case FixCount => [(0x90 + n) as byte]
    case CountOf(k) => [if k == 2 then 0xdc else 0xdd] + PutBigEndian(n, k)
  }

  lemma MapReads(f: CountForm, n: nat, rest: Bytes)
    requires CountFits(f, n)
    ensures ReadMapHeader(MapBytes(f, n) + rest) == Ok(n, rest)
  {
    hide Power256, PutBigEndian, ReadNumber;
    var b := MapBytes(f, n) + rest;
    if f.FixCount? {
      assert b[1..] == rest;
    } else {
      assert b[1..] == PutBigEndian(n, f.k) + rest;
      NumberOfPut(n, f.k, rest);
    }
  }

  lemma MapOnly(b: Bytes) returns (f: CountForm)
    requires ReadMapHeader(b).Ok?
    ensures var p := ReadMapHeader(b); CountFits(f, p.value) && b == MapBytes(f, p.value) + p.rest
  {
    hide Power256, PutBigEndian, ReadNumber;
    assert b == [b[0]] + b[1..];
    if b[0] < 0x90 {
      f := FixCount;
    } else {
      f := CountOf(if b[0] == 0xde then 2 else 4);
      NumberRead(b[1..], f.k);
    }
  }

  // ---- Exactly these ----

  lemma IntExactly(b: Bytes, v: int, rest: Bytes)
    ensures ReadIntValue(b) == Ok(v, rest) <==> exists f :: IntFits(f, v) && b == IntBytes(f, v) + rest
  {
    hide IntFits, IntBytes, ReadIntValue;
    if ReadIntValue(b) == Ok(v, rest) { var f := IntOnly(b); }
    forall f | IntFits(f, v) && b == IntBytes(f, v) + rest ensures ReadIntValue(b) == Ok(v, rest) {
      IntReads(f, v, rest);
    }
  }

  lemma StrExactly(b: Bytes, s: Bytes, rest: Bytes)
    ensures ReadStr(b) == Ok(s, rest) <==> exists f :: StrFits(f, s) && b == StrBytes(f, s) + rest
  {
    hide StrFits, StrBytes, ReadStr;
    if ReadStr(b) == Ok(s, rest) { var f := StrOnly(b); }
    forall f | StrFits(f, s) && b == StrBytes(f, s) + rest ensures ReadStr(b) == Ok(s, rest) { StrReads(f, s, rest); }
  }

  lemma MapExactly(b: Bytes, n: nat, rest: Bytes)
    ensures ReadMapHeader(b) == Ok(n, rest) <==> exists f :: CountFits(f, n) && b == MapBytes(f, n) + rest
  {
    hide CountFits, MapBytes, ReadMapHeader;
    if ReadMapHeader(b) == Ok(n, rest) { var f := MapOnly(b); }
    forall f | CountFits(f, n) && b == MapBytes(f, n) + rest ensures ReadMapHeader(b) == Ok(n, rest) {
      MapReads(f, n, rest);
    }
  }

  // ---- Objects ----

  // `items` of a map are its keys and values in turn.
  datatype Object =
    | Nil | Bool(b: bool) | Number(f: IntForm, v: int) | Float(bits: Bytes)
    | Text(form: StrForm, s: Bytes) | Bin(k: nat, data: Bytes)
    | Ext(k: nat, tag: byte, data: Bytes) | FixExt(tag: byte, data: Bytes)
    | Array(count: CountForm, items: seq<Object>) | Dict(count: CountForm, items: seq<Object>)

  predicate Valid(o: Object)
    decreases o
  {
    match o
    case Number(f, v) => IntFits(f, v)
    case Float(bits) => |bits| == 4 || |bits| == 8
    case Text(form, s) => StrFits(form, s)
    case Bin(k, data) => (k == 1 || k == 2 || k == 4) && |data| < Power256(k)
    case Ext(k, _, data) => (k == 1 || k == 2 || k == 4) && |data| < Power256(k)
    case FixExt(_, data) => |data| == 1 || |data| == 2 || |data| == 4 || |data| == 8 || |data| == 16
    case Array(count, items) => CountFits(count, |items|) && forall i | 0 <= i < |items| :: Valid(items[i])
    case Dict(count, items) =>
      && |items| % 2 == 0 && CountFits(count, |items| / 2) && forall i | 0 <= i < |items| :: Valid(items[i])
    case _ => true
  }

  function Items(o: Object): seq<Object> { if o.Array? || o.Dict? then o.items else [] }

  // An object without its items.
  function HeadBytes(o: Object): Bytes
    requires Valid(o)
  {
    match o
    case Nil => [0xc0]
    case Bool(b) => [if b then 0xc3 else 0xc2]
    case Number(f, v) => IntBytes(f, v)
    case Float(bits) => [if |bits| == 4 then 0xca else 0xcb] + bits
    case Text(form, s) => StrBytes(form, s)
    case Bin(k, data) => [(0xc4 + Place(k)) as byte] + PutBigEndian(|data|, k) + data
    case Ext(k, tag, data) => [(0xc7 + Place(k)) as byte] + PutBigEndian(|data|, k) + ([tag] + data)
    case FixExt(tag, data) => [FixExtFormat(|data|)] + ([tag] + data)
    case Array(count, items) => ArrayBytes(count, |items|)
    case Dict(count, items) => MapBytes(count, |items| / 2)
  }

  function FixExtFormat(n: nat): byte {
    if n == 1 then 0xd4 else if n == 2 then 0xd5 else if n == 4 then 0xd6 else if n == 8 then 0xd7 else 0xd8
  }

  lemma SizedHeadIs(format: byte, k: nat, more: nat, n: nat, data: Bytes, rest: Bytes)
    requires 0xc0 <= format < 0xe0 && LayoutOf(format) == Sized(k, more) && n < Power256(k) && |data| == n + more
    ensures SkipHead([format] + PutBigEndian(n, k) + data + rest) == Ok(0, rest)
  {
    hide Power256, PutBigEndian, ReadNumber, SkipHead, LayoutOf;
    AfterFormat(format, PutBigEndian(n, k), data, rest);
    HighHead([format] + PutBigEndian(n, k) + data + rest);
    assert PutBigEndian(n, k) + data + rest == PutBigEndian(n, k) + (data + rest);
    NumberOfPut(n, k, data + rest);
    assert (data + rest)[..|data|] == data && (data + rest)[|data|..] == rest;
  }

  lemma FixedHeadIs(format: byte, data: Bytes, rest: Bytes)
    requires 0xc0 <= format < 0xe0 && LayoutOf(format) == Fixed(|data|)
    ensures SkipHead([format] + data + rest) == Ok(0, rest)
  {
    hide SkipHead, LayoutOf;
    var b := [format] + data + rest;
    assert b[1..] == data + rest;
    HighHead(b);
    assert (data + rest)[..|data|] == data && (data + rest)[|data|..] == rest;
  }

  lemma CountHeadIs(format: byte, k: nat, each: nat, n: nat, rest: Bytes)
    requires 0xc0 <= format < 0xe0 && LayoutOf(format) == Counted(k, each) && n < Power256(k)
    ensures SkipHead([format] + PutBigEndian(n, k) + rest) == Ok(each * n, rest)
  {
    hide Power256, PutBigEndian, ReadNumber, SkipHead, LayoutOf;
    var b := [format] + PutBigEndian(n, k) + rest;
    assert b[1..] == PutBigEndian(n, k) + rest;
    HighHead(b);
    NumberOfPut(n, k, rest);
  }

  lemma IntHeadIs(f: IntForm, v: int, rest: Bytes)
    requires IntFits(f, v)
    ensures SkipHead(IntBytes(f, v) + rest) == Ok(0, rest)
  {
    hide Power256, PutBigEndian, SkipHead;
    if f.PosFix? || f.NegFix? {
      ByteHead(IntBytes(f, v)[0], rest);
    } else {
      var b := IntBytes(f, v);
      assert b == [b[0]] + b[1..];
      FixedHeadIs(b[0], b[1..], rest);
    }
  }

  lemma TextHeadIs(f: StrForm, s: Bytes, rest: Bytes)
    requires StrFits(f, s)
    ensures SkipHead(StrBytes(f, s) + rest) == Ok(0, rest)
  {
    if f.FixStr? {
      var b := StrBytes(f, s) + rest;
      assert b[1..] == s + rest;
      assert (s + rest)[|s|..] == rest;
    } else {
      hide Power256, PutBigEndian, SkipHead;
      SizedHeadIs((0xd9 + Place(f.k)) as byte, f.k, 0, |s|, s, rest);
    }
  }

  lemma FixCountIs(b: Bytes, rest: Bytes)
    requires |b| == 1 && 0x80 <= b[0] < 0xa0
    ensures SkipHead(b + rest) == Ok(if b[0] < 0x90 then 2 * (b[0] as nat - 0x80) else b[0] as nat - 0x90, rest)
  {
    assert (b + rest)[1..] == rest;
  }

  lemma HeadIs(o: Object, rest: Bytes)
    requires Valid(o)
    ensures SkipHead(HeadBytes(o) + rest) == Ok(|Items(o)|, rest)
  {
    hide Power256, PutBigEndian, SkipHead, IntBytes, StrBytes, IntFits, StrFits;
    if o.Number? { IntHeadIs(o.f, o.v, rest); }
    else if o.Text? { TextHeadIs(o.form, o.s, rest); }
    else if o.Array? || o.Dict? { CountedHeadIs(o, rest); }
    else if o.Bin? { SizedHeadIs((0xc4 + Place(o.k)) as byte, o.k, 0, |o.data|, o.data, rest); }
    else if o.Ext? { SizedHeadIs((0xc7 + Place(o.k)) as byte, o.k, 1, |o.data|, [o.tag] + o.data, rest); }
    else {
      var b := HeadBytes(o);
      assert b == [b[0]] + b[1..];
      FixedHeadIs(b[0], b[1..], rest);
    }
  }

  lemma CountedHeadIs(o: Object, rest: Bytes)
    requires Valid(o) && (o.Array? || o.Dict?)
    ensures SkipHead(HeadBytes(o) + rest) == Ok(|Items(o)|, rest)
  {
    hide Power256, PutBigEndian, SkipHead;
    var b := HeadBytes(o);
    if o.count.FixCount? { FixCountIs(b, rest); }
    else { CountHeadIs(b[0], o.count.k, if o.Dict? then 2 else 1, if o.Dict? then |o.items| / 2 else |o.items|, rest); }
  }

  // ---- The bytes of an object ----

  function ObjectBytes(o: Object): Bytes
    requires Valid(o)
    decreases o, 1, 0
  {
    HeadBytes(o) + ItemsFrom(o, 0)
  }

  function ItemsFrom(o: Object, j: nat): Bytes
    requires Valid(o) && j <= |Items(o)|
    decreases o, 0, |Items(o)| - j
  {
    if j == |Items(o)| then [] else ObjectBytes(Items(o)[j]) + ItemsFrom(o, j + 1)
  }

  lemma {:induction false} SkipsObject(o: Object, n: nat, rest: Bytes)
    requires Valid(o) && n > 0
    ensures SkipMany(n, ObjectBytes(o) + rest) == SkipMany(n - 1, rest)
    decreases o, 1, 0
  {
    hide SkipMany, SkipHead, HeadBytes, Valid;
    assert ObjectBytes(o) + rest == HeadBytes(o) + (ItemsFrom(o, 0) + rest);
    HeadIs(o, ItemsFrom(o, 0) + rest);
    SkipStep(n, ObjectBytes(o) + rest);
    SkipsItems(o, 0, n - 1, rest);
  }

  lemma {:induction false} SkipsItems(o: Object, j: nat, n: nat, rest: Bytes)
    requires Valid(o) && j <= |Items(o)|
    ensures SkipMany(n + |Items(o)| - j, ItemsFrom(o, j) + rest) == SkipMany(n, rest)
    decreases o, 0, |Items(o)| - j
  {
    hide SkipMany, ObjectBytes;
    if j == |Items(o)| {
      assert ItemsFrom(o, j) + rest == rest;
    } else {
      var item, after := Items(o)[j], ItemsFrom(o, j + 1) + rest;
      assert ItemsFrom(o, j) + rest == ObjectBytes(item) + after;
      SkipsObject(item, n + |Items(o)| - j, after);
      SkipsItems(o, j + 1, n, rest);
    }
  }

  // ---- Skipping takes only objects ----

  // Any object with that many items, for the bytes that were read as a head.
  lemma {:induction false} HeadOnly(b: Bytes) returns (o: Object)
    requires SkipHead(b).Ok?
    ensures Valid(o) && |Items(o)| == SkipHead(b).value && b == HeadBytes(o) + SkipHead(b).rest
    ensures forall i | 0 <= i < |Items(o)| :: Items(o)[i] == Nil
  {
    hide Power256, PutBigEndian, ReadSized, ReadNumber, Take;
    assert b == [b[0]] + b[1..];
    if b[0] < 0x80 { o := Number(PosFix, b[0] as int); }
    else if b[0] >= 0xe0 { o := Number(NegFix, b[0] as int - 0x100); }
    else if b[0] < 0x90 { o := Dict(FixCount, seq(2 * (b[0] as nat - 0x80), _ => Nil)); }
    else if b[0] < 0xa0 { o := Array(FixCount, seq(b[0] as nat - 0x90, _ => Nil)); }
    else if b[0] < 0xc0 {
      TakeRead(b[1..], b[0] as nat - 0xa0);
      o := Text(FixStr, Take(b[1..], b[0] as nat - 0xa0).value);
    }
    else { o := HighOnly(b[0], b[1..]); }
  }

  lemma HighOnly(format: byte, b: Bytes) returns (o: Object)
    requires 0xc0 <= format < 0xe0 && ReadHead(LayoutOf(format), b).Ok?
    ensures var p := ReadHead(LayoutOf(format), b);
      Valid(o) && |Items(o)| == p.value && [format] + b == HeadBytes(o) + p.rest
    ensures forall i | 0 <= i < |Items(o)| :: Items(o)[i] == Nil
  {
    hide Power256, PutBigEndian, ReadSized, ReadNumber, Take;
    if LayoutOf(format).Fixed? { o := FixedOnly(format, b); }
    else if LayoutOf(format).Sized? { o := SizedOnly(format, b); }
    else { o := CountedOnly(format, b); }
  }

  lemma CountedOnly(format: byte, b: Bytes) returns (o: Object)
    requires 0xc0 <= format < 0xe0 && LayoutOf(format).Counted? && ReadHead(LayoutOf(format), b).Ok?
    ensures var p := ReadHead(LayoutOf(format), b);
      Valid(o) && |Items(o)| == p.value && [format] + b == HeadBytes(o) + p.rest
    ensures forall i | 0 <= i < |Items(o)| :: Items(o)[i] == Nil
  {
    hide Power256, PutBigEndian, ReadNumber;
    var k := LayoutOf(format).k;
    NumberRead(b, k);
    var n := ReadNumber(b, k).value;
    o := if format < 0xde then Array(CountOf(k), seq(n, _ => Nil)) else Dict(CountOf(k), seq(2 * n, _ => Nil));
    hide LayoutOf;
  }

  lemma SizedOnly(format: byte, b: Bytes) returns (o: Object)
    requires 0xc0 <= format < 0xe0 && LayoutOf(format).Sized? && ReadHead(LayoutOf(format), b).Ok?
    ensures var p := ReadHead(LayoutOf(format), b);
      Valid(o) && |Items(o)| == p.value && [format] + b == HeadBytes(o) + p.rest
    ensures forall i | 0 <= i < |Items(o)| :: Items(o)[i] == Nil
  {
    hide Power256, PutBigEndian, ReadSized;
    var k, more := LayoutOf(format).k, LayoutOf(format).more;
    SizedRead(b, k, more);
    var data := ReadSized(b, k, more).value;
    if more == 1 {
      assert data == [data[0]] + data[1..];
      o := Ext(k, data[0], data[1..]);
    } else {
      o := if format < 0xd0 then Bin(k, data) else Text(StrOf(k), data);
    }
    assert [format] + (PutBigEndian(|data| - more, k) + data + ReadSized(b, k, more).rest)
        == [format] + PutBigEndian(|data| - more, k) + data + ReadSized(b, k, more).rest;
  }

  lemma FixedOnly(format: byte, b: Bytes) returns (o: Object)
    requires 0xc0 <= format < 0xe0 && LayoutOf(format).Fixed? && ReadHead(LayoutOf(format), b).Ok?
    ensures var p := ReadHead(LayoutOf(format), b);
      Valid(o) && |Items(o)| == p.value && [format] + b == HeadBytes(o) + p.rest
    ensures forall i | 0 <= i < |Items(o)| :: Items(o)[i] == Nil
  {
    hide Power256, PutBigEndian, Take;
    var n := LayoutOf(format).n;
    TakeRead(b, n);
    var data := Take(b, n).value;
    if format < 0xca {
      o := if format == 0xc0 then Nil else Bool(format == 0xc3);
      assert data == [];
    } else if format < 0xcc {
      o := Float(data);
    } else if format < 0xd4 {
      o := NumberOnly(format, data);
    } else {
      assert data == [data[0]] + data[1..];
      o := FixExt(data[0], data[1..]);
    }
    assert [format] + (data + Take(b, n).rest) == [format] + data + Take(b, n).rest;
  }

  lemma NumberOnly(format: byte, data: Bytes) returns (o: Object)
    requires 0xcc <= format < 0xd4
    requires |data| == WidthAt(if format < 0xd0 then format as nat - 0xcc else format as nat - 0xd0)
    ensures Valid(o) && Items(o) == [] && [format] + data == HeadBytes(o)
  {
    var b := [format] + data;
    assert b[1..] == data && data[..|data|] == data;
    hide Power256, PutBigEndian, BigEndian;
    var f := IntOnly(b);
    o := Number(f, ReadIntValue(b).value);
    assert ReadIntValue(b).rest == [];
  }

  predicate AllValid(os: seq<Object>) { forall i | 0 <= i < |os| :: Valid(os[i]) }

  // The bytes of objects one after the other.
  function AllBytes(os: seq<Object>): Bytes
    requires AllValid(os)
  {
    if os == [] then [] else ObjectBytes(os[0]) + AllBytes(os[1..])
  }

  lemma {:induction false} AllFrom(o: Object, j: nat)
    requires Valid(o) && j <= |Items(o)|
    ensures AllValid(Items(o)[j..]) && ItemsFrom(o, j) == AllBytes(Items(o)[j..])
    decreases |Items(o)| - j
  {
    hide ObjectBytes;
    if j < |Items(o)| {
      AllFrom(o, j + 1);
      assert Items(o)[j..][1..] == Items(o)[j + 1..];
    }
  }

  lemma {:induction false} AllAppend(a: seq<Object>, b: seq<Object>)
    requires AllValid(a) && AllValid(b)
    ensures AllBytes(a + b) == AllBytes(a) + AllBytes(b)
  {
    hide ObjectBytes;
    if a == [] {
      assert a + b == b;
    } else {
      AllAppend(a[1..], b);
      assert (a + b)[1..] == a[1..] + b;
      Assoc(ObjectBytes(a[0]), AllBytes(a[1..]), AllBytes(b));
    }
  }

  // With other items.
  function Refilled(o: Object, items: seq<Object>): Object {
    if o.Array? || o.Dict? then o.(items := items) else o
  }

  lemma RefilledIs(o: Object, items: seq<Object>)
    requires Valid(o) && |items| == |Items(o)| && AllValid(items)
    ensures Valid(Refilled(o, items))
    ensures Items(Refilled(o, items)) == items && HeadBytes(Refilled(o, items)) == HeadBytes(o)
  {
    if Items(o) == [] { assert items == []; }
  }

  // A head and the objects behind it: the first of them are its items.
  lemma Gather(head: Object, more: seq<Object>) returns (os: seq<Object>)
    requires Valid(head) && |Items(head)| <= |more| && AllValid(more)
    ensures |os| == 1 + |more| - |Items(head)| && AllValid(os)
    ensures AllBytes(os) == HeadBytes(head) + AllBytes(more)
  {
    hide HeadBytes, Valid, AllBytes, Items;
    var items, after := more[..|Items(head)|], more[|Items(head)|..];
    assert AllValid(items) && AllValid(after);
    hide AllValid;
    var o := Refilled(head, items);
    RefilledIs(head, items);
    AllFrom(o, 0);
    AllAppend(items, after);
    assert items + after == more && items[0..] == items;
    AllStep(o, after);
    os := [o] + after;
    Assoc(HeadBytes(o), AllBytes(items), AllBytes(after));
  }

  lemma AllStep(o: Object, after: seq<Object>)
    requires Valid(o) && AllValid(after)
    ensures AllValid([o] + after)
    ensures AllBytes([o] + after) == ObjectBytes(o) + AllBytes(after)
  {
    assert ([o] + after)[1..] == after;
    hide ObjectBytes, Valid;
  }

  // What was skipped was that many objects.
  lemma {:induction false} SkipsOnly(n: nat, b: Bytes) returns (os: seq<Object>)
    requires SkipMany(n, b).Some?
    ensures |os| == n && AllValid(os) && b == AllBytes(os) + SkipMany(n, b).value
    decreases |b|
  {
    hide SkipHead, HeadBytes, Valid, ObjectBytes;
    if n == 0 {
      os := [];
    } else {
      var p := SkipHead(b);
      var head := HeadOnly(b);
      var more := SkipsOnly(n - 1 + p.value, p.rest);
      os := Gather(head, more);
      var left := SkipMany(n, b).value;
      hide AllBytes, SkipMany, Items;
      Assoc(HeadBytes(head), AllBytes(more), left);
    }
  }

  // Skipping takes exactly one object, in any format.
  lemma SkipExactly(b: Bytes, rest: Bytes)
    ensures Skip(b) == Some(rest) <==> exists o :: Valid(o) && b == ObjectBytes(o) + rest
  {
    hide SkipMany, ObjectBytes, Valid;
    if Skip(b) == Some(rest) {
      var os := SkipsOnly(1, b);
      assert os[1..] == [];
      assert AllBytes(os) == ObjectBytes(os[0]) + [] == ObjectBytes(os[0]);
    }
    forall o | Valid(o) && b == ObjectBytes(o) + rest ensures Skip(b) == Some(rest) {
      SkipsObject(o, 1, rest);
      NothingToSkip(rest);
    }
  }

  lemma NothingToSkip(rest: Bytes)
    ensures SkipMany(0, rest) == Some(rest)
  {}
}
