/**
 What the generated codecs have in common: a message type is a tree of fields, an encoder writes the
 fields in order under their keys, and a decoder loops over the pairs of a map, reads the value of a
 key it knows into the field and skips the others. `Messages` proves the generated code to be this
 encoder and decoder for each of the seven types.
 */
module Schema {
  import opened Bytes
  import opened Options
  import opened MsgPack
  import Frames

  datatype Kind = StrKind | IntKind | Uint32Kind | StructKind(fields: seq<Field>)
  datatype Field = Field(key: Bytes, kind: Kind)

  // A value; a struct has one value per field.
  datatype Val = Str(s: Bytes) | Int(i: int) | Struct(vals: seq<Val>)

  predicate Shaped(k: Kind, v: Val)
    decreases k
  {
    match k
    case StrKind => v.Str?
    case IntKind => v.Int?
    case Uint32Kind => v.Int?
    case StructKind(fields) =>
      v.Struct? && |v.vals| == |fields| && forall i | 0 <= i < |fields| :: Shaped(fields[i].kind, v.vals[i])
  }

  // A value of the type: its integers fit.
  predicate Typed(k: Kind, v: Val)
    decreases k
  {
    match k
    case StrKind => v.Str?
    case IntKind => v.Int? && MIN_INT <= v.i <= MAX_INT
    case Uint32Kind => v.Int? && 0 <= v.i < TWO32
    case StructKind(fields) =>
      v.Struct? && |v.vals| == |fields| && forall i | 0 <= i < |fields| :: Typed(fields[i].kind, v.vals[i])
  }

  // The lengths of its strings can be written in 32 bits.
  predicate Short(k: Kind, v: Val)
    requires Shaped(k, v)
    decreases k
  {
    match k
    case StrKind => |v.s| < TWO32
    case StructKind(fields) => forall i | 0 <= i < |fields| :: Short(fields[i].kind, v.vals[i])
    case _ => true
  }

  lemma {:induction false} TypedIsShaped(k: Kind, v: Val)
    requires Typed(k, v)
    ensures Shaped(k, v)
    decreases k
  {
    if k.StructKind? {
      forall i | 0 <= i < |k.fields| ensures Shaped(k.fields[i].kind, v.vals[i]) {
        TypedIsShaped(k.fields[i].kind, v.vals[i]);
      }
    }
  }

  // Distinct keys, short enough to be strings, at every level.
  predicate WellFormed(k: Kind)
    decreases k
  {
    k.StructKind? ==>
      && |k.fields| < TWO32
      && (forall i | 0 <= i < |k.fields| :: |k.fields[i].key| < TWO32 && WellFormed(k.fields[i].kind))
      && (forall i, j | 0 <= i < j < |k.fields| :: k.fields[i].key != k.fields[j].key)
  }

  // ---- Encoding ----

  function Encode(k: Kind, v: Val): Bytes
    requires Typed(k, v)
    decreases k, 1, 0
  {
    match k
    case StrKind => AppendStr(v.s)
    case IntKind => AppendInt(v.i)
    case Uint32Kind => AppendUint(v.i)
    case StructKind(fields) => MapHeader(|fields|) + EncodeFrom(k, v, 0)
  }

  // The fields from `j` on.
  function EncodeFrom(k: Kind, v: Val, j: nat): Bytes
    requires k.StructKind? && Typed(k, v) && j <= |k.fields|
    decreases k, 0, |k.fields| - j
  {
    if j == |k.fields| then []
    else AppendStr(k.fields[j].key) + Encode(k.fields[j].kind, v.vals[j]) + EncodeFrom(k, v, j + 1)
  }

  // An upper bound for its length.
  function Size(k: Kind, v: Val): nat
    requires Typed(k, v)
    decreases k, 1, 0
  {
    match k
    case StrKind => 5 + |v.s|
    case IntKind => 9
    case Uint32Kind => 5
    case StructKind(fields) => |MapHeader(|fields|)| + SizeFrom(k, v, 0)
  }

  function SizeFrom(k: Kind, v: Val, j: nat): nat
    requires k.StructKind? && Typed(k, v) && j <= |k.fields|
    decreases k, 0, |k.fields| - j
  {
    if j == |k.fields| then 0
    else |AppendStr(k.fields[j].key)| + Size(k.fields[j].kind, v.vals[j]) + SizeFrom(k, v, j + 1)
  }

  // ---- Decoding ----

  // The field with a key; the number of fields if there is none.
  function Index(fields: seq<Field>, key: Bytes): (i: nat)
    ensures i <= |fields| && (i < |fields| ==> fields[i].key == key)
    ensures forall j | 0 <= j < i :: fields[j].key != key
  {
    if fields == [] then 0
    else if fields[0].key == key then 0
    else 1 + Index(fields[1..], key)
  }

  function ReadAs(p: Parse<int>): Parse<Val> {
    match p case Ok(i, rest) => Ok(Int(i), rest) case Err => Err
  }

  // Decodes over the old value `z`, as the receiver of `UnmarshalMsg`.
  function Decode(k: Kind, z: Val, b: Bytes): (r: Parse<Val>)
    requires Shaped(k, z)
    ensures r.Ok? ==> Shaped(k, r.value) && (Typed(k, z) ==> Typed(k, r.value))
    decreases k, 1, 0
  {
    match k
    case StrKind => (match ReadStr(b) case Ok(s, rest) => Ok(Str(s), rest) case Err => Err)
    case IntKind => ReadAs(ReadWithin(b, MIN_INT, MAX_INT))
    case Uint32Kind => ReadAs(ReadWithin(b, 0, TWO32 - 1))
    case StructKind(_) =>
      match ReadMapHeader(b)
      case Ok(n, rest) => DecodePairs(k, n, z, rest)
      case Err => Err
  }

  // Reading looks only at what it consumes.
  lemma {:induction false} DecodeLocal(k: Kind, z: Val, b: Bytes, more: Bytes)
    requires Shaped(k, z)
    ensures Decode(k, z, b).Ok? ==> Decode(k, z, b + more) == Ok(Decode(k, z, b).value, Decode(k, z, b).rest + more)
    decreases k, 1, 0
  {
    hide ReadStr, ReadIntValue, ReadMapHeader, DecodePairs;
    StrLocal(b, more);
    IntLocal(b, more);
    if k.StructKind? {
      HeaderLocal(b, more);
      var p := ReadMapHeader(b);
      if p.Ok? { PairsLocal(k, p.value, z, p.rest, more); }
    }
  }

  lemma {:induction false} PairsLocal(k: Kind, n: nat, z: Val, b: Bytes, more: Bytes)
    requires k.StructKind? && Shaped(k, z)
    ensures DecodePairs(k, n, z, b).Ok? ==>
        DecodePairs(k, n, z, b + more) == Ok(DecodePairs(k, n, z, b).value, DecodePairs(k, n, z, b).rest + more)
    decreases k, 0, n, 1
  {
    hide ReadStr, DecodeField, Shaped;
    if n > 0 && ReadStr(b).Ok? {
      StrLocal(b, more);
      var p := ReadStr(b);
      var i := Index(k.fields, p.value);
      FieldLocal(k, z, i, p.rest, more);
      var r := DecodeField(k, z, i, p.rest);
      if r.Ok? { PairsLocal(k, n - 1, r.value, r.rest, more); }
    }
  }

  lemma {:induction false} FieldLocal(k: Kind, z: Val, i: nat, b: Bytes, more: Bytes)
    requires k.StructKind? && Shaped(k, z) && i <= |k.fields|
    ensures DecodeField(k, z, i, b).Ok? ==>
        DecodeField(k, z, i, b + more) == Ok(DecodeField(k, z, i, b).value, DecodeField(k, z, i, b).rest + more)
    decreases k, 0, 0, 0
  {
    hide Decode, SkipMany;
    if i < |k.fields| { DecodeLocal(k.fields[i].kind, z.vals[i], b, more); } else { SkipLocal(1, b, more); }
  }

  // The loop over `n` pairs.
  function DecodePairs(k: Kind, n: nat, z: Val, b: Bytes): (r: Parse<Val>)
    requires k.StructKind? && Shaped(k, z)
    ensures r.Ok? ==> Shaped(k, r.value) && (Typed(k, z) ==> Typed(k, r.value))
    decreases k, 0, n, 1
  {
    if n == 0 then Ok(z, b)
    else match ReadStr(b)
         case Err => Err
         case Ok(key, rest) =>
           match DecodeField(k, z, Index(k.fields, key), rest)
           case Ok(z', rest') => DecodePairs(k, n - 1, z', rest')
           case Err => Err
  }

  // The value of a pair: into the field with its key, or skipped.
  function DecodeField(k: Kind, z: Val, i: nat, b: Bytes): (r: Parse<Val>)
    requires k.StructKind? && Shaped(k, z) && i <= |k.fields|
    ensures r.Ok? ==> Shaped(k, r.value) && (Typed(k, z) ==> Typed(k, r.value))
    decreases k, 0, 0, 0
  {
    if i < |k.fields| then
      match Decode(k.fields[i].kind, z.vals[i], b)
      case Ok(v, rest) => Ok(Struct(z.vals[i := v]), rest)
      case Err => Err
    else
      match Skip(b) case Some(rest) => Ok(z, rest) case None => Err
  }

  // ---- Round trip and size, for every message type ----

  lemma IndexOfKey(fields: seq<Field>, j: nat)
    requires j < |fields| && forall i | 0 <= i < j :: fields[i].key != fields[j].key
    ensures Index(fields, fields[j].key) == j
  {}

  // Decoding what was encoded gives the same value back, over any old value, and leaves exactly the
  // bytes that follow.
  lemma {:induction false} RoundTrip(k: Kind, v: Val, z: Val, rest: Bytes)
    requires WellFormed(k) && Typed(k, v) && Shaped(k, v) && Short(k, v) && Shaped(k, z)
    ensures Decode(k, z, Encode(k, v) + rest) == Ok(v, rest)
    decreases k, 1, 0
  {
    hide ReadStr, AppendStr, AppendInt, AppendUint, ReadIntValue, ReadMapHeader, MapHeader, DecodePairs;
    match k
    case StrKind => StrRoundTrip(v.s, rest);
    case IntKind => IntRoundTrip(v.i, rest);
    case Uint32Kind => UintRoundTrip(v.i, rest);
    case StructKind(fields) =>
      var b := EncodeFrom(k, v, 0) + rest;
      HeaderRoundTrip(|fields|, b);
      assert Encode(k, v) + rest == MapHeader(|fields|) + b;
      PairsRoundTrip(k, v, z, 0, rest);
  }

  lemma {:induction false} PairsRoundTrip(k: Kind, v: Val, z: Val, j: nat, rest: Bytes)
    requires WellFormed(k) && k.StructKind? && Typed(k, v) && Shaped(k, v) && Short(k, v) && Shaped(k, z)
    requires j <= |k.fields| && z.vals[..j] == v.vals[..j]
    ensures DecodePairs(k, |k.fields| - j, z, EncodeFrom(k, v, j) + rest) == Ok(v, rest)
    decreases k, 0, |k.fields| - j, 1
  {
    hide ReadStr, AppendStr, WellFormed, Short, Index, DecodeField;
    if j < |k.fields| {
      var f, after := k.fields[j], EncodeFrom(k, v, j + 1) + rest;
      var value := Encode(f.kind, v.vals[j]) + after;
      assert EncodeFrom(k, v, j) + rest == AppendStr(f.key) + value;
      KeyRoundTrip(k, j, value);
      FieldRoundTrip(k, v, z, j, after);
      hide Encode;
      var z' := Struct(z.vals[j := v.vals[j]]);
      assert z'.vals[..j + 1] == v.vals[..j + 1];
      PairsRoundTrip(k, v, z', j + 1, rest);
    } else {
      assert z.vals == v.vals && EncodeFrom(k, v, j) + rest == rest;
    }
  }

  lemma KeyRoundTrip(k: Kind, j: nat, rest: Bytes)
    requires WellFormed(k) && k.StructKind? && j < |k.fields|
    ensures ReadStr(AppendStr(k.fields[j].key) + rest) == Ok(k.fields[j].key, rest)
    ensures Index(k.fields, k.fields[j].key) == j
  {
    StrRoundTrip(k.fields[j].key, rest);
    IndexOfKey(k.fields, j);
  }

  lemma FieldRoundTrip(k: Kind, v: Val, z: Val, j: nat, after: Bytes)
    requires WellFormed(k) && k.StructKind? && Typed(k, v) && Shaped(k, v) && Short(k, v) && Shaped(k, z)
        && j < |k.fields|
    ensures DecodeField(k, z, j, Encode(k.fields[j].kind, v.vals[j]) + after)
        == Ok(Struct(z.vals[j := v.vals[j]]), after)
    ensures Shaped(k, Struct(z.vals[j := v.vals[j]]))
    decreases k, 0, |k.fields| - j, 0
  {
    RoundTrip(k.fields[j].kind, v.vals[j], z.vals[j], after);
    hide Decode, Encode;
  }

  lemma {:induction false} EncodeFits(k: Kind, v: Val)
    requires Typed(k, v)
    ensures |Encode(k, v)| <= Size(k, v)
    decreases k, 1, 0
  {
    match k
    case StrKind =>
    case IntKind => IntRoundTrip(v.i, []);
    case Uint32Kind => UintRoundTrip(v.i, []);
    case StructKind(_) => FieldsFit(k, v, 0);
  }

  lemma {:induction false} FieldsFit(k: Kind, v: Val, j: nat)
    requires k.StructKind? && Typed(k, v) && j <= |k.fields|
    ensures |EncodeFrom(k, v, j)| <= SizeFrom(k, v, j)
    decreases k, 0, |k.fields| - j
  {
    if j < |k.fields| {
      EncodeFits(k.fields[j].kind, v.vals[j]);
      FieldsFit(k, v, j + 1);
    }
  }

  lemma SizedIsShort(b: Bytes, k: nat)
    ensures ReadSized(b, k, 0).Ok? ==> |ReadSized(b, k, 0).value| < Power256(k)
  {
    if k <= |b| { PutOfBigEndian(b[..k]); }
    hide BigEndian, PutBigEndian, Power256;
  }

  lemma StrIsShort(b: Bytes)
    ensures ReadStr(b).Ok? ==> |ReadStr(b).value| < TWO32
  {
    hide ReadSized, Power256;
    Power256Values();
    if b != [] {
      SizedIsShort(b[1..], 1);
      SizedIsShort(b[1..], 2);
      SizedIsShort(b[1..], 4);
    }
  }

  // A decoder never makes a string longer than its length field allows.
  lemma {:induction false} DecodeIsShort(k: Kind, z: Val, b: Bytes)
    requires Shaped(k, z) && Short(k, z)
    ensures Decode(k, z, b).Ok? ==> Short(k, Decode(k, z, b).value)
    decreases k, 1, 0
  {
    if k.StrKind? {
      StrIsShort(b);
      hide ReadStr;
    } else if k.StructKind? {
      var p := ReadMapHeader(b);
      hide ReadMapHeader;
      if p.Ok? { PairsAreShort(k, p.value, z, p.rest); }
    }
  }

  lemma FieldIsShort(k: Kind, z: Val, i: nat, b: Bytes)
    requires k.StructKind? && Shaped(k, z) && Short(k, z) && i <= |k.fields|
    requires i < |k.fields| && Decode(k.fields[i].kind, z.vals[i], b).Ok? ==>
               Short(k.fields[i].kind, Decode(k.fields[i].kind, z.vals[i], b).value)
    ensures DecodeField(k, z, i, b).Ok? ==> Short(k, DecodeField(k, z, i, b).value)
  {
    hide Decode, Skip;
  }

  lemma {:induction false} PairsAreShort(k: Kind, n: nat, z: Val, b: Bytes)
    requires k.StructKind? && Shaped(k, z) && Short(k, z)
    ensures DecodePairs(k, n, z, b).Ok? ==> Short(k, DecodePairs(k, n, z, b).value)
    decreases k, 0, n + 1
  {
    hide ReadStr, DecodeField, Decode, Short;
    if n > 0 && ReadStr(b).Ok? {
      var p := ReadStr(b);
      var i := Index(k.fields, p.value);
      if i < |k.fields| { PartIsShort(k, z, i, p.rest); }
      FieldIsShort(k, z, i, p.rest);
      var r := DecodeField(k, z, i, p.rest);
      if r.Ok? { PairsAreShort(k, n - 1, r.value, r.rest); }
    }
  }

  lemma {:induction false} PartIsShort(k: Kind, z: Val, i: nat, b: Bytes)
    requires k.StructKind? && Shaped(k, z) && Short(k, z) && i < |k.fields|
    ensures Decode(k.fields[i].kind, z.vals[i], b).Ok? ==>
              Short(k.fields[i].kind, Decode(k.fields[i].kind, z.vals[i], b).value)
    decreases k, 0, 0
  {
    assert Short(k.fields[i].kind, z.vals[i]);
    hide Decode, Short;
    DecodeIsShort(k.fields[i].kind, z.vals[i], b);
  }

  // A value survives encoding and decoding exactly if its strings are under 2^32 bytes; the length of
  // a longer one is written without its high bits.
  lemma RoundTripExactly(k: Kind, v: Val, z: Val, rest: Bytes)
    requires WellFormed(k) && Typed(k, v) && Shaped(k, v) && Shaped(k, z) && Short(k, z)
    ensures Decode(k, z, Encode(k, v) + rest) == Ok(v, rest) <==> Short(k, v)
  {
    if Short(k, v) { RoundTrip(k, v, z, rest); }
    DecodeIsShort(k, z, Encode(k, v) + rest);
    hide Decode, Encode, Short;
  }

  // ---- In a frame ----

  lemma {:induction false} FitsIsShort(k: Kind, v: Val)
    requires Typed(k, v) && Shaped(k, v) && |Encode(k, v)| < TWO32
    ensures Short(k, v)
    decreases k, 1, 0
  {
    if k.StructKind? {
      forall i | 0 <= i < |k.fields| ensures Short(k.fields[i].kind, v.vals[i]) {
        PartFits(k, v, 0, i);
        FitsIsShort(k.fields[i].kind, v.vals[i]);
      }
    }
  }

  // A field is encoded inside its struct.
  lemma {:induction false} PartFits(k: Kind, v: Val, j: nat, i: nat)
    requires k.StructKind? && Typed(k, v) && j <= i < |k.fields|
    ensures |Encode(k.fields[i].kind, v.vals[i])| <= |EncodeFrom(k, v, j)|
    decreases i - j
  {
    hide Encode, AppendStr;
    if j < i { PartFits(k, v, j + 1, i); }
  }

  // An encoding of which a frame carries a proper beginning is not read as its value.
  lemma CutIsAnother(k: Kind, v: Val, z: Val, n: nat)
    requires WellFormed(k) && Typed(k, v) && Shaped(k, v) && Shaped(k, z) && Short(k, z)
    requires n < |Encode(k, v)|
    ensures var r := Decode(k, z, Encode(k, v)[..n]); r.Ok? ==> r.value != v
  {
    hide Decode, Encode, Short, WellFormed;
    var b := Encode(k, v);
    assert b[..n] + b[n..] == b == b + [];
    DecodeIsShort(k, z, b[..n]);
    DecodeLocal(k, z, b[..n], b[n..]);
    if Short(k, v) { RoundTrip(k, v, z, []); }
  }

  // A value that a writer can put into a frame is read back from that frame, over any old value,
  // exactly if its encoding has at most 2^32-13 bytes.
  lemma FrameExactly(k: Kind, v: Val, z: Val)
    requires WellFormed(k) && Typed(k, v) && Shaped(k, v) && Shaped(k, z) && Short(k, z)
    requires Frames.Writable(Encode(k, v))
    ensures var r := Decode(k, z, Frames.Carried(Encode(k, v))); r.Ok? && r.value == v <==> |Encode(k, v)| <= TWO32 - 13
  {
    hide Decode, Encode, Short, WellFormed;
    var b := Encode(k, v);
    Frames.CarriedExactly(b);
    if |b| <= TWO32 - 13 {
      FitsIsShort(k, v);
      RoundTrip(k, v, z, []);
      assert b + [] == b;
    } else {
      CutIsAnother(k, v, z, |b| % TWO32);
    }
  }

  // ---- Skipping an encoded value ----

  lemma {:induction false} SkipValue(k: Kind, v: Val, n: nat, rest: Bytes)
    requires WellFormed(k) && Typed(k, v) && Shaped(k, v) && Short(k, v) && n > 0
    ensures SkipMany(n, Encode(k, v) + rest) == SkipMany(n - 1, rest)
    decreases k, 1, 0
  {
    hide SkipMany, SkipHead, Encode;
    HeadOfValue(k, v, rest);
    SkipStep(n, Encode(k, v) + rest);
    if k.StructKind? { SkipFields(k, v, 0, n - 1, rest); }
  }

  lemma HeadOfValue(k: Kind, v: Val, rest: Bytes)
    requires WellFormed(k) && Typed(k, v) && Shaped(k, v) && Short(k, v)
    ensures SkipHead(Encode(k, v) + rest)
         == if k.StructKind? then Ok(2 * |k.fields|, EncodeFrom(k, v, 0) + rest) else Ok(0, rest)
  {
    hide SkipHead, AppendStr, AppendUint, MapHeader, EncodeFrom;
    match k
    case StrKind => StrHead(v.s, rest);
    case IntKind => IntHead(v.i, rest);
    case Uint32Kind => IntHead(v.i, rest);
    case StructKind(fields) =>
      MapHead(|fields|, EncodeFrom(k, v, 0) + rest);
      assert Encode(k, v) + rest == MapHeader(|fields|) + (EncodeFrom(k, v, 0) + rest);
  }

  lemma {:induction false} SkipFields(k: Kind, v: Val, j: nat, n: nat, rest: Bytes)
    requires WellFormed(k) && k.StructKind? && Typed(k, v) && Shaped(k, v) && Short(k, v) && j <= |k.fields|
    ensures SkipMany(n + 2 * (|k.fields| - j), EncodeFrom(k, v, j) + rest) == SkipMany(n, rest)
    decreases k, 0, |k.fields| - j
  {
    hide SkipMany, SkipHead, AppendStr;
    if j == |k.fields| {
      assert EncodeFrom(k, v, j) + rest == rest;
    } else {
      var f, m, after := k.fields[j], n + 2 * (|k.fields| - j), EncodeFrom(k, v, j + 1) + rest;
      var value := Encode(f.kind, v.vals[j]) + after;
      assert EncodeFrom(k, v, j) + rest == AppendStr(f.key) + value;
      StrHead(f.key, value);
      SkipStep(m, AppendStr(f.key) + value);
      SkipValue(f.kind, v.vals[j], m - 1, after);
      SkipFields(k, v, j + 1, n, rest);
    }
  }

  // An encoded value is one object: skipping it leaves exactly what follows.
  lemma SkipEncoded(k: Kind, v: Val, rest: Bytes)
    requires WellFormed(k) && Typed(k, v) && Shaped(k, v) && Short(k, v)
    ensures Skip(Encode(k, v) + rest) == Some(rest)
  {
    SkipValue(k, v, 1, rest);
    hide Encode;
  }
}
