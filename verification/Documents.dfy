/**
 What a decoder makes of any map, not only of the encoder's own: pairs in any order, keys it does not
 know, keys that are missing and keys that are repeated, at every level of nesting.
 */
module Documents {
  import opened Bytes
  import opened Options
  import opened MsgPack
  import opened Formats
  import opened Schema

  // An encoded object: a string, a number, a map of pairs, or any object; each header, key and value in
  // any of its formats.
  datatype Doc =
    | Text(form: StrForm, s: Bytes) | Number(width: IntForm, i: int)
    | Map(count: CountForm, pairs: seq<Pair>) | Other(o: Object)
  datatype Pair = Pair(form: StrForm, key: Bytes, value: Doc)

  // The formats can hold what is in them.
  predicate Proper(d: Doc)
    decreases d
  {
    match d
    case Text(form, s) => StrFits(form, s)
    case Number(width, i) => IntFits(width, i)
    case Map(count, pairs) =>
      CountFits(count, |pairs|)
      && forall j | 0 <= j < |pairs| :: StrFits(pairs[j].form, pairs[j].key) && Proper(pairs[j].value)
    case Other(o) => Valid(o)
  }

  function Written(d: Doc): Bytes
    requires Proper(d)
    decreases d, 0
  {
    match d
    case Text(form, s) => StrBytes(form, s)
    case Number(width, i) => IntBytes(width, i)
    case Map(count, pairs) => MapBytes(count, |pairs|) + WrittenFrom(d, 0)
    case Other(o) => ObjectBytes(o)
  }

  function WrittenFrom(d: Doc, j: nat): Bytes
    requires d.Map? && Proper(d) && j <= |d.pairs|
    decreases d, 0, |d.pairs| - j
  {
    if j == |d.pairs| then []
    else StrBytes(d.pairs[j].form, d.pairs[j].key) + Written(d.pairs[j].value) + WrittenFrom(d, j + 1)
  }

  // A document for a message type: the values of known keys are of their field's type, and the values
  // of other keys are any objects.
  predicate Fits(k: Kind, d: Doc)
    decreases d
  {
    Proper(d) &&
    match k
    case StrKind => d.Text?
    case IntKind => d.Number? && MIN_INT <= d.i <= MAX_INT
    case Uint32Kind => d.Number? && 0 <= d.i < TWO32
    case StructKind(_) => d.Map? && forall j | 0 <= j < |d.pairs| :: FitsPair(k, d.pairs[j])
  }

  predicate FitsPair(k: Kind, p: Pair)
    requires k.StructKind?
    decreases p
  {
    var i := Index(k.fields, p.key);
    && StrFits(p.form, p.key)
    && if i < |k.fields| then Fits(k.fields[i].kind, p.value) else Proper(p.value) && p.value.Other?
  }

  // What the document says, over the old value `z`: its pairs applied in order.
  function Meaning(k: Kind, z: Val, d: Doc): (v: Val)
    requires Shaped(k, z) && Fits(k, d)
    ensures Shaped(k, v)
    decreases d, 1, 0
  {
    match k
    case StrKind => Str(d.s)
    case IntKind => Int(d.i)
    case Uint32Kind => Int(d.i)
    case StructKind(_) => MeaningFrom(k, z, d, 0)
  }

  function MeaningFrom(k: Kind, z: Val, d: Doc, j: nat): (v: Val)
    requires k.StructKind? && Shaped(k, z) && Fits(k, d) && j <= |d.pairs|
    ensures Shaped(k, v)
    decreases d, 0, |d.pairs| - j
  {
    if j == |d.pairs| then z
    else
      assert FitsPair(k, d.pairs[j]);
      MeaningFrom(k, PairMeaning(k, z, d.pairs[j]), d, j + 1)
  }

  // One pair: its value goes into the field with its key, if there is one.
  function PairMeaning(k: Kind, z: Val, p: Pair): (v: Val)
    requires k.StructKind? && Shaped(k, z) && FitsPair(k, p)
    ensures Shaped(k, v)
    decreases p, 2, 0
  {
    var i := Index(k.fields, p.key);
    if i < |k.fields| then Struct(z.vals[i := Meaning(k.fields[i].kind, z.vals[i], p.value)]) else z
  }

  // ---- The decoder computes it ----

  lemma DecodeMap(k: Kind, z: Val, count: CountForm, n: nat, b: Bytes)
    requires k.StructKind? && Shaped(k, z) && CountFits(count, n)
    ensures Decode(k, z, MapBytes(count, n) + b) == DecodePairs(k, n, z, b)
  {
    hide ReadMapHeader, DecodePairs, MapBytes;
    MapReads(count, n, b);
  }

  lemma ScalarIsMeaning(k: Kind, z: Val, d: Doc, rest: Bytes)
    requires !k.StructKind? && Shaped(k, z) && Fits(k, d)
    ensures Decode(k, z, Written(d) + rest) == Ok(Meaning(k, z, d), rest)
  {
    hide ReadStr, ReadIntValue, StrBytes, IntBytes, StrFits, IntFits;
    if k.StrKind? { StrReads(d.form, d.s, rest); } else { IntReads(d.width, d.i, rest); }
  }

  // The decoder reads any document, whatever follows it, and leaves exactly that.
  lemma {:induction false} DecodeIsMeaning(k: Kind, z: Val, d: Doc, rest: Bytes)
    requires Shaped(k, z) && Fits(k, d)
    ensures Decode(k, z, Written(d) + rest) == Ok(Meaning(k, z, d), rest)
    decreases d, 1, 0
  {
    hide ReadMapHeader, DecodePairs, Decode, Fits, Shaped, MapBytes, Proper, CountFits;
    if k.StructKind? {
      PairsFit(k, d);
      var b := WrittenFrom(d, 0) + rest;
      assert Written(d) + rest == MapBytes(d.count, |d.pairs|) + b;
      DecodeMap(k, z, d.count, |d.pairs|, b);
      PairsAreMeaning(k, z, d, 0, rest);
    } else {
      ScalarIsMeaning(k, z, d, rest);
    }
  }

  lemma PairsFit(k: Kind, d: Doc)
    requires k.StructKind? && Fits(k, d)
    ensures d.Map? && Proper(d) && CountFits(d.count, |d.pairs|)
    ensures forall j | 0 <= j < |d.pairs| :: FitsPair(k, d.pairs[j])
  {}

  lemma FitsIsProper(k: Kind, p: Pair)
    requires k.StructKind? && FitsPair(k, p)
    ensures StrFits(p.form, p.key) && Proper(p.value)
  {}

  lemma PairIsMeaning(k: Kind, z: Val, p: Pair, after: Bytes)
    requires k.StructKind? && Shaped(k, z) && FitsPair(k, p)
    ensures Proper(p.value)
    ensures DecodeField(k, z, Index(k.fields, p.key), Written(p.value) + after) == Ok(PairMeaning(k, z, p), after)
    decreases p, 2, 0
  {
    FitsIsProper(k, p);
    hide Decode, Meaning, Fits, SkipMany, Proper, Valid, ObjectBytes;
    var i := Index(k.fields, p.key);
    if i < |k.fields| {
      hide Written;
      DecodeIsMeaning(k.fields[i].kind, z.vals[i], p.value, after);
    } else {
      OtherIsSkipped(p.value, after);
    }
  }

  lemma OtherIsSkipped(d: Doc, after: Bytes)
    requires d.Other? && Proper(d)
    ensures Skip(Written(d) + after) == Some(after)
  {
    hide SkipMany, ObjectBytes, Valid;
    SkipsObject(d.o, 1, after);
    NothingToSkip(after);
  }

  lemma {:induction false} PairsAreMeaning(k: Kind, z: Val, d: Doc, j: nat, rest: Bytes)
    requires k.StructKind? && Shaped(k, z) && Fits(k, d) && j <= |d.pairs|
    ensures DecodePairs(k, |d.pairs| - j, z, WrittenFrom(d, j) + rest) == Ok(MeaningFrom(k, z, d, j), rest)
    decreases d, 0, |d.pairs| - j
  {
    hide ReadStr, PairMeaning, DecodeField, Fits, FitsPair, Meaning, Proper, StrBytes, StrFits, CountFits;
    PairsFit(k, d);
    if j == |d.pairs| {
      assert WrittenFrom(d, j) + rest == rest;
    } else {
      var p, after := d.pairs[j], WrittenFrom(d, j + 1) + rest;
      FitsIsProper(k, p);
      var value := Written(p.value) + after;
      assert WrittenFrom(d, j) + rest == StrBytes(p.form, p.key) + value;
      StrReads(p.form, p.key, value);
      PairIsMeaning(k, z, p, after);
      PairsAreMeaning(k, PairMeaning(k, z, p), d, j + 1, rest);
      hide Written;
    }
  }

  // ---- It accepts nothing else ----

  function PairsBytes(pairs: seq<Pair>): Bytes
    requires forall j | 0 <= j < |pairs| :: StrFits(pairs[j].form, pairs[j].key) && Proper(pairs[j].value)
  {
    if pairs == [] then []
    else StrBytes(pairs[0].form, pairs[0].key) + Written(pairs[0].value) + PairsBytes(pairs[1..])
  }

  lemma {:induction false} WrittenTail(d: Doc, j: nat)
    requires d.Map? && Proper(d) && j <= |d.pairs|
    ensures WrittenFrom(d, j) == PairsBytes(d.pairs[j..])
    decreases |d.pairs| - j
  {
    hide StrBytes, Written;
    if j < |d.pairs| {
      WrittenTail(d, j + 1);
      assert d.pairs[j..][1..] == d.pairs[j + 1..];
    }
  }

  // What a decoder accepts is a document for its type.
  lemma {:induction false} Accepted(k: Kind, z: Val, b: Bytes) returns (d: Doc)
    requires Shaped(k, z) && Decode(k, z, b).Ok?
    ensures Fits(k, d) && b == Written(d) + Decode(k, z, b).rest
    decreases k, 1, 0
  {
    hide ReadStr, ReadIntValue, ReadMapHeader, StrFits, IntFits, CountFits, StrBytes, IntBytes, MapBytes, FitsPair;
    match k
    case StrKind =>
      var form := StrOnly(b);
      d := Doc.Text(form, ReadStr(b).value);
    case IntKind =>
      var width := IntOnly(b);
      d := Doc.Number(width, ReadIntValue(b).value);
    case Uint32Kind =>
      var width := IntOnly(b);
      d := Doc.Number(width, ReadIntValue(b).value);
    case StructKind(_) =>
      d := MapAccepted(k, z, b);
  }

  lemma {:induction false} MapAccepted(k: Kind, z: Val, b: Bytes) returns (d: Doc)
    requires k.StructKind? && Shaped(k, z) && Decode(k, z, b).Ok?
    ensures Fits(k, d) && b == Written(d) + Decode(k, z, b).rest
    decreases k, 0, ReadMapHeader(b).value, 2
  {
    hide ReadMapHeader, CountFits, MapBytes, FitsPair, DecodePairs, StrFits, Shaped;
    var p := ReadMapHeader(b);
    var count := MapOnly(b);
    var pairs := PairsAccepted(k, p.value, z, p.rest);
    d := Map(count, pairs);
    forall j | 0 <= j < |pairs| ensures StrFits(pairs[j].form, pairs[j].key) && Proper(pairs[j].value) {
      FitsIsProper(k, pairs[j]);
    }
    WrittenTail(d, 0);
    assert pairs[0..] == pairs;
    Assoc(MapBytes(count, |pairs|), PairsBytes(pairs), Decode(k, z, b).rest);
  }

  lemma {:induction false} PairsAccepted(k: Kind, n: nat, z: Val, b: Bytes) returns (pairs: seq<Pair>)
    requires k.StructKind? && Shaped(k, z) && DecodePairs(k, n, z, b).Ok?
    ensures |pairs| == n && forall j | 0 <= j < |pairs| :: FitsPair(k, pairs[j])
    ensures forall j | 0 <= j < |pairs| :: StrFits(pairs[j].form, pairs[j].key) && Proper(pairs[j].value)
    ensures b == PairsBytes(pairs) + DecodePairs(k, n, z, b).rest
    decreases k, 0, n, 1
  {
    hide ReadStr, DecodeField, FitsPair, Proper, StrFits, StrBytes, Shaped, Index;
    if n == 0 {
      pairs := [];
    } else {
      var key := ReadStr(b);
      var i := Index(k.fields, key.value);
      var form := StrOnly(b);
      var value := FieldAccepted(k, z, i, key.rest);
      var r := DecodeField(k, z, i, key.rest);
      var more := PairsAccepted(k, n - 1, r.value, r.rest);
      var p := Pair(form, key.value, value);
      assert FitsPair(k, p) by { PairFits(k, p); }
      pairs := [p] + more;
      assert pairs[1..] == more;
      Regroup(StrBytes(form, key.value), Written(value), PairsBytes(more), DecodePairs(k, n, z, b).rest);
      hide Written;
    }
  }

  lemma Regroup(a: Bytes, b: Bytes, c: Bytes, d: Bytes)
    ensures a + (b + (c + d)) == a + b + c + d
  {}

  lemma PairFits(k: Kind, p: Pair)
    requires k.StructKind? && StrFits(p.form, p.key)
    requires if Index(k.fields, p.key) < |k.fields| then Fits(k.fields[Index(k.fields, p.key)].kind, p.value)
             else Proper(p.value) && p.value.Other?
    ensures FitsPair(k, p)
  {}

  lemma {:induction false} FieldAccepted(k: Kind, z: Val, i: nat, b: Bytes) returns (d: Doc)
    requires k.StructKind? && Shaped(k, z) && i <= |k.fields| && DecodeField(k, z, i, b).Ok?
    ensures Proper(d) && (if i < |k.fields| then Fits(k.fields[i].kind, d) else d.Other?)
    ensures b == Written(d) + DecodeField(k, z, i, b).rest
    decreases k, 0, 0, 0
  {
    hide Decode, SkipMany, ObjectBytes, Valid;
    if i < |k.fields| {
      d := Accepted(k.fields[i].kind, z.vals[i], b);
    } else {
      SkipExactly(b, DecodeField(k, z, i, b).rest);
      var o :| Valid(o) && b == ObjectBytes(o) + DecodeField(k, z, i, b).rest;
      d := Other(o);
    }
  }

  // A decoder reads exactly the documents for its type, as what they say.
  lemma DecodesExactly(k: Kind, z: Val, b: Bytes, v: Val, rest: Bytes)
    requires Shaped(k, z)
    ensures Decode(k, z, b) == Ok(v, rest)
            <==> exists d :: Fits(k, d) && b == Written(d) + rest && v == Meaning(k, z, d)
  {
    hide Decode, Written, Meaning, Shaped, Proper, FitsPair;
    if Decode(k, z, b) == Ok(v, rest) {
      var d := Accepted(k, z, b);
      DecodeIsMeaning(k, z, d, rest);
    }
    forall d | Fits(k, d) && b == Written(d) + rest && v == Meaning(k, z, d) ensures Decode(k, z, b) == Ok(v, rest) {
      DecodeIsMeaning(k, z, d, rest);
    }
  }

  // ---- It depends on each key's own values only ----

  // The values of the pairs with a key, from pair `j` on.
  function Values(pairs: seq<Pair>, key: Bytes): seq<Doc> {
    if pairs == [] then []
    else (if pairs[0].key == key then [pairs[0].value] else []) + Values(pairs[1..], key)
  }

  ghost predicate AllFit(k: Kind, ds: seq<Doc>) { forall j | 0 <= j < |ds| :: Fits(k, ds[j]) }

  // Several values for one field: each over what the ones before it made.
  ghost function Successive(k: Kind, z: Val, ds: seq<Doc>): (v: Val)
    requires Shaped(k, z) && AllFit(k, ds)
    ensures Shaped(k, v)
    decreases |ds|
  {
    if ds == [] then z else Successive(k, Meaning(k, z, ds[0]), ds[1..])
  }

  lemma {:induction false} ValuesFit(k: Kind, pairs: seq<Pair>, i: nat)
    requires k.StructKind? && WellFormed(k) && i < |k.fields|
    requires forall j | 0 <= j < |pairs| :: FitsPair(k, pairs[j])
    ensures AllFit(k.fields[i].kind, Values(pairs, k.fields[i].key))
  {
    if pairs != [] {
      IndexOfKey(k.fields, i);
      ValuesFit(k, pairs[1..], i);
      assert FitsPair(k, pairs[0]);
      hide Fits, Written;
    }
  }

  lemma PairAtField(k: Kind, z: Val, p: Pair, i: nat)
    requires k.StructKind? && WellFormed(k) && Shaped(k, z) && FitsPair(k, p) && i < |k.fields|
    ensures PairMeaning(k, z, p).vals[i]
         == if p.key == k.fields[i].key then IndexOfKey(k.fields, i); Meaning(k.fields[i].kind, z.vals[i], p.value)
            else z.vals[i]
  {
    IndexOfKey(k.fields, i);
  }

  // Each field of the result comes from the values under its key, in their order, and nothing else.
  lemma {:induction false} FieldByField(k: Kind, z: Val, d: Doc, j: nat, i: nat)
    requires k.StructKind? && WellFormed(k) && Shaped(k, z) && Fits(k, d) && j <= |d.pairs| && i < |k.fields|
    ensures AllFit(k.fields[i].kind, Values(d.pairs[j..], k.fields[i].key))
    ensures MeaningFrom(k, z, d, j).vals[i] == Successive(k.fields[i].kind, z.vals[i],
        Values(d.pairs[j..], k.fields[i].key))
    decreases |d.pairs| - j
  {
    hide Fits, FitsPair, Meaning, PairMeaning, WellFormed;
    PairsFit(k, d);
    ValuesFit(k, d.pairs[j..], i);
    if j < |d.pairs| {
      var p, rest, key := d.pairs[j], d.pairs[j + 1..], k.fields[i].key;
      assert d.pairs[j..] == [p] + rest;
      ValuesStep(p, rest, key);
      PairAtField(k, z, p, i);
      FieldByField(k, PairMeaning(k, z, p), d, j + 1, i);
      hide Values, Shaped, AllFit;
    }
  }

  lemma ValuesStep(p: Pair, rest: seq<Pair>, key: Bytes)
    ensures Values([p] + rest, key) == if p.key == key then [p.value] + Values(rest, key) else Values(rest, key)
    ensures p.key == key ==> Values([p] + rest, key)[0] == p.value && Values([p] + rest, key)[1..] == Values(rest, key)
  {
    assert ([p] + rest)[1..] == rest;
    if p.key == key { assert ([p.value] + Values(rest, key))[1..] == Values(rest, key); }
  }

  // ---- Documents that say the same ----

  // At every level, each known key has the same values in the same order; other pairs, and the order
  // of different keys, do not matter.
  ghost predicate Same(k: Kind, d: Doc, d': Doc)
    decreases k, 0
  {
    if k.StructKind? then
      && d.Map? && d'.Map?
      && forall i | 0 <= i < |k.fields| ::
           SameAll(k.fields[i].kind, Values(d.pairs, k.fields[i].key), Values(d'.pairs, k.fields[i].key))
    else
      (d.Text? && d'.Text? && d.s == d'.s) || (d.Number? && d'.Number? && d.i == d'.i)
  }

  ghost predicate SameAll(k: Kind, ds: seq<Doc>, ds': seq<Doc>)
    decreases k, 1
  {
    |ds| == |ds'| && forall j | 0 <= j < |ds| :: Same(k, ds[j], ds'[j])
  }

  lemma {:induction false} SameSuccessive(k: Kind, z: Val, ds: seq<Doc>, ds': seq<Doc>)
    requires WellFormed(k) && Shaped(k, z) && AllFit(k, ds) && AllFit(k, ds') && SameAll(k, ds, ds')
    ensures Successive(k, z, ds) == Successive(k, z, ds')
    decreases k, 2, |ds|
  {
    if ds != [] {
      SameMeaning(k, z, ds[0], ds'[0]);
      hide Fits, Same, Meaning, WellFormed, Shaped;
      SameSuccessive(k, Meaning(k, z, ds[0]), ds[1..], ds'[1..]);
    }
  }

  lemma {:induction false} SameMeaning(k: Kind, z: Val, d: Doc, d': Doc)
    requires WellFormed(k) && Shaped(k, z) && Fits(k, d) && Fits(k, d') && Same(k, d, d')
    ensures Meaning(k, z, d) == Meaning(k, z, d')
    decreases k, 1
  {
    if k.StructKind? {
      var v, v' := MeaningFrom(k, z, d, 0), MeaningFrom(k, z, d', 0);
      forall i | 0 <= i < |k.fields| ensures v.vals[i] == v'.vals[i] { SameField(k, z, d, d', i); }
      assert v.vals == v'.vals;
    }
  }

  lemma {:induction false} SameField(k: Kind, z: Val, d: Doc, d': Doc, i: nat)
    requires k.StructKind? && WellFormed(k) && Shaped(k, z) && Fits(k, d) && Fits(k, d') && Same(k, d, d')
        && i < |k.fields|
    ensures MeaningFrom(k, z, d, 0).vals[i] == MeaningFrom(k, z, d', 0).vals[i]
    decreases k, 0
  {
    assert d.pairs[0..] == d.pairs && d'.pairs[0..] == d'.pairs;
    FieldByField(k, z, d, 0, i);
    FieldByField(k, z, d', 0, i);
    var f := k.fields[i];
    assert SameAll(f.kind, Values(d.pairs, f.key), Values(d'.pairs, f.key));
    assert WellFormed(f.kind) && Shaped(f.kind, z.vals[i]);
    hide MeaningFrom, Fits, Same, Values, Shaped, WellFormed;
    SameSuccessive(f.kind, z.vals[i], Values(d.pairs, f.key), Values(d'.pairs, f.key));
  }

  // Any reordering of the pairs of a map, at any level, and any pairs with other keys, leave what is
  // decoded the same.
  lemma OrderIndependent(k: Kind, z: Val, d: Doc, d': Doc, rest: Bytes)
    requires WellFormed(k) && Shaped(k, z) && Fits(k, d) && Fits(k, d') && Same(k, d, d')
    ensures Decode(k, z, Written(d') + rest) == Decode(k, z, Written(d) + rest)
  {
    hide Decode, Meaning, Fits, Same, WellFormed, Shaped;
    DecodeIsMeaning(k, z, d, rest);
    DecodeIsMeaning(k, z, d', rest);
    SameMeaning(k, z, d, d');
  }

  // A key that is absent keeps the old value; of a repeated scalar the last value counts.
  lemma AbsentAndRepeated(k: Kind, z: Val, d: Doc, i: nat)
    requires k.StructKind? && WellFormed(k) && Shaped(k, z) && Fits(k, d) && i < |k.fields|
    ensures var v, docs, kind := Meaning(k, z, d).vals[i], Values(d.pairs, k.fields[i].key), k.fields[i].kind;
      && (docs == [] ==> v == z.vals[i])
      && (docs != [] && kind.StrKind? ==> docs[|docs| - 1].Text? && v == Str(docs[|docs| - 1].s))
      && (docs != [] && (kind.IntKind? || kind.Uint32Kind?) ==>
            docs[|docs| - 1].Number? && v == Int(docs[|docs| - 1].i))
  {
    assert d.pairs[0..] == d.pairs;
    FieldByField(k, z, d, 0, i);
    var kind, docs := k.fields[i].kind, Values(d.pairs, k.fields[i].key);
    assert Shaped(kind, z.vals[i]);
    if docs != [] && !kind.StructKind? {
      hide MeaningFrom, Values, FitsPair;
      LastCounts(kind, z.vals[i], docs);
    }
  }

  lemma {:induction false} LastCounts(k: Kind, z: Val, ds: seq<Doc>)
    requires !k.StructKind? && Shaped(k, z) && AllFit(k, ds) && ds != []
    ensures var d := ds[|ds| - 1];
      if k.StrKind? then d.Text? && Successive(k, z, ds) == Str(d.s)
      else d.Number? && Successive(k, z, ds) == Int(d.i)
    decreases |ds|
  {
    assert Fits(k, ds[0]);
    if |ds| > 1 { LastCounts(k, Meaning(k, z, ds[0]), ds[1..]); }
  }

  // ---- Reordering and extra pairs, at one level ----

  predicate DistinctKeys(pairs: seq<Pair>, key: Bytes) {
    forall i, j | 0 <= i < j < |pairs| && pairs[i].key == key :: pairs[j].key != key
  }

  // One of the pairs says that this key has this value, whatever form the key is written in.
  ghost predicate Says(pairs: seq<Pair>, key: Bytes, value: Doc) {
    exists i :: 0 <= i < |pairs| && pairs[i].key == key && pairs[i].value == value
  }

  lemma {:induction false} ValuesOfOne(pairs: seq<Pair>, key: Bytes, value: Doc)
    requires DistinctKeys(pairs, key) && Says(pairs, key, value)
    ensures Values(pairs, key) == [value]
  {
    var i :| 0 <= i < |pairs| && pairs[i].key == key && pairs[i].value == value;
    if i == 0 {
      ValuesOfNone(pairs[1..], key);
    } else {
      assert pairs[1..][i - 1] == pairs[i];
      ValuesOfOne(pairs[1..], key, value);
    }
  }

  lemma {:induction false} ValuesOfNone(pairs: seq<Pair>, key: Bytes)
    requires forall i | 0 <= i < |pairs| :: pairs[i].key != key
    ensures Values(pairs, key) == []
  {
    if pairs != [] { ValuesOfNone(pairs[1..], key); }
  }

  // They have the same pairs with known keys.
  ghost predicate SameKnown(k: Kind, ps: seq<Pair>, qs: seq<Pair>)
    requires k.StructKind?
  {
    forall key: Bytes, value: Doc | Index(k.fields, key) < |k.fields| :: Says(ps, key, value) <==> Says(qs, key, value)
  }

  // Two maps whose known keys are distinct and that have the same known pairs, in whatever order and
  // among whatever others, give each field the same values.
  lemma SamePairs(k: Kind, ps: seq<Pair>, qs: seq<Pair>, i: nat)
    requires k.StructKind? && WellFormed(k) && i < |k.fields|
    requires DistinctKeys(ps, k.fields[i].key) && DistinctKeys(qs, k.fields[i].key)
    requires SameKnown(k, ps, qs)
    ensures Values(ps, k.fields[i].key) == Values(qs, k.fields[i].key)
  {
    var key := k.fields[i].key;
    IndexOfKey(k.fields, i);
    if j :| 0 <= j < |ps| && ps[j].key == key {
      assert Says(ps, key, ps[j].value);
      ValuesOfOne(ps, key, ps[j].value);
      ValuesOfOne(qs, key, ps[j].value);
    } else {
      ValuesOfNone(ps, key);
      forall j | 0 <= j < |qs| ensures qs[j].key != key {
        if qs[j].key == key { assert Says(qs, key, qs[j].value); }
      }
      ValuesOfNone(qs, key);
    }
  }

  lemma {:induction false} SameSelf(k: Kind, d: Doc)
    requires WellFormed(k) && Fits(k, d)
    ensures Same(k, d, d)
    decreases k
  {
    if k.StructKind? {
      forall i | 0 <= i < |k.fields|
        ensures SameAll(k.fields[i].kind, Values(d.pairs, k.fields[i].key), Values(d.pairs, k.fields[i].key))
      {
        ValuesFit(k, d.pairs, i);
        forall v | v in Values(d.pairs, k.fields[i].key) ensures Same(k.fields[i].kind, v, v) {
          SameSelf(k.fields[i].kind, v);
        }
      }
    }
  }

  // So a map decodes to the same struct when its pairs are permuted, pairs with unknown keys are
  // inserted or removed, and its header and keys are written in other formats.
  lemma Rearranged(k: Kind, z: Val, d: Doc, d': Doc, rest: Bytes)
    requires k.StructKind? && WellFormed(k) && Shaped(k, z) && Fits(k, d) && Fits(k, d')
    requires forall i | 0 <= i < |k.fields| ::
               DistinctKeys(d.pairs, k.fields[i].key) && DistinctKeys(d'.pairs, k.fields[i].key)
    requires SameKnown(k, d.pairs, d'.pairs)
    ensures Decode(k, z, Written(d') + rest) == Decode(k, z, Written(d) + rest)
  {
    SameSelf(k, d);
    forall i | 0 <= i < |k.fields| ensures Values(d.pairs, k.fields[i].key) == Values(d'.pairs, k.fields[i].key) {
      SamePairs(k, d.pairs, d'.pairs, i);
    }
    hide Decode, Written, Fits, WellFormed, Shaped, Values, Index, DistinctKeys;
    OrderIndependent(k, z, d, d', rest);
  }
}
