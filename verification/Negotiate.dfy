/**
 Codec negotiation. Host and plugin exchange one length-prefixed message each and then use the same
 channel for frames. The text of the messages is a codec with a round trip; everything around it is
 concrete, so what is left on the channel after the handshake is known to the byte.
 */
module Negotiate {
  import opened Bytes
  import opened Frames
  import opened Options
  import opened Transport

  // A message codec: its name, and what tells two codecs of one name apart.
  datatype Codec = Codec(name: Bytes, id: nat)

  // The JSON text of the handshake request (the supported names) and response (the selected name);
  // marshalling and unmarshalling can fail.
  datatype Json = Json(
    putNames: seq<Bytes> -> Option<Bytes>, getNames: Bytes -> Option<seq<Bytes>>,
    putName: Bytes -> Option<Bytes>, getName: Bytes -> Option<Bytes>)

  // The text of a message can be read back, and its length fits the prefix.
  predicate FitsPrefix(text: Bytes) { 0 < |text| < TWO32 - 4 }

  predicate NamesRoundTrip(json: Json, names: seq<Bytes>) {
    var text := json.putNames(names);
    text.Some? && FitsPrefix(text.value) && json.getNames(text.value) == Some(names)
  }

  predicate NameRoundTrip(json: Json, name: Bytes) {
    var text := json.putName(name);
    text.Some? && FitsPrefix(text.value) && json.getName(text.value) == Some(name)
  }

  // What the channel makes of a write: it takes all of the buffer, or some of it and reports an error.
  datatype WriteResult = Done | Broken(count: nat)

  function Taken(b: Bytes, wr: WriteResult): Bytes {
    if wr.Done? || |b| <= wr.count then b else b[..wr.count]
  }

  // The message as it is handed to the channel; none if marshalling fails or filling the buffer panics.
  function Message(text: Option<Bytes>): Option<Bytes> {
    if text.Some? && Prefixed(text.value).Filled? then Some(Prefixed(text.value).bytes) else None
  }

  function Names(codecs: seq<Codec>): (names: seq<Bytes>)
    ensures |names| == |codecs| && forall i | 0 <= i < |codecs| :: names[i] == codecs[i].name
  {
    seq(|codecs|, i requires 0 <= i < |codecs| => codecs[i].name)
  }

  // ---- Length-prefixed messages ----

  // A 4-byte length and the text, in 32-bit arithmetic.
  function Prefixed(text: Bytes): Buffer {
    var size := (4 + |text| % TWO32) % TWO32;
    if size < 4 then SliceOutOfRange
    else Filled(PutUint32(|text| % TWO32) + text[..if size - 4 < |text| then size - 4 else |text|])
  }

  // The text of the next message and what follows it; none if it is cut, or its length is zero.
  function TakePrefixed(w: Bytes): Option<(Bytes, Bytes)> {
    if |w| < 4 then None
    else
      var n := Uint32(w[..4]);
      if n == 0 || |w| < 4 + n then None else Some((w[4..4 + n], w[4 + n..]))
  }

  lemma PrefixRoundTrip(text: Bytes, rest: Bytes)
    requires FitsPrefix(text)
    ensures Prefixed(text) == Filled(PutUint32(|text|) + text)
    ensures TakePrefixed(PutUint32(|text|) + text + rest) == Some((text, rest))
  {
    assert |text| % TWO32 == |text| && text[..|text|] == text;
    var w := PutUint32(|text|) + text + rest;
    Uint32OfPut(|text|);
    hide PutUint32, Uint32;
    assert w[..4] == PutUint32(|text|);
    assert w[4..4 + |text|] == text && w[4 + |text|..] == rest;
  }

  method FillPrefixed(text: Bytes) returns (filled: Buffer)
    ensures filled == Prefixed(text)
  {
    var length: uint32 := |text| % TWO32;
    var size := (4 + length) % TWO32;
    hide PutUint32;
    if size < 4 { return SliceOutOfRange; }
    var buf := new byte[size];
    SetUint32(buf, 0, length);
    ghost var head := PutUint32(length);
    assert buf[..4] == head;
    Copy(buf, 4, text);
    assert size - 4 >= |text| ==> buf[4 + |text|..] == [] && text[..|text|] == text;
    return Filled(buf[..]);
  }

  method ReadPrefixed(link: Link) returns (text: Option<Bytes>)
    modifies link
    ensures match TakePrefixed(old(link.ahead))
            case None => text == None
            case Some((t, rest)) => text == Some(t) && link.ahead == rest
  {
    var lenBuf := new byte[4];
    var fill := link.ReadFull(lenBuf);
    if !fill.Full? { return None; }
    assert lenBuf[0..4] == old(link.ahead)[..4];
    var n := GetUint32(lenBuf, 0);
    if n == 0 { return None; }
    var data := new byte[n];
    fill := link.ReadFull(data);
    if !fill.Full? { return None; }
    assert data[..] == old(link.ahead)[4..][..n] == old(link.ahead)[4..4 + n];
    return Some(data[..]);
  }

  // ---- The plugin ----

  // The first codec of the plugin's list whose name the host offers.
  function Select(supported: seq<Bytes>, codecs: seq<Codec>): Option<Codec> {
    if codecs == [] then None
    else if codecs[0].name in supported then Some(codecs[0])
    else Select(supported, codecs[1..])
  }

  method SelectCodec(supported: seq<Bytes>, codecs: seq<Codec>) returns (selected: Option<Codec>)
    ensures selected == Select(supported, codecs)
    ensures selected.None? ==> forall i | 0 <= i < |codecs| :: codecs[i].name !in supported
    ensures selected.Some? ==>
        exists i :: 0 <= i < |codecs| && codecs[i] == selected.value && codecs[i].name in supported
                                           && forall j | 0 <= j < i :: codecs[j].name !in supported
  {
    selected := None;
    var i := 0;
    while i < |codecs|
      invariant i <= |codecs| && selected.None?
      invariant forall j | 0 <= j < i :: codecs[j].name !in supported
      invariant Select(supported, codecs) == Select(supported, codecs[i..])
    {
      if codecs[i].name in supported { selected := Some(codecs[i]); }
      if selected.Some? { return; }
      assert codecs[i..][1..] == codecs[i + 1..];
      i := i + 1;
    }
  }

  // The negotiated codec, or failure; and what is then on the channel to read.
  datatype End = Ready(codec: Codec, rest: Bytes) | Failed

  // What the plugin makes of its channel, and what it writes.
  function PluginAnswer(json: Json, codecs: seq<Codec>, w: Bytes): Option<(Codec, Bytes, Bytes)> {
    if codecs == [] then None
    else match TakePrefixed(w)
         case None => None
         case Some((text, rest)) =>
           match json.getNames(text)
           case None => None
           case Some(supported) =>
             match Select(supported, codecs)
             case None => None
             case Some(c) =>
               match Message(json.putName(c.name)) case None => None case Some(answer) => Some((c, rest, answer))
  }

  function PluginEnd(json: Json, codecs: seq<Codec>, w: Bytes, wr: WriteResult): End {
    match PluginAnswer(json, codecs, w)
    case Some((c, rest, _)) => if wr.Done? then Ready(c, rest) else Failed
    case None => Failed
  }

  function PluginWrites(json: Json, codecs: seq<Codec>, w: Bytes, wr: WriteResult): Bytes {
    match PluginAnswer(json, codecs, w) case Some((_, _, answer)) => Taken(answer, wr) case None => []
  }

  // Marshals the text and fills the buffer.
  method FillMessage(text: Option<Bytes>) returns (message: Option<Bytes>)
    ensures message == Message(text)
  {
    if text.None? { return None; }
    var buf := FillPrefixed(text.value);
    if buf.SliceOutOfRange? { return None; }
    return Some(buf.bytes);
  }

  // `out` is what the channel takes of what the plugin hands it.
  method NegotiateFromPlugin(json: Json, codecs: seq<Codec>, link: Link, wr: WriteResult)
      returns (codec: Option<Codec>, out: Bytes)
    modifies link
    ensures out == PluginWrites(json, codecs, old(link.ahead), wr)
    ensures match PluginEnd(json, codecs, old(link.ahead), wr)
            case Ready(c, rest) => codec == Some(c) && link.ahead == rest
            case Failed => codec == None
  {
    hide TakePrefixed, Prefixed, Select, Message, Taken;
    if |codecs| == 0 { return None, []; }
    var text := ReadPrefixed(link);
    if text.None? { return None, []; }
    var supported := json.getNames(text.value);
    if supported.None? { return None, []; }
    var selected := SelectCodec(supported.value, codecs);
    if selected.None? { return None, []; }
    var answer := FillMessage(json.putName(selected.value.name));
    if answer.None? { return None, []; }
    out := Taken(answer.value, wr);
    if !wr.Done? { return None, out; }
    return selected, out;
  }

  // ---- The host ----

  // The host's look-up table: of two codecs with one name, the later.
  function CodecMap(codecs: seq<Codec>): map<Bytes, Codec> {
    if codecs == [] then map[] else CodecMap(codecs[..|codecs| - 1])[codecs[|codecs| - 1].name := codecs[|codecs| - 1]]
  }

  function HostRequest(json: Json, codecs: seq<Codec>): Option<Bytes> {
    if codecs == [] then None else Message(json.putNames(Names(codecs)))
  }

  function HostWrites(json: Json, codecs: seq<Codec>, wr: WriteResult): Bytes {
    match HostRequest(json, codecs) case Some(request) => Taken(request, wr) case None => []
  }

  function HostEnd(json: Json, codecs: seq<Codec>, wr: WriteResult, w: Bytes): End {
    if HostRequest(json, codecs).None? || !wr.Done? then Failed
    else match TakePrefixed(w)
         case None => Failed
         case Some((text, rest)) =>
           match json.getName(text)
           case None => Failed
           case Some(name) => if name in CodecMap(codecs) then Ready(CodecMap(codecs)[name], rest) else Failed
  }

  // The names in the order of the codecs, and the table.
  method ListCodecs(codecs: seq<Codec>) returns (names: seq<Bytes>, codecMap: map<Bytes, Codec>)
    ensures names == Names(codecs) && codecMap == CodecMap(codecs)
  {
    names, codecMap := [], map[];
    var i := 0;
    while i < |codecs|
      invariant i <= |codecs| && names == Names(codecs[..i]) && codecMap == CodecMap(codecs[..i])
    {
      assert codecs[..i + 1][..i] == codecs[..i];
      names := names + [codecs[i].name];
      codecMap := codecMap[codecs[i].name := codecs[i]];
      i := i + 1;
    }
    assert codecs[..i] == codecs;
  }

  // The host writes its request, then reads the answer from its channel.
  method NegotiateFromHost(json: Json, codecs: seq<Codec>, link: Link, wr: WriteResult)
      returns (codec: Option<Codec>, out: Bytes)
    modifies link
    ensures out == HostWrites(json, codecs, wr)
    ensures match HostEnd(json, codecs, wr, old(link.ahead))
            case Ready(c, rest) => codec == Some(c) && link.ahead == rest
            case Failed => codec == None
  {
    hide TakePrefixed, Prefixed, Message, Taken, CodecMap, Names;
    if |codecs| == 0 { return None, []; }
    var supportedNames, codecMap := ListCodecs(codecs);
    var request := FillMessage(json.putNames(supportedNames));
    if request.None? { return None, []; }
    out := Taken(request.value, wr);
    if !wr.Done? { return None, out; }
    var text := ReadPrefixed(link);
    if text.None? { return None, out; }
    var selected := json.getName(text.value);
    if selected.None? || selected.value !in codecMap { return None, out; }
    return Some(codecMap[selected.value]), out;
  }

  // ---- Exactly when each end succeeds ----

  // The channel begins with a message of this text.
  predicate Begins(w: Bytes, text: Bytes, rest: Bytes) {
    0 < |text| < TWO32 && w == PutUint32(|text|) + text + rest
  }

  lemma TakesExactly(w: Bytes, text: Bytes, rest: Bytes)
    ensures TakePrefixed(w) == Some((text, rest)) <==> Begins(w, text, rest)
  {
    if TakePrefixed(w) == Some((text, rest)) {
      var n := Uint32(w[..4]);
      PutOfBigEndian(w[..4]);
      assert w == w[..4] + w[4..4 + n] + w[4 + n..];
      hide PutUint32, Uint32;
    }
    if Begins(w, text, rest) {
      Uint32OfPut(|text|);
      hide PutUint32, Uint32;
      assert w[..4] == PutUint32(|text|);
      assert w[4..4 + |text|] == text && w[4 + |text|..] == rest;
    }
  }

  // A text goes out behind its length, cut to what 32 bits can say; four lengths below each multiple of
  // 2^32 panic.
  lemma MessageExactly(text: Bytes)
    ensures Message(Some(text))
         == if |text| % TWO32 > TWO32 - 5 then None
            else Some(PutUint32(|text| % TWO32) + text[..|text| % TWO32])
  {
    hide PutUint32;
    var n := |text| % TWO32;
    if n > TWO32 - 5 {
      assert (4 + n) % TWO32 == 4 + n - TWO32;
    } else {
      assert (4 + n) % TWO32 == 4 + n;
    }
  }

  ghost predicate FirstShared(codecs: seq<Codec>, names: seq<Bytes>, c: Codec) {
    exists i :: FirstAt(codecs, names, c, i)
  }

  predicate FirstAt(codecs: seq<Codec>, names: seq<Bytes>, c: Codec, i: int) {
    0 <= i < |codecs| && codecs[i] == c && c.name in names && forall j | 0 <= j < i :: codecs[j].name !in names
  }

  lemma {:induction false} SelectExactly(names: seq<Bytes>, codecs: seq<Codec>, c: Codec)
    ensures Select(names, codecs) == Some(c) <==> FirstShared(codecs, names, c)
  {
    if codecs != [] {
      SelectExactly(names, codecs[1..], c);
      if codecs[0].name in names {
        assert FirstAt(codecs, names, codecs[0], 0);
      } else {
        forall i | FirstAt(codecs[1..], names, c, i) ensures FirstAt(codecs, names, c, i + 1) {
          assert forall j | 0 < j < |codecs| :: codecs[j] == codecs[1..][j - 1];
        }
        forall i | FirstAt(codecs, names, c, i) ensures FirstAt(codecs[1..], names, c, i - 1) {}
      }
    }
  }

  // What the plugin reads from its channel: a message with the names that the host offers.
  ghost predicate Offered(json: Json, w: Bytes, names: seq<Bytes>, rest: Bytes) {
    exists text :: Begins(w, text, rest) && json.getNames(text) == Some(names)
  }

  // The plugin succeeds exactly if its channel begins with a readable offer that names one of its codecs,
  // and its answer can be sent; it then uses the first such codec, and leaves what follows.
  lemma PluginExactly(json: Json, codecs: seq<Codec>, w: Bytes, wr: WriteResult, c: Codec, rest: Bytes)
    ensures PluginEnd(json, codecs, w, wr) == Ready(c, rest)
            <==> wr.Done? && Message(json.putName(c.name)).Some?
                 && exists names :: Offered(json, w, names, rest) && FirstShared(codecs, names, c)
    ensures PluginEnd(json, codecs, w, wr) == Ready(c, rest) ==>
              Some(PluginWrites(json, codecs, w, wr)) == Message(json.putName(c.name))
  {
    hide TakePrefixed, Message, Begins, Taken;
    forall text, left ensures TakePrefixed(w) == Some((text, left)) <==> Begins(w, text, left) {
      TakesExactly(w, text, left);
    }
    if PluginAnswer(json, codecs, w).Some? {
      var (text, left) := TakePrefixed(w).value;
      var names := json.getNames(text).value;
      SelectExactly(names, codecs, PluginAnswer(json, codecs, w).value.0);
      assert Offered(json, w, names, left);
      hide Select, FirstShared;
    }
    forall names | Offered(json, w, names, rest) && FirstShared(codecs, names, c)
      ensures Message(json.putName(c.name)).Some? ==>
        PluginAnswer(json, codecs, w) == Some((c, rest, Message(json.putName(c.name)).value))
    {
      SelectExactly(names, codecs, c);
      hide Select;
    }
    DoneTakesAll(json, codecs, w);
  }

  lemma DoneTakesAll(json: Json, codecs: seq<Codec>, w: Bytes)
    ensures PluginAnswer(json, codecs, w).Some? ==>
              PluginWrites(json, codecs, w, Done) == PluginAnswer(json, codecs, w).value.2
  {}

  ghost predicate LastNamed(codecs: seq<Codec>, name: Bytes, c: Codec) { exists i :: LastAt(codecs, name, c, i) }

  predicate LastAt(codecs: seq<Codec>, name: Bytes, c: Codec, i: int) {
    0 <= i < |codecs| && codecs[i] == c && c.name == name && forall j | i < j < |codecs| :: codecs[j].name != name
  }

  lemma {:induction false} MapExactly(codecs: seq<Codec>, name: Bytes, c: Codec)
    ensures name in CodecMap(codecs) && CodecMap(codecs)[name] == c <==> LastNamed(codecs, name, c)
  {
    if codecs != [] {
      var before, last := codecs[..|codecs| - 1], codecs[|codecs| - 1];
      MapExactly(before, name, c);
      if last.name == name {
        assert LastAt(codecs, name, last, |codecs| - 1);
      } else {
        forall i | LastAt(before, name, c, i) ensures LastAt(codecs, name, c, i) {}
        forall i | LastAt(codecs, name, c, i) ensures LastAt(before, name, c, i) {}
      }
    }
  }

  ghost predicate Chosen(json: Json, w: Bytes, name: Bytes, rest: Bytes) {
    exists text :: Begins(w, text, rest) && json.getName(text) == Some(name)
  }

  // The host succeeds exactly if its offer was sent and its channel then begins with a readable answer that
  // names one of its codecs; of two codecs with that name it uses the later.
  lemma HostExactly(json: Json, codecs: seq<Codec>, wr: WriteResult, w: Bytes, c: Codec, rest: Bytes)
    ensures HostEnd(json, codecs, wr, w) == Ready(c, rest)
            <==> wr.Done? && Message(json.putNames(Names(codecs))).Some? && codecs != []
                 && exists name :: Chosen(json, w, name, rest) && LastNamed(codecs, name, c)
    ensures codecs != [] && wr.Done? && Message(json.putNames(Names(codecs))).Some? ==>
              Some(HostWrites(json, codecs, wr)) == Message(json.putNames(Names(codecs)))
  {
    hide TakePrefixed, Message, Begins, CodecMap, LastNamed, Names;
    forall text, left ensures TakePrefixed(w) == Some((text, left)) <==> Begins(w, text, left) {
      TakesExactly(w, text, left);
    }
    forall name ensures name in CodecMap(codecs) && CodecMap(codecs)[name] == c <==> LastNamed(codecs, name, c) {
      MapExactly(codecs, name, c);
    }
    if HostEnd(json, codecs, wr, w) == Ready(c, rest) {
      var (text, left) := TakePrefixed(w).value;
      assert Chosen(json, w, json.getName(text).value, left);
    }
  }

  // Of a write that breaks off, as many bytes of the message as the channel took, however many follow; a
  // message that cannot be made up leaves nothing on it.
  lemma PluginBreaksOff(json: Json, codecs: seq<Codec>, w: Bytes, wr: WriteResult)
    ensures var end, out := PluginEnd(json, codecs, w, Done), PluginWrites(json, codecs, w, wr);
      if end.Failed? then out == []
      else
        && Message(json.putName(end.codec.name)).Some?
        && var m := Message(json.putName(end.codec.name)).value;
           && out <= m && |out| == (if wr.Done? || |m| <= wr.count then |m| else wr.count)
           && (wr.Broken? ==> PluginEnd(json, codecs, w, wr) == Failed)
  {
    hide Message, Select, TakePrefixed;
  }

  lemma HostBreaksOff(json: Json, codecs: seq<Codec>, wr: WriteResult)
    ensures var request, out := Message(json.putNames(Names(codecs))), HostWrites(json, codecs, wr);
      if codecs == [] || request.None? then out == []
      else
        var m := request.value;
        && out <= m && |out| == (if wr.Done? || |m| <= wr.count then |m| else wr.count)
        && (wr.Broken? ==> forall w :: HostEnd(json, codecs, wr, w) == Failed)
  {
    hide Message;
  }

  // ---- Agreement ----

  lemma {:induction false} CodecMapHas(codecs: seq<Codec>, name: Bytes)
    ensures name in CodecMap(codecs) <==> name in Names(codecs)
    ensures name in CodecMap(codecs) ==> CodecMap(codecs)[name].name == name
  {
    if codecs != [] {
      var before, last := codecs[..|codecs| - 1], codecs[|codecs| - 1];
      CodecMapHas(before, name);
      assert Names(codecs) == Names(before) + [last.name];
    }
  }

  lemma {:induction false} SelectIsFirst(supported: seq<Bytes>, codecs: seq<Codec>)
    ensures var s := Select(supported, codecs);
      && (s.None? <==> forall i | 0 <= i < |codecs| :: codecs[i].name !in supported)
      && (s.Some? ==> s.value in codecs && s.value.name in supported)
  {
    if codecs != [] { SelectIsFirst(supported, codecs[1..]); }
  }

  // The choice depends on which names the host offers, not on their order.
  lemma {:induction false} OrderOfHost(names: seq<Bytes>, names': seq<Bytes>, codecs: seq<Codec>)
    requires forall n :: n in names <==> n in names'
    ensures Select(names, codecs) == Select(names', codecs)
  {
    if codecs != [] { OrderOfHost(names, names', codecs[1..]); }
  }

  // Some codec of the plugin has a name that the host offers.
  ghost predicate ShareName(host: seq<Codec>, plugin: seq<Codec>) {
    exists i :: 0 <= i < |plugin| && plugin[i].name in Names(host)
  }

  lemma MessageIs(text: Option<Bytes>, rest: Bytes)
    requires text.Some? && FitsPrefix(text.value)
    ensures Message(text) == Some(PutUint32(|text.value|) + text.value)
    ensures TakePrefixed(Message(text).value + rest) == Some((text.value, rest))
  {
    PrefixRoundTrip(text.value, rest);
    hide Prefixed, TakePrefixed, PutUint32;
  }

  lemma PluginReads(json: Json, host: seq<Codec>, plugin: seq<Codec>, hostBytes: Bytes)
    requires host != [] && plugin != [] && NamesRoundTrip(json, Names(host))
    requires forall i | 0 <= i < |plugin| :: NameRoundTrip(json, plugin[i].name)
    ensures var w, s := HostWrites(json, host, Done) + hostBytes, Select(Names(host), plugin);
      if s.None? then PluginEnd(json, plugin, w, Done) == Failed && PluginWrites(json, plugin, w, Done) == []
      else
        && PluginEnd(json, plugin, w, Done) == Ready(s.value, hostBytes)
        && NameRoundTrip(json, s.value.name)
        && Some(PluginWrites(json, plugin, w, Done)) == Message(json.putName(s.value.name))
  {
    hide TakePrefixed, Prefixed, Select, PutUint32, Message;
    var names, s := Names(host), Select(Names(host), plugin);
    MessageIs(json.putNames(names), hostBytes);
    SelectIsFirst(names, plugin);
    if s.Some? { MessageIs(json.putName(s.value.name), []); }
  }

  // Both ends finish with the same codec name, the first of the plugin's list that the host offers,
  // and each finds on its channel exactly what the other wrote after its handshake message, even if
  // that was before this end had read the message. They fail exactly if they share no name.
  lemma Agreement(json: Json, host: seq<Codec>, plugin: seq<Codec>, hostBytes: Bytes, pluginBytes: Bytes)
    requires host != [] && plugin != [] && NamesRoundTrip(json, Names(host))
    requires forall i | 0 <= i < |plugin| :: NameRoundTrip(json, plugin[i].name)
    ensures var w := HostWrites(json, host, Done) + hostBytes;
      var p := PluginEnd(json, plugin, w, Done);
      var h := HostEnd(json, host, Done, PluginWrites(json, plugin, w, Done) + if p.Ready? then pluginBytes else []);
      && (p.Ready? <==> ShareName(host, plugin)) && (h.Ready? <==> ShareName(host, plugin))
      && (ShareName(host, plugin) ==>
            && Some(p.codec) == Select(Names(host), plugin)
            && h.codec.name == p.codec.name
            && p.rest == hostBytes && h.rest == pluginBytes)
  {
    hide PluginEnd, PluginWrites, HostEnd, HostWrites, Select, PutUint32, NamesRoundTrip, NameRoundTrip, ShareName;
    var s := Select(Names(host), plugin);
    PluginReads(json, host, plugin, hostBytes);
    SelectsIfShared(host, plugin);
    if s.None? {
      assert PluginWrites(json, plugin, HostWrites(json, host, Done) + hostBytes, Done) + [] == [];
      HostReadsNothing(json, host);
    } else {
      HostReads(json, host, s.value.name, pluginBytes);
    }
  }

  lemma SelectsIfShared(host: seq<Codec>, plugin: seq<Codec>)
    ensures ShareName(host, plugin) <==> Select(Names(host), plugin).Some?
    ensures Select(Names(host), plugin).Some? ==> Select(Names(host), plugin).value.name in Names(host)
  {
    SelectIsFirst(Names(host), plugin);
    hide Select;
  }

  lemma HostReads(json: Json, host: seq<Codec>, name: Bytes, rest: Bytes)
    requires host != [] && NamesRoundTrip(json, Names(host)) && NameRoundTrip(json, name) && name in Names(host)
    ensures Message(json.putName(name)).Some?
    ensures var h := HostEnd(json, host, Done, Message(json.putName(name)).value + rest);
      h.Ready? && h.codec.name == name && h.rest == rest
  {
    hide TakePrefixed, Prefixed, PutUint32, CodecMap, Message;
    MessageIs(json.putNames(Names(host)), []);
    MessageIs(json.putName(name), rest);
    CodecMapHas(host, name);
  }

  lemma HostReadsNothing(json: Json, host: seq<Codec>)
    ensures HostEnd(json, host, Done, []) == Failed
  {
    NothingToTake();
    hide TakePrefixed;
  }

  lemma NothingToTake()
    ensures TakePrefixed([]) == None
  {}

  // The channel after the handshake holds frames: whatever frames either end writes from then on are
  // the frames that the other parses.
  lemma Handover(json: Json, host: seq<Codec>, plugin: seq<Codec>, hostFrames: seq<Frame>, pluginFrames: seq<Frame>)
    requires host != [] && plugin != [] && NamesRoundTrip(json, Names(host)) && ShareName(host, plugin)
    requires forall i | 0 <= i < |plugin| :: NameRoundTrip(json, plugin[i].name)
    requires Sized(hostFrames) && Sized(pluginFrames)
    ensures var w := HostWrites(json, host, Done) + EncodeAll(hostFrames);
      var p := PluginEnd(json, plugin, w, Done);
      var h := HostEnd(json, host, Done, PluginWrites(json, plugin, w, Done) + EncodeAll(pluginFrames));
      && p.Ready? && h.Ready?
      && ParseAll(p.rest) == Reading(hostFrames, AtBoundary)
      && ParseAll(h.rest) == Reading(pluginFrames, AtBoundary)
  {
    hide PluginEnd, PluginWrites, HostEnd, HostWrites, EncodeAll, ParseAll, ShareName, NamesRoundTrip, NameRoundTrip;
    Agreement(json, host, plugin, EncodeAll(hostFrames), EncodeAll(pluginFrames));
    AllParsed(hostFrames);
    AllParsed(pluginFrames);
  }

  lemma AllParsed(fs: seq<Frame>)
    requires Sized(fs)
    ensures ParseAll(EncodeAll(fs)) == Reading(fs, AtBoundary)
  {
    ParseAllEncodeAll(fs, []);
    ParseAllUnfolds([]);
    hide ParseAll;
    assert EncodeAll(fs) + [] == EncodeAll(fs) && fs + [] == fs;
  }

  // The host may offer its codecs in any order.
  lemma HostOrder(json: Json, host: seq<Codec>, host': seq<Codec>, plugin: seq<Codec>, rest: Bytes)
    requires host != [] && host' != [] && plugin != []
    requires NamesRoundTrip(json, Names(host)) && NamesRoundTrip(json, Names(host'))
    requires forall i | 0 <= i < |plugin| :: NameRoundTrip(json, plugin[i].name)
    requires forall n :: n in Names(host) <==> n in Names(host')
    ensures PluginEnd(json, plugin, HostWrites(json, host', Done) + rest, Done)
         == PluginEnd(json, plugin, HostWrites(json, host, Done) + rest, Done)
  {
    PluginReads(json, host, plugin, rest);
    PluginReads(json, host', plugin, rest);
    OrderOfHost(Names(host), Names(host'), plugin);
    hide PluginEnd, PluginWrites, HostWrites, Select;
  }
}
