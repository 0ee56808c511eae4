/**
 The requests and responses of the host's client as the payloads of frames: what `WriteMessage` hands to
 the writer, and what `ReadMessage` makes of what the frame carries.
 */
module HostCodec {
  import opened Bytes
  import opened Options
  import opened MsgPack
  import opened Schema
  import opened Messages
  import Documents
  import Frames

  // A negotiated codec, for the two message types.
  datatype Codec = Codec(
    marshalRequest: IPCReqMessage -> Bytes, unmarshalRequest: Bytes -> Option<IPCReqMessage>,
    marshalResponse: IPCRespMessage -> Bytes, unmarshalResponse: Bytes -> Option<IPCRespMessage>)

  // If a message is written, it is not read as another one.
  predicate RequestKept(codec: Codec, m: IPCReqMessage) {
    var b := codec.marshalRequest(m);
    var r := codec.unmarshalRequest(Frames.Carried(b));
    Frames.Writable(b) && r.Some? ==> r.value == m
  }

  predicate ResponseKept(codec: Codec, m: IPCRespMessage) {
    var b := codec.marshalResponse(m);
    var r := codec.unmarshalResponse(Frames.Carried(b));
    Frames.Writable(b) && r.Some? ==> r.value == m
  }

  // A message can be written, and is read as itself.
  predicate RequestCrosses(codec: Codec, m: IPCReqMessage) {
    var b := codec.marshalRequest(m);
    Frames.Writable(b) && codec.unmarshalRequest(Frames.Carried(b)) == Some(m)
  }

  predicate ResponseCrosses(codec: Codec, m: IPCRespMessage) {
    var b := codec.marshalResponse(m);
    Frames.Writable(b) && codec.unmarshalResponse(Frames.Carried(b)) == Some(m)
  }

  // ---- MessagePack ----

  const NO_TASK: TaskInfo := TaskInfo(0, [])
  const NO_RESULT: TaskResult := TaskResult([], ExtraResult([], []))
  const ZERO_REQUEST: IPCReqMessage := IPCReqMessage(0, [], RequestPayload([], NO_TASK))
  const ZERO_RESPONSE: IPCRespMessage := IPCRespMessage(0, [], ResponsePayload(0, NO_RESULT))

  function RequestBytes(m: IPCReqMessage): Bytes { Encode(IPC_REQ_MESSAGE, IPCReqMessageVal(m)) }

  function ResponseBytes(m: IPCRespMessage): Bytes { Encode(IPC_RESP_MESSAGE, IPCRespMessageVal(m)) }

  // Decodes over the zero value; bytes left behind the message are ignored.
  function RequestOf(b: Bytes): Option<IPCReqMessage> {
    match Decode(IPC_REQ_MESSAGE, IPCReqMessageVal(ZERO_REQUEST), b)
    case Ok(v, _) => Some(IPCReqMessageOf(v))
    case Err => None
  }

  function ResponseOf(b: Bytes): Option<IPCRespMessage> {
    match Decode(IPC_RESP_MESSAGE, IPCRespMessageVal(ZERO_RESPONSE), b)
    case Ok(v, _) => Some(IPCRespMessageOf(v))
    case Err => None
  }

  const MSGPACK: Codec :=
    Codec(m => RequestBytes(m), b => RequestOf(b), m => ResponseBytes(m), b => ResponseOf(b))

  // `ReadMessage` on a payload, by the generated code.
  method ReadRequest(data: Bytes) returns (r: Option<IPCReqMessage>)
    ensures r == RequestOf(data)
  {
    hide Decode;
    var into := new Cell(ZERO_REQUEST);
    var left := UnmarshalIPCReqMessage(into, data);
    r := if left.Some? then Some(into.v) else None;
    ValuesAreFaithful();
  }

  method ReadResponse(data: Bytes) returns (r: Option<IPCRespMessage>)
    ensures r == ResponseOf(data)
  {
    hide Decode;
    var into := new Cell(ZERO_RESPONSE);
    var left := UnmarshalIPCRespMessage(into, data);
    r := if left.Some? then Some(into.v) else None;
    ValuesAreFaithful();
  }

  // The structs with zero in every number and nothing in every string.
  const BLANK_REQUEST: Val := Struct([Int(0), Str([]), Struct([Str([]), Struct([Int(0), Str([])])])])
  const BLANK_RESPONSE: Val :=
    Struct([Int(0), Str([]), Struct([Int(0), Struct([Str([]), Struct([Str([]), Str([])])])])])

  // The bytes begin with a document that says this message: fields that it does not name are blank.
  ghost predicate Says(k: Kind, blank: Val, b: Bytes, v: Val, d: Documents.Doc, rest: Bytes) {
    && Shaped(k, blank) && Documents.Fits(k, d) && b == Documents.Written(d) + rest
    && v == Documents.Meaning(k, blank, d)
  }

  // A payload is read as a message if and only if it begins with a document that says it.
  lemma RequestReads(b: Bytes, m: IPCReqMessage)
    ensures RequestOf(b) == Some(m)
            <==> exists d, rest :: Says(IPC_REQ_MESSAGE, BLANK_REQUEST, b, IPCReqMessageVal(m), d, rest)
  {
    assert BLANK_REQUEST == IPCReqMessageVal(ZERO_REQUEST);
    ValuesAreFaithful();
    hide Decode;
    DecodesSays(IPC_REQ_MESSAGE, BLANK_REQUEST, b, IPCReqMessageVal(m));
    hide Says;
  }

  lemma ResponseReads(b: Bytes, m: IPCRespMessage)
    ensures ResponseOf(b) == Some(m)
            <==> exists d, rest :: Says(IPC_RESP_MESSAGE, BLANK_RESPONSE, b, IPCRespMessageVal(m), d, rest)
  {
    assert BLANK_RESPONSE == IPCRespMessageVal(ZERO_RESPONSE);
    ValuesAreFaithful();
    hide Decode;
    DecodesSays(IPC_RESP_MESSAGE, BLANK_RESPONSE, b, IPCRespMessageVal(m));
    hide Says;
  }

  lemma DecodesSays(k: Kind, blank: Val, b: Bytes, v: Val)
    requires Shaped(k, blank)
    ensures Decode(k, blank, b).Ok? && Decode(k, blank, b).value == v
            <==> exists d, rest :: Says(k, blank, b, v, d, rest)
  {
    hide Decode, Says;
    if Decode(k, blank, b).Ok? { DecodesRest(k, blank, b, v, Decode(k, blank, b).rest); }
    forall d, rest | Says(k, blank, b, v, d, rest) ensures Decode(k, blank, b) == Ok(v, rest) {
      DecodesRest(k, blank, b, v, rest);
    }
  }

  lemma DecodesRest(k: Kind, blank: Val, b: Bytes, v: Val, rest: Bytes)
    requires Shaped(k, blank)
    ensures Decode(k, blank, b) == Ok(v, rest) <==> exists d :: Says(k, blank, b, v, d, rest)
  {
    hide Decode, Documents.Written, Documents.Meaning, Shaped, Documents.FitsPair;
    if Decode(k, blank, b) == Ok(v, rest) {
      var d := Documents.Accepted(k, blank, b);
      Documents.DecodeIsMeaning(k, blank, d, rest);
      assert Says(k, blank, b, v, d, rest);
    }
    forall d | Says(k, blank, b, v, d, rest) ensures Decode(k, blank, b) == Ok(v, rest) {
      Documents.DecodeIsMeaning(k, blank, d, rest);
    }
  }

  // A request that its writer sends is read as itself exactly if its encoding has at most 2^32-13 bytes.
  lemma RequestExactly(m: IPCReqMessage)
    requires Frames.Writable(RequestBytes(m))
    ensures RequestOf(Frames.Carried(RequestBytes(m))) == Some(m) <==> |RequestBytes(m)| <= TWO32 - 13
  {
    hide Decode, Encode, Short, WellFormed;
    KindsAreWellFormed();
    assert IPCReqMessageShort(ZERO_REQUEST);
    FrameExactly(IPC_REQ_MESSAGE, IPCReqMessageVal(m), IPCReqMessageVal(ZERO_REQUEST));
    ValuesAreFaithful();
  }

  lemma ResponseExactly(m: IPCRespMessage)
    requires Frames.Writable(ResponseBytes(m))
    ensures ResponseOf(Frames.Carried(ResponseBytes(m))) == Some(m) <==> |ResponseBytes(m)| <= TWO32 - 13
  {
    hide Decode, Encode, Short, WellFormed;
    KindsAreWellFormed();
    assert IPCRespMessageShort(ZERO_RESPONSE);
    FrameExactly(IPC_RESP_MESSAGE, IPCRespMessageVal(m), IPCRespMessageVal(ZERO_RESPONSE));
    ValuesAreFaithful();
  }

  // ---- A request that is read as another ----

  // A command of 2^32 bytes and those of `c`: behind `c` it has the key of the payload and another payload.
  function LongCommand(c: Bytes, q: RequestPayload): (command: Bytes)
    requires |PayloadBytes(q)| <= TWO32 - 8
    ensures |command| == TWO32 + |c|
  {
    c + PayloadPair(q) + Padding(q)
  }

  function PayloadBytes(q: RequestPayload): Bytes { Encode(REQUEST_PAYLOAD, RequestPayloadVal(q)) }

  function PayloadPair(q: RequestPayload): (b: Bytes)
    ensures |b| == 8 + |PayloadBytes(q)|
  {
    PAYLOAD_KEY + PayloadBytes(q)
  }

  const ID_KEY: Bytes := [0xa2, 0x69, 0x64]
  const COMMAND_KEY: Bytes := [0xa7, 0x63, 0x6f, 0x6d, 0x6d, 0x61, 0x6e, 0x64]
  const PAYLOAD_KEY: Bytes := [0xa7, 0x70, 0x61, 0x79, 0x6c, 0x6f, 0x61, 0x64]

  function Padding(q: RequestPayload): (b: Bytes)
    requires |PayloadBytes(q)| <= TWO32 - 8
    ensures |b| == TWO32 - 8 - |PayloadBytes(q)|
  {
    seq(TWO32 - 8 - |PayloadBytes(q)|, _ => 0)
  }

  // What the frame carries of it: a document with the short command and the other payload.
  function Shortened(id: uint32, c: Bytes, q: RequestPayload): Bytes {
    RequestStart(id) + CutCommand(c, q)
  }

  // `c` in the longest string format, and the pair behind it.
  function CutCommand(c: Bytes, q: RequestPayload): Bytes { [0xdb] + PutBigEndian(|c|, 4) + c + PayloadPair(q) }

  lemma ShortenedSize(id: uint32, c: Bytes, q: RequestPayload)
    ensures |Shortened(id, c, q)| <= 34 + |c| + |PayloadBytes(q)|
  {
    hide AppendUint;
    UintRoundTrip(id, []);
  }

  lemma {:induction false} PutWraps(v: nat, k: nat)
    ensures PutBigEndian(Power256(k) + v, k) == PutBigEndian(v, k)
  {
    if k > 0 {
      assert Power256(k) == 256 * Power256(k - 1);
      PutWraps(v / 256, k - 1);
    }
  }

  lemma LongForm(s: Bytes)
    requires |s| >= 0x1_0000
    ensures AppendStr(s) == [0xdb] + PutBigEndian(|s|, 4) + s
  {}

  lemma Regroup(a: Bytes, b: Bytes, c: Bytes, d: Bytes)
    ensures a + (b + c + d) == a + b + c + d
    ensures a + b + (c + d) == a + b + c + d
  {}

  lemma LongStrEncoded(c: Bytes, q: RequestPayload)
    requires |PayloadBytes(q)| <= TWO32 - 8
    ensures AppendStr(LongCommand(c, q)) == CutCommand(c, q) + Padding(q)
  {
    hide AppendStr, PutBigEndian, Power256, PayloadPair, Padding;
    PutWraps(|c|, 4);
    Power256Values();
    LongForm(LongCommand(c, q));
    Regroup([0xdb] + PutBigEndian(|c|, 4), c, PayloadPair(q), Padding(q));
  }

  lemma Shortens(id: uint32, c: Bytes, p: RequestPayload, q: RequestPayload)
    requires |PayloadBytes(q)| <= TWO32 - 8 && |PayloadBytes(p)| == |PayloadBytes(q)|
    ensures RequestBytes(IPCReqMessage(id, LongCommand(c, q), p)) == Shortened(id, c, q) + (Padding(q) + PayloadPair(p))
  {
    hide AppendStr, AppendUint, LongCommand, CutCommand, Padding;
    var m := IPCReqMessage(id, LongCommand(c, q), p);
    RequestPairs(m);
    LongStrEncoded(c, q);
    var before := RequestStart(id);
    hide RequestStart, PayloadPair, RequestBytes, PayloadBytes;
    assert before + (CutCommand(c, q) + Padding(q)) + PayloadPair(p)
        == before + CutCommand(c, q) + (Padding(q) + PayloadPair(p));
  }

  // A request up to its command.
  function RequestStart(id: uint32): Bytes {
    [0x83] + ID_KEY + AppendUint(id) + COMMAND_KEY
  }

  lemma RequestPairs(m: IPCReqMessage)
    ensures RequestBytes(m) == RequestStart(m.id) + AppendStr(m.command) + PayloadPair(m.payload)
  {
    hide Encode, AppendUint, AppendStr;
    IPCReqMessageEncoded(m);
    var x, k, b := RequestStart(m.id) + AppendStr(m.command), PAYLOAD_KEY, PayloadBytes(m.payload);
    assert x + k + b == x + (k + b);
  }

  // One turn of the decoder's loop over a request.
  lemma Pair(n: nat, z: IPCReqMessage, key: Bytes, b: Bytes)
    requires |key| < TWO32 && n > 0
    ensures DecodePairs(IPC_REQ_MESSAGE, n, IPCReqMessageVal(z), AppendStr(key) + b)
         == match DecodeField(IPC_REQ_MESSAGE, IPCReqMessageVal(z), Index(IPC_REQ_MESSAGE.fields, key), b)
            case Ok(v, rest) => DecodePairs(IPC_REQ_MESSAGE, n - 1, v, rest)
            case Err => Err
  {
    hide AppendStr, ReadStr, DecodePairs, DecodeField, Index;
    Turn(IPC_REQ_MESSAGE, n, IPCReqMessageVal(z), AppendStr(key) + b);
    StrRoundTrip(key, b);
  }

  lemma Keys()
    ensures AppendStr(ID) == ID_KEY && AppendStr(COMMAND) == COMMAND_KEY && AppendStr(PAYLOAD) == PAYLOAD_KEY
    ensures ID != COMMAND && ID != PAYLOAD && COMMAND != PAYLOAD
    ensures MapHeader(3) == [0x83]
  {
    ShortForms(ID, 3);
    ShortForms(COMMAND, 3);
    ShortForms(PAYLOAD, 3);
    hide AppendStr;
    assert [0xa7] + COMMAND == COMMAND_KEY && [0xa7] + PAYLOAD == PAYLOAD_KEY && [0xa2] + ID == ID_KEY;
    assert COMMAND[0] != PAYLOAD[0];
  }

  lemma ReadsId(id: uint32, b: Bytes)
    ensures DecodePairs(IPC_REQ_MESSAGE, 3, IPCReqMessageVal(ZERO_REQUEST), ID_KEY + (AppendUint(id) + b))
         == DecodePairs(IPC_REQ_MESSAGE, 2, IPCReqMessageVal(ZERO_REQUEST.(id := id)), b)
  {
    hide AppendStr, AppendUint, ReadIntValue, DecodePairs, DecodeField, IPCReqMessageVal;
    Keys();
    Pair(3, ZERO_REQUEST, ID, AppendUint(id) + b);
    IPCReqMessageField(ZERO_REQUEST, ID, AppendUint(id) + b);
    UintRoundTrip(id, b);
  }

  lemma ReadsCommand(z: IPCReqMessage, b: Bytes)
    ensures DecodePairs(IPC_REQ_MESSAGE, 2, IPCReqMessageVal(z), COMMAND_KEY + b)
         == match ReadStr(b)
            case Ok(s, rest) => DecodePairs(IPC_REQ_MESSAGE, 1, IPCReqMessageVal(z.(command := s)), rest)
            case Err => Err
  {
    hide AppendStr, ReadStr, DecodePairs, DecodeField, IPCReqMessageVal;
    Keys();
    Pair(2, z, COMMAND, b);
    IPCReqMessageField(z, COMMAND, b);
  }

  lemma ReadsStart(id: uint32, b: Bytes)
    ensures Decode(IPC_REQ_MESSAGE, IPCReqMessageVal(ZERO_REQUEST), RequestStart(id) + b)
         == DecodePairs(IPC_REQ_MESSAGE, 2, IPCReqMessageVal(ZERO_REQUEST.(id := id)), COMMAND_KEY + b)
  {
    hide AppendUint, AppendStr, ReadMapHeader, DecodePairs, IPCReqMessageVal;
    Keys();
    var b0 := ID_KEY + (AppendUint(id) + (COMMAND_KEY + b));
    assert RequestStart(id) + b == [0x83] + b0;
    HeaderRoundTrip(3, b0);
    ReadsId(id, COMMAND_KEY + b);
  }

  lemma ReadsPayload(z: IPCReqMessage, q: RequestPayload)
    requires |PayloadBytes(q)| < TWO32
    ensures DecodePairs(IPC_REQ_MESSAGE, 1, IPCReqMessageVal(z), PayloadPair(q))
         == Ok(IPCReqMessageVal(z.(payload := q)), [])
  {
    hide AppendStr, Decode, DecodePairs, DecodeField, PayloadBytes;
    var b := PayloadBytes(q);
    Keys();
    Pair(1, z, PAYLOAD, b);
    IPCReqMessageField(z, PAYLOAD, b);
    ReadsPayloadBytes(z.payload, q);
    NoMorePairs(IPC_REQ_MESSAGE, IPCReqMessageVal(z.(payload := q)), []);
  }

  lemma ReadsPayloadBytes(z: RequestPayload, q: RequestPayload)
    requires |PayloadBytes(q)| < TWO32
    ensures Decode(REQUEST_PAYLOAD, RequestPayloadVal(z), PayloadBytes(q)) == Ok(RequestPayloadVal(q), [])
  {
    hide Encode, Decode, WellFormed, Short, RequestPayloadVal;
    var b := PayloadBytes(q);
    KindsAreWellFormed();
    FitsIsShort(REQUEST_PAYLOAD, RequestPayloadVal(q));
    RoundTrip(REQUEST_PAYLOAD, RequestPayloadVal(q), RequestPayloadVal(z), []);
    assert b + [] == b;
  }

  lemma ReadsShortened(id: uint32, c: Bytes, q: RequestPayload)
    requires |c| < TWO32 && |PayloadBytes(q)| < TWO32
    ensures RequestOf(Shortened(id, c, q)) == Some(IPCReqMessage(id, c, q))
  {
    hide Decode, DecodePairs, PayloadBytes, PayloadPair, RequestStart, PutBigEndian, ReadStr, Power256;
    ReadsStart(id, CutCommand(c, q));
    Power256Values();
    ReadsCommand(ZERO_REQUEST.(id := id), CutCommand(c, q));
    MsgPack.LongStr(c, 0xdb, 4, PayloadPair(q));
    ReadsPayload(ZERO_REQUEST.(id := id, command := c), q);
    ValuesAreFaithful();
  }

  // A request whose command has 2^32 bytes or more may be read as another one, with nothing left over and
  // without an error at the writer: here one with a shorter command and any payload `q` of the same size.
  lemma ReadAsAnother(id: uint32, c: Bytes, p: RequestPayload, q: RequestPayload)
    requires |c| + |PayloadBytes(q)| <= TWO32 - 47 && |PayloadBytes(p)| == |PayloadBytes(q)|
    ensures var b := RequestBytes(IPCReqMessage(id, LongCommand(c, q), p));
      Frames.Writable(b) && RequestOf(Frames.Carried(b)) == Some(IPCReqMessage(id, c, q))
  {
    hide RequestBytes, RequestOf, LongCommand, PayloadBytes, Shortened, Padding, PayloadPair;
    ShortenedSize(id, c, q);
    Shortens(id, c, p, q);
    ReadsShortened(id, c, q);
    var w, tail := Shortened(id, c, q), Padding(q) + PayloadPair(p);
    assert (w + tail)[..|w|] == w;
    assert |w + tail| % TWO32 == |w|;
  }
}
