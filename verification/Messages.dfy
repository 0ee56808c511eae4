/**
 The seven message types and their generated codecs. Each `Unmarshal` is the decoder of `Schema` for
 its type, the nested loops of `RequestPayload`, `ResponsePayload` and `TaskResult` included; each
 `Marshal` is the encoder; each `Msgsize` bounds it.
 */
module Messages {
  import opened Bytes
  import opened Options
  import opened MsgPack
  import opened Schema

  type Integer = i: int | MIN_INT <= i <= MAX_INT

  datatype TaskInfo = TaskInfo(step: Integer, options: Bytes)
  datatype ExtraResult = ExtraResult(nodeID: Bytes, status: Bytes)
  datatype TaskResult = TaskResult(message: Bytes, extra: ExtraResult)
  datatype RequestPayload = RequestPayload(taskName: Bytes, taskDetail: TaskInfo)
  datatype ResponsePayload = ResponsePayload(code: Integer, result: TaskResult)
  datatype IPCReqMessage = IPCReqMessage(id: uint32, command: Bytes, payload: RequestPayload)
  datatype IPCRespMessage = IPCRespMessage(id: uint32, command: Bytes, payload: ResponsePayload)

  // A struct that a method updates in place.
  class Cell<T> {
    var v: T

    constructor (v: T)
      ensures this.v == v
    {
      this.v := v;
    }
  }

  // ---- Keys ----

  const STEP: Bytes := [0x73, 0x74, 0x65, 0x70]
  const OPTIONS: Bytes := [0x6f, 0x70, 0x74, 0x69, 0x6f, 0x6e, 0x73]
  const NODE_ID: Bytes := [0x6e, 0x6f, 0x64, 0x65, 0x5f, 0x69, 0x64]
  const STATUS: Bytes := [0x73, 0x74, 0x61, 0x74, 0x75, 0x73]
  const MESSAGE: Bytes := [0x6d, 0x65, 0x73, 0x73, 0x61, 0x67, 0x65]
  const EXTRA: Bytes := [0x65, 0x78, 0x74, 0x72, 0x61]
  const TASK_NAME: Bytes := [0x74, 0x61, 0x73, 0x6b, 0x5f, 0x6e, 0x61, 0x6d, 0x65]
  const TASK_DETAIL: Bytes := [0x74, 0x61, 0x73, 0x6b, 0x5f, 0x64, 0x65, 0x74, 0x61, 0x69, 0x6c]
  const CODE: Bytes := [0x63, 0x6f, 0x64, 0x65]
  const RESULT: Bytes := [0x72, 0x65, 0x73, 0x75, 0x6c, 0x74]
  const ID: Bytes := [0x69, 0x64]
  const COMMAND: Bytes := [0x63, 0x6f, 0x6d, 0x6d, 0x61, 0x6e, 0x64]
  const PAYLOAD: Bytes := [0x70, 0x61, 0x79, 0x6c, 0x6f, 0x61, 0x64]

  // ---- Types ----

  const TASK_INFO: Kind := StructKind([Field(STEP, IntKind), Field(OPTIONS, StrKind)])
  const EXTRA_RESULT: Kind := StructKind([Field(NODE_ID, StrKind), Field(STATUS, StrKind)])
  const TASK_RESULT: Kind := StructKind([Field(MESSAGE, StrKind), Field(EXTRA, EXTRA_RESULT)])
  const REQUEST_PAYLOAD: Kind := StructKind([Field(TASK_NAME, StrKind), Field(TASK_DETAIL, TASK_INFO)])
  const RESPONSE_PAYLOAD: Kind := StructKind([Field(CODE, IntKind), Field(RESULT, TASK_RESULT)])
  const IPC_REQ_MESSAGE: Kind :=
    StructKind([Field(ID, Uint32Kind), Field(COMMAND, StrKind), Field(PAYLOAD, REQUEST_PAYLOAD)])
  const IPC_RESP_MESSAGE: Kind :=
    StructKind([Field(ID, Uint32Kind), Field(COMMAND, StrKind), Field(PAYLOAD, RESPONSE_PAYLOAD)])

  function TaskInfoVal(z: TaskInfo): (v: Val)
    ensures Shaped(TASK_INFO, v) && Typed(TASK_INFO, v)
  {
    Struct([Int(z.step), Str(z.options)])
  }

  function ExtraResultVal(z: ExtraResult): (v: Val)
    ensures Shaped(EXTRA_RESULT, v) && Typed(EXTRA_RESULT, v)
  {
    Struct([Str(z.nodeID), Str(z.status)])
  }

  function TaskResultVal(z: TaskResult): (v: Val)
    ensures Shaped(TASK_RESULT, v) && Typed(TASK_RESULT, v)
  {
    Struct([Str(z.message), ExtraResultVal(z.extra)])
  }

  function RequestPayloadVal(z: RequestPayload): (v: Val)
    ensures Shaped(REQUEST_PAYLOAD, v) && Typed(REQUEST_PAYLOAD, v)
  {
    Struct([Str(z.taskName), TaskInfoVal(z.taskDetail)])
  }

  function ResponsePayloadVal(z: ResponsePayload): (v: Val)
    ensures Shaped(RESPONSE_PAYLOAD, v) && Typed(RESPONSE_PAYLOAD, v)
  {
    Struct([Int(z.code), TaskResultVal(z.result)])
  }

  function IPCReqMessageVal(z: IPCReqMessage): (v: Val)
    ensures Shaped(IPC_REQ_MESSAGE, v) && Typed(IPC_REQ_MESSAGE, v)
  {
    Struct([Int(z.id), Str(z.command), RequestPayloadVal(z.payload)])
  }

  function IPCRespMessageVal(z: IPCRespMessage): (v: Val)
    ensures Shaped(IPC_RESP_MESSAGE, v) && Typed(IPC_RESP_MESSAGE, v)
  {
    Struct([Int(z.id), Str(z.command), ResponsePayloadVal(z.payload)])
  }

  // ---- The structs of values ----

  lemma PartsAreTyped(k: Kind, v: Val)
    requires k.StructKind? && Typed(k, v)
    ensures v.Struct? && |v.vals| == |k.fields| && forall i | 0 <= i < |k.fields| :: Typed(k.fields[i].kind, v.vals[i])
  {}

  function TaskInfoOf(v: Val): (z: TaskInfo)
    requires Typed(TASK_INFO, v)
    ensures TaskInfoVal(z) == v
  {
    PartsAreTyped(TASK_INFO, v);
    assert v.vals == [v.vals[0], v.vals[1]];
    TaskInfo(v.vals[0].i, v.vals[1].s)
  }

  function ExtraResultOf(v: Val): (z: ExtraResult)
    requires Typed(EXTRA_RESULT, v)
    ensures ExtraResultVal(z) == v
  {
    PartsAreTyped(EXTRA_RESULT, v);
    assert v.vals == [v.vals[0], v.vals[1]];
    ExtraResult(v.vals[0].s, v.vals[1].s)
  }

  function TaskResultOf(v: Val): (z: TaskResult)
    requires Typed(TASK_RESULT, v)
    ensures TaskResultVal(z) == v
  {
    PartsAreTyped(TASK_RESULT, v);
    assert v.vals == [v.vals[0], v.vals[1]];
    TaskResult(v.vals[0].s, ExtraResultOf(v.vals[1]))
  }

  function RequestPayloadOf(v: Val): (z: RequestPayload)
    requires Typed(REQUEST_PAYLOAD, v)
    ensures RequestPayloadVal(z) == v
  {
    PartsAreTyped(REQUEST_PAYLOAD, v);
    assert v.vals == [v.vals[0], v.vals[1]];
    RequestPayload(v.vals[0].s, TaskInfoOf(v.vals[1]))
  }

  function ResponsePayloadOf(v: Val): (z: ResponsePayload)
    requires Typed(RESPONSE_PAYLOAD, v)
    ensures ResponsePayloadVal(z) == v
  {
    PartsAreTyped(RESPONSE_PAYLOAD, v);
    assert v.vals == [v.vals[0], v.vals[1]];
    ResponsePayload(v.vals[0].i, TaskResultOf(v.vals[1]))
  }

  function IPCReqMessageOf(v: Val): (z: IPCReqMessage)
    requires Typed(IPC_REQ_MESSAGE, v)
    ensures IPCReqMessageVal(z) == v
  {
    PartsAreTyped(IPC_REQ_MESSAGE, v);
    assert v.vals == [v.vals[0], v.vals[1], v.vals[2]];
    IPCReqMessage(v.vals[0].i, v.vals[1].s, RequestPayloadOf(v.vals[2]))
  }

  function IPCRespMessageOf(v: Val): (z: IPCRespMessage)
    requires Typed(IPC_RESP_MESSAGE, v)
    ensures IPCRespMessageVal(z) == v
  {
    PartsAreTyped(IPC_RESP_MESSAGE, v);
    assert v.vals == [v.vals[0], v.vals[1], v.vals[2]];
    IPCRespMessage(v.vals[0].i, v.vals[1].s, ResponsePayloadOf(v.vals[2]))
  }

  lemma TwoFieldsWellFormed(a: Field, b: Field)
    requires |a.key| < TWO32 && |b.key| < TWO32 && a.key != b.key && WellFormed(a.kind) && WellFormed(b.kind)
    ensures WellFormed(StructKind([a, b]))
  {}

  lemma ThreeFieldsWellFormed(a: Field, b: Field, c: Field)
    requires |a.key| < TWO32 && |b.key| < TWO32 && |c.key| < TWO32 && a.key != b.key && a.key != c.key && b.key != c.key
    requires WellFormed(a.kind) && WellFormed(b.kind) && WellFormed(c.kind)
    ensures WellFormed(StructKind([a, b, c]))
  {}

  lemma KindsAreWellFormed()
    ensures WellFormed(TASK_INFO) && WellFormed(EXTRA_RESULT) && WellFormed(TASK_RESULT) && WellFormed(REQUEST_PAYLOAD)
    ensures WellFormed(RESPONSE_PAYLOAD) && WellFormed(IPC_REQ_MESSAGE) && WellFormed(IPC_RESP_MESSAGE)
  {
    assert WellFormed(StrKind) && WellFormed(IntKind) && WellFormed(Uint32Kind);
    hide WellFormed;
    assert |STEP| != |OPTIONS| && |NODE_ID| != |STATUS| && |MESSAGE| != |EXTRA| && |TASK_NAME| != |TASK_DETAIL|;
    assert |CODE| != |RESULT| && |ID| != |COMMAND| && |ID| != |PAYLOAD| && COMMAND[0] != PAYLOAD[0];
    TwoFieldsWellFormed(Field(STEP, IntKind), Field(OPTIONS, StrKind));
    TwoFieldsWellFormed(Field(NODE_ID, StrKind), Field(STATUS, StrKind));
    TwoFieldsWellFormed(Field(MESSAGE, StrKind), Field(EXTRA, EXTRA_RESULT));
    TwoFieldsWellFormed(Field(TASK_NAME, StrKind), Field(TASK_DETAIL, TASK_INFO));
    TwoFieldsWellFormed(Field(CODE, IntKind), Field(RESULT, TASK_RESULT));
    ThreeFieldsWellFormed(Field(ID, Uint32Kind), Field(COMMAND, StrKind), Field(PAYLOAD, REQUEST_PAYLOAD));
    ThreeFieldsWellFormed(Field(ID, Uint32Kind), Field(COMMAND, StrKind), Field(PAYLOAD, RESPONSE_PAYLOAD));
  }

  function ReadInt(b: Bytes): (r: Parse<Integer>) {
    match ReadWithin(b, MIN_INT, MAX_INT) case Ok(i, rest) => Ok(i, rest) case Err => Err
  }

  function ReadUint32(b: Bytes): (r: Parse<uint32>) {
    match ReadWithin(b, 0, TWO32 - 1) case Ok(i, rest) => Ok(i, rest) case Err => Err
  }

  // One turn of a decoder's loop.
  lemma Turn(k: Kind, n: nat, z: Val, b: Bytes)
    requires k.StructKind? && Shaped(k, z) && n > 0
    ensures DecodePairs(k, n, z, b)
         == match ReadStr(b)
            case Err => Err
            case Ok(key, rest) =>
              match DecodeField(k, z, Index(k.fields, key), rest)
              case Ok(z', rest') => DecodePairs(k, n - 1, z', rest')
              case Err => Err
  {}

  lemma IndexOfTwo(fields: seq<Field>, key: Bytes)
    requires |fields| == 2
    ensures Index(fields, key) == if fields[0].key == key then 0 else if fields[1].key == key then 1 else 2
  {
    assert Index(fields[1..][1..], key) == 0;
  }

  lemma IndexOfThree(fields: seq<Field>, key: Bytes)
    requires |fields| == 3
    ensures Index(fields, key) == if fields[0].key == key then 0 else if fields[1].key == key then 1
                                  else if fields[2].key == key then 2 else 3
  {
    IndexOfTwo(fields[1..], key);
  }

  // What `Unmarshal` of a type gives: the value decoded over the old one and the bytes left, or an error.
  predicate Agrees(r: Parse<Val>, v: Val, o: Option<Bytes>) {
    match r case Ok(w, rest) => v == w && o == Some(rest) case Err => o == None
  }

  lemma NoMorePairs(k: Kind, z: Val, b: Bytes)
    requires k.StructKind? && Shaped(k, z)
    ensures DecodePairs(k, 0, z, b) == Ok(z, b)
  {}

  // The struct after a field with a string, an int or a nested struct was read into it.
  lemma SetTwo(a: Val, b: Val, x: Val)
    ensures [a, b][0 := x] == [x, b] && [a, b][1 := x] == [a, x]
  {}

  lemma SetThree(a: Val, b: Val, c: Val, x: Val)
    ensures [a, b, c][0 := x] == [x, b, c] && [a, b, c][1 := x] == [a, x, c] && [a, b, c][2 := x] == [a, b, x]
  {}

  // ---- TaskInfo ----

  lemma TaskInfoField(z: TaskInfo, key: Bytes, b: Bytes)
    ensures DecodeField(TASK_INFO, TaskInfoVal(z), Index(TASK_INFO.fields, key), b)
         == if key == STEP then
              match ReadInt(b)
              case Ok(i, rest) => Ok(TaskInfoVal(z.(step := i)), rest)
              case Err => Err
            else if key == OPTIONS then
              match ReadStr(b)
              case Ok(s, rest) => Ok(TaskInfoVal(z.(options := s)), rest)
              case Err => Err
            else match Skip(b) case Some(rest) => Ok(TaskInfoVal(z), rest) case None => Err
  {
    hide ReadStr, ReadWithin, SkipMany, Index;
    IndexOfTwo(TASK_INFO.fields, key);
    var vals := TaskInfoVal(z).vals;
    if key == STEP && ReadInt(b).Ok? { SetTwo(vals[0], vals[1], Int(ReadInt(b).value)); }
    if key == OPTIONS && ReadStr(b).Ok? { SetTwo(vals[0], vals[1], Str(ReadStr(b).value)); }
  }

  method UnmarshalTaskInfo(z: Cell<TaskInfo>, data: Bytes) returns (o: Option<Bytes>)
    modifies z
    ensures Agrees(Decode(TASK_INFO, TaskInfoVal(old(z.v)), data), TaskInfoVal(z.v), o)
  {
    hide DecodePairs, DecodeField, ReadStr, ReadInt, ReadUint32, ReadMapHeader, Skip, Index;
    var bts := data;
    var header := ReadMapHeader(bts);
    if header.Err? { return None; }
    var n := header.value;
    bts := header.rest;
    while n > 0
      invariant Decode(TASK_INFO, TaskInfoVal(old(z.v)), data) == DecodePairs(TASK_INFO, n, TaskInfoVal(z.v), bts)
    {
      Turn(TASK_INFO, n, TaskInfoVal(z.v), bts);
      n := n - 1;
      var field := ReadStr(bts);
      if field.Err? { return None; }
      bts := field.rest;
      TaskInfoField(z.v, field.value, bts);
      if field.value == STEP {
        var r := ReadInt(bts);
        if r.Err? { return None; }
        z.v := z.v.(step := r.value);
        bts := r.rest;
      } else if field.value == OPTIONS {
        var r := ReadStr(bts);
        if r.Err? { return None; }
        z.v := z.v.(options := r.value);
        bts := r.rest;
      } else {
        var r := Skip(bts);
        if r.None? { return None; }
        bts := r.value;
      }
    }
    NoMorePairs(TASK_INFO, TaskInfoVal(z.v), bts);
    return Some(bts);
  }

  // ---- ExtraResult ----

  lemma ExtraResultField(z: ExtraResult, key: Bytes, b: Bytes)
    ensures DecodeField(EXTRA_RESULT, ExtraResultVal(z), Index(EXTRA_RESULT.fields, key), b)
         == if key == NODE_ID then
              match ReadStr(b)
              case Ok(s, rest) => Ok(ExtraResultVal(z.(nodeID := s)), rest)
              case Err => Err
            else if key == STATUS then
              match ReadStr(b)
              case Ok(s, rest) => Ok(ExtraResultVal(z.(status := s)), rest)
              case Err => Err
            else match Skip(b) case Some(rest) => Ok(ExtraResultVal(z), rest) case None => Err
  {
    hide ReadStr, ReadWithin, SkipMany, Index;
    IndexOfTwo(EXTRA_RESULT.fields, key);
    var vals := ExtraResultVal(z).vals;
    if key == NODE_ID && ReadStr(b).Ok? { SetTwo(vals[0], vals[1], Str(ReadStr(b).value)); }
    if key == STATUS && ReadStr(b).Ok? { SetTwo(vals[0], vals[1], Str(ReadStr(b).value)); }
  }

  method UnmarshalExtraResult(z: Cell<ExtraResult>, data: Bytes) returns (o: Option<Bytes>)
    modifies z
    ensures Agrees(Decode(EXTRA_RESULT, ExtraResultVal(old(z.v)), data), ExtraResultVal(z.v), o)
  {
    hide DecodePairs, DecodeField, ReadStr, ReadInt, ReadUint32, ReadMapHeader, Skip, Index;
    var bts := data;
    var header := ReadMapHeader(bts);
    if header.Err? { return None; }
    var n := header.value;
    bts := header.rest;
    while n > 0
      invariant Decode(EXTRA_RESULT, ExtraResultVal(old(z.v)), data)
          == DecodePairs(EXTRA_RESULT, n, ExtraResultVal(z.v), bts)
    {
      Turn(EXTRA_RESULT, n, ExtraResultVal(z.v), bts);
      n := n - 1;
      var field := ReadStr(bts);
      if field.Err? { return None; }
      bts := field.rest;
      ExtraResultField(z.v, field.value, bts);
      if field.value == NODE_ID {
        var r := ReadStr(bts);
        if r.Err? { return None; }
        z.v := z.v.(nodeID := r.value);
        bts := r.rest;
      } else if field.value == STATUS {
        var r := ReadStr(bts);
        if r.Err? { return None; }
        z.v := z.v.(status := r.value);
        bts := r.rest;
      } else {
        var r := Skip(bts);
        if r.None? { return None; }
        bts := r.value;
      }
    }
    NoMorePairs(EXTRA_RESULT, ExtraResultVal(z.v), bts);
    return Some(bts);
  }

  // ---- TaskResult ----

  lemma TaskResultField(z: TaskResult, key: Bytes, b: Bytes)
    ensures DecodeField(TASK_RESULT, TaskResultVal(z), Index(TASK_RESULT.fields, key), b)
         == if key == MESSAGE then
              match ReadStr(b)
              case Ok(s, rest) => Ok(TaskResultVal(z.(message := s)), rest)
              case Err => Err
            else if key == EXTRA then
              match Decode(EXTRA_RESULT, ExtraResultVal(z.extra), b)
              case Ok(v, rest) => Ok(Struct([Str(z.message), v]), rest)
              case Err => Err
            else match Skip(b) case Some(rest) => Ok(TaskResultVal(z), rest) case None => Err
  {
    hide ReadStr, ReadWithin, SkipMany, Index, DecodePairs, ReadMapHeader;
    IndexOfTwo(TASK_RESULT.fields, key);
    var vals := TaskResultVal(z).vals;
    if key == MESSAGE && ReadStr(b).Ok? { SetTwo(vals[0], vals[1], Str(ReadStr(b).value)); }
    var nested := Decode(EXTRA_RESULT, ExtraResultVal(z.extra), b);
    if key == EXTRA && nested.Ok? { SetTwo(vals[0], vals[1], nested.value); }
  }

  method UnmarshalTaskResult(z: Cell<TaskResult>, data: Bytes) returns (o: Option<Bytes>)
    modifies z
    ensures Agrees(Decode(TASK_RESULT, TaskResultVal(old(z.v)), data), TaskResultVal(z.v), o)
  {
    hide DecodePairs, DecodeField, ReadStr, ReadInt, ReadUint32, ReadMapHeader, Skip, Index;
    var bts := data;
    var header := ReadMapHeader(bts);
    if header.Err? { return None; }
    var n := header.value;
    bts := header.rest;
    while n > 0
      invariant Decode(TASK_RESULT, TaskResultVal(old(z.v)), data)
          == DecodePairs(TASK_RESULT, n, TaskResultVal(z.v), bts)
    {
      Turn(TASK_RESULT, n, TaskResultVal(z.v), bts);
      n := n - 1;
      var field := ReadStr(bts);
      if field.Err? { return None; }
      bts := field.rest;
      TaskResultField(z.v, field.value, bts);
      if field.value == MESSAGE {
        var r := ReadStr(bts);
        if r.Err? { return None; }
        z.v := z.v.(message := r.value);
        bts := r.rest;
      } else if field.value == EXTRA {
        ghost var was2, at2 := z.v, bts;
        header := ReadMapHeader(bts);
        if header.Err? { return None; }
        var n2 := header.value;
        bts := header.rest;
        while n2 > 0
          invariant Decode(EXTRA_RESULT, ExtraResultVal(was2.extra), at2)
              == DecodePairs(EXTRA_RESULT, n2, ExtraResultVal(z.v.extra), bts)
          invariant z.v == was2.(extra := z.v.extra)
        {
          Turn(EXTRA_RESULT, n2, ExtraResultVal(z.v.extra), bts);
          n2 := n2 - 1;
          field := ReadStr(bts);
          if field.Err? { return None; }
          bts := field.rest;
          ExtraResultField(z.v.extra, field.value, bts);
          if field.value == NODE_ID {
            var r := ReadStr(bts);
            if r.Err? { return None; }
            z.v := z.v.(extra := z.v.extra.(nodeID := r.value));
            bts := r.rest;
          } else if field.value == STATUS {
            var r := ReadStr(bts);
            if r.Err? { return None; }
            z.v := z.v.(extra := z.v.extra.(status := r.value));
            bts := r.rest;
          } else {
            var r := Skip(bts);
            if r.None? { return None; }
            bts := r.value;
          }
        }
        NoMorePairs(EXTRA_RESULT, ExtraResultVal(z.v.extra), bts);
      } else {
        var r := Skip(bts);
        if r.None? { return None; }
        bts := r.value;
      }
    }
    NoMorePairs(TASK_RESULT, TaskResultVal(z.v), bts);
    return Some(bts);
  }

  // ---- RequestPayload ----

  lemma RequestPayloadField(z: RequestPayload, key: Bytes, b: Bytes)
    ensures DecodeField(REQUEST_PAYLOAD, RequestPayloadVal(z), Index(REQUEST_PAYLOAD.fields, key), b)
         == if key == TASK_NAME then
              match ReadStr(b)
              case Ok(s, rest) => Ok(RequestPayloadVal(z.(taskName := s)), rest)
              case Err => Err
            else if key == TASK_DETAIL then
              match Decode(TASK_INFO, TaskInfoVal(z.taskDetail), b)
              case Ok(v, rest) => Ok(Struct([Str(z.taskName), v]), rest)
              case Err => Err
            else match Skip(b) case Some(rest) => Ok(RequestPayloadVal(z), rest) case None => Err
  {
    hide ReadStr, ReadWithin, SkipMany, Index, DecodePairs, ReadMapHeader;
    IndexOfTwo(REQUEST_PAYLOAD.fields, key);
    var vals := RequestPayloadVal(z).vals;
    if key == TASK_NAME && ReadStr(b).Ok? { SetTwo(vals[0], vals[1], Str(ReadStr(b).value)); }
    var nested := Decode(TASK_INFO, TaskInfoVal(z.taskDetail), b);
    if key == TASK_DETAIL && nested.Ok? { SetTwo(vals[0], vals[1], nested.value); }
  }

  method UnmarshalRequestPayload(z: Cell<RequestPayload>, data: Bytes) returns (o: Option<Bytes>)
    modifies z
    ensures Agrees(Decode(REQUEST_PAYLOAD, RequestPayloadVal(old(z.v)), data), RequestPayloadVal(z.v), o)
  {
    hide DecodePairs, DecodeField, ReadStr, ReadInt, ReadUint32, ReadMapHeader, Skip, Index;
    var bts := data;
    var header := ReadMapHeader(bts);
    if header.Err? { return None; }
    var n := header.value;
    bts := header.rest;
    while n > 0
      invariant Decode(REQUEST_PAYLOAD, RequestPayloadVal(old(z.v)), data)
          == DecodePairs(REQUEST_PAYLOAD, n, RequestPayloadVal(z.v), bts)
    {
      Turn(REQUEST_PAYLOAD, n, RequestPayloadVal(z.v), bts);
      n := n - 1;
      var field := ReadStr(bts);
      if field.Err? { return None; }
      bts := field.rest;
      RequestPayloadField(z.v, field.value, bts);
      if field.value == TASK_NAME {
        var r := ReadStr(bts);
        if r.Err? { return None; }
        z.v := z.v.(taskName := r.value);
        bts := r.rest;
      } else if field.value == TASK_DETAIL {
        ghost var was2, at2 := z.v, bts;
        header := ReadMapHeader(bts);
        if header.Err? { return None; }
        var n2 := header.value;
        bts := header.rest;
        while n2 > 0
          invariant Decode(TASK_INFO, TaskInfoVal(was2.taskDetail), at2)
              == DecodePairs(TASK_INFO, n2, TaskInfoVal(z.v.taskDetail), bts)
          invariant z.v == was2.(taskDetail := z.v.taskDetail)
        {
          Turn(TASK_INFO, n2, TaskInfoVal(z.v.taskDetail), bts);
          n2 := n2 - 1;
          field := ReadStr(bts);
          if field.Err? { return None; }
          bts := field.rest;
          TaskInfoField(z.v.taskDetail, field.value, bts);
          if field.value == STEP {
            var r := ReadInt(bts);
            if r.Err? { return None; }
            z.v := z.v.(taskDetail := z.v.taskDetail.(step := r.value));
            bts := r.rest;
          } else if field.value == OPTIONS {
            var r := ReadStr(bts);
            if r.Err? { return None; }
            z.v := z.v.(taskDetail := z.v.taskDetail.(options := r.value));
            bts := r.rest;
          } else {
            var r := Skip(bts);
            if r.None? { return None; }
            bts := r.value;
          }
        }
        NoMorePairs(TASK_INFO, TaskInfoVal(z.v.taskDetail), bts);
      } else {
        var r := Skip(bts);
        if r.None? { return None; }
        bts := r.value;
      }
    }
    NoMorePairs(REQUEST_PAYLOAD, RequestPayloadVal(z.v), bts);
    return Some(bts);
  }

  // ---- ResponsePayload ----

  lemma ResponsePayloadField(z: ResponsePayload, key: Bytes, b: Bytes)
    ensures DecodeField(RESPONSE_PAYLOAD, ResponsePayloadVal(z), Index(RESPONSE_PAYLOAD.fields, key), b)
         == if key == CODE then
              match ReadInt(b)
              case Ok(i, rest) => Ok(ResponsePayloadVal(z.(code := i)), rest)
              case Err => Err
            else if key == RESULT then
              match Decode(TASK_RESULT, TaskResultVal(z.result), b)
              case Ok(v, rest) => Ok(Struct([Int(z.code), v]), rest)
              case Err => Err
            else match Skip(b) case Some(rest) => Ok(ResponsePayloadVal(z), rest) case None => Err
  {
    hide ReadStr, ReadWithin, SkipMany, Index, DecodePairs, ReadMapHeader;
    IndexOfTwo(RESPONSE_PAYLOAD.fields, key);
    var vals := ResponsePayloadVal(z).vals;
    if key == CODE && ReadInt(b).Ok? { SetTwo(vals[0], vals[1], Int(ReadInt(b).value)); }
    var nested := Decode(TASK_RESULT, TaskResultVal(z.result), b);
    if key == RESULT && nested.Ok? { SetTwo(vals[0], vals[1], nested.value); }
  }

  method UnmarshalResponsePayload(z: Cell<ResponsePayload>, data: Bytes) returns (o: Option<Bytes>)
    modifies z
    ensures Agrees(Decode(RESPONSE_PAYLOAD, ResponsePayloadVal(old(z.v)), data), ResponsePayloadVal(z.v), o)
  {
    hide DecodePairs, DecodeField, ReadStr, ReadInt, ReadUint32, ReadMapHeader, Skip, Index;
    var bts := data;
    var header := ReadMapHeader(bts);
    if header.Err? { return None; }
    var n := header.value;
    bts := header.rest;
    while n > 0
      invariant Decode(RESPONSE_PAYLOAD, ResponsePayloadVal(old(z.v)), data)
          == DecodePairs(RESPONSE_PAYLOAD, n, ResponsePayloadVal(z.v), bts)
    {
      Turn(RESPONSE_PAYLOAD, n, ResponsePayloadVal(z.v), bts);
      n := n - 1;
      var field := ReadStr(bts);
      if field.Err? { return None; }
      bts := field.rest;
      ResponsePayloadField(z.v, field.value, bts);
      if field.value == CODE {
        var r := ReadInt(bts);
        if r.Err? { return None; }
        z.v := z.v.(code := r.value);
        bts := r.rest;
      } else if field.value == RESULT {
        ghost var was2, at2 := z.v, bts;
        header := ReadMapHeader(bts);
        if header.Err? { return None; }
        var n2 := header.value;
        bts := header.rest;
        while n2 > 0
          invariant Decode(TASK_RESULT, TaskResultVal(was2.result), at2)
              == DecodePairs(TASK_RESULT, n2, TaskResultVal(z.v.result), bts)
          invariant z.v == was2.(result := z.v.result)
        {
          Turn(TASK_RESULT, n2, TaskResultVal(z.v.result), bts);
          n2 := n2 - 1;
          field := ReadStr(bts);
          if field.Err? { return None; }
          bts := field.rest;
          TaskResultField(z.v.result, field.value, bts);
          if field.value == MESSAGE {
            var r := ReadStr(bts);
            if r.Err? { return None; }
            z.v := z.v.(result := z.v.result.(message := r.value));
            bts := r.rest;
          } else if field.value == EXTRA {
            ghost var was3, at3 := z.v, bts;
            header := ReadMapHeader(bts);
            if header.Err? { return None; }
            var n3 := header.value;
            bts := header.rest;
            while n3 > 0
              invariant Decode(EXTRA_RESULT, ExtraResultVal(was3.result.extra), at3)
                  == DecodePairs(EXTRA_RESULT, n3, ExtraResultVal(z.v.result.extra), bts)
              invariant z.v == was3.(result := was3.result.(extra := z.v.result.extra))
            {
              Turn(EXTRA_RESULT, n3, ExtraResultVal(z.v.result.extra), bts);
              n3 := n3 - 1;
              field := ReadStr(bts);
              if field.Err? { return None; }
              bts := field.rest;
              ExtraResultField(z.v.result.extra, field.value, bts);
              if field.value == NODE_ID {
                var r := ReadStr(bts);
                if r.Err? { return None; }
                z.v := z.v.(result := z.v.result.(extra := z.v.result.extra.(nodeID := r.value)));
                bts := r.rest;
              } else if field.value == STATUS {
                var r := ReadStr(bts);
                if r.Err? { return None; }
                z.v := z.v.(result := z.v.result.(extra := z.v.result.extra.(status := r.value)));
                bts := r.rest;
              } else {
                var r := Skip(bts);
                if r.None? { return None; }
                bts := r.value;
              }
            }
            NoMorePairs(EXTRA_RESULT, ExtraResultVal(z.v.result.extra), bts);
          } else {
            var r := Skip(bts);
            if r.None? { return None; }
            bts := r.value;
          }
        }
        NoMorePairs(TASK_RESULT, TaskResultVal(z.v.result), bts);
      } else {
        var r := Skip(bts);
        if r.None? { return None; }
        bts := r.value;
      }
    }
    NoMorePairs(RESPONSE_PAYLOAD, ResponsePayloadVal(z.v), bts);
    return Some(bts);
  }

  // ---- IPCReqMessage ----

  lemma IPCReqMessageField(z: IPCReqMessage, key: Bytes, b: Bytes)
    ensures DecodeField(IPC_REQ_MESSAGE, IPCReqMessageVal(z), Index(IPC_REQ_MESSAGE.fields, key), b)
         == if key == ID then
              match ReadUint32(b)
              case Ok(i, rest) => Ok(IPCReqMessageVal(z.(id := i)), rest)
              case Err => Err
            else if key == COMMAND then
              match ReadStr(b)
              case Ok(s, rest) => Ok(IPCReqMessageVal(z.(command := s)), rest)
              case Err => Err
            else if key == PAYLOAD then
              match Decode(REQUEST_PAYLOAD, RequestPayloadVal(z.payload), b)
              case Ok(v, rest) => Ok(Struct([Int(z.id), Str(z.command), v]), rest)
              case Err => Err
            else match Skip(b) case Some(rest) => Ok(IPCReqMessageVal(z), rest) case None => Err
  {
    hide ReadStr, ReadWithin, SkipMany, Index, DecodePairs, ReadMapHeader;
    IndexOfThree(IPC_REQ_MESSAGE.fields, key);
    var vals := IPCReqMessageVal(z).vals;
    if key == ID && ReadUint32(b).Ok? { SetThree(vals[0], vals[1], vals[2], Int(ReadUint32(b).value)); }
    if key == COMMAND && ReadStr(b).Ok? { SetThree(vals[0], vals[1], vals[2], Str(ReadStr(b).value)); }
    var nested := Decode(REQUEST_PAYLOAD, RequestPayloadVal(z.payload), b);
    if key == PAYLOAD && nested.Ok? { SetThree(vals[0], vals[1], vals[2], nested.value); }
  }

  method UnmarshalIPCReqMessage(z: Cell<IPCReqMessage>, data: Bytes) returns (o: Option<Bytes>)
    modifies z
    ensures Agrees(Decode(IPC_REQ_MESSAGE, IPCReqMessageVal(old(z.v)), data), IPCReqMessageVal(z.v), o)
  {
    hide DecodePairs, DecodeField, ReadStr, ReadInt, ReadUint32, ReadMapHeader, Skip, Index;
    var bts := data;
    var header := ReadMapHeader(bts);
    if header.Err? { return None; }
    var n := header.value;
    bts := header.rest;
    while n > 0
      invariant Decode(IPC_REQ_MESSAGE, IPCReqMessageVal(old(z.v)), data)
          == DecodePairs(IPC_REQ_MESSAGE, n, IPCReqMessageVal(z.v), bts)
    {
      Turn(IPC_REQ_MESSAGE, n, IPCReqMessageVal(z.v), bts);
      n := n - 1;
      var field := ReadStr(bts);
      if field.Err? { return None; }
      bts := field.rest;
      IPCReqMessageField(z.v, field.value, bts);
      if field.value == ID {
        var r := ReadUint32(bts);
        if r.Err? { return None; }
        z.v := z.v.(id := r.value);
        bts := r.rest;
      } else if field.value == COMMAND {
        var r := ReadStr(bts);
        if r.Err? { return None; }
        z.v := z.v.(command := r.value);
        bts := r.rest;
      } else if field.value == PAYLOAD {
        var payload := new Cell(z.v.payload);
        var r := UnmarshalRequestPayload(payload, bts);
        z.v := z.v.(payload := payload.v);
        if r.None? { return None; }
        bts := r.value;
      } else {
        var r := Skip(bts);
        if r.None? { return None; }
        bts := r.value;
      }
    }
    NoMorePairs(IPC_REQ_MESSAGE, IPCReqMessageVal(z.v), bts);
    return Some(bts);
  }

  // ---- IPCRespMessage ----

  lemma IPCRespMessageField(z: IPCRespMessage, key: Bytes, b: Bytes)
    ensures DecodeField(IPC_RESP_MESSAGE, IPCRespMessageVal(z), Index(IPC_RESP_MESSAGE.fields, key), b)
         == if key == ID then
              match ReadUint32(b)
              case Ok(i, rest) => Ok(IPCRespMessageVal(z.(id := i)), rest)
              case Err => Err
            else if key == COMMAND then
              match ReadStr(b)
              case Ok(s, rest) => Ok(IPCRespMessageVal(z.(command := s)), rest)
              case Err => Err
            else if key == PAYLOAD then
              match Decode(RESPONSE_PAYLOAD, ResponsePayloadVal(z.payload), b)
              case Ok(v, rest) => Ok(Struct([Int(z.id), Str(z.command), v]), rest)
              case Err => Err
            else match Skip(b) case Some(rest) => Ok(IPCRespMessageVal(z), rest) case None => Err
  {
    hide ReadStr, ReadWithin, SkipMany, Index, DecodePairs, ReadMapHeader;
    IndexOfThree(IPC_RESP_MESSAGE.fields, key);
    var vals := IPCRespMessageVal(z).vals;
    if key == ID && ReadUint32(b).Ok? { SetThree(vals[0], vals[1], vals[2], Int(ReadUint32(b).value)); }
    if key == COMMAND && ReadStr(b).Ok? { SetThree(vals[0], vals[1], vals[2], Str(ReadStr(b).value)); }
    var nested := Decode(RESPONSE_PAYLOAD, ResponsePayloadVal(z.payload), b);
    if key == PAYLOAD && nested.Ok? { SetThree(vals[0], vals[1], vals[2], nested.value); }
  }

  method UnmarshalIPCRespMessage(z: Cell<IPCRespMessage>, data: Bytes) returns (o: Option<Bytes>)
    modifies z
    ensures Agrees(Decode(IPC_RESP_MESSAGE, IPCRespMessageVal(old(z.v)), data), IPCRespMessageVal(z.v), o)
  {
    hide DecodePairs, DecodeField, ReadStr, ReadInt, ReadUint32, ReadMapHeader, Skip, Index;
    var bts := data;
    var header := ReadMapHeader(bts);
    if header.Err? { return None; }
    var n := header.value;
    bts := header.rest;
    while n > 0
      invariant Decode(IPC_RESP_MESSAGE, IPCRespMessageVal(old(z.v)), data)
          == DecodePairs(IPC_RESP_MESSAGE, n, IPCRespMessageVal(z.v), bts)
    {
      Turn(IPC_RESP_MESSAGE, n, IPCRespMessageVal(z.v), bts);
      n := n - 1;
      var field := ReadStr(bts);
      if field.Err? { return None; }
      bts := field.rest;
      IPCRespMessageField(z.v, field.value, bts);
      if field.value == ID {
        var r := ReadUint32(bts);
        if r.Err? { return None; }
        z.v := z.v.(id := r.value);
        bts := r.rest;
      } else if field.value == COMMAND {
        var r := ReadStr(bts);
        if r.Err? { return None; }
        z.v := z.v.(command := r.value);
        bts := r.rest;
      } else if field.value == PAYLOAD {
        var payload := new Cell(z.v.payload);
        var r := UnmarshalResponsePayload(payload, bts);
        z.v := z.v.(payload := payload.v);
        if r.None? { return None; }
        bts := r.value;
      } else {
        var r := Skip(bts);
        if r.None? { return None; }
        bts := r.value;
      }
    }
    NoMorePairs(IPC_RESP_MESSAGE, IPCRespMessageVal(z.v), bts);
    return Some(bts);
  }

  // ---- Encoding ----

  // The first byte of a string of fewer than 32 bytes, and of a map of fewer than 16 pairs.
  lemma ShortForms(s: Bytes, n: nat)
    requires |s| < 32 && n < 16
    ensures AppendStr(s) == [(0xa0 + |s|) as byte] + s && MapHeader(n) == [(0x80 + n) as byte]
  {}

  lemma EncodeTwo(k: Kind, v: Val)
    requires k.StructKind? && Typed(k, v) && |k.fields| == 2
    ensures Encode(k, v) == MapHeader(2) + AppendStr(k.fields[0].key) + Encode(k.fields[0].kind, v.vals[0])
                            + AppendStr(k.fields[1].key) + Encode(k.fields[1].kind, v.vals[1])
    ensures Size(k, v) == |MapHeader(2)| + |AppendStr(k.fields[0].key)| + Size(k.fields[0].kind, v.vals[0])
                          + |AppendStr(k.fields[1].key)| + Size(k.fields[1].kind, v.vals[1])
  {
    hide AppendStr, MapHeader;
    assert EncodeFrom(k, v, 2) == [] && SizeFrom(k, v, 2) == 0;
    assert EncodeFrom(k, v, 1) == AppendStr(k.fields[1].key) + Encode(k.fields[1].kind, v.vals[1]);
    assert SizeFrom(k, v, 1) == |AppendStr(k.fields[1].key)| + Size(k.fields[1].kind, v.vals[1]);
  }

  lemma EncodeThree(k: Kind, v: Val)
    requires k.StructKind? && Typed(k, v) && |k.fields| == 3
    ensures Encode(k, v) == MapHeader(3) + AppendStr(k.fields[0].key) + Encode(k.fields[0].kind, v.vals[0])
                            + AppendStr(k.fields[1].key) + Encode(k.fields[1].kind, v.vals[1])
                            + AppendStr(k.fields[2].key) + Encode(k.fields[2].kind, v.vals[2])
    ensures Size(k, v) == |MapHeader(3)| + |AppendStr(k.fields[0].key)| + Size(k.fields[0].kind, v.vals[0])
                          + |AppendStr(k.fields[1].key)| + Size(k.fields[1].kind, v.vals[1])
                          + |AppendStr(k.fields[2].key)| + Size(k.fields[2].kind, v.vals[2])
  {
    hide AppendStr, MapHeader;
    assert EncodeFrom(k, v, 3) == [] && SizeFrom(k, v, 3) == 0;
    assert EncodeFrom(k, v, 2) == AppendStr(k.fields[2].key) + Encode(k.fields[2].kind, v.vals[2]);
    assert SizeFrom(k, v, 2) == |AppendStr(k.fields[2].key)| + Size(k.fields[2].kind, v.vals[2]);
    assert EncodeFrom(k, v, 1) == AppendStr(k.fields[1].key) + Encode(k.fields[1].kind, v.vals[1])
        + EncodeFrom(k, v, 2);
    assert SizeFrom(k, v, 1) == |AppendStr(k.fields[1].key)| + Size(k.fields[1].kind, v.vals[1]) + SizeFrom(k, v, 2);
  }

  lemma StrEncoded(s: Bytes)
    ensures Encode(StrKind, Str(s)) == AppendStr(s) && Size(StrKind, Str(s)) == 5 + |s|
  {}

  lemma IntEncoded(i: Integer)
    ensures Encode(IntKind, Int(i)) == AppendInt(i) && Size(IntKind, Int(i)) == 9
  {}

  lemma UintEncoded(u: uint32)
    ensures Encode(Uint32Kind, Int(u)) == AppendUint(u) && Size(Uint32Kind, Int(u)) == 5
  {}

  lemma ShortTwo(k: Kind, v: Val)
    requires k.StructKind? && Shaped(k, v) && |k.fields| == 2
    ensures Short(k, v) <==> Short(k.fields[0].kind, v.vals[0]) && Short(k.fields[1].kind, v.vals[1])
  {}

  lemma ShortThree(k: Kind, v: Val)
    requires k.StructKind? && Shaped(k, v) && |k.fields| == 3
    ensures Short(k, v) <==>
        Short(k.fields[0].kind, v.vals[0]) && Short(k.fields[1].kind, v.vals[1]) && Short(k.fields[2].kind, v.vals[2])
  {}

  const STRING_PREFIX_SIZE := 5
  const INT_SIZE := 9
  const UINT32_SIZE := 5

  lemma TaskInfoEncoded(z: TaskInfo)
    ensures Encode(TASK_INFO, TaskInfoVal(z))
         == [0x82, 0xa4, 0x73, 0x74, 0x65, 0x70] + AppendInt(z.step)
            + [0xa7, 0x6f, 0x70, 0x74, 0x69, 0x6f, 0x6e, 0x73] + AppendStr(z.options)
    ensures Size(TASK_INFO, TaskInfoVal(z)) == TaskInfoMsgsize(z)
  {
    hide Encode, Size, AppendStr, AppendInt, AppendUint, MapHeader;
    EncodeTwo(TASK_INFO, TaskInfoVal(z));
    ShortForms(STEP, 2);
    IntEncoded(z.step);
    ShortForms(OPTIONS, 2);
    StrEncoded(z.options);
    assert MapHeader(2) + AppendStr(STEP) == [0x82, 0xa4, 0x73, 0x74, 0x65, 0x70];
    assert AppendStr(OPTIONS) == [0xa7, 0x6f, 0x70, 0x74, 0x69, 0x6f, 0x6e, 0x73];
  }

  method MarshalTaskInfo(z: TaskInfo, b: Bytes) returns (o: Bytes)
    ensures o == b + Encode(TASK_INFO, TaskInfoVal(z))
  {
    hide Encode, AppendStr, AppendInt, AppendUint;
    TaskInfoEncoded(z);
    o := b;
    o := o + [0x82, 0xa4, 0x73, 0x74, 0x65, 0x70];
    o := o + AppendInt(z.step);
    o := o + [0xa7, 0x6f, 0x70, 0x74, 0x69, 0x6f, 0x6e, 0x73];
    o := o + AppendStr(z.options);
  }

  function TaskInfoMsgsize(z: TaskInfo): nat {
    1 + 5 + INT_SIZE + 8 + STRING_PREFIX_SIZE + |z.options|
  }

  // No string of 2^32 bytes or more.
  predicate TaskInfoShort(z: TaskInfo)
    ensures TaskInfoShort(z) <==> Short(TASK_INFO, TaskInfoVal(z))
  {
    ShortTwo(TASK_INFO, TaskInfoVal(z));
    |z.options| < TWO32
  }

  lemma ExtraResultEncoded(z: ExtraResult)
    ensures Encode(EXTRA_RESULT, ExtraResultVal(z))
         == [0x82, 0xa7, 0x6e, 0x6f, 0x64, 0x65, 0x5f, 0x69, 0x64] + AppendStr(z.nodeID)
            + [0xa6, 0x73, 0x74, 0x61, 0x74, 0x75, 0x73] + AppendStr(z.status)
    ensures Size(EXTRA_RESULT, ExtraResultVal(z)) == ExtraResultMsgsize(z)
  {
    hide Encode, Size, AppendStr, AppendInt, AppendUint, MapHeader;
    EncodeTwo(EXTRA_RESULT, ExtraResultVal(z));
    ShortForms(NODE_ID, 2);
    StrEncoded(z.nodeID);
    ShortForms(STATUS, 2);
    StrEncoded(z.status);
    assert MapHeader(2) + AppendStr(NODE_ID) == [0x82, 0xa7, 0x6e, 0x6f, 0x64, 0x65, 0x5f, 0x69, 0x64];
    assert AppendStr(STATUS) == [0xa6, 0x73, 0x74, 0x61, 0x74, 0x75, 0x73];
  }

  method MarshalExtraResult(z: ExtraResult, b: Bytes) returns (o: Bytes)
    ensures o == b + Encode(EXTRA_RESULT, ExtraResultVal(z))
  {
    hide Encode, AppendStr, AppendInt, AppendUint;
    ExtraResultEncoded(z);
    o := b;
    o := o + [0x82, 0xa7, 0x6e, 0x6f, 0x64, 0x65, 0x5f, 0x69, 0x64];
    o := o + AppendStr(z.nodeID);
    o := o + [0xa6, 0x73, 0x74, 0x61, 0x74, 0x75, 0x73];
    o := o + AppendStr(z.status);
  }

  function ExtraResultMsgsize(z: ExtraResult): nat {
    1 + 8 + STRING_PREFIX_SIZE + |z.nodeID| + 7 + STRING_PREFIX_SIZE + |z.status|
  }

  // No string of 2^32 bytes or more.
  predicate ExtraResultShort(z: ExtraResult)
    ensures ExtraResultShort(z) <==> Short(EXTRA_RESULT, ExtraResultVal(z))
  {
    ShortTwo(EXTRA_RESULT, ExtraResultVal(z));
    |z.nodeID| < TWO32 && |z.status| < TWO32
  }

  lemma TaskResultEncoded(z: TaskResult)
    ensures Encode(TASK_RESULT, TaskResultVal(z))
         == [0x82, 0xa7, 0x6d, 0x65, 0x73, 0x73, 0x61, 0x67, 0x65] + AppendStr(z.message)
            + [0xa5, 0x65, 0x78, 0x74, 0x72, 0x61] + Encode(EXTRA_RESULT, ExtraResultVal(z.extra))
    ensures Size(TASK_RESULT, TaskResultVal(z)) == TaskResultMsgsize(z)
  {
    hide Encode, Size, AppendStr, AppendInt, AppendUint, MapHeader;
    EncodeTwo(TASK_RESULT, TaskResultVal(z));
    ShortForms(MESSAGE, 2);
    StrEncoded(z.message);
    ShortForms(EXTRA, 2);
    ExtraResultEncoded(z.extra);
    assert MapHeader(2) + AppendStr(MESSAGE) == [0x82, 0xa7, 0x6d, 0x65, 0x73, 0x73, 0x61, 0x67, 0x65];
    assert AppendStr(EXTRA) == [0xa5, 0x65, 0x78, 0x74, 0x72, 0x61];
  }

  method MarshalTaskResult(z: TaskResult, b: Bytes) returns (o: Bytes)
    ensures o == b + Encode(TASK_RESULT, TaskResultVal(z))
  {
    hide Encode, AppendStr, AppendInt, AppendUint;
    TaskResultEncoded(z);
    ExtraResultEncoded(z.extra);
    o := b;
    o := o + [0x82, 0xa7, 0x6d, 0x65, 0x73, 0x73, 0x61, 0x67, 0x65];
    o := o + AppendStr(z.message);
    o := o + [0xa5, 0x65, 0x78, 0x74, 0x72, 0x61];
    o := o + [0x82, 0xa7, 0x6e, 0x6f, 0x64, 0x65, 0x5f, 0x69, 0x64];
    o := o + AppendStr(z.extra.nodeID);
    o := o + [0xa6, 0x73, 0x74, 0x61, 0x74, 0x75, 0x73];
    o := o + AppendStr(z.extra.status);
  }

  function TaskResultMsgsize(z: TaskResult): nat {
    1 + 8 + STRING_PREFIX_SIZE + |z.message| + 6 + 1 + 8 + STRING_PREFIX_SIZE + |z.extra.nodeID| + 7
        + STRING_PREFIX_SIZE + |z.extra.status|
  }

  // No string of 2^32 bytes or more.
  predicate TaskResultShort(z: TaskResult)
    ensures TaskResultShort(z) <==> Short(TASK_RESULT, TaskResultVal(z))
  {
    ShortTwo(TASK_RESULT, TaskResultVal(z));
    |z.message| < TWO32 && ExtraResultShort(z.extra)
  }

  lemma RequestPayloadEncoded(z: RequestPayload)
    ensures Encode(REQUEST_PAYLOAD, RequestPayloadVal(z))
         == [0x82, 0xa9, 0x74, 0x61, 0x73, 0x6b, 0x5f, 0x6e, 0x61, 0x6d, 0x65] + AppendStr(z.taskName)
            + [0xab, 0x74, 0x61, 0x73, 0x6b, 0x5f, 0x64, 0x65, 0x74, 0x61, 0x69, 0x6c]
               + Encode(TASK_INFO, TaskInfoVal(z.taskDetail))
    ensures Size(REQUEST_PAYLOAD, RequestPayloadVal(z)) == RequestPayloadMsgsize(z)
  {
    hide Encode, Size, AppendStr, AppendInt, AppendUint, MapHeader;
    EncodeTwo(REQUEST_PAYLOAD, RequestPayloadVal(z));
    ShortForms(TASK_NAME, 2);
    StrEncoded(z.taskName);
    ShortForms(TASK_DETAIL, 2);
    TaskInfoEncoded(z.taskDetail);
    assert MapHeader(2) + AppendStr(TASK_NAME) == [0x82, 0xa9, 0x74, 0x61, 0x73, 0x6b, 0x5f, 0x6e, 0x61, 0x6d, 0x65];
    assert AppendStr(TASK_DETAIL) == [0xab, 0x74, 0x61, 0x73, 0x6b, 0x5f, 0x64, 0x65, 0x74, 0x61, 0x69, 0x6c];
  }

  method MarshalRequestPayload(z: RequestPayload, b: Bytes) returns (o: Bytes)
    ensures o == b + Encode(REQUEST_PAYLOAD, RequestPayloadVal(z))
  {
    hide Encode, AppendStr, AppendInt, AppendUint;
    RequestPayloadEncoded(z);
    TaskInfoEncoded(z.taskDetail);
    o := b;
    o := o + [0x82, 0xa9, 0x74, 0x61, 0x73, 0x6b, 0x5f, 0x6e, 0x61, 0x6d, 0x65];
    o := o + AppendStr(z.taskName);
    o := o + [0xab, 0x74, 0x61, 0x73, 0x6b, 0x5f, 0x64, 0x65, 0x74, 0x61, 0x69, 0x6c];
    o := o + [0x82, 0xa4, 0x73, 0x74, 0x65, 0x70];
    o := o + AppendInt(z.taskDetail.step);
    o := o + [0xa7, 0x6f, 0x70, 0x74, 0x69, 0x6f, 0x6e, 0x73];
    o := o + AppendStr(z.taskDetail.options);
  }

  function RequestPayloadMsgsize(z: RequestPayload): nat {
    1 + 10 + STRING_PREFIX_SIZE + |z.taskName| + 12 + 1 + 5 + INT_SIZE + 8 + STRING_PREFIX_SIZE + |z.taskDetail.options|
  }

  // No string of 2^32 bytes or more.
  predicate RequestPayloadShort(z: RequestPayload)
    ensures RequestPayloadShort(z) <==> Short(REQUEST_PAYLOAD, RequestPayloadVal(z))
  {
    ShortTwo(REQUEST_PAYLOAD, RequestPayloadVal(z));
    |z.taskName| < TWO32 && TaskInfoShort(z.taskDetail)
  }

  lemma ResponsePayloadEncoded(z: ResponsePayload)
    ensures Encode(RESPONSE_PAYLOAD, ResponsePayloadVal(z))
         == [0x82, 0xa4, 0x63, 0x6f, 0x64, 0x65] + AppendInt(z.code)
            + [0xa6, 0x72, 0x65, 0x73, 0x75, 0x6c, 0x74] + Encode(TASK_RESULT, TaskResultVal(z.result))
    ensures Size(RESPONSE_PAYLOAD, ResponsePayloadVal(z)) == ResponsePayloadMsgsize(z)
  {
    hide Encode, Size, AppendStr, AppendInt, AppendUint, MapHeader;
    EncodeTwo(RESPONSE_PAYLOAD, ResponsePayloadVal(z));
    ShortForms(CODE, 2);
    IntEncoded(z.code);
    ShortForms(RESULT, 2);
    TaskResultEncoded(z.result);
    assert MapHeader(2) + AppendStr(CODE) == [0x82, 0xa4, 0x63, 0x6f, 0x64, 0x65];
    assert AppendStr(RESULT) == [0xa6, 0x72, 0x65, 0x73, 0x75, 0x6c, 0x74];
  }

  method MarshalResponsePayload(z: ResponsePayload, b: Bytes) returns (o: Bytes)
    ensures o == b + Encode(RESPONSE_PAYLOAD, ResponsePayloadVal(z))
  {
    hide Encode, AppendStr, AppendInt, AppendUint;
    ResponsePayloadEncoded(z);
    TaskResultEncoded(z.result);
    ExtraResultEncoded(z.result.extra);
    o := b;
    o := o + [0x82, 0xa4, 0x63, 0x6f, 0x64, 0x65];
    o := o + AppendInt(z.code);
    o := o + [0xa6, 0x72, 0x65, 0x73, 0x75, 0x6c, 0x74];
    o := o + [0x82, 0xa7, 0x6d, 0x65, 0x73, 0x73, 0x61, 0x67, 0x65];
    o := o + AppendStr(z.result.message);
    o := o + [0xa5, 0x65, 0x78, 0x74, 0x72, 0x61];
    o := o + [0x82, 0xa7, 0x6e, 0x6f, 0x64, 0x65, 0x5f, 0x69, 0x64];
    o := o + AppendStr(z.result.extra.nodeID);
    o := o + [0xa6, 0x73, 0x74, 0x61, 0x74, 0x75, 0x73];
    o := o + AppendStr(z.result.extra.status);
  }

  function ResponsePayloadMsgsize(z: ResponsePayload): nat {
    1 + 5 + INT_SIZE + 7 + 1 + 8 + STRING_PREFIX_SIZE + |z.result.message| + 6 + 1 + 8 + STRING_PREFIX_SIZE
        + |z.result.extra.nodeID| + 7 + STRING_PREFIX_SIZE + |z.result.extra.status|
  }

  // No string of 2^32 bytes or more.
  predicate ResponsePayloadShort(z: ResponsePayload)
    ensures ResponsePayloadShort(z) <==> Short(RESPONSE_PAYLOAD, ResponsePayloadVal(z))
  {
    ShortTwo(RESPONSE_PAYLOAD, ResponsePayloadVal(z));
    TaskResultShort(z.result)
  }

  lemma IPCReqMessageEncoded(z: IPCReqMessage)
    ensures Encode(IPC_REQ_MESSAGE, IPCReqMessageVal(z))
         == [0x83, 0xa2, 0x69, 0x64] + AppendUint(z.id)
            + [0xa7, 0x63, 0x6f, 0x6d, 0x6d, 0x61, 0x6e, 0x64] + AppendStr(z.command)
            + [0xa7, 0x70, 0x61, 0x79, 0x6c, 0x6f, 0x61, 0x64] + Encode(REQUEST_PAYLOAD, RequestPayloadVal(z.payload))
    ensures Size(IPC_REQ_MESSAGE, IPCReqMessageVal(z)) == IPCReqMessageMsgsize(z)
  {
    hide Encode, Size, AppendStr, AppendInt, AppendUint, MapHeader;
    EncodeThree(IPC_REQ_MESSAGE, IPCReqMessageVal(z));
    ShortForms(ID, 3);
    UintEncoded(z.id);
    ShortForms(COMMAND, 3);
    StrEncoded(z.command);
    ShortForms(PAYLOAD, 3);
    RequestPayloadEncoded(z.payload);
    assert MapHeader(3) + AppendStr(ID) == [0x83, 0xa2, 0x69, 0x64];
    assert AppendStr(COMMAND) == [0xa7, 0x63, 0x6f, 0x6d, 0x6d, 0x61, 0x6e, 0x64];
    assert AppendStr(PAYLOAD) == [0xa7, 0x70, 0x61, 0x79, 0x6c, 0x6f, 0x61, 0x64];
  }

  method MarshalIPCReqMessage(z: IPCReqMessage, b: Bytes) returns (o: Bytes)
    ensures o == b + Encode(IPC_REQ_MESSAGE, IPCReqMessageVal(z))
  {
    hide Encode, AppendStr, AppendInt, AppendUint;
    IPCReqMessageEncoded(z);
    o := b;
    o := o + [0x83, 0xa2, 0x69, 0x64];
    o := o + AppendUint(z.id);
    o := o + [0xa7, 0x63, 0x6f, 0x6d, 0x6d, 0x61, 0x6e, 0x64];
    o := o + AppendStr(z.command);
    o := o + [0xa7, 0x70, 0x61, 0x79, 0x6c, 0x6f, 0x61, 0x64];
    o := MarshalRequestPayload(z.payload, o);
  }

  function IPCReqMessageMsgsize(z: IPCReqMessage): nat {
    1 + 3 + UINT32_SIZE + 8 + STRING_PREFIX_SIZE + |z.command| + 8 + RequestPayloadMsgsize(z.payload)
  }

  // No string of 2^32 bytes or more.
  predicate IPCReqMessageShort(z: IPCReqMessage)
    ensures IPCReqMessageShort(z) <==> Short(IPC_REQ_MESSAGE, IPCReqMessageVal(z))
  {
    ShortThree(IPC_REQ_MESSAGE, IPCReqMessageVal(z));
    |z.command| < TWO32 && RequestPayloadShort(z.payload)
  }

  lemma IPCRespMessageEncoded(z: IPCRespMessage)
    ensures Encode(IPC_RESP_MESSAGE, IPCRespMessageVal(z))
         == [0x83, 0xa2, 0x69, 0x64] + AppendUint(z.id)
            + [0xa7, 0x63, 0x6f, 0x6d, 0x6d, 0x61, 0x6e, 0x64] + AppendStr(z.command)
            + [0xa7, 0x70, 0x61, 0x79, 0x6c, 0x6f, 0x61, 0x64] + Encode(RESPONSE_PAYLOAD, ResponsePayloadVal(z.payload))
    ensures Size(IPC_RESP_MESSAGE, IPCRespMessageVal(z)) == IPCRespMessageMsgsize(z)
  {
    hide Encode, Size, AppendStr, AppendInt, AppendUint, MapHeader;
    EncodeThree(IPC_RESP_MESSAGE, IPCRespMessageVal(z));
    ShortForms(ID, 3);
    UintEncoded(z.id);
    ShortForms(COMMAND, 3);
    StrEncoded(z.command);
    ShortForms(PAYLOAD, 3);
    ResponsePayloadEncoded(z.payload);
    assert MapHeader(3) + AppendStr(ID) == [0x83, 0xa2, 0x69, 0x64];
    assert AppendStr(COMMAND) == [0xa7, 0x63, 0x6f, 0x6d, 0x6d, 0x61, 0x6e, 0x64];
    assert AppendStr(PAYLOAD) == [0xa7, 0x70, 0x61, 0x79, 0x6c, 0x6f, 0x61, 0x64];
  }

  method MarshalIPCRespMessage(z: IPCRespMessage, b: Bytes) returns (o: Bytes)
    ensures o == b + Encode(IPC_RESP_MESSAGE, IPCRespMessageVal(z))
  {
    hide Encode, AppendStr, AppendInt, AppendUint;
    IPCRespMessageEncoded(z);
    o := b;
    o := o + [0x83, 0xa2, 0x69, 0x64];
    o := o + AppendUint(z.id);
    o := o + [0xa7, 0x63, 0x6f, 0x6d, 0x6d, 0x61, 0x6e, 0x64];
    o := o + AppendStr(z.command);
    o := o + [0xa7, 0x70, 0x61, 0x79, 0x6c, 0x6f, 0x61, 0x64];
    o := MarshalResponsePayload(z.payload, o);
  }

  function IPCRespMessageMsgsize(z: IPCRespMessage): nat {
    1 + 3 + UINT32_SIZE + 8 + STRING_PREFIX_SIZE + |z.command| + 8 + ResponsePayloadMsgsize(z.payload)
  }

  // No string of 2^32 bytes or more.
  predicate IPCRespMessageShort(z: IPCRespMessage)
    ensures IPCRespMessageShort(z) <==> Short(IPC_RESP_MESSAGE, IPCRespMessageVal(z))
  {
    ShortThree(IPC_RESP_MESSAGE, IPCRespMessageVal(z));
    |z.command| < TWO32 && ResponsePayloadShort(z.payload)
  }

  // ---- The codec of every message type ----

  // The seven structs are told apart by their values.
  lemma ValuesAreFaithful()
    ensures forall y, z :: TaskInfoVal(y) == TaskInfoVal(z) ==> y == z
    ensures forall y, z :: ExtraResultVal(y) == ExtraResultVal(z) ==> y == z
    ensures forall y, z :: TaskResultVal(y) == TaskResultVal(z) ==> y == z
    ensures forall y, z :: RequestPayloadVal(y) == RequestPayloadVal(z) ==> y == z
    ensures forall y, z :: ResponsePayloadVal(y) == ResponsePayloadVal(z) ==> y == z
    ensures forall y, z :: IPCReqMessageVal(y) == IPCReqMessageVal(z) ==> y == z
    ensures forall y, z :: IPCRespMessageVal(y) == IPCRespMessageVal(z) ==> y == z
  {
    assert forall y: TaskInfo :: TaskInfoVal(y).vals[0] == Int(y.step) && TaskInfoVal(y).vals[1] == Str(y.options);
  }

  lemma TaskInfoRoundTrip(z: TaskInfo, was: TaskInfo, rest: Bytes)
    requires TaskInfoShort(was)
    ensures TaskInfoShort(z) <==>
        Decode(TASK_INFO, TaskInfoVal(was), Encode(TASK_INFO, TaskInfoVal(z)) + rest)
        == Ok(TaskInfoVal(z), rest)
    ensures |Encode(TASK_INFO, TaskInfoVal(z))| <= TaskInfoMsgsize(z)
  {
    hide WellFormed, Encode, Size, Decode, Short, TaskInfoShort;
    KindsAreWellFormed();
    RoundTripExactly(TASK_INFO, TaskInfoVal(z), TaskInfoVal(was), rest);
    EncodeFits(TASK_INFO, TaskInfoVal(z));
    TaskInfoEncoded(z);
  }

  lemma ExtraResultRoundTrip(z: ExtraResult, was: ExtraResult, rest: Bytes)
    requires ExtraResultShort(was)
    ensures ExtraResultShort(z) <==>
        Decode(EXTRA_RESULT, ExtraResultVal(was), Encode(EXTRA_RESULT, ExtraResultVal(z)) + rest)
        == Ok(ExtraResultVal(z), rest)
    ensures |Encode(EXTRA_RESULT, ExtraResultVal(z))| <= ExtraResultMsgsize(z)
  {
    hide WellFormed, Encode, Size, Decode, Short, ExtraResultShort;
    KindsAreWellFormed();
    RoundTripExactly(EXTRA_RESULT, ExtraResultVal(z), ExtraResultVal(was), rest);
    EncodeFits(EXTRA_RESULT, ExtraResultVal(z));
    ExtraResultEncoded(z);
  }

  lemma TaskResultRoundTrip(z: TaskResult, was: TaskResult, rest: Bytes)
    requires TaskResultShort(was)
    ensures TaskResultShort(z) <==>
        Decode(TASK_RESULT, TaskResultVal(was), Encode(TASK_RESULT, TaskResultVal(z)) + rest)
        == Ok(TaskResultVal(z), rest)
    ensures |Encode(TASK_RESULT, TaskResultVal(z))| <= TaskResultMsgsize(z)
  {
    hide WellFormed, Encode, Size, Decode, Short, TaskResultShort;
    KindsAreWellFormed();
    RoundTripExactly(TASK_RESULT, TaskResultVal(z), TaskResultVal(was), rest);
    EncodeFits(TASK_RESULT, TaskResultVal(z));
    TaskResultEncoded(z);
  }

  lemma RequestPayloadRoundTrip(z: RequestPayload, was: RequestPayload, rest: Bytes)
    requires RequestPayloadShort(was)
    ensures RequestPayloadShort(z) <==>
        Decode(REQUEST_PAYLOAD, RequestPayloadVal(was), Encode(REQUEST_PAYLOAD, RequestPayloadVal(z)) + rest)
        == Ok(RequestPayloadVal(z), rest)
    ensures |Encode(REQUEST_PAYLOAD, RequestPayloadVal(z))| <= RequestPayloadMsgsize(z)
  {
    hide WellFormed, Encode, Size, Decode, Short, RequestPayloadShort;
    KindsAreWellFormed();
    RoundTripExactly(REQUEST_PAYLOAD, RequestPayloadVal(z), RequestPayloadVal(was), rest);
    EncodeFits(REQUEST_PAYLOAD, RequestPayloadVal(z));
    RequestPayloadEncoded(z);
  }

  lemma ResponsePayloadRoundTrip(z: ResponsePayload, was: ResponsePayload, rest: Bytes)
    requires ResponsePayloadShort(was)
    ensures ResponsePayloadShort(z) <==>
        Decode(RESPONSE_PAYLOAD, ResponsePayloadVal(was), Encode(RESPONSE_PAYLOAD, ResponsePayloadVal(z)) + rest)
        == Ok(ResponsePayloadVal(z), rest)
    ensures |Encode(RESPONSE_PAYLOAD, ResponsePayloadVal(z))| <= ResponsePayloadMsgsize(z)
  {
    hide WellFormed, Encode, Size, Decode, Short, ResponsePayloadShort;
    KindsAreWellFormed();
    RoundTripExactly(RESPONSE_PAYLOAD, ResponsePayloadVal(z), ResponsePayloadVal(was), rest);
    EncodeFits(RESPONSE_PAYLOAD, ResponsePayloadVal(z));
    ResponsePayloadEncoded(z);
  }

  lemma IPCReqMessageRoundTrip(z: IPCReqMessage, was: IPCReqMessage, rest: Bytes)
    requires IPCReqMessageShort(was)
    ensures IPCReqMessageShort(z) <==>
        Decode(IPC_REQ_MESSAGE, IPCReqMessageVal(was), Encode(IPC_REQ_MESSAGE, IPCReqMessageVal(z)) + rest)
        == Ok(IPCReqMessageVal(z), rest)
    ensures |Encode(IPC_REQ_MESSAGE, IPCReqMessageVal(z))| <= IPCReqMessageMsgsize(z)
  {
    hide WellFormed, Encode, Size, Decode, Short, IPCReqMessageShort;
    KindsAreWellFormed();
    RoundTripExactly(IPC_REQ_MESSAGE, IPCReqMessageVal(z), IPCReqMessageVal(was), rest);
    EncodeFits(IPC_REQ_MESSAGE, IPCReqMessageVal(z));
    IPCReqMessageEncoded(z);
  }

  lemma IPCRespMessageRoundTrip(z: IPCRespMessage, was: IPCRespMessage, rest: Bytes)
    requires IPCRespMessageShort(was)
    ensures IPCRespMessageShort(z) <==>
        Decode(IPC_RESP_MESSAGE, IPCRespMessageVal(was), Encode(IPC_RESP_MESSAGE, IPCRespMessageVal(z)) + rest)
        == Ok(IPCRespMessageVal(z), rest)
    ensures |Encode(IPC_RESP_MESSAGE, IPCRespMessageVal(z))| <= IPCRespMessageMsgsize(z)
  {
    hide WellFormed, Encode, Size, Decode, Short, IPCRespMessageShort;
    KindsAreWellFormed();
    RoundTripExactly(IPC_RESP_MESSAGE, IPCRespMessageVal(z), IPCRespMessageVal(was), rest);
    EncodeFits(IPC_RESP_MESSAGE, IPCRespMessageVal(z));
    IPCRespMessageEncoded(z);
  }

  // A message marshalled, then unmarshalled over any old value, with any bytes behind it.
  method TransmitIPCReqMessage(z: IPCReqMessage, into: Cell<IPCReqMessage>, rest: Bytes)
      returns (left: Option<Bytes>)
    requires IPCReqMessageShort(z) && IPCReqMessageShort(into.v)
    modifies into
    ensures into.v == z && left == Some(rest)
  {
    hide Encode, Decode, Shaped, Typed;
    var data := MarshalIPCReqMessage(z, []);
    assert data == Encode(IPC_REQ_MESSAGE, IPCReqMessageVal(z));
    IPCReqMessageRoundTrip(z, into.v, rest);
    left := UnmarshalIPCReqMessage(into, data + rest);
    ValuesAreFaithful();
  }

  // A message marshalled, then unmarshalled over any old value, with any bytes behind it.
  method TransmitIPCRespMessage(z: IPCRespMessage, into: Cell<IPCRespMessage>, rest: Bytes)
      returns (left: Option<Bytes>)
    requires IPCRespMessageShort(z) && IPCRespMessageShort(into.v)
    modifies into
    ensures into.v == z && left == Some(rest)
  {
    hide Encode, Decode, Shaped, Typed;
    var data := MarshalIPCRespMessage(z, []);
    assert data == Encode(IPC_RESP_MESSAGE, IPCRespMessageVal(z));
    IPCRespMessageRoundTrip(z, into.v, rest);
    left := UnmarshalIPCRespMessage(into, data + rest);
    ValuesAreFaithful();
  }
}
