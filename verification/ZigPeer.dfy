/**
 The plugin loop written in Zig: it reads exact amounts, discards frames of streams, and answers each
 request frame before it reads the next.
 */
module ZigPeer {
  import opened Bytes
  import opened Frames
  import opened Options
  import opened Messages
  import opened Transport
  import HostClient

  // ---- Exact reads and writes ----

  // `readExact`: false is `error.EndOfStream`, whether some bytes came or none.
  method ReadExact(link: Link, buf: array<byte>) returns (ok: bool)
    modifies link, buf
    ensures ok <==> buf.Length <= |old(link.ahead)|
    ensures if ok then buf[..] == old(link.ahead)[..buf.Length] && link.ahead == old(link.ahead)[buf.Length..]
        else link.ahead == []
  {
    var bytesRead := 0;
    while bytesRead < buf.Length
      invariant bytesRead <= buf.Length && bytesRead <= |old(link.ahead)|
      invariant buf[..bytesRead] == old(link.ahead)[..bytesRead]
      invariant link.ahead == old(link.ahead)[bytesRead..]
    {
      ghost var filled, rest := buf[..bytesRead], link.ahead;
      var n := link.Read(buf, bytesRead);
      if n == 0 { return false; }
      assert buf[..bytesRead + n] == filled + rest[..n] == old(link.ahead)[..bytesRead + n];
      bytesRead := bytesRead + n;
    }
    assert buf[..] == buf[..buf.Length];
    return true;
  }

  // The writing end: a write takes some of the bytes offered, or fails for good.
  class Sink {
    var written: Bytes
    var broken: bool

    constructor ()
      ensures written == [] && !broken
    {
      written, broken := [], false;
    }

    method Write(bytes: Bytes) returns (n: int)
      requires bytes != []
      modifies this
      ensures n <= |bytes|
      ensures n > 0 ==> written == old(written) + bytes[..n] && !broken
      ensures n <= 0 ==> written == old(written) && broken
      ensures old(broken) ==> broken
    {
      var fails: bool := *;
      if broken || fails {
        broken := true;
        return 0;
      }
      var k: int :| 1 <= k <= |bytes|;
      written := written + bytes[..k];
      return k;
    }
  }

  // `writeAll`: the whole buffer, in order, whatever pieces the channel takes it in; if it fails, a
  // part of it that is not the whole.
  method WriteAll(sink: Sink, buf: Bytes) returns (ok: bool)
    modifies sink
    ensures ok ==> sink.written == old(sink.written) + buf && (buf != [] ==> !sink.broken)
    ensures !ok ==> sink.broken && exists k :: 0 <= k < |buf| && sink.written == old(sink.written) + buf[..k]
    ensures old(sink.broken) ==> sink.broken
    ensures ok ==> sink.broken == old(sink.broken)
  {
    var bytesWritten := 0;
    while bytesWritten < |buf|
      invariant bytesWritten <= |buf|
      invariant sink.written == old(sink.written) + buf[..bytesWritten]
      invariant bytesWritten > 0 ==> !sink.broken && !old(sink.broken)
      invariant bytesWritten == 0 ==> sink.broken == old(sink.broken)
    {
      var n := sink.Write(buf[bytesWritten..]);
      if n <= 0 {
        assert sink.written == old(sink.written) + buf[..bytesWritten];
        return false;
      }
      assert buf[..bytesWritten] + buf[bytesWritten..][..n] == buf[..bytesWritten + n];
      bytesWritten := bytesWritten + n;
    }
    assert buf[..bytesWritten] == buf;
    return true;
  }

  // ---- The frame loop ----

  // The codec; either direction can fail.
  datatype Codec = Codec(decode: Bytes -> Option<IPCReqMessage>, encode: IPCRespMessage -> Option<Bytes>)

  // How the loop ends: the host is gone, or an error is returned.
  datatype Ending = HostExited | Aborted

  datatype Service = Service(replies: seq<Bytes>, ending: Ending)

  // The reply to one request frame: none if it is an error frame, cannot be decoded, or the reply
  // cannot be encoded or is too long for its length field.
  function ReplyTo(codec: Codec, cfg: HostClient.Config, f: Frame): (r: Option<Bytes>)
    ensures r.Some? ==> |r.value| < TWO32
  {
    if IsError(f) then None
    else match codec.decode(f.payload)
         case None => None
         case Some(req) =>
           match codec.encode(HostClient.Reply(cfg, req))
           case None => None
           case Some(out) => if |out| < TWO32 then Some(out) else None
  }

  // What the loop does with a byte stream: the payloads it writes, in order, and how it ends.
  function Serve(codec: Codec, cfg: HostClient.Config, w: Bytes): (r: Service)
    ensures forall i | 0 <= i < |r.replies| :: |r.replies[i]| < TWO32
  {
    var p := ParseFrame(w);
    if p.Ended? || p.HeaderCut? then Service([], HostExited)
    else if p.PayloadCut? then Service([], Aborted)
    else if p.frame.id != 0 then Serve(codec, cfg, p.rest)
    else if ReplyTo(codec, cfg, p.frame).None? then Service([], Aborted)
    else
      var later := Serve(codec, cfg, p.rest);
      Service([ReplyTo(codec, cfg, p.frame).value] + later.replies, later.ending)
  }

  function WriteReplies(replies: seq<Bytes>): Bytes
    requires forall i | 0 <= i < |replies| :: |replies[i]| < TWO32
  {
    if replies == [] then [] else Encode(Frame(0, 0, replies[0])) + WriteReplies(replies[1..])
  }

  lemma ServeUnfolds(codec: Codec, cfg: HostClient.Config, w: Bytes)
    ensures var p, s := ParseFrame(w), Serve(codec, cfg, w);
      && (p.Ended? || p.HeaderCut? ==> s == Service([], HostExited))
      && (p.PayloadCut? ==> s == Service([], Aborted))
      && (p.Parsed? && p.frame.id != 0 ==> s == Serve(codec, cfg, p.rest))
      && (p.Parsed? && p.frame.id == 0 && ReplyTo(codec, cfg, p.frame).None? ==> s == Service([], Aborted))
      && (p.Parsed? && p.frame.id == 0 && ReplyTo(codec, cfg, p.frame).Some? ==>
            s == Service([ReplyTo(codec, cfg, p.frame).value] + Serve(codec, cfg, p.rest).replies,
                Serve(codec, cfg, p.rest).ending))
  {}

  // A read that stops in a header is not told apart from one that stops before it.
  datatype Taken = Whole(frame: Frame) | NoHeader | NoPayload

  function TakenFrom(p: Parse): Taken {
    match p
    case Parsed(f, _) => Whole(f)
    case PayloadCut => NoPayload
    case _ => NoHeader
  }

  // One frame: a header, then its payload, which is dropped if the frame is a stream's.
  method NextFrame(link: Link) returns (t: Taken)
    modifies link
    ensures t == TakenFrom(ParseFrame(old(link.ahead)))
    ensures ParseFrame(old(link.ahead)).Parsed? ==> link.ahead == ParseFrame(old(link.ahead)).rest
  {
    var header := new byte[12];
    var ok := ReadExact(link, header);
    if !ok { return NoHeader; }
    HeaderFields(header, old(link.ahead));
    var length, id, flags := GetUint32(header, 0), GetUint32(header, 4), GetUint32(header, 8);
    var payload := new byte[length];
    ok := ReadExact(link, payload);
    if !ok { return NoPayload; }
    return Whole(Frame(id, flags, payload[..]));
  }

  lemma WriteOne(replies: seq<Bytes>, out: Bytes)
    requires |out| < TWO32 && forall i | 0 <= i < |replies| :: |replies[i]| < TWO32
    ensures WriteReplies([out] + replies) == Header(|out|, 0, 0) + out + WriteReplies(replies)
  {
    assert ([out] + replies)[1..] == replies;
  }

  // The loop, over any chunking of its reads and writes.
  method RunLoop(codec: Codec, cfg: HostClient.Config, link: Link, sink: Sink) returns (ending: Ending)
    requires !sink.broken
    modifies link, sink
    ensures var s := Serve(codec, cfg, old(link.ahead));
      if !sink.broken then ending == s.ending && sink.written == old(sink.written) + WriteReplies(s.replies)
      else ending == Aborted && sink.written <= old(sink.written) + WriteReplies(s.replies)
  {
    hide ParseFrame, Serve, ReplyTo, WriteReplies, Header;
    ghost var done := [];
    ghost var before := sink.written;
    assert [] + WriteReplies(Serve(codec, cfg, link.ahead).replies)
        == WriteReplies(Serve(codec, cfg, link.ahead).replies);
    while true
      invariant !sink.broken && sink.written == before + done
      invariant WriteReplies(Serve(codec, cfg, old(link.ahead)).replies)
             == done + WriteReplies(Serve(codec, cfg, link.ahead).replies)
      invariant Serve(codec, cfg, link.ahead).ending == Serve(codec, cfg, old(link.ahead)).ending
      decreases |link.ahead|
    {
      ServeUnfolds(codec, cfg, link.ahead);
      assert WriteReplies([]) == [] by { NoReplies(); }
      var t := NextFrame(link);
      match t
      case NoHeader => return HostExited;
      case NoPayload => return Aborted;
      case Whole(f) =>
        if f.id == 0 {
          var out := ReplyTo(codec, cfg, f);
          if out.None? { return Aborted; }
          WriteOne(Serve(codec, cfg, link.ahead).replies, out.value);
          var ok := WriteFrame(sink, out.value);
          if !ok { return Aborted; }
          done := done + (Header(|out.value|, 0, 0) + out.value);
        }
    }
  }

  lemma NoReplies()
    ensures WriteReplies([]) == []
  {}

  // The header and the payload, one after the other.
  method WriteFrame(sink: Sink, out: Bytes) returns (ok: bool)
    requires |out| < TWO32 && !sink.broken
    modifies sink
    ensures ok ==> sink.written == old(sink.written) + (Header(|out|, 0, 0) + out) && !sink.broken
    ensures !ok ==> sink.broken && sink.written <= old(sink.written) + (Header(|out|, 0, 0) + out)
  {
    hide Header;
    ok := WriteAll(sink, Header(|out|, 0, 0));
    if ok { ok := WriteAll(sink, out); }
  }

  // ---- What the host sees ----

  // The frames that are not a stream's.
  function Raw(fs: seq<Frame>): (r: seq<Frame>)
    ensures Sized(fs) ==> Sized(r)
  {
    if fs == [] then []
    else
      assert Sized(fs) ==> Sized(fs[1..]) && |fs[0].payload| <= TWO32 - 13;
      (if fs[0].id == 0 then [fs[0]] else []) + Raw(fs[1..])
  }

  lemma ServeOne(codec: Codec, cfg: HostClient.Config, f: Frame, tail: Bytes)
    requires |f.payload| < TWO32
    ensures var s, reply := Serve(codec, cfg, Encode(f) + tail), ReplyTo(codec, cfg, f);
      && (f.id != 0 ==> s == Serve(codec, cfg, tail))
      && (f.id == 0 && reply.None? ==> s == Service([], Aborted))
      && (f.id == 0 && reply.Some? ==>
           s == Service([reply.value] + Serve(codec, cfg, tail).replies, Serve(codec, cfg, tail).ending))
  {
    hide Serve, ReplyTo;
    ParseEncode(f, tail);
    ServeUnfolds(codec, cfg, Encode(f) + tail);
  }

  lemma EncodeAllStep(fs: seq<Frame>, tail: Bytes)
    requires Sized(fs) && fs != []
    ensures EncodeAll(fs) + tail == Encode(fs[0]) + (EncodeAll(fs[1..]) + tail)
  {
    hide Encode;
  }

  lemma RawStep(fs: seq<Frame>)
    requires Sized(fs) && fs != []
    ensures Sized(Raw(fs)) && Sized(Raw(fs[1..]))
    ensures if fs[0].id == 0 then Raw(fs) != [] && Raw(fs)[0] == fs[0] && Raw(fs)[1..] == Raw(fs[1..])
            else Raw(fs) == Raw(fs[1..])
  {}

  // Deleting the frames of streams from the input changes nothing in the output.
  lemma {:induction false} StreamFramesIgnored(codec: Codec, cfg: HostClient.Config, fs: seq<Frame>, tail: Bytes)
    requires Sized(fs)
    ensures Serve(codec, cfg, EncodeAll(fs) + tail) == Serve(codec, cfg, EncodeAll(Raw(fs)) + tail)
  {
    hide Serve, ReplyTo, Encode, EncodeAll;
    if fs == [] {
      assert Raw(fs) == fs;
    } else {
      hide Raw;
      var rest := EncodeAll(fs[1..]) + tail;
      RawStep(fs);
      EncodeAllStep(fs, tail);
      ServeOne(codec, cfg, fs[0], rest);
      StreamFramesIgnored(codec, cfg, fs[1..], tail);
      if fs[0].id == 0 {
        EncodeAllStep(Raw(fs), tail);
        ServeOne(codec, cfg, fs[0], EncodeAll(Raw(fs[1..])) + tail);
      }
    }
  }

  function ReplyFrames(replies: seq<Bytes>): (fs: seq<Frame>)
    ensures |fs| == |replies|
  {
    seq(|replies|, i requires 0 <= i < |replies| => Frame(0, 0, replies[i]))
  }

  // What the loop writes parses as its replies, in order, and nothing else.
  lemma {:induction false} RepliesParse(replies: seq<Bytes>)
    requires forall i | 0 <= i < |replies| :: |replies[i]| < TWO32
    ensures ParseAll(WriteReplies(replies)) == Reading(ReplyFrames(replies), AtBoundary)
  {
    if replies != [] {
      RepliesParse(replies[1..]);
      ParseAllStep(Frame(0, 0, replies[0]), WriteReplies(replies[1..]));
      hide ParseAll, ParseFrame, Encode;
      assert ReplyFrames(replies) == [Frame(0, 0, replies[0])] + ReplyFrames(replies[1..]);
    }
  }

  // The host's half of the codec, and the round trip both halves promise.
  datatype HostCodec = HostCodec(encode: IPCReqMessage -> Bytes, decode: Bytes -> Option<IPCRespMessage>)

  ghost predicate Lawful(codec: Codec, host: HostCodec, cfg: HostClient.Config, req: IPCReqMessage) {
    && codec.decode(host.encode(req)) == Some(req)
    && codec.encode(HostClient.Reply(cfg, req)).Some?
    && |codec.encode(HostClient.Reply(cfg, req)).value| < TWO32
    && host.decode(codec.encode(HostClient.Reply(cfg, req)).value) == Some(HostClient.Reply(cfg, req))
  }

  function RequestFrames(host: HostCodec, reqs: seq<IPCReqMessage>): (fs: seq<Frame>)
    ensures |fs| == |reqs|
  {
    seq(|reqs|, i requires 0 <= i < |reqs| => Frame(0, 0, host.encode(reqs[i])))
  }

  lemma {:induction false} AnswersAll(codec: Codec, host: HostCodec, cfg: HostClient.Config, reqs: seq<IPCReqMessage>)
    requires Sized(RequestFrames(host, reqs)) && forall i | 0 <= i < |reqs| :: Lawful(codec, host, cfg, reqs[i])
    ensures var s := Serve(codec, cfg, EncodeAll(RequestFrames(host, reqs)));
      && s.ending == HostExited && |s.replies| == |reqs|
      && forall i | 0 <= i < |reqs| :: host.decode(s.replies[i]) == Some(HostClient.Reply(cfg, reqs[i]))
  {
    if reqs != [] {
      var fs := RequestFrames(host, reqs);
      assert fs[1..] == RequestFrames(host, reqs[1..]);
      AnswersAll(codec, host, cfg, reqs[1..]);
      assert Lawful(codec, host, cfg, reqs[0]);
      assert ReplyTo(codec, cfg, fs[0]) == codec.encode(HostClient.Reply(cfg, reqs[0]));
      hide Serve, ReplyTo, Encode, Lawful;
      ServeOne(codec, cfg, fs[0], EncodeAll(fs[1..]));
    }
  }

  // ---- How it ends ----

  // The frame gets no reply: it is an Error frame, or no request, or the reply cannot be sent.
  predicate Refused(codec: Codec, cfg: HostClient.Config, f: Frame) {
    || IsError(f)
    || codec.decode(f.payload).None?
    || var out := codec.encode(HostClient.Reply(cfg, codec.decode(f.payload).value));
       out.None? || |out.value| >= TWO32
  }

  lemma RefusedIs(codec: Codec, cfg: HostClient.Config, f: Frame)
    ensures var r := ReplyTo(codec, cfg, f);
      && (r.None? <==> Refused(codec, cfg, f))
      && (r.Some? ==> Some(r.value) == codec.encode(HostClient.Reply(cfg, codec.decode(f.payload).value)))
  {}

  // Frames that are all answered, then anything: the replies in order, then what becomes of the rest.
  lemma {:induction false} ServeAll(codec: Codec, cfg: HostClient.Config, fs: seq<Frame>, tail: Bytes)
    requires Sized(fs) && forall i | 0 <= i < |fs| && fs[i].id == 0 :: !Refused(codec, cfg, fs[i])
    ensures var s, later := Serve(codec, cfg, EncodeAll(fs) + tail), Serve(codec, cfg, tail);
      && |s.replies| == |Raw(fs)| + |later.replies| && s.replies[|Raw(fs)|..] == later.replies
      && s.ending == later.ending
      && forall i | 0 <= i < |Raw(fs)| ::
           && codec.decode(Raw(fs)[i].payload).Some?
           && Some(s.replies[i]) == codec.encode(HostClient.Reply(cfg, codec.decode(Raw(fs)[i].payload).value))
  {
    hide Serve, ReplyTo, Encode, EncodeAll, Refused;
    if fs == [] {
      assert EncodeAll(fs) + tail == tail by { NoFrames(); }
    } else {
      hide Raw;
      RawStep(fs);
      EncodeAllStep(fs, tail);
      ServeOne(codec, cfg, fs[0], EncodeAll(fs[1..]) + tail);
      ServeAll(codec, cfg, fs[1..], tail);
      RefusedIs(codec, cfg, fs[0]);
      if fs[0].id == 0 { RefusedDecodes(codec, cfg, fs[0]); }
      assert forall i | 1 <= i < |Raw(fs)| :: fs[0].id == 0 ==> Raw(fs)[i] == Raw(fs[1..])[i - 1];
    }
  }

  lemma NoFrames()
    ensures EncodeAll([]) == []
  {}

  lemma RefusedDecodes(codec: Codec, cfg: HostClient.Config, f: Frame)
    requires !Refused(codec, cfg, f)
    ensures codec.decode(f.payload).Some?
  {}

  // The loop ends with an error at the first frame that is refused, and answers nothing behind it.
  lemma AbortsAt(codec: Codec, cfg: HostClient.Config, f: Frame, tail: Bytes)
    requires |f.payload| < TWO32 && f.id == 0 && Refused(codec, cfg, f)
    ensures Serve(codec, cfg, Encode(f) + tail) == Service([], Aborted)
  {
    ServeOne(codec, cfg, f, tail);
    RefusedIs(codec, cfg, f);
    hide Serve, ReplyTo, Refused, Encode;
  }

  // At a frame that is cut it ends without an error if the header is cut, with one otherwise.
  lemma EndsAtCut(codec: Codec, cfg: HostClient.Config, f: Frame, n: nat)
    requires |f.payload| < TWO32 && n < |Encode(f)|
    ensures Serve(codec, cfg, Encode(f)[..n]) == Service([], if n < 12 then HostExited else Aborted)
  {
    if n >= 12 {
      var w := Encode(f)[..n];
      assert w == Header(|f.payload|, f.id, f.flags) + f.payload[..n - 12];
      ParseHeader(|f.payload|, f.id, f.flags, f.payload[..n - 12]);
    }
  }

  // For any request frames, with any frames of streams among them, the host gets one reply to each, in
  // order, under the request's ID.
  lemma OneReplyEach(codec: Codec, host: HostCodec, cfg: HostClient.Config, reqs: seq<IPCReqMessage>, fs: seq<Frame>)
    requires Sized(fs) && Raw(fs) == RequestFrames(host, reqs)
    requires forall i | 0 <= i < |reqs| :: Lawful(codec, host, cfg, reqs[i])
    ensures var s := Serve(codec, cfg, EncodeAll(fs));
      && s.ending == HostExited
      && ParseAll(WriteReplies(s.replies)) == Reading(ReplyFrames(s.replies), AtBoundary)
      && |s.replies| == |reqs|
      && forall i | 0 <= i < |reqs| ::
           host.decode(s.replies[i])
           == Some(IPCRespMessage(reqs[i].id, reqs[i].command, ResponsePayload(200,
                TaskResult(cfg.messagePrefix + reqs[i].payload.taskName,
                           ExtraResult(cfg.nodeID, [0x53, 0x55, 0x43, 0x43, 0x45, 0x53, 0x53])))))
  {
    hide Serve, Lawful, ParseAll, WriteReplies, EncodeAll;
    StreamFramesIgnored(codec, cfg, fs, []);
    assert EncodeAll(fs) + [] == EncodeAll(fs) && EncodeAll(Raw(fs)) + [] == EncodeAll(Raw(fs));
    AnswersAll(codec, host, cfg, reqs);
    RepliesParse(Serve(codec, cfg, EncodeAll(fs)).replies);
  }
}
