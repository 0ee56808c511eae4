# A verified model of the plugo connection

plugo connects a host process and its plugins over one byte channel. Both ends negotiate a codec, then
exchange frames with a 12-byte header; a frame belongs to a stream, or, under ID 0, carries a raw
message. This project models that connection and proves what its users rely on.

- `Bytes`, `Frames`, `Transport`: the header format, readers over arbitrary fragmentation, writers that
  fill a buffer in place, and the lock that keeps frames whole. `Wire` shows that the frames two endpoints
  exchange in the model are the bytes of such a channel.
- `Mux`: one endpoint as a step system. A step is a critical section, a channel operation or a write; the
  read loop has a program counter, so the places where it drops its lock are states in which other
  goroutines step. A `select` with several ready cases is several enabled steps.
- `Line`: the same, seen from one stream ID and both ends. `Network` shows that every step of two endpoints
  is, for each ID, a step of its line or no step; `Runs` lifts the invariant of a line to every run.
- `Streams`, `Routes`, `ClosedStreams`, `Removed`, `Sweep`, `Failures`, `RawMessages`: what follows for IDs,
  delivery, the handlers of routes, ends of streams, removed IDs, the final sweep, streams closed or failed
  by the peer, and raw messages. `Progress`: what goroutines begin they end once, and what can stop them.
- `Calls`, `SingleMulti`, `MultiSingle`, `NetCalls`, `LoneCalls`: the two kinds of routed call. Caller and
  handler are automata over the steps of their stream; a call equals a direct call of the handler, on one
  line and between two whole endpoints, and it can complete exactly if its messages can be written.
- `Conn`: the connection as objects with maps, queues and counters; each method is proved to be the step
  of `Mux` of its name.
- `MsgPack`, `Formats`, `Schema`, `Documents`, `Messages`: the MessagePack formats, the encoder and decoder that all
  generated codecs have in common, what they make of any map, and the generated code of the seven message
  types as loops and appends.
- `HostCodec`, `HostClient`, `HostRuns`, `ZigPeer`, `Negotiate`: the messages of calls as payloads of frames,
  correlation of concurrent calls and what their runs keep, the plugin loop in Zig, and the handshake.

Where the model is freer than the program, it allows more: a queue may be read by any goroutine at any
time, `Recv` may be given up at any time, a write may fail at any time, and the read loop may fail between
any two frames. Properties of all runs therefore hold of the program's. A step in which the program panics
for the size of a payload is no step.

Facts of the code that the model keeps:

- An Error frame may be lost: the stream is cancelled before the frame is offered (conn.go:417-422).
- The end that `CloseWrite` announces is one frame, and `Send` does not look for an earlier `CloseWrite`.
- A stream can be registered after the final sweep (`Sweep.SweepIsFinal` says exactly when, and
  `Sweep.SweepMissesCaller` that it happens).
- A frame for a removed ID is answered even if it is itself an Error frame, so such frames can circulate
  for ever (`Removed.NeverQuiet`).
- `12+length` and `nextStreamID += 2` wrap at 32 bits. A payload of 2^32 bytes or more is sent without its
  last bytes and without an error, and one of the 12 lengths below each multiple of 2^32 panics. The
  theorems about streams, raw messages and routed calls say what then arrives, and exactly when it is what
  was sent; `HostCodec` and `HostClient` say when a request is read as another one.
- The raw queue delivers stream-0 frames with the Error flag as messages, while synchronous `ReadData`
  reports them (`RawMessages.QueuedRefinesSync` says exactly when the two agree).

## Model

| member | source | states |
|---|---|---|
| `Frames.ParseEncode` | conn.go:287-306 | reading one encoded frame gives that frame back and leaves exactly the bytes behind it |
| `Frames.ParsesExactly` | conn.go:287-306 | and a reader takes a frame off a byte stream if and only if the stream begins with that frame, encoded; it ends between frames only if nothing is left, and inside a header only for 1 to 11 bytes |
| `Frames.Layout` | conn.go:149-156 | the encoding is the length, the stream ID and the flags, each in four big-endian bytes, and the payload |
| `Frames.FlagsAreBits` | conn.go:412-416 | each flag is read off one bit of the word, whatever the other bits are |
| `Frames.PayloadBound` | conn.go:149-156 | a frame survives the 32-bit size arithmetic of its writer if and only if its payload has at most 2^32-13 bytes |
| `Frames.ParseAllEncodeAll` | conn.go:287-306 | a reader of any encoded frames followed by anything parses exactly those frames, then goes on with what follows |
| `Frames.Truncation` | conn.go:287-306 | wherever the byte stream is cut, the reader gets the complete frames and then stops, between frames only if the cut is there |
| `Transport.Link.ReadFull` | conn.go:288-301 | under any fragmentation the whole buffer is filled and nothing more is consumed, or the stream ended inside or before it |
| `Transport.Link.ReadFrame` | conn.go:287-306 | the two reads of the loop take exactly one frame off the stream, with the error cases of the parser |
| `Transport.Link.ReadData` | conn.go:208-241 | a synchronous `ReadData`: a stream frame is read whole, discarded and reported with its ID, an Error frame read whole and reported with its message, any other gives its payload; with each exactly the frame is gone |
| `RawMessages.SyncFrames` | conn.go:208-241 | successive synchronous reads, continued past errors, report the frames one by one, each as its ID, its message or its payload, and leave exactly the frames behind |
| `RawMessages.SyncCut` | conn.go:208-223 | a frame cut in its header is an error of the channel; one cut in its payload is reported as a stream frame if it is one, and as an error of the channel otherwise; nothing is left |
| `Transport.Link.ReadAll` | conn.go:287-306 | the frames read one after the other, under any fragmentation, are the frames of the byte stream, and so is the way it ends |
| `Transport.FillFrame` | conn.go:149-156 | the buffer filled in place is the encoded frame, with the wrap-around of `12+length`, the panic on a short buffer and the stopped copy |
| `Transport.WritersKeepFrames` | conn.go:129-168 | for any interleaving of concurrent writers, any pieces and any failed writes, with later writers going on behind them: the wire parses as exactly the frames written whole, in lock order, if and only if no frame is torn; each frame that arrived is in that order, waits or has left, once |
| `Transport.TornByFailure` | conn.go:158-167 | the lock keeps frames whole: at any time there are no more frames cut short than failed writes and the one under way, and without a failed write none is torn |
| `Transport.FramesBeforeTear` | conn.go:129-168 | in front of the first torn frame nothing is lost, whatever comes behind: every prefix of the wire up to and into it parses as a beginning of the frames, stopping at a boundary exactly when it ends at one |
| `Wire.LogIsWire` | conn.go:149-168 | the writes of an endpoint, in any run of two endpoints, are a run of its byte channel that puts exactly the encoded log on the wire, and any prefix of those bytes parses as a beginning of the log |
| `Wire.WrittenWhole` | conn.go:130-156 | the frames on the wire are those handed to the writer, each cut to its length modulo 2^32, and they are unchanged if and only if every payload has at most 2^32-13 bytes |
| `Wire.DeliveredAsWritten` | stream.go:46-61 | what a stream delivers and queues is a subsequence of the frames its peer handed to the writer as the wire carries them, and those are the frames themselves if and only if all fit |
| `RawMessages.RawDelivery` | conn.go:308-315 | in every run of an endpoint against any peer: returned, queued and in the loop's hand are exactly the payloads of the stream-0 frames read |
| `RawMessages.QueuedReads` | conn.go:185-206 | reads through the queue return a prefix of the stream-0 payloads on the wire, and all of them before an error |
| `RawMessages.LeadingIsRaw` | conn.go:208-241 | what synchronous reading returns is a prefix of the stream-0 payloads, the whole of it if and only if no stream-0 frame is or follows a refused frame |
| `RawMessages.QueuedRefinesSync` | conn.go:185-242 | queued reading returns what synchronous reading returns, in every interleaving of loop and reader; at the error the two agree if and only if no stream-0 frame is or follows a refused one |
| `RawMessages.RawEndToEnd` | conn.go:126-147 | between two endpoints, raw messages taken, queued or in hand on one side are a prefix of those written on the other, as far as frames carry them; those are the messages themselves if and only if each has at most 2^32-13 bytes |
| `RawMessages.RawCanArrive` | conn.go:126-147 | raw messages have a run of two new endpoints in which the other side takes them all, as far as frames carry them, if and only if each can be written |
| `Mux.StepKeeps` | conn.go:281-455 | every critical section, channel operation and write, in any order, keeps the invariant of tables, queues, channels and goroutines |
| `Mux.WritesOnTheWire` | stream.go:45-148 | each write puts one frame with its own ID, flag bit and payload on the wire if it succeeds, and nothing otherwise; no other step does |
| `Mux.RecvTells` | stream.go:64-122 | in any state, by the flags of the frame taken: `Recv` returns the end if and only if it is a Close or CloseWrite frame, the error with its text if and only if it is an Error frame and neither of those, otherwise its payload; and which frames cancel the stream, unless it is being drained |
| `Mux.ChannelDiscipline` | conn.go:281-455 | in every run of an endpoint, even past the wrap-around of IDs: no channel is closed twice or sent to after closing, every listed stream is open and listed under its own ID only, queues stay within their capacity, and channels close in order |
| `Progress.Balance` | stream.go:45-148 | in every run: what goroutines have still to do is what they began without what they did, so each `Send` that found its stream open writes once, each `Close` writes once and then removes once, and each waiting `Recv` ends once |
| `Progress.Proceeds` | stream.go:45-148 | what is left to do can be done in every reachable state: a `Close` goes on whatever its write reports, a removal waits only for the lock, a waiting `Recv` returns if and only if there is a frame, the end of the channel or a cancelled context |
| `Progress.LoopStandsExactly` | conn.go:281-448 | in every reachable state the read loop can go on if and only if it has not ended and does not have to put something into a full queue; it never stands at the queue of a cancelled stream |
| `Sweep.SweepIsFinal` | conn.go:438-448 | after the sweep the table stays empty whatever happens if and only if no `startStream` is between its two critical sections |
| `Sweep.LateStream` | conn_routing.go:33-53 | a stream of any mode and route registered after the sweep is open and not cancelled, and its channel is never closed |
| `Sweep.SweepMissesCaller` | conn.go:438-448 | such a state is reached: a run of a new endpoint ends with the read loop stopped, the table empty and an ID handed out whose stream is still to be registered |
| `Network.StepFollows` | conn.go:317-435 | a step of an endpoint is, for the stream it is about, the step of that stream's line, and no step for any other |
| `Line.PortStepKeeps` | stream.go:46-148 | one stream: every step keeps positions, losslessness and order of what is offered, accepted and taken |
| `Line.InitiatorStep` | conn_routing.go:45-65 | every step of the side that opened a stream keeps the invariant of both sides and both wires |
| `Line.AcceptorStep` | conn.go:317-435 | every step of the other side keeps it too |
| `Runs.RunOk` | conn.go:281-455 | every state two endpoints can reach, in any interleaving and with any failures, satisfies the invariant of every stream |
| `Streams.DistinctIds` | conn.go:43-46 | IDs are nonzero and distinct for exactly 2^31 calls on the host and 2^31-1 on the plugin |
| `Streams.DisjointIds` | conn_routing.go:32-40 | IDs of the two ends never meet, wrapped or not |
| `Streams.NoCollision` | conn_routing.go:39-53 | no insertion replaces an entry or reuses an ID of an earlier stream at either end, and no Start frame reaches an existing stream |
| `Streams.NotFoundIsRemoved` | conn.go:395-404 | "stream not found" is answered only for an ID this endpoint has held and no longer lists |
| `Failures.ListedIsSound` | conn.go:406-433 | in every run of an endpoint, even past the wrap-around of IDs: a stream for which a Close or an Error frame was read is not in the table, unless the loop is about to take it out |
| `Streams.StartFirst` | conn_routing.go:45-65 | in every reachable state the frames of a stream begin with its one Start frame, from the end whose ID it is; the other end writes on it only after reading that frame |
| `Streams.RouteArrives` | conn.go:320-383 | the mode and route under which a stream looks for its handler are those its `startStream` registered, as far as the Start frame carries them, and exactly those for less than 2^32 bytes |
| `Routes.RoutedToLast` | conn.go:337-393 | over every run of an endpoint: the stream is given to the handler registered last for exactly its mode and route; if none was, or the mode is above 2, it goes to `acceptCh` |
| `Routes.HandlerIsLast` | conn_routing.go:9-28 | the handler found is a given one if and only if the mode is at most 2 and that one was registered last for this mode and route, whatever was registered for others |
| `Streams.Delivery` | conn.go:406-433 | what is received and queued is a subsequence of what the peer put on the wire under the same ID; until cancellation, received, queued (at most 100) and the frame in the loop's hand are exactly what was read; what `Recv` returned, but for ends, is in order the payloads of the frames it took, or the errors of the Error frames, by their flags, however the stream ended |
| `Streams.ReceivedIsSent` | stream.go:64-122 | each payload that `Recv` returned is that of a frame of the peer with the ID of the stream and none of the flags Error, Close and CloseWrite; each error has the text of an Error frame of the peer |
| `Streams.GracefulEnd` | stream.go:64-122 | a stream that ends only by a Close frame or the sweep returns every payload in order, each CloseWrite as one end in its place, and further ends only after the last frame; it was offered all that was read before the Close frame, or, if the sweep ended it, all that was read |
| `ClosedStreams.ClosedForEver` | stream.go:64-122 | whatever two endpoints do after the channel of a stream is closed: it stays closed, `Recv` returns what was queued, in order, then the end and only the end, no call of `Recv` begins to wait, and each call, also one that waited before, can return |
| `Removed.DeadLine` | conn.go:395-404 | on an ID removed at both ends each reply is one Error frame with that ID, and every step keeps the number of frames except for writes of the application |
| `Removed.Conservation` | conn.go:395-404 | over any run in which replies are written, frames circulating on a removed ID are those at the start plus those the application wrote |
| `Removed.NeverQuiet` | stream.go:124-134 | two endpoints can reach a state with one frame circulating on a removed ID, and then one always will |
| `SingleMulti.EqualsDirectCall` | conn_routing.go:69-101 | in every interleaving without cancellation or failure the response channel yields a prefix of the handler's sends as far as frames carry them, and all of them before it is closed; for a request of at most 2^32-13 bytes that equals a direct call if and only if every response has at most as many, and a longer request is not the one the handler sees |
| `SingleMulti.NeverRefused` | conn.go:340-353 | no `Send` of caller or handler is refused and no `Recv` of the handler fails |
| `SingleMulti.CallerCloses` | conn_routing.go:86-87 | from every state reached in which the response channel is closed, the deferred Close can run to its end: one Close frame, the stream out of the table, nothing else touched |
| `SingleMulti.HandlerCloses` | conn.go:343-352 | the same for the handler when it has sent everything |
| `SingleMulti.CanComplete` | conn_routing.go:69-101 | there is a run in which the response channel is closed if and only if the request and all responses the handler sends can be written |
| `MultiSingle.EqualsDirectCall` | conn_routing.go:104-135 | the handler sees the requests in order, unchanged if and only if each has at most 2^32-13 bytes, and the caller gets its result, or nil without error if it failed; then that equals a direct call if and only if the answer fits too |
| `MultiSingle.NeverRefused` | conn.go:354-376 | no `Send` of either end is refused, and the caller's `Recv` reports no error |
| `MultiSingle.CallerCloses` | conn_routing.go:129-134 | from every state reached in which the caller has its result, the deferred Close can run to its end: one Close frame, the stream out of the table, nothing else touched |
| `MultiSingle.HandlerCloses` | conn.go:357-375 | the same for the handler when it has answered or failed |
| `MultiSingle.CanComplete` | conn_routing.go:104-135 | there is a run in which the caller gets a result if and only if all requests, and the answer if the handler gives one, can be written |
| `NetCalls.SingleMultiEqualsDirectCall` | conn_routing.go:69-101 | the same between two whole endpoints that do anything else meanwhile; and the handler is the one that the acceptor registered last, before the lookup, for the mode and route of the call as the Start frame carries them, whatever it registered for other routes and modes |
| `NetCalls.MultiSingleEqualsDirectCall` | conn_routing.go:104-135 | the same between two whole endpoints that do anything else meanwhile; and the handler is the one that the acceptor registered last, before the lookup, for the mode and route of the call as the Start frame carries them, whatever it registered for other routes and modes |
| `LoneCalls.SingleMultiCanComplete` | conn_routing.go:69-101 | two new endpoints have a run in which the first call of the host, to any route that fits into a frame, gets all its responses and its channel closed if and only if the request and all responses can be written |
| `LoneCalls.MultiSingleCanComplete` | conn_routing.go:104-135 | two new endpoints have a run in which such a call gets its result if and only if all requests, and the answer if there is one, can be written |
| `Conn.MessageConn.constructor` | conn.go:42-59 | a new connection is the initial endpoint of its side |
| `Conn.MessageConn.NextID` | conn_routing.go:33-41 | the first critical section of `startStream` is the step `Claim`: refused after a read error, otherwise the counter and its wrap-around |
| `Conn.MessageConn.Register` | conn_routing.go:42-53 | the second critical section inserts a new stream under the ID, with an empty queue; it is the step `Register` |
| `Conn.MessageConn.WriteStart` | conn_routing.go:55-65 | the Start frame that is handed to the writer, and what follows from its success or failure |
| `Conn.MessageConn.DropStart` | conn_routing.go:61-64 | after a failed write the stream leaves the table |
| `Conn.MessageConn.Dispatch` | conn.go:317-434 | the critical section of the loop for a stream frame is the dispatch step on the whole connection, and tells what is left to do unlocked |
| `Conn.MessageConn.Deliver` | conn.go:418-430 | the send on `recvCh` is the step `Deliver`, not ready exactly when the queue is full |
| `Conn.MessageConn.RouteStream` | conn.go:337-385 | the handler registered under exactly the mode and route of the stream is started, if there is one and the mode is at most 2; otherwise the stream is left to be queued |
| `Conn.MessageConn.QueueStream` | conn.go:387-393 | the send on `acceptCh` is the step `QueueStream`, not ready exactly when the queue is full |
| `Conn.MessageConn.Handle` | conn_routing.go:9-28 | registering sets the one entry of this mode and route and keeps all others |
| `Conn.MessageConn.Accept` | conn.go:251-268 | `AcceptStream` takes the oldest stream, as the step `TakeAccepted`; it fails exactly when the channel is closed and empty, with the read loop's error if there is one, and otherwise waits |
| `Conn.MessageConn.PushRaw` | conn.go:308-315 | the send on `rawMsgCh` is the step `PushRaw` |
| `Conn.MessageConn.TakeRaw` | conn.go:190-206 | `ReadData` beside the loop is the step `TakeRaw` and returns the oldest message; it fails exactly when the queue is closed and empty, with the read loop's error if there is one, and otherwise waits |
| `Conn.MessageConn.Discard` | conn.go:418-430 | the other case of the select on `recvCh`: ready exactly when the stream is cancelled; the frame is dropped |
| `Conn.MessageConn.AfterFrame` | conn.go:416-431 | after an Error frame the stream leaves the table, after another it stays |
| `Conn.MessageConn.WriteNotFound` | conn.go:395-404 | the answer to a frame of no stream |
| `Conn.MessageConn.Send` | stream.go:46-53 | `Send` goes on exactly if the stream is not cancelled |
| `Conn.MessageConn.WriteData` | stream.go:55-60 | then it hands one Data frame with its payload to the writer |
| `Conn.MessageConn.WriteEnd` | stream.go:126-134 | `CloseWrite` hands one CloseWrite frame to the writer and changes nothing |
| `Conn.MessageConn.Poll` | stream.go:67-84 | the first select of `Recv`, by the flags of the frame at the head of the queue; without one it returns exactly if the channel is closed |
| `Conn.MessageConn.Block` | stream.go:83-86 | its default case: exactly if there is neither a frame nor the end |
| `Conn.MessageConn.Wake` | stream.go:106-120 | the second select takes a frame as the first does |
| `Conn.MessageConn.GiveUp` | stream.go:86-87 | or the cancelled context, exactly if the stream is cancelled |
| `Conn.MessageConn.DrainStream` | stream.go:87-103 | after which what is left is returned without cancelling, else the end |
| `Conn.Stream.Receive` | stream.go:106-120 | receiving from `recvCh`, by the flags: a Close or CloseWrite frame is the end, an Error frame without those is its error, any other its payload; which of them cancel the stream |
| `Conn.Stream.Drain` | stream.go:87-103 | the same without cancelling, and the end if there is nothing |
| `Conn.MessageConn.BeginClose` | stream.go:137-142 | `Close` begins by cancelling the stream |
| `Conn.MessageConn.WriteClose` | stream.go:139-145 | it hands one Close frame to the writer and goes on whatever the writer reports |
| `Conn.MessageConn.EndClose` | stream.go:146 | it ends by taking the stream out of the table |
| `Conn.MessageConn.RemoveStream` | conn.go:451-455 | removes the entry of the ID and nothing else |
| `Conn.MessageConn.HandleReadLoopError` | conn.go:438-448 | in any order of the map, exactly the listed streams are cancelled and closed and the table emptied |
| `Conn.SweptIsRun` | conn.go:438-448 | that big step is a run of the single steps of the sweep |
| `Conn.MessageConn.Close` | conn.go:62-71 | cancels exactly the listed streams if the loop was started, none otherwise, and closes the channel underneath |
| `Conn.CancelAllRuns` | conn.go:62-71 | that too is a run of single cancellations |
| `Formats.IntExactly` | examples/shared/message_gen.go:575-576 | a number is read from bytes if and only if they begin with it in one of the formats that can hold it, signed or unsigned, of any width, and exactly the rest is left |
| `Formats.StrExactly` | examples/shared/message_gen.go:81-84 | a string is read if and only if the bytes begin with it in one of the four str formats that can hold it |
| `Formats.MapExactly` | examples/shared/message_gen.go:241-247 | a map header is read if and only if the bytes begin with its count in one of the three map formats |
| `Formats.SkipExactly` | examples/shared/message_gen.go:118-122 | skipping succeeds if and only if the bytes begin with one object, of any type and format and with any nesting, and leaves exactly the rest |
| `MsgPack.StrRoundTrip` | examples/shared/message_gen.go:81-84 | a string under 2^32 bytes is read back in its format, with the bytes behind it left |
| `MsgPack.IntRoundTrip` | examples/shared/message_gen.go:575-576 | every 64-bit integer is read back |
| `MsgPack.SkipLocal` | examples/shared/message_gen.go:118-122 | skipping looks only at the objects it skips |
| `Schema.RoundTrip` | examples/shared/message_gen.go:221-292 | for every message type: decoding an encoding over any old value, with any bytes behind it, gives the value and exactly those bytes |
| `Schema.RoundTripExactly` | examples/shared/message_gen.go:221-292 | and it does so if and only if every string has fewer than 2^32 bytes |
| `Schema.FrameExactly` | conn.go:149-156 | for every message type: a value whose encoding can be written is read back from the frame if and only if the encoding has at most 2^32-13 bytes; from a cut one another value is read, or an error |
| `Schema.DecodeLocal` | examples/shared/message_gen.go:221-292 | a decoder that succeeds looks only at the bytes it takes: with any others behind them it gives the same value and leaves those |
| `Schema.EncodeFits` | examples/shared/message_gen.go:289-292 | an encoding is never longer than the size bound |
| `Schema.SkipEncoded` | examples/shared/message_gen_test.go:12-33 | an encoded message is one object: skipping it leaves exactly what follows |
| `Documents.DecodeIsMeaning` | examples/shared/message_gen.go:583-651 | a decoder reads any map, in any order, with unknown keys and with its header, keys, strings and numbers in any format, as its pairs applied in order, and leaves exactly what follows; a scalar is the value that was written |
| `Documents.DecodesExactly` | examples/shared/message_gen.go:583-651 | and it accepts nothing else: a decoder gives a value and a rest if and only if the bytes begin with a document that fits the type and means that value |
| `Documents.FieldByField` | examples/shared/message_gen.go:583-651 | each field of the result depends only on the values under its own key, in their order |
| `Documents.OrderIndependent` | examples/shared/message_gen.go:842-939 | documents that have the same values under each known key at every level decode to the same struct |
| `Documents.Rearranged` | examples/shared/message_gen.go:842-939 | permuting distinct known pairs, inserting or deleting unknown ones and writing header and keys in other formats changes nothing |
| `Documents.AbsentAndRepeated` | examples/shared/message_gen.go:583-651 | an absent key keeps the old value, and of a repeated scalar the value written last counts |
| `Messages.UnmarshalTaskInfo` | examples/shared/message_gen.go:1028-1067 | on every byte string the loop accepts what the compositional decoder accepts and gives the same value and leftover bytes |
| `Messages.TaskInfoEncoded` | examples/shared/message.go:10-13 | the encoding, byte by byte: each field under the key of its struct tag, in the order of the struct; and its size bound |
| `Messages.MarshalTaskInfo` | examples/shared/message_gen.go:1015-1025 | the fixed byte strings and appended values are the encoding of the type |
| `Messages.TaskInfoRoundTrip` | examples/shared/message_gen.go:1070-1073 | the value survives if and only if its strings are short, and its encoding is at most `Msgsize` long |
| `Messages.UnmarshalExtraResult` | examples/shared/message_gen.go:90-129 | on every byte string the loop accepts what the compositional decoder accepts and gives the same value and leftover bytes |
| `Messages.ExtraResultEncoded` | examples/shared/message.go:25-28 | the encoding, byte by byte: each field under the key of its struct tag, in the order of the struct; and its size bound |
| `Messages.MarshalExtraResult` | examples/shared/message_gen.go:77-87 | the fixed byte strings and appended values are the encoding of the type |
| `Messages.ExtraResultRoundTrip` | examples/shared/message_gen.go:132-135 | the value survives if and only if its strings are short, and its encoding is at most `Msgsize` long |
| `Messages.UnmarshalTaskResult` | examples/shared/message_gen.go:1207-1275 | on every byte string the loop (one loop inlined) accepts what the compositional decoder accepts and gives the same value and leftover bytes |
| `Messages.TaskResultEncoded` | examples/shared/message.go:20-23 | the encoding, byte by byte: each field under the key of its struct tag, in the order of the struct; and its size bound |
| `Messages.MarshalTaskResult` | examples/shared/message_gen.go:1188-1204 | the fixed byte strings and appended values are the encoding of the type |
| `Messages.TaskResultRoundTrip` | examples/shared/message_gen.go:1278-1281 | the value survives if and only if its strings are short, and its encoding is at most `Msgsize` long |
| `Messages.UnmarshalRequestPayload` | examples/shared/message_gen.go:583-651 | on every byte string the loop (one loop inlined) accepts what the compositional decoder accepts and gives the same value and leftover bytes |
| `Messages.RequestPayloadEncoded` | examples/shared/message.go:5-8 | the encoding, byte by byte: each field under the key of its struct tag, in the order of the struct; and its size bound |
| `Messages.MarshalRequestPayload` | examples/shared/message_gen.go:564-580 | the fixed byte strings and appended values are the encoding of the type |
| `Messages.RequestPayloadRoundTrip` | examples/shared/message_gen.go:654-657 | the value survives if and only if its strings are short, and its encoding is at most `Msgsize` long |
| `Messages.UnmarshalResponsePayload` | examples/shared/message_gen.go:842-939 | on every byte string the loop (two loops inlined) accepts what the compositional decoder accepts and gives the same value and leftover bytes |
| `Messages.ResponsePayloadEncoded` | examples/shared/message.go:15-18 | the encoding, byte by byte: each field under the key of its struct tag, in the order of the struct; and its size bound |
| `Messages.MarshalResponsePayload` | examples/shared/message_gen.go:817-839 | the fixed byte strings and appended values are the encoding of the type |
| `Messages.ResponsePayloadRoundTrip` | examples/shared/message_gen.go:942-945 | the value survives if and only if its strings are short, and its encoding is at most `Msgsize` long |
| `Messages.UnmarshalIPCReqMessage` | examples/shared/message_gen.go:241-286 | on every byte string the loop accepts what the compositional decoder accepts and gives the same value and leftover bytes |
| `Messages.IPCReqMessageEncoded` | examples/shared/message.go:31-35 | the encoding, byte by byte: each field under the key of its struct tag, in the order of the struct; and its size bound |
| `Messages.MarshalIPCReqMessage` | examples/shared/message_gen.go:221-238 | the fixed byte strings and appended values are the encoding of the type |
| `Messages.IPCReqMessageRoundTrip` | examples/shared/message_gen.go:289-292 | the value survives if and only if its strings are short, and its encoding is at most `Msgsize` long |
| `Messages.UnmarshalIPCRespMessage` | examples/shared/message_gen.go:398-443 | on every byte string the loop accepts what the compositional decoder accepts and gives the same value and leftover bytes |
| `Messages.IPCRespMessageEncoded` | examples/shared/message.go:38-42 | the encoding, byte by byte: each field under the key of its struct tag, in the order of the struct; and its size bound |
| `Messages.MarshalIPCRespMessage` | examples/shared/message_gen.go:378-395 | the fixed byte strings and appended values are the encoding of the type |
| `Messages.IPCRespMessageRoundTrip` | examples/shared/message_gen.go:446-449 | the value survives if and only if its strings are short, and its encoding is at most `Msgsize` long |
| `Messages.TransmitIPCReqMessage` | examples/shared/message_gen_test.go:125-146 | marshalling and unmarshalling over any old message, with any bytes behind, gives the message and those bytes |
| `Messages.TransmitIPCRespMessage` | examples/shared/message_gen_test.go:238-259 | marshalling and unmarshalling over any old message, with any bytes behind, gives the message and those bytes |
| `HostClient.DistinctIds` | examples/host_go/main.go:82 | call IDs are distinct for exactly 2^32 calls |
| `HostClient.Correlation` | examples/host_go/main.go:50-108 | for all interleavings of up to 2^32 calls, the reader and a peer that answers in any order, late or never, over any codec: if no request that was written, and no answer to one, is read as another message, a call that returns a result returns the answer to its own request |
| `HostClient.FittingCorrelation` | examples/host_go/main.go:50-108 | with MessagePack that is so for all runs in which each request that was written, and each answer to one if it can be written, has an encoding of at most 2^32-13 bytes |
| `HostClient.AnotherAnswer` | examples/host_go/main.go:81-100 | for a longer command the statement fails: a run in which the one call ever made returns the answer to a request that was never made |
| `HostClient.Miscorrelation` | examples/host_go/main.go:70-106 | the bound of 2^32 calls is exact: with one call more, the last can return the answer to the first |
| `HostClient.StopsAtGarbage` | examples/host_go/main.go:50-68 | over every run: the reader has stopped if and only if it has taken a payload off the wire that cannot be unmarshalled, and so has the peer |
| `HostClient.NewCallReturns` | examples/host_go/main.go:50-108 | from every reachable state, whatever calls were given up and whatever answers are late, a new call can be made and returns the answer to its own request, if the messages so far are read as themselves |
| `HostClient.CallEnds` | examples/host_go/main.go:81-108 | from every state each call can end by steps of its own: with its result, given up or with a failed write; its entry is then deleted and no other touched |
| `HostClient.RunLive` | examples/host_go/main.go:85-86 | in every run, even past the wrap-around of IDs, an entry of the table is that of a call with this ID whose own entry is made and not yet deleted |
| `HostRuns.WiresAreQueues` | examples/host_go/main.go:50-108 | over every run: what is on either wire is what was put on it, in order, without as much of its beginning as was read |
| `HostRuns.AnsweredOnce` | examples/plugin_go/runner.go:86-118 | the requests that were read and understood are those answered or dropped, each once, and those the peer still has |
| `HostRuns.EndsAsTold` | examples/host_go/main.go:81-108 | how a call ended is told by its own steps: it waited only after its request was written, has a result if and only if it received, failed if and only if its write did, timed out if and only if it gave up, and is over if and only if its entry was deleted |
| `HostClient.MessageNamesTask` | examples/plugin_go/runner.go:86-118 | with the plugin's loop and messages of at most 2^32-13 bytes, the message returned is the prefix and the name of the requested task |
| `HostClient.MessageNamesAnother` | examples/plugin_go/runner.go:86-118 | for a longer command it can name another task |
| `HostCodec.RequestExactly` | conn.go:118-156 | a request that its writer sends is read back as itself if and only if its encoding has at most 2^32-13 bytes |
| `HostCodec.ResponseExactly` | conn.go:118-156 | the same for a response |
| `HostCodec.ReadAsAnother` | conn.go:118-156 | for any two payloads of equal encoded size and any command, which together fit into a frame: a request with the first payload, whose command is the given one, a payload key, the second payload and padding to 2^32 bytes more, is sent without an error and read as the request with the given command and the second payload |
| `HostCodec.RequestReads` | generic.go:9-13 | a payload is read as a request if and only if it begins with a document that says it: fields that it does not name are zero or empty, and bytes behind the document are ignored |
| `HostCodec.ResponseReads` | generic.go:9-13 | the same for a response |
| `HostCodec.ReadRequest` | generic.go:9-13 | reading into a zero value with the generated code is the decoder; bytes behind the message are ignored |
| `HostCodec.ReadResponse` | generic.go:9-13 | the same for a response |
| `HostClient.IpcClient.NextID` | examples/host_go/main.go:82-84 | the counter goes up by one and wraps, and a call with an empty channel is new: the step `Begin` |
| `HostClient.IpcClient.Store` | examples/host_go/main.go:85 | the entry of the ID is set and all others kept: the step `Store` |
| `HostClient.IpcClient.Delete` | examples/host_go/main.go:86 | the entry of the ID goes and all others stay: the step `Delete` |
| `HostClient.IpcClient.Receive` | examples/host_go/main.go:98-100 | the ready case of the select is the step `Receive`, and returns what was in the channel |
| `HostClient.IpcClient.Load` | examples/host_go/main.go:70 | an ID in the table gives its channel; for any other the reader is ready again, with calls and table unchanged |
| `HostClient.IpcClient.Send` | examples/host_go/main.go:72-75 | the send with a default case is the step `Offer` |
| `ZigPeer.ReadExact` | examples/plugin_zig/plugz.zig:50-65 | under any chunking exactly the buffer is read, or the end of the stream is reported and nothing is left |
| `ZigPeer.WriteAll` | examples/plugin_zig/plugz.zig:67-82 | under any chunking exactly the buffer is written, or a proper part of it and an error |
| `ZigPeer.RunLoop` | examples/plugin_zig/plugz.zig:129-189 | the loop writes exactly the replies that `Serve` gives for its input and ends as `Serve` says, unless a write fails; then it wrote a beginning of them |
| `ZigPeer.StreamFramesIgnored` | examples/plugin_zig/plugz.zig:144-150 | deleting all frames of streams from the input changes nothing in the output |
| `ZigPeer.ServeAll` | examples/plugin_zig/plugz.zig:129-189 | frames that are not refused are answered one by one: the reply to each stream-0 frame is the encoded reply to what was decoded from it, and the loop goes on with what follows |
| `ZigPeer.AbortsAt` | examples/plugin_zig/plugz.zig:155-159 | at a stream-0 frame with the Error flag, one that cannot be decoded, or one whose reply cannot be encoded or measured, the loop ends with an error and no further reply |
| `ZigPeer.EndsAtCut` | examples/plugin_zig/plugz.zig:134-153 | at a cut inside a header it ends cleanly, at a cut inside a payload with an error |
| `ZigPeer.OneReplyEach` | examples/plugin_zig/plugz.zig:152-188 | with a lawful codec the output parses as one reply per request, in order, each with the ID and the command of its request, code 200 and the prefixed task name |
| `Negotiate.SelectCodec` | negotiate.go:190-198 | the loop selects the first codec of the plugin's list whose name the host offers, and none only if there is none |
| `Negotiate.TakesExactly` | negotiate.go:168-182 | a prefixed message is taken off if and only if the bytes begin with its nonzero length and the text, and exactly the rest is left |
| `Negotiate.MessageExactly` | negotiate.go:103-108 | what is sent for a text: its length modulo 2^32 and as much of it, or nothing if that length is above 2^32-5 |
| `Negotiate.PrefixRoundTrip` | negotiate.go:104-107 | a length-prefixed message is taken off the channel to the byte |
| `Negotiate.NegotiateFromPlugin` | negotiate.go:157-226 | what the plugin reads, selects, writes and leaves on the channel, with every error case, also a failed marshalling and a write that breaks off |
| `Negotiate.NegotiateFromHost` | negotiate.go:84-152 | what the host writes, reads, looks up and leaves on the channel, with every error case, also a failed marshalling and a write that breaks off |
| `Negotiate.PluginExactly` | negotiate.go:157-226 | the plugin finishes with a codec if and only if the names could be read, it is the first of its own list among them, and its name was written; that is what it wrote |
| `Negotiate.HostExactly` | negotiate.go:84-152 | the host finishes with a codec if and only if its names were written, an answer could be read, and it is the last of its own list with the name answered |
| `Negotiate.PluginBreaksOff` | negotiate.go:204-221 | if the write of the answer breaks off, just the beginning of it that was taken is on the channel and the plugin fails; in every earlier error case nothing is |
| `Negotiate.HostBreaksOff` | negotiate.go:97-114 | the same for the request of the host |
| `Negotiate.Agreement` | negotiate.go:84-226 | when both messages are written, both ends finish with the same name, the first of the plugin's list that the host offers; they fail if and only if they share none; each then finds exactly the bytes the other wrote after its message |
| `Negotiate.HostOrder` | negotiate.go:189-198 | the outcome at the plugin does not depend on the order of the host's list |
| `Negotiate.Handover` | negotiate.go:149-151 | the bytes after the handshake parse as the frames written, none lost or read twice, also when the plugin writes before the host has read the answer |

## Left out

- Process launch, descriptors, pipes and handles (plugin.go, plugin_unix.go, plugin_windows.go, client.go): operating-system plumbing.
- Deadlines, timeouts and contexts: cancellation is a step that may happen at any time. In `Network` and `HostClient` a write that fails puts nothing on the wire; for one that was cut short inside its frame, `Transport.WritersKeepFrames` and `Transport.FramesBeforeTear` say what a reader of the channel then still gets.
- The JSON and Gob codecs, the JSON text of the handshake and the Zig codecs: library code that is not part of this model. `Negotiate`, `ZigPeer` and `HostClient.Correlation` take a codec with a round trip for the values at hand.
- The msgp library is not part of this model: its primitives follow the int, str and map format families of the MessagePack specification, with some format that can hold the value when writing (which one is the choice of the library), any format when reading, and keys of the str family only. The streaming `DecodeMsg` and `EncodeMsg` have the loops of `UnmarshalMsg` and `MarshalMsg` over a buffered reader and writer.
- The value that a failed `UnmarshalMsg` leaves in its receiver: only that it fails is stated.
- `Messages.UnmarshalIPCReqMessage` and `Messages.UnmarshalIPCRespMessage` decode the nested payload into a copy and put it back, where the source passes the address of the field.
- generic.go, other than `ReadMessage`: typed wrappers over the byte-level calls.
- Fairness: a consumer that stops reading blocks the read loop by design, so safety and prefix forms are proved, exactly when a goroutine or the loop can go on (`Progress`), and that calls can complete and clean up (`SingleMulti`, `MultiSingle`, and in a network `LoneCalls`), but not that they must.
- A synchronous `ReadData` that is under way when the read loop starts: both would read the channel.
- The channel of ten requests between the receiving goroutine and a MultiSingle handler is unbounded in `MultiSingle`, which allows more interleavings; the response channel of `CallSingleMulti` is taken as read when it is written.
- Logging, the `main` functions beyond the client and the serving loop, the staged demo code and benchmarks.
