# Zepp OS messaging core, modelled in Dafny

This project models the messaging layer that the Zepp OS mini-program
framework uses between a watch app (the "device") and its companion side
service (the "side"). It covers two generations of that layer and the
common utilities next to them.

- **The split version** (`src/shared/message/`):
  - the frame codec (16-byte header) and the chunk codec (the 66-byte
    "HmProto" header) of `core.js`;
  - the counters, timestamp and data-type lookup of `util.js`;
  - reassembly of chunks into messages (`Session`) and the session table
    (`SessionManager`) of `session.js`;
  - the request correlator of `request.js`;
  - the `MessageBuilder` of `builder.js`: the shake handshake, the
    fragmenting sender, the dispatch of incoming frames, the transport's
    error and disconnect handlers, and the request / response / call entry
    points.
- **The single-file version** (`src/shared/message.js`): the same roles,
  with different rules. Its sessions need the chunks to arrive in order.
  Its request handlers can leak. Its shake timer and link-down listener act
  whatever the shake status is. It sends nothing for empty data.
- **The common utilities** (`src/core/common/`):
  - the query-string writer of `qs.js`;
  - the callback registry of `callback-set.js`;
  - the disposal helpers of `idisposable.js`;
  - the dispose-once base class of `disposable.js`.

Timers, promises and transport callbacks become explicit events. A promise
is represented by how it settled (`Settle`: pending, resolved with a value,
or rejected with an error). The clock is a parameter. The UTF-8 and JSON
conversions are a `Codec` of functions handed in. A transport is a sink that
records every frame handed to it, plus the answer of its optional connection
probe.

Where the model has a class, the source has an object whose fields change:
`MessageBuilder`, `Session`, `SessionManager`, `RequestHandler`,
`CallbackSet`, `Disposable`, the transport and the id counters. Each method
is proved against a value-level function: `ForkSpec`, `AddChunkSpec`,
`Complete`, `Receive`, `Answer`, `FailAll`, `Registered` and the like. The
lemmas about those functions carry the properties:

- encode/decode round trips in both directions;
- fragmentation loses and adds nothing;
- reassembly in any arrival order, or only in send order for the
  single-file version;
- every promise settles at most once;
- the shake invariant is preserved;
- callbacks run once each, in insertion order.

Some behaviours are modelled as the code has them and stated as lemmas,
not corrected. Each lemma is named beside its behaviour:

- The split `response` always announces data type EMPTY, so every split
  request resolves with `undefined` (`Builder.ResponseResolvesUndefined`).
- A split timeout rejects with `MessageErrorCode.REQUEST_TIMEOUT`, a name
  the error table (`error.js`) lacks, so the code is undefined
  (`Requests.Expire`).
- `isPlainObject` accepts ArrayBuffers and typed arrays, so the split
  `request` and `call` never reach their ArrayBuffer branch
  (`AppValues.Classify`).
- A `disConnect` while `fork`'s connect callback is outstanding leaves
  `waitingShakePromise` null (`Shake.NullPromiseAfterDisconnect`).
- The single-file request handlers leak when a send throws
  (`LegacyRequests.UnattachedHandlerStays`).
- In the single-file version, a reply that arrives after the shake timed
  out marks the shake successful while its task stays rejected
  (`LegacyShake.LateReplyAfterTimeout`).

## Model

| member | source | states |
|---|---|---|
| Constants.FrameBudget | src/shared/message/core.js:335-340 | a frame holds 3584 payload bytes, a chunk 3518 data bytes, and header + chunk header + chunk data fill the 3600-byte frame exactly |
| Util.GetTimestamp | src/shared/message/util.js:35-37 | the timestamp is below ten million, equals the clock below that, and differs from it by a multiple of ten million |
| Util.DataTypeExact | src/shared/message/util.js:44-61 | getDataType yields JSON, TEXT or EMPTY exactly for its own name in any letter case, and BIN for every other string and every non-string |
| Util.DataTypeNameRoundTrip | src/shared/message/util.js:44-61 | every data-type op is recovered from its name in lower case and in upper case |
| Util.LegacyGetDataType | src/shared/message.js:66-80 | the single-file getDataType succeeds exactly on strings (a non-string has no toLowerCase and throws) and then agrees with the split one |
| Util.IdGen.constructor | src/shared/message/util.js:12-21 | the trace counter starts at 10000 and the span counter at 1000 |
| Util.IdGen.GenTraceId | src/shared/message/util.js:17-19 | returns the counter and advances it by one, so trace ids never repeat |
| Util.IdGen.GenSpanId | src/shared/message/util.js:26-28 | returns the span counter and advances it by one |
| FrameCodec.FrameHeader | src/shared/message/core.js:93-112 | the frame header is 16 bytes |
| FrameCodec.EncodeFrame | src/shared/message/core.js:83-119 | a frame is the header followed by the payload bytes |
| FrameCodec.DecodeFrame | src/shared/message/core.js:127-164 | decoding succeeds exactly on buffers of at least 16 bytes (RangeError otherwise), and the payload is the rest of the buffer |
| FrameCodec.SerializeMessage | src/shared/message/core.js:83-119 | fails with PayloadRequired unless a message with a Buffer payload is given; otherwise writes the field-by-field encoding at a running offset |
| FrameCodec.DeserializeMessage | src/shared/message/core.js:127-164 | reading the header at a running offset agrees with DecodeFrame |
| FrameCodec.FrameLayout | src/shared/message/core.js:93-116 | the seven header fields sit at offsets 0, 1, 2, 4, 6, 8 and 12, and the payload starts at 16 |
| FrameCodec.FrameRoundTrip | src/shared/message/core.js:83-164 | decoding an encoded frame gives back every field and the payload (a byte view comes back as a Buffer) |
| FrameCodec.FrameDecodeEncode | src/shared/message/core.js:83-164 | any buffer of at least 16 bytes is the encoding of what it decodes to |
| ChunkCodec.ChunkHeader | src/shared/message/core.js:181-235 | the chunk header is 66 bytes |
| ChunkCodec.EncodeChunk | src/shared/message/core.js:172-241 | a chunk is the 66-byte header followed by the fragment |
| ChunkCodec.DecodeChunk | src/shared/message/core.js:249-332 | decoding succeeds exactly on buffers of at least 66 bytes (RangeError otherwise), and the fragment is the rest |
| ChunkCodec.WriteChunkHeader | src/shared/message/core.js:181-235 | writing the twenty fields at a running offset leaves exactly the header bytes in the buffer |
| ChunkCodec.SerializePayload | src/shared/message/core.js:172-241 | fails with PayloadRequired unless a record with a Buffer payload is given; otherwise writes EncodeChunk, with timestamp1 defaulting to the current timestamp |
| ChunkCodec.DeserializePayload | src/shared/message/core.js:249-332 | reading the header at a running offset agrees with DecodeChunk |
| ChunkCodec.IdLayout | src/shared/message/core.js:182-204 | the ids, the lengths and the first two type bytes sit at their documented offsets |
| ChunkCodec.TimeLayout | src/shared/message/core.js:206-220 | the seven timestamps sit at offsets 26 to 50 |
| ChunkCodec.ExtraLayout | src/shared/message/core.js:222-238 | the last two type bytes, the extras and the fragment sit at offsets 54 to 66 |
| ChunkCodec.ChunkRoundTrip | src/shared/message/core.js:172-332 | decoding an encoded chunk restores every field, with timestamp1 replaced by the current timestamp when it was 0 |
| ChunkCodec.ChunkRoundTripExact | src/shared/message/core.js:172-332 | with timestamp1 set, the round trip is the identity |
| ChunkCodec.DeclaredLengthSurvives | src/shared/message/core.js:172-241 | the encoder writes payloadLength as given, so a declaration that differs from the fragment reaches the receiver unchanged |
| AppValues.Classify | src/shared/message/request.js:44-64 | only strings become TEXT and only Buffers BIN; plain objects and ArrayBuffers or views become JSON; null and undefined become EMPTY with no bytes; arrays and scalars are refused |
| Fragmenter.ChunkDataIsProtoPayload | src/shared/message/builder.js:332 | the fragment size the sender uses is HM_MESSAGE_PROTO_PAYLOAD, and a full chunk fills the frame |
| Fragmenter.ChunkCountBounds | src/shared/message/builder.js:340 | Math.ceil(n / 3518) is the least number of full chunks that covers n bytes |
| Fragmenter.MakeChunk | src/shared/message/builder.js:355-375 | a chunk carries its fragment and declares its real length |
| Fragmenter.Fragments | src/shared/message/builder.js:341-375 | one empty Finished chunk for empty data, otherwise ceil(n / 3518) chunks, each with a Buffer |
| Fragmenter.FragmentsHeaders | src/shared/message/builder.js:341-375 | all chunks share traceId, spanId, totalLength and the payload type, are numbered 0..k-1, and only the last is Finished |
| Fragmenter.FragmentSizes | src/shared/message/builder.js:355-375 | every chunk but the last carries 3518 bytes, and the last carries the remaining 1..3518 |
| Fragmenter.ConcatPrefix | src/shared/message/builder.js:355-375 | the first i chunks carry exactly the first i * 3518 bytes |
| Fragmenter.FragmentsConcat | src/shared/message/builder.js:341-375 | concatenating the fragments in seqId order gives back the data |
| Fragmenter.WireFrames | src/shared/message/builder.js:382-404 | one frame per chunk |
| Fragmenter.WireFrameRoundTrip | src/shared/message/builder.js:382-404 | the receiver decodes a sent frame into the App frame header and exactly the chunk that was sent |
| Fragmenter.FragmentAt | src/shared/message/builder.js:355-375 | chunk i is the slice that starts at i * 3518 |
| Fragmenter.TransportReady | src/shared/message/builder.js:468-483 | ready exactly when a transport exists whose probe does not report the link down; INTERNAL_ERROR without a transport, NOT_CONNECTED when down |
| Fragmenter.EmptySendSkipsProbe | src/shared/message/builder.js:341-351 | an empty send goes out on a link reported down, while a non-empty one is refused with NOT_CONNECTED |
| Fragmenter.SendPayloadFragment | src/shared/message/builder.js:382-404 | succeeds exactly when a transport exists, and then hands it the App frame of the encoded chunk |
| Fragmenter.SendHmProtocol | src/shared/message/builder.js:328-380 | takes the given request id (or a fresh trace id) and always a fresh span id; then either every planned frame goes out in order or nothing does, with the verdict the checks give |
| Fragmenter.SendFragmentAt | src/shared/message/builder.js:355-375 | one iteration cuts chunk i at the running offset and advances it to the chunk's end |
| Fragmenter.SendIteration | src/shared/message/builder.js:355-375 | one loop pass checks readiness and the field ranges, then sends chunk i |
| Fragmenter.SendChunks | src/shared/message/builder.js:355-375 | the loop sends every planned frame in order when the checks pass, and fails before the first otherwise |
| ChunkOrder.Insert | src/shared/message/session.js:96 | inserting keeps the same chunks plus the new one, and the announced bytes add up |
| ChunkOrder.InsertSorted | src/shared/message/session.js:96 | inserting into a seqId-sorted list keeps it sorted |
| ChunkOrder.SortBySeq | src/shared/message/session.js:96 | the result is sorted by seqId, a permutation of the stored chunks, and announces the same bytes |
| ChunkOrder.SortedUnique | src/shared/message/session.js:96 | two sorted arrangements of the same chunks with distinct seqIds are identical |
| ChunkOrder.SortPermutation | src/shared/message/session.js:96 | sorting any permutation of a sorted list with distinct seqIds gives that list back |
| ChunkOrder.AnnouncedConcat | src/shared/message/session.js:101-110 | when each fragment is as long as declared, the concatenation is as long as the announced total |
| ChunkOrder.SortKeepsLengths | src/shared/message/session.js:96 | sorting keeps every chunk's length consistent with its declaration |
| Reassembly.Complete | src/shared/message/session.js:69-147 | the session state stays consistent, and an error releases the session |
| Reassembly.Note | src/shared/message/session.js:28-50 | the declared length is counted before any check, and the chunks are untouched |
| Reassembly.AddChunkSpec | src/shared/message/session.js:28-67 | a chunk is noted, refused when its fragment differs from its declaration, otherwise stored; the state stays consistent |
| Reassembly.Feed | src/shared/message/session.js:28-67 | one event per chunk, and the state stays consistent |
| Reassembly.LengthMismatchCounted | src/shared/message/session.js:51-63 | a chunk whose fragment length differs from its declaration is counted in receivedSize but not stored, and raises a length error |
| Reassembly.CompleteExactly | src/shared/message/session.js:69-147 | a data event happens exactly when the Finished chunk is known, count chunks are stored, the announced size equals the session size, the seqIds are 0..count-1 after sorting, and the totalLength matches |
| Reassembly.GapIsSequenceError | src/shared/message/session.js:96-110 | a missing seqId below count is a sequence error and releases the session |
| Reassembly.FragmentsWellFormed | src/shared/message/builder.js:341-375 | the chunks the sender cuts are a well-formed send whose fragments concatenate to the data |
| Reassembly.ReassembleWellFormed | src/shared/message/session.js:28-147 | a well-formed send arriving in any order leaves a fresh session silent until the last chunk, which emits the Finished chunk carrying all the data in seqId order |
| Reassembly.ReassembleAnyOrder | src/shared/message/session.js:28-147 | fragment then reassemble: whatever the arrival order, the session emits exactly the sent bytes under the send's ids and types, once, at the last chunk |
| Reassembly.JoinInOrder | src/shared/message/session.js:101-110 | the loop reports in-order exactly when chunk i carries seqId i, and then collects the concatenation |
| Reassembly.Session.constructor | src/shared/message/session.js:15-26 | a new session is empty and keeps its id, type and size |
| Reassembly.Session.AddChunk | src/shared/message/session.js:28-67 | the new state and event are AddChunkSpec's |
| Reassembly.Session.CheckIfReceiveAllChunks | src/shared/message/session.js:69-147 | the new state and event are Complete's |
| Reassembly.Session.ReleaseBuf | src/shared/message/session.js:149-158 | the session returns to its initial state |
| Reassembly.SessionManager.constructor | src/shared/message/session.js:162-165 | no session is open |
| Reassembly.SessionManager.NewSession | src/shared/message/session.js:171-182 | a fresh empty session under (id, type), replacing any session there; nothing else changes |
| Reassembly.SessionManager.Destroy | src/shared/message/session.js:184-206 | the session is released and its key dropped; the other sessions are untouched |
| Reassembly.SessionManager.DestroyById | src/shared/message/session.js:184-206 | the session under the key, if any, is released and dropped; an absent key changes nothing |
| Reassembly.SessionManager.Has | src/shared/message/session.js:208-211 | true exactly when a session is open under (id, type) |
| Reassembly.SessionManager.GetById | src/shared/message/session.js:213-216 | the session under (id, type), or null exactly when there is none |
| Reassembly.SessionManager.Clear | src/shared/message/session.js:218-224 | every session is released and the map emptied |
| Requests.TimerDelay | src/shared/message/request.js:66 | a positive delay: the given timeout when truthy, otherwise 60000 |
| Requests.ResponseDataType | src/shared/message/request.js:69 | getDataType of a truthy opts.dataType; an absent, empty, null, 0, NaN or false one gives the request's content type |
| Requests.ExpectedReplyType | src/shared/message/request.js:69 | a type name in either letter case selects that reply type, a falsy dataType keeps the content type, and any other truthy non-string selects BIN |
| Requests.DecodeReply | src/shared/message/request.js:130-153 | a reply is never pending; it is rejected with INTERNAL_ERROR exactly for JSON that does not parse; EMPTY gives undefined; unknown types give the raw bytes |
| Requests.ReplyRoundTrip | src/shared/message/request.js:44-64 | data sent with its own content type comes back as the same value when the decoders invert the encoders |
| Requests.SettleEntry | src/shared/message/request.js:136-156 | the request leaves the table with its promise settled, and the other entries stay |
| Requests.FailAllInv | src/shared/message/request.js:162-170 | handleError keeps the table invariant and leaves nothing pending |
| Requests.RejectEach | src/shared/message/request.js:162-170 | the loop rejects every request of the table with the error |
| Requests.ApplyKeeps | src/shared/message/request.js:71-160 | every event keeps table and promises in step, settles only pending promises and never touches a settled one |
| Requests.SettledStays | src/shared/message/request.js:71-170 | a promise settles at most once: whatever events follow, it keeps its value and its request never comes back |
| Requests.FailureSettlesAll | src/shared/message/request.js:162-170 | after a transport failure nothing is pending, and every request that was pending carries the failure |
| Requests.LateEventsIgnored | src/shared/message/request.js:71-83 | a request that timed out ignores its late response, and one that was answered ignores its timer |
| Requests.RequestHandler.constructor | src/shared/message/request.js:28-35 | an empty table sharing the builder's counters |
| Requests.RequestHandler.Request | src/shared/message/request.js:37-116 | takes a fresh traceId; unsupported data is rejected with INTERNAL_ERROR before anything is registered or sent; otherwise the request is registered and sent, and a failed send removes it and rejects with the error |
| Requests.RequestHandler.Register | src/shared/message/request.js:66-105 | the entry with its timer goes in, the data is sent as a Request payload, and a failed send withdraws the entry |
| Requests.RequestHandler.Enter | src/shared/message/request.js:85 | the new entry is pending and nothing else changes |
| Requests.RequestHandler.Withdraw | src/shared/message/request.js:100-105 | the entry is deleted and its promise rejected with the error |
| Requests.RequestHandler.OnResponse | src/shared/message/request.js:118-160 | the new table is Answer's: a pending traceId is settled by its dataType, any other is ignored |
| Requests.RequestHandler.OnTimeout | src/shared/message/request.js:71-83 | the new table is Expire's: a pending request is rejected and removed, otherwise nothing happens |
| Requests.RequestHandler.HandleError | src/shared/message/request.js:162-170 | the new table is FailAll's: every pending request is rejected with the error, and the table is empty |
| Inbound.Dispatch | src/shared/message/builder.js:512-534 | a Request is emitted as 'request', a Notify as 'call', and nothing else is emitted before 'data' |
| Inbound.Receive | src/shared/message/builder.js:489-554 | only the chunk's own session changes, and a stray Continued chunk with no open session is discarded with no effect |
| Inbound.React | src/shared/message/builder.js:510-544 | the session stays open exactly while it is silent or emits a non-Finished message; an error drops it and is re-emitted |
| Inbound.ReceiveAll | src/shared/message/builder.js:489-554 | the views stay well-formed over a run of chunks |
| Inbound.ReceivePrefix | src/shared/message/builder.js:489-554 | while a session stays silent, every later chunk of its key lands in it, in arrival order |
| Inbound.DeliverFed | src/shared/message/builder.js:489-554 | a silent run followed by one completed Finished message dispatches it once and leaves the other sessions as they were |
| Inbound.DeliverSend | src/shared/message/builder.js:489-554 | a whole send arriving in any order that starts with chunk 0 or the Finished one is delivered once after its last chunk, and no session is left behind |
| Inbound.AssembledHeader | src/shared/message/session.js:113-137 | the assembled message keeps the send's header fields |
| Inbound.SameKey | src/shared/message/builder.js:505-508 | every chunk of a send carries its key and its totalLength |
| Shake.ForkSpec | src/shared/message/builder.js:159-199 | a pending shake is joined; a successful shake on a connected link hands back a resolved promise; otherwise a new task is made and started, or its connect awaited |
| Shake.EnsureShakeSpec | src/shared/message/builder.js:558-567 | off the device or after success the gate is a resolved promise; otherwise it is fork's result |
| Shake.StepKeepsInv | src/shared/message/builder.js:159-222 | every handshake event keeps the shake invariant |
| Shake.RunKeepsInv | src/shared/message/builder.js:159-222 | every reachable shake state satisfies the invariant |
| Shake.SettledTaskStays | src/shared/message/builder.js:167-168 | a settled task never changes until a later fork creates a new one |
| Shake.SuccessNeedsReply | src/shared/message/builder.js:427-436 | only the peer's reply or listen's callback makes a shake succeed |
| Shake.ReplyBeatsTimer | src/shared/message/builder.js:201-222 | a reply resolves the pending task with itself and disarms the timer, so a later timer event changes nothing |
| Shake.NullPromiseAfterDisconnect | src/shared/message/builder.js:234-246 | disConnect during fork's connect callback leaves the shake pending with waitingShakePromise null |
| Shake.PendingWithRejectedTask | src/shared/message/builder.js:183-192 | two forks waiting on the link, the first connect failing and the second succeeding, leave the shake pending on an already rejected task |
| Builder.ControlMessage | src/shared/message/builder.js:276-315 | a shake or close frame goes from the device port to the side port, and its payload byte is the low byte of the application id |
| Builder.ControlFrameRoundTrip | src/shared/message/builder.js:276-326 | the peer decodes a shake or close frame back into its type, both ports and the application id |
| Builder.HintContentType | src/shared/message/builder.js:517-520 | a type name goes through getDataType, any other value passes as it is |
| Builder.ClassifyResponse | src/shared/message/builder.js:583-608 | response classifies as request does: Buffer BIN, string TEXT, plain object JSON, null or undefined EMPTY, anything else refused |
| Builder.ResponseContentType | src/shared/message/builder.js:595-608 | the caller's content type wins over the classification |
| Builder.Wrap | src/shared/message/builder.js:574-580 | a MessageError passes through; any other error becomes a MessageError with its own code, or INTERNAL_ERROR |
| Builder.Gate | src/shared/message/builder.js:569 | then() on a null promise throws a TypeError; otherwise the request waits on the shake promise |
| Builder.DataSpec | src/shared/message/builder.js:437-446 | a payload that does not decode is reported as DESERIALIZATION_ERROR, any other is received |
| Builder.RawSpec | src/shared/message/builder.js:406-466 | App frames are dispatched by type; Runtime frames, unknown flags and unknown types change nothing |
| Builder.MessageBuilder.constructor | src/shared/message/builder.js:61-144 | a builder starts with no shake task, status start, no sessions and no requests |
| Builder.MessageBuilder.ClearShakeTimer | src/shared/message/builder.js:217-222 | the shake timer is disarmed |
| Builder.MessageBuilder.RejectShake | src/shared/message/builder.js:175-176 | the shake task is rejected unless already settled, and the shake marked failed |
| Builder.MessageBuilder.SendShake | src/shared/message/builder.js:289-302 | the shake frame goes out; with no transport a pending shake fails with INTERNAL_ERROR |
| Builder.MessageBuilder.InitiateShake | src/shared/message/builder.js:201-215 | the timer is armed, the shake marked pending and the frame sent |
| Builder.MessageBuilder.Fork | src/shared/message/builder.js:159-199 | the new shake state, the promise and whether a frame goes out are ForkSpec's |
| Builder.MessageBuilder.OnConnectResult | src/shared/message/builder.js:183-192 | a failed connect rejects the shake task with BLE_CLOSE, a successful one starts the shake |
| Builder.MessageBuilder.OnShakeTimer | src/shared/message/builder.js:202-210 | a pending shake fails with SHAKE_TIME_OUT; any other state is left alone |
| Builder.MessageBuilder.Listen | src/shared/message/builder.js:248-262 | on the side, a running app's port2 becomes the side port before the transport is asked to connect, so the next shake frame decodes to that port; the device keeps its port; with no transport the callback receives INTERNAL_ERROR and nothing else changes |
| Builder.MessageBuilder.OnListenConnected | src/shared/message/builder.js:263-273 | the shake counts as done with a resolved promise |
| Builder.MessageBuilder.DisConnect | src/shared/message/builder.js:234-246 | the close frame goes out, the status returns to start, and waitingShakePromise is dropped |
| Builder.MessageBuilder.OnTransportError | src/shared/message/builder.js:114-124 | the error is re-emitted, a pending shake fails with BLE_CLOSE, and every open request is rejected with BLE_CLOSE |
| Builder.MessageBuilder.LoseLink | src/shared/message/builder.js:117-120 | a pending shake is rejected with BLE_CLOSE and marked failed |
| Builder.MessageBuilder.OnTransportDisconnect | src/shared/message/builder.js:125-136 | the side port is forgotten, a pending shake and every open request fail with BLE_CLOSE, and the link is reported down |
| Builder.MessageBuilder.OnTransportConnect | src/shared/message/builder.js:137-140 | the link is reported up |
| Builder.MessageBuilder.OnRawMessage | src/shared/message/builder.js:406-466 | the new observed state is RawSpec's |
| Builder.MessageBuilder.OnLogFrame | src/shared/message/builder.js:454-456 | the payload is emitted as 'log' |
| Builder.MessageBuilder.OnShakeFrame | src/shared/message/builder.js:427-436 | the side port is taken, the reply announced, and a pending shake resolved with it |
| Builder.MessageBuilder.OnCloseFrame | src/shared/message/builder.js:447-453 | the side port is forgotten and the peer's close announced |
| Builder.MessageBuilder.OnDataFrame | src/shared/message/builder.js:437-446 | the new observed state is DataSpec's |
| Builder.MessageBuilder.ReportUndecodable | src/shared/message/builder.js:440-444 | a DESERIALIZATION_ERROR is emitted |
| Builder.MessageBuilder.OnHmProtoPayload | src/shared/message/builder.js:489-554 | the sessions, the request table and the emitted events change as Receive says |
| Builder.MessageBuilder.FindSession | src/shared/message/builder.js:490-508 | the open session of the key, a new one sized by totalLength, or none for a stray Continued chunk |
| Builder.MessageBuilder.AddAndHandle | src/shared/message/builder.js:546-553 | addChunk followed by the installed handlers, as React says |
| Builder.MessageBuilder.HandleSessionEvent | src/shared/message/builder.js:510-544 | the handlers act on what addChunk emitted, as React says |
| Builder.MessageBuilder.Abort | src/shared/message/builder.js:540-544 | the session is destroyed, then the error emitted |
| Builder.MessageBuilder.Finish | src/shared/message/builder.js:510-538 | a Finished message is delivered, emitted as 'data', and its session destroyed |
| Builder.MessageBuilder.CloseSession | src/shared/message/builder.js:537 | the session leaves the view |
| Builder.MessageBuilder.Deliver | src/shared/message/builder.js:512-536 | the message is dispatched by payload type (a Response to the request table), then emitted as 'data' |
| Builder.MessageBuilder.EnsureShake | src/shared/message/builder.js:558-567 | the new shake state and the gate's promise are EnsureShakeSpec's |
| Builder.MessageBuilder.Request | src/shared/message/builder.js:556-581 | request starts by passing the shake gate |
| Builder.MessageBuilder.RequestProceed | src/shared/message/builder.js:569-580 | an unready transport rejects; otherwise the request handler classifies, registers and sends; a traceId, spanId or payload length that does not fit its 32-bit header field withdraws the entry, rejects it with RangeError and sends nothing; the span counter advances by one exactly when classified data reaches sendHmProtocol |
| Builder.MessageBuilder.Call | src/shared/message/builder.js:617-661 | a value of no supported kind is refused with INTERNAL_ERROR before any shake; otherwise call passes the gate |
| Builder.MessageBuilder.CallProceed | src/shared/message/builder.js:648-660 | after a readiness check, the bytes go out as a Notify under a fresh traceId and spanId, both drawn only once the transport is ready |
| Builder.MessageBuilder.Response | src/shared/message/builder.js:583-615 | a missing requestId or an unsupported value is refused with INTERNAL_ERROR before anything is sent; otherwise the data goes out under the requestId as a Response with dataType EMPTY and the span counter advances by one; a refusal leaves it alone |
| Builder.MessageBuilder.RespondTo | src/shared/message/builder.js:516-521 | the response callback answers under the request's traceId with the caller's type hint; the span counter advances by one for each send and not for a refused value |
| Builder.WrapOutcome | src/shared/message/builder.js:654-660 | call's catch applied to an outcome |
| Builder.Surfaced | src/shared/message/builder.js:569-580 | the promise request hands back is the table's, with a rejection wrapped |
| Builder.ResponseResolvesUndefined | src/shared/message/builder.js:609-614 | since response always announces EMPTY, an open request resolves with undefined once all the response's chunks arrive, in any order, whatever was sent |
| LegacyWire.Radio.Send | src/shared/message.js:553-566 | each call asks the native layer anew; the buffer goes out exactly when that call is accepted |
| LegacyWire.Radio.Post | src/shared/message.js:568-577 | the side hands every buffer to the peer socket |
| LegacyWire.SendMsg | src/shared/message.js:580-586 | the device throws SendRefused when this native send is refused; the side always posts and never calls the native send |
| LegacyWire.BuildBin | src/shared/message.js:424-459 | a payload over 3584 bytes throws; otherwise the frame is the 16-byte header plus the payload, and it decodes back to the message |
| LegacyWire.BuildPayload | src/shared/message.js:767-856 | a value too wide for its u32 field throws a RangeError; otherwise the chunk decodes back to the record, with payloadLength the real fragment length |
| LegacyWire.Cut | src/shared/message.js:589-674 | one record per started 3518-byte slice, Math.ceil(n / 3518) of them, none for empty data |
| LegacyWire.CutFits | src/shared/message.js:589-674 | every record of a cut whose ids fit is writable and fits a Data frame |
| LegacyWire.SendDataWithSession | src/shared/message.js:732-765 | the encoded record goes out wrapped in a Data frame on the device and bare on the side; a record too wide for its fields throws before any native send |
| LegacyWire.SendIteration | src/shared/message.js:600-670 | one loop pass checks the link, then builds and sends record i, throwing when its native send is refused |
| LegacyWire.AcceptedRun | src/shared/message.js:561-565 | the number of native sends accepted in a row before the first refusal |
| LegacyWire.SendRecords | src/shared/message.js:609-657 | the loop sends the planned frames in order until the native layer refuses one, so the frames accepted before a refusal stay sent |
| LegacyWire.RefusedMidSend | src/shared/message.js:609-657 | a refusal of chunk k after k accepted chunks throws with exactly those k frames on the link and k + 1 native calls |
| LegacyWire.SendHmProtocol | src/shared/message.js:589-674 | takes the given request id (a fresh one for 0) and a fresh span id; a link or range failure sends nothing, otherwise the planned frames go out in order up to the first native refusal, which throws |
| LegacyWire.EmptyDataDiffers | src/shared/message.js:589-674 | for empty data the single-file loop sends no chunk, while the split fragmenter sends one empty Finished chunk |
| LegacyWire.CutMatchesSplit | src/shared/message.js:589-674 | for non-empty data the two versions cut the same chunks |
| LegacyWire.WireOfRoundTrip | src/shared/message.js:732-765 | the receiver gets back exactly the record as written, through a Data frame on the device and bare on the side |
| LegacyReassembly.Complete | src/shared/message.js:140-182 | the only errors are a sequence error and a full-length error; a sequence error releases the session (count 0); no event leaves the state as it was |
| LegacyReassembly.AddChunkSpec | src/shared/message.js:114-138 | a length mismatch is refused after the chunk is noted, otherwise the chunk is stored and completion tried |
| LegacyReassembly.Feed | src/shared/message.js:114-138 | one event per chunk |
| LegacyReassembly.CompleteExactly | src/shared/message.js:140-182 | a data event happens exactly when the Finished chunk is known, count chunks are stored, chunk i carries seqId i in arrival order, and the totalLength matches |
| LegacyReassembly.InOrderIsSend | src/shared/message.js:140-182 | chunks of a send that arrived in seqId order arrived in send order |
| LegacyReassembly.LastArrival | src/shared/message.js:114-182 | the last chunk of a send yields the whole message when all arrived in send order, and a sequence error otherwise |
| LegacyReassembly.OrderMatters | src/shared/message.js:114-182 | a fresh session stays silent until the last chunk, which yields the message only for send order and a sequence error for every other order |
| LegacyReassembly.SendThenReceive | src/shared/message.js:589-674 | chunks cut by the single-file sender and received in send order yield exactly the sent bytes; any other order yields a sequence error |
| LegacyReassembly.Session.constructor | src/shared/message.js:104-112 | a new session keeps its id and type and starts with no chunks, count -1 and no Finished chunk |
| LegacyReassembly.Session.AddChunk | src/shared/message.js:114-138 | the new state and event are AddChunkSpec's |
| LegacyReassembly.Session.CheckIfReceiveAllChunks | src/shared/message.js:140-182 | the new state and event are Complete's |
| LegacyReassembly.Session.ReleaseBuf | src/shared/message.js:184-188 | the chunks are dropped and count goes to 0, not back to -1 |
| LegacyReassembly.SessionMgr.constructor | src/shared/message.js:192-194 | no session is open |
| LegacyReassembly.SessionMgr.NewSession | src/shared/message.js:200-204 | a fresh session under (id, type), replacing any session there |
| LegacyReassembly.SessionMgr.Destroy | src/shared/message.js:206-209 | the session is released and its key dropped |
| LegacyReassembly.SessionMgr.Has | src/shared/message.js:211-218 | true exactly when a session is open under (id, type) |
| LegacyReassembly.SessionMgr.GetById | src/shared/message.js:220-227 | the session under (id, type), or null exactly when there is none |
| LegacyReassembly.SessionMgr.Clear | src/shared/message.js:229-231 | the map is emptied without releasing any session |
| LegacyShake.ForkSpec | src/shared/message.js:311-343 | a pending shake is joined; otherwise a new task is made and its timer armed, then a device whose link is down rejects it with BLE_CLOSE, leaving the timer armed, and anything else sends the shake |
| LegacyShake.TimerSpec | src/shared/message.js:321-326 | the timer rejects the current task with SHAKE_TIME_OUT and marks failure, whatever the status |
| LegacyShake.ReplySpec | src/shared/message.js:956-962 | a reply clears the timer, resolves the shake task and marks success, whatever the status; with no task it throws a TypeError |
| LegacyShake.LinkDownSpec | src/shared/message.js:296-308 | a link-down notification rejects any task with BLE_CLOSE and marks failure, even after success |
| LegacyShake.ListenSpec | src/shared/message.js:407-422 | listen hands out a resolved promise and leaves the status alone |
| LegacyShake.SettledTaskStays | src/shared/message.js:311-343 | a settled task keeps its value until a later fork creates a new one |
| LegacyShake.ArmedTimerSettles | src/shared/message.js:321-326 | while no fork happens, a task whose timer is armed is settled once the timer fires |
| LegacyShake.DisarmedIsSettled | src/shared/message.js:345-351 | without a fork, the armed timer is disarmed only by an event that settles the shake task |
| LegacyShake.LateReplyAfterTimeout | src/shared/message.js:956-962 | a reply after a timeout leaves the shake task rejected with SHAKE_TIME_OUT while the status says success |
| LegacyShake.BleDownForkKeepsTimer | src/shared/message.js:328-337 | a fork on a down link rejects the shake task with BLE_CLOSE and leaves the timer armed, and its firing changes nothing |
| LegacyShake.LinkDownAfterSuccess | src/shared/message.js:296-308 | after success a link-down marks the single-file shake failed, while the split transport loss leaves it successful |
| LegacyRequests.Register | src/shared/message.js:1118-1168 | a new pending request with its handler and armed timer, no clean-up attached |
| LegacyRequests.Settle | src/shared/message.js:1217-1230 | a promise settles once, and then the attached clean-up cancels the timer and deletes the handler |
| LegacyRequests.Attach | src/shared/message.js:1217-1230 | attaching to an already settled promise runs the clean-up at once |
| LegacyRequests.TimerFires | src/shared/message.js:1121-1128 | a pending promise is rejected with REQUEST_TIME_OUT, and a settled one stays |
| LegacyRequests.ClearAll | src/shared/message.js:397-405 | every handler goes; the promises and their timers stay |
| LegacyRequests.Transact | src/shared/message.js:1136-1166 | the link checks throw first; then TEXT is decoded, JSON parsed (a parse failure throws), and anything else returns the raw bytes |
| LegacyRequests.OnResponse | src/shared/message.js:1022-1025 | the handler of the traceId, if any, resolves its request; an exception from transact propagates and leaves the request as it was |
| LegacyRequests.Run | src/shared/message.js:1085-1234 | the handler invariant holds after every sequence of events |
| LegacyRequests.SettledStays | src/shared/message.js:1085-1234 | no event removes a request or changes a settled promise |
| LegacyRequests.UnattachedHandlerStays | src/shared/message.js:1168-1217 | a request whose send threw keeps its handler through responses and its timer, until disConnect's clear |
| LegacyRequests.AttachedReleased | src/shared/message.js:1217-1230 | a request with the clean-up attached has no handler once settled, whatever settled it |
| LegacyRequests.UnparsableResponseLeavesPending | src/shared/message.js:1136-1166 | a response whose JSON does not parse leaves the request pending with its handler |
| LegacyRequests.EmptyResponseDiffers | src/shared/message.js:1136-1166 | for an EMPTY response the single-file handler resolves with the raw bytes, the split one with undefined |
| LegacyInbound.Deliver | src/shared/message.js:1039-1064 | a Request or Notify is emitted, a Response handed to onResponse, which may throw, and anything else passes silently |
| LegacyInbound.React | src/shared/message.js:1039-1073 | a Finished message is delivered, emitted as 'data' and its session destroyed; an exception skips both; an error drops the session and is re-emitted |
| LegacyInbound.Receive | src/shared/message.js:1027-1077 | every chunk finds or opens its session (no stray chunk is dropped) and the listeners react |
| LegacyInbound.ReceiveAll | src/shared/message.js:1027-1077 | the request-handler invariant holds after any run of chunks |
| LegacyInbound.ReceivePrefix | src/shared/message.js:1027-1077 | before the last chunk of a send arrives, every chunk lands silently in its session, whatever the order |
| LegacyInbound.LastChunk | src/shared/message.js:1027-1077 | the session's answer to the last chunk decides the whole delivery |
| LegacyInbound.DeliverSend | src/shared/message.js:1027-1077 | a send in cut order is delivered once after its last chunk with no session left behind, unless the response handler throws; any other order emits one sequence error and touches no request |
| LegacyPlans.DefaultTypeName | src/shared/message.js:1097-1109 | text for a string, json for a plain object, bin for anything else |
| LegacyPlans.RequestPlan | src/shared/message.js:1170-1216 | binary values go out as BIN with their bytes; otherwise getDataType of the content type picks JSON, TEXT or BIN; a non-string type option or an unconvertible value throws a TypeError |
| LegacyPlans.CallPlan | src/shared/message.js:1281-1334 | a string goes out as TEXT, a binary value as BIN with its bytes, anything else as JSON |
| LegacyPlans.SendBufShape | src/shared/message.js:695-711 | a Buffer is sent; null or undefined throws; other binary values throw at the copy when non-empty; anything else sends nothing |
| LegacyPlans.ResponseShape | src/shared/message.js:1240-1274 | TEXT through str2buf, JSON through json2buf, anything else the value itself announced as BIN |
| LegacyPlans.DefaultRequestAgrees | src/shared/message.js:1093-1216 | with default options the two versions send the same for strings, plain objects and Buffers |
| LegacyPlans.BinaryRequestDiffers | src/shared/message.js:1097-1216 | an ArrayBuffer goes out as BIN announcing JSON in the single-file version, and as JSON text in the split one |
| LegacyPlans.NonStringDataTypeThrows | src/shared/message.js:1170-1216 | a non-string dataType option makes every request throw |
| LegacyPlans.CallOfOtherValues | src/shared/message.js:1281-1334 | arrays, scalars, null and undefined go out as JSON in the single-file call, while the split call refuses or sends EMPTY |
| LegacyPlans.BinResponseOfText | src/shared/message.js:1240-1274 | a string or plain object answered as BIN sends nothing |
| LegacyBuilder.MessageSpec | src/shared/message.js:1027-1077 | a buffer too short for the chunk header throws and changes nothing; any other chunk is received |
| LegacyBuilder.FragmentSpec | src/shared/message.js:951-990 | a buffer too short for a frame header throws; any other is dispatched by flag and type |
| LegacyBuilder.FrameSpec | src/shared/message.js:956-989 | Shake, Data, Log and Close frames are handled as the code says, a Data frame once per installed 'message' listener; Runtime frames, unknown flags and unknown types change nothing; sessions and handlers change only when a listener hears a Data frame |
| LegacyBuilder.Heard | src/shared/message.js:377-380 | an event heard by n listeners runs onMessage n times in order, stopping at the first exception; with no listener nothing changes; the shake and side port are never touched and earlier emissions stay |
| LegacyBuilder.ListenerKeeps | src/shared/message.js:377-380 | one listener running onMessage keeps the shake, the side port, the handler invariant and every earlier emission |
| LegacyBuilder.EmitKeeps | src/shared/message.js:377-380 | listeners run one after another keep whatever each of them keeps: the shake, the side port, the invariants and the earlier emissions |
| LegacyBuilder.EmitStops | src/shared/message.js:377-380 | once a listener has thrown, the listeners installed after it change nothing and the exception is the outcome |
| LegacyBuilder.EmitRepeats | src/shared/message.js:377-380 | listeners that each append the same emissions append them once per listener |
| LegacyBuilder.HeardNext | src/shared/message.js:377-380 | one more listener hears exactly what the earlier ones left, or nothing runs if one of them threw |
| LegacyBuilder.OneListenerDelivers | src/shared/message.js:1027-1077 | a one-chunk request or call with no open session is delivered once, 'data' follows, and the session table is as before |
| LegacyBuilder.ListenerDeliversAgain | src/shared/message.js:377-380 | the (k+1)-th listener delivers the one-chunk message once more on top of what the first k emitted |
| LegacyBuilder.EachListenerDelivers | src/shared/message.js:377-380 | a one-chunk message heard by n listeners is delivered n times, 'request' or 'call' and 'data' each time, with no session left open |
| LegacyBuilder.ShakeFrameSpec | src/shared/message.js:956-962 | the side port is taken and the reply announced before the shake task is resolved |
| LegacyBuilder.ResponseOutcome | src/shared/message.js:589-711 | a value with no bytes passes, null or undefined throws a TypeError, a non-empty binary non-Buffer fails (with BLE_CLOSE exactly when the link is down), and a Buffer ends as any send of its bytes, a native refusal of any chunk included |
| LegacyBuilder.LegacyMessageBuilder.constructor | src/shared/message.js:259-309 | a builder starts with status start, no task, no handlers and no sessions |
| LegacyBuilder.LegacyMessageBuilder.RejectShake | src/shared/message.js:332-335 | the shake task is rejected unless already settled, and the shake marked failed |
| LegacyBuilder.LegacyMessageBuilder.SendControl | src/shared/message.js:461-497 | a one-byte control frame goes out, and the device throws when the native send refuses |
| LegacyBuilder.LegacyMessageBuilder.Fork | src/shared/message.js:311-343 | the new shake state and promise are ForkSpec's, and a refused send throws after the state changed |
| LegacyBuilder.LegacyMessageBuilder.ForkState | src/shared/message.js:312-339 | the handshake half of fork is ForkSpec |
| LegacyBuilder.LegacyMessageBuilder.OnBleStatus | src/shared/message.js:296-308 | going down rejects the shake task as LinkDownSpec says |
| LegacyBuilder.LegacyMessageBuilder.OnShakeTimer | src/shared/message.js:321-326 | the new shake state is TimerSpec's |
| LegacyBuilder.LegacyMessageBuilder.Connect | src/shared/message.js:377-395 | one more 'message' listener is installed beside those of earlier connect calls |
| LegacyBuilder.LegacyMessageBuilder.DisConnect | src/shared/message.js:397-405 | the close frame goes out, then every 'message' listener and every handler are removed; a refused send throws before either; the peer socket listeners stay |
| LegacyBuilder.LegacyMessageBuilder.Listen | src/shared/message.js:407-422 | the side port comes from the app, one more peer socket listener is installed when the messaging module is present, and the shake counts as done |
| LegacyBuilder.LegacyMessageBuilder.OnFragmentData | src/shared/message.js:951-990 | the new observed state and outcome are FragmentSpec's |
| LegacyBuilder.LegacyMessageBuilder.OnFrame | src/shared/message.js:956-989 | the new observed state and outcome are FrameSpec's |
| LegacyBuilder.LegacyMessageBuilder.OnShakeFrame | src/shared/message.js:956-962 | the new observed state and outcome are ShakeFrameSpec's |
| LegacyBuilder.LegacyMessageBuilder.AcceptShake | src/shared/message.js:960-962 | the new shake state and outcome are ReplySpec's |
| LegacyBuilder.LegacyMessageBuilder.OnDataFrame | src/shared/message.js:963-974 | the payload reaches onMessage once through each listener connect installed |
| LegacyBuilder.LegacyMessageBuilder.OnPeerMessage | src/shared/message.js:409-418 | a buffer from the peer socket reaches onMessage once through each listener listen installed, as Heard says |
| LegacyBuilder.LegacyMessageBuilder.HearAll | src/shared/message.js:377-380 | the listeners run one after another and the state and outcome are Heard's |
| LegacyBuilder.LegacyMessageBuilder.OnLogOrClose | src/shared/message.js:975-985 | a Log frame is passed on, and a Close frame forgets the side port |
| LegacyBuilder.LegacyMessageBuilder.OnMessage | src/shared/message.js:1027-1077 | the new observed state and outcome are MessageSpec's |
| LegacyBuilder.LegacyMessageBuilder.OnPayload | src/shared/message.js:1029-1076 | the chunk's session is found or opened, and the listeners react as Receive says |
| LegacyBuilder.LegacyMessageBuilder.FindSession | src/shared/message.js:1029-1036 | the open session of the key, or a new one |
| LegacyBuilder.LegacyMessageBuilder.AddAndHandle | src/shared/message.js:1076 | addChunk followed by the listeners' reaction, as React says |
| LegacyBuilder.LegacyMessageBuilder.HandleSessionEvent | src/shared/message.js:1039-1073 | the listeners act on what addChunk reported, as React says |
| LegacyBuilder.LegacyMessageBuilder.Finish | src/shared/message.js:1040-1067 | a Finished message is delivered, emitted and its session destroyed; an exception from the delivery skips both |
| LegacyBuilder.LegacyMessageBuilder.DeliverMsg | src/shared/message.js:1041-1063 | emits 'request', 'response' or 'call' as Deliver says |
| LegacyBuilder.LegacyMessageBuilder.OnResponse | src/shared/message.js:1022-1025 | the handlers and outcome are LegacyRequests.OnResponse's |
| LegacyBuilder.LegacyMessageBuilder.Request | src/shared/message.js:1085-1091 | a device whose link is down is refused with BLE_CLOSE; otherwise the request waits on the shake promise |
| LegacyBuilder.LegacyMessageBuilder.RequestProceed | src/shared/message.js:1093-1230 | both link checks, a fresh traceId and the handler registered, then the plan and the send; only a send that returned attaches the clean-up; a send refused at chunk k leaves its first k frames on the link and the handler registered |
| LegacyBuilder.LegacyMessageBuilder.OnRequestTimer | src/shared/message.js:1121-1128 | the handlers are TimerFires' |
| LegacyBuilder.LegacyMessageBuilder.Response | src/shared/message.js:1240-1274 | the value is sent under the request's traceId as a Response, by data type as ResponseShape says |
| LegacyBuilder.LegacyMessageBuilder.RespondTo | src/shared/message.js:1044-1057 | the callback answers with the request's content type, and the caller's data type through getDataType or else the request's |
| LegacyBuilder.LegacyMessageBuilder.Call | src/shared/message.js:1296 | call waits on the shake promise with no link check; a null promise throws a TypeError |
| LegacyBuilder.LegacyMessageBuilder.CallProceed | src/shared/message.js:1296-1333 | the value goes out as a Notify with dataType EMPTY under a fresh traceId, up to the first native refusal |
| LegacyBuilder.DataFrameReachesSession | src/shared/message.js:963-968 | a Data frame from the peer reaches its session with exactly the record written, when one 'message' listener is installed |
| LegacyBuilder.SideChunkReachesSession | src/shared/message.js:407-418 | a bare chunk on the side reaches its session with exactly the record written |
| LegacyBuilder.ShakeReplyTakesPort | src/shared/message.js:956-962 | the peer's reply sets the side port, is announced and makes the shake succeed; with no task it throws after taking the port |
| LegacyBuilder.FailedRequestKeepsHandler | src/shared/message.js:1168-1230 | a request whose plan or send threw keeps its handler through every later response and timer |
| Qs.ItemParts | src/core/common/qs.js:13-17 | one `key[]=item` part per item, in order |
| Qs.Split | src/core/common/qs.js:24 | splitting on one character always yields at least one piece |
| Qs.PushItems | src/core/common/qs.js:13-17 | the forEach appends the item parts, in order |
| Qs.Stringify | src/core/common/qs.js:3-25 | refused with an error exactly for a falsy or non-object argument; otherwise the parts of the entries, in order, joined with '&' |
| Qs.PartsCount | src/core/common/qs.js:10-22 | one part per plain value and one per array item |
| Qs.PartsAppend | src/core/common/qs.js:10-22 | entries contribute independently, in order |
| Qs.SplitJoin | src/core/common/qs.js:24 | parts free of the separator are recovered by splitting their join |
| Qs.StringifySplits | src/core/common/qs.js:3-25 | when the encoder never yields '&', splitting the result on '&' gives back exactly the parts, and no parts give "" |
| Qs.PartsFree | src/core/common/qs.js:10-22 | no part contains '&' when the encoder never yields one |
| Callbacks.Without | src/core/common/callback-set.js:17-30 | deleting keeps every other value, in order, and keeps them distinct |
| Callbacks.CallbackSet.constructor | src/core/common/callback-set.js:3-5 | the set starts empty |
| Callbacks.CallbackSet.Add | src/core/common/callback-set.js:7-9 | a held value keeps its place; a new one goes last |
| Callbacks.CallbackSet.RunAll | src/core/common/callback-set.js:11-15 | the calls and the ending are RunFrom's, and the set is unchanged |
| Callbacks.CallbackSet.Remove | src/core/common/callback-set.js:17-30 | a truthy argument deletes that one value; a falsy one empties the set |
| Callbacks.RunCallsEachOnce | src/core/common/callback-set.js:11-15 | when nothing throws, every function is called exactly once in insertion order; otherwise a prefix of them is called and the run ends with the error |
| Callbacks.RemoveUndoesAdd | src/core/common/callback-set.js:7-30 | removing what was just added restores the set, order included |
| Callbacks.WithoutSize | src/core/common/callback-set.js:17-30 | deleting a held value shrinks the set by one, and deleting an absent value changes nothing |
| Callbacks.AddIdempotent | src/core/common/callback-set.js:7-9 | adding a value twice is adding it once |
| IDisposable.SafeDispose | src/core/common/idisposable.js:5-17 | the hook is called exactly on a non-null object holding a function under the key, and its exception is returned, not thrown |
| IDisposable.DisposeEach | src/core/common/idisposable.js:19-28 | one safeDispose per element, in order |
| IDisposable.SafeDisposeAll | src/core/common/idisposable.js:19-28 | nothing for a non-iterable; one result per element otherwise |
| IDisposable.EveryHookCalled | src/core/common/idisposable.js:19-28 | a throwing hook does not stop the others; errors are reported exactly for the hooks that threw |
| IDisposable.CleanupResult | src/core/common/idisposable.js:30-36 | `cb && cb()` throws exactly for a truthy non-function or a function that throws |
| IDisposable.Create | src/core/common/idisposable.js:30-36 | a fresh object with a dispose hook |
| IDisposable.CreateDisposes | src/core/common/idisposable.js:5-36 | safeDispose always calls what create makes and reports exactly what the callback threw |
| IDisposable.CheckDisposed | src/core/common/idisposable.js:38-41 | a DisposedError exactly when disposed is truthy, a TypeError for undefined or null, and a pass otherwise |
| Disposable.RegisteredContents | src/core/common/disposable.js:13-21 | the Set is created only when something is registered, and then holds exactly the old members plus the arguments, each once, old ones first |
| Disposable.Disposable.constructor | src/core/common/disposable.js:4-7 | a fresh instance is not disposed and holds no Set |
| Disposable.Disposable.RegisterForDispose | src/core/common/disposable.js:13-21 | the Set after the call is Registered's |
| Disposable.Disposable.CheckIfDisposedAsWritten | src/core/common/disposable.js:23-25 | every call throws a ReferenceError |
| Disposable.Disposable.CheckIfDisposed | src/core/common/disposable.js:23-25 | fails with a DisposedError exactly when the instance is disposed |
| Disposable.CheckIfDisposedRefusesLive | src/core/common/disposable.js:23-25 | a live instance is refused as written and passes as intended |
| Disposable.Disposable.Dispose | src/core/common/disposable.js:27-36 | the first call sets the flag, disposes every registered value, deletes the Set and passes on the hook's exception; later calls do nothing |

## Findings

| source | as written | input that shows it | evidently intended | confidence | as-written member | corrected member |
|---|---|---|---|---|---|---|
| src/core/common/disposable.js:23-25 | checkIfDisposed calls the bare name `checkDisposed`, which the module neither declares nor imports (only the `IDisposableFun` namespace is imported) | any instance, disposed or not: the call throws a ReferenceError | `IDisposableFun.checkDisposed(this)`: a DisposedError exactly when disposed | high, not executed | Disposable.Disposable.CheckIfDisposedAsWritten | Disposable.Disposable.CheckIfDisposed |

## Left out

- Fragmenter.SendHmProtocol: the clock is sampled once per send, so every chunk of a send carries the same timestamp1. The program calls `getTimestamp()` again for each chunk, so chunks of one send can carry different timestamps.

- LegacyWire.SendHmProtocol: the clock is sampled once per send, so every chunk of a send carries the same timestamp1. The program calls `this.now()` again for each chunk, so chunks of one send can carry different timestamps.

- LegacyReassembly.AddChunkSpec: a chunk without a payload is reported as a TypeError session error event, while `addChunk` would throw out of the 'message' listener with nothing destroyed or emitted. No such chunk reaches a session, because the payload readPayload returns is always the rest of the buffer.

- The single-file `readBin` (`src/shared/message.js:499-536`) and `readPayload` (`src/shared/message.js:858-949`) have no members of their own. They read the same layouts as the split decoders, so `FrameCodec.DeserializeMessage` and `ChunkCodec.DeserializePayload` model them.

- The transport adapters (`transport.js`, the BLE object, the peer socket) are not part of this model. A transport is a sink with a connection probe, and its events arrive as method calls.
- Timers, promise scheduling and microtask order are not modelled. Timers and connect callbacks are events; promises are their settle state.
- The timeout delays are not modelled: the shake timeout and the request timeout are when the event arrives, not how long it takes. `Requests.TimerDelay` records only the delay request chooses.
- UTF-8, JSON and the conversions of `data.js` and `buffer.js` are not modelled: they are a `Codec` of functions and, in the single-file version, a `Foreign` record.
- Logging, the `DEBUG` switch, and the 'raw' and 'read' events of the single-file version are left out: they do not change state.
- `error.js` messages are left out: an error is its code; the text is not modelled.
- The EventBus (`event.js`) is not part of this model: emitted events are recorded in order in `emitted`. For the single-file 'message' event and the peer socket, the model counts the listeners installed and takes an event to call them in the order they were installed, ending at the first exception. The single-file constructor's 'response' listener is folded into the delivery of a Response.
- LegacyBuilder.LegacyMessageBuilder.Listen: whether the global `messaging` module exists is the parameter `messaging`.
- The `cb` callbacks of `connect`, `disConnect` and `listen`, and the split `connect`, are left out: they only hand the builder back or pass the transport's answer on. The split `listen` itself is modelled: its side-port assignment is `Builder.MessageBuilder.Listen` and its connect callback is `Builder.MessageBuilder.OnListenConnected`.
- Builder.MessageBuilder.Listen: an app whose `port2` is not a 16-bit number (for instance undefined) is not modelled; `appPort2` is the app's port2 or None when there is no app.
- The single-file `getRequestCount` is left out: it reads the size of `handlers`, which the model keeps.
- The single-file `buildData` is modelled only as the Data frame route inside `LegacyWire.WireOf`.
- The single-file `sendJson` and `sendText` are modelled only through their choice in `LegacyPlans`. They convert the value and call `sendHmProtocol`, like `sendBuf`.
- `Reassembly.Session.AddChunk`: the Finished chunk is stored once in `chunks` and referenced again by `finishChunk`. Completion writes the assembled payload into that shared object; the model keeps the two apart. This cannot be observed, because the session is released immediately.
- `Qs.Stringify`: `encodeURIComponent` is a parameter, and the URIError it throws on a lone surrogate is not modelled. Object.entries order and the string form of values are given by the argument.
- `Callbacks.CallbackSet.RunAll`: a callback that adds to or removes from the set during the run is not modelled. The arguments are left out; whether a callback throws is a parameter.
- The `IDisposable` mixin of `disposable.js` (lines 39-48) is left out: it copies the class's methods onto another prototype, and JavaScript reflection is outside this model.
- Numeric fields are unbounded integers. A header field the source writes with `writeUInt*` is a bounded subtype, and the ids and lengths are checked where the source would throw a RangeError.
