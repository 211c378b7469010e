/** The split version's sender (builder.js, sendHmProtocol,
    _sendPayloadFragment and _assertTransportReady): user data is cut into
    chunks of at most 3518 bytes, each chunk is encoded, wrapped in an App
    frame addressed with the builder's configuration and handed to the
    transport. */
module Fragmenter {
  import opened Common
  import opened Constants
  import opened FrameCodec
  import opened ChunkCodec
  import opened Link
  import Util

  /** The data bytes one chunk carries at most (HM_MESSAGE_PROTO_PAYLOAD). */
  const CHUNK_DATA: nat := 3518

  lemma ChunkDataIsProtoPayload()
    ensures CHUNK_DATA == HM_MESSAGE_PROTO_PAYLOAD
    ensures MESSAGE_HEADER + HM_MESSAGE_PROTO_HEADER + CHUNK_DATA == MESSAGE_SIZE
  {
  }

  /** What every chunk of one send shares. */
  datatype SendHeader = SendHeader(
    traceId: u32, spanId: u32, payloadType: byte, contentType: byte, dataType: byte,
    clock: nat)

  /** How every frame of one send is addressed. */
  datatype Route = Route(appId: u32, devicePort: u16, sidePort: u16, messageType: u16)

  /** Math.ceil(n / 3518). */
  function ChunkCount(n: nat): nat
  {
    (n + CHUNK_DATA - 1) / CHUNK_DATA
  }

  /** The count is the least number of full-size chunks that covers n bytes. */
  lemma ChunkCountBounds(n: nat)
    requires n > 0
    ensures ChunkCount(n) >= 1
    ensures (ChunkCount(n) - 1) * CHUNK_DATA < n <= ChunkCount(n) * CHUNK_DATA
  {
  }

  /** Where chunk i of an n-byte send ends: the next boundary, or n for the last. */
  function FragmentEnd(n: nat, i: nat): nat
    requires n > 0 && i < ChunkCount(n)
  {
    if i == ChunkCount(n) - 1 then n else (i + 1) * CHUNK_DATA
  }

  /** One chunk record as sendHmProtocol builds it: parentId and the unused
      timestamps and extras 0, payloadLength the fragment's real length. */
  function MakeChunk(h: SendHeader, seqId: u32, total: u32, fragment: Bytes, last: bool): (r: Payload)
    requires |fragment| <= CHUNK_DATA
    ensures r.payload == Buf(fragment) && r.payloadLength == |fragment|
  {
    Payload(h.traceId, 0, h.spanId, seqId, total, |fragment|, h.payloadType,
            if last then FINISHED else CONTINUED,
            Util.GetTimestamp(h.clock), 0, 0, 0, 0, 0, 0,
            h.contentType, h.dataType, 0, 0, 0, Buf(fragment))
  }

  /** The chunks of one send, in emission order: one empty Finished chunk for
      empty data, otherwise ChunkCount(n) chunks cut at multiples of 3518. */
  function Fragments(h: SendHeader, data: Bytes): (r: seq<Payload>)
    requires |data| < 0x1_0000_0000
    ensures |r| == if |data| == 0 then 1 else ChunkCount(|data|)
    ensures forall i :: 0 <= i < |r| ==> r[i].payload.Buf?
  {
    var n := |data|;
    if n == 0 then [MakeChunk(h, 0, 0, [], true)]
    else
      ChunkCountBounds(n);
      seq(ChunkCount(n), i requires 0 <= i < ChunkCount(n) =>
        MakeChunk(h, i, n, data[i * CHUNK_DATA..FragmentEnd(n, i)], i == ChunkCount(n) - 1))
  }

  /** All chunks of one send share traceId, spanId, totalLength = n and the
      payload type, are numbered 0..k-1 in emission order, declare their real
      fragment length, and only the last one is Finished. */
  lemma FragmentsHeaders(h: SendHeader, data: Bytes)
    requires |data| < 0x1_0000_0000
    ensures var r := Fragments(h, data);
      forall i :: 0 <= i < |r| ==>
        && r[i].traceId == h.traceId && r[i].spanId == h.spanId && r[i].seqId == i
        && r[i].totalLength == |data| && r[i].payloadType == h.payloadType
        && r[i].contentType == h.contentType && r[i].dataType == h.dataType
        && r[i].payloadLength == |Fragment(r[i])|
        && (r[i].opCode == FINISHED <==> i == |r| - 1)
        && (r[i].opCode == CONTINUED <==> i < |r| - 1)
  {
  }

  /** Every chunk but the last carries exactly 3518 bytes; the last carries the
      remaining 1..3518 bytes (0 only for empty data). */
  lemma FragmentSizes(h: SendHeader, data: Bytes)
    requires |data| < 0x1_0000_0000
    ensures var r := Fragments(h, data);
      && (forall i :: 0 <= i < |r| - 1 ==> |Fragment(r[i])| == CHUNK_DATA)
      && |Fragment(r[|r| - 1])| <= CHUNK_DATA
      && (|data| > 0 ==> |Fragment(r[|r| - 1])| > 0)
      && (|data| == 0 ==> Fragment(r[0]) == [] && r[0].seqId == 0 && r[0].totalLength == 0)
  {
    if |data| > 0 {
      ChunkCountBounds(|data|);
    }
  }

  /** The first i chunks carry exactly the first i * 3518 bytes. */
  lemma {:induction false} ConcatPrefix(h: SendHeader, data: Bytes, i: nat)
    requires 0 < |data| < 0x1_0000_0000
    requires i < ChunkCount(|data|)
    ensures Concat(Fragments(h, data)[..i]) == data[..i * CHUNK_DATA]
  {
    var r := Fragments(h, data);
    ChunkCountBounds(|data|);
    if i > 0 {
      ConcatPrefix(h, data, i - 1);
      InitOfPrefix(r, i);
      FragmentAt(h, data, i - 1);
      assert Fragment(r[i - 1]) == data[(i - 1) * CHUNK_DATA..i * CHUNK_DATA];
      SliceSplit(data, (i - 1) * CHUNK_DATA, i * CHUNK_DATA);
    }
  }

  /** Concatenating the fragments in seqId (= emission) order gives back the
      data: fragmentation loses and adds nothing. */
  lemma {:induction false} FragmentsConcat(h: SendHeader, data: Bytes)
    requires |data| < 0x1_0000_0000
    ensures Concat(Fragments(h, data)) == data
  {
    var r := Fragments(h, data);
    if |data| == 0 {
      assert r[..0] == [];
    } else {
      var k := ChunkCount(|data|);
      ChunkCountBounds(|data|);
      ConcatPrefix(h, data, k - 1);
      FragmentAt(h, data, k - 1);
      assert Fragment(r[k - 1]) == data[(k - 1) * CHUNK_DATA..|data|];
      SliceSplit(data, (k - 1) * CHUNK_DATA, |data|);
      PrefixWhole(data);
    }
  }

  /** The frame _sendPayloadFragment hands to the transport for one chunk. */
  function WireFrame(route: Route, chunk: Payload, clock: nat): Bytes
    requires chunk.payload.Buf?
  {
    EncodeFrame(Message(FLAG_APP, VERSION_1, route.messageType, route.devicePort,
                        route.sidePort, route.appId, 0, Buf(EncodeChunk(chunk, clock))))
  }

  function WireFrames(route: Route, chunks: seq<Payload>, clock: nat): (r: seq<Bytes>)
    requires forall i :: 0 <= i < |chunks| ==> chunks[i].payload.Buf?
    ensures |r| == |chunks|
  {
    if chunks == [] then []
    else WireFrames(route, chunks[..|chunks| - 1], clock) + [WireFrame(route, chunks[|chunks| - 1], clock)]
  }

  /** A receiver that decodes a sent frame and then its payload gets back the
      App frame header and exactly the chunk that was sent (its timestamp1 is
      already the current timestamp, so nothing is replaced). */
  lemma {:induction false} WireFrameRoundTrip(route: Route, chunk: Payload, clock: nat)
    requires chunk.payload.Buf? && chunk.timestamp1 == Util.GetTimestamp(clock)
    ensures var m := DecodeFrame(WireFrame(route, chunk, clock));
      && m.Ok? && m.value.flag == FLAG_APP && m.value.msgType == route.messageType
      && m.value.port1 == route.devicePort && m.value.port2 == route.sidePort
      && DecodeChunk(m.value.payload.bytes) == Ok(chunk)
  {
    var inner := EncodeChunk(chunk, clock);
    FrameRoundTrip(Message(FLAG_APP, VERSION_1, route.messageType, route.devicePort,
                           route.sidePort, route.appId, 0, Buf(inner)));
    ChunkRoundTrip(chunk, clock);
  }

  /** Chunk i is the slice that starts at i * 3518. */
  lemma FragmentAt(h: SendHeader, data: Bytes, i: nat)
    requires 0 < |data| < 0x1_0000_0000 && i < ChunkCount(|data|)
    ensures i * CHUNK_DATA + (if i == ChunkCount(|data|) - 1 then |data| - i * CHUNK_DATA else CHUNK_DATA)
         == FragmentEnd(|data|, i)
    ensures Fragments(h, data)[i]
         == MakeChunk(h, i, |data|, data[i * CHUNK_DATA..FragmentEnd(|data|, i)], i == ChunkCount(|data|) - 1)
  {
    ChunkCountBounds(|data|);
  }

  /** Frame i of a send is the wire frame of chunk i. */
  lemma {:induction false} WireFramesAt(route: Route, cs: seq<Payload>, i: nat, clock: nat)
    requires i < |cs| && forall j :: 0 <= j < |cs| ==> cs[j].payload.Buf?
    ensures WireFrames(route, cs, clock)[i] == WireFrame(route, cs[i], clock)
  {
    if i < |cs| - 1 {
      WireFramesAt(route, cs[..|cs| - 1], i, clock);
    }
  }

  /** _assertTransportReady: no transport is an internal error, a probe that
      reports the link down is NOT_CONNECTED; an unfinished shake only warns. */
  function TransportReady(t: Transport?): (r: Outcome)
    reads t
    ensures r.Pass? <==> t != null && !t.ReportsDown()
    ensures t == null ==> r == Fail(MessageError(InternalError))
    ensures t != null && t.ReportsDown() ==> r == Fail(MessageError(NotConnected))
  {
    if t == null then Fail(MessageError(InternalError))
    else if t.ReportsDown() then Fail(MessageError(NotConnected))
    else Pass
  }

  /** Whether the ids and the length fit their u32 header fields
      (writeUInt32LE throws a RangeError otherwise). */
  predicate FitsHeader(traceId: nat, spanId: nat, n: nat)
  {
    traceId < 0x1_0000_0000 && spanId < 0x1_0000_0000 && n < 0x1_0000_0000
  }

  /** How a send ends, given whether a transport exists and its probe. Empty
      data skips the readiness check entirely; the range check comes from
      serializePayload and so follows the readiness check for non-empty data. */
  function SendVerdict(hasTransport: bool, probe: Option<bool>, traceId: nat, spanId: nat, n: nat): Outcome
  {
    if n == 0 then
      if !FitsHeader(traceId, spanId, 0) then Fail(RangeError)
      else if !hasTransport then Fail(MessageError(InternalError))
      else Pass
    else if !hasTransport then Fail(MessageError(InternalError))
    else if probe == Some(false) then Fail(MessageError(NotConnected))
    else if !FitsHeader(traceId, spanId, n) then Fail(RangeError)
    else Pass
  }

  /** An empty send goes out even on a transport whose probe reports the
      link down, while a non-empty one is refused with NOT_CONNECTED. */
  lemma EmptySendSkipsProbe(traceId: u32, spanId: u32, n: nat)
    ensures SendVerdict(true, Some(false), traceId, spanId, 0) == Pass
    ensures n > 0 ==> SendVerdict(true, Some(false), traceId, spanId, n) == Fail(MessageError(NotConnected))
  {
  }

  /** _sendPayloadFragment: encode the chunk, wrap it in an App frame with the
      current configuration, and send it; no transport is an internal error. */
  method SendPayloadFragment(t: Transport?, cfg: Config, chunk: Payload, messageType: u16, clock: nat)
    returns (r: Outcome)
    requires chunk.payload.Buf?
    modifies t
    ensures r.Pass? <==> t != null
    ensures r.Fail? ==> r.error == MessageError(InternalError)
    ensures t != null ==> t.probe == old(t.probe)
    ensures t != null ==>
      t.sent == old(t.sent) + [WireFrame(Route(cfg.appId, cfg.appDevicePort, cfg.appSidePort, messageType), chunk, clock)]
  {
    var serializedPayload := SerializePayload(Some(chunk), clock);
    var message := Message(FLAG_APP, VERSION_1, messageType, cfg.appDevicePort, cfg.appSidePort,
                           cfg.appId, 0, Buf(serializedPayload.value));
    var serializedMessage := SerializeMessage(Some(message));
    if t == null {
      return Fail(MessageError(InternalError));
    }
    t.Send(serializedMessage.value);
    r := Pass;
  }

  /** sendHmProtocol: takes the given request id as traceId (a fresh trace id
      when none is given) and always a fresh span id, then sends the chunks of
      Fragments in order. */
  method SendHmProtocol(t: Transport?, cfg: Config, ids: Util.IdGen, requestId: Option<nat>,
                        data: Bytes, payloadType: byte, contentType: byte, dataType: byte,
                        messageType: u16, clock: nat)
    returns (r: Outcome)
    requires ids.Valid()
    modifies t, ids
    ensures ids.Valid()
    ensures ids.nextSpan == old(ids.nextSpan) + 1
    ensures ids.nextTrace == old(ids.nextTrace) + (if requestId.None? then 1 else 0)
    ensures var traceId := if requestId.Some? then requestId.value else old(ids.nextTrace);
      && r == SendVerdict(t != null, if t != null then old(t.probe) else None,
                          traceId, old(ids.nextSpan), |data|)
      && (r.Pass? ==>
            var h := SendHeader(traceId, old(ids.nextSpan), payloadType, contentType, dataType, clock);
            var route := Route(cfg.appId, cfg.appDevicePort, cfg.appSidePort, messageType);
            t.sent == old(t.sent) + WireFrames(route, Fragments(h, data), clock))
    ensures r.Fail? && t != null ==> t.sent == old(t.sent)
    ensures t != null ==> t.probe == old(t.probe)
  {
    var traceId: nat;
    if requestId.Some? {
      traceId := requestId.value;
    } else {
      traceId := ids.GenTraceId();
    }
    var spanId := ids.GenSpanId();
    if |data| == 0 {
      if !FitsHeader(traceId, spanId, 0) {
        return Fail(RangeError);
      }
      var h := SendHeader(traceId, spanId, payloadType, contentType, dataType, clock);
      r := SendPayloadFragment(t, cfg, MakeChunk(h, 0, 0, [], true), messageType, clock);
      assert Fragments(h, data) == [MakeChunk(h, 0, 0, [], true)];
      return;
    }
    if t == null {
      // the loop's first readiness check
      return TransportReady(t);
    }
    r := SendChunks(t, cfg, traceId, spanId, data, payloadType, contentType, dataType, messageType, clock);
  }

  /** One iteration of the sendHmProtocol loop once the checks have passed:
      cut the fragment of chunk i at the running offset, build the chunk
      record, send it, and advance the offset by the fragment's size. */
  method SendFragmentAt(t: Transport, cfg: Config, h: SendHeader, data: Bytes, i: nat, offset: nat,
                        messageType: u16)
    returns (next: nat)
    requires 0 < |data| < 0x1_0000_0000 && i < ChunkCount(|data|) && offset == i * CHUNK_DATA
    modifies t
    ensures next == if i == ChunkCount(|data|) - 1 then |data| else (i + 1) * CHUNK_DATA
    ensures t.probe == old(t.probe)
    ensures t.sent == old(t.sent)
      + [WireFrame(Route(cfg.appId, cfg.appDevicePort, cfg.appSidePort, messageType), Fragments(h, data)[i], h.clock)]
  {
    var n := |data|;
    var last := i == ChunkCount(n) - 1;
    FragmentAt(h, data, i);
    var size := if last then n - offset else CHUNK_DATA;
    var fragment := data[offset..offset + size];
    var chunk := MakeChunk(h, i, n, fragment, last);
    var sent := SendPayloadFragment(t, cfg, chunk, messageType, h.clock);
    next := offset + size;
  }

  /** The frames a non-empty send hands over when every check passes (none
      when the ids or the length do not fit their header fields). */
  ghost function Planned(route: Route, traceId: nat, spanId: nat, payloadType: byte, contentType: byte,
                         dataType: byte, data: Bytes, clock: nat): (r: seq<Bytes>)
    requires |data| > 0
    ensures FitsHeader(traceId, spanId, |data|) ==> |r| == ChunkCount(|data|)
  {
    if FitsHeader(traceId, spanId, |data|) then
      WireFrames(route, Fragments(SendHeader(traceId, spanId, payloadType, contentType, dataType, clock), data), clock)
    else []
  }

  /** One pass of the sendHmProtocol loop body: the readiness check, the
      range check of the header fields, then chunk i goes out. */
  method SendIteration(t: Transport, cfg: Config, traceId: nat, spanId: nat, data: Bytes,
                       payloadType: byte, contentType: byte, dataType: byte,
                       messageType: u16, clock: nat, i: nat, offset: nat)
    returns (r: Outcome, next: nat)
    requires 0 < |data| && i < ChunkCount(|data|) && offset == i * CHUNK_DATA
    modifies t
    ensures r == if t.ReportsDown() then Fail(MessageError(NotConnected))
                 else if !FitsHeader(traceId, spanId, |data|) then Fail(RangeError)
                 else Pass
    ensures t.probe == old(t.probe)
    ensures r.Fail? ==> t.sent == old(t.sent)
    ensures r.Pass? ==>
      && next == (if i + 1 == ChunkCount(|data|) then |data| else (i + 1) * CHUNK_DATA)
      && var route := Route(cfg.appId, cfg.appDevicePort, cfg.appSidePort, messageType);
         t.sent == old(t.sent)
           + [Planned(route, traceId, spanId, payloadType, contentType, dataType, data, clock)[i]]
  {
    var ready := TransportReady(t);
    if ready.Fail? {
      return ready, offset;
    }
    if !FitsHeader(traceId, spanId, |data|) {
      return Fail(RangeError), offset;
    }
    var h := SendHeader(traceId, spanId, payloadType, contentType, dataType, clock);
    next := SendFragmentAt(t, cfg, h, data, i, offset, messageType);
    WireFramesAt(Route(cfg.appId, cfg.appDevicePort, cfg.appSidePort, messageType), Fragments(h, data), i, clock);
    r := Pass;
  }

  /** The loop of sendHmProtocol for non-empty data on an existing
      transport: every iteration checks the transport, cuts the next fragment
      at the running offset, and sends it as the next seqId. Nothing can change
      between iterations, so the loop either hands every frame to the
      transport or fails before the first one. */
  method SendChunks(t: Transport, cfg: Config, traceId: nat, spanId: nat, data: Bytes,
                    payloadType: byte, contentType: byte, dataType: byte,
                    messageType: u16, clock: nat)
    returns (r: Outcome)
    requires |data| > 0
    modifies t
    ensures r == SendVerdict(true, old(t.probe), traceId, spanId, |data|)
    ensures r.Pass? ==>
      var h := SendHeader(traceId, spanId, payloadType, contentType, dataType, clock);
      var route := Route(cfg.appId, cfg.appDevicePort, cfg.appSidePort, messageType);
      t.sent == old(t.sent) + WireFrames(route, Fragments(h, data), clock)
    ensures r.Fail? ==> t.sent == old(t.sent)
    ensures t.probe == old(t.probe)
  {
    var n := |data|;
    var count := ChunkCount(n);
    ChunkCountBounds(n);
    ghost var route := Route(cfg.appId, cfg.appDevicePort, cfg.appSidePort, messageType);
    ghost var planned := Planned(route, traceId, spanId, payloadType, contentType, dataType, data, clock);
    var offset := 0;
    var seqId := 0;
    var i := 0;
    while i < count
      modifies t
      invariant 0 <= i <= count && seqId == i
      invariant offset == if i == count then n else i * CHUNK_DATA
      invariant i > 0 ==> !t.ReportsDown() && FitsHeader(traceId, spanId, n)
      invariant t.probe == old(t.probe)
      invariant t.sent == old(t.sent) + planned[..i]
    {
      r, offset := SendIteration(t, cfg, traceId, spanId, data, payloadType, contentType, dataType,
                                 messageType, clock, i, offset);
      if r.Fail? {
        return;
      }
      PrefixSnoc(planned, i);
      AppendAssoc(old(t.sent), planned[..i], [planned[i]]);
      seqId := seqId + 1;
      i := i + 1;
    }
    PrefixWhole(planned);
    r := Pass;
  }
}
