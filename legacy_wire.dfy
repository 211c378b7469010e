/** The wire side of the single-file version (message.js): the link it
    sends through, buildBin with its frame-budget check, buildPayload with
    the fragment's real length, and the loop of sendHmProtocol, which sends
    nothing for empty data and, on the side, bare chunks without a frame.
    readBin and readPayload read the same layouts as the split decoders
    (FrameCodec.DeserializeMessage and ChunkCodec.DeserializePayload), which
    model them too. */
module LegacyWire {
  import opened Common
  import opened Constants
  import opened FrameCodec
  import opened ChunkCodec
  import opened Link
  import Util
  import Fragmenter

  /** The link: the native BLE object on the device, the companion's peer
      socket on the side. */
  class Radio {
    /** What ble.connectStatus() answers. */
    var connected: bool
    /** What ble.send answers to its k-th call (counting from 0): false
        when the native layer refuses that buffer. */
    const answers: nat -> bool
    /** How many times ble.send has been called. */
    var calls: nat
    /** Every buffer that went out, oldest first. */
    var sent: seq<Bytes>

    constructor (connected: bool, answers: nat -> bool)
      ensures this.connected == connected && this.answers == answers && calls == 0 && sent == []
    {
      this.connected := connected;
      this.answers := answers;
      calls := 0;
      sent := [];
    }

    /** ble.send: the buffer goes out only when the native layer accepts it;
        each call is asked anew. */
    method Send(buf: Bytes) returns (ok: bool)
      modifies this`sent, this`calls
      ensures ok == answers(old(calls)) && calls == old(calls) + 1
      ensures sent == if ok then old(sent) + [buf] else old(sent)
    {
      ok := answers(calls);
      calls := calls + 1;
      if ok {
        sent := sent + [buf];
      }
    }

    /** messaging.peerSocket.send: the buffer is always handed over. */
    method Post(buf: Bytes)
      modifies this`sent
      ensures sent == old(sent) + [buf]
    {
      sent := sent + [buf];
    }

    /** The BLE link going up or down underneath the builder. */
    method SetConnected(up: bool)
      modifies this`connected
      ensures connected == up
    {
      connected := up;
    }
  }

  /** errorIfBleDisconnect: only the device checks the link. */
  predicate BleDown(isDevice: bool, connected: bool)
  {
    isDevice && !connected
  }

  /** sendMsg, bound by getSafeSend: sendBin on the device, which throws when
      ble.send refuses the buffer; sendBinBySide on the side. */
  method SendMsg(radio: Radio, isDevice: bool, buf: Bytes) returns (r: Outcome)
    modifies radio`sent, radio`calls
    ensures r == if isDevice && !radio.answers(old(radio.calls)) then Fail(SendRefused) else Pass
    ensures radio.sent == if r.Pass? then old(radio.sent) + [buf] else old(radio.sent)
    ensures radio.calls == old(radio.calls) + (if isDevice then 1 else 0)
  {
    if isDevice {
      var ok := radio.Send(buf);
      if !ok {
        return Fail(SendRefused);
      }
    } else {
      radio.Post(buf);
    }
    r := Pass;
  }

  /** buildBin: a payload over the 3584-byte frame budget throws; otherwise
      the 16-byte header is written at a running offset and the payload
      copied after it, and the frame decodes back to the message. */
  method BuildBin(m: Message) returns (r: Result<Bytes>)
    requires !m.payload.Absent?
    ensures r.Ok? <==> |m.payload.bytes| <= MESSAGE_PAYLOAD
    ensures r.Err? ==> r.error == PayloadTooLarge
    ensures r.Ok? ==> r.value == EncodeFrame(m) && |r.value| == MESSAGE_HEADER + |m.payload.bytes|
    ensures r.Ok? ==> DecodeFrame(r.value) == Ok(m.(payload := Buf(m.payload.bytes)))
  {
    if |m.payload.bytes| > MESSAGE_PAYLOAD {
      return Err(PayloadTooLarge);
    }
    var written := SerializeMessage(Some(m.(payload := Buf(m.payload.bytes))));
    FrameRoundTrip(m);
    r := Ok(written.value);
  }

  /** The record sendDataWithSession hands to buildPayload. */
  datatype Outgoing = Outgoing(
    traceId: nat, spanId: nat, seqId: nat, totalLength: nat,
    payloadType: byte, opCode: byte, contentType: byte, dataType: byte,
    fragment: Bytes)

  /** Whether every number buildPayload writes fits its u32 field
      (writeUInt32LE throws a RangeError otherwise). */
  predicate Fits(o: Outgoing)
  {
    && o.traceId < 0x1_0000_0000 && o.spanId < 0x1_0000_0000
    && o.seqId < 0x1_0000_0000 && o.totalLength < 0x1_0000_0000
    && |o.fragment| < 0x1_0000_0000
  }

  /** The header buildPayload writes for a record: parentId, timestamps 2..7
      and the extras 0, timestamp1 the current timestamp, and payloadLength
      the fragment's byte length. */
  function Stamped(o: Outgoing, clock: nat): Payload
    requires Fits(o)
  {
    Payload(o.traceId, 0, o.spanId, o.seqId, o.totalLength, |o.fragment|,
            o.payloadType, o.opCode, Util.GetTimestamp(clock), 0, 0, 0, 0, 0, 0,
            o.contentType, o.dataType, 0, 0, 0, Buf(o.fragment))
  }

  /** buildPayload: the 66-byte header written at a running offset, then the
      fragment. A receiver's readPayload recovers every field of the record,
      with payloadLength the real fragment length. */
  method BuildPayload(o: Outgoing, clock: nat) returns (r: Result<Bytes>)
    ensures r.Ok? <==> Fits(o)
    ensures r.Err? ==> r.error == RangeError
    ensures r.Ok? ==> r.value == EncodeChunk(Stamped(o, clock), clock)
    ensures r.Ok? ==> |r.value| == HM_MESSAGE_PROTO_HEADER + |o.fragment|
    ensures r.Ok? ==>
      var d := DecodeChunk(r.value);
      && d.Ok? && d.value.traceId == o.traceId && d.value.spanId == o.spanId
      && d.value.seqId == o.seqId && d.value.totalLength == o.totalLength
      && d.value.payloadLength == |o.fragment|
      && d.value.payloadType == o.payloadType && d.value.opCode == o.opCode
      && d.value.contentType == o.contentType && d.value.dataType == o.dataType
      && d.value.payload == Buf(o.fragment)
  {
    if !Fits(o) {
      return Err(RangeError);
    }
    var written := SerializePayload(Some(Stamped(o, clock)), clock);
    ChunkRoundTrip(Stamped(o, clock), clock);
    r := Ok(written.value);
  }

  /** The records the loop of sendHmProtocol builds, in emission order:
      Math.ceil(n / 3518) of them cut at multiples of 3518, only the last
      Finished, and none at all for empty data. */
  function Cut(traceId: nat, spanId: nat, payloadType: byte, contentType: byte, dataType: byte,
               data: Bytes): (r: seq<Outgoing>)
    ensures |r| == Fragmenter.ChunkCount(|data|)
  {
    var n := |data|;
    if n == 0 then []
    else
      Fragmenter.ChunkCountBounds(n);
      seq(Fragmenter.ChunkCount(n), i requires 0 <= i < Fragmenter.ChunkCount(n) =>
        Outgoing(traceId, spanId, i, n, payloadType,
                 if i == Fragmenter.ChunkCount(n) - 1 then FINISHED else CONTINUED,
                 contentType, dataType, data[i * Fragmenter.CHUNK_DATA..Fragmenter.FragmentEnd(n, i)]))
  }

  /** How every frame of a send is addressed: buildData's Data frame from the
      application's id and ports. */
  function DataRoute(cfg: Config): Fragmenter.Route
    reads cfg
  {
    Fragmenter.Route(cfg.appId, cfg.appDevicePort, cfg.appSidePort, TYPE_DATA)
  }

  /** What sendDataWithSession hands to sendMsg for one record: on the device
      the chunk inside a Data frame (buildData), on the side the bare chunk. */
  function WireOf(isDevice: bool, route: Fragmenter.Route, o: Outgoing, clock: nat): Bytes
    requires Fits(o)
  {
    if isDevice then Fragmenter.WireFrame(route, Stamped(o, clock), clock)
    else EncodeChunk(Stamped(o, clock), clock)
  }

  /** How many native sends in a row, starting with call `from`, the
      native layer accepts, counting at most k of them. */
  function AcceptedRun(answers: nat -> bool, from: nat, k: nat): (r: nat)
    ensures r <= k
    ensures forall j :: from <= j < from + r ==> answers(j)
    ensures r < k ==> !answers(from + r)
    decreases k
  {
    if k == 0 || !answers(from) then 0 else 1 + AcceptedRun(answers, from + 1, k - 1)
  }

  /** How a send ends: empty data sends nothing and succeeds; otherwise the
      first iteration's link check, then the range check of the header
      fields, then the native send of every chunk in turn decide (the
      device's ble.send is asked once per chunk, from call `from` on). */
  function LegacyVerdict(isDevice: bool, connected: bool, answers: nat -> bool, from: nat,
                         traceId: nat, spanId: nat, n: nat): Outcome
  {
    if n == 0 then Pass
    else if BleDown(isDevice, connected) then Fail(MessageError(BleClose))
    else if !Fragmenter.FitsHeader(traceId, spanId, n) then Fail(RangeError)
    else if isDevice && AcceptedRun(answers, from, Fragmenter.ChunkCount(n)) < Fragmenter.ChunkCount(n)
    then Fail(SendRefused)
    else Pass
  }

  /** The frames of a plan that reach the link: all of them when the send
      passes, the ones accepted before the native layer refused one, and
      none after a failure that comes before any native send. */
  function Delivered<T>(planned: seq<T>, r: Outcome, accepted: nat): (d: seq<T>)
    ensures |d| <= |planned|
  {
    if r.Pass? then planned
    else if r == Fail(SendRefused) && accepted <= |planned| then planned[..accepted]
    else []
  }

  /** How many times a send calls ble.send: once per delivered frame on the
      device, plus the refused one; never on the side. */
  function NativeCalls(isDevice: bool, r: Outcome, delivered: nat): nat
  {
    if !isDevice then 0 else delivered + (if r == Fail(SendRefused) then 1 else 0)
  }

  /** Every record of a cut whose ids and length fit is writable and fits a
      Data frame. */
  lemma CutFits(traceId: nat, spanId: nat, payloadType: byte, contentType: byte, dataType: byte,
                data: Bytes)
    requires Fragmenter.FitsHeader(traceId, spanId, |data|)
    ensures var c := Cut(traceId, spanId, payloadType, contentType, dataType, data);
      forall i :: 0 <= i < |c| ==>
        Fits(c[i]) && |c[i].fragment| <= Fragmenter.CHUNK_DATA
        && HM_MESSAGE_PROTO_HEADER + |c[i].fragment| <= MESSAGE_PAYLOAD
  {
    if |data| > 0 {
      Fragmenter.ChunkCountBounds(|data|);
    }
  }

  /** The frames of a send whose ids and length fit (none otherwise). */
  ghost function Planned(isDevice: bool, route: Fragmenter.Route, traceId: nat, spanId: nat,
                         payloadType: byte, contentType: byte, dataType: byte, data: Bytes, clock: nat)
    : (r: seq<Bytes>)
    ensures Fragmenter.FitsHeader(traceId, spanId, |data|) ==> |r| == Fragmenter.ChunkCount(|data|)
  {
    if Fragmenter.FitsHeader(traceId, spanId, |data|) then
      var c := Cut(traceId, spanId, payloadType, contentType, dataType, data);
      CutFits(traceId, spanId, payloadType, contentType, dataType, data);
      seq(|c|, i requires 0 <= i < |c| => WireOf(isDevice, route, c[i], clock))
    else []
  }

  /** sendDataWithSession: encode the record, wrap it in a Data frame on the
      device, and send it. */
  method SendDataWithSession(radio: Radio, isDevice: bool, cfg: Config, o: Outgoing, clock: nat)
    returns (r: Outcome)
    requires |o.fragment| <= Fragmenter.CHUNK_DATA
    modifies radio`sent, radio`calls
    ensures r == if !Fits(o) then Fail(RangeError)
                 else if isDevice && !radio.answers(old(radio.calls)) then Fail(SendRefused) else Pass
    ensures r.Pass? ==> radio.sent == old(radio.sent) + [WireOf(isDevice, DataRoute(cfg), o, clock)]
    ensures r.Fail? ==> radio.sent == old(radio.sent)
    ensures radio.calls == old(radio.calls) + (if isDevice && Fits(o) then 1 else 0)
  {
    var payloadBin := BuildPayload(o, clock);
    if payloadBin.Err? {
      return Fail(payloadBin.error);
    }
    var data := payloadBin.value;
    if isDevice {
      var framed := BuildBin(Message(FLAG_APP, VERSION_1, TYPE_DATA, cfg.appDevicePort, cfg.appSidePort,
                                     cfg.appId, 0, Buf(payloadBin.value)));
      data := framed.value;
    }
    r := SendMsg(radio, isDevice, data);
  }

  /** One pass of the loop body: the link check, then record i of the cut is
      built at the running offset and sent. */
  method SendIteration(radio: Radio, isDevice: bool, cfg: Config, traceId: nat, spanId: nat,
                       data: Bytes, payloadType: byte, contentType: byte, dataType: byte, clock: nat,
                       i: nat, offset: nat)
    returns (r: Outcome, next: nat)
    requires |data| > 0 && i < Fragmenter.ChunkCount(|data|) && offset == i * Fragmenter.CHUNK_DATA
    modifies radio`sent, radio`calls
    ensures r == if BleDown(isDevice, radio.connected) then Fail(MessageError(BleClose))
                 else if !Fragmenter.FitsHeader(traceId, spanId, |data|) then Fail(RangeError)
                 else if isDevice && !radio.answers(old(radio.calls)) then Fail(SendRefused)
                 else Pass
    ensures r.Fail? ==> radio.sent == old(radio.sent)
    ensures radio.calls == old(radio.calls)
      + (if isDevice && !BleDown(isDevice, radio.connected) && Fragmenter.FitsHeader(traceId, spanId, |data|)
         then 1 else 0)
    ensures r.Pass? ==>
      && next == (if i + 1 == Fragmenter.ChunkCount(|data|) then |data| else (i + 1) * Fragmenter.CHUNK_DATA)
      && radio.sent == old(radio.sent)
           + [Planned(isDevice, DataRoute(cfg), traceId, spanId, payloadType, contentType, dataType, data, clock)[i]]
  {
    if BleDown(isDevice, radio.connected) {
      return Fail(MessageError(BleClose)), offset;
    }
    var n := |data|;
    Fragmenter.ChunkCountBounds(n);
    var last := i == Fragmenter.ChunkCount(n) - 1;
    var size := if last then n - offset else Fragmenter.CHUNK_DATA;
    var o := Outgoing(traceId, spanId, i, n, payloadType, if last then FINISHED else CONTINUED,
                      contentType, dataType, data[offset..offset + size]);
    assert Fragmenter.FitsHeader(traceId, spanId, n) ==>
      o == Cut(traceId, spanId, payloadType, contentType, dataType, data)[i];
    r := SendDataWithSession(radio, isDevice, cfg, o, clock);
    if r.Fail? && !Fragmenter.FitsHeader(traceId, spanId, n) {
      return Fail(RangeError), offset;
    }
    next := offset + size;
  }

  /** sendHmProtocol: the given request id as traceId (a fresh trace id when
      it is 0) and always a fresh span id; then every iteration checks the
      link and sends the next record. The link and the ids do not change
      between iterations, so only the first can fail on them; on the device
      each chunk's ble.send may still refuse, and the frames accepted before
      that refusal have gone out when the send throws. */
  method SendHmProtocol(radio: Radio, isDevice: bool, cfg: Config, ids: Util.IdGen, requestId: nat,
                        data: Bytes, payloadType: byte, contentType: byte, dataType: byte, clock: nat)
    returns (r: Outcome)
    requires ids.Valid()
    modifies radio`sent, radio`calls, ids
    ensures ids.Valid()
    ensures ids.nextSpan == old(ids.nextSpan) + 1
    ensures ids.nextTrace == old(ids.nextTrace) + (if requestId == 0 then 1 else 0)
    ensures var traceId := if requestId != 0 then requestId else old(ids.nextTrace);
      var planned := Planned(isDevice, DataRoute(cfg), traceId, old(ids.nextSpan), payloadType, contentType,
                             dataType, data, clock);
      var delivered := Delivered(planned, r,
                                 AcceptedRun(radio.answers, old(radio.calls), Fragmenter.ChunkCount(|data|)));
      && r == LegacyVerdict(isDevice, radio.connected, radio.answers, old(radio.calls), traceId, old(ids.nextSpan),
                            |data|)
      && radio.sent == old(radio.sent) + delivered
      && radio.calls == old(radio.calls) + NativeCalls(isDevice, r, |delivered|)
  {
    var traceId := requestId;
    if requestId == 0 {
      traceId := ids.GenTraceId();
    }
    var spanId := ids.GenSpanId();
    if |data| == 0 {
      return Pass;
    }
    r := SendRecords(radio, isDevice, cfg, traceId, spanId, data, payloadType, contentType, dataType, clock);
  }

  /** The loop of sendHmProtocol for non-empty data under drawn ids. */
  method SendRecords(radio: Radio, isDevice: bool, cfg: Config, traceId: nat, spanId: nat,
                     data: Bytes, payloadType: byte, contentType: byte, dataType: byte, clock: nat)
    returns (r: Outcome)
    requires |data| > 0
    modifies radio`sent, radio`calls
    ensures var planned := Planned(isDevice, DataRoute(cfg), traceId, spanId, payloadType, contentType,
                                   dataType, data, clock);
      var delivered := Delivered(planned, r,
                                 AcceptedRun(radio.answers, old(radio.calls), Fragmenter.ChunkCount(|data|)));
      && r == LegacyVerdict(isDevice, radio.connected, radio.answers, old(radio.calls), traceId, spanId, |data|)
      && radio.sent == old(radio.sent) + delivered
      && radio.calls == old(radio.calls) + NativeCalls(isDevice, r, |delivered|)
  {
    var n := |data|;
    var count := Fragmenter.ChunkCount(n);
    ghost var from := radio.calls;
    ghost var planned := Planned(isDevice, DataRoute(cfg), traceId, spanId, payloadType, contentType, dataType,
                                 data, clock);
    Fragmenter.ChunkCountBounds(n);
    var offset := 0;
    var i := 0;
    while i < count
      modifies radio`sent, radio`calls
      invariant 0 <= i <= count
      invariant offset == if i == count then n else i * Fragmenter.CHUNK_DATA
      invariant i > 0 ==> !BleDown(isDevice, radio.connected) && Fragmenter.FitsHeader(traceId, spanId, n)
      invariant isDevice ==> forall j :: from <= j < from + i ==> radio.answers(j)
      invariant radio.calls == from + (if isDevice then i else 0)
      invariant radio.sent == old(radio.sent) + planned[..i]
    {
      r, offset := SendIteration(radio, isDevice, cfg, traceId, spanId, data, payloadType, contentType,
                                 dataType, clock, i, offset);
      if r.Fail? {
        if i > 0 {
          RefusedAt(radio.answers, from, count, i);
        }
        return;
      }
      PrefixSnoc(planned, i);
      AppendAssoc(old(radio.sent), planned[..i], [planned[i]]);
      i := i + 1;
    }
    if isDevice {
      RefusedAt(radio.answers, from, count, count);
    }
    PrefixWhole(planned);
    r := Pass;
  }

  /** The run of accepted native sends is exactly i long when the first i
      calls are accepted and the next one (if any is counted) is refused. */
  lemma RefusedAt(answers: nat -> bool, from: nat, k: nat, i: nat)
    requires i <= k
    requires forall j :: from <= j < from + i ==> answers(j)
    requires i < k ==> !answers(from + i)
    ensures AcceptedRun(answers, from, k) == i
  {
  }

  /** A device send whose native layer accepts the first k chunks and
      refuses the next one throws SendRefused with exactly those k frames
      already on the link, and calls ble.send k + 1 times. */
  lemma {:induction false} RefusedMidSend(answers: nat -> bool, from: nat, k: nat, planned: seq<Bytes>,
                                          traceId: nat, spanId: nat, n: nat)
    requires 0 < n && Fragmenter.FitsHeader(traceId, spanId, n)
    requires k < Fragmenter.ChunkCount(n) == |planned|
    requires forall j :: from <= j < from + k ==> answers(j)
    requires !answers(from + k)
    ensures LegacyVerdict(true, true, answers, from, traceId, spanId, n) == Fail(SendRefused)
    ensures Delivered(planned, Fail(SendRefused), AcceptedRun(answers, from, Fragmenter.ChunkCount(n)))
            == planned[..k]
    ensures NativeCalls(true, Fail(SendRefused), |planned[..k]|) == k + 1
  {
    RefusedAt(answers, from, Fragmenter.ChunkCount(n), k);
  }

  /** Where the versions differ on empty data: the single-file loop sends no
      chunk at all, the split fragmenter one empty Finished chunk. */
  lemma EmptyDataDiffers(h: Fragmenter.SendHeader)
    ensures Cut(h.traceId, h.spanId, h.payloadType, h.contentType, h.dataType, []) == []
    ensures |Fragmenter.Fragments(h, [])| == 1
  {
  }

  /** For non-empty data the two versions cut the same chunks: the records
      of the single-file loop, as buildPayload writes them, are the split
      fragmenter's chunks one for one. */
  lemma {:induction false} CutMatchesSplit(h: Fragmenter.SendHeader, data: Bytes)
    requires 0 < |data| < 0x1_0000_0000
    ensures var c := Cut(h.traceId, h.spanId, h.payloadType, h.contentType, h.dataType, data);
      && |c| == |Fragmenter.Fragments(h, data)|
      && forall i :: 0 <= i < |c| ==> Fits(c[i]) && Stamped(c[i], h.clock) == Fragmenter.Fragments(h, data)[i]
  {
    var c := Cut(h.traceId, h.spanId, h.payloadType, h.contentType, h.dataType, data);
    CutFits(h.traceId, h.spanId, h.payloadType, h.contentType, h.dataType, data);
    forall i | 0 <= i < |c|
      ensures Fits(c[i]) && Stamped(c[i], h.clock) == Fragmenter.Fragments(h, data)[i]
    {
      Fragmenter.FragmentAt(h, data, i);
    }
  }

  /** The receiving side of one frame: on the device the peer decodes a Data
      frame whose payload is the chunk, on the side it decodes the chunk
      directly; either way it gets back exactly the record as written. */
  lemma {:induction false} WireOfRoundTrip(isDevice: bool, route: Fragmenter.Route, o: Outgoing, clock: nat)
    requires Fits(o)
    ensures isDevice ==>
      var m := DecodeFrame(WireOf(isDevice, route, o, clock));
      && m.Ok? && m.value.msgType == route.messageType
      && DecodeChunk(m.value.payload.bytes) == Ok(Stamped(o, clock))
    ensures !isDevice ==> DecodeChunk(WireOf(isDevice, route, o, clock)) == Ok(Stamped(o, clock))
  {
    if isDevice {
      Fragmenter.WireFrameRoundTrip(route, Stamped(o, clock), clock);
    } else {
      ChunkRoundTrip(Stamped(o, clock), clock);
    }
  }
}
