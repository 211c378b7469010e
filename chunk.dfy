/** The chunk ("HmProto" payload) codec of the split version (core.js,
    serializePayload and deserializePayload): a fixed 66-byte little-endian
    header followed by the fragment bytes.

      offset  0 traceId u32      offset 24 payloadType u8     offset 54 contentType u8
      offset  4 parentId u32     offset 25 opCode u8          offset 55 dataType u8
      offset  8 spanId u32       offset 26 timestamp1..7 u32  offset 56 extra1 u16
      offset 12 seqId u32                  (28 bytes)         offset 58 extra2 u32
      offset 16 totalLength u32                               offset 62 extra3 u32
      offset 20 payloadLength u32                             offset 66 fragment bytes */
module ChunkCodec {
  import opened Common
  import opened Constants
  import opened FrameCodec
  import Util

  /** The Payload record. A numeric property the caller left out is
      represented by 0, which is what the encoder writes for it. */
  datatype Payload = Payload(
    traceId: u32, parentId: u32, spanId: u32, seqId: u32,
    totalLength: u32, payloadLength: u32,
    payloadType: byte, opCode: byte,
    timestamp1: u32, timestamp2: u32, timestamp3: u32, timestamp4: u32,
    timestamp5: u32, timestamp6: u32, timestamp7: u32,
    contentType: byte, dataType: byte,
    extra1: u16, extra2: u32, extra3: u32,
    payload: Body)

  /** The timestamp1 that is written: the record's own, or the current
      timestamp when the record has 0 (or nothing) there. */
  function EffectiveTimestamp1(p: Payload, clock: nat): u32
  {
    if p.timestamp1 != 0 then p.timestamp1 else Util.GetTimestamp(clock)
  }

  function IdFields(p: Payload): (r: Bytes)
    ensures |r| == 24
  {
    LE32(p.traceId) + LE32(p.parentId) + LE32(p.spanId) + LE32(p.seqId)
      + LE32(p.totalLength) + LE32(p.payloadLength)
  }

  function TimeFields(p: Payload, t1: u32): (r: Bytes)
    ensures |r| == 28
  {
    LE32(t1) + LE32(p.timestamp2) + LE32(p.timestamp3) + LE32(p.timestamp4)
      + LE32(p.timestamp5) + LE32(p.timestamp6) + LE32(p.timestamp7)
  }

  function ExtraFields(p: Payload): (r: Bytes)
    ensures |r| == 10
  {
    LE16(p.extra1) + LE32(p.extra2) + LE32(p.extra3)
  }

  /** The 66 header bytes in wire order. */
  function ChunkHeader(p: Payload, clock: nat): (r: Bytes)
    ensures |r| == HM_MESSAGE_PROTO_HEADER
  {
    IdFields(p) + [p.payloadType, p.opCode] + TimeFields(p, EffectiveTimestamp1(p, clock))
      + [p.contentType, p.dataType] + ExtraFields(p)
  }

  /** The bytes of a chunk whose payload is present. */
  function EncodeChunk(p: Payload, clock: nat): (r: Bytes)
    requires !p.payload.Absent?
    ensures |r| == HM_MESSAGE_PROTO_HEADER + |p.payload.bytes|
  {
    ChunkHeader(p, clock) + p.payload.bytes
  }

  /** What deserializePayload reads: a failing read when the header does not
      fit, otherwise the twenty header fields and the remaining suffix. */
  function DecodeChunk(buf: Bytes): (r: Result<Payload>)
    ensures r.Ok? <==> |buf| >= HM_MESSAGE_PROTO_HEADER
    ensures r.Err? ==> r.error == RangeError
    ensures r.Ok? ==> r.value.payload == Buf(buf[HM_MESSAGE_PROTO_HEADER..])
  {
    if |buf| < HM_MESSAGE_PROTO_HEADER then Err(RangeError)
    else Ok(Payload(
      ReadU32LE(buf, 0), ReadU32LE(buf, 4), ReadU32LE(buf, 8), ReadU32LE(buf, 12),
      ReadU32LE(buf, 16), ReadU32LE(buf, 20),
      buf[24], buf[25],
      ReadU32LE(buf, 26), ReadU32LE(buf, 30), ReadU32LE(buf, 34), ReadU32LE(buf, 38),
      ReadU32LE(buf, 42), ReadU32LE(buf, 46), ReadU32LE(buf, 50),
      buf[54], buf[55],
      ReadU16LE(buf, 56), ReadU32LE(buf, 58), ReadU32LE(buf, 62),
      Buf(buf[HM_MESSAGE_PROTO_HEADER..])))
  }

  /** The fragment bytes a chunk carries (none when its payload is absent). */
  function Fragment(p: Payload): Bytes
  {
    if p.payload.Absent? then [] else p.payload.bytes
  }

  /** Buffer.concat over the fragments of a list of chunks, in list order. */
  function Concat(ps: seq<Payload>): Bytes
  {
    if ps == [] then [] else Concat(ps[..|ps| - 1]) + Fragment(ps[|ps| - 1])
  }

  /** The six u32 identity and length fields, written at a running offset. */
  method WriteIdFields(buf: array<byte>, off: nat, c: Payload) returns (next: nat)
    requires off + 24 <= buf.Length
    modifies buf
    ensures next == off + 24
    ensures buf[..next] == old(buf[..off]) + IdFields(c)
  {
    ghost var o := buf[..off];
    next := WriteU32LE(buf, off, c.traceId);
    next := WriteU32LE(buf, next, c.parentId);
    AppendAssoc(o, LE32(c.traceId), LE32(c.parentId));
    ghost var w := LE32(c.traceId) + LE32(c.parentId);
    next := WriteU32LE(buf, next, c.spanId);
    AppendAssoc(o, w, LE32(c.spanId));
    w := w + LE32(c.spanId);
    next := WriteU32LE(buf, next, c.seqId);
    AppendAssoc(o, w, LE32(c.seqId));
    w := w + LE32(c.seqId);
    next := WriteU32LE(buf, next, c.totalLength);
    AppendAssoc(o, w, LE32(c.totalLength));
    w := w + LE32(c.totalLength);
    next := WriteU32LE(buf, next, c.payloadLength);
    AppendAssoc(o, w, LE32(c.payloadLength));
  }

  /** The seven u32 timestamps, written at a running offset. */
  method WriteTimeFields(buf: array<byte>, off: nat, c: Payload, t1: u32) returns (next: nat)
    requires off + 28 <= buf.Length
    modifies buf
    ensures next == off + 28
    ensures buf[..next] == old(buf[..off]) + TimeFields(c, t1)
  {
    ghost var o := buf[..off];
    next := WriteU32LE(buf, off, t1);
    next := WriteU32LE(buf, next, c.timestamp2);
    AppendAssoc(o, LE32(t1), LE32(c.timestamp2));
    ghost var w := LE32(t1) + LE32(c.timestamp2);
    next := WriteU32LE(buf, next, c.timestamp3);
    AppendAssoc(o, w, LE32(c.timestamp3));
    w := w + LE32(c.timestamp3);
    next := WriteU32LE(buf, next, c.timestamp4);
    AppendAssoc(o, w, LE32(c.timestamp4));
    w := w + LE32(c.timestamp4);
    next := WriteU32LE(buf, next, c.timestamp5);
    AppendAssoc(o, w, LE32(c.timestamp5));
    w := w + LE32(c.timestamp5);
    next := WriteU32LE(buf, next, c.timestamp6);
    AppendAssoc(o, w, LE32(c.timestamp6));
    w := w + LE32(c.timestamp6);
    next := WriteU32LE(buf, next, c.timestamp7);
    AppendAssoc(o, w, LE32(c.timestamp7));
  }

  /** extra1 (u16), extra2 and extra3 (u32), written at a running offset. */
  method WriteExtraFields(buf: array<byte>, off: nat, c: Payload) returns (next: nat)
    requires off + 10 <= buf.Length
    modifies buf
    ensures next == off + 10
    ensures buf[..next] == old(buf[..off]) + ExtraFields(c)
  {
    ghost var o := buf[..off];
    next := WriteU16LE(buf, off, c.extra1);
    next := WriteU32LE(buf, next, c.extra2);
    AppendAssoc(o, LE16(c.extra1), LE32(c.extra2));
    next := WriteU32LE(buf, next, c.extra3);
    AppendAssoc(o, LE16(c.extra1) + LE32(c.extra2), LE32(c.extra3));
  }

  /** Two u8 fields, written at a running offset. */
  method WriteU8Pair(buf: array<byte>, off: nat, x: byte, y: byte) returns (next: nat)
    requires off + 2 <= buf.Length
    modifies buf
    ensures next == off + 2
    ensures buf[..next] == old(buf[..off]) + [x, y]
  {
    next := WriteU8(buf, off, x);
    next := WriteU8(buf, next, y);
  }

  /** The 66 header bytes, written field by field from offset 0. */
  method WriteChunkHeader(buf: array<byte>, c: Payload, clock: nat)
    requires HM_MESSAGE_PROTO_HEADER <= buf.Length
    modifies buf
    ensures buf[..HM_MESSAGE_PROTO_HEADER] == ChunkHeader(c, clock)
  {
    ghost var o := buf[..0];
    var offset := WriteIdFields(buf, 0, c);
    offset := WriteU8Pair(buf, offset, c.payloadType, c.opCode);
    AppendAssoc(o, IdFields(c), [c.payloadType, c.opCode]);
    ghost var w := IdFields(c) + [c.payloadType, c.opCode];
    var t1 := if c.timestamp1 != 0 then c.timestamp1 else Util.GetTimestamp(clock);
    offset := WriteTimeFields(buf, offset, c, t1);
    AppendAssoc(o, w, TimeFields(c, t1));
    w := w + TimeFields(c, t1);
    offset := WriteU8Pair(buf, offset, c.contentType, c.dataType);
    AppendAssoc(o, w, [c.contentType, c.dataType]);
    w := w + [c.contentType, c.dataType];
    offset := WriteExtraFields(buf, offset, c);
    AppendAssoc(o, w, ExtraFields(c));
    assert o == [];
  }

  /** serializePayload: fails unless the record and a Buffer payload are
      present; otherwise writes the header at a running offset (absent numbers
      as 0, timestamp1 defaulting to the current timestamp) and copies the
      fragment after it. The declared payloadLength is written as given. */
  method SerializePayload(p: Option<Payload>, clock: nat) returns (r: Result<Bytes>)
    ensures r.Ok? <==> p.Some? && p.value.payload.Buf?
    ensures r.Err? ==> r.error == PayloadRequired
    ensures r.Ok? ==> r.value == EncodeChunk(p.value, clock)
  {
    if p.None? || !p.value.payload.Buf? {
      return Err(PayloadRequired);
    }
    var c := p.value;
    var data := c.payload.bytes;
    var buf := new byte[HM_MESSAGE_PROTO_HEADER + |data|];
    WriteChunkHeader(buf, c, clock);
    CopyInto(buf, HM_MESSAGE_PROTO_HEADER, data);
    r := Ok(buf[..]);
  }

  /** deserializePayload: reads the header fields at a running offset and
      returns the rest of the buffer as the fragment. */
  method DeserializePayload(buf: Bytes) returns (r: Result<Payload>)
    ensures r == DecodeChunk(buf)
  {
    if |buf| < HM_MESSAGE_PROTO_HEADER {
      return Err(RangeError);
    }
    var offset := 0;
    var traceId := ReadU32LE(buf, offset);
    offset := offset + 4;
    var parentId := ReadU32LE(buf, offset);
    offset := offset + 4;
    var spanId := ReadU32LE(buf, offset);
    offset := offset + 4;
    var seqId := ReadU32LE(buf, offset);
    offset := offset + 4;
    var totalLength := ReadU32LE(buf, offset);
    offset := offset + 4;
    var payloadLength := ReadU32LE(buf, offset);
    offset := offset + 4;
    var payloadType := buf[offset];
    offset := offset + 1;
    var opCode := buf[offset];
    offset := offset + 1;
    var t1 := ReadU32LE(buf, offset);
    offset := offset + 4;
    var t2 := ReadU32LE(buf, offset);
    offset := offset + 4;
    var t3 := ReadU32LE(buf, offset);
    offset := offset + 4;
    var t4 := ReadU32LE(buf, offset);
    offset := offset + 4;
    var t5 := ReadU32LE(buf, offset);
    offset := offset + 4;
    var t6 := ReadU32LE(buf, offset);
    offset := offset + 4;
    var t7 := ReadU32LE(buf, offset);
    offset := offset + 4;
    var contentType := buf[offset];
    offset := offset + 1;
    var dataType := buf[offset];
    offset := offset + 1;
    var extra1 := ReadU16LE(buf, offset);
    offset := offset + 2;
    var extra2 := ReadU32LE(buf, offset);
    offset := offset + 4;
    var extra3 := ReadU32LE(buf, offset);
    offset := offset + 4;
    r := Ok(Payload(traceId, parentId, spanId, seqId, totalLength, payloadLength,
                    payloadType, opCode, t1, t2, t3, t4, t5, t6, t7,
                    contentType, dataType, extra1, extra2, extra3, Buf(buf[offset..])));
  }

  /** Where the identity fields and the first two type bytes land. */
  lemma IdLayout(p: Payload, clock: nat)
    requires !p.payload.Absent?
    ensures var e := EncodeChunk(p, clock);
      && e[0..4] == LE32(p.traceId) && e[4..8] == LE32(p.parentId)
      && e[8..12] == LE32(p.spanId) && e[12..16] == LE32(p.seqId)
      && e[16..20] == LE32(p.totalLength) && e[20..24] == LE32(p.payloadLength)
      && e[24] == p.payloadType && e[25] == p.opCode
  {
    var e := EncodeChunk(p, clock);
    var ids := IdFields(p);
    assert e[..24] == ids;
    assert e[0..4] == ids[0..4] && e[4..8] == ids[4..8] && e[8..12] == ids[8..12];
    assert e[12..16] == ids[12..16] && e[16..20] == ids[16..20] && e[20..24] == ids[20..24];
  }

  /** Where the seven timestamps land. */
  lemma TimeLayout(p: Payload, clock: nat)
    requires !p.payload.Absent?
    ensures var e := EncodeChunk(p, clock);
      && e[26..30] == LE32(EffectiveTimestamp1(p, clock))
      && e[30..34] == LE32(p.timestamp2) && e[34..38] == LE32(p.timestamp3)
      && e[38..42] == LE32(p.timestamp4) && e[42..46] == LE32(p.timestamp5)
      && e[46..50] == LE32(p.timestamp6) && e[50..54] == LE32(p.timestamp7)
  {
    var e := EncodeChunk(p, clock);
    var times := TimeFields(p, EffectiveTimestamp1(p, clock));
    assert e[26..54] == times;
    assert e[26..30] == times[0..4] && e[30..34] == times[4..8] && e[34..38] == times[8..12];
    assert e[38..42] == times[12..16] && e[42..46] == times[16..20];
    assert e[46..50] == times[20..24] && e[50..54] == times[24..28];
  }

  /** Where the last two type bytes, the extra fields and the fragment land. */
  lemma ExtraLayout(p: Payload, clock: nat)
    requires !p.payload.Absent?
    ensures var e := EncodeChunk(p, clock);
      && e[54] == p.contentType && e[55] == p.dataType
      && e[56..58] == LE16(p.extra1) && e[58..62] == LE32(p.extra2)
      && e[62..66] == LE32(p.extra3) && e[66..] == p.payload.bytes
  {
    var e := EncodeChunk(p, clock);
    var extras := ExtraFields(p);
    assert e[56..66] == extras;
    assert e[56..58] == extras[0..2] && e[58..62] == extras[2..6] && e[62..66] == extras[6..10];
  }

  /** Decoding an encoded chunk restores every header field, with timestamp1
      replaced by the current timestamp when the record had 0 there, and the
      fragment bytes. */
  lemma {:induction false} ChunkRoundTrip(p: Payload, clock: nat)
    requires !p.payload.Absent?
    ensures DecodeChunk(EncodeChunk(p, clock))
         == Ok(p.(timestamp1 := EffectiveTimestamp1(p, clock), payload := Buf(p.payload.bytes)))
  {
    var e := EncodeChunk(p, clock);
    IdLayout(p, clock);
    TimeLayout(p, clock);
    ExtraLayout(p, clock);
    LE32Read(e, 0, p.traceId);
    LE32Read(e, 4, p.parentId);
    LE32Read(e, 8, p.spanId);
    LE32Read(e, 12, p.seqId);
    LE32Read(e, 16, p.totalLength);
    LE32Read(e, 20, p.payloadLength);
    LE32Read(e, 26, EffectiveTimestamp1(p, clock));
    LE32Read(e, 30, p.timestamp2);
    LE32Read(e, 34, p.timestamp3);
    LE32Read(e, 38, p.timestamp4);
    LE32Read(e, 42, p.timestamp5);
    LE32Read(e, 46, p.timestamp6);
    LE32Read(e, 50, p.timestamp7);
    LE16Read(e, 56, p.extra1);
    LE32Read(e, 58, p.extra2);
    LE32Read(e, 62, p.extra3);
  }

  /** With timestamp1 set, the round trip is the identity on records with a
      Buffer payload. */
  lemma ChunkRoundTripExact(p: Payload, clock: nat)
    requires p.payload.Buf? && p.timestamp1 != 0
    ensures DecodeChunk(EncodeChunk(p, clock)) == Ok(p)
  {
    ChunkRoundTrip(p, clock);
  }

  /** The encoder does not check the declared payloadLength against the
      fragment: a mismatch is carried unchanged to the receiver. */
  lemma {:induction false} DeclaredLengthSurvives(p: Payload, clock: nat)
    requires !p.payload.Absent? && p.payloadLength != |p.payload.bytes|
    ensures var d := DecodeChunk(EncodeChunk(p, clock));
      d.Ok? && d.value.payloadLength == p.payloadLength
      && d.value.payloadLength != |d.value.payload.bytes|
  {
    ChunkRoundTrip(p, clock);
  }
}
