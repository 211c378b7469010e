/** The frame codec of the split version (core.js, serializeMessage and
    deserializeMessage): a fixed 16-byte little-endian header
    flag u8 | version u8 | type u16 | port1 u16 | port2 u16 | appId u32 | extra u32
    followed by the payload bytes. */
module FrameCodec {
  import opened Common
  import opened Constants

  /** What a record's `payload` property holds: nothing, a Buffer, or a byte
      view that is not a Buffer (an ArrayBuffer view such as a Uint8Array). */
  datatype Body = Absent | Buf(bytes: Bytes) | View(bytes: Bytes)

  /** The Message record. */
  datatype Message = Message(
    flag: byte, version: byte, msgType: u16, port1: u16, port2: u16,
    appId: u32, extra: u32, payload: Body)

  /** The header bytes in wire order. */
  function FrameHeader(m: Message): (r: Bytes)
    ensures |r| == MESSAGE_HEADER
  {
    [m.flag, m.version] + LE16(m.msgType) + LE16(m.port1) + LE16(m.port2)
      + LE32(m.appId) + LE32(m.extra)
  }

  /** The bytes of a frame whose payload is present. */
  function EncodeFrame(m: Message): (r: Bytes)
    requires !m.payload.Absent?
    ensures |r| == MESSAGE_HEADER + |m.payload.bytes|
  {
    FrameHeader(m) + m.payload.bytes
  }

  /** What deserializeMessage reads from a buffer: a failing read when the
      header does not fit, otherwise the seven fields and the remaining suffix. */
  function DecodeFrame(buf: Bytes): (r: Result<Message>)
    ensures r.Ok? <==> |buf| >= MESSAGE_HEADER
    ensures r.Err? ==> r.error == RangeError
    ensures r.Ok? ==> r.value.payload == Buf(buf[MESSAGE_HEADER..])
  {
    if |buf| < MESSAGE_HEADER then Err(RangeError)
    else Ok(Message(buf[0], buf[1], ReadU16LE(buf, 2), ReadU16LE(buf, 4),
                    ReadU16LE(buf, 6), ReadU32LE(buf, 8), ReadU32LE(buf, 12),
                    Buf(buf[MESSAGE_HEADER..])))
  }

  /** serializeMessage: fails unless the message and a Buffer payload are
      present; otherwise writes the header field by field at a running offset
      and copies the payload after it. */
  method SerializeMessage(m: Option<Message>) returns (r: Result<Bytes>)
    ensures r.Ok? <==> m.Some? && m.value.payload.Buf?
    ensures r.Err? ==> r.error == PayloadRequired
    ensures r.Ok? ==> r.value == EncodeFrame(m.value)
    ensures r.Ok? ==> |r.value| == MESSAGE_HEADER + |m.value.payload.bytes|
  {
    if m.None? || !m.value.payload.Buf? {
      return Err(PayloadRequired);
    }
    var msg := m.value;
    var p := msg.payload.bytes;
    var buf := new byte[MESSAGE_HEADER + |p|];
    var offset := 0;
    offset := WriteU8(buf, offset, msg.flag);
    offset := WriteU8(buf, offset, msg.version);
    offset := WriteU16LE(buf, offset, msg.msgType);
    offset := WriteU16LE(buf, offset, msg.port1);
    offset := WriteU16LE(buf, offset, msg.port2);
    offset := WriteU32LE(buf, offset, msg.appId);
    offset := WriteU32LE(buf, offset, msg.extra);
    assert buf[..offset] == FrameHeader(msg);
    CopyInto(buf, offset, p);
    r := Ok(buf[..]);
  }

  /** deserializeMessage: reads the header fields at a running offset and
      returns the rest of the buffer as the payload. */
  method DeserializeMessage(buf: Bytes) returns (r: Result<Message>)
    ensures r == DecodeFrame(buf)
  {
    if |buf| < MESSAGE_HEADER {
      return Err(RangeError);
    }
    var offset := 0;
    var flag := buf[offset];
    offset := offset + 1;
    var version := buf[offset];
    offset := offset + 1;
    var msgType := ReadU16LE(buf, offset);
    offset := offset + 2;
    var port1 := ReadU16LE(buf, offset);
    offset := offset + 2;
    var port2 := ReadU16LE(buf, offset);
    offset := offset + 2;
    var appId := ReadU32LE(buf, offset);
    offset := offset + 4;
    var extra := ReadU32LE(buf, offset);
    offset := offset + 4;
    r := Ok(Message(flag, version, msgType, port1, port2, appId, extra, Buf(buf[offset..])));
  }

  /** The header fields sit at offsets 0, 1, 2, 4, 6, 8 and 12 and the payload
      starts at offset 16. */
  lemma FrameLayout(m: Message)
    requires !m.payload.Absent?
    ensures var e := EncodeFrame(m);
      && e[0] == m.flag && e[1] == m.version
      && e[2..4] == LE16(m.msgType) && e[4..6] == LE16(m.port1)
      && e[6..8] == LE16(m.port2) && e[8..12] == LE32(m.appId)
      && e[12..16] == LE32(m.extra) && e[16..] == m.payload.bytes
  {
    var e := EncodeFrame(m);
    var h := FrameHeader(m);
    assert e[..16] == h;
    assert e[2..4] == h[2..4];
    assert e[4..6] == h[4..6];
    assert e[6..8] == h[6..8];
    assert e[8..12] == h[8..12];
    assert e[12..16] == h[12..16];
  }

  /** Decoding an encoded frame gives back every field and the payload bytes
      (a byte view comes back as a Buffer). */
  lemma {:induction false} FrameRoundTrip(m: Message)
    requires !m.payload.Absent?
    ensures DecodeFrame(EncodeFrame(m)) == Ok(m.(payload := Buf(m.payload.bytes)))
  {
    var e := EncodeFrame(m);
    FrameLayout(m);
    LE16Read(e, 2, m.msgType);
    LE16Read(e, 4, m.port1);
    LE16Read(e, 6, m.port2);
    LE32Read(e, 8, m.appId);
    LE32Read(e, 12, m.extra);
  }

  /** The other direction: any buffer long enough to hold a header is the
      encoding of what it decodes to, so the codec is a bijection between
      messages with a Buffer payload and buffers of at least 16 bytes. */
  lemma {:induction false} FrameDecodeEncode(buf: Bytes)
    requires |buf| >= MESSAGE_HEADER
    ensures EncodeFrame(DecodeFrame(buf).value) == buf
  {
    var m := DecodeFrame(buf).value;
    var e := EncodeFrame(m);
    FrameLayout(m);
    assert e[..16] == buf[..16] by {
      ByteOfLE16(buf, 2);
      ByteOfLE16(buf, 4);
      ByteOfLE16(buf, 6);
      ByteOfLE32(buf, 8);
      ByteOfLE32(buf, 12);
      assert e[2..4] == buf[2..4] && e[4..6] == buf[4..6] && e[6..8] == buf[6..8];
      assert e[8..12] == buf[8..12] && e[12..16] == buf[12..16];
      forall i | 0 <= i < 16 ensures e[i] == buf[i] {
        if 2 <= i < 4 { assert e[i] == e[2..4][i - 2]; assert buf[i] == buf[2..4][i - 2]; }
        else if 4 <= i < 6 { assert e[i] == e[4..6][i - 4]; assert buf[i] == buf[4..6][i - 4]; }
        else if 6 <= i < 8 { assert e[i] == e[6..8][i - 6]; assert buf[i] == buf[6..8][i - 6]; }
        else if 8 <= i < 12 { assert e[i] == e[8..12][i - 8]; assert buf[i] == buf[8..12][i - 8]; }
        else if 12 <= i < 16 { assert e[i] == e[12..16][i - 12]; assert buf[i] == buf[12..16][i - 12]; }
      }
    }
    assert e == e[..16] + e[16..];
    assert buf == buf[..16] + buf[16..];
  }

  /** Re-encoding a 16-bit field read from a buffer gives the same two bytes. */
  lemma ByteOfLE16(buf: Bytes, i: nat)
    requires i + 2 <= |buf|
    ensures LE16(ReadU16LE(buf, i)) == buf[i..i + 2]
  {
  }

  /** Re-encoding a 32-bit field read from a buffer gives the same four bytes. */
  lemma ByteOfLE32(buf: Bytes, i: nat)
    requires i + 4 <= |buf|
    ensures LE32(ReadU32LE(buf, i)) == buf[i..i + 4]
  {
    var lo: int := ReadU16LE(buf, i);
    var hi: int := ReadU16LE(buf, i + 2);
    assert ReadU32LE(buf, i) == lo + 0x1_0000 * hi;
    DivModWide(lo, hi, 0x1_0000);
    ByteOfLE16(buf, i);
    ByteOfLE16(buf, i + 2);
    assert buf[i..i + 4] == buf[i..i + 2] + buf[i + 2..i + 4];
  }

  lemma DivModBase(a: int, q: int)
    requires 0 <= a < 0x100 && q >= 0
    ensures (a + 0x100 * q) / 0x100 == q && (a + 0x100 * q) % 0x100 == a
  {
  }

  lemma DivModWide(a: int, q: int, d: int)
    requires d == 0x1_0000 || d == 0x100_0000
    requires 0 <= a < d && q >= 0
    ensures (a + d * q) / d == q && (a + d * q) % d == a
  {
  }
}
