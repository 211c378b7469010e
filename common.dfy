/** Definitions shared by both versions of the messaging stack: byte and
    field widths, little-endian field encodings, the error taxonomy and the
    Option / Result / Outcome wrappers used for the source's thrown errors. */
module Common {

  type byte = x: int | 0 <= x < 0x100
  type u16 = x: int | 0 <= x < 0x1_0000
  type u32 = x: int | 0 <= x < 0x1_0000_0000
  type Bytes = seq<byte>

  datatype Option<+T> = None | Some(value: T)

  /** The codes of the messaging error table. `UndefinedCode` stands for a
      code name the table does not define (the property read yields undefined);
      `ForeignCode` for a code carried over from an error raised outside the
      messaging layer (a Buffer range error's ERR_OUT_OF_RANGE). */
  datatype ErrorCode =
    | Success | ShakeTimeOut | BleClose | AppClose | RequestTimeOut
    | SerializationError | DeserializationError | InvalidPayload
    | NotConnected | SendFailed | InternalError | UnknownError
    | UndefinedCode | ForeignCode

  /** Everything the modelled code throws, rejects with or emits as an error. */
  datatype Error =
    | MessageError(code: ErrorCode)
    | RangeError          // a Buffer read past the end, or a value too wide for its field
    | TypeError           // a property read on undefined or null
    | ReferenceError      // a call through a name that no scope declares
    | PayloadRequired     // serializeMessage / serializePayload without a Buffer payload
    | PayloadTooLarge     // buildBin with a payload over the frame budget
    | MalformedChunk      // Session.addChunk with no payload
    | ChunkLengthError    // declared payloadLength differs from the fragment's byte length
    | TotalSizeMismatch   // bytes announced by the chunks differ from the session size
    | SequenceError       // a gap or a duplicate among the seqIds
    | FullLengthError     // assembled length differs from the Finished chunk's totalLength
    | DisposedError       // access to a disposed instance
    | ObjectRequired      // qs stringify of a falsy or non-object argument
    | SendRefused         // the native BLE send reported that the buffer did not go out
    | ParseError          // JSON.parse on text that is not JSON, left uncaught
    | Thrown(id: nat)     // an exception raised by a foreign callback

  datatype Result<+T> = Ok(value: T) | Err(error: Error)

  datatype Outcome = Pass | Fail(error: Error)

  /** The observable state of a promise. */
  datatype Settle<+T> = Pending | Resolved(value: T) | Rejected(error: Error)

  /** Little-endian encoding of a 16-bit field (Buffer.writeUInt16LE). */
  function LE16(v: u16): (r: Bytes)
    ensures |r| == 2
  {
    [v % 0x100, v / 0x100]
  }

  /** Little-endian encoding of a 32-bit field (Buffer.writeUInt32LE): the
      low 16 bits, then the high 16 bits, each little-endian. */
  function LE32(v: u32): (r: Bytes)
    ensures |r| == 4
  {
    LE16(v % 0x1_0000) + LE16(v / 0x1_0000)
  }

  /** Buffer.readUInt16LE at offset i. */
  function ReadU16LE(s: Bytes, i: nat): u16
    requires i + 2 <= |s|
  {
    s[i] as int + 0x100 * s[i + 1] as int
  }

  /** Buffer.readUInt32LE at offset i. */
  function ReadU32LE(s: Bytes, i: nat): u32
    requires i + 4 <= |s|
  {
    s[i] as int + 0x100 * s[i + 1] as int + 0x1_0000 * s[i + 2] as int
      + 0x100_0000 * s[i + 3] as int
  }

  /** Reading back a written 16-bit field, wherever it sits in a buffer. */
  lemma LE16Read(s: Bytes, i: nat, v: u16)
    requires i + 2 <= |s| && s[i..i + 2] == LE16(v)
    ensures ReadU16LE(s, i) == v
  {
    assert s[i] == LE16(v)[0] && s[i + 1] == LE16(v)[1];
  }

  /** Reading back a written 32-bit field, wherever it sits in a buffer. */
  lemma LE32Read(s: Bytes, i: nat, v: u32)
    requires i + 4 <= |s| && s[i..i + 4] == LE32(v)
    ensures ReadU32LE(s, i) == v
  {
    assert s[i..i + 2] == LE32(v)[..2] == LE16(v % 0x1_0000);
    assert s[i + 2..i + 4] == LE32(v)[2..] == LE16(v / 0x1_0000);
    LE16Read(s, i, v % 0x1_0000);
    LE16Read(s, i + 2, v / 0x1_0000);
  }

  /** Buffer.writeUInt8 at a running offset: the written prefix grows by one byte. */
  method WriteU8(buf: array<byte>, off: nat, v: byte) returns (next: nat)
    requires off + 1 <= buf.Length
    modifies buf
    ensures next == off + 1
    ensures buf[..next] == old(buf[..off]) + [v]
  {
    buf[off] := v;
    next := off + 1;
  }

  /** Buffer.writeUInt16LE at a running offset. */
  method WriteU16LE(buf: array<byte>, off: nat, v: u16) returns (next: nat)
    requires off + 2 <= buf.Length
    modifies buf
    ensures next == off + 2
    ensures buf[..next] == old(buf[..off]) + LE16(v)
  {
    var e := LE16(v);
    buf[off] := e[0];
    buf[off + 1] := e[1];
    next := off + 2;
  }

  /** Buffer.writeUInt32LE at a running offset. */
  method WriteU32LE(buf: array<byte>, off: nat, v: u32) returns (next: nat)
    requires off + 4 <= buf.Length
    modifies buf
    ensures next == off + 4
    ensures buf[..next] == old(buf[..off]) + LE32(v)
  {
    var e := LE32(v);
    buf[off] := e[0];
    buf[off + 1] := e[1];
    buf[off + 2] := e[2];
    buf[off + 3] := e[3];
    next := off + 4;
  }

  /** Buffer copy of `src` into `buf` from offset `off` (payload.copy / fill). */
  method CopyInto(buf: array<byte>, off: nat, src: Bytes)
    requires off + |src| == buf.Length
    modifies buf
    ensures buf[..] == old(buf[..off]) + src
  {
    var i := 0;
    while i < |src|
      invariant 0 <= i <= |src|
      invariant buf[..off + i] == old(buf[..off]) + src[..i]
    {
      buf[off + i] := src[i];
      i := i + 1;
      assert buf[..off + i] == buf[..off + i - 1] + [src[i - 1]];
      assert src[..i] == src[..i - 1] + [src[i - 1]];
    }
    assert buf[..] == buf[..off + |src|];
    assert src[..|src|] == src;
  }

  /** No value occurs twice, as in a JavaScript Set. */
  predicate Distinct<T(==)>(s: seq<T>)
  {
    forall i, j :: 0 <= i < j < |s| ==> s[i] != s[j]
  }

  /** Sequence facts used with element types whose equality is costly. */
  lemma PrefixSnoc<T>(s: seq<T>, i: nat)
    requires i < |s|
    ensures s[..i + 1] == s[..i] + [s[i]]
  {
  }

  lemma PrefixWhole<T>(s: seq<T>)
    ensures s[..|s|] == s
  {
  }

  lemma SnocInit<T>(s: seq<T>, x: T)
    ensures (s + [x])[..|s|] == s && (s + [x])[|s|] == x
  {
  }

  lemma SliceSplit<T>(s: seq<T>, a: nat, b: nat)
    requires a <= b <= |s|
    ensures s[..b] == s[..a] + s[a..b]
  {
  }

  lemma InitOfPrefix<T>(s: seq<T>, i: nat)
    requires 0 < i <= |s|
    ensures s[..i][..i - 1] == s[..i - 1] && s[..i][i - 1] == s[i - 1]
  {
  }

  lemma AppendAssoc<T>(o: seq<T>, a: seq<T>, b: seq<T>)
    ensures (o + a) + b == o + (a + b)
  {
  }

  /** Sequences with the same multiset have the same length. */
  lemma MultisetLength<T>(a: seq<T>, b: seq<T>)
    requires multiset(a) == multiset(b)
    ensures |a| == |b|
  {
    assert |a| == |multiset(a)| == |multiset(b)| == |b|;
  }

  /** Removing a key a map does not hold leaves the map as it was. */
  lemma RemoveAbsent<K, V>(m: map<K, V>, k: K)
    requires k !in m
    ensures m - {k} == m
  {
  }
}
