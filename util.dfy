/** The protocol's size and enumeration constants. Both versions of the stack
    declare the same values. */
module Constants {
  import opened Common

  const MESSAGE_SIZE: nat := 3600
  const MESSAGE_HEADER: nat := 16
  const MESSAGE_PAYLOAD: nat := MESSAGE_SIZE - MESSAGE_HEADER
  const HM_MESSAGE_PROTO_HEADER: nat := 66
  const HM_MESSAGE_PROTO_PAYLOAD: nat := MESSAGE_PAYLOAD - HM_MESSAGE_PROTO_HEADER

  // MessageFlag
  const FLAG_RUNTIME: byte := 0
  const FLAG_APP: byte := 1

  // MessageType
  const TYPE_SHAKE: u16 := 1
  const TYPE_CLOSE: u16 := 2
  const TYPE_HEART: u16 := 3
  const TYPE_DATA: u16 := 4
  const TYPE_DATA_WITH_SYSTEM_TOOL: u16 := 5
  const TYPE_LOG: u16 := 6

  const VERSION_1: byte := 1

  // MessagePayloadType
  const PAYLOAD_REQUEST: byte := 1
  const PAYLOAD_RESPONSE: byte := 2
  const PAYLOAD_NOTIFY: byte := 3

  // MessagePayloadDataTypeOp
  const EMPTY: byte := 0
  const TEXT: byte := 1
  const JSON: byte := 2
  const BIN: byte := 3

  // MessagePayloadOpCode
  const CONTINUED: byte := 0
  const FINISHED: byte := 1

  const DEFAULT_REQUEST_TIMEOUT: nat := 60000
  const SHAKE_TIMEOUT: nat := 5000

  lemma {:induction false} FrameBudget()
    ensures MESSAGE_PAYLOAD == 3584 && HM_MESSAGE_PROTO_PAYLOAD == 3518
    ensures MESSAGE_HEADER + HM_MESSAGE_PROTO_HEADER + HM_MESSAGE_PROTO_PAYLOAD == MESSAGE_SIZE
  {
  }
}

/** Leaf utilities of the split version (util.js), with the single-file
    version's variants where they differ. */
module Util {
  import opened Common
  import opened Constants

  /** A value handed to getDataType: a string, or anything else, together
      with its JavaScript truthiness (null, undefined, 0, NaN and false are
      falsy; objects, functions and other numbers are truthy). */
  datatype TypeArg = Str(s: string) | NonString(truthy: bool)

  /** JavaScript truthiness of the value: a string is truthy unless empty. */
  predicate Truthy(t: TypeArg)
  {
    if t.Str? then t.s != "" else t.truthy
  }

  /** Lower-casing of the ASCII letters (String.prototype.toLowerCase on ASCII). */
  function LowerChar(c: char): (r: char)
    ensures 'A' <= c <= 'Z' ==> r as int == c as int + 32
    ensures !('A' <= c <= 'Z') ==> r == c
  {
    if 'A' <= c <= 'Z' then (c as int + 32) as char else c
  }

  function AsciiLower(s: string): (r: string)
    ensures |r| == |s|
    ensures forall i :: 0 <= i < |s| ==> r[i] == LowerChar(s[i])
  {
    if s == [] then [] else [LowerChar(s[0])] + AsciiLower(s[1..])
  }

  function UpperChar(c: char): char
  {
    if 'a' <= c <= 'z' then (c as int - 32) as char else c
  }

  function AsciiUpper(s: string): (r: string)
    ensures |r| == |s|
    ensures forall i :: 0 <= i < |s| ==> r[i] == UpperChar(s[i])
  {
    if s == [] then [] else [UpperChar(s[0])] + AsciiUpper(s[1..])
  }

  /** getTimestamp: the clock reading modulo ten million. */
  function GetTimestamp(t: nat): (r: u32)
    ensures r < 10_000_000
    ensures t < 10_000_000 ==> r == t
    ensures (t - r) % 10_000_000 == 0
  {
    t % 10_000_000
  }

  /** The data-type names of the DataType table, indexed by their op code. */
  function DataTypeName(op: byte): string
    requires op <= BIN
  {
    if op == EMPTY then "empty" else if op == TEXT then "text"
    else if op == JSON then "json" else "bin"
  }

  /** getDataType (split version): case-insensitive name to op code, BIN for
      any other string and for a non-string. */
  function GetDataType(t: TypeArg): (r: byte)
  {
    if !t.Str? then BIN
    else
      var l := AsciiLower(t.s);
      if l == "json" then JSON
      else if l == "text" then TEXT
      else if l == "bin" then BIN
      else if l == "empty" then EMPTY
      else BIN
  }

  /** getDataType (single-file version): the same mapping, but a non-string
      argument has no toLowerCase and the call throws. */
  function LegacyGetDataType(t: TypeArg): (r: Result<byte>)
    ensures t.Str? <==> r.Ok?
    ensures r.Ok? ==> r.value == GetDataType(t)
  {
    if !t.Str? then Err(TypeError)
    else
      var l := AsciiLower(t.s);
      if l == "json" then Ok(JSON)
      else if l == "text" then Ok(TEXT)
      else if l == "bin" then Ok(BIN)
      else if l == "empty" then Ok(EMPTY)
      else Ok(BIN)
  }

  lemma LowerUpperChar(c: char)
    requires 'a' <= c <= 'z'
    ensures LowerChar(UpperChar(c)) == c
  {
  }

  /** The four names are recognised whatever their letter case: every op code
      is recovered from its name in lower case and in upper case. */
  lemma {:induction false} DataTypeNameRoundTrip(op: byte)
    requires op <= BIN
    ensures GetDataType(Str(DataTypeName(op))) == op
    ensures GetDataType(Str(AsciiUpper(DataTypeName(op)))) == op
  {
    var n := DataTypeName(op);
    assert forall i :: 0 <= i < |n| ==> 'a' <= n[i] <= 'z';
    forall i | 0 <= i < |n| ensures AsciiLower(AsciiUpper(n))[i] == n[i] {
      LowerUpperChar(n[i]);
    }
    assert AsciiLower(AsciiUpper(n)) == n;
    forall i | 0 <= i < |n| ensures AsciiLower(n)[i] == n[i] {
    }
    assert AsciiLower(n) == n;
  }

  /** getDataType classifies exactly: each of EMPTY, TEXT and JSON comes from
      its own name only, and everything else is BIN. */
  lemma DataTypeExact(t: TypeArg)
    ensures GetDataType(t) <= BIN
    ensures GetDataType(t) == JSON <==> t.Str? && AsciiLower(t.s) == "json"
    ensures GetDataType(t) == TEXT <==> t.Str? && AsciiLower(t.s) == "text"
    ensures GetDataType(t) == EMPTY <==> t.Str? && AsciiLower(t.s) == "empty"
  {
  }

  /** The counters behind genTraceId and genSpanId (module-level variables
      post-incremented on every call). */
  class IdGen {
    var nextTrace: nat
    var nextSpan: nat

    ghost predicate Valid()
      reads this
    {
      nextTrace >= 10000 && nextSpan >= 1000
    }

    constructor ()
      ensures Valid() && nextTrace == 10000 && nextSpan == 1000
    {
      nextTrace := 10000;
      nextSpan := 1000;
    }

    /** genTraceId: returns the counter and advances it, so every later id is larger. */
    method GenTraceId() returns (r: nat)
      requires Valid()
      modifies this`nextTrace
      ensures Valid()
      ensures r == old(nextTrace) && nextTrace == r + 1 && r >= 10000
    {
      r := nextTrace;
      nextTrace := nextTrace + 1;
    }

    /** genSpanId: returns the counter and advances it. */
    method GenSpanId() returns (r: nat)
      requires Valid()
      modifies this`nextSpan
      ensures Valid()
      ensures r == old(nextSpan) && nextSpan == r + 1 && r >= 1000
    {
      r := nextSpan;
      nextSpan := nextSpan + 1;
    }
  }
}
