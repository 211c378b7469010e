/** What the single-file MessageBuilder (message.js) decides to send for an
    application value, before any id is drawn: request's content and data
    types and bytes, call's, and the shape of what response hands to
    sendHmProtocol. The conversions of data.js and buffer.js are outside the
    model: strings and JSON go through the Codec, and what they make of the
    remaining values is handed in as Foreign. */
module LegacyPlans {
  import opened Common
  import opened Constants
  import opened AppValues
  import opened Util
  import Requests

  /** str2buf on a value that is not a string, and Buffer.from on a value
      that is neither a string nor binary (None where it throws). */
  datatype Foreign = Foreign(textOf: AppData -> Bytes, bufferFrom: AppData -> Option<Bytes>)

  /** request's opts: each field absent, or the value the caller gave
      (Object.assign lets any given value, even a non-string, replace the
      default). */
  datatype LegacyOptions = LegacyOptions(contentType: Option<TypeArg>, dataType: Option<TypeArg>)

  const NoOptions := LegacyOptions(None, None)

  /** The content type, data type and bytes of one send. */
  datatype Plan = Plan(contentType: byte, dataType: byte, bytes: Bytes)

  /** The DataType name request uses when opts names none: text for a
      string, json for a plain object, bin for everything else. */
  function DefaultTypeName(d: AppData): (r: string)
    ensures r == "text" <==> d.StrVal?
    ensures r == "json" <==> IsPlainObject(d)
    ensures r == "bin" <==> !d.StrVal? && !IsPlainObject(d)
  {
    if d.StrVal? then "text" else if IsPlainObject(d) then "json" else "bin"
  }

  /** An option as given, or the default name. */
  function Chosen(given: Option<TypeArg>, d: AppData): TypeArg
  {
    if given.Some? then given.value else Str(DefaultTypeName(d))
  }

  /** Buffer.from(data). */
  function BufferFrom(d: AppData, codec: Codec, fx: Foreign): Option<Bytes>
  {
    match d
    case StrVal(s) => Some(codec.str2buf(s))
    case BufferVal(b) => Some(b)
    case BinaryVal(b) => Some(b)
    case _ => fx.bufferFrom(d)
  }

  /** str2buf(data). */
  function TextOf(d: AppData, codec: Codec, fx: Foreign): Bytes
  {
    if d.StrVal? then codec.str2buf(d.s) else fx.textOf(d)
  }

  /** The request task's choice, in its order: a Buffer or other binary value
      goes out as BIN with its own bytes; otherwise getDataType of the
      content type picks JSON, TEXT or (for anything else) Buffer.from as
      BIN. The data type is getDataType of opts.dataType. getDataType of a
      non-string and Buffer.from of an unconvertible value throw a TypeError. */
  function RequestPlan(data: AppData, opts: LegacyOptions, codec: Codec, fx: Foreign): (r: Result<Plan>)
    ensures r.Err? ==> r.error == TypeError
    ensures r.Ok? ==> r.value.contentType in {TEXT, JSON, BIN}
    ensures r.Ok? ==> LegacyGetDataType(Chosen(opts.dataType, data)) == Ok(r.value.dataType)
    ensures LegacyGetDataType(Chosen(opts.dataType, data)).Err? ==> r.Err?
    ensures data.BufferVal? || data.BinaryVal? ==>
      r.Ok? ==> r.value.contentType == BIN && r.value.bytes == data.bytes
    ensures !data.BufferVal? && !data.BinaryVal? && r.Ok? ==>
      var ct := LegacyGetDataType(Chosen(opts.contentType, data));
      && ct.Ok?
      && (ct.value == JSON ==> r.value.contentType == JSON && r.value.bytes == codec.json2buf(data))
      && (ct.value == TEXT ==> r.value.contentType == TEXT && r.value.bytes == TextOf(data, codec, fx))
      && (ct.value != JSON && ct.value != TEXT ==>
            r.value.contentType == BIN && Some(r.value.bytes) == BufferFrom(data, codec, fx))
  {
    var dataType := LegacyGetDataType(Chosen(opts.dataType, data));
    if data.BufferVal? || data.BinaryVal? then
      if dataType.Err? then Err(TypeError) else Ok(Plan(BIN, dataType.value, data.bytes))
    else
      var ct := LegacyGetDataType(Chosen(opts.contentType, data));
      if ct.Err? then Err(TypeError)
      else if ct.value == JSON then
        if dataType.Err? then Err(TypeError) else Ok(Plan(JSON, dataType.value, codec.json2buf(data)))
      else if ct.value == TEXT then
        if dataType.Err? then Err(TypeError) else Ok(Plan(TEXT, dataType.value, TextOf(data, codec, fx)))
      else
        var buf := BufferFrom(data, codec, fx);
        if buf.None? then Err(TypeError)
        else if dataType.Err? then Err(TypeError) else Ok(Plan(BIN, dataType.value, buf.value))
  }

  /** call's choice: a string goes out as TEXT, a Buffer or other binary
      value as BIN with its own bytes, and every other value as JSON. (The
      final Buffer.from branch of call is unreachable: only binary values
      are classified BIN, and the branches before it take them.) */
  function CallPlan(d: AppData, codec: Codec): (r: (byte, Bytes))
    ensures r.0 == TEXT <==> d.StrVal?
    ensures r.0 == BIN <==> d.BufferVal? || d.BinaryVal?
    ensures r.0 in {TEXT, JSON, BIN}
    ensures r.0 == TEXT ==> r.1 == codec.str2buf(d.s)
    ensures r.0 == BIN ==> r.1 == d.bytes
    ensures r.0 == JSON ==> r.1 == codec.json2buf(d)
  {
    if d.BufferVal? || d.BinaryVal? then (BIN, d.bytes)
    else if d.StrVal? then (TEXT, codec.str2buf(d.s))
    else (JSON, codec.json2buf(d))
  }

  /** What sendHmProtocol makes of the value sendBuf hands it without any
      conversion: a Buffer is sent; null and undefined have no byteLength
      and throw a TypeError before any id is drawn; other binary values
      have a length but no copy, so a non-empty one throws a TypeError in
      the first iteration; any other value has an undefined byteLength and
      sends nothing. */
  datatype BufShape = Sendable(bytes: Bytes) | NoBytes | CopyFails | LengthThrows

  function SendBufShape(d: AppData): (r: BufShape)
    ensures r.LengthThrows? <==> d.NullVal? || d.UndefinedVal?
    ensures r.Sendable? <==> d.BufferVal?
    ensures r.Sendable? ==> r.bytes == d.bytes
    ensures r.CopyFails? <==> d.BinaryVal? && |d.bytes| > 0
  {
    match d
    case BufferVal(b) => Sendable(b)
    case BinaryVal(b) => if |b| == 0 then NoBytes else CopyFails
    case NullVal => LengthThrows
    case UndefinedVal => LengthThrows
    case _ => NoBytes
  }

  /** response's choice by dataType: TEXT through str2buf, JSON through
      json2buf, and anything else the value as it is, announced as BIN. */
  function ResponseShape(dataType: byte, d: AppData, codec: Codec, fx: Foreign): (r: (BufShape, byte))
    ensures r.1 == if dataType == TEXT || dataType == JSON then dataType else BIN
    ensures dataType == TEXT ==> r.0 == Sendable(TextOf(d, codec, fx))
    ensures dataType == JSON ==> r.0 == Sendable(codec.json2buf(d))
    ensures dataType != TEXT && dataType != JSON ==> r.0 == SendBufShape(d)
  {
    if dataType == TEXT then (Sendable(TextOf(d, codec, fx)), TEXT)
    else if dataType == JSON then (Sendable(codec.json2buf(d)), JSON)
    else (SendBufShape(d), BIN)
  }

  /** With default options the two versions agree on strings, plain objects
      and Buffers: the single-file request sends exactly what the split
      classification picks, with the data type equal to the content type,
      as the split version's default response data type is. */
  lemma DefaultRequestAgrees(d: AppData, codec: Codec, fx: Foreign)
    requires d.StrVal? || d.ObjectVal? || d.BufferVal?
    ensures var c := Classify(d, codec).value;
      && RequestPlan(d, NoOptions, codec, fx) == Ok(Plan(c.0, c.0, c.1))
      && Requests.ResponseDataType(Requests.RequestOptions(None, None), c.0) == c.0
  {
    DataTypeNameRoundTrip(TEXT);
    DataTypeNameRoundTrip(JSON);
    DataTypeNameRoundTrip(BIN);
  }

  /** Where the versions differ on an ArrayBuffer or view: the single-file
      request sends its bytes as BIN while announcing JSON as the data type;
      the split version classifies it as a plain object and sends its JSON
      text. */
  lemma BinaryRequestDiffers(b: Bytes, codec: Codec, fx: Foreign)
    ensures RequestPlan(BinaryVal(b), NoOptions, codec, fx) == Ok(Plan(BIN, JSON, b))
    ensures Classify(BinaryVal(b), codec) == Some((JSON, codec.json2buf(BinaryVal(b))))
  {
    DataTypeNameRoundTrip(JSON);
  }

  /** A data type option that is not a string makes every request throw,
      whatever the value: getDataType calls toLowerCase on it. */
  lemma NonStringDataTypeThrows(d: AppData, contentType: Option<TypeArg>, truthy: bool, codec: Codec, fx: Foreign)
    ensures RequestPlan(d, LegacyOptions(contentType, Some(NonString(truthy))), codec, fx) == Err(TypeError)
  {
  }

  /** Where the versions differ on call: an array, a scalar, null or
      undefined goes out as JSON in the single-file version; the split
      version refuses the first two and sends the last two as EMPTY. */
  lemma CallOfOtherValues(d: AppData, codec: Codec)
    requires d.ArrayVal? || d.ScalarVal? || d.NullVal? || d.UndefinedVal?
    ensures CallPlan(d, codec) == (JSON, codec.json2buf(d))
    ensures d.ArrayVal? || d.ScalarVal? ==> Classify(d, codec).None?
    ensures d.NullVal? || d.UndefinedVal? ==> Classify(d, codec) == Some((EMPTY, []))
  {
  }

  /** A response announced as BIN (or with an unknown data type) whose value
      is a string or a plain object sends nothing: sendBuf hands the value
      itself to sendHmProtocol, whose byteLength is then undefined. */
  lemma BinResponseOfText(dataType: byte, d: AppData, codec: Codec, fx: Foreign)
    requires dataType != TEXT && dataType != JSON
    requires d.StrVal? || d.ObjectVal?
    ensures ResponseShape(dataType, d, codec, fx) == (NoBytes, BIN)
  {
  }
}
