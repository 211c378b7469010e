/** The application values the request, call and response entry points
    accept, and the data conversions they apply. The conversions themselves
    (UTF-8, JSON text) are not part of this model: they are handed in as a
    Codec of functions. */
module AppValues {
  import opened Common
  import opened Constants

  /** A JavaScript value as the classification code sees it. */
  datatype AppData =
    | StrVal(s: string)                            // typeof 'string'
    | BufferVal(bytes: Bytes)                      // a Buffer (Buffer.isBuffer)
    | BinaryVal(bytes: Bytes)                      // an ArrayBuffer or a typed-array view that is not a Buffer
    | ObjectVal(entries: seq<(string, AppData)>)   // any other non-null object that is not an array
    | ArrayVal(items: seq<AppData>)
    | NullVal
    | UndefinedVal
    | ScalarVal                                    // a number, boolean, function, symbol or bigint

  /** str2buf / buf2str / json2buf / buf2json; buf2json answers None where
      JSON.parse throws. */
  datatype Codec = Codec(
    str2buf: string -> Bytes,
    buf2str: Bytes -> string,
    json2buf: AppData -> Bytes,
    buf2json: Bytes -> Option<AppData>)

  /** isPlainObject: an object that is neither a Buffer, an array nor null.
      ArrayBuffers and typed-array views pass this test. */
  predicate IsPlainObject(d: AppData)
  {
    d.ObjectVal? || d.BinaryVal?
  }

  /** The content type and bytes RequestHandler.request and
      MessageBuilder.call choose for a value, checked in their order: string,
      plain object, Buffer, ArrayBuffer or view, null or undefined; None for
      anything else. Only strings become TEXT and only Buffers BIN: the
      ArrayBuffer branch is never reached, since isPlainObject already
      accepts those values as JSON, so it is not written out here. */
  function Classify(d: AppData, codec: Codec): (r: Option<(byte, Bytes)>)
    ensures r.None? <==> d.ArrayVal? || d.ScalarVal?
    ensures r.Some? ==> r.value.0 <= BIN
    ensures r.Some? && r.value.0 == TEXT <==> d.StrVal?
    ensures r.Some? && r.value.0 == BIN <==> d.BufferVal?
    ensures r.Some? && r.value.0 == EMPTY <==> d.NullVal? || d.UndefinedVal?
    ensures r.Some? && r.value.0 == JSON <==> d.ObjectVal? || d.BinaryVal?
    ensures d.BufferVal? ==> r == Some((BIN, d.bytes))
    ensures r.Some? && r.value.0 == EMPTY ==> r.value.1 == []
  {
    if d.StrVal? then Some((TEXT, codec.str2buf(d.s)))
    else if IsPlainObject(d) then Some((JSON, codec.json2buf(d)))
    else if d.BufferVal? then Some((BIN, d.bytes))
    // the ArrayBuffer / view branch would follow here; isPlainObject has
    // already taken those values
    else if d.NullVal? || d.UndefinedVal? then Some((EMPTY, []))
    else None
  }
}
