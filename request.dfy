/** The split version's request correlator (request.js, RequestHandler): a
    table of pending requests keyed by traceId, each settled by a response, by
    its timer firing or by a transport failure. Timers and promises are
    replaced by explicit events and by the settle state of each request's
    promise. */
module Requests {
  import opened Common
  import opened Constants
  import opened ChunkCodec
  import opened Link
  import opened AppValues
  import Util
  import Fragmenter

  /** The value a request's promise resolves with. */
  datatype Reply =
    | Parsed(value: AppData)   // buf2json of the payload
    | TextReply(s: string)     // buf2str of the payload
    | Raw(bytes: Bytes)        // the payload Buffer itself
    | Undefined                // EMPTY responses resolve with undefined

  /** The options of a request: timeout None stands for an absent or falsy
      value, dataType None for an absent one (a present dataType carries its
      own truthiness). */
  datatype RequestOptions = RequestOptions(timeout: Option<nat>, dataType: Option<Util.TypeArg>)

  /** `opts.timeout || 60000`: a falsy timeout (absent or 0) means 60 s. */
  function TimerDelay(opts: RequestOptions): (r: nat)
    ensures r > 0
    ensures opts.timeout.Some? && opts.timeout.value != 0 ==> r == opts.timeout.value
    ensures opts.timeout.None? || opts.timeout.value == 0 ==> r == DEFAULT_REQUEST_TIMEOUT
  {
    if opts.timeout.Some? && opts.timeout.value != 0 then opts.timeout.value else 60000
  }

  /** Whether opts.dataType is truthy. */
  predicate HasDataType(opts: RequestOptions)
  {
    opts.dataType.Some? && Util.Truthy(opts.dataType.value)
  }

  /** The data type announced for the response: getDataType of
      opts.dataType when it is truthy, otherwise the request's own content
      type (an absent, empty-string, null, 0, NaN or false dataType). */
  function ResponseDataType(opts: RequestOptions, contentType: byte): (r: byte)
    ensures !HasDataType(opts) ==> r == contentType
    ensures HasDataType(opts) ==> r == Util.GetDataType(opts.dataType.value)
  {
    if HasDataType(opts) then Util.GetDataType(opts.dataType.value)
    else contentType
  }

  /** A request naming its reply type, in either letter case, expects
      exactly that type; one naming nothing truthy expects a reply of its own
      content type, and any other truthy value that is not a type name
      expects BIN. */
  lemma ExpectedReplyType(timeout: Option<nat>, op: byte, upper: bool, contentType: byte)
    requires op <= BIN
    ensures var name := Util.DataTypeName(op);
      ResponseDataType(RequestOptions(timeout, Some(Util.Str(if upper then Util.AsciiUpper(name) else name))),
                       contentType) == op
    ensures ResponseDataType(RequestOptions(timeout, None), contentType) == contentType
    ensures ResponseDataType(RequestOptions(timeout, Some(Util.NonString(false))), contentType) == contentType
    ensures ResponseDataType(RequestOptions(timeout, Some(Util.Str(""))), contentType) == contentType
    ensures ResponseDataType(RequestOptions(timeout, Some(Util.NonString(true))), contentType) == BIN
  {
    Util.DataTypeNameRoundTrip(op);
    var name := Util.DataTypeName(op);
    assert |Util.AsciiUpper(name)| == |name| > 0;
  }

  /** How onResponse settles a request, chosen by the response's dataType:
      JSON is parsed (a parse failure rejects with INTERNAL_ERROR), TEXT is
      decoded, BIN and every unknown type give the raw bytes, EMPTY gives
      undefined. */
  function DecodeReply(dataType: byte, bytes: Bytes, codec: Codec): (r: Settle<Reply>)
    ensures !r.Pending?
    ensures r.Rejected? <==> dataType == JSON && codec.buf2json(bytes).None?
    ensures r.Rejected? ==> r.error == MessageError(InternalError)
    ensures dataType == EMPTY ==> r == Resolved(Undefined)
    ensures dataType != JSON && dataType != TEXT && dataType != EMPTY ==> r == Resolved(Raw(bytes))
  {
    if dataType == JSON then
      var v := codec.buf2json(bytes);
      if v.None? then Rejected(MessageError(InternalError)) else Resolved(Parsed(v.value))
    else if dataType == TEXT then Resolved(TextReply(codec.buf2str(bytes)))
    else if dataType == BIN then Resolved(Raw(bytes))
    else if dataType == EMPTY then Resolved(Undefined)
    else Resolved(Raw(bytes))
  }

  /** Data sent with its own content type as the response type comes back as
      the same value whenever the codec's decoders invert its encoders. */
  lemma ReplyRoundTrip(d: AppData, codec: Codec)
    requires Classify(d, codec).Some?
    requires d.StrVal? ==> codec.buf2str(codec.str2buf(d.s)) == d.s
    requires d.ObjectVal? || d.BinaryVal? ==> codec.buf2json(codec.json2buf(d)) == Some(d)
    ensures var c := Classify(d, codec).value;
      DecodeReply(c.0, c.1, codec) == Resolved(
        if d.StrVal? then TextReply(d.s)
        else if d.ObjectVal? || d.BinaryVal? then Parsed(d)
        else if d.BufferVal? then Raw(d.bytes)
        else Undefined)
  {
  }

  /** Deleting a key just added to a map that did not hold it gives the
      map back. */
  lemma AddRemove<K, V>(m: map<K, V>, k: K, v: V)
    requires k !in m
    ensures m[k := v] - {k} == m
  {
  }

  lemma UpdateTwice<K, V>(m: map<K, V>, k: K, v: V, w: V)
    ensures m[k := v][k := w] == m[k := w]
  {
  }

  /** The request table (`_requests`, traceId to the delay of its timer) and
      the state of the promise handed out for every traceId so far. */
  datatype Table = Table(requests: map<nat, nat>, promises: map<nat, Settle<Reply>>)

  /** Exactly the requests whose promise is still pending are in the table,
      and every traceId used so far is below the trace counter. */
  ghost predicate Inv(tb: Table, nextTrace: nat)
  {
    && (forall k :: k in tb.requests ==> k in tb.promises && tb.promises[k].Pending?)
    && (forall k :: k in tb.promises && tb.promises[k].Pending? ==> k in tb.requests)
    && (forall k :: k in tb.promises ==> k < nextTrace)
  }

  /** A request leaves the table with its promise settled to s. */
  function SettleEntry(tb: Table, id: nat, s: Settle<Reply>): (r: Table)
    ensures id !in r.requests && id in r.promises && r.promises[id] == s
    ensures forall k :: k != id ==> (k in r.requests <==> k in tb.requests)
  {
    Table(tb.requests - {id}, tb.promises[id := s])
  }

  /** onResponse: a response for a pending traceId settles it by its
      dataType; a response for any other traceId changes nothing. */
  function Answer(tb: Table, p: Payload, codec: Codec): (r: Table)
  {
    if p.traceId in tb.requests then SettleEntry(tb, p.traceId, DecodeReply(p.dataType, Fragment(p), codec))
    else tb
  }

  /** The timer callback: a still-pending request is rejected with the code
      the callback names (REQUEST_TIMEOUT, which the error table does not
      define) and removed; otherwise nothing happens. */
  function Expire(tb: Table, id: nat): (r: Table)
  {
    if id in tb.requests then SettleEntry(tb, id, Rejected(MessageError(UndefinedCode)))
    else tb
  }

  /** handleError: every pending request is rejected with e, and the table
      is emptied. */
  function FailAll(tb: Table, e: Error): (r: Table)
  {
    Table(map[], map k | k in tb.promises :: if k in tb.requests then Rejected(e) else tb.promises[k])
  }

  /** The promises once the requests in done have been rejected with e. */
  function RejectSome(tb: Table, done: set<nat>, e: Error): map<nat, Settle<Reply>>
  {
    map k | k in tb.promises :: if k in tb.requests && k in done then Rejected(e) else tb.promises[k]
  }

  /** Rejecting one more request of the table. */
  lemma RejectStep(tb: Table, done: set<nat>, id: nat, e: Error)
    requires id in tb.requests && id in tb.promises
    ensures RejectSome(tb, done, e)[id := Rejected(e)] == RejectSome(tb, done + {id}, e)
  {
  }

  /** Rejecting every request of the table is what FailAll leaves. */
  lemma RejectAll(tb: Table, e: Error)
    ensures RejectSome(tb, tb.requests.Keys, e) == FailAll(tb, e).promises
  {
  }

  /** FailAll keeps the table invariant: nothing stays pending. */
  lemma FailAllInv(tb: Table, e: Error, nextTrace: nat)
    requires Inv(tb, nextTrace)
    ensures Inv(FailAll(tb, e), nextTrace)
    ensures forall k :: k in FailAll(tb, e).promises ==> !FailAll(tb, e).promises[k].Pending?
  {
  }

  /** The loop of handleError: every request of the table, in turn, has
      its promise rejected with e. */
  method RejectEach(tb: Table, e: Error) returns (promises: map<nat, Settle<Reply>>)
    requires tb.requests.Keys <= tb.promises.Keys
    ensures promises == FailAll(tb, e).promises
  {
    promises := tb.promises;
    var pending := tb.requests.Keys;
    while pending != {}
      invariant pending <= tb.requests.Keys
      invariant promises == RejectSome(tb, tb.requests.Keys - pending, e)
      decreases pending
    {
      var requestId :| requestId in pending;
      RejectStep(tb, tb.requests.Keys - pending, requestId, e);
      assert (tb.requests.Keys - pending) + {requestId} == tb.requests.Keys - (pending - {requestId});
      promises := promises[requestId := Rejected(e)];
      pending := pending - {requestId};
    }
    RejectAll(tb, e);
  }

  /** What can happen to the table after the requests went out. */
  datatype Event = Response(p: Payload) | TimerFired(id: nat) | TransportFailed(e: Error)

  function Apply(tb: Table, ev: Event, codec: Codec): Table
  {
    match ev
    case Response(p) => Answer(tb, p, codec)
    case TimerFired(id) => Expire(tb, id)
    case TransportFailed(e) => FailAll(tb, e)
  }

  function Run(tb: Table, evs: seq<Event>, codec: Codec): Table
  {
    if evs == [] then tb else Apply(Run(tb, evs[..|evs| - 1], codec), evs[|evs| - 1], codec)
  }

  /** Every event keeps the table and the promises in step, settles only
      pending promises, and never touches a settled one. */
  lemma ApplyKeeps(tb: Table, ev: Event, codec: Codec, nextTrace: nat)
    requires Inv(tb, nextTrace)
    ensures Inv(Apply(tb, ev, codec), nextTrace)
    ensures Apply(tb, ev, codec).promises.Keys == tb.promises.Keys
    ensures forall k :: k in tb.promises && !tb.promises[k].Pending? ==>
      Apply(tb, ev, codec).promises[k] == tb.promises[k]
    ensures Apply(tb, ev, codec).requests.Keys <= tb.requests.Keys
  {
  }

  /** A promise settles at most once: whatever events follow, a settled
      promise keeps its value and its request never comes back. */
  lemma {:induction false} SettledStays(tb: Table, evs: seq<Event>, codec: Codec, nextTrace: nat, k: nat)
    requires Inv(tb, nextTrace) && k in tb.promises && !tb.promises[k].Pending?
    ensures Inv(Run(tb, evs, codec), nextTrace)
    ensures k in Run(tb, evs, codec).promises && Run(tb, evs, codec).promises[k] == tb.promises[k]
    ensures k !in Run(tb, evs, codec).requests
  {
    if evs != [] {
      var init := evs[..|evs| - 1];
      SettledStays(tb, init, codec, nextTrace, k);
      ApplyKeeps(Run(tb, init, codec), evs[|evs| - 1], codec, nextTrace);
    }
  }

  /** After a transport failure nothing is pending, and every request that
      was pending carries the failure. */
  lemma FailureSettlesAll(tb: Table, e: Error, codec: Codec, nextTrace: nat)
    requires Inv(tb, nextTrace)
    ensures var r := Apply(tb, TransportFailed(e), codec);
      && r.requests == map[]
      && (forall k :: k in r.promises ==> !r.promises[k].Pending?)
      && (forall k :: k in tb.requests ==> r.promises[k] == Rejected(e))
  {
  }

  /** A request that timed out ignores its late response, and one that was
      answered ignores its timer. */
  lemma LateEventsIgnored(tb: Table, p: Payload, codec: Codec, nextTrace: nat)
    requires Inv(tb, nextTrace) && p.traceId in tb.requests
    ensures var expired := Expire(tb, p.traceId);
      Answer(expired, p, codec) == expired
      && expired.promises[p.traceId] == Rejected(MessageError(UndefinedCode))
    ensures var answered := Answer(tb, p, codec);
      Expire(answered, p.traceId) == answered
      && answered.promises[p.traceId] == DecodeReply(p.dataType, Fragment(p), codec)
  {
  }

  /** RequestHandler: the trace counter is shared with the builder, which
      draws ids from it as well. */
  class RequestHandler {
    const ids: Util.IdGen
    var requests: map<nat, nat>
    var promises: map<nat, Settle<Reply>>

    function State(): Table
      reads this
    {
      Table(requests, promises)
    }

    ghost predicate Valid()
      reads this, ids
    {
      ids.Valid() && Inv(State(), ids.nextTrace)
    }

    constructor (ids: Util.IdGen)
      requires ids.Valid()
      ensures this.ids == ids && Valid()
      ensures requests == map[] && promises == map[]
    {
      this.ids := ids;
      requests := map[];
      promises := map[];
    }

    /** request: take a fresh traceId, classify the data (unsupported data
        is rejected with INTERNAL_ERROR before anything is registered or
        sent), register the request with its timer, and send the data as a
        Request-kind payload under that traceId; a send that throws removes
        the entry and rejects with the thrown error. */
    method Request(data: AppData, opts: RequestOptions, t: Transport?, cfg: Config,
                   codec: Codec, clock: nat)
      returns (requestId: nat)
      requires Valid()
      modifies this, ids, t
      ensures Valid()
      ensures requestId == old(ids.nextTrace) && requestId !in old(promises)
      ensures ids.nextTrace == old(ids.nextTrace) + 1
      ensures Classify(data, codec).None? ==>
        && State() == SettleEntry(old(State()), requestId, Rejected(MessageError(InternalError)))
        && ids.nextSpan == old(ids.nextSpan)
        && (t != null ==> t.sent == old(t.sent))
      ensures Classify(data, codec).Some? ==>
        var c := Classify(data, codec).value;
        var verdict := Fragmenter.SendVerdict(t != null, if t != null then old(t.probe) else None,
                                              requestId, old(ids.nextSpan), |c.1|);
        && ids.nextSpan == old(ids.nextSpan) + 1
        && (verdict.Pass? ==>
              && State() == Table(old(requests)[requestId := TimerDelay(opts)],
                                  old(promises)[requestId := Pending])
              && var h := Fragmenter.SendHeader(requestId, old(ids.nextSpan), PAYLOAD_REQUEST, c.0,
                                                ResponseDataType(opts, c.0), clock);
                 var route := Fragmenter.Route(cfg.appId, cfg.appDevicePort, cfg.appSidePort, TYPE_DATA);
                 t.sent == old(t.sent) + Fragmenter.WireFrames(route, Fragmenter.Fragments(h, c.1), clock))
        && (verdict.Fail? ==>
              && State() == SettleEntry(old(State()), requestId, Rejected(verdict.error))
              && (t != null ==> t.sent == old(t.sent)))
      ensures t != null ==> t.probe == old(t.probe)
    {
      requestId := ids.GenTraceId();
      var classified := Classify(data, codec);
      if classified.None? {
        promises := promises[requestId := Rejected(MessageError(InternalError))];
        return;
      }
      Register(requestId, classified.value.0, classified.value.1, opts, t, cfg, clock);
    }

    /** The part of request after classification: register the entry with
        its timer, then send; a failed send removes the entry again and
        rejects the promise with the error. */
    method Register(requestId: nat, contentType: byte, payloadData: Bytes, opts: RequestOptions,
                    t: Transport?, cfg: Config, clock: nat)
      requires Valid() && requestId < ids.nextTrace && requestId !in promises
      modifies this`requests, this`promises, ids, t
      ensures Valid() && ids.nextTrace == old(ids.nextTrace)
      ensures ids.nextSpan == old(ids.nextSpan) + 1
      ensures var verdict := Fragmenter.SendVerdict(t != null, if t != null then old(t.probe) else None,
                                                    requestId, old(ids.nextSpan), |payloadData|);
        && (verdict.Pass? ==>
              && State() == Table(old(requests)[requestId := TimerDelay(opts)],
                                  old(promises)[requestId := Pending])
              && var h := Fragmenter.SendHeader(requestId, old(ids.nextSpan), PAYLOAD_REQUEST, contentType,
                                                ResponseDataType(opts, contentType), clock);
                 var route := Fragmenter.Route(cfg.appId, cfg.appDevicePort, cfg.appSidePort, TYPE_DATA);
                 t.sent == old(t.sent) + Fragmenter.WireFrames(route, Fragmenter.Fragments(h, payloadData), clock))
        && (verdict.Fail? ==>
              && State() == SettleEntry(old(State()), requestId, Rejected(verdict.error))
              && (t != null ==> t.sent == old(t.sent)))
      ensures t != null ==> t.probe == old(t.probe)
    {
      var timeout := TimerDelay(opts);
      var responseDataType := ResponseDataType(opts, contentType);
      Enter(requestId, timeout);
      var sent := Fragmenter.SendHmProtocol(t, cfg, ids, Some(requestId), payloadData, PAYLOAD_REQUEST,
                                            contentType, responseDataType, TYPE_DATA, clock);
      if sent.Fail? {
        Withdraw(requestId, sent.error);
        AddRemove(old(requests), requestId, timeout);
        UpdateTwice(old(promises), requestId, Pending, Rejected(sent.error));
      }
    }

    /** The table entry of a new request, its promise pending. */
    method Enter(requestId: nat, timeout: nat)
      requires Valid() && requestId < ids.nextTrace && requestId !in promises
      modifies this`requests, this`promises
      ensures Valid()
      ensures State() == Table(old(requests)[requestId := timeout], old(promises)[requestId := Pending])
    {
      requests := requests[requestId := timeout];
      promises := promises[requestId := Pending];
    }

    /** The catch of register: the entry is deleted and its promise
        rejected with the error. */
    method Withdraw(requestId: nat, e: Error)
      requires Valid() && requestId in requests
      modifies this`requests, this`promises
      ensures Valid()
      ensures State() == SettleEntry(old(State()), requestId, Rejected(e))
    {
      requests := requests - {requestId};
      promises := promises[requestId := Rejected(e)];
    }

    /** onResponse. */
    method OnResponse(p: Payload, codec: Codec)
      requires Valid()
      modifies this
      ensures Valid()
      ensures State() == Answer(old(State()), p, codec)
    {
      var requestId := p.traceId;
      if requestId in requests {
        var resultData := DecodeReply(p.dataType, Fragment(p), codec);
        promises := promises[requestId := resultData];
        requests := requests - {requestId};
      }
    }

    /** The callback of a request's timer. */
    method OnTimeout(requestId: nat)
      requires Valid()
      modifies this
      ensures Valid()
      ensures State() == Expire(old(State()), requestId)
    {
      if requestId in requests {
        promises := promises[requestId := Rejected(MessageError(UndefinedCode))];
        requests := requests - {requestId};
      }
    }

    /** handleError: reject every entry of the table with the error, then
        clear it. */
    method HandleError(e: Error)
      requires Valid()
      modifies this`promises, this`requests
      ensures Valid()
      ensures State() == FailAll(old(State()), e)
    {
      promises := RejectEach(State(), e);
      requests := map[];
      FailAllInv(old(State()), e, ids.nextTrace);
    }
  }
}
