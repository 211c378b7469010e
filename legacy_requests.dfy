/** The request bookkeeping of the single-file MessageBuilder (message.js):
    request registers a transact handler under its traceId in `handlers`
    BEFORE it sends, and attaches the clean-up (cancel the timer, delete the
    handler) to the request's promise only once the send has returned. A
    send that throws therefore leaves its handler behind, and a response
    handler that throws leaves its request pending. Timers and promises are
    replaced by explicit events and by the settle state of each promise. */
module LegacyRequests {
  import opened Common
  import opened Constants
  import opened ChunkCodec
  import opened AppValues
  import Requests

  type Reply = Requests.Reply

  /** One request: its promise, whether the clean-up is attached to it, and
      whether its timer has not fired or been cancelled yet. */
  datatype Entry = Entry(promise: Settle<Reply>, attached: bool, timerArmed: bool)

  /** The traceIds that have a handler in `handlers`, and every request made. */
  datatype Handlers = Handlers(live: set<nat>, entries: map<nat, Entry>)

  const NoHandlers := Handlers({}, map[])

  /** Every handler belongs to a request, a pending request still has its
      timer, and a settled request with the clean-up attached has no handler. */
  predicate Inv(h: Handlers)
  {
    && h.live <= h.entries.Keys
    && forall id :: id in h.entries ==>
         && (h.entries[id].promise.Pending? ==> h.entries[id].timerArmed)
         && (h.entries[id].attached && !h.entries[id].promise.Pending? ==> id !in h.live)
  }

  /** handlers.set(requestId, transact), a new Deferred and its timer. */
  function Register(h: Handlers, id: nat): (r: Handlers)
    requires Inv(h)
    ensures Inv(r)
    ensures r.live == h.live + {id} && id in r.entries
    ensures r.entries[id] == Entry(Pending, false, true)
    ensures forall k :: k in h.entries && k != id ==> k in r.entries && r.entries[k] == h.entries[k]
  {
    Handlers(h.live + {id}, h.entries[id := Entry(Pending, false, true)])
  }

  /** A promise settles at most once; once it has, the clean-up runs if it
      is attached: the timer is cancelled and the handler deleted. */
  function Settle(h: Handlers, id: nat, v: Settle<Reply>): (r: Handlers)
    requires Inv(h) && !v.Pending?
    ensures Inv(r)
    ensures id !in h.entries || !h.entries[id].promise.Pending? ==> r == h
    ensures id in h.entries && h.entries[id].promise.Pending? ==>
      && id in r.entries && r.entries == h.entries[id := r.entries[id]]
      && r.entries[id].promise == v && r.entries[id].attached == h.entries[id].attached
      && r.live == (if h.entries[id].attached then h.live - {id} else h.live)
  {
    if id !in h.entries || !h.entries[id].promise.Pending? then h
    else
      var e := h.entries[id].(promise := v);
      if e.attached then Handlers(h.live - {id}, h.entries[id := e.(timerArmed := false)])
      else Handlers(h.live, h.entries[id := e])
  }

  /** The `.catch().finally()` chain attached once the send returned; on a
      promise that has already settled the clean-up runs at once. */
  function Attach(h: Handlers, id: nat): (r: Handlers)
    requires Inv(h)
    ensures Inv(r)
    ensures id in h.entries ==>
      id in r.entries && r.entries[id].attached && r.entries[id].promise == h.entries[id].promise
    ensures r.entries.Keys == h.entries.Keys
  {
    if id !in h.entries then h
    else
      var e := h.entries[id].(attached := true);
      if e.promise.Pending? then h.(entries := h.entries[id := e])
      else Handlers(h.live - {id}, h.entries[id := e.(timerArmed := false)])
  }

  /** The request timer firing: the promise is rejected with
      REQUEST_TIME_OUT (a settled one stays as it is). */
  function TimerFires(h: Handlers, id: nat): (r: Handlers)
    requires Inv(h)
    ensures Inv(r)
    ensures id in h.entries && h.entries[id].promise.Pending? ==>
      && id in r.entries && r.entries[id].promise == Rejected(MessageError(RequestTimeOut))
      && (h.entries[id].attached ==> r.live == h.live - {id})
      && (!h.entries[id].attached ==> r.live == h.live)
  {
    if id !in h.entries || !h.entries[id].timerArmed then h
    else
      var e := h.entries[id].(timerArmed := false);
      if !e.promise.Pending? then h.(entries := h.entries[id := e])
      else Handlers(if e.attached then h.live - {id} else h.live,
                    h.entries[id := e.(promise := Rejected(MessageError(RequestTimeOut)))])
  }

  /** disConnect's handlers.clear(): every handler goes, the promises and
      their timers stay. */
  function ClearAll(h: Handlers): (r: Handlers)
    requires Inv(h)
    ensures Inv(r) && r.live == {} && r.entries == h.entries
  {
    h.(live := {})
  }

  /** transact: the link checks throw first; then the payload is decoded by
      its dataType (TEXT as text, JSON parsed, where a parse failure
      throws, anything else including EMPTY the raw bytes). */
  function Transact(p: Payload, bleDown: bool, sideClosed: bool, codec: Codec): (r: Result<Reply>)
    ensures bleDown ==> r == Err(MessageError(BleClose))
    ensures !bleDown && sideClosed ==> r == Err(MessageError(AppClose))
    ensures !bleDown && !sideClosed ==>
      && (r.Err? <==> p.dataType == JSON && codec.buf2json(Fragment(p)).None?)
      && (r.Err? ==> r.error == ParseError)
      && (p.dataType != JSON && p.dataType != TEXT ==> r == Ok(Requests.Raw(Fragment(p))))
  {
    if bleDown then Err(MessageError(BleClose))
    else if sideClosed then Err(MessageError(AppClose))
    else if p.dataType == TEXT then Ok(Requests.TextReply(codec.buf2str(Fragment(p))))
    else if p.dataType == BIN then Ok(Requests.Raw(Fragment(p)))
    else if p.dataType == JSON then
      var v := codec.buf2json(Fragment(p));
      if v.None? then Err(ParseError) else Ok(Requests.Parsed(v.value))
    else Ok(Requests.Raw(Fragment(p)))
  }

  /** onResponse: the handler under the response's traceId, if any, runs
      transact and resolves the request with its result; an exception from
      transact propagates to the caller and leaves the request as it was. */
  function OnResponse(h: Handlers, p: Payload, bleDown: bool, sideClosed: bool, codec: Codec)
    : (r: (Handlers, Outcome))
    requires Inv(h)
    ensures Inv(r.0)
    ensures p.traceId !in h.live ==> r == (h, Pass)
    ensures r.1.Fail? ==> r.0 == h && Transact(p, bleDown, sideClosed, codec) == Err(r.1.error)
    ensures p.traceId in h.live && Transact(p, bleDown, sideClosed, codec).Ok? ==>
      r == (Settle(h, p.traceId, Resolved(Transact(p, bleDown, sideClosed, codec).value)), Pass)
  {
    if p.traceId !in h.live then (h, Pass)
    else
      var t := Transact(p, bleDown, sideClosed, codec);
      if t.Err? then (h, Fail(t.error))
      else (Settle(h, p.traceId, Resolved(t.value)), Pass)
  }

  datatype Event =
    | Response(p: Payload, bleDown: bool, sideClosed: bool)
    | TimerFired(id: nat)
    | Cleared

  function Apply(h: Handlers, ev: Event, codec: Codec): (r: Handlers)
    requires Inv(h)
    ensures Inv(r)
  {
    match ev
    case Response(p, down, closed) => OnResponse(h, p, down, closed, codec).0
    case TimerFired(id) => TimerFires(h, id)
    case Cleared => ClearAll(h)
  }

  /** The handlers after a sequence of events, oldest first. */
  function Run(h: Handlers, evs: seq<Event>, codec: Codec): (r: Handlers)
    requires Inv(h)
    ensures Inv(r)
  {
    if evs == [] then h else Apply(Run(h, evs[..|evs| - 1], codec), evs[|evs| - 1], codec)
  }

  /** No event removes a request or changes a settled promise. */
  lemma {:induction false} SettledStays(h: Handlers, evs: seq<Event>, codec: Codec, id: nat)
    requires Inv(h) && id in h.entries && !h.entries[id].promise.Pending?
    ensures id in Run(h, evs, codec).entries
    ensures Run(h, evs, codec).entries[id].promise == h.entries[id].promise
  {
    if evs != [] {
      SettledStays(h, evs[..|evs| - 1], codec, id);
    }
  }

  /** The handler leak: a request whose send threw (so the clean-up was
      never attached) keeps its handler through responses and its own timer;
      only disConnect's clear removes it. */
  lemma {:induction false} UnattachedHandlerStays(h: Handlers, evs: seq<Event>, codec: Codec, id: nat)
    requires Inv(h) && id in h.live && !h.entries[id].attached
    requires forall i :: 0 <= i < |evs| ==> !evs[i].Cleared?
    ensures id in Run(h, evs, codec).live && !Run(h, evs, codec).entries[id].attached
  {
    if evs != [] {
      UnattachedHandlerStays(h, evs[..|evs| - 1], codec, id);
    }
  }

  /** A request whose clean-up is attached has no handler any more once
      its promise has settled, whatever settled it. */
  lemma {:induction false} AttachedReleased(h: Handlers, evs: seq<Event>, codec: Codec, id: nat)
    requires Inv(h) && id in h.entries && h.entries[id].attached
    ensures var r := Run(h, evs, codec);
      id in r.entries && r.entries[id].attached
      && (!r.entries[id].promise.Pending? ==> id !in r.live)
  {
    if evs != [] {
      AttachedReleased(h, evs[..|evs| - 1], codec, id);
    }
  }

  /** A response whose JSON does not parse throws out of the handler: the
      request stays pending and keeps its handler, to be answered again or
      to time out. */
  lemma UnparsableResponseLeavesPending(h: Handlers, p: Payload, codec: Codec)
    requires Inv(h) && p.traceId in h.live && h.entries[p.traceId].promise.Pending?
    requires p.dataType == JSON && codec.buf2json(Fragment(p)).None?
    ensures OnResponse(h, p, false, false, codec) == (h, Fail(ParseError))
  {
  }

  /** Where the versions differ on an EMPTY response: the single-file
      handler resolves with the raw bytes, the split handler with undefined. */
  lemma EmptyResponseDiffers(p: Payload, codec: Codec)
    requires p.dataType == EMPTY
    ensures Transact(p, false, false, codec) == Ok(Requests.Raw(Fragment(p)))
    ensures Requests.DecodeReply(EMPTY, Fragment(p), codec) == Resolved(Requests.Undefined)
  {
  }
}
