/** The receive path of the split MessageBuilder (builder.js, onHmProtoPayload
    and the handlers it installs on every session) over values: the open
    sessions as (size, state) per (traceId, payloadType) key, the request
    table, and the events the builder emits. */
module Inbound {
  import opened Common
  import opened Constants
  import opened FrameCodec
  import opened ChunkCodec
  import opened AppValues
  import opened Reassembly
  import opened Requests
  import Fragmenter

  /** An event the builder emits to its listeners. */
  datatype Emission =
    | ErrorEmitted(error: Error)          // 'error'
    | RequestEmitted(request: Payload)    // 'request', with a response callback
    | CallEmitted(call: Payload)          // 'call'
    | DataEmitted(data: Payload)          // 'data'
    | LogEmitted(log: Body)               // 'log'
    | AppClosed(close: Message)           // 'app:close'
    | ShakeReplied(reply: Message)        // 'shake:response'
    | BleStatusChanged(up: bool)          // 'bleStatusChanged'

  /** The open sessions: the size each was created with and its state. */
  type SessionsView = map<SessionKey, (u32, SessionState)>

  predicate ViewOk(v: SessionsView)
  {
    forall k :: k in v ==> Consistent(v[k].1)
  }

  function ChunkKey(p: Payload): SessionKey
  {
    SessionKey(p.traceId, p.payloadType)
  }

  /** A Continued chunk other than the first of its message, arriving when
      no session exists for it, is discarded. */
  predicate Discarded(v: SessionsView, p: Payload)
  {
    ChunkKey(p) !in v && p.opCode == CONTINUED && p.seqId != 0
  }

  /** What the session's 'data' handler emits for a completed message
      before the 'data' event itself. */
  function Dispatch(d: Payload): (r: seq<Emission>)
    ensures d.payloadType == PAYLOAD_REQUEST <==> r == [RequestEmitted(d)]
    ensures d.payloadType == PAYLOAD_NOTIFY <==> r == [CallEmitted(d)]
    ensures d.payloadType != PAYLOAD_REQUEST && d.payloadType != PAYLOAD_NOTIFY <==> r == []
  {
    if d.payloadType == PAYLOAD_REQUEST then [RequestEmitted(d)]
    else if d.payloadType == PAYLOAD_NOTIFY then [CallEmitted(d)]
    else []
  }

  /** onHmProtoPayload: find or create the session (a new one is sized by
      the chunk's totalLength) and add the chunk to it. */
  function Receive(v: SessionsView, tb: Table, p: Payload, codec: Codec)
    : (r: (SessionsView, Table, seq<Emission>))
    requires ViewOk(v)
    ensures ViewOk(r.0)
    ensures r.0 - {ChunkKey(p)} == v - {ChunkKey(p)}
    ensures Discarded(v, p) ==> r == (v, tb, [])
  {
    var key := ChunkKey(p);
    if Discarded(v, p) then (v, tb, [])
    else
      var size := if key in v then v[key].0 else p.totalLength;
      var st := if key in v then v[key].1 else Empty;
      var step := AddChunkSpec(size, st, p);
      React(v, tb, key, size, step.0, step.1, codec)
  }

  /** The handlers the builder installs on a session, acting on what
      addChunk emitted: a completed Finished message is dispatched by
      payload type (a Response goes to the request table), emitted as
      'data', and its session destroyed; a session error destroys the
      session and is re-emitted; otherwise the session stays open. */
  function React(v: SessionsView, tb: Table, key: SessionKey, size: u32, st: SessionState,
                 ev: SessionEvent, codec: Codec)
    : (r: (SessionsView, Table, seq<Emission>))
    requires ViewOk(v) && Consistent(st)
    ensures ViewOk(r.0)
    ensures r.0 - {key} == v - {key}
    ensures key in r.0 <==> ev.NoEvent? || (ev.DataEvent? && ev.data.opCode != FINISHED)
    ensures ev.ErrorEvent? ==> r == (v - {key}, tb, [ErrorEmitted(ev.error)])
  {
    match ev
    case NoEvent => (v[key := (size, st)], tb, [])
    case ErrorEvent(e) => (v - {key}, tb, [ErrorEmitted(e)])
    case DataEvent(d) =>
      if d.opCode != FINISHED then (v[key := (size, st)], tb, [])
      else (v - {key}, if d.payloadType == PAYLOAD_RESPONSE then Answer(tb, d, codec) else tb,
            Dispatch(d) + [DataEmitted(d)])
  }

  /** The chunks handed to onHmProtoPayload one by one, oldest first. */
  function ReceiveAll(v: SessionsView, tb: Table, ps: seq<Payload>, codec: Codec)
    : (r: (SessionsView, Table, seq<Emission>))
    requires ViewOk(v)
    ensures ViewOk(r.0)
  {
    if ps == [] then (v, tb, [])
    else
      var before := ReceiveAll(v, tb, ps[..|ps| - 1], codec);
      var step := Receive(before.0, before.1, ps[|ps| - 1], codec);
      (step.0, step.1, before.2 + step.2)
  }

  /** The message a send's chunks reassemble into: the Finished chunk
      carrying all the data. */
  function Assembled(h: Fragmenter.SendHeader, data: Bytes): Payload
    requires |data| < 0x1_0000_0000
  {
    var f := Fragmenter.Fragments(h, data);
    f[|f| - 1].(payload := Buf(data), payloadLength := |data|)
  }

  /** While a session for the key stays silent, every chunk delivered after
      the one that opened it lands in it, in arrival order. */
  lemma {:induction false} ReceivePrefix(v: SessionsView, tb: Table, ps: seq<Payload>, codec: Codec,
                                        size: u32, j: nat)
    requires ViewOk(v) && 0 < j <= |ps|
    requires forall i :: 0 <= i < |ps| ==> ChunkKey(ps[i]) == ChunkKey(ps[0])
    requires ChunkKey(ps[0]) !in v && !Discarded(v, ps[0]) && size == ps[0].totalLength
    requires Feed(size, Empty, ps[..j]).1 == seq(j, _ => NoEvent)
    ensures ReceiveAll(v, tb, ps[..j], codec) == (v[ChunkKey(ps[0]) := (size, Feed(size, Empty, ps[..j]).0)], tb, [])
  {
    FeedSilentInit(size, ps, j);
    if j > 1 {
      ReceivePrefix(v, tb, ps, codec, size, j - 1);
    }
    ReceivePrefixStep(v, tb, ps, codec, size, j);
  }

  /** A silent run of j chunks is a silent run of j - 1 followed by one
      more silent step. */
  lemma FeedSilentInit(size: u32, ps: seq<Payload>, j: nat)
    requires 0 < j <= |ps|
    requires Feed(size, Empty, ps[..j]).1 == seq(j, _ => NoEvent)
    ensures Feed(size, Empty, ps[..j - 1]).1 == seq(j - 1, _ => NoEvent)
    ensures var fedBefore := Feed(size, Empty, ps[..j - 1]);
      var step := AddChunkSpec(size, fedBefore.0, ps[j - 1]);
      step.1 == NoEvent && Feed(size, Empty, ps[..j]).0 == step.0
  {
    InitOfPrefix(ps, j);
    var fedBefore := Feed(size, Empty, ps[..j - 1]);
    var step := AddChunkSpec(size, fedBefore.0, ps[j - 1]);
    assert Feed(size, Empty, ps[..j]) == (step.0, fedBefore.1 + [step.1]);
    assert step.1 == Feed(size, Empty, ps[..j]).1[j - 1] == NoEvent;
    assert fedBefore.1 == Feed(size, Empty, ps[..j]).1[..j - 1];
  }

  /** The step of ReceivePrefix, given the run before the j-th chunk. */
  lemma ReceivePrefixStep(v: SessionsView, tb: Table, ps: seq<Payload>, codec: Codec, size: u32, j: nat)
    requires ViewOk(v) && 0 < j <= |ps|
    requires forall i :: 0 <= i < |ps| ==> ChunkKey(ps[i]) == ChunkKey(ps[0])
    requires ChunkKey(ps[0]) !in v && !Discarded(v, ps[0]) && size == ps[0].totalLength
    requires var fedBefore := Feed(size, Empty, ps[..j - 1]);
      var step := AddChunkSpec(size, fedBefore.0, ps[j - 1]);
      step.1 == NoEvent && Feed(size, Empty, ps[..j]).0 == step.0
    requires j > 1 ==>
      ReceiveAll(v, tb, ps[..j - 1], codec) == (v[ChunkKey(ps[0]) := (size, Feed(size, Empty, ps[..j - 1]).0)], tb, [])
    ensures ReceiveAll(v, tb, ps[..j], codec) == (v[ChunkKey(ps[0]) := (size, Feed(size, Empty, ps[..j]).0)], tb, [])
  {
    InitOfPrefix(ps, j);
    var key := ChunkKey(ps[0]);
    var fedBefore := Feed(size, Empty, ps[..j - 1]);
    var step := AddChunkSpec(size, fedBefore.0, ps[j - 1]);
    if j == 1 {
      assert ps[..0] == [];
      FirstSilent(v, tb, ps, codec, size);
      ReceiveAllLast(v, tb, ps[..j], codec, v, (v[key := (size, step.0)], tb, []));
    } else {
      LaterSilent(v, tb, ps, codec, size, j);
      ReceiveAllLast(v, tb, ps[..j], codec, v[key := (size, fedBefore.0)], (v[key := (size, step.0)], tb, []));
    }
  }

  /** The first chunk, taken silently, opens its session. */
  lemma FirstSilent(v: SessionsView, tb: Table, ps: seq<Payload>, codec: Codec, size: u32)
    requires ViewOk(v) && 0 < |ps|
    requires ChunkKey(ps[0]) !in v && !Discarded(v, ps[0]) && size == ps[0].totalLength
    requires AddChunkSpec(size, Empty, ps[0]).1 == NoEvent
    ensures ReceiveAll(v, tb, ps[..0], codec) == (v, tb, [])
    ensures Receive(v, tb, ps[0], codec) == (v[ChunkKey(ps[0]) := (size, AddChunkSpec(size, Empty, ps[0]).0)], tb, [])
  {
    assert ps[..0] == [];
    SilentReceive(v, tb, ps[0], codec, size, Empty);
  }

  /** A later chunk, taken silently, updates the open session. */
  lemma LaterSilent(v: SessionsView, tb: Table, ps: seq<Payload>, codec: Codec, size: u32, j: nat)
    requires ViewOk(v) && 1 < j <= |ps|
    requires forall i :: 0 <= i < |ps| ==> ChunkKey(ps[i]) == ChunkKey(ps[0])
    requires ChunkKey(ps[0]) !in v
    requires Consistent(Feed(size, Empty, ps[..j - 1]).0)
    requires AddChunkSpec(size, Feed(size, Empty, ps[..j - 1]).0, ps[j - 1]).1 == NoEvent
    ensures var key := ChunkKey(ps[0]);
      var st := Feed(size, Empty, ps[..j - 1]).0;
      Receive(v[key := (size, st)], tb, ps[j - 1], codec)
        == (v[key := (size, AddChunkSpec(size, st, ps[j - 1]).0)], tb, [])
  {
    var key := ChunkKey(ps[0]);
    var st := Feed(size, Empty, ps[..j - 1]).0;
    var view := v[key := (size, st)];
    assert ChunkKey(ps[j - 1]) in view;
    SilentReceive(view, tb, ps[j - 1], codec, size, st);
    UpdateTwice(v, key, (size, st), (size, AddChunkSpec(size, st, ps[j - 1]).0));
  }

  /** A chunk the session takes silently only updates that session. */
  lemma SilentReceive(v: SessionsView, tb: Table, p: Payload, codec: Codec, size: u32, st: SessionState)
    requires ViewOk(v) && Consistent(st) && !Discarded(v, p)
    requires if ChunkKey(p) in v then v[ChunkKey(p)] == (size, st)
             else st == Empty && size == p.totalLength
    requires AddChunkSpec(size, st, p).1 == NoEvent
    ensures Receive(v, tb, p, codec) == (v[ChunkKey(p) := (size, AddChunkSpec(size, st, p).0)], tb, [])
  {
    var step := AddChunkSpec(size, st, p);
    assert Receive(v, tb, p, codec) == React(v, tb, ChunkKey(p), size, step.0, step.1, codec);
  }

  /** A run of chunks of one key that a fresh session answers with silence
      and then one completed Finished message: the builder dispatches that
      message once and leaves the open sessions as they were. */
  lemma {:induction false} DeliverFed(v: SessionsView, tb: Table, ps: seq<Payload>, codec: Codec,
                                     size: u32, d: Payload)
    requires ViewOk(v) && |ps| > 0
    requires forall i :: 0 <= i < |ps| ==> ChunkKey(ps[i]) == ChunkKey(ps[0])
    requires ChunkKey(ps[0]) !in v && !Discarded(v, ps[0]) && size == ps[0].totalLength
    requires Feed(size, Empty, ps[..|ps| - 1]).1 == seq(|ps| - 1, _ => NoEvent)
    requires AddChunkSpec(size, Feed(size, Empty, ps[..|ps| - 1]).0, ps[|ps| - 1]).1 == DataEvent(d)
    requires d.opCode == FINISHED
    ensures ReceiveAll(v, tb, ps, codec) == Delivered(v, tb, d, codec)
  {
    if |ps| == 1 {
      DeliverOne(v, tb, ps, codec, size, d);
    } else {
      DeliverMany(v, tb, ps, codec, size, d);
    }
  }

  /** DeliverFed for a message carried by a single chunk. */
  lemma DeliverOne(v: SessionsView, tb: Table, ps: seq<Payload>, codec: Codec, size: u32, d: Payload)
    requires ViewOk(v) && |ps| == 1
    requires ChunkKey(ps[0]) !in v && !Discarded(v, ps[0]) && size == ps[0].totalLength
    requires AddChunkSpec(size, Feed(size, Empty, ps[..0]).0, ps[0]).1 == DataEvent(d)
    requires d.opCode == FINISHED
    ensures ReceiveAll(v, tb, ps, codec) == Delivered(v, tb, d, codec)
  {
    SilentNone(v, tb, ps, codec, size);
    FinishReceive(v, tb, ps[0], codec, size, Empty, d);
    RemoveAbsent(v, ChunkKey(ps[0]));
    ReceiveAllLast(v, tb, ps, codec, v, Delivered(v, tb, d, codec));
  }

  /** DeliverFed for a message carried by several chunks. */
  lemma DeliverMany(v: SessionsView, tb: Table, ps: seq<Payload>, codec: Codec, size: u32, d: Payload)
    requires ViewOk(v) && |ps| > 1
    requires forall i :: 0 <= i < |ps| ==> ChunkKey(ps[i]) == ChunkKey(ps[0])
    requires ChunkKey(ps[0]) !in v && !Discarded(v, ps[0]) && size == ps[0].totalLength
    requires Feed(size, Empty, ps[..|ps| - 1]).1 == seq(|ps| - 1, _ => NoEvent)
    requires AddChunkSpec(size, Feed(size, Empty, ps[..|ps| - 1]).0, ps[|ps| - 1]).1 == DataEvent(d)
    requires d.opCode == FINISHED
    ensures ReceiveAll(v, tb, ps, codec) == Delivered(v, tb, d, codec)
  {
    var st := Feed(size, Empty, ps[..|ps| - 1]).0;
    var held := v[ChunkKey(ps[0]) := (size, st)];
    SilentSome(v, tb, ps, codec, size);
    FinishReceive(held, tb, ps[|ps| - 1], codec, size, st, d);
    ReceiveAllLast(v, tb, ps, codec, held, Delivered(v, tb, d, codec));
  }

  /** What the builder does with a completed Finished message when the
      other open sessions are v: they stay, a Response goes to the request
      table, and the message is dispatched and emitted as 'data'. */
  function Delivered(v: SessionsView, tb: Table, d: Payload, codec: Codec): (SessionsView, Table, seq<Emission>)
  {
    (v, if d.payloadType == PAYLOAD_RESPONSE then Answer(tb, d, codec) else tb, Dispatch(d) + [DataEmitted(d)])
  }

  /** The last of a run of chunks that arrived silently decides the run. */
  lemma ReceiveAllLast(v: SessionsView, tb: Table, ps: seq<Payload>, codec: Codec,
                       mid: SessionsView, r: (SessionsView, Table, seq<Emission>))
    requires ViewOk(v) && ViewOk(mid) && |ps| > 0
    requires ReceiveAll(v, tb, ps[..|ps| - 1], codec) == (mid, tb, [])
    requires Receive(mid, tb, ps[|ps| - 1], codec) == r
    ensures ReceiveAll(v, tb, ps, codec) == r
  {
    ReceiveAllSnoc(v, tb, ps, codec);
    assert [] + r.2 == r.2;
  }

  /** Before the last chunk, a single chunk means no session was opened,
      several mean the key's session holds the ones that arrived. */
  lemma SilentNone(v: SessionsView, tb: Table, ps: seq<Payload>, codec: Codec, size: u32)
    requires ViewOk(v) && |ps| == 1
    ensures ReceiveAll(v, tb, ps[..0], codec) == (v, tb, []) && Feed(size, Empty, ps[..0]).0 == Empty
  {
    assert ps[..0] == [];
  }

  lemma SilentSome(v: SessionsView, tb: Table, ps: seq<Payload>, codec: Codec, size: u32)
    requires ViewOk(v) && |ps| > 1
    requires forall i :: 0 <= i < |ps| ==> ChunkKey(ps[i]) == ChunkKey(ps[0])
    requires ChunkKey(ps[0]) !in v && !Discarded(v, ps[0]) && size == ps[0].totalLength
    requires Feed(size, Empty, ps[..|ps| - 1]).1 == seq(|ps| - 1, _ => NoEvent)
    ensures var held := v[ChunkKey(ps[0]) := (size, Feed(size, Empty, ps[..|ps| - 1]).0)];
      ReceiveAll(v, tb, ps[..|ps| - 1], codec) == (held, tb, []) && held - {ChunkKey(ps[0])} == v
  {
    ReceivePrefix(v, tb, ps, codec, size, |ps| - 1);
    AddRemove(v, ChunkKey(ps[0]), (size, Feed(size, Empty, ps[..|ps| - 1]).0));
  }

  /** The chunk that completes a Finished message ends its session. */
  lemma FinishReceive(v: SessionsView, tb: Table, p: Payload, codec: Codec,
                      size: u32, st: SessionState, d: Payload)
    requires ViewOk(v) && Consistent(st) && !Discarded(v, p)
    requires if ChunkKey(p) in v then v[ChunkKey(p)] == (size, st)
             else st == Empty && size == p.totalLength
    requires AddChunkSpec(size, st, p).1 == DataEvent(d) && d.opCode == FINISHED
    ensures Receive(v, tb, p, codec)
         == (v - {ChunkKey(p)}, if d.payloadType == PAYLOAD_RESPONSE then Answer(tb, d, codec) else tb,
             Dispatch(d) + [DataEmitted(d)])
  {
    var step := AddChunkSpec(size, st, p);
    assert Receive(v, tb, p, codec) == React(v, tb, ChunkKey(p), size, step.0, step.1, codec);
  }

  lemma ReceiveAllSnoc(v: SessionsView, tb: Table, ps: seq<Payload>, codec: Codec)
    requires ViewOk(v) && |ps| > 0
    ensures var before := ReceiveAll(v, tb, ps[..|ps| - 1], codec);
      var step := Receive(before.0, before.1, ps[|ps| - 1], codec);
      ReceiveAll(v, tb, ps, codec) == (step.0, step.1, before.2 + step.2)
  {
  }

  /** Delivery of a whole send: when its chunks arrive in any order whose
      first chunk is chunk 0 or the Finished one, and no session for its key
      is open, the builder stays silent until the last chunk, then dispatches
      the reassembled message once (to the request table for a Response),
      emits it as 'data', and leaves no session behind. */
  lemma {:induction false} DeliverSend(h: Fragmenter.SendHeader, data: Bytes, perm: seq<Payload>,
                                       v: SessionsView, tb: Table, codec: Codec)
    requires |data| < 0x1_0000_0000 && ViewOk(v)
    requires multiset(perm) == multiset(Fragmenter.Fragments(h, data))
    requires SessionKey(h.traceId, h.payloadType) !in v
    requires perm != [] && (perm[0].opCode == FINISHED || perm[0].seqId == 0)
    ensures var d := Assembled(h, data);
      && Fragment(d) == data && d.traceId == h.traceId && d.payloadType == h.payloadType
      && d.contentType == h.contentType && d.dataType == h.dataType
      && ReceiveAll(v, tb, perm, codec)
         == (v, if h.payloadType == PAYLOAD_RESPONSE then Answer(tb, d, codec) else tb,
             Dispatch(d) + [DataEmitted(d)])
  {
    var f := Fragmenter.Fragments(h, data);
    var n: u32 := |data|;
    var d := Assembled(h, data);
    MultisetLength(perm, f);
    FragmentsWellFormed(h, data);
    ReassembleWellFormed(f, n, perm);
    AssembledHeader(h, data);
    SameKey(h, data, perm);
    SplitFeed(n, perm, d);
    DeliverFed(v, tb, perm, codec, n, d);
  }

  /** Events of silence followed by one delivery, read off chunk by chunk:
      the chunks before the last are silent and the last one delivers. */
  lemma SplitFeed(n: u32, ps: seq<Payload>, d: Payload)
    requires |ps| > 0 && Feed(n, Empty, ps).1 == seq(|ps| - 1, _ => NoEvent) + [DataEvent(d)]
    ensures Feed(n, Empty, ps[..|ps| - 1]).1 == seq(|ps| - 1, _ => NoEvent)
    ensures AddChunkSpec(n, Feed(n, Empty, ps[..|ps| - 1]).0, ps[|ps| - 1]).1 == DataEvent(d)
  {
    var k := |ps|;
    PrefixWhole(ps);
    var fedBefore := Feed(n, Empty, ps[..k - 1]);
    var step := AddChunkSpec(n, fedBefore.0, ps[k - 1]);
    var fed := Feed(n, Empty, ps);
    assert fed == (step.0, fedBefore.1 + [step.1]);
    assert step.1 == fed.1[k - 1] == DataEvent(d);
    assert fedBefore.1 == fed.1[..k - 1] == seq(k - 1, _ => NoEvent);
  }

  /** The assembled message keeps the send's header fields. */
  lemma AssembledHeader(h: Fragmenter.SendHeader, data: Bytes)
    requires |data| < 0x1_0000_0000
    ensures var d := Assembled(h, data);
      && Fragment(d) == data && d.traceId == h.traceId && d.payloadType == h.payloadType
      && d.contentType == h.contentType && d.dataType == h.dataType && d.opCode == FINISHED
  {
    Fragmenter.FragmentsHeaders(h, data);
  }

  /** Every chunk of a send, in whatever order, carries the send's key and
      its totalLength. */
  lemma SameKey(h: Fragmenter.SendHeader, data: Bytes, perm: seq<Payload>)
    requires |data| < 0x1_0000_0000
    requires multiset(perm) == multiset(Fragmenter.Fragments(h, data))
    ensures forall i :: 0 <= i < |perm| ==>
      ChunkKey(perm[i]) == SessionKey(h.traceId, h.payloadType) && perm[i].totalLength == |data|
  {
    var f := Fragmenter.Fragments(h, data);
    Fragmenter.FragmentsHeaders(h, data);
    forall i | 0 <= i < |perm|
      ensures ChunkKey(perm[i]) == SessionKey(h.traceId, h.payloadType) && perm[i].totalLength == |data|
    {
      assert perm[i] in multiset(f);
    }
  }
}
