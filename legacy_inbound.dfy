/** The receive path of the single-file MessageBuilder (message.js,
    onMessage) over values: every chunk finds or opens the session of its
    (traceId, payloadType) — there is no rule that drops a stray chunk — and
    what the session reports is handled by the listeners onMessage installs.
    A Response goes to onResponse, whose handler may throw; the exception
    then leaves the session open and skips the 'data' event. */
module LegacyInbound {
  import opened Common
  import opened Constants
  import opened FrameCodec
  import opened ChunkCodec
  import opened AppValues
  import opened LegacyReassembly
  import opened LegacyRequests
  import Reassembly
  import Fragmenter
  import Inbound

  type Emission = Inbound.Emission

  /** The open sessions: the state of each, by key. */
  type LegacyView = map<SessionKey, LegacyState>

  /** What transact checks before it decodes a response: the device's BLE
      link is down, or the device knows no side service (appSidePort 0). */
  datatype LinkState = LinkState(bleDown: bool, sideClosed: bool)

  /** The session's 'data' listener for a Finished message, up to the
      'data' event: a Request and a Notify are emitted, a Response is handed
      to onResponse (which may throw), anything else passes silently. */
  function Deliver(h: Handlers, d: Payload, link: LinkState, codec: Codec): (r: (Handlers, seq<Emission>, Outcome))
    requires Inv(h)
    ensures Inv(r.0)
    ensures d.payloadType != PAYLOAD_RESPONSE ==> r.0 == h && r.1 == Inbound.Dispatch(d) && r.2 == Pass
    ensures d.payloadType == PAYLOAD_RESPONSE ==>
      r.1 == [] && (r.0, r.2) == OnResponse(h, d, link.bleDown, link.sideClosed, codec)
  {
    if d.payloadType == PAYLOAD_RESPONSE then
      var answered := OnResponse(h, d, link.bleDown, link.sideClosed, codec);
      (answered.0, [], answered.1)
    else (h, Inbound.Dispatch(d), Pass)
  }

  /** The listeners onMessage installs on a session, acting on what
      addChunk reported: a Finished message is delivered, emitted as 'data'
      and its session destroyed; an exception from the delivery ends the
      call there; a session error destroys the session and is re-emitted;
      otherwise the session stays open with its new state. */
  function React(v: LegacyView, h: Handlers, key: SessionKey, st: LegacyState, ev: SessionEvent,
                 link: LinkState, codec: Codec)
    : (r: (LegacyView, Handlers, seq<Emission>, Outcome))
    requires Inv(h)
    ensures Inv(r.1)
    ensures r.0 - {key} == v - {key}
    ensures ev.ErrorEvent? ==> r == (v - {key}, h, [Inbound.ErrorEmitted(ev.error)], Pass)
    ensures ev.NoEvent? ==> r == (v[key := st], h, [], Pass)
    ensures r.3.Fail? ==>
      && ev.DataEvent? && ev.data.payloadType == PAYLOAD_RESPONSE
      && r.0 == v[key := st] && r.1 == h && r.2 == []
  {
    match ev
    case NoEvent => (v[key := st], h, [], Pass)
    case ErrorEvent(e) => (v - {key}, h, [Inbound.ErrorEmitted(e)], Pass)
    case DataEvent(d) =>
      if d.opCode != FINISHED then (v[key := st], h, [], Pass)
      else
        var dl := Deliver(h, d, link, codec);
        if dl.2.Fail? then (v[key := st], dl.0, dl.1, dl.2)
        else (v - {key}, dl.0, dl.1 + [Inbound.DataEmitted(d)], Pass)
  }

  /** onMessage after readPayload: getById or newSession, then addChunk. */
  function Receive(v: LegacyView, h: Handlers, p: Payload, link: LinkState, codec: Codec)
    : (r: (LegacyView, Handlers, seq<Emission>, Outcome))
    requires Inv(h)
    ensures Inv(r.1)
    ensures r.0 - {Inbound.ChunkKey(p)} == v - {Inbound.ChunkKey(p)}
  {
    var key := Inbound.ChunkKey(p);
    var st := if key in v then v[key] else Fresh;
    var step := AddChunkSpec(st, p);
    React(v, h, key, step.0, step.1, link, codec)
  }

  /** The chunks handed to onMessage one by one, oldest first; an exception
      ends only the call that raised it. */
  function ReceiveAll(v: LegacyView, h: Handlers, ps: seq<Payload>, link: LinkState, codec: Codec)
    : (r: (LegacyView, Handlers, seq<Emission>))
    requires Inv(h)
    ensures Inv(r.1)
  {
    if ps == [] then (v, h, [])
    else
      var before := ReceiveAll(v, h, ps[..|ps| - 1], link, codec);
      var step := Receive(before.0, before.1, ps[|ps| - 1], link, codec);
      (step.0, step.1, before.2 + step.2)
  }

  lemma ReceiveAllSnoc(v: LegacyView, h: Handlers, ps: seq<Payload>, link: LinkState, codec: Codec)
    requires Inv(h) && |ps| > 0
    ensures var before := ReceiveAll(v, h, ps[..|ps| - 1], link, codec);
      var step := Receive(before.0, before.1, ps[|ps| - 1], link, codec);
      ReceiveAll(v, h, ps, link, codec) == (step.0, step.1, before.2 + step.2)
  {
  }

  /** The view in which the key's session holds the chunks that arrived
      so far (no session before the first one). */
  function Opened(v: LegacyView, key: SessionKey, f: seq<Payload>, pre: seq<Payload>): LegacyView
    requires |f| > 0
  {
    if pre == [] then v else v[key := Partial(f, pre)]
  }

  /** One chunk of a send arriving while the key's session holds the chunks
      before it: the builder hands it to that session (a fresh one for the
      first chunk) and reacts to what the session reports. */
  lemma ArriveAt(v: LegacyView, h: Handlers, f: seq<Payload>, pre: seq<Payload>, x: Payload,
                 key: SessionKey, link: LinkState, codec: Codec)
    requires Inv(h) && |f| > 0 && key !in v && Inbound.ChunkKey(x) == key
    ensures var step := AddChunkSpec(Partial(f, pre), x);
      Receive(Opened(v, key, f, pre), h, x, link, codec) ==
        React(Opened(v, key, f, pre), h, key, step.0, step.1, link, codec)
  {
    assert pre == [] ==> Partial(f, pre) == Fresh;
  }

  /** Before the last chunk of a send arrives, every chunk lands silently
      in the session of its key, whatever the arrival order: after j of them
      that session holds exactly what the session logic expects. */
  lemma {:induction false} ReceivePrefix(v: LegacyView, h: Handlers, f: seq<Payload>, n: nat,
                                        perm: seq<Payload>, key: SessionKey, link: LinkState,
                                        codec: Codec, j: nat)
    requires Inv(h) && Reassembly.WellFormedSend(f, n) && multiset(perm) == multiset(f)
    requires j < |perm| && key !in v
    requires forall i :: 0 <= i < |perm| ==> Inbound.ChunkKey(perm[i]) == key
    ensures ReceiveAll(v, h, perm[..j], link, codec) == (Opened(v, key, f, perm[..j]), h, [])
  {
    if j == 0 {
      assert perm[..0] == [];
    } else {
      ReceivePrefix(v, h, f, n, perm, key, link, codec, j - 1);
      ReceivePrefixStep(v, h, f, n, perm, key, link, codec, j);
    }
  }

  /** The step of ReceivePrefix: the j-th arrival is stored silently. */
  lemma ReceivePrefixStep(v: LegacyView, h: Handlers, f: seq<Payload>, n: nat,
                          perm: seq<Payload>, key: SessionKey, link: LinkState, codec: Codec, j: nat)
    requires Inv(h) && Reassembly.WellFormedSend(f, n) && multiset(perm) == multiset(f)
    requires 0 < j < |perm| && key !in v
    requires forall i :: 0 <= i < |perm| ==> Inbound.ChunkKey(perm[i]) == key
    requires ReceiveAll(v, h, perm[..j - 1], link, codec) == (Opened(v, key, f, perm[..j - 1]), h, [])
    ensures ReceiveAll(v, h, perm[..j], link, codec) == (Opened(v, key, f, perm[..j]), h, [])
  {
    InitOfPrefix(perm, j);
    SilentArrival(v, h, f, n, perm, key, link, codec, j);
    ReceiveAllLast(v, h, perm[..j], link, codec, Opened(v, key, f, perm[..j - 1]),
                   (Opened(v, key, f, perm[..j]), h, [], Pass));
  }

  /** The j-th arrival, not the last, is stored silently in its session. */
  lemma SilentArrival(v: LegacyView, h: Handlers, f: seq<Payload>, n: nat,
                      perm: seq<Payload>, key: SessionKey, link: LinkState, codec: Codec, j: nat)
    requires Inv(h) && Reassembly.WellFormedSend(f, n) && multiset(perm) == multiset(f)
    requires 0 < j < |perm| && key !in v
    requires Inbound.ChunkKey(perm[j - 1]) == key
    ensures Receive(Opened(v, key, f, perm[..j - 1]), h, perm[j - 1], link, codec)
         == (Opened(v, key, f, perm[..j]), h, [], Pass)
  {
    MultisetLength(perm, f);
    var pre := perm[..j - 1];
    var x := perm[j - 1];
    assert x in multiset(f);
    PrefixStep(f, n, pre, x);
    ArriveAt(v, h, f, pre, x, key, link, codec);
    PrefixSnoc(perm, j - 1);
    assert Opened(v, key, f, pre)[key := Partial(f, perm[..j])] == Opened(v, key, f, perm[..j]);
  }

  /** What the key's session reports to the last chunk of perm, and the
      builder's reaction to it, once the chunks before it are held. */
  function LastReaction(v: LegacyView, h: Handlers, f: seq<Payload>, perm: seq<Payload>,
                        key: SessionKey, link: LinkState, codec: Codec)
    : (LegacyView, Handlers, seq<Emission>, Outcome)
    requires Inv(h) && |f| > 0 && |perm| > 0
  {
    var pre := perm[..|perm| - 1];
    var step := AddChunkSpec(Partial(f, pre), perm[|perm| - 1]);
    React(Opened(v, key, f, pre), h, key, step.0, step.1, link, codec)
  }

  /** A whole send has arrived once its last chunk has: what the key's
      session reports to that chunk decides everything. */
  lemma LastChunk(v: LegacyView, h: Handlers, f: seq<Payload>, n: nat, perm: seq<Payload>,
                  key: SessionKey, link: LinkState, codec: Codec)
    requires Inv(h) && Reassembly.WellFormedSend(f, n) && multiset(perm) == multiset(f) && key !in v
    requires forall i :: 0 <= i < |perm| ==> Inbound.ChunkKey(perm[i]) == key
    ensures |perm| == |f|
    ensures Opened(v, key, f, perm[..|perm| - 1]) - {key} == v
    ensures var r := LastReaction(v, h, f, perm, key, link, codec);
      ReceiveAll(v, h, perm, link, codec) == (r.0, r.1, r.2)
  {
    MultisetLength(perm, f);
    OpenedWithout(v, key, f, perm[..|perm| - 1]);
    ReceivePrefix(v, h, f, n, perm, key, link, codec, |perm| - 1);
    ArriveAt(v, h, f, perm[..|perm| - 1], perm[|perm| - 1], key, link, codec);
    ReceiveAllLast(v, h, perm, link, codec, Opened(v, key, f, perm[..|perm| - 1]),
                   LastReaction(v, h, f, perm, key, link, codec));
  }

  lemma OpenedWithout(v: LegacyView, key: SessionKey, f: seq<Payload>, pre: seq<Payload>)
    requires |f| > 0 && key !in v
    ensures Opened(v, key, f, pre) - {key} == v
  {
  }

  /** The last of a run of chunks that arrived silently decides the run. */
  lemma ReceiveAllLast(v: LegacyView, h: Handlers, ps: seq<Payload>, link: LinkState, codec: Codec,
                       mid: LegacyView, r: (LegacyView, Handlers, seq<Emission>, Outcome))
    requires Inv(h) && |ps| > 0
    requires ReceiveAll(v, h, ps[..|ps| - 1], link, codec) == (mid, h, [])
    requires Receive(mid, h, ps[|ps| - 1], link, codec) == r
    ensures ReceiveAll(v, h, ps, link, codec) == (r.0, r.1, r.2)
  {
    ReceiveAllSnoc(v, h, ps, link, codec);
    assert [] + r.2 == r.2;
  }

  /** Delivery of a whole send when no session for its key is open. Chunks
      arriving in the order they were cut: the builder stays silent until
      the last one, then delivers the reassembled message once, emits it as
      'data' and leaves no session behind (unless the response handler
      throws). Chunks arriving in any other order: the builder emits one
      sequence error, touches no request and leaves no session behind. */
  lemma DeliverSend(sh: Fragmenter.SendHeader, data: Bytes, perm: seq<Payload>,
                    v: LegacyView, h: Handlers, link: LinkState, codec: Codec)
    requires 0 < |data| < 0x1_0000_0000 && Inv(h)
    requires multiset(perm) == multiset(Fragmenter.Fragments(sh, data))
    requires Reassembly.SessionKey(sh.traceId, sh.payloadType) !in v
    ensures var d := Inbound.Assembled(sh, data);
      var dl := Deliver(h, d, link, codec);
      && Fragment(d) == data && d.traceId == sh.traceId && d.payloadType == sh.payloadType
      && (perm == Fragmenter.Fragments(sh, data) && dl.2.Pass? ==>
            ReceiveAll(v, h, perm, link, codec) == (v, dl.0, dl.1 + [Inbound.DataEmitted(d)]))
      && (perm != Fragmenter.Fragments(sh, data) ==>
            ReceiveAll(v, h, perm, link, codec) == (v, h, [Inbound.ErrorEmitted(SequenceError)]))
  {
    var f := Fragmenter.Fragments(sh, data);
    var key := Reassembly.SessionKey(sh.traceId, sh.payloadType);
    Reassembly.FragmentsWellFormed(sh, data);
    Inbound.AssembledHeader(sh, data);
    Inbound.SameKey(sh, data, perm);
    LastArrival(f, |data|, perm);
    LastChunk(v, h, f, |data|, perm, key, link, codec);
  }
}
