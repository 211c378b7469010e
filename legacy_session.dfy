/** Reassembly in the single-file version (message.js): a Session stores
    chunks in arrival order, and once the Finished chunk has numbered them
    and that many are present it requires them to have ARRIVED in seqId
    order, concatenates them and checks the total length. There is no
    session size, nothing is sorted, and releaseBuf resets count to 0. */
module LegacyReassembly {
  import opened Common
  import opened Constants
  import opened FrameCodec
  import opened ChunkCodec
  import opened ChunkOrder
  import Reassembly
  import Fragmenter

  type SessionEvent = Reassembly.SessionEvent
  type SessionKey = Reassembly.SessionKey

  /** The fields of a Session that change. */
  datatype LegacyState = LegacyState(chunks: seq<Payload>, count: int, finishChunk: Option<Payload>)

  /** A new session. */
  const Fresh := LegacyState([], -1, None)

  /** A session after releaseBuf: count goes to 0, not back to -1. */
  const Released := LegacyState([], 0, None)

  /** checkIfReceiveAllChunks: once count chunks are stored and the Finished
      chunk is known, chunk i must carry seqId i; the fragments are joined in
      arrival order and the Finished chunk takes the whole as its payload. */
  function Complete(st: LegacyState): (r: (LegacyState, SessionEvent))
    ensures r.1.ErrorEvent? ==> r.1.error in {SequenceError, FullLengthError}
    ensures r.1 == Reassembly.ErrorEvent(SequenceError) ==> r.0 == Released
    ensures r.1.NoEvent? ==> r.0 == st
  {
    if st.count != |st.chunks| || st.finishChunk.None? then (st, Reassembly.NoEvent)
    else if !Reassembly.InSeqOrder(st.chunks) then (Released, Reassembly.ErrorEvent(SequenceError))
    else
      var whole := Concat(st.chunks);
      var fin := st.finishChunk.value;
      if fin.totalLength != |whole| then (st.(chunks := []), Reassembly.ErrorEvent(FullLengthError))
      else (st.(chunks := [], finishChunk := Some(fin.(payload := Buf(whole), payloadLength := |whole|))),
            Reassembly.DataEvent(fin.(payload := Buf(whole), payloadLength := |whole|)))
  }

  /** The bookkeeping addChunk does first: a Finished chunk sets count to
      its seqId + 1 and becomes finishChunk. */
  function Note(st: LegacyState, p: Payload): LegacyState
  {
    if p.opCode == FINISHED then st.(count := p.seqId + 1, finishChunk := Some(p)) else st
  }

  /** addChunk: note the chunk, refuse one whose fragment is not as long as
      declared, otherwise store it and try to complete. A chunk with no
      payload never reaches a session, since readPayload always gives the
      rest of the buffer (ChunkCodec.DecodeChunk); for one, addChunk would
      throw a TypeError out of the 'message' listener after noting it, and
      the model reports that TypeError as a session error event instead. */
  function AddChunkSpec(st: LegacyState, p: Payload): (r: (LegacyState, SessionEvent))
    ensures r.1 == Reassembly.ErrorEvent(ChunkLengthError) ==> r.0 == Note(st, p)
    ensures !p.payload.Absent? && |p.payload.bytes| == p.payloadLength ==>
      r == Complete(Note(st, p).(chunks := st.chunks + [p]))
  {
    var noted := Note(st, p);
    if p.payload.Absent? then (noted, Reassembly.ErrorEvent(TypeError))
    else if |p.payload.bytes| != p.payloadLength then (noted, Reassembly.ErrorEvent(ChunkLengthError))
    else Complete(noted.(chunks := st.chunks + [p]))
  }

  /** The state and the events after handing the chunks to a session one by
      one, in list order. */
  function Feed(st: LegacyState, ps: seq<Payload>): (r: (LegacyState, seq<SessionEvent>))
    ensures |r.1| == |ps|
  {
    if ps == [] then (st, [])
    else
      var before := Feed(st, ps[..|ps| - 1]);
      var step := AddChunkSpec(before.0, ps[|ps| - 1]);
      (step.0, before.1 + [step.1])
  }

  /** A data event needs a known Finished chunk, exactly count stored chunks,
      chunk i carrying seqId i in arrival order, and the Finished chunk's
      totalLength equal to the assembled length. */
  lemma CompleteExactly(st: LegacyState)
    ensures Complete(st).1.DataEvent? <==>
      && st.finishChunk.Some? && st.count == |st.chunks|
      && Reassembly.InSeqOrder(st.chunks)
      && st.finishChunk.value.totalLength == |Concat(st.chunks)|
  {
  }

  /** Chunks of a send that arrived in seqId order arrived in send order:
      with the same chunks as the send, the arrival is the send itself. */
  lemma InOrderIsSend(f: seq<Payload>, n: nat, perm: seq<Payload>)
    requires Reassembly.WellFormedSend(f, n) && multiset(perm) == multiset(f)
    ensures Reassembly.InSeqOrder(perm) <==> perm == f
  {
    MultisetLength(perm, f);
    if Reassembly.InSeqOrder(perm) {
      forall i | 0 <= i < |perm|
        ensures perm[i] == f[i]
      {
        assert perm[i] in multiset(f);
        var j :| 0 <= j < |f| && f[j] == perm[i];
      }
    }
  }

  /** The expected state after a strict prefix of a permutation of a send's
      chunks has arrived: everything stored in arrival order, count and
      finishChunk set once the Finished chunk is among them. */
  function Partial(f: seq<Payload>, pre: seq<Payload>): LegacyState
    requires |f| > 0
  {
    var fin := f[|f| - 1];
    if fin in pre then LegacyState(pre, |f|, Some(fin)) else LegacyState(pre, -1, None)
  }

  /** One more chunk of the send that is not yet the last to arrive is stored
      silently. */
  lemma PrefixStep(f: seq<Payload>, n: nat, pre: seq<Payload>, x: Payload)
    requires Reassembly.WellFormedSend(f, n) && x in f && |pre| + 1 < |f|
    ensures AddChunkSpec(Partial(f, pre), x) == (Partial(f, pre + [x]), Reassembly.NoEvent)
  {
    var i :| 0 <= i < |f| && f[i] == x;
    var fin := f[|f| - 1];
    assert fin in pre + [x] <==> fin in pre || x == fin;
    assert x.opCode == FINISHED <==> x == fin;
    assert Note(Partial(f, pre), x).(chunks := pre + [x]) == Partial(f, pre + [x]);
  }

  lemma {:induction false} FeedPrefix(f: seq<Payload>, n: nat, perm: seq<Payload>, j: nat)
    requires Reassembly.WellFormedSend(f, n) && multiset(perm) == multiset(f)
    requires j < |perm|
    ensures Feed(Fresh, perm[..j]) == (Partial(f, perm[..j]), seq(j, _ => Reassembly.NoEvent))
  {
    MultisetLength(perm, f);
    if j == 0 {
      assert perm[..0] == [];
      assert seq(0, _ => Reassembly.NoEvent) == [];
      assert f[|f| - 1] !in perm[..0];
    } else {
      FeedPrefix(f, n, perm, j - 1);
      PrefixSnoc(perm, j - 1);
      assert perm[j - 1] in multiset(f);
      PrefixStep(f, n, perm[..j - 1], perm[j - 1]);
      assert seq(j - 1, _ => Reassembly.NoEvent) + [Reassembly.NoEvent] == seq(j, _ => Reassembly.NoEvent);
    }
  }

  /** The last arrival stores the last chunk, with every chunk present and
      the send's Finished chunk noted. */
  lemma LastStored(f: seq<Payload>, n: nat, perm: seq<Payload>)
    requires Reassembly.WellFormedSend(f, n) && multiset(perm) == multiset(f) && |perm| == |f|
    ensures AddChunkSpec(Partial(f, perm[..|perm| - 1]), perm[|perm| - 1])
         == Complete(LegacyState(perm, |f|, Some(f[|f| - 1])))
  {
    var k := |perm|;
    var pre := perm[..k - 1];
    var x := perm[k - 1];
    PrefixSnoc(perm, k - 1);
    PrefixWhole(perm);
    assert x in multiset(f);
    var i :| 0 <= i < |f| && f[i] == x;
    var fin := f[k - 1];
    assert fin in multiset(perm);
    assert x != fin ==> fin in pre;
    assert Note(Partial(f, pre), x).(chunks := perm) == LegacyState(perm, k, Some(fin));
  }

  /** The last chunk of a send to arrive, into the session holding all the
      others: the whole message when they arrived in send order, a sequence
      error otherwise. */
  lemma LastArrival(f: seq<Payload>, n: nat, perm: seq<Payload>)
    requires Reassembly.WellFormedSend(f, n) && multiset(perm) == multiset(f)
    ensures |perm| == |f|
    ensures AddChunkSpec(Partial(f, perm[..|perm| - 1]), perm[|perm| - 1]).1 ==
      if perm == f then Reassembly.DataEvent(f[|f| - 1].(payload := Buf(Concat(f)), payloadLength := n))
      else Reassembly.ErrorEvent(SequenceError)
  {
    MultisetLength(perm, f);
    LastStored(f, n, perm);
    InOrderIsSend(f, n, perm);
    AnnouncedConcat(f);
  }

  /** Arrival order matters: a fresh session given the chunks of a send in
      any order stays silent until the last one, which yields the whole
      message when they arrived exactly in send order and a sequence error
      in every other order. */
  lemma {:induction false} OrderMatters(f: seq<Payload>, n: nat, perm: seq<Payload>)
    requires Reassembly.WellFormedSend(f, n) && multiset(perm) == multiset(f)
    ensures Feed(Fresh, perm).1 == seq(|f| - 1, _ => Reassembly.NoEvent) +
      [if perm == f then Reassembly.DataEvent(f[|f| - 1].(payload := Buf(Concat(f)), payloadLength := n))
       else Reassembly.ErrorEvent(SequenceError)]
  {
    var k := |perm|;
    MultisetLength(perm, f);
    FeedPrefix(f, n, perm, k - 1);
    LastArrival(f, n, perm);
    PrefixWhole(perm);
  }

  /** Send then receive: the chunks of one send reaching a fresh session in
      any order leave it silent until the last one; arriving in the order
      they were cut they yield exactly the sent bytes under the send's ids,
      and in any other order a sequence error. */
  lemma SendThenReceive(h: Fragmenter.SendHeader, data: Bytes, perm: seq<Payload>)
    requires 0 < |data| < 0x1_0000_0000
    requires multiset(perm) == multiset(Fragmenter.Fragments(h, data))
    ensures var r := Feed(Fresh, perm).1;
      && |r| == |perm| > 0
      && (forall i :: 0 <= i < |perm| - 1 ==> r[i] == Reassembly.NoEvent)
      && (perm != Fragmenter.Fragments(h, data) ==> r[|perm| - 1] == Reassembly.ErrorEvent(SequenceError))
      && (perm == Fragmenter.Fragments(h, data) ==>
            && r[|perm| - 1].DataEvent?
            && var d := r[|perm| - 1].data;
            && Fragment(d) == data && d.payloadLength == d.totalLength == |data|
            && d.traceId == h.traceId && d.spanId == h.spanId && d.payloadType == h.payloadType
            && d.contentType == h.contentType && d.dataType == h.dataType)
  {
    var f := Fragmenter.Fragments(h, data);
    Reassembly.FragmentsWellFormed(h, data);
    Fragmenter.FragmentsHeaders(h, data);
    OrderMatters(f, |data|, perm);
    MultisetLength(perm, f);
  }

  /** A Session object of the single-file version. */
  class Session {
    const id: nat
    const sessionType: byte
    var chunks: seq<Payload>
    var count: int
    var finishChunk: Option<Payload>

    function State(): LegacyState
      reads this
    {
      LegacyState(chunks, count, finishChunk)
    }

    constructor (id: nat, sessionType: byte)
      ensures this.id == id && this.sessionType == sessionType && State() == Fresh
    {
      this.id := id;
      this.sessionType := sessionType;
      chunks := [];
      count := -1;
      finishChunk := None;
    }

    method AddChunk(p: Payload) returns (ev: SessionEvent)
      modifies this
      ensures (State(), ev) == AddChunkSpec(old(State()), p)
    {
      if p.opCode == FINISHED {
        count := p.seqId + 1;
        finishChunk := Some(p);
      }
      if p.payload.Absent? {
        return Reassembly.ErrorEvent(TypeError);
      }
      if |p.payload.bytes| != p.payloadLength {
        return Reassembly.ErrorEvent(ChunkLengthError);
      }
      chunks := chunks + [p];
      ev := CheckIfReceiveAllChunks();
    }

    method CheckIfReceiveAllChunks() returns (ev: SessionEvent)
      modifies this
      ensures (State(), ev) == Complete(old(State()))
    {
      if count != |chunks| || finishChunk.None? {
        return Reassembly.NoEvent;
      }
      var inOrder, assembled := Reassembly.JoinInOrder(chunks);
      if !inOrder {
        ReleaseBuf();
        return Reassembly.ErrorEvent(SequenceError);
      }
      chunks := [];
      var fin := finishChunk.value;
      if fin.totalLength != |assembled| {
        return Reassembly.ErrorEvent(FullLengthError);
      }
      fin := fin.(payload := Buf(assembled), payloadLength := |assembled|);
      finishChunk := Some(fin);
      ev := Reassembly.DataEvent(fin);
    }

    method ReleaseBuf()
      modifies this
      ensures State() == Released
    {
      chunks := [];
      finishChunk := None;
      count := 0;
    }
  }

  function KeyOf(s: Session): SessionKey
  {
    Reassembly.SessionKey(s.id, s.sessionType)
  }

  class SessionMgr {
    var sessions: map<SessionKey, Session>

    /** Every session sits under its own (id, type) key. */
    ghost predicate Valid()
      reads this, sessions.Values
    {
      forall k :: k in sessions ==> KeyOf(sessions[k]) == k
    }

    constructor ()
      ensures sessions == map[] && Valid()
    {
      sessions := map[];
    }

    /** The open sessions, as their states. */
    function View(): (r: map<SessionKey, LegacyState>)
      reads this, sessions.Values
      ensures r.Keys == sessions.Keys
    {
      map k | k in sessions :: sessions[k].State()
    }

    /** With the map and every session untouched, the view is the same. */
    twostate lemma ViewUnchanged()
      requires old(Valid()) && unchanged(this) && forall s :: s in old(sessions.Values) ==> unchanged(s)
      ensures Valid() && View() == old(View())
    {
    }

    /** A step of one open session, with the map and every other session
        left alone, shows in the view under that session's key only. */
    twostate lemma ViewOfChanged(s: Session)
      requires old(Valid()) && KeyOf(s) in old(sessions) && old(sessions)[KeyOf(s)] == s
      requires unchanged(this)
      requires forall t :: t in old(sessions.Values) && t != s ==> unchanged(t)
      ensures Valid()
      ensures View() == old(View())[KeyOf(s) := s.State()]
    {
      forall k | k in sessions && k != KeyOf(s)
        ensures sessions[k] != s && unchanged(sessions[k])
      {
        assert old(sessions)[k] == sessions[k] && old(KeyOf(sessions[k])) == k;
        assert sessions[k] in old(sessions).Values;
      }
    }

    /** newSession: a fresh session under (id, type), replacing any session
        already there. */
    method NewSession(id: nat, sessionType: byte) returns (s: Session)
      requires Valid()
      modifies this
      ensures Valid() && fresh(s)
      ensures s.State() == Fresh && KeyOf(s) == Reassembly.SessionKey(id, sessionType)
      ensures sessions == old(sessions)[Reassembly.SessionKey(id, sessionType) := s]
      ensures View() == old(View())[Reassembly.SessionKey(id, sessionType) := Fresh]
    {
      s := new Session(id, sessionType);
      sessions := sessions[Reassembly.SessionKey(id, sessionType) := s];
    }

    /** destroy: release the session and drop its key. */
    method Destroy(s: Session)
      requires Valid()
      modifies this, s
      ensures Valid() && s.State() == Released
      ensures sessions == old(sessions) - {KeyOf(s)}
      ensures View() == old(View()) - {KeyOf(s)}
    {
      s.ReleaseBuf();
      sessions := sessions - {KeyOf(s)};
    }

    method Has(id: nat, sessionType: byte) returns (b: bool)
      ensures b <==> Reassembly.SessionKey(id, sessionType) in sessions
    {
      b := Reassembly.SessionKey(id, sessionType) in sessions;
    }

    method GetById(id: nat, sessionType: byte) returns (s: Session?)
      requires Valid()
      ensures s != null <==> Reassembly.SessionKey(id, sessionType) in sessions
      ensures s != null ==> s == sessions[Reassembly.SessionKey(id, sessionType)]
      ensures s != null ==> KeyOf(s) == Reassembly.SessionKey(id, sessionType)
    {
      var key := Reassembly.SessionKey(id, sessionType);
      s := if key in sessions then sessions[key] else null;
    }

    /** clear: empty the map without releasing any session's buffers. */
    method Clear()
      modifies this
      ensures sessions == map[] && Valid()
    {
      sessions := map[];
    }
  }
}
