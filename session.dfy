/** Reassembly in the split version (session.js): a Session collects the
    chunks of one (traceId, payloadType) message, and once the Finished chunk
    and as many chunks as it numbers are present it checks the announced
    size, orders the chunks by seqId, checks the numbering, concatenates the
    fragments and checks the total length. SessionManager keeps the open
    sessions in a map keyed by (id, type). */
module Reassembly {
  import opened Common
  import opened Constants
  import opened FrameCodec
  import opened ChunkCodec
  import opened ChunkOrder
  import Fragmenter

  /** The fields of a Session that change. */
  datatype SessionState = SessionState(
    chunks: seq<Payload>, count: int, finishChunk: Option<Payload>, receivedSize: nat)

  /** What one addChunk call emits. */
  datatype SessionEvent = NoEvent | DataEvent(data: Payload) | ErrorEvent(error: Error)

  /** The state of a new session, and of one after releaseBuf. */
  const Empty := SessionState([], -1, None, 0)

  /** Every stored chunk carries a payload of its declared length, and the
      declared lengths of the stored chunks are all counted in receivedSize. */
  predicate Consistent(st: SessionState)
  {
    && LengthsMatch(st.chunks)
    && Announced(st.chunks) <= st.receivedSize
  }

  /** Chunk i has seqId i, for every position. */
  predicate InSeqOrder(s: seq<Payload>)
  {
    forall i :: 0 <= i < |s| ==> s[i].seqId == i
  }

  /** checkIfReceiveAllChunks. */
  function Complete(size: u32, st: SessionState): (r: (SessionState, SessionEvent))
    requires Consistent(st)
    ensures Consistent(r.0)
    ensures r.1.ErrorEvent? ==> r.0 == Empty
  {
    if st.count == -1 || st.finishChunk.None? then (st, NoEvent)
    else if st.count != |st.chunks| then (st, NoEvent)
    else if size != st.receivedSize then (Empty, ErrorEvent(TotalSizeMismatch))
    else
      var sorted := SortBySeq(st.chunks);
      if !InSeqOrder(sorted) then (Empty, ErrorEvent(SequenceError))
      else
        var whole := Concat(sorted);
        SortKeepsLengths(st.chunks);
        AnnouncedConcat(sorted);
        var fin := st.finishChunk.value.(payload := Buf(whole), payloadLength := |whole|);
        if fin.totalLength != |whole| then (Empty, ErrorEvent(FullLengthError))
        else (st.(chunks := sorted, finishChunk := Some(fin)), DataEvent(fin))
  }

  /** The bookkeeping addChunk does before it validates the chunk: count
      the declared length and, for a Finished chunk, set count and
      finishChunk. */
  function Note(st: SessionState, p: Payload): (r: SessionState)
    ensures r.chunks == st.chunks
    ensures r.receivedSize == st.receivedSize + p.payloadLength
  {
    if p.opCode == FINISHED then
      st.(count := p.seqId + 1, finishChunk := Some(p), receivedSize := st.receivedSize + p.payloadLength)
    else st.(receivedSize := st.receivedSize + p.payloadLength)
  }

  /** addChunk: note the chunk, refuse one whose fragment is not as long as
      declared, otherwise store it and try to complete. */
  function AddChunkSpec(size: u32, st: SessionState, p: Payload): (r: (SessionState, SessionEvent))
    requires Consistent(st)
    ensures Consistent(r.0)
  {
    if p.payload.Absent? then (st, ErrorEvent(MalformedChunk))
    else
      var noted := Note(st, p);
      if |p.payload.bytes| != p.payloadLength then (noted, ErrorEvent(ChunkLengthError))
      else
        SnocInit(st.chunks, p);
        Complete(size, noted.(chunks := st.chunks + [p]))
  }

  /** The state and the events after handing the chunks to a session one by
      one, in list order. */
  function Feed(size: u32, st: SessionState, ps: seq<Payload>): (r: (SessionState, seq<SessionEvent>))
    requires Consistent(st)
    ensures Consistent(r.0) && |r.1| == |ps|
  {
    if ps == [] then (st, [])
    else
      var before := Feed(size, st, ps[..|ps| - 1]);
      var step := AddChunkSpec(size, before.0, ps[|ps| - 1]);
      (step.0, before.1 + [step.1])
  }

  /** A chunk whose fragment length differs from its declaration is counted
      in receivedSize but not stored, and raises a length error. */
  lemma LengthMismatchCounted(size: u32, st: SessionState, p: Payload)
    requires Consistent(st) && !p.payload.Absent? && |p.payload.bytes| != p.payloadLength
    ensures var r := AddChunkSpec(size, st, p);
      && r.1 == ErrorEvent(ChunkLengthError)
      && r.0.chunks == st.chunks
      && r.0.receivedSize == st.receivedSize + p.payloadLength
      && (p.opCode == FINISHED ==> r.0.count == p.seqId + 1 && r.0.finishChunk == Some(p))
  {
  }

  /** A data event needs a known Finished chunk, exactly count stored chunks,
      the announced size equal to the session size, seqIds 0..count-1 after
      sorting, and the Finished chunk's totalLength equal to the assembled
      length; a session missing any of these emits no data. */
  lemma CompleteExactly(size: u32, st: SessionState)
    requires Consistent(st)
    ensures Complete(size, st).1.DataEvent? <==>
      && st.finishChunk.Some? && st.count != -1 && st.count == |st.chunks|
      && st.receivedSize == size
      && InSeqOrder(SortBySeq(st.chunks))
      && st.finishChunk.value.totalLength == |Concat(SortBySeq(st.chunks))|
  {
  }

  /** A gap: when every chunk is in but some seqId below count is missing,
      the session raises a sequence error and is released. */
  lemma GapIsSequenceError(size: u32, st: SessionState, missing: nat)
    requires Consistent(st)
    requires st.finishChunk.Some? && st.count != -1 && st.count == |st.chunks| && st.receivedSize == size
    requires missing < st.count && forall i :: 0 <= i < |st.chunks| ==> st.chunks[i].seqId != missing
    ensures Complete(size, st) == (Empty, ErrorEvent(SequenceError))
  {
    var sorted := SortBySeq(st.chunks);
    assert sorted[missing] in multiset(st.chunks);
    var j :| 0 <= j < |st.chunks| && st.chunks[j] == sorted[missing];
    assert !InSeqOrder(sorted);
  }

  /** The chunks of one send, as the sender numbers them: seqIds 0..k-1 in
      list order, every fragment as long as announced, only the last chunk
      Finished and announcing totalLength n, n bytes announced in all. */
  predicate WellFormedSend(f: seq<Payload>, n: nat)
  {
    && |f| > 0 && InSeqOrder(f) && LengthsMatch(f)
    && (forall i :: 0 <= i < |f| ==> (f[i].opCode == FINISHED <==> i == |f| - 1))
    && f[|f| - 1].totalLength == n && Announced(f) == n
  }

  /** A list in seqId order with seqId i at position i is sorted without repeats. */
  lemma InSeqOrderSorted(f: seq<Payload>)
    requires InSeqOrder(f)
    ensures SortedBySeq(f) && UniqueSeqIds(f)
  {
  }

  /** The chunks sendHmProtocol cuts are a well-formed send of the data. */
  lemma FragmentsWellFormed(h: Fragmenter.SendHeader, data: Bytes)
    requires |data| < 0x1_0000_0000
    ensures WellFormedSend(Fragmenter.Fragments(h, data), |data|)
    ensures Concat(Fragmenter.Fragments(h, data)) == data
  {
    var f := Fragmenter.Fragments(h, data);
    Fragmenter.FragmentsHeaders(h, data);
    Fragmenter.FragmentsConcat(h, data);
    assert LengthsMatch(f);
    AnnouncedConcat(f);
  }

  /** The expected state after a strict prefix of a permutation of a send's
      chunks has arrived: everything stored in arrival order, count and
      finishChunk set once the Finished chunk is among them. */
  function Partial(f: seq<Payload>, pre: seq<Payload>): SessionState
    requires |f| > 0
  {
    var fin := f[|f| - 1];
    if fin in pre then SessionState(pre, |f|, Some(fin), Announced(pre))
    else SessionState(pre, -1, None, Announced(pre))
  }

  /** One more chunk of the send that is not yet the last to arrive is stored
      silently. */
  lemma PrefixStep(f: seq<Payload>, n: u32, pre: seq<Payload>, x: Payload)
    requires WellFormedSend(f, n) && x in f && |pre| + 1 < |f|
    requires Consistent(Partial(f, pre))
    ensures Consistent(Partial(f, pre + [x]))
    ensures AddChunkSpec(n, Partial(f, pre), x) == (Partial(f, pre + [x]), NoEvent)
  {
    var i :| 0 <= i < |f| && f[i] == x;
    SnocInit(pre, x);
    var fin := f[|f| - 1];
    assert fin in pre + [x] <==> fin in pre || x == fin;
    assert x.opCode == FINISHED <==> x == fin;
    var stored := Note(Partial(f, pre), x).(chunks := pre + [x]);
    assert stored.receivedSize == Announced(pre + [x]);
    assert stored == Partial(f, pre + [x]);
    assert Complete(n, stored) == (stored, NoEvent);
  }

  /** Feeding one more not-last chunk of the send extends the silent run. */
  lemma FeedExtend(f: seq<Payload>, n: u32, pre: seq<Payload>, x: Payload)
    requires WellFormedSend(f, n) && x in f && |pre| + 1 < |f|
    requires Consistent(Partial(f, pre))
    requires Feed(n, Empty, pre) == (Partial(f, pre), seq(|pre|, _ => NoEvent))
    ensures Consistent(Partial(f, pre + [x]))
    ensures Feed(n, Empty, pre + [x]) == (Partial(f, pre + [x]), seq(|pre| + 1, _ => NoEvent))
  {
    PrefixStep(f, n, pre, x);
    SnocInit(pre, x);
    assert seq(|pre|, _ => NoEvent) + [NoEvent] == seq(|pre| + 1, _ => NoEvent);
  }

  lemma {:induction false} FeedPrefix(f: seq<Payload>, n: u32, perm: seq<Payload>, j: nat)
    requires WellFormedSend(f, n) && multiset(perm) == multiset(f)
    requires j < |perm|
    ensures Consistent(Partial(f, perm[..j]))
    ensures Feed(n, Empty, perm[..j]) == (Partial(f, perm[..j]), seq(j, _ => NoEvent))
  {
    MultisetLength(perm, f);
    if j == 0 {
      assert perm[..0] == [];
      assert seq(0, _ => NoEvent) == [];
    } else {
      FeedPrefix(f, n, perm, j - 1);
      FeedPrefixStep(f, n, perm, j);
    }
  }

  /** The step of FeedPrefix: the j-th arrival extends the silent run. */
  lemma FeedPrefixStep(f: seq<Payload>, n: u32, perm: seq<Payload>, j: nat)
    requires WellFormedSend(f, n) && multiset(perm) == multiset(f) && 0 < j < |perm|
    requires Consistent(Partial(f, perm[..j - 1]))
    requires Feed(n, Empty, perm[..j - 1]) == (Partial(f, perm[..j - 1]), seq(j - 1, _ => NoEvent))
    ensures Consistent(Partial(f, perm[..j]))
    ensures Feed(n, Empty, perm[..j]) == (Partial(f, perm[..j]), seq(j, _ => NoEvent))
  {
    MultisetLength(perm, f);
    PrefixSnoc(perm, j - 1);
    assert perm[j - 1] in multiset(f);
    FeedExtend(f, n, perm[..j - 1], perm[j - 1]);
  }

  /** The last chunk to arrive completes the message: the stored chunks sort
      back into send order and their fragments concatenate to the data. */
  lemma LastStep(f: seq<Payload>, n: u32, perm: seq<Payload>)
    requires WellFormedSend(f, n) && multiset(perm) == multiset(f) && |perm| == |f|
    requires Consistent(Partial(f, perm[..|perm| - 1]))
    ensures AddChunkSpec(n, Partial(f, perm[..|perm| - 1]), perm[|perm| - 1]).1
         == DataEvent(f[|f| - 1].(payload := Buf(Concat(f)), payloadLength := n))
  {
    LastStored(f, n, perm);
    InSeqOrderSorted(f);
    SortPermutation(perm, f);
    AnnouncedPermutation(perm, f);
    AnnouncedConcat(f);
    CompleteSend(f, n, perm);
  }

  /** The last chunk to arrive is stored, making every chunk of the send
      present with the Finished one noted. */
  lemma LastStored(f: seq<Payload>, n: u32, perm: seq<Payload>)
    requires WellFormedSend(f, n) && multiset(perm) == multiset(f) && |perm| == |f|
    requires Consistent(Partial(f, perm[..|perm| - 1]))
    ensures LengthsMatch(perm)
    ensures AddChunkSpec(n, Partial(f, perm[..|perm| - 1]), perm[|perm| - 1])
         == Complete(n, SessionState(perm, |f|, Some(f[|f| - 1]), Announced(perm)))
  {
    var k := |perm|;
    var pre := perm[..k - 1];
    var x := perm[k - 1];
    PrefixSnoc(perm, k - 1);
    PrefixWhole(perm);
    LastMembers(f, n, perm);
    var stored := Note(Partial(f, pre), x).(chunks := perm);
    assert stored.receivedSize == Announced(perm);
    assert stored == SessionState(perm, k, Some(f[k - 1]), Announced(perm));
  }

  /** The last arrival completes the set: the Finished chunk is among the
      chunks, every length matches, and the Finished chunk is noted. */
  lemma LastMembers(f: seq<Payload>, n: u32, perm: seq<Payload>)
    requires WellFormedSend(f, n) && multiset(perm) == multiset(f) && |perm| == |f|
    requires Consistent(Partial(f, perm[..|perm| - 1]))
    ensures LengthsMatch(perm) && f[|f| - 1] in perm
    ensures perm[|perm| - 1].opCode == FINISHED ==> perm[|perm| - 1] == f[|f| - 1]
    ensures perm[|perm| - 1] != f[|f| - 1] ==> f[|f| - 1] in perm[..|perm| - 1]
  {
    var k := |perm|;
    var pre := perm[..k - 1];
    var x := perm[k - 1];
    PrefixSnoc(perm, k - 1);
    PrefixWhole(perm);
    assert x in multiset(f);
    var i :| 0 <= i < |f| && f[i] == x;
    assert f[k - 1] in multiset(perm);
    assert LengthsMatch([x]);
    LengthsMatchSnoc(pre, x);
  }

  /** checkIfReceiveAllChunks on a full permutation of a send. */
  lemma CompleteSend(f: seq<Payload>, n: u32, perm: seq<Payload>)
    requires WellFormedSend(f, n) && |perm| == |f| && SortBySeq(perm) == f
    requires Announced(perm) == n && LengthsMatch(perm) && |Concat(f)| == n
    ensures Consistent(SessionState(perm, |f|, Some(f[|f| - 1]), n))
    ensures Complete(n, SessionState(perm, |f|, Some(f[|f| - 1]), n)).1
         == DataEvent(f[|f| - 1].(payload := Buf(Concat(f)), payloadLength := n))
  {
  }

  /** Order independence: whatever order the chunks of a send arrive in, a
      fresh session sized by the send's length stays silent until the last
      one and then emits the Finished chunk carrying every fragment in seqId
      order, with payloadLength and totalLength equal to the send's length. */
  lemma {:induction false} ReassembleWellFormed(f: seq<Payload>, n: u32, perm: seq<Payload>)
    requires WellFormedSend(f, n) && multiset(perm) == multiset(f)
    ensures Feed(n, Empty, perm).1
         == seq(|f| - 1, _ => NoEvent) + [DataEvent(f[|f| - 1].(payload := Buf(Concat(f)), payloadLength := n))]
  {
    var k := |perm|;
    MultisetLength(perm, f);
    FeedPrefix(f, n, perm, k - 1);
    LastStep(f, n, perm);
    FeedLast(n, perm, Partial(f, perm[..k - 1]),
             DataEvent(f[|f| - 1].(payload := Buf(Concat(f)), payloadLength := n)));
  }

  /** A silent run followed by one more chunk that raises ev. */
  lemma FeedLast(size: u32, ps: seq<Payload>, st: SessionState, ev: SessionEvent)
    requires |ps| > 0
    requires Feed(size, Empty, ps[..|ps| - 1]) == (st, seq(|ps| - 1, _ => NoEvent))
    requires AddChunkSpec(size, st, ps[|ps| - 1]).1 == ev
    ensures Feed(size, Empty, ps).1 == seq(|ps| - 1, _ => NoEvent) + [ev]
  {
  }

  /** Fragment then reassemble: whatever order the chunks sendHmProtocol cut
      arrive in, a fresh session sized by their totalLength emits nothing
      until the last one and then exactly the sent bytes, under the send's
      ids and types, with payloadLength and totalLength equal to their length. */
  lemma ReassembleAnyOrder(h: Fragmenter.SendHeader, data: Bytes, perm: seq<Payload>)
    requires |data| < 0x1_0000_0000
    requires multiset(perm) == multiset(Fragmenter.Fragments(h, data))
    ensures var r := Feed(|data|, Empty, perm);
      && |r.1| == |perm| > 0
      && (forall i :: 0 <= i < |perm| - 1 ==> r.1[i] == NoEvent)
      && r.1[|perm| - 1].DataEvent?
      && var d := r.1[|perm| - 1].data;
      && Fragment(d) == data && d.payloadLength == d.totalLength == |data|
      && d.traceId == h.traceId && d.spanId == h.spanId && d.payloadType == h.payloadType
      && d.contentType == h.contentType && d.dataType == h.dataType
  {
    var f := Fragmenter.Fragments(h, data);
    FragmentsWellFormed(h, data);
    Fragmenter.FragmentsHeaders(h, data);
    ReassembleWellFormed(f, |data|, perm);
    MultisetLength(perm, f);
  }

  /** The loop of checkIfReceiveAllChunks over the sorted chunks: stop at
      the first position whose chunk does not carry that position as seqId,
      otherwise collect the fragments for Buffer.concat. */
  method JoinInOrder(sorted: seq<Payload>) returns (inOrder: bool, assembled: Bytes)
    ensures inOrder <==> InSeqOrder(sorted)
    ensures inOrder ==> assembled == Concat(sorted)
  {
    assembled := [];
    var i := 0;
    while i < |sorted|
      invariant 0 <= i <= |sorted|
      invariant forall j :: 0 <= j < i ==> sorted[j].seqId == j
      invariant assembled == Concat(sorted[..i])
    {
      var chunk := sorted[i];
      if chunk.seqId != i {
        return false, assembled;
      }
      PrefixSnoc(sorted, i);
      assembled := assembled + Fragment(chunk);
      i := i + 1;
    }
    PrefixWhole(sorted);
    inOrder := true;
  }

  /** A Session object: its id and type name the message, size is the
      totalLength of the chunk that opened it. */
  class Session {
    const id: nat
    const sessionType: byte
    const size: u32
    var chunks: seq<Payload>
    var count: int
    var finishChunk: Option<Payload>
    var receivedSize: nat

    function State(): SessionState
      reads this
    {
      SessionState(chunks, count, finishChunk, receivedSize)
    }

    ghost predicate Valid()
      reads this
    {
      Consistent(State())
    }

    constructor (id: nat, sessionType: byte, size: u32)
      ensures this.id == id && this.sessionType == sessionType && this.size == size
      ensures State() == Empty && Valid()
    {
      this.id := id;
      this.sessionType := sessionType;
      this.size := size;
      chunks := [];
      count := -1;
      finishChunk := None;
      receivedSize := 0;
    }

    method AddChunk(p: Payload) returns (ev: SessionEvent)
      requires Valid()
      modifies this
      ensures Valid()
      ensures (State(), ev) == AddChunkSpec(size, old(State()), p)
    {
      if p.payload.Absent? {
        return ErrorEvent(MalformedChunk);
      }
      ghost var st0 := State();
      receivedSize := receivedSize + p.payloadLength;
      if p.opCode == FINISHED {
        count := p.seqId + 1;
        finishChunk := Some(p);
      }
      assert State() == Note(st0, p);
      if |p.payload.bytes| != p.payloadLength {
        return ErrorEvent(ChunkLengthError);
      }
      SnocInit(chunks, p);
      assert LengthsMatch([p]);
      LengthsMatchSnoc(chunks, p);
      chunks := chunks + [p];
      assert State() == Note(st0, p).(chunks := st0.chunks + [p]);
      ev := CheckIfReceiveAllChunks();
    }

    method CheckIfReceiveAllChunks() returns (ev: SessionEvent)
      requires Valid()
      modifies this
      ensures Valid()
      ensures (State(), ev) == Complete(size, old(State()))
    {
      if count == -1 || finishChunk.None? {
        return NoEvent;
      }
      if count != |chunks| {
        return NoEvent;
      }
      if size != receivedSize {
        ReleaseBuf();
        return ErrorEvent(TotalSizeMismatch);
      }
      SortKeepsLengths(chunks);
      chunks := SortBySeq(chunks);
      var inOrder, assembled := JoinInOrder(chunks);
      if !inOrder {
        ReleaseBuf();
        return ErrorEvent(SequenceError);
      }
      AnnouncedConcat(chunks);
      var fin := finishChunk.value.(payload := Buf(assembled), payloadLength := |assembled|);
      finishChunk := Some(fin);
      if fin.totalLength != fin.payloadLength {
        ReleaseBuf();
        return ErrorEvent(FullLengthError);
      }
      ev := DataEvent(fin);
    }

    method ReleaseBuf()
      modifies this
      ensures State() == Empty && Valid()
    {
      chunks := [];
      finishChunk := None;
      count := -1;
      receivedSize := 0;
    }
  }

  /** The `${id}:${type}` key of the session map. */
  datatype SessionKey = SessionKey(id: nat, sessionType: byte)

  function KeyOf(s: Session): SessionKey
  {
    SessionKey(s.id, s.sessionType)
  }

  class SessionManager {
    var sessions: map<SessionKey, Session>

    /** Every session sits under its own (id, type) key, so distinct keys
        hold distinct sessions, and every session keeps its invariant. */
    ghost predicate Valid()
      reads this, sessions.Values
    {
      forall k :: k in sessions ==> KeyOf(sessions[k]) == k && sessions[k].Valid()
    }

    constructor ()
      ensures sessions == map[] && Valid()
    {
      sessions := map[];
    }

    /** The open sessions, as the size each was opened with and its state. */
    function View(): (r: map<SessionKey, (u32, SessionState)>)
      requires Valid()
      reads this, sessions.Values
      ensures r.Keys == sessions.Keys
    {
      map k | k in sessions :: (sessions[k].size, sessions[k].State())
    }

    /** With the map and every session untouched, the view is the same. */
    twostate lemma ViewUnchanged()
      requires old(Valid()) && unchanged(this) && forall s :: s in old(sessions.Values) ==> unchanged(s)
      ensures Valid() && View() == old(View())
    {
    }

    /** Every session in the view is in a consistent state. */
    lemma ViewConsistent()
      requires Valid()
      ensures forall k :: k in View() ==> Consistent(View()[k].1)
    {
    }

    /** A step of one open session, with the map and every other session
        left alone, shows in the view under that session's key only. */
    twostate lemma ViewOfChanged(s: Session)
      requires old(Valid()) && KeyOf(s) in old(sessions) && old(sessions)[KeyOf(s)] == s
      requires unchanged(this) && s.Valid()
      requires forall t :: t in old(sessions.Values) && t != s ==> unchanged(t)
      ensures Valid()
      ensures View() == old(View())[KeyOf(s) := (s.size, s.State())]
    {
      forall k | k in sessions && k != KeyOf(s)
        ensures sessions[k] != s && unchanged(sessions[k])
      {
        assert old(sessions)[k] == sessions[k] && old(KeyOf(sessions[k])) == k;
        assert sessions[k] in old(sessions).Values;
      }
    }

    /** newSession: a fresh session under (id, type), replacing any session
        already there. */
    method NewSession(id: nat, sessionType: byte, size: u32) returns (s: Session)
      requires Valid()
      modifies this
      ensures Valid() && fresh(s)
      ensures s.State() == Empty && s.size == size && KeyOf(s) == SessionKey(id, sessionType)
      ensures sessions == old(sessions)[SessionKey(id, sessionType) := s]
      ensures View() == old(View())[SessionKey(id, sessionType) := (size, Empty)]
    {
      s := new Session(id, sessionType, size);
      sessions := sessions[SessionKey(id, sessionType) := s];
    }

    /** destroy(session): release that session and drop its key, whatever
        the map holds under the key. */
    method Destroy(s: Session)
      requires Valid()
      modifies this, s
      ensures Valid() && s.State() == Empty
      ensures sessions == old(sessions) - {KeyOf(s)}
      ensures forall k :: k in sessions ==> sessions[k].State() == old(sessions[k].State())
      ensures View() == old(View()) - {KeyOf(s)}
    {
      s.ReleaseBuf();
      sessions := sessions - {KeyOf(s)};
    }

    /** destroy(id, type): release and drop the session under that key; an
        absent key changes nothing. */
    method DestroyById(id: nat, sessionType: byte)
      requires Valid()
      modifies this, sessions.Values
      ensures Valid()
      ensures sessions == old(sessions) - {SessionKey(id, sessionType)}
      ensures SessionKey(id, sessionType) in old(sessions) ==>
        old(sessions[SessionKey(id, sessionType)]).State() == Empty
      ensures forall k :: k in sessions ==> sessions[k].State() == old(sessions[k].State())
    {
      var key := SessionKey(id, sessionType);
      if key in sessions {
        var s := sessions[key];
        s.ReleaseBuf();
        sessions := sessions - {key};
      }
    }

    method Has(id: nat, sessionType: byte) returns (b: bool)
      ensures b <==> SessionKey(id, sessionType) in sessions
    {
      b := SessionKey(id, sessionType) in sessions;
    }

    method GetById(id: nat, sessionType: byte) returns (s: Session?)
      requires Valid()
      ensures s != null <==> SessionKey(id, sessionType) in sessions
      ensures s != null ==> s == sessions[SessionKey(id, sessionType)] && KeyOf(s) == SessionKey(id, sessionType)
    {
      var key := SessionKey(id, sessionType);
      s := if key in sessions then sessions[key] else null;
    }

    /** clear: release every session, then empty the map. */
    method Clear()
      requires Valid()
      modifies this, sessions.Values
      ensures sessions == map[] && Valid()
      ensures forall s :: s in old(sessions.Values) ==> s.State() == Empty
    {
      var pending := sessions.Values;
      while pending != {}
        invariant pending <= sessions.Values && sessions == old(sessions)
        invariant forall s :: s in sessions.Values - pending ==> s.State() == Empty
        decreases |pending|
      {
        var s :| s in pending;
        s.ReleaseBuf();
        pending := pending - {s};
      }
      sessions := map[];
    }
  }
}
