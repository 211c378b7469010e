/** The ordering step of the split version's reassembly (session.js,
    `chunks.sort((a, b) => a.seqId - b.seqId)`): a stable sort of the stored
    chunks by sequence number, and the facts reassembly needs about it. */
module ChunkOrder {
  import opened Common
  import opened ChunkCodec

  predicate SortedBySeq(s: seq<Payload>)
  {
    forall i, j :: 0 <= i < j < |s| ==> s[i].seqId <= s[j].seqId
  }

  /** No two chunks share a sequence number. */
  predicate UniqueSeqIds(s: seq<Payload>)
  {
    forall i, j :: 0 <= i < |s| && 0 <= j < |s| && s[i].seqId == s[j].seqId ==> i == j
  }

  /** The bytes the chunks announce (the sum of their payloadLength fields). */
  function Announced(s: seq<Payload>): nat
  {
    if s == [] then 0 else Announced(s[..|s| - 1]) + s[|s| - 1].payloadLength
  }

  /** Insert x after every element whose seqId is not larger (keeps ties in
      arrival order, as the stable Array.prototype.sort does). */
  function Insert(s: seq<Payload>, x: Payload): (r: seq<Payload>)
    ensures multiset(r) == multiset(s) + multiset{x}
    ensures Announced(r) == Announced(s) + x.payloadLength
  {
    if s == [] then [x]
    else if s[|s| - 1].seqId <= x.seqId then
      assert (s + [x])[..|s|] == s;
      s + [x]
    else
      var init := s[..|s| - 1];
      var r := Insert(init, x) + [s[|s| - 1]];
      assert s == init + [s[|s| - 1]];
      assert r[..|r| - 1] == Insert(init, x);
      r
  }

  /** Insert adds x and nothing else. */
  lemma {:induction false} InsertElements(s: seq<Payload>, x: Payload)
    ensures |Insert(s, x)| == |s| + 1
    ensures forall y :: y in Insert(s, x) ==> y in s || y == x
  {
    if s != [] && s[|s| - 1].seqId > x.seqId {
      InsertElements(s[..|s| - 1], x);
    }
  }

  /** Every chunk of s is numbered at most b. */
  predicate AtMost(s: seq<Payload>, b: int)
  {
    forall i :: 0 <= i < |s| ==> s[i].seqId <= b
  }

  lemma {:induction false} InsertAtMost(s: seq<Payload>, x: Payload, b: int)
    requires AtMost(s, b) && x.seqId <= b
    ensures AtMost(Insert(s, x), b)
  {
    if s != [] && s[|s| - 1].seqId > x.seqId {
      var init := s[..|s| - 1];
      assert AtMost(init, b) by {
        forall i | 0 <= i < |init| ensures init[i].seqId <= b {
          assert init[i] == s[i];
        }
      }
      InsertAtMost(init, x, b);
      var r' := Insert(init, x);
      assert Insert(s, x) == r' + [s[|s| - 1]];
      assert forall i :: 0 <= i < |r'| ==> (r' + [s[|s| - 1]])[i] == r'[i];
    } else if s != [] {
      assert forall i :: 0 <= i < |s| ==> (s + [x])[i] == s[i];
    }
  }

  lemma SortedSnoc(s: seq<Payload>, x: Payload)
    requires SortedBySeq(s) && AtMost(s, x.seqId)
    ensures SortedBySeq(s + [x])
  {
    assert forall i :: 0 <= i < |s| ==> (s + [x])[i] == s[i];
  }

  lemma {:induction false} InsertSorted(s: seq<Payload>, x: Payload)
    requires SortedBySeq(s)
    ensures SortedBySeq(Insert(s, x))
  {
    if s == [] {
    } else if s[|s| - 1].seqId <= x.seqId {
      assert AtMost(s, x.seqId) by {
        assert forall i :: 0 <= i < |s| ==> s[i].seqId <= s[|s| - 1].seqId;
      }
      SortedSnoc(s, x);
    } else {
      var init := s[..|s| - 1];
      var last := s[|s| - 1];
      assert SortedBySeq(init) && AtMost(init, last.seqId) by {
        assert forall i :: 0 <= i < |init| ==> init[i] == s[i];
      }
      InsertSorted(init, x);
      InsertAtMost(init, x, last.seqId);
      SortedSnoc(Insert(init, x), last);
      assert Insert(s, x) == Insert(init, x) + [last];
    }
  }

  /** The order the session reassembles in: sorted by seqId, a permutation of
      the stored chunks, announcing the same number of bytes. */
  function SortBySeq(s: seq<Payload>): (r: seq<Payload>)
    ensures SortedBySeq(r)
    ensures multiset(r) == multiset(s)
    ensures |r| == |s|
    ensures Announced(r) == Announced(s)
  {
    if s == [] then []
    else
      assert s == s[..|s| - 1] + [s[|s| - 1]];
      InsertSorted(SortBySeq(s[..|s| - 1]), s[|s| - 1]);
      var r := Insert(SortBySeq(s[..|s| - 1]), s[|s| - 1]);
      assert |r| == |multiset(r)|;
      r
  }

  /** Equal multisets with equal heads have equal tails. */
  lemma MultisetTail<T>(a: seq<T>, b: seq<T>)
    requires |a| > 0 && |b| > 0 && a[0] == b[0] && multiset(a) == multiset(b)
    ensures multiset(a[1..]) == multiset(b[1..])
  {
    assert a == [a[0]] + a[1..];
    assert b == [b[0]] + b[1..];
    forall y
      ensures multiset(a[1..])[y] == multiset(b[1..])[y]
    {
      assert multiset(a)[y] == multiset{a[0]}[y] + multiset(a[1..])[y];
      assert multiset(b)[y] == multiset{a[0]}[y] + multiset(b[1..])[y];
    }
  }

  /** Sorted arrangements of the same chunks start with the same chunk. */
  lemma SortedHeads(a: seq<Payload>, b: seq<Payload>)
    requires SortedBySeq(a) && SortedBySeq(b) && UniqueSeqIds(b)
    requires multiset(a) == multiset(b) && |a| > 0 && |b| > 0
    ensures a[0] == b[0]
  {
    assert a[0] in multiset(b);
    var j :| 0 <= j < |b| && b[j] == a[0];
    assert b[0] in multiset(a);
    var m :| 0 <= m < |a| && a[m] == b[0];
    assert a[0].seqId <= a[m].seqId;
  }

  /** Two seqId-sorted arrangements of the same chunks are identical when the
      seqIds are distinct: the sorted order does not depend on arrival order. */
  lemma {:induction false} SortedUnique(a: seq<Payload>, b: seq<Payload>)
    requires SortedBySeq(a) && SortedBySeq(b) && UniqueSeqIds(b)
    requires multiset(a) == multiset(b)
    ensures a == b
    decreases |a|
  {
    assert |a| == |multiset(a)| == |multiset(b)| == |b|;
    if |a| > 0 {
      SortedHeads(a, b);
      MultisetTail(a, b);
      SortedUnique(a[1..], b[1..]);
      assert a == [a[0]] + a[1..];
      assert b == [b[0]] + b[1..];
    }
  }

  /** Sorting a permutation of a seqId-sorted list with distinct seqIds gives
      that list back. */
  lemma SortPermutation(perm: seq<Payload>, ordered: seq<Payload>)
    requires SortedBySeq(ordered) && UniqueSeqIds(ordered)
    requires multiset(perm) == multiset(ordered)
    ensures SortBySeq(perm) == ordered
  {
    SortedUnique(SortBySeq(perm), ordered);
  }

  /** Arrangements with the same chunks announce the same number of bytes. */
  lemma AnnouncedPermutation(perm: seq<Payload>, ordered: seq<Payload>)
    requires SortedBySeq(ordered) && UniqueSeqIds(ordered)
    requires multiset(perm) == multiset(ordered)
    ensures Announced(perm) == Announced(ordered)
  {
    SortPermutation(perm, ordered);
  }

  /** Every chunk carries a payload exactly as long as it announces. */
  predicate LengthsMatch(s: seq<Payload>)
  {
    forall i :: 0 <= i < |s| ==> !s[i].payload.Absent? && |Fragment(s[i])| == s[i].payloadLength
  }

  lemma LengthsMatchSnoc(s: seq<Payload>, x: Payload)
    requires LengthsMatch(s) && LengthsMatch([x])
    ensures LengthsMatch(s + [x])
  {
    assert forall i :: 0 <= i < |s| ==> (s + [x])[i] == s[i];
  }

  /** When every chunk's fragment is as long as it announces, the
      concatenation is as long as the announced total. */
  lemma {:induction false} AnnouncedConcat(s: seq<Payload>)
    requires LengthsMatch(s)
    ensures |Concat(s)| == Announced(s)
  {
    if s != [] {
      AnnouncedConcat(s[..|s| - 1]);
    }
  }

  /** Sorting keeps every chunk's length consistent with its declaration. */
  lemma SortKeepsLengths(s: seq<Payload>)
    requires LengthsMatch(s)
    ensures LengthsMatch(SortBySeq(s))
  {
    var r := SortBySeq(s);
    forall i | 0 <= i < |r|
      ensures !r[i].payload.Absent? && |Fragment(r[i])| == r[i].payloadLength
    {
      assert r[i] in multiset(s);
      var j :| 0 <= j < |s| && s[j] == r[i];
    }
  }
}
