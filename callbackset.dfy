/** The callback registry of the common utilities: a Set of callbacks kept
    in insertion order, run one after the other with the same arguments. */
module Callbacks {
  import opened Common

  /** A value held in the set: a falsy value (runAll skips it), a truthy
      value that is not a function (calling it throws a TypeError), or a
      function, known by its identity. */
  datatype Callback = Falsy(tag: nat) | NotCallable(tag: nat) | Func(id: nat)

  /** The tail of a distinct sequence is distinct and lacks its head. */
  lemma DistinctTail(s: seq<Callback>)
    requires Distinct(s) && s != []
    ensures Distinct(s[1..]) && s[0] !in s[1..]
  {
    forall i, j | 0 <= i < j < |s[1..]| ensures s[1..][i] != s[1..][j] {
      assert s[1..][i] == s[i + 1] && s[1..][j] == s[j + 1];
    }
    forall k | 0 <= k < |s[1..]| ensures s[1..][k] != s[0] {
      assert s[1..][k] == s[k + 1];
    }
  }

  /** Set.prototype.delete: the sequence with x taken out, the rest in order. */
  function Without(s: seq<Callback>, x: Callback): (r: seq<Callback>)
    ensures forall y :: y in r <==> y in s && y != x
    ensures Distinct(s) ==> Distinct(r)
    ensures |r| <= |s|
  {
    if s == [] then []
    else if s[0] == x then Without(s[1..], x)
    else
      var rest := Without(s[1..], x);
      assert Distinct(s) ==> Distinct(rest) && s[0] !in rest by {
        if Distinct(s) {
          DistinctTail(s);
        }
      }
      [s[0]] + rest
  }

  /** The functions of s, in order. */
  function Functions(s: seq<Callback>): seq<nat>
  {
    if s == [] then []
    else if s[0].Func? then [s[0].id] + Functions(s[1..])
    else Functions(s[1..])
  }

  /** What runAll does from position i on: the identities of the functions
      it calls, in order, and how it ends. A falsy value is skipped; a
      truthy value that is not a function throws a TypeError; a function
      that throws (throwsOn says which do, for these arguments) ends the
      run after being called. */
  function RunFrom(s: seq<Callback>, i: nat, throwsOn: nat -> bool): (seq<nat>, Outcome)
    requires i <= |s|
    decreases |s| - i
  {
    if i == |s| then ([], Pass)
    else match s[i]
      case Falsy(_) => RunFrom(s, i + 1, throwsOn)
      case NotCallable(_) => ([], Fail(TypeError))
      case Func(id) =>
        if throwsOn(id) then ([id], Fail(Thrown(id)))
        else
          var rest := RunFrom(s, i + 1, throwsOn);
          ([id] + rest.0, rest.1)
  }

  class CallbackSet {
    /** The Set's contents in insertion order (the field `set`). */
    var items: seq<Callback>

    predicate Valid()
      reads this
    {
      Distinct(items)
    }

    /** An empty set. */
    constructor()
      ensures Valid() && items == []
    {
      items := [];
    }

    /** Set.prototype.add: a value already held keeps its place; a new one
        goes last. */
    method Add(cb: Callback)
      requires Valid()
      modifies this
      ensures Valid()
      ensures items == if cb in old(items) then old(items) else old(items) + [cb]
    {
      if cb !in items {
        items := items + [cb];
      }
    }

    /** runAll: calls the functions in insertion order with the same
        arguments, skipping falsy values; the first callback that throws, or
        the first truthy value that is not a function, ends the run with its
        error. The set is left as it was. */
    method RunAll(throwsOn: nat -> bool) returns (calls: seq<nat>, outcome: Outcome)
      ensures (calls, outcome) == RunFrom(items, 0, throwsOn)
    {
      calls := [];
      var i := 0;
      assert calls + RunFrom(items, 0, throwsOn).0 == RunFrom(items, 0, throwsOn).0;
      while i < |items|
        invariant 0 <= i <= |items|
        invariant RunFrom(items, 0, throwsOn) == (calls + RunFrom(items, i, throwsOn).0, RunFrom(items, i, throwsOn).1)
      {
        match items[i] {
          case Falsy(_) =>
          case NotCallable(_) =>
            assert calls + [] == calls;
            return calls, Fail(TypeError);
          case Func(id) =>
            AppendAssoc(calls, [id], RunFrom(items, i + 1, throwsOn).0);
            calls := calls + [id];
            if throwsOn(id) {
              return calls, Fail(Thrown(id));
            }
        }
        i := i + 1;
      }
      assert calls + [] == calls;
      return calls, Pass;
    }

    /** remove: a truthy argument deletes that one value (if held); a falsy
        one empties the set. */
    method Remove(cb: Callback)
      requires Valid()
      modifies this
      ensures Valid()
      ensures items == if cb.Falsy? then [] else Without(old(items), cb)
    {
      if !cb.Falsy? {
        items := Without(items, cb);
      } else {
        items := [];
      }
    }
  }

  /** When nothing throws, runAll calls every function of the set exactly
      once, in insertion order, and ends normally; otherwise it ends with an
      error, having called a prefix of them. */
  lemma {:induction false} RunCallsEachOnce(s: seq<Callback>, i: nat, throwsOn: nat -> bool)
    requires i <= |s|
    ensures var r := RunFrom(s, i, throwsOn);
      && (r.1 == Pass <==>
            forall k :: i <= k < |s| ==> !s[k].NotCallable? && (s[k].Func? ==> !throwsOn(s[k].id)))
      && (r.1 == Pass ==> r.0 == Functions(s[i..]))
      && r.0 <= Functions(s[i..])
    decreases |s| - i
  {
    if i < |s| {
      RunCallsEachOnce(s, i + 1, throwsOn);
      assert s[i..] == [s[i]] + s[i + 1..];
      assert s[i..][1..] == s[i + 1..];
    }
  }

  /** Removing what was just added restores the set, order included. */
  lemma {:induction false} RemoveUndoesAdd(s: seq<Callback>, x: Callback)
    requires x !in s
    ensures Without(s + [x], x) == s
    decreases |s|
  {
    if s != [] {
      assert (s + [x])[1..] == s[1..] + [x];
      RemoveUndoesAdd(s[1..], x);
    }
  }

  /** Deleting a held value shrinks the set by exactly one; deleting an
      absent value changes nothing. */
  lemma {:induction false} WithoutSize(s: seq<Callback>, x: Callback)
    requires Distinct(s)
    ensures x in s ==> |Without(s, x)| == |s| - 1
    ensures x !in s ==> Without(s, x) == s
    decreases |s|
  {
    if s != [] {
      DistinctTail(s);
      WithoutSize(s[1..], x);
      if s[0] != x {
        assert x in s ==> x in s[1..];
        assert s == [s[0]] + s[1..];
      }
    }
  }

  /** Adding a value twice is adding it once. */
  lemma AddIdempotent(s: seq<Callback>, x: Callback)
    ensures var once := if x in s then s else s + [x];
      (if x in once then once else once + [x]) == once
  {
  }
}
