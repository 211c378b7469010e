/** The dispose-once base class of the common utilities: it collects values
    to dispose with it and, the first time it is disposed, disposes them all
    and then runs its own `dispose` hook. */
module Disposable {
  import opened Common
  import opened IDisposable

  /** One step of registerForDispose: a Set holding x is created when there
      is none yet, otherwise x is added (and keeps its place if present). */
  function AddTo(d: Option<seq<Instance>>, x: Instance): seq<Instance>
  {
    if d.None? then [x] else if x in d.value then d.value else d.value + [x]
  }

  /** The Set after registering xs in order. */
  function Registered(d: Option<seq<Instance>>, xs: seq<Instance>): Option<seq<Instance>>
  {
    if xs == [] then d
    else Some(AddTo(Registered(d, xs[..|xs| - 1]), xs[|xs| - 1]))
  }

  /** The discrepancy: an instance that is not disposed is refused by
      checkIfDisposed as written, while the intended check lets it pass. */
  lemma CheckIfDisposedRefusesLive(d: Disposable)
    requires !d.Disposed()
    ensures d.CheckIfDisposedAsWritten() != d.CheckIfDisposed()
    ensures d.CheckIfDisposedAsWritten() == Fail(ReferenceError) && d.CheckIfDisposed() == Pass
  {
  }

  /** Registering creates the Set only when something is registered; the
      Set then holds exactly what it held plus the arguments, each once, and
      what it held keeps its order at the front. */
  lemma {:induction false} RegisteredContents(d: Option<seq<Instance>>, xs: seq<Instance>)
    requires d.Some? ==> Distinct(d.value)
    ensures var r := Registered(d, xs);
      && (r.Some? <==> d.Some? || xs != [])
      && (r.Some? ==> Distinct(r.value))
      && (r.Some? ==> forall y :: y in r.value <==> (d.Some? && y in d.value) || y in xs)
      && (d.Some? ==> r.Some? && d.value <= r.value)
    decreases |xs|
  {
    if xs != [] {
      var init := xs[..|xs| - 1];
      RegisteredContents(d, init);
      var p := Registered(d, init);
      var x := xs[|xs| - 1];
      assert xs == init + [x];
      if p.Some? && x !in p.value {
        var q := p.value + [x];
        forall i, j | 0 <= i < j < |q| ensures q[i] != q[j] {
          if j == |q| - 1 {
            assert q[i] in p.value;
          }
        }
      }
    }
  }

  class Disposable {
    /** The registered values in insertion order (the field `_disposables`):
        None while undefined, and again once deleted. */
    var disposables: Option<seq<Instance>>
    /** The field `_disposed`. */
    var isDisposed: bool
    /** What the instance holds under its own `dispose` property (a subclass
        hook, or nothing). */
    const ownHook: Cleanup

    predicate Valid()
      reads this
    {
      disposables.Some? ==> Distinct(disposables.value)
    }

    /** A fresh instance is not disposed and holds no Set. */
    constructor(ownHook: Cleanup)
      ensures Valid()
      ensures !Disposed() && disposables == None && this.ownHook == ownHook
    {
      this.ownHook := ownHook;
      disposables := None;
      isDisposed := false;
    }

    /** The `disposed` getter. */
    function Disposed(): bool
      reads this
    {
      isDisposed
    }

    /** checkIfDisposed as written: it calls the bare name checkDisposed,
        which its module neither declares nor imports (only the namespace of
        the disposal helpers is imported), so every call throws a
        ReferenceError, disposed or not. */
    function CheckIfDisposedAsWritten(): (r: Outcome)
      ensures r.Fail? && r.error == ReferenceError
    {
      Fail(ReferenceError)
    }

    /** checkIfDisposed as evidently intended: the helper's checkDisposed on
        this instance, which fails with a DisposedError exactly when the
        instance is disposed. */
    function CheckIfDisposed(): (r: Outcome)
      reads this
      ensures r == Fail(DisposedError) <==> Disposed()
      ensures r == Pass <==> !Disposed()
    {
      CheckDisposed(Present(Disposed()))
    }

    /** registerForDispose: each argument in turn is added to the Set,
        which the first one creates. */
    method RegisterForDispose(xs: seq<Instance>)
      requires Valid()
      modifies this`disposables
      ensures Valid()
      ensures disposables == Registered(old(disposables), xs)
    {
      var i := 0;
      while i < |xs|
        invariant 0 <= i <= |xs|
        invariant disposables == Registered(old(disposables), xs[..i])
        invariant Valid()
      {
        RegisteredContents(old(disposables), xs[..i]);
        assert xs[..i + 1][..i] == xs[..i];
        if disposables.None? {
          disposables := Some([xs[i]]);
        } else if xs[i] !in disposables.value {
          var q := disposables.value + [xs[i]];
          forall a, b | 0 <= a < b < |q| ensures q[a] != q[b] {
            if b == |q| - 1 {
              assert q[a] in disposables.value;
            }
          }
          disposables := Some(q);
        }
        i := i + 1;
      }
      assert xs[..i] == xs;
    }

    /** The dispose method. The first call sets the flag, hands the Set to
        safeDisposeAll (results holds what that returned, which the method
        discards), deletes the Set and runs the own hook, whose exception
        (outcome) escapes; later calls do nothing. */
    method Dispose() returns (results: seq<Disposal>, outcome: Outcome)
      modifies this`isDisposed, this`disposables
      ensures old(isDisposed) ==>
        isDisposed && disposables == old(disposables) && results == [] && outcome == Pass
      ensures !old(isDisposed) ==>
        && isDisposed && disposables == None
        && results == SafeDisposeAll(if old(disposables).Some? then Iterable(old(disposables).value) else NotIterable)
        && outcome == (if CleanupResult(ownHook).Some? then Fail(CleanupResult(ownHook).value) else Pass)
    {
      results, outcome := [], Pass;
      if !isDisposed {
        isDisposed := true;
        results := SafeDisposeAll(if disposables.Some? then Iterable(disposables.value) else NotIterable);
        disposables := None;
        var failure := CleanupResult(ownHook);
        if failure.Some? {
          outcome := Fail(failure.value);
        }
      }
    }
  }
}
