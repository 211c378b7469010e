/** The disposal helpers of the common utilities: dispose one value or every
    value of an iterable without letting an exception escape, make a
    disposable from a callback, and refuse access to a disposed instance. */
module IDisposable {
  import opened Common

  /** The property under which a disposable keeps its dispose method. */
  const DisposeKey := "__$dispose"

  /** What a value holds under DisposeKey: something that is not a function,
      or a function that returns normally (fails is None) or throws. */
  datatype Hook = NoHook | HookFn(fails: Option<Error>)

  /** A value handed to safeDispose: anything whose typeof is not 'object'
      (functions included), null, or an object with its identity and hook. */
  datatype Instance = NotObject(tag: nat) | NullValue | Obj(id: nat, hook: Hook)

  /** Whether safeDispose called the value's hook, and what it returned:
      the exception the hook threw, or undefined (None). */
  datatype Disposal = Disposal(called: bool, error: Option<Error>)

  /** safeDispose: the hook is called only on a non-null object that holds a
      function under DisposeKey; an exception it throws is returned, not
      propagated. */
  function SafeDispose(x: Instance): (r: Disposal)
    ensures r.called <==> x.Obj? && x.hook.HookFn?
    ensures r.called ==> r.error == x.hook.fails
    ensures !r.called ==> r.error.None?
  {
    if x.Obj? && x.hook.HookFn? then Disposal(true, x.hook.fails) else Disposal(false, None)
  }

  /** The argument of safeDisposeAll: a value that is not an iterable object
      (null and primitives included), or one whose iteration yields elems. */
  datatype Collection = NotIterable | Iterable(elems: seq<Instance>)

  /** safeDispose over each element of a copy, in iteration order. */
  function DisposeEach(elems: seq<Instance>): (r: seq<Disposal>)
    ensures |r| == |elems|
    ensures forall i :: 0 <= i < |r| ==> r[i] == SafeDispose(elems[i])
  {
    if elems == [] then [] else [SafeDispose(elems[0])] + DisposeEach(elems[1..])
  }

  /** safeDisposeAll: one result per element, in order; nothing for a value
      that cannot be iterated. */
  function SafeDisposeAll(c: Collection): (r: seq<Disposal>)
    ensures c.NotIterable? ==> r == []
    ensures c.Iterable? ==> |r| == |c.elems|
  {
    if c.Iterable? then DisposeEach(c.elems) else []
  }

  /** The identities of the objects whose hooks a run of safeDispose calls,
      in order. */
  function HookedIds(elems: seq<Instance>): seq<nat>
  {
    if elems == [] then []
    else if elems[0].Obj? && elems[0].hook.HookFn? then [elems[0].id] + HookedIds(elems[1..])
    else HookedIds(elems[1..])
  }

  /** The identities whose Disposal records a call. */
  function CalledIds(elems: seq<Instance>, ds: seq<Disposal>): seq<nat>
    requires |ds| == |elems|
  {
    if elems == [] then []
    else if ds[0].called && elems[0].Obj? then [elems[0].id] + CalledIds(elems[1..], ds[1..])
    else CalledIds(elems[1..], ds[1..])
  }

  /** A hook that throws does not stop the others: safeDisposeAll calls the
      hook of every element that has one, in iteration order, and reports
      an error exactly for those hooks that threw. */
  lemma {:induction false} EveryHookCalled(elems: seq<Instance>)
    ensures CalledIds(elems, SafeDisposeAll(Iterable(elems))) == HookedIds(elems)
    ensures forall i :: 0 <= i < |elems| ==>
      (SafeDisposeAll(Iterable(elems))[i].error.Some? <==>
         elems[i].Obj? && elems[i].hook.HookFn? && elems[i].hook.fails.Some?)
    decreases |elems|
  {
    if elems != [] {
      EveryHookCalled(elems[1..]);
      assert DisposeEach(elems)[1..] == DisposeEach(elems[1..]);
    }
  }

  /** The callback create wraps: falsy (nothing is called), a truthy value
      that is not a function (calling it throws a TypeError), or a function
      that returns or throws. */
  datatype Cleanup = NoCleanup | NotFunction | CleanupFn(fails: Option<Error>)

  /** What `cb && cb()` throws, if anything. */
  function CleanupResult(cb: Cleanup): (r: Option<Error>)
    ensures r.Some? <==> cb.NotFunction? || (cb.CleanupFn? && cb.fails.Some?)
  {
    match cb
    case NoCleanup => None
    case NotFunction => Some(TypeError)
    case CleanupFn(fails) => fails
  }

  /** create: a fresh object (identity id) whose hook runs the callback. */
  function Create(id: nat, callback: Cleanup): (r: Instance)
    ensures r.Obj? && r.id == id && r.hook.HookFn?
  {
    Obj(id, HookFn(CleanupResult(callback)))
  }

  /** What create makes is always disposed by safeDispose, which reports
      exactly what the callback threw. */
  lemma CreateDisposes(id: nat, callback: Cleanup)
    ensures SafeDispose(Create(id, callback)) == Disposal(true, CleanupResult(callback))
    ensures SafeDispose(Create(id, callback)).error.None? <==>
      callback.NoCleanup? || (callback.CleanupFn? && callback.fails.None?)
  {
  }

  /** The argument of checkDisposed: undefined or null, or an object whose
      `disposed` property is truthy or not. */
  datatype Target = Absent | Present(disposed: bool)

  /** checkDisposed: a DisposedError exactly when `disposed` is truthy;
      reading the property of undefined or null throws a TypeError. */
  function CheckDisposed(t: Target): (r: Outcome)
    ensures r == Fail(DisposedError) <==> t.Present? && t.disposed
    ensures r == Fail(TypeError) <==> t.Absent?
    ensures r == Pass <==> t.Present? && !t.disposed
  {
    match t
    case Absent => Fail(TypeError)
    case Present(disposed) => if disposed then Fail(DisposedError) else Pass
  }
}
