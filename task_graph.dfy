/**
 * How a scheduled function is run and what its promise receives
 * (`FutureExtensionTaskGraph`): the `ExecuteInitialFunction` and
 * `ExecuteContinuationFunction` overloads, the tasks that run them only while
 * their promise is unset, and the thread-pool work that turns abandonment
 * into cancellation.
 */
module FutureExtensionTaskGraph {
  import opened Wrappers
  import opened ExpectedResult
  import opened Scheduling
  import opened ExpectedPromise
  import opened Cancellation

  /**
   * What a user function returns for a promise of `R`: a plain value, a
   * `TExpected<R>`, or a `TExpectedFuture<R>`, which the task unwraps by
   * waiting for it. `resolution` is what that future eventually holds, `None`
   * when it never resolves.
   */
  datatype Returned<R> =
    | Plain(value: R)
    | AsExpected(expected: Expected<R>)
    | AsFuture(resolution: Option<Expected<R>>)

  /** What the promise receives for a returned value, if anything: a plain
      value is made ready, an expected is set as it is, and a future's result
      is forwarded when it arrives. */
  function Delivered<R>(r: Returned<R>): (d: Option<Expected<R>>)
    ensures r.Plain? ==> d == Some(MakeReadyExpected(r.value))
    ensures r.AsExpected? ==> d == Some(r.expected)
    ensures r.AsFuture? ==> d == r.resolution
  {
    match r
    case Plain(v) => Some(MakeReadyExpected(v))
    case AsExpected(e) => Some(e)
    case AsFuture(res) => res
  }

  /** A continuation over a future of `P`, by parameter class: it takes the
      value, nothing (after a void future), or the whole `TExpected<P>`. */
  datatype Continuation<!P, T> =
    | OnValue(onValue: P -> T)
    | OnVoid(onVoid: () -> T)
    | OnExpected(onExpected: Expected<P> -> T)

  /** Whether the continuation is called, and what its promise receives. */
  datatype Step<R> = Step(invoked: bool, delivered: Option<Expected<R>>)

  /** `ExecuteInitialFunction` for the plain, expected and future returns. */
  function ExecuteInitialFunction<R>(f: () -> Returned<R>): Option<Expected<R>>
  {
    Delivered(f())
  }

  /** `ExecuteInitialFunction` for a function returning void: it is called,
      then the promise is set to a completed void. */
  function ExecuteVoidInitialFunction(f: () -> ()): (d: Option<Expected<()>>)
    ensures d == Some(MakeReadyExpected(()))
  {
    var _ := f();
    Some(MakeReadyExpected(()))
  }

  /**
   * The six `ExecuteContinuationFunction` overloads whose functor returns a
   * value, an expected or a future. An expected-based continuation is always
   * called with the previous result; a value- or void-based one only on
   * Completed, and otherwise the promise receives the previous result
   * converted by `ConvertIncomplete`, keeping its state and error.
   */
  function ExecuteContinuationFunction<P, R>(k: Continuation<P, Returned<R>>, prev: Expected<P>): (s: Step<R>)
    requires prev.Valid()
    ensures s.invoked <==> k.OnExpected? || prev.IsCompleted()
    ensures k.OnExpected? ==> s.delivered == Delivered(k.onExpected(prev))
    ensures k.OnValue? && prev.IsCompleted() ==> s.delivered == Delivered(k.onValue(prev.GetValue()))
    ensures k.OnVoid? && prev.IsCompleted() ==> s.delivered == Delivered(k.onVoid())
    ensures !s.invoked ==> s.delivered == Some(ConvertIncomplete(prev))
  {
    match k
    case OnExpected(g) => Step(true, Delivered(g(prev)))
    case OnValue(g) =>
      if prev.IsCompleted() then Step(true, Delivered(g(prev.GetValue())))
      else Step(false, Some(ConvertIncomplete(prev)))
    case OnVoid(g) =>
      if prev.IsCompleted() then Step(true, Delivered(g()))
      else Step(false, Some(ConvertIncomplete(prev)))
  }

  /** The three `ExecuteContinuationFunction` overloads whose functor returns
      void: called on the same condition, then the promise is set to a
      completed void. */
  function ExecuteVoidContinuationFunction<P>(k: Continuation<P, ()>, prev: Expected<P>): (s: Step<()>)
    requires prev.Valid()
    ensures s.invoked <==> k.OnExpected? || prev.IsCompleted()
    ensures s.invoked ==> s.delivered == Some(MakeReadyExpected(()))
    ensures !s.invoked ==> s.delivered == Some(ConvertIncomplete(prev))
  {
    if k.OnExpected? || prev.IsCompleted() then Step(true, Some(MakeReadyExpected(())))
    else Step(false, Some(ConvertIncomplete(prev)))
  }

  /** A void-returning continuation seen as one returning a plain unit. */
  function AsUnitReturning<P>(k: Continuation<P, ()>): Continuation<P, Returned<()>> {
    match k
    case OnValue(g) => OnValue(x => Plain(g(x)))
    case OnVoid(g) => OnVoid(() => Plain(g()))
    case OnExpected(g) => OnExpected(e => Plain(g(e)))
  }

  /** The void-returning overloads are the general ones with a functor that
      returns a completed void. */
  lemma VoidReturnIsUnitReturn<P>(k: Continuation<P, ()>, prev: Expected<P>)
    requires prev.Valid()
    ensures ExecuteVoidContinuationFunction(k, prev) == ExecuteContinuationFunction(AsUnitReturning(k), prev)
  {
    var u := AsUnitReturning(k);
    match k
    case OnValue(g) =>
      if prev.IsCompleted() {
        var v := prev.GetValue();
        var w := g(v);
        match w { case () => }
        assert u.onValue(v) == Plain(());
      }
    case OnVoid(g) =>
      var w := g();
      match w { case () => }
      assert u.onVoid() == Plain(());
    case OnExpected(g) =>
      var w := g(prev);
      match w { case () => }
      assert u.onExpected(prev) == Plain(());
  }

  /** An initial function behaves as a void-based continuation of a future
      that already completed. */
  lemma InitialIsContinuationOfReadyVoid<R>(f: () -> Returned<R>)
    ensures ExecuteContinuationFunction(OnVoid(f), MakeReadyExpected(())) == Step(true, ExecuteInitialFunction(f))
  {
  }

  /** An Error or a cancellation passes unchanged through a value- or
      void-based continuation, which is not called. */
  lemma FailurePassesThrough<P, R>(k: Continuation<P, Returned<R>>, prev: Expected<P>)
    requires prev.Valid() && !k.OnExpected? && (prev.IsError() || prev.IsCancelled())
    ensures !ExecuteContinuationFunction(k, prev).invoked
    ensures var d := ExecuteContinuationFunction(k, prev).delivered;
      && d.Some? && d.value.state == prev.state && d.value.value == None
      && (prev.IsError() ==> d.value.IsError() && d.value.GetError() == prev.GetError())
  {
  }

  /** Runs a chain of value-based continuations over one type, first to
      last, and counts the calls made. The chain stops at a returned future
      that never resolves, and at a returned result that no public
      constructor builds. */
  function RunChain<T>(ks: seq<T -> Returned<T>>, prev: Expected<T>): (r: (nat, Option<Expected<T>>))
    requires prev.Valid()
    ensures r.0 <= |ks|
    ensures !prev.IsCompleted() ==> r.0 == 0
    decreases |ks|
  {
    if ks == [] then (0, Some(prev))
    else
      var s := ExecuteContinuationFunction(OnValue(ks[0]), prev);
      if s.delivered.Some? && s.delivered.value.Valid() then
        var rest := RunChain(ks[1..], s.delivered.value);
        ((if s.invoked then 1 else 0) + rest.0, rest.1)
      else ((if s.invoked then 1 else 0), s.delivered)
  }

  /** A failed or cancelled result runs down a whole chain of value-based
      continuations: none of them is called and the end of the chain holds
      the original result. */
  lemma {:induction false} FailureSkipsChain<T>(ks: seq<T -> Returned<T>>, prev: Expected<T>)
    requires prev.Valid() && !prev.IsCompleted()
    ensures RunChain(ks, prev) == (0, Some(prev))
    decreases |ks|
  {
    if ks != [] {
      ConvertToSelf(prev);
      FailureSkipsChain(ks[1..], prev);
    }
  }

  /** The value a chain of links that each return a plain value computes:
      every link applied in order. */
  function ApplyChain<T>(ks: seq<T -> Returned<T>>, v: T): T
    decreases |ks|
  {
    if ks == [] then v
    else
      match ks[0](v)
      case Plain(w) => ApplyChain(ks[1..], w)
      case _ => v
  }

  /** After a Completed result, a chain whose links all return plain values
      calls every link and ends Completed with their composition. */
  lemma {:induction false} CompletedChainRunsEveryLink<T>(ks: seq<T -> Returned<T>>, prev: Expected<T>)
    requires prev.Valid() && prev.IsCompleted()
    requires forall i, v :: 0 <= i < |ks| ==> ks[i](v).Plain?
    ensures RunChain(ks, prev) == (|ks|, Some(MakeReadyExpected(ApplyChain(ks, prev.GetValue()))))
    decreases |ks|
  {
    if ks != [] {
      var w := ks[0](prev.GetValue()).value;
      var next := MakeReadyExpected(w);
      assert forall i, v :: 0 <= i < |ks[1..]| ==> ks[1..][i](v) == ks[i + 1](v);
      CompletedChainRunsEveryLink(ks[1..], next);
    }
  }

  /** `DoTask` of an initial task: the function runs only if the promise is
      still unset, for instance not cancelled. */
  method DoInitialTask<R>(f: () -> Returned<R>, promise: Promise<R>) returns (invoked: bool)
    modifies promise`result
    ensures invoked == !old(promise.IsSet())
    ensures old(promise.IsSet()) ==> promise.result == old(promise.result)
    ensures !old(promise.IsSet()) ==> promise.result == ExecuteInitialFunction(f)
  {
    invoked := false;
    if !promise.IsSet() {
      invoked := true;
      var d := ExecuteInitialFunction(f);
      if d.Some? {
        promise.SetValue(d.value);
      }
    }
  }

  /** `DoTask` of a continuation task: the continuation is considered only if
      its promise is still unset. */
  method DoContinuationTask<P, R>(k: Continuation<P, Returned<R>>, prevFuture: Future<P>, promise: Promise<R>)
    returns (invoked: bool)
    requires prevFuture.IsReady() && prevFuture.Get().Valid()
    modifies promise`result
    ensures old(promise.IsSet()) ==> !invoked && promise.result == old(promise.result)
    ensures !old(promise.IsSet()) ==>
      var s := ExecuteContinuationFunction(k, old(prevFuture.Get()));
      invoked == s.invoked && promise.result == s.delivered
  {
    invoked := false;
    if !promise.IsSet() {
      var s := ExecuteContinuationFunction(k, prevFuture.Get());
      invoked := s.invoked;
      if s.delivered.Some? {
        promise.SetValue(s.delivered.value);
      }
    }
  }

  /**
   * `TExpectedFutureQueuedWork`: thread-pool work always holds a cancellation
   * handle, the one the options named if it is still alive and a new one
   * otherwise, so that abandoning the work can cancel its promise.
   */
  class QueuedWork<R> {
    const promise: Promise<R>
    const handle: CancellationHandle<R>

    /** The promise is registered with the handle, or already set by it. */
    ghost predicate Valid()
      reads this, handle, promise
    {
      handle.Valid() && handle.alive && promise.alive
      && (promise in handle.promisesToCancel || promise.IsSet())
    }

    constructor (p: Promise<R>, weakHandle: Option<CancellationHandle<R>>)
      requires p.alive
      requires weakHandle.Some? ==> weakHandle.value.Valid()
      modifies if weakHandle.Some? then {weakHandle.value} else {}, p`result
      ensures promise == p && Valid()
      ensures weakHandle.Some? ==> weakHandle.value.alive == old(weakHandle.value.alive)
      ensures weakHandle.Some? ==> weakHandle.value.cancelled == old(weakHandle.value.cancelled)
      ensures weakHandle.Some? && old(weakHandle.value.alive) ==> handle == weakHandle.value
      ensures weakHandle.Some? && old(weakHandle.value.alive) && !old(weakHandle.value.cancelled) ==>
        handle.promisesToCancel == old(weakHandle.value.promisesToCancel) + [p]
      ensures weakHandle.Some? && !old(weakHandle.value.alive) ==>
        weakHandle.value.promisesToCancel == old(weakHandle.value.promisesToCancel)
      ensures weakHandle.None? || !old(weakHandle.value.alive) ==>
        fresh(handle) && !handle.cancelled && handle.promisesToCancel == [p]
      ensures !handle.cancelled ==> p.result == old(p.result)
      ensures handle.cancelled ==> p.result == CancelledSlot(old(p.result))
    {
      var h: CancellationHandle<R>;
      if weakHandle.Some? && weakHandle.value.alive {
        h := weakHandle.value;
      } else {
        h := new CancellationHandle<R>();
      }
      h.AddPromise(p);
      promise, handle := p, h;
    }

    /** `Abandon`: treated as a cancellation of the work's handle, so an
        unset promise ends up Cancelled and a set one keeps its value, and
        every other live promise on a shared handle is cancelled with it. */
    method Abandon()
      requires Valid()
      modifies handle`cancelled, handle`promisesToCancel, handle.Registered()
      ensures handle.cancelled && handle.Valid() && handle.promisesToCancel == []
      ensures forall q :: q in old(handle.Registered()) ==>
        q.result == (if old(q.alive) then CancelledSlot(old(q.result)) else old(q.result))
      ensures forall q :: q in old(handle.Registered()) ==> q.alive == old(q.alive)
      ensures old(promise.IsSet()) ==> promise.result == old(promise.result)
      ensures !old(promise.IsSet()) ==> promise.result == Some(MakeCancelledExpected())
    {
      handle.Cancel();
    }
  }

  /** A continuation whose handle is cancelled before it runs, whether before
      or after it was scheduled, is never called, and its future holds
      Cancelled. */
  method CancelledContinuationNeverRuns<P, R>(k: Continuation<P, Returned<R>>, prevFuture: Future<P>,
                                              h: CancellationHandle<R>)
    returns (invoked: bool, f: Future<R>)
    requires h.Valid() && h.alive
    requires prevFuture.IsReady() && prevFuture.Get().Valid()
    modifies h, h.Registered()
    ensures !invoked && f.IsReady() && f.Get() == MakeCancelledExpected()
  {
    var p := new Promise<R>(DefaultExecutionDetails);
    TryAddPromiseToCancellationHandle(Some(h), p);
    if !h.cancelled {
      assert h.promisesToCancel[|h.promisesToCancel| - 1] == p;
      assert p in h.Registered();
    }
    h.Cancel();
    invoked := DoContinuationTask(k, prevFuture, p);
    f := p.GetFuture();
  }
}
