/**
 * `TExpectedPromise` and the read-only futures over it, plus the helpers that
 * return an already resolved future.
 */
module ExpectedPromise {
  import opened Wrappers
  import opened ErrorType
  import opened ExpectedResult
  import opened Scheduling

  /**
   * A set-once promise. `result` is the internal promise's slot; with calls
   * made one at a time the atomic `ValueSetSync` flag is 1 exactly when the
   * slot is filled, so `IsSet` reads the slot. `alive` is true while some
   * shared reference still owns the promise: weak references see it expire.
   */
  class Promise<R> {
    var result: Option<Expected<R>>
    var alive: bool
    const executionDetails: ExecutionDetails

    /** `TExpectedPromise(InExecutionDetails)`. */
    constructor (details: ExecutionDetails)
      ensures result == None && alive && executionDetails == details
    {
      result, alive, executionDetails := None, true, details;
    }

    predicate IsSet()
      reads this
    {
      result.Some?
    }

    /** `SetValue(TExpected<R>&&)`: only the first value is kept. */
    method SetValue(e: Expected<R>)
      modifies this`result
      ensures old(IsSet()) ==> result == old(result)
      ensures !old(IsSet()) ==> result == Some(e)
    {
      if result.None? {
        result := Some(e);
      }
    }

    /** `SetValue(const R&)`, and `SetValue()` for `Promise<()>`. */
    method SetRawValue(v: R)
      modifies this`result
      ensures old(IsSet()) ==> result == old(result)
      ensures !old(IsSet()) ==> result == Some(MakeReadyExpected(v))
    {
      SetValue(MakeReadyExpected(v));
    }

    /** `Cancel`: a `SetValue` of a cancelled result, which loses to any
        value already set. */
    method Cancel()
      modifies this`result
      ensures old(IsSet()) ==> result == old(result)
      ensures !old(IsSet()) ==> result == Some(MakeCancelledExpected())
    {
      SetValue(MakeCancelledExpected());
    }

    /** `GetFuture`. */
    function GetFuture(): (f: Future<R>)
      ensures f.promise == this && f.GetExecutionDetails() == executionDetails
    {
      Future(this)
    }
  }

  /** `TExpectedFuture`: a read-only view of its promise's slot. */
  datatype Future<R> = Future(promise: Promise<R>)
  {
    predicate IsReady()
      reads promise
    {
      promise.result.Some?
    }

    /** `Get`, only meaningful once the future is ready. */
    function Get(): (e: Expected<R>)
      reads promise
      requires IsReady()
      ensures promise.result == Some(e)
    {
      promise.result.value
    }

    function GetExecutionDetails(): ExecutionDetails
    {
      promise.executionDetails
    }
  }

  /** `MakeReadyFuture(T&&)` and, with `v == ()`, `MakeReadyFuture()`. */
  method MakeReadyFuture<T>(v: T) returns (f: Future<T>)
    ensures fresh(f.promise) && f.IsReady() && f.Get() == MakeReadyExpected(v)
    ensures f.GetExecutionDetails() == DefaultExecutionDetails
  {
    var p := new Promise<T>(DefaultExecutionDetails);
    p.SetValue(MakeReadyExpected(v));
    f := p.GetFuture();
  }

  /** `MakeReadyFuture(TExpected<T>&&)`: the future holds the given result as it is. */
  method MakeReadyFutureOf<T>(e: Expected<T>) returns (f: Future<T>)
    ensures fresh(f.promise) && f.IsReady() && f.Get() == e
    ensures f.GetExecutionDetails() == DefaultExecutionDetails
  {
    var p := new Promise<T>(DefaultExecutionDetails);
    p.SetValue(e);
    f := p.GetFuture();
  }

  /** `MakeReadyFutureFromExpected<T, R>` when `T` and `R` are the same type:
      the result is passed through. */
  method MakeReadyFutureFromExpected<T>(e: Expected<T>) returns (f: Future<T>)
    ensures fresh(f.promise) && f.IsReady() && f.Get() == e
  {
    var p := new Promise<T>(DefaultExecutionDetails);
    p.SetValue(e);
    f := p.GetFuture();
  }

  /** `MakeReadyFutureFromExpected<T, R>` when the types differ: the result is
      converted, keeping its state and error; a value becomes `defaultValue`,
      the source's `T()`. */
  method MakeReadyFutureFromOtherExpected<T, R>(e: Expected<R>, defaultValue: T) returns (f: Future<T>)
    requires e.IsError() ==> e.internalError.Some?
    ensures fresh(f.promise) && f.IsReady()
    ensures f.Get().Valid() && f.Get().state == e.state
    ensures f.Get().IsCompleted() ==> f.Get().GetValue() == defaultValue
    ensures f.Get().IsError() ==> f.Get().GetError() == e.GetError()
  {
    f := MakeReadyFutureOf(Convert(e, defaultValue));
  }

  /** `MakeErrorFuture`. */
  method MakeErrorFuture<T>(err: Error) returns (f: Future<T>)
    ensures fresh(f.promise) && f.IsReady()
    ensures f.Get().Valid() && f.Get().IsError() && f.Get().GetError() == err
  {
    var p := new Promise<T>(DefaultExecutionDetails);
    p.SetValue(MakeErrorExpected(err));
    f := p.GetFuture();
  }

  /** Only the first value reaches a fresh promise, whatever comes after it:
      a later value and a later cancellation both change nothing. */
  method FirstValueWins<R>(first: Expected<R>, second: Expected<R>) returns (kept: Expected<R>)
    ensures kept == first
  {
    var p := new Promise<R>(DefaultExecutionDetails);
    p.SetValue(first);
    p.SetValue(second);
    p.Cancel();
    kept := p.result.value;
  }
}
