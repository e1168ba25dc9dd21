/**
 * The four-state result `TExpected<R>`: Incomplete, Completed (with a value),
 * Cancelled, or Error (with an `Error`). `TExpected<void>` is `Expected<()>`:
 * its completed form carries the unit value.
 */
module ExpectedResult {
  import opened Wrappers
  import opened ErrorType

  datatype ResultState = Incomplete | Completed | Cancelled | Failed

  /**
   * The three fields of `TExpectedBase`/`TExpected`: the state, the shared
   * error pointer and the optional value.
   */
  datatype Expected<R> = Expected(state: ResultState, internalError: Option<Error>, value: Option<R>)
  {
    /** The shape every value reachable through the public operations has:
        an error is stored exactly in the Error state, a value exactly in the
        Completed state. */
    predicate Valid() {
      && (state == Failed <==> internalError.Some?)
      && (state == Completed <==> value.Some?)
    }

    predicate IsCompleted() { state == Completed }
    predicate IsError() { state == Failed }
    predicate IsCancelled() { state == Cancelled }

    /** `GetError`, which checks that the state is Error and an error is stored. */
    function GetError(): (e: Error)
      requires IsError() && internalError.Some?
      ensures internalError == Some(e)
    {
      internalError.value
    }

    /** `operator*`: the stored value, which `GetValue` only hands out when Completed. */
    function GetValue(): (v: R)
      requires IsCompleted() && value.Some?
      ensures value == Some(v)
    {
      value.value
    }
  }

  /** The default constructor. */
  function DefaultExpected<R>(): (e: Expected<R>)
    ensures e.Valid() && !e.IsCompleted() && !e.IsError() && !e.IsCancelled()
    ensures e.value == None && e.internalError == None
  {
    Expected(Incomplete, None, None)
  }

  /** The value constructor and `MakeReadyExpected`. */
  function MakeReadyExpected<R>(v: R): (e: Expected<R>)
    ensures e.Valid() && e.IsCompleted() && e.GetValue() == v
  {
    Expected(Completed, None, Some(v))
  }

  /** The error constructor and `MakeErrorExpected(Error)`. */
  function MakeErrorExpected<R>(err: Error): (e: Expected<R>)
    ensures e.Valid() && e.IsError() && e.GetError() == err && e.value == None
  {
    Expected(Failed, Some(err), None)
  }

  /** `MakeCancelled` and `MakeCancelledExpected`. */
  function MakeCancelledExpected<R>(): (e: Expected<R>)
    ensures e.Valid() && e.IsCancelled() && e.value == None && e.internalError == None
  {
    Expected(Cancelled, None, None)
  }

  /** At most one of the three state queries holds, and none holds exactly
      when the result is Incomplete. */
  lemma StateQueriesExclusive<R>(e: Expected<R>)
    ensures !(e.IsCompleted() && e.IsError())
    ensures !(e.IsCompleted() && e.IsCancelled())
    ensures !(e.IsError() && e.IsCancelled())
    ensures e.state == Incomplete <==> !e.IsCompleted() && !e.IsError() && !e.IsCancelled()
  {
  }

  /** A valid expected is one of the four canonical forms built above. */
  lemma ValidIsCanonical<R>(e: Expected<R>)
    requires e.Valid()
    ensures e.state == Incomplete ==> e == DefaultExpected()
    ensures e.state == Completed ==> e == MakeReadyExpected(e.GetValue())
    ensures e.state == Cancelled ==> e == MakeCancelledExpected()
    ensures e.state == Failed ==> e == MakeErrorExpected(e.GetError())
  {
  }

  /**
   * `Convert`: keeps the state, replaces a value by `convertValue` and keeps
   * the error. The void overload is `Convert(other, ())`.
   */
  function Convert<R, P>(other: Expected<P>, convertValue: R): (r: Expected<R>)
    requires other.IsError() ==> other.internalError.Some?
    ensures r.Valid() && r.state == other.state
    ensures r.IsCompleted() ==> r.GetValue() == convertValue
    ensures r.IsError() ==> r.GetError() == other.GetError()
  {
    match other.state
    case Completed => MakeReadyExpected(convertValue)
    case Cancelled => MakeCancelledExpected()
    case Failed => MakeErrorExpected(other.GetError())
    case Incomplete => DefaultExpected()
  }

  /**
   * `ConvertIncomplete` (also `MakeErrorExpected(TExpected)`): only for
   * results that did not complete; keeps the state and the error.
   */
  function ConvertIncomplete<R, P>(other: Expected<P>): (r: Expected<R>)
    requires !other.IsCompleted()
    requires other.IsError() ==> other.internalError.Some?
    ensures r.Valid() && r.state == other.state && r.value == None
    ensures r.IsError() ==> r.GetError() == other.GetError()
  {
    match other.state
    case Cancelled => MakeCancelledExpected()
    case Failed => MakeErrorExpected(other.GetError())
    case Incomplete => DefaultExpected()
  }

  /** On a result that did not complete, the two conversions agree whatever
      value `Convert` is offered. */
  lemma ConvertIncompleteIsConvert<R, P>(other: Expected<P>, anyValue: R)
    requires !other.IsCompleted()
    requires other.IsError() ==> other.internalError.Some?
    ensures ConvertIncomplete<R, P>(other) == Convert(other, anyValue)
  {
  }

  /** Converting twice is converting once: the state and error survive any
      chain of conversions, and only the last value offered is kept. */
  lemma ConvertComposes<R, Q, P>(other: Expected<P>, first: Q, second: R)
    requires other.IsError() ==> other.internalError.Some?
    ensures Convert(Convert(other, first), second) == Convert(other, second)
  {
  }

  /** Converting a valid result to its own type with its own value is the identity. */
  lemma ConvertToSelf<R>(e: Expected<R>)
    requires e.Valid()
    ensures e.IsCompleted() ==> Convert(e, e.GetValue()) == e
    ensures !e.IsCompleted() ==> ConvertIncomplete<R, R>(e) == e
  {
  }

  /**
   * A `TExpected` variable. The value is changed in place by the assignment
   * operators; `SetComplete` is the protected step they share.
   */
  class ExpectedVariable<R> {
    var state: ResultState
    var internalError: Option<Error>
    var value: Option<R>

    /** The current value, as a copy of the variable would see it. */
    function Current(): Expected<R>
      reads this
    {
      Expected(state, internalError, value)
    }

    /** `TExpected()`. */
    constructor ()
      ensures Current() == DefaultExpected()
    {
      state, internalError, value := Incomplete, None, None;
    }

    /** `TExpected(const R&)`: the value is stored, then `SetComplete` runs. */
    constructor FromValue(v: R)
      ensures Current() == MakeReadyExpected(v)
    {
      state, internalError, value := Incomplete, None, Some(v);
      new;
      SetComplete();
    }

    /** `TExpected(const Error&)`. */
    constructor FromError(err: Error)
      ensures Current() == MakeErrorExpected(err)
    {
      state, internalError, value := Failed, Some(err), None;
    }

    /** `SetComplete`: checks the state is Incomplete, drops the error and
        marks the result Completed. */
    method SetComplete()
      requires state == Incomplete
      modifies this
      ensures state == Completed && internalError == None && value == old(value)
    {
      internalError := None;
      state := Completed;
    }

    /** `operator=(const R&)`: only allowed on an Incomplete result. */
    method AssignValue(v: R)
      requires state == Incomplete
      modifies this
      ensures Current() == MakeReadyExpected(v)
    {
      value := Some(v);
      SetComplete();
    }

    /** `operator=(const Error&)`: allowed in any state; the value is reset. */
    method AssignError(err: Error)
      modifies this
      ensures Current() == MakeErrorExpected(err)
    {
      internalError := Some(err);
      state := Failed;
      value := None;
    }

    /** The defaulted copy assignment. */
    method Assign(other: Expected<R>)
      modifies this
      ensures Current() == other
    {
      state, internalError, value := other.state, other.internalError, other.value;
    }
  }
}
