/**
 * The combinators `WhenAll` and `WhenAny`. Each input future hands its result
 * to a callback once; a run (see `Deliveries`) is the sequence of results
 * delivered so far, in the order the scheduler chose. Each combinator is a
 * method that feeds a run to its callbacks one result at a time and is
 * proved to leave its output promise as a function of the run says.
 */
module StaticFuncs {
  import opened Wrappers
  import opened ErrorType
  import opened ExpectedResult
  import opened Scheduling
  import opened ExpectedPromise
  import opened Deliveries

  /** `Errors::ERROR_INVALID_ARGUMENT`. */
  const ERROR_INVALID_ARGUMENT: int32 := 1

  const WhenAnyEmptyMessage: string := "SD::WhenAny - Must have at least one element in the array."

  // ---------------------------------------------------------------------------
  // Typed WhenAll

  /**
   * What the typed `WhenAll` future holds after a run over `n` inputs: a ready
   * empty array when there are no inputs; otherwise the first Error or
   * Cancelled result, converted; otherwise, once all `n` inputs completed, the
   * values in delivery order; otherwise nothing yet. Incomplete results are
   * ignored.
   */
  function WhenAllOutcome<T>(n: nat, arrivals: seq<Expected<T>>): (o: Option<Expected<seq<T>>>)
    requires AllValid(arrivals)
    ensures n == 0 ==> o == Some(MakeReadyExpected([]))
    ensures o.Some? ==> o.value.Valid()
  {
    if n == 0 then Some(MakeReadyExpected([]))
    else match FirstFailure(arrivals)
      case Some(k) => Some(ConvertIncomplete(arrivals[k]))
      case None =>
        if CountCompleted(arrivals) == n then Some(MakeReadyExpected(CompletedValues(arrivals))) else None
  }

  /** The state shared by the typed `WhenAll` callbacks: the counter, the
      accumulated values and the output promise. */
  class AllJoin<T> {
    var counter: int
    var values: seq<T>
    const promise: Promise<seq<T>>

    constructor (n: nat)
      ensures counter == n && values == []
      ensures fresh(promise) && promise.result == None
    {
      counter, values := n, [];
      promise := new Promise<seq<T>>(DefaultExecutionDetails);
    }

    /** The callback: a completed result is appended and counted, and the
        count reaching zero sets the accumulated array; an error or a
        cancellation is set at once; an Incomplete result does nothing. */
    method OnResult(r: Expected<T>)
      requires r.Valid()
      modifies this`counter, this`values, promise`result
      ensures r.IsCompleted() ==> values == old(values) + [r.GetValue()] && counter == old(counter) - 1
      ensures !r.IsCompleted() ==> values == old(values) && counter == old(counter)
      ensures old(promise.IsSet()) ==> promise.result == old(promise.result)
      ensures !old(promise.IsSet()) ==>
        promise.result == (if r.IsCompleted() then (if counter == 0 then Some(MakeReadyExpected(values)) else None)
                           else if Fails(r) then Some(ConvertIncomplete(r))
                           else None)
    {
      if r.IsCompleted() {
        values := values + [r.GetValue()];
        counter := counter - 1;
        if counter == 0 {
          promise.SetRawValue(values);
        }
      } else if r.IsError() {
        promise.SetValue(MakeErrorExpected(r.GetError()));
      } else if r.IsCancelled() {
        promise.SetValue(MakeCancelledExpected());
      }
    }
  }

  /**
   * `WhenAll(const TArray<TExpectedFuture<T>>&)`, and both overloads of the
   * older copy, which share its body: the returned future holds
   * `WhenAllOutcome` of the run.
   */
  method WhenAll<T>(results: seq<Expected<T>>, arrivals: seq<Expected<T>>) returns (f: Future<seq<T>>)
    requires AllValid(results) && IsRunOf(results, arrivals)
    ensures AllValid(arrivals)
    ensures fresh(f.promise)
    ensures f.promise.result == WhenAllOutcome(|results|, arrivals)
  {
    RunLength(results, arrivals);
    RunIsValid(results, arrivals);
    if |results| == 0 {
      f := MakeReadyFuture<seq<T>>([]);
      return;
    }
    var n := |results|;
    var join := new AllJoin<T>(n);
    var i := 0;
    while i < |arrivals|
      invariant 0 <= i <= |arrivals| <= n
      invariant AllValid(arrivals[..i])
      invariant join.counter == n - CountCompleted(arrivals[..i])
      invariant join.values == CompletedValues(arrivals[..i])
      invariant join.promise.result == WhenAllOutcome(n, arrivals[..i])
    {
      var r := arrivals[i];
      assert arrivals[..i + 1] == arrivals[..i] + [r];
      assert arrivals[..i + 1][..i] == arrivals[..i];
      AllValidSlice(arrivals, 0, i + 1);
      join.OnResult(r);
      i := i + 1;
    }
    assert arrivals[..i] == arrivals;
    f := join.promise.GetFuture();
  }

  /** The first Error or Cancelled result decides the outcome, with its error,
      provided nothing failed before it. */
  lemma WhenAllFirstFailureWins<T>(n: nat, arrivals: seq<Expected<T>>, k: nat)
    requires AllValid(arrivals) && 0 < n && k < |arrivals|
    requires Fails(arrivals[k]) && forall j :: 0 <= j < k ==> !Fails(arrivals[j])
    ensures WhenAllOutcome(n, arrivals) == Some(ConvertIncomplete(arrivals[k]))
    ensures arrivals[k].IsCancelled() ==> WhenAllOutcome(n, arrivals).value.IsCancelled()
    ensures arrivals[k].IsError() ==>
      WhenAllOutcome(n, arrivals).value.IsError()
      && WhenAllOutcome(n, arrivals).value.GetError() == arrivals[k].GetError()
  {
  }

  /** After any Error or Cancelled result the outcome can never be a success:
      the failed input was never counted. */
  lemma WhenAllNoSuccessAfterFailure<T>(n: nat, arrivals: seq<Expected<T>>, k: nat)
    requires AllValid(arrivals) && 0 < n && k < |arrivals| && Fails(arrivals[k])
    ensures WhenAllOutcome(n, arrivals).Some? && !WhenAllOutcome(n, arrivals).value.IsCompleted()
  {
  }

  /** Once set, the outcome is final: no later delivery of the same run changes it. */
  lemma WhenAllOutcomeFinal<T>(n: nat, a: seq<Expected<T>>, b: seq<Expected<T>>)
    requires AllValid(a + b) && |a + b| <= n
    requires AllValid(a) && WhenAllOutcome(n, a).Some?
    ensures WhenAllOutcome(n, a + b) == WhenAllOutcome(n, a)
  {
    FirstPositionsStable(a, b);
    if 0 < n && FirstFailure(a).None? {
      assert CountCompleted(a) == n;
      assert b == [];
      assert a + b == a;
    } else if 0 < n {
      var k := FirstFailure(a).value;
      assert (a + b)[k] == a[k];
    }
  }

  /** When every input completes, `WhenAll` holds every input's value once,
      in some order: the same values with the same multiplicities. */
  lemma WhenAllValuesArePermutation<T>(results: seq<Expected<T>>, arrivals: seq<Expected<T>>)
    requires AllValid(results) && IsRunOf(results, arrivals)
    requires 0 < |results| == |arrivals|
    requires forall i :: 0 <= i < |results| ==> results[i].IsCompleted()
    ensures AllValid(arrivals)
    ensures WhenAllOutcome(|results|, arrivals).Some?
    ensures var o := WhenAllOutcome(|results|, arrivals).value;
      && o.IsCompleted()
      && |o.GetValue()| == |results|
      && multiset(o.GetValue()) == multiset(CompletedValues(results))
  {
    RunLength(results, arrivals);
    RunIsValid(results, arrivals);
    forall i | 0 <= i < |arrivals| ensures arrivals[i].IsCompleted() {
      assert arrivals[i] in multiset(results);
    }
    assert CountCompleted(arrivals) == |results|;
    CompletedValuesPermutation(arrivals, results);
  }

  // ---------------------------------------------------------------------------
  // WhenAny

  /** What the `WhenAny` future holds after a run over `n` inputs: an invalid
      argument error without inputs; otherwise the first delivered result,
      whatever its state. */
  function WhenAnyOutcome<T>(n: nat, arrivals: seq<Expected<T>>): (o: Option<Expected<T>>)
    ensures n == 0 ==> o == Some(MakeErrorExpected(ErrorWithInfo(ERROR_INVALID_ARGUMENT, WhenAnyEmptyMessage)))
    ensures 0 < n ==> (o.Some? <==> |arrivals| > 0)
  {
    if n == 0 then Some(MakeErrorExpected(ErrorWithInfo(ERROR_INVALID_ARGUMENT, WhenAnyEmptyMessage)))
    else if arrivals == [] then None
    else Some(arrivals[0])
  }

  /** `WhenAny`, in both copies and both overloads: every callback sets the
      shared promise, so the first delivery is kept. */
  method WhenAny<T>(results: seq<Expected<T>>, arrivals: seq<Expected<T>>) returns (f: Future<T>)
    requires IsRunOf(results, arrivals)
    ensures fresh(f.promise)
    ensures f.promise.result == WhenAnyOutcome(|results|, arrivals)
  {
    RunLength(results, arrivals);
    if |results| == 0 {
      f := MakeErrorFuture<T>(ErrorWithInfo(ERROR_INVALID_ARGUMENT, WhenAnyEmptyMessage));
      return;
    }
    var promise := new Promise<T>(DefaultExecutionDetails);
    var i := 0;
    while i < |arrivals|
      invariant 0 <= i <= |arrivals|
      invariant promise.result == if i == 0 then None else Some(arrivals[0])
    {
      promise.SetValue(arrivals[i]);
      i := i + 1;
    }
    f := promise.GetFuture();
  }

  /** The winner is one of the inputs' results, and later deliveries do not
      replace it. */
  lemma WhenAnyFirstWins<T>(results: seq<Expected<T>>, a: seq<Expected<T>>, b: seq<Expected<T>>)
    requires IsRunOf(results, a + b) && 0 < |a|
    ensures WhenAnyOutcome(|results|, a + b) == WhenAnyOutcome(|results|, a)
    ensures 0 < |results| ==> WhenAnyOutcome(|results|, a).value in results
  {
    assert (a + b)[0] == a[0];
    assert a[0] in multiset(a + b);
    RunLength(results, a + b);
  }

  // ---------------------------------------------------------------------------
  // void WhenAll

  /** `EFailMode`. */
  datatype FailMode = Full | Fast

  /** The outcome the void `WhenAll` records: the first result that did not
      complete, as it is, or success once all `n` inputs have delivered. */
  function RecordedOutcome(n: nat, arrivals: seq<Expected<()>>): (o: Option<Expected<()>>)
    ensures o.Some? && !o.value.IsCompleted() ==> o.value in arrivals
    ensures (exists j :: 0 <= j < |arrivals| && !arrivals[j].IsCompleted()) ==> o.Some? && !o.value.IsCompleted()
  {
    match FirstNotCompleted(arrivals)
    case Some(k) => Some(arrivals[k])
    case None => if |arrivals| == n then Some(MakeReadyExpected(())) else None
  }

  /** What the void `WhenAll` future holds: success without inputs; in Fast
      mode the recorded outcome as soon as there is one; in Full mode the
      recorded outcome only once every input has delivered. */
  function WhenAllVoidOutcome(n: nat, arrivals: seq<Expected<()>>, mode: FailMode): Option<Expected<()>>
  {
    if n == 0 then Some(MakeReadyExpected(()))
    else match mode
      case Fast => RecordedOutcome(n, arrivals)
      case Full => if |arrivals| == n then RecordedOutcome(n, arrivals) else None
  }

  /** The state shared by the void `WhenAll` callbacks: the counter, the
      `FirstErrorRef` promise that records the outcome, the output promise,
      and whether `SetPromise` has chained the output to the recorded outcome. */
  class VoidJoin {
    var counter: int
    const firstError: Promise<()>
    const output: Promise<()>
    var forwarding: bool
    const failMode: FailMode

    /** The output holds nothing until `SetPromise`, and the recorded
        outcome from then on. */
    predicate Valid()
      reads this, firstError, output
    {
      firstError != output && output.result == if forwarding then firstError.result else None
    }

    constructor (n: nat, mode: FailMode)
      ensures Valid() && fresh(firstError) && fresh(output)
      ensures counter == n && failMode == mode && !forwarding && firstError.result == None
    {
      counter, forwarding, failMode := n, false, mode;
      firstError := new Promise<()>(DefaultExecutionDetails);
      output := new Promise<()>(DefaultExecutionDetails);
    }

    /** `SetPromise`: chains the output to the recorded outcome, copying one
        recorded already. */
    method SetPromise()
      requires Valid()
      modifies this`forwarding, output`result
      ensures Valid() && forwarding
    {
      forwarding := true;
      if firstError.IsSet() {
        output.SetValue(firstError.result.value);
      }
    }

    /** `FirstErrorRef->SetValue`, followed by the chained copy when the
        output is forwarding. */
    method Record(e: Expected<()>)
      requires Valid()
      modifies firstError`result, output`result
      ensures Valid()
      ensures old(firstError.IsSet()) ==> firstError.result == old(firstError.result)
      ensures !old(firstError.IsSet()) ==> firstError.result == Some(e)
    {
      firstError.SetValue(e);
      if forwarding {
        output.SetValue(firstError.result.value);
      }
    }

    /** The callback: a result that did not complete is recorded; every
        result is counted; the count reaching zero records success and, in
        Full mode, chains the output. */
    method OnResult(r: Expected<()>)
      requires Valid()
      modifies this`counter, this`forwarding, firstError`result, output`result
      ensures Valid() && counter == old(counter) - 1
      ensures firstError.result ==
        (if old(firstError.IsSet()) then old(firstError.result)
         else if !r.IsCompleted() then Some(r)
         else if counter == 0 then Some(MakeReadyExpected(()))
         else None)
      ensures forwarding == (old(forwarding) || (counter == 0 && failMode != Fast))
    {
      if !r.IsCompleted() {
        Record(r);
      }
      counter := counter - 1;
      if counter == 0 {
        Record(MakeReadyExpected(()));
        if failMode != Fast {
          SetPromise();
        }
      }
    }
  }

  /** The void `WhenAll(Futures, FailMode)`: the returned future holds
      `WhenAllVoidOutcome` of the run. */
  method WhenAllVoid(results: seq<Expected<()>>, arrivals: seq<Expected<()>>, mode: FailMode)
    returns (f: Future<()>)
    requires IsRunOf(results, arrivals)
    ensures fresh(f.promise)
    ensures f.promise.result == WhenAllVoidOutcome(|results|, arrivals, mode)
  {
    RunLength(results, arrivals);
    if |results| == 0 {
      f := MakeReadyFuture(());
      return;
    }
    var n := |results|;
    var join := new VoidJoin(n, mode);
    if mode == Fast {
      join.SetPromise();
    }
    var i := 0;
    while i < |arrivals|
      invariant 0 <= i <= |arrivals| <= n
      invariant join.Valid() && join.counter == n - i
      invariant join.forwarding == (mode == Fast || i == n)
      invariant join.firstError.result == RecordedOutcome(n, arrivals[..i])
      invariant join.output.result == WhenAllVoidOutcome(n, arrivals[..i], mode)
    {
      var r := arrivals[i];
      assert arrivals[..i + 1] == arrivals[..i] + [r];
      assert arrivals[..i + 1][..i] == arrivals[..i];
      join.OnResult(r);
      i := i + 1;
    }
    assert arrivals[..i] == arrivals;
    f := join.output.GetFuture();
  }

  /** `WhenAll(Futures)`: the one-argument overload uses Full. */
  method WhenAllVoidDefault(results: seq<Expected<()>>, arrivals: seq<Expected<()>>) returns (f: Future<()>)
    requires IsRunOf(results, arrivals)
    ensures fresh(f.promise)
    ensures f.promise.result == WhenAllVoidOutcome(|results|, arrivals, Full)
  {
    f := WhenAllVoid(results, arrivals, Full);
  }

  /** Both modes end with the same value once every input has delivered; Fast
      never holds less than Full, and Full holds nothing before the end. */
  lemma FailModesAgree(n: nat, arrivals: seq<Expected<()>>)
    requires |arrivals| <= n
    ensures |arrivals| == n ==> WhenAllVoidOutcome(n, arrivals, Full) == WhenAllVoidOutcome(n, arrivals, Fast)
    ensures |arrivals| == n ==> WhenAllVoidOutcome(n, arrivals, Full).Some?
    ensures WhenAllVoidOutcome(n, arrivals, Full).Some? ==>
      WhenAllVoidOutcome(n, arrivals, Fast) == WhenAllVoidOutcome(n, arrivals, Full)
    ensures 0 < |arrivals| < n ==> WhenAllVoidOutcome(n, arrivals, Full).None?
  {
  }

  /** Fast mode fails at the first result that did not complete, and keeps
      that result whatever is delivered after it. */
  lemma FastFailsAtFirstFailure(n: nat, a: seq<Expected<()>>, b: seq<Expected<()>>, k: nat)
    requires 0 < n && k < |a| && !a[k].IsCompleted()
    requires forall j :: 0 <= j < k ==> a[j].IsCompleted()
    ensures WhenAllVoidOutcome(n, a, Fast) == Some(a[k])
    ensures WhenAllVoidOutcome(n, a + b, Fast) == Some(a[k])
  {
    FirstPositionsStable(a, b);
    assert (a + b)[k] == a[k];
  }

  /** Unlike the typed `WhenAll`, which ignores an Incomplete result, the void
      `WhenAll` records it as its outcome. */
  lemma VoidWhenAllForwardsIncomplete(n: nat, a: seq<Expected<()>>)
    requires 0 < n && AllValid(a) && forall j :: 0 <= j < |a| ==> a[j].IsCompleted()
    ensures WhenAllVoidOutcome(n, a + [DefaultExpected()], Fast) == Some(DefaultExpected())
    ensures |a| < n ==> WhenAllOutcome(n, a + [DefaultExpected<()>()]) == WhenAllOutcome(n, a)
  {
    FastFailsAtFirstFailure(n, a + [DefaultExpected()], [], |a|);
    assert AllValid(a + [DefaultExpected<()>()]) by {
      forall j | 0 <= j < |a| + 1 ensures (a + [DefaultExpected<()>()])[j].Valid() {
        if j < |a| { assert (a + [DefaultExpected<()>()])[j] == a[j]; }
      }
    }
    assert (a + [DefaultExpected<()>()])[..|a|] == a;
  }
}
