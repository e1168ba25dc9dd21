/**
 * `FCancellationHandle`: a cancelled flag and the list of promises to cancel.
 * A promise registered before `Cancel` is cancelled by it; one registered
 * after `Cancel` is cancelled at once and never stored.
 */
module Cancellation {
  import opened Wrappers
  import opened ExpectedResult
  import opened ExpectedPromise

  /** What `Promise.Cancel` leaves in a slot that held `before`. */
  function CancelledSlot<R>(before: Option<Expected<R>>): (after: Option<Expected<R>>)
    ensures after.Some?
    ensures before.Some? ==> after == before
  {
    if before.Some? then before else Some(MakeCancelledExpected())
  }

  class CancellationHandle<R> {
    var cancelled: bool
    /** `PromisesToCancel`: weak references, so a promise whose `alive` is
        false has expired and is skipped. */
    var promisesToCancel: seq<Promise<R>>
    /** True while some shared reference still owns the handle. */
    var alive: bool

    /** Once cancelled, nothing is left to cancel. */
    ghost predicate Valid()
      reads this
    {
      cancelled ==> promisesToCancel == []
    }

    ghost function Registered(): set<Promise<R>>
      reads this
    {
      set i | 0 <= i < |promisesToCancel| :: promisesToCancel[i]
    }

    /** `CreateCancellationHandle`. */
    constructor ()
      ensures Valid() && !cancelled && promisesToCancel == [] && alive
    {
      cancelled, promisesToCancel, alive := false, [], true;
    }

    /** `AddPromise`. */
    method AddPromise(p: Promise<R>)
      requires Valid()
      modifies this`promisesToCancel, p`result
      ensures Valid() && cancelled == old(cancelled)
      ensures !cancelled ==> promisesToCancel == old(promisesToCancel) + [p] && p.result == old(p.result)
      ensures cancelled ==> promisesToCancel == [] && p.result == CancelledSlot(old(p.result))
    {
      if !cancelled {
        promisesToCancel := promisesToCancel + [p];
      } else {
        p.Cancel();
      }
    }

    /** `Cancel`: sets the flag, cancels every registered promise that is
        still alive and empties the list. */
    method Cancel()
      requires Valid()
      modifies this`cancelled, this`promisesToCancel, Registered()
      ensures Valid() && cancelled && promisesToCancel == []
      ensures forall p :: p in old(Registered()) ==>
        p.result == (if old(p.alive) then CancelledSlot(old(p.result)) else old(p.result))
      ensures forall p :: p in old(Registered()) ==> p.alive == old(p.alive)
    {
      cancelled := true;
      var i := 0;
      while i < |promisesToCancel|
        invariant 0 <= i <= |promisesToCancel|
        invariant cancelled && promisesToCancel == old(promisesToCancel)
        invariant forall p :: p in old(Registered()) ==> p.alive == old(p.alive)
        invariant forall p :: p in old(Registered()) && p in promisesToCancel[..i] ==>
          p.result == if old(p.alive) then CancelledSlot(old(p.result)) else old(p.result)
        invariant forall p :: p in old(Registered()) && p !in promisesToCancel[..i] ==>
          p.result == old(p.result)
      {
        var p := promisesToCancel[i];
        if p.alive {
          p.Cancel();
        }
        assert promisesToCancel[..i + 1] == promisesToCancel[..i] + [p];
        i := i + 1;
      }
      promisesToCancel := [];
    }
  }

  /** `TryAddPromiseToCancellationHandle`: registers with the handle only if
      the weak reference is set and the handle is still alive. */
  method TryAddPromiseToCancellationHandle<R>(weakHandle: Option<CancellationHandle<R>>, p: Promise<R>)
    requires weakHandle.Some? ==> weakHandle.value.Valid()
    modifies if weakHandle.Some? then {weakHandle.value} else {}, p`result
    ensures weakHandle.Some? ==> weakHandle.value.Valid()
    ensures weakHandle.Some? ==> weakHandle.value.alive == old(weakHandle.value.alive)
    ensures weakHandle.Some? ==> weakHandle.value.cancelled == old(weakHandle.value.cancelled)
    ensures weakHandle.None? || !weakHandle.value.alive ==> p.result == old(p.result)
    ensures weakHandle.Some? && !weakHandle.value.alive ==>
      weakHandle.value.promisesToCancel == old(weakHandle.value.promisesToCancel)
    ensures weakHandle.Some? && weakHandle.value.alive ==>
      var h := weakHandle.value;
      && (!h.cancelled ==> h.promisesToCancel == old(h.promisesToCancel) + [p] && p.result == old(p.result))
      && (h.cancelled ==> p.result == CancelledSlot(old(p.result)))
  {
    if weakHandle.Some? && weakHandle.value.alive {
      weakHandle.value.AddPromise(p);
    }
  }
}
