/**
 * What the combinators see of their input futures: each future hands its
 * result to a callback once, in an order the scheduler chooses. A run is the
 * sequence of results delivered so far; since every future delivers at most
 * once, it is a sub-multiset of the inputs' results.
 */
module Deliveries {
  import opened Wrappers
  import opened ExpectedResult

  /** A delivery run: the results delivered so far, each from a different input. */
  predicate IsRunOf<T(==)>(results: seq<Expected<T>>, arrivals: seq<Expected<T>>) {
    multiset(arrivals) <= multiset(results)
  }

  predicate AllValid<T>(s: seq<Expected<T>>) {
    forall i :: 0 <= i < |s| ==> s[i].Valid()
  }

  /** A delivery of this result makes a combinator fail: Error or Cancelled. */
  predicate Fails<T>(r: Expected<T>) {
    r.IsError() || r.IsCancelled()
  }

  /** A run is never longer than the inputs, and a run of every input is a
      reordering of them. */
  lemma RunLength<T>(results: seq<Expected<T>>, arrivals: seq<Expected<T>>)
    requires IsRunOf(results, arrivals)
    ensures |arrivals| <= |results|
    ensures |arrivals| == |results| ==> multiset(arrivals) == multiset(results)
  {
    var a, b := multiset(arrivals), multiset(results);
    assert b == a + (b - a);
    assert |b| == |a| + |b - a|;
    if |arrivals| == |results| {
      assert |b - a| == 0;
      assert b - a == multiset{};
    }
  }

  /** Results delivered by a run are results of the inputs. */
  lemma RunIsValid<T>(results: seq<Expected<T>>, arrivals: seq<Expected<T>>)
    requires IsRunOf(results, arrivals) && AllValid(results)
    ensures AllValid(arrivals)
  {
    forall i | 0 <= i < |arrivals|
      ensures arrivals[i].Valid()
    {
      assert arrivals[i] in multiset(arrivals);
      assert arrivals[i] in multiset(results);
    }
  }

  /** The number of Completed results in a run. */
  function CountCompleted<T>(s: seq<Expected<T>>): (c: nat)
    ensures c <= |s|
    ensures c == |s| <==> forall i :: 0 <= i < |s| ==> s[i].IsCompleted()
  {
    if s == [] then 0
    else
      var front := s[..|s| - 1];
      assert forall i :: 0 <= i < |front| ==> front[i] == s[i];
      CountCompleted(front) + (if s[|s| - 1].IsCompleted() then 1 else 0)
  }

  /** The values of the Completed results, in delivery order. */
  function CompletedValues<T>(s: seq<Expected<T>>): (vs: seq<T>)
    ensures AllValid(s) ==> |vs| == CountCompleted(s)
  {
    if s == [] then []
    else
      var front, last := s[..|s| - 1], s[|s| - 1];
      assert AllValid(s) ==> AllValid(front) by {
        assert forall i :: 0 <= i < |front| ==> front[i] == s[i];
      }
      CompletedValues(front) + (if last.IsCompleted() && last.value.Some? then [last.value.value] else [])
  }

  /** The position of the first failing result of a run, if any. */
  function FirstFailure<T>(s: seq<Expected<T>>): (k: Option<nat>)
    ensures k.Some? ==> k.value < |s| && Fails(s[k.value])
    ensures k.Some? ==> forall j :: 0 <= j < k.value ==> !Fails(s[j])
    ensures k.None? ==> forall j :: 0 <= j < |s| ==> !Fails(s[j])
  {
    if s == [] then None
    else
      var front := s[..|s| - 1];
      assert forall i :: 0 <= i < |front| ==> front[i] == s[i];
      var k := FirstFailure(front);
      if k.Some? then k
      else if Fails(s[|s| - 1]) then Some(|s| - 1)
      else None
  }

  /** The position of the first result of a run that did not complete,
      Incomplete included. */
  function FirstNotCompleted<T>(s: seq<Expected<T>>): (k: Option<nat>)
    ensures k.Some? ==> k.value < |s| && !s[k.value].IsCompleted()
    ensures k.Some? ==> forall j :: 0 <= j < k.value ==> s[j].IsCompleted()
    ensures k.None? ==> forall j :: 0 <= j < |s| ==> s[j].IsCompleted()
  {
    if s == [] then None
    else
      var front := s[..|s| - 1];
      assert forall i :: 0 <= i < |front| ==> front[i] == s[i];
      var k := FirstNotCompleted(front);
      if k.Some? then k
      else if !s[|s| - 1].IsCompleted() then Some(|s| - 1)
      else None
  }

  /** Later deliveries do not move the first failure of a run, nor its first
      result that did not complete. */
  lemma FirstPositionsStable<T>(a: seq<Expected<T>>, b: seq<Expected<T>>)
    ensures FirstFailure(a).Some? ==> FirstFailure(a + b) == FirstFailure(a)
    ensures FirstNotCompleted(a).Some? ==> FirstNotCompleted(a + b) == FirstNotCompleted(a)
  {
    if FirstFailure(a).Some? {
      var k := FirstFailure(a).value;
      assert (a + b)[k] == a[k];
      assert forall j :: 0 <= j < k ==> (a + b)[j] == a[j];
    }
    if FirstNotCompleted(a).Some? {
      var k := FirstNotCompleted(a).value;
      assert (a + b)[k] == a[k];
      assert forall j :: 0 <= j < k ==> (a + b)[j] == a[j];
    }
  }

  /** A slice of a valid run is valid. */
  lemma AllValidSlice<T>(t: seq<Expected<T>>, lo: nat, hi: nat)
    requires AllValid(t) && lo <= hi <= |t|
    ensures AllValid(t[lo..hi])
  {
    forall i | 0 <= i < hi - lo ensures t[lo..hi][i].Valid() {
      assert t[lo..hi][i] == t[lo + i];
    }
  }

  /** `CompletedValues` of a concatenation. */
  lemma {:induction false} CompletedValuesAppend<T>(a: seq<Expected<T>>, b: seq<Expected<T>>)
    ensures CompletedValues(a + b) == CompletedValues(a) + CompletedValues(b)
    decreases |b|
  {
    if b == [] {
      assert a + b == a;
    } else {
      var b' := b[..|b| - 1];
      CompletedValuesAppend(a, b');
      assert (a + b)[..|a + b| - 1] == a + b';
    }
  }

  lemma MultisetOfThree<X>(a: seq<X>, x: seq<X>, b: seq<X>)
    ensures multiset(a + x + b) == multiset(a + b) + multiset(x)
  {
    calc {
      multiset(a + x + b);
      multiset(a + x) + multiset(b);
      multiset(a) + multiset(x) + multiset(b);
      multiset(a) + multiset(b) + multiset(x);
      multiset(a + b) + multiset(x);
    }
  }

  lemma SplitAt<X>(t: seq<X>, j: nat)
    requires j < |t|
    ensures t == t[..j] + [t[j]] + t[j + 1..]
  {
  }

  /** Taking one result out of a run takes its value (if any) out of the values. */
  lemma CompletedValuesRemove<T>(t: seq<Expected<T>>, j: nat)
    requires j < |t|
    ensures multiset(CompletedValues(t))
         == multiset(CompletedValues(t[..j] + t[j + 1..])) + multiset(CompletedValues([t[j]]))
  {
    var a, x, b := t[..j], [t[j]], t[j + 1..];
    var va, vx, vb := CompletedValues(a), CompletedValues(x), CompletedValues(b);
    assert CompletedValues(t) == va + vx + vb by {
      SplitAt(t, j);
      CompletedValuesAppend(a, x);
      CompletedValuesAppend(a + x, b);
    }
    assert CompletedValues(a + b) == va + vb by {
      CompletedValuesAppend(a, b);
    }
    MultisetOfThree(va, vx, vb);
  }

  /** Reordering a run reorders its values: the same values with the same
      multiplicities come out. */
  lemma {:induction false} CompletedValuesPermutation<T>(s: seq<Expected<T>>, t: seq<Expected<T>>)
    requires multiset(s) == multiset(t)
    ensures multiset(CompletedValues(s)) == multiset(CompletedValues(t))
    decreases |s|
  {
    if s == [] {
      assert |t| == |multiset(t)| == 0;
    } else {
      var x := s[|s| - 1];
      var s' := s[..|s| - 1];
      assert x in multiset(t);
      var j :| 0 <= j < |t| && t[j] == x;
      var t' := t[..j] + t[j + 1..];
      assert multiset(s') == multiset(t') by {
        assert s == s' + [x];
        assert t == t[..j] + [x] + t[j + 1..];
        MultisetOfThree(t[..j], [x], t[j + 1..]);
        assert multiset(s') == multiset(s') + multiset{x} - multiset{x};
      }
      CompletedValuesRemove(t, j);
      CompletedValuesPermutation(s', t');
      assert s == s' + [x];
      CompletedValuesAppend(s', [x]);
    }
  }
}
