// The two result shapes used throughout: a value that may be missing, and an
// operation that either produces a value or is refused with an error.
module Wrappers {
  datatype Option<+T> = None | Some(value: T)

  datatype Result<+T, +E> = Success(value: T) | Failure(error: E)

  // What was answered, if it was not refused.
  function Given<T, E>(r: Result<T, E>): (given: Option<T>) {
    if r.Success? then Some(r.value) else None
  }

  lemma {:induction false} SubsetIsSmaller<T>(s: set<T>, t: set<T>)
    requires s <= t
    ensures |s| <= |t|
  {
    if s != {} {
      var x :| x in s;
      SubsetIsSmaller(s - {x}, t - {x});
    }
  }

  // A property that each step keeps exactly when it is not a bad step holds
  // throughout exactly when there is no bad step.
  lemma {:induction false} HoldsExactlyWithoutBadSteps(holds: nat -> bool, bad: nat -> bool, n: nat)
    requires holds(0)
    requires forall i :: 0 <= i < n && holds(i) ==> (holds(i + 1) <==> !bad(i))
    ensures (forall i :: 0 <= i <= n ==> holds(i)) <==> (forall i :: 0 <= i < n ==> !bad(i))
  {
    if n > 0 {
      HoldsExactlyWithoutBadSteps(holds, bad, n - 1);
      assert holds(n - 1) ==> (holds(n - 1 + 1) <==> !bad(n - 1));
    }
  }
}
