/** Loops of the form "rewrite until nothing applies", for any one-step function. */
module Rewriting {
  import opened Options

  predicate Final<T>(next: T -> Option<T>, x: T) {
    next(x).None?
  }

  /** `x` after `n` steps; a final value stays as it is. */
  function Iterate<T>(next: T -> Option<T>, x: T, n: nat): T
    decreases n
  {
    if n == 0 || Final(next, x) then x else Iterate(next, next(x).value, n - 1)
  }

  ghost predicate Halts<T>(next: T -> Option<T>, x: T) {
    exists n: nat :: Final(next, Iterate(next, x, n))
  }

  lemma {:induction false} IterateUnique<T>(next: T -> Option<T>, x: T, m: nat, n: nat)
    requires Final(next, Iterate(next, x, m)) && Final(next, Iterate(next, x, n))
    ensures Iterate(next, x, m) == Iterate(next, x, n)
    decreases n
  {
    if !Final(next, x) {
      IterateUnique(next, next(x).value, m - 1, n - 1);
    }
  }

  /** What such a loop returns, on the inputs on which it returns. */
  ghost function Outcome<T>(next: T -> Option<T>, x: T): (r: T)
    requires Halts(next, x)
    ensures Final(next, r)
    ensures forall n: nat :: Final(next, Iterate(next, x, n)) ==> Iterate(next, x, n) == r
  {
    var n: nat :| Final(next, Iterate(next, x, n));
    assert forall m: nat :: Final(next, Iterate(next, x, m)) ==> Iterate(next, x, m) == Iterate(next, x, n) by {
      forall m: nat | Final(next, Iterate(next, x, m)) ensures Iterate(next, x, m) == Iterate(next, x, n) {
        IterateUnique(next, x, m, n);
      }
    }
    Iterate(next, x, n)
  }

  /** Taking one step first changes nothing about how the loop ends. */
  lemma OutcomeStep<T>(next: T -> Option<T>, x: T)
    requires next(x).Some?
    ensures Halts(next, x) <==> Halts(next, next(x).value)
    ensures Halts(next, x) ==> Outcome(next, x) == Outcome(next, next(x).value)
  {
    var y := next(x).value;
    if Halts(next, x) {
      var n: nat :| Final(next, Iterate(next, x, n));
      assert Final(next, Iterate(next, y, n - 1));
    }
    if Halts(next, y) {
      var n: nat :| Final(next, Iterate(next, y, n));
      assert Iterate(next, x, n + 1) == Iterate(next, y, n);
    }
  }

  /** A final value is its own outcome. */
  lemma OutcomeFinal<T>(next: T -> Option<T>, x: T)
    requires Final(next, x)
    ensures Halts(next, x) && Outcome(next, x) == x
  {
    assert Iterate(next, x, 0) == x;
  }

  ghost predicate FirstFinal<T>(next: T -> Option<T>, x: T, n: nat) {
    Final(next, Iterate(next, x, n)) && forall m: nat :: m < n ==> !Final(next, Iterate(next, x, m))
  }

  lemma {:induction false} FirstFinalExists<T>(next: T -> Option<T>, x: T, n: nat)
    requires Final(next, Iterate(next, x, n))
    ensures exists k: nat :: FirstFinal(next, x, k)
  {
    if m: nat :| m < n && Final(next, Iterate(next, x, m)) {
      FirstFinalExists(next, x, m);
    } else {
      assert FirstFinal(next, x, n);
    }
  }

  /** How many more steps the loop takes. */
  ghost function Remaining<T>(next: T -> Option<T>, x: T): (n: nat)
    requires Halts(next, x)
    ensures FirstFinal(next, x, n)
  {
    var n: nat :| Final(next, Iterate(next, x, n));
    FirstFinalExists(next, x, n);
    var k: nat :| FirstFinal(next, x, k);
    k
  }

  lemma RemainingIs<T>(next: T -> Option<T>, x: T, n: nat)
    requires FirstFinal(next, x, n)
    ensures Halts(next, x) && Remaining(next, x) == n
  {
  }

  lemma RemainingStep<T>(next: T -> Option<T>, x: T)
    requires next(x).Some? && Halts(next, x)
    ensures Halts(next, next(x).value) && Remaining(next, x) == Remaining(next, next(x).value) + 1
  {
    var y, n := next(x).value, Remaining(next, x);
    assert n > 0;
    assert Final(next, Iterate(next, y, n - 1));
    forall m: nat | m < n - 1 ensures !Final(next, Iterate(next, y, m)) {
      assert Iterate(next, y, m) == Iterate(next, x, m + 1);
    }
    RemainingIs(next, y, n - 1);
  }
}
