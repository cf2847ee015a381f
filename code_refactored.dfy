/** The sample application the pipeline deploys: `generate_fibonacci(max_value)`
    collects the Fibonacci numbers up to a bound, and the `/fibonacci` route
    returns those up to 100. */
module CodeRefactored {

  /** The Fibonacci numbers: Fib(0) = 0, Fib(1) = 1. */
  function Fib(n: nat): nat
  {
    if n < 2 then n else Fib(n - 2) + Fib(n - 1)
  }

  /** Fib(n) >= 1 from n = 1 on; the sequence never decreases, and strictly
      increases from n = 2 on (Fib(1) = Fib(2) = 1 is the one tie). */
  lemma {:induction false} FibStep(n: nat)
    ensures 1 <= n ==> 1 <= Fib(n)
    ensures Fib(n) <= Fib(n + 1)
    ensures 2 <= n ==> Fib(n) < Fib(n + 1)
  {
    if n >= 2 {
      FibStep(n - 1);
    }
  }

  /** Monotonicity over any distance. */
  lemma {:induction false} FibMonotone(i: nat, j: nat)
    requires i <= j
    ensures Fib(i) <= Fib(j)
    ensures 2 <= i < j ==> Fib(i) < Fib(j)
    decreases j - i
  {
    if i < j {
      FibMonotone(i, j - 1);
      FibStep(j - 1);
    }
  }

  /** `r` is what `generate_fibonacci(maxValue)` returns: Fib(1), Fib(2), ... in
      order, each at most maxValue, up to the first Fibonacci number above it. */
  ghost predicate FibRun(r: seq<int>, maxValue: int)
  {
    && (forall i :: 0 <= i < |r| ==> r[i] == Fib(i + 1))
    && (forall i :: 0 <= i < |r| ==> r[i] <= maxValue)
    && Fib(|r| + 1) > maxValue
  }

  /** `generate_fibonacci`: a loop that appends `b` while `b <= max_value`, with
      `(a, b)` stepping through consecutive Fibonacci numbers. */
  method GenerateFibonacci(maxValue: int) returns (fibSequence: seq<int>)
    ensures FibRun(fibSequence, maxValue)
  {
    fibSequence := [];
    var a, b := 0, 1;
    while b <= maxValue
      invariant 0 <= a <= b && 1 <= b
      invariant a == Fib(|fibSequence|) && b == Fib(|fibSequence| + 1)
      invariant forall i :: 0 <= i < |fibSequence| ==> fibSequence[i] == Fib(i + 1)
      invariant forall i :: 0 <= i < |fibSequence| ==> fibSequence[i] <= maxValue
      decreases 2 * maxValue - a - b
    {
      fibSequence := fibSequence + [b];
      a, b := b, a + b;
    }
  }

  /** A bound below 1 gives the empty list; any other bound gives a list that
      starts [1, 1]. */
  lemma FibRunStart(r: seq<int>, maxValue: int)
    requires FibRun(r, maxValue)
    ensures maxValue < 1 <==> r == []
    ensures maxValue >= 1 ==> |r| >= 2 && r[0] == 1 && r[1] == 1
  {
    assert Fib(1) == 1 && Fib(2) == 1;
    if r != [] {
      assert r[0] == Fib(1);
    }
  }

  /** Every element from index 2 on is the sum of the two before it. */
  lemma FibRunRecurrence(r: seq<int>, maxValue: int)
    requires FibRun(r, maxValue)
    ensures forall i :: 2 <= i < |r| ==> r[i] == r[i - 2] + r[i - 1]
  {
    forall i | 2 <= i < |r|
      ensures r[i] == r[i - 2] + r[i - 1]
    {
      assert Fib(i + 1) == Fib(i - 1) + Fib(i);
    }
  }

  /** The list is non-decreasing, and strictly increasing from index 1 on. */
  lemma FibRunSorted(r: seq<int>, maxValue: int)
    requires FibRun(r, maxValue)
    ensures forall i, j :: 0 <= i <= j < |r| ==> r[i] <= r[j]
    ensures forall i, j :: 1 <= i < j < |r| ==> r[i] < r[j]
  {
    forall i, j | 0 <= i <= j < |r|
      ensures r[i] <= r[j] && (1 <= i < j ==> r[i] < r[j])
    {
      FibMonotone(i + 1, j + 1);
    }
  }

  /** No Fibonacci number up to the bound is left out: each Fib(n) <= maxValue
      with n >= 1 is in the list, at index n - 1. */
  lemma FibRunComplete(r: seq<int>, maxValue: int)
    requires FibRun(r, maxValue)
    ensures forall n: nat :: 1 <= n && Fib(n) <= maxValue ==> n <= |r| && r[n - 1] == Fib(n)
  {
    forall n: nat | 1 <= n && Fib(n) <= maxValue
      ensures n <= |r|
    {
      if n > |r| {
        FibMonotone(|r| + 1, n);
      }
    }
  }

  /** The description determines the list: two lists that both fit it for the
      same bound are equal. */
  lemma FibRunUnique(r1: seq<int>, r2: seq<int>, maxValue: int)
    requires FibRun(r1, maxValue) && FibRun(r2, maxValue)
    ensures r1 == r2
  {
    if |r1| < |r2| {
      WithinBound(r2, maxValue, |r1|);
      assert false;
    } else if |r2| < |r1| {
      WithinBound(r1, maxValue, |r2|);
      assert false;
    }
    assert forall i :: 0 <= i < |r1| ==> r1[i] == r2[i];
  }

  lemma WithinBound(r: seq<int>, maxValue: int, k: nat)
    requires FibRun(r, maxValue) && k < |r|
    ensures Fib(k + 1) <= maxValue
  {
    assert r[k] == Fib(k + 1);
  }

  /** The Fibonacci numbers from 1 to 100. */
  const FibonacciTo100: seq<int> := [1, 1, 2, 3, 5, 8, 13, 21, 34, 55, 89]

  /** For the bound 100 the list is exactly [1, 1, 2, 3, 5, 8, 13, 21, 34, 55, 89]. */
  lemma FibRunTo100(r: seq<int>)
    requires FibRun(r, 100)
    ensures r == FibonacciTo100
  {
    assert Fib(2) == 1 && Fib(3) == 2 && Fib(4) == 3 && Fib(5) == 5 && Fib(6) == 8;
    assert Fib(7) == 13 && Fib(8) == 21 && Fib(9) == 34 && Fib(10) == 55;
    assert Fib(11) == 89 && Fib(12) == 144;
    assert FibRun(FibonacciTo100, 100);
    FibRunUnique(r, FibonacciTo100, 100);
  }

  /** The `/fibonacci` route: `{"fibonacci_sequence": generate_fibonacci(100)}`. */
  method GetFibonacci() returns (body: map<string, seq<int>>)
    ensures body == map["fibonacci_sequence" := FibonacciTo100]
  {
    var fibSequence := GenerateFibonacci(100);
    FibRunTo100(fibSequence);
    body := map["fibonacci_sequence" := fibSequence];
  }
}
