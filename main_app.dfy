/** The hand-written twin of the sample application: the same loop with the bound
    100 inlined and a `b >= 1` guard on the append. */
module MainApp {
  import opened CodeRefactored

  /** The `/fibonacci` route: `{"fibonacci_series": [...]}`. The guard never
      drops a value (b is at least 1 throughout), so the list is the one
      `generate_fibonacci(100)` builds; only the key differs. */
  method GetFibonacci() returns (body: map<string, seq<int>>)
    ensures body.Keys == {"fibonacci_series"}
    ensures FibRun(body["fibonacci_series"], 100)
    ensures forall x :: x in body["fibonacci_series"] ==> 1 <= x <= 100
    ensures body["fibonacci_series"] == FibonacciTo100
  {
    var fibSeries: seq<int> := [];
    var a, b := 0, 1;
    while b <= 100
      invariant 0 <= a <= b && 1 <= b
      invariant a == Fib(|fibSeries|) && b == Fib(|fibSeries| + 1)
      invariant forall i :: 0 <= i < |fibSeries| ==> fibSeries[i] == Fib(i + 1)
      invariant forall i :: 0 <= i < |fibSeries| ==> 1 <= fibSeries[i] <= 100
      decreases 200 - (a + b)
    {
      if b >= 1 {
        fibSeries := fibSeries + [b];
      }
      a, b := b, a + b;
    }
    FibRunTo100(fibSeries);
    body := map["fibonacci_series" := fibSeries];
  }
}
