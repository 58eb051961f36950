/** The iterative Fibonacci calculator, proved against the recursive definition. */
module Fibonacci {

  /** The reference definition: F(0) = 0, F(1) = 1, F(k) = F(k-1) + F(k-2). */
  function Fib(n: nat): nat
  {
    if n < 2 then n else Fib(n - 1) + Fib(n - 2)
  }

  /** The value the accumulator `l` holds after `i` iterations: F(i-1), with F(-1) = 1. */
  function FibPrev(i: nat): nat
  {
    if i == 0 then 1 else Fib(i - 1)
  }

  /**
   * Two accumulators `f` and `l` walk up the sequence: each iteration adds `l` to `f`
   * and then sets `l` to the previous `f`. Inputs below 2, negative ones included,
   * are returned unchanged. Integers are unbounded here (the source uses i128).
   */
  method Fibonacci(number: int) returns (r: int)
    ensures number < 2 ==> r == number
    ensures number >= 0 ==> r == Fib(number)
    ensures number >= 0 ==> r >= 0
  {
    if number < 2 {
      return number;
    }
    var i := 0;
    var f := 0;
    var l := 1;
    while i < number
      invariant 0 <= i <= number
      invariant f == Fib(i) && l == FibPrev(i)
      decreases number - i
    {
      i := i + 1;
      f := f + l;
      l := f - l;
    }
    r := f;
  }
}
