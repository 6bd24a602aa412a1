/**
 `fib(n)`: the Fibonacci numbers computed by folding `(a, b) -> (a + b, a)`
 `n` times over the pair `(0, 1)` and keeping the first component.
 */
module Fibonacci {
  import opened Words

  /** The Fibonacci numbers by their recurrence, the reference for the fold. */
  function F(n: nat): nat
  {
    if n == 0 then 0 else if n == 1 then 1 else F(n - 1) + F(n - 2)
  }

  /** One step of the fold. */
  function Step(p: (nat, nat)): (nat, nat)
  {
    (p.0 + p.1, p.0)
  }

  /**
   `(0..k).fold((0, 1), |(a, b), _| (a + b, a))`. After `k` steps the pair is
   `(F(k), F(k - 1))`; the seed's second component plays the part of `F(-1) = 1`.
   */
  function Fold(k: nat): (p: (nat, nat))
    ensures p == (F(k), if k == 0 then 1 else F(k - 1))
  {
    if k == 0 then (0, 1) else Step(Fold(k - 1))
  }

  /** `fib(n)` on unbounded integers: the Fibonacci numbers. */
  function Fib(n: nat): (r: nat)
    ensures r == F(n)
  {
    Fold(n).0
  }

  lemma FibFirstValues()
    ensures Fib(0) == 0 && Fib(1) == 1 && Fib(2) == 1
  {
  }

  lemma FibRecurrence(n: nat)
    ensures Fib(n + 2) == Fib(n + 1) + Fib(n)
  {
  }

  lemma {:induction false} FMonotone(i: nat, j: nat)
    requires i <= j
    ensures F(i) <= F(j)
    decreases j
  {
    if i < j {
      FMonotone(i, j - 1);
      assert F(j - 1) <= F(j);
    }
  }

  /** No value the fold produces on the way to `fib(n)` exceeds `F(n)`, apart from the seed's 1. */
  lemma {:induction false} FoldBounded(n: nat, k: nat)
    requires k <= n
    ensures Fold(k).0 <= F(n)
    ensures k > 0 ==> Fold(k).1 <= F(n)
  {
    FMonotone(k, n);
    if k > 0 {
      FMonotone(k - 1, n);
    }
  }

  /**
   `fib` with the source's machine types: `n: u64`, a `u128` accumulator.
   Every addition stays in range, provided `F(n)` fits in 128 bits.
   */
  method FibLoop(n: u64) returns (r: u128)
    requires F(n) < U128_LIMIT
    ensures r == F(n)
  {
    var a: u128, b: u128 := 0, 1;
    var k: u64 := 0;
    while k < n
      invariant k <= n
      invariant (a, b) == Fold(k)
      decreases n - k
    {
      FoldBounded(n, k + 1);
      a, b := a + b, a;
      k := k + 1;
    }
    r := a;
  }
}
