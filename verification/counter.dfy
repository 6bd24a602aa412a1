/**
 The demo application's counter: a `u64` that `Increment` raises by one up
 to 10 and `Decrement` lowers by one down to 0.
 */
module Counter {
  import opened Words

  /** The value `checked_increment` stops at. */
  const LIMIT: u64 := 10

  datatype Message = Increment | Decrement

  /** `checked_increment`: one step up, unless the counter is already at or past the limit. */
  function CheckedIncrement(n: u64): (r: u64)
    ensures n <= r <= n + 1
    ensures r == n <==> n >= LIMIT
  {
    if n < LIMIT then n + 1 else n
  }

  /** `u64::saturating_sub`: the difference, or 0 when it would be negative. */
  function SaturatingSub(n: u64, k: u64): (r: u64)
    ensures r <= n
    ensures n >= k ==> r + k == n
    ensures n < k ==> r == 0
  {
    if n >= k then n - k else 0
  }

  /** `update`: apply one message to the counter. */
  function Update(n: u64, m: Message): (r: u64)
    ensures m.Increment? ==> n <= r && (r == n <==> n >= LIMIT)
    ensures m.Decrement? ==> r <= n && (r == n <==> n == 0)
    ensures n - 1 <= r <= n + 1
  {
    match m
    case Increment => CheckedIncrement(n)
    case Decrement => SaturatingSub(n, 1)
  }

  /** The counter after the messages have been applied in order. */
  function Run(n: u64, messages: seq<Message>): u64
    decreases |messages|
  {
    if |messages| == 0 then n else Run(Update(n, messages[0]), messages[1..])
  }

  /** A counter in `0..=10` stays there whatever messages arrive. */
  lemma {:induction false} RunStaysInRange(n: u64, messages: seq<Message>)
    requires n <= LIMIT
    ensures Run(n, messages) <= LIMIT
    decreases |messages|
  {
    if |messages| > 0 {
      RunStaysInRange(Update(n, messages[0]), messages[1..]);
    }
  }

  /** `k` increments from within range reach `n + k`, capped at the limit. */
  lemma {:induction false} IncrementsSaturate(n: u64, k: nat)
    requires n <= LIMIT
    ensures Run(n, seq(k, _ => Increment)) == Min(n + k, LIMIT)
    decreases k
  {
    if k > 0 {
      var ms := seq(k, _ => Increment);
      assert ms[1..] == seq(k - 1, _ => Increment);
      IncrementsSaturate(Update(n, Increment), k - 1);
    }
  }

  /** `k` decrements reach `n - k`, floored at 0, from any value. */
  lemma {:induction false} DecrementsSaturate(n: u64, k: nat)
    ensures Run(n, seq(k, _ => Decrement)) == Max(n - k, 0)
    decreases k
  {
    if k > 0 {
      var ms := seq(k, _ => Decrement);
      assert ms[1..] == seq(k - 1, _ => Decrement);
      DecrementsSaturate(Update(n, Decrement), k - 1);
    }
  }

  /** Below the limit, a decrement undoes an increment. */
  lemma UndoIncrement(n: u64)
    requires n < LIMIT
    ensures Update(Update(n, Increment), Decrement) == n
  {
  }

  /** Strictly inside the range, an increment undoes a decrement. */
  lemma UndoDecrement(n: u64)
    requires 0 < n <= LIMIT
    ensures Update(Update(n, Decrement), Increment) == n
  {
  }
}
