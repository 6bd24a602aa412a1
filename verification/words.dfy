/**
 Fixed-width unsigned integers of the Rust source, as subset types of the
 mathematical integers, and the `add` function shared by the demo crates.
 */
module Words {

  const U64_LIMIT: int := 0x1_0000_0000_0000_0000
  const U128_LIMIT: int := 0x1_0000_0000_0000_0000_0000_0000_0000_0000

  type u8 = x: int | 0 <= x < 0x100
  type u16 = x: int | 0 <= x < 0x1_0000
  type u64 = x: int | 0 <= x < U64_LIMIT
  type u128 = x: int | 0 <= x < U128_LIMIT

  function Min(a: nat, b: nat): nat
  {
    if a <= b then a else b
  }

  function Max(a: int, b: int): int
  {
    if a <= b then b else a
  }

  /**
   `add(left, right)` on `u64`. A debug build panics when the sum does not
   fit, so callers must keep it in range.
   */
  function Add(left: u64, right: u64): (sum: u64)
    requires left + right < U64_LIMIT
    ensures sum == left + right
  {
    left + right
  }

  /** The unit test of both `add` functions, with the expected value `4`. */
  lemma AddTwoTwo()
    ensures Add(2, 2) == 4
  {
  }

  /** The second crate's test expects `add(2, 2)` to be `42`, which it is not. */
  lemma AddTwoTwoNotFortyTwo()
    ensures Add(2, 2) != 42
  {
  }
}
