/**
 * The borrowing exercises: concatenating two borrowed strings, cloning a
 * string and appending to the clone, and summing a range into a `&mut` total.
 * A `&mut i32` argument is modelled as a value passed in and its final value
 * passed back.
 */
module BorrowPractice {
  import opened RustInt

  /** `concat_strings`: `s1` followed by `s2`. */
  function ConcatStrings(s1: string, s2: string): (r: string)
    ensures |r| == |s1| + |s2|
    ensures r[..|s1|] == s1 && r[|s1|..] == s2
  {
    s1 + s2
  }

  /** `concat_strings("Hello, ", "World!")` is "Hello, World!". */
  lemma ConcatExample()
    ensures ConcatStrings("Hello, ", "World!") == "Hello, World!"
  {
  }

  /**
   * `clone_and_modify`: a clone of `s` with " World!" pushed onto it. The
   * argument is only borrowed, so it stays as it was and is a prefix of the result.
   */
  method CloneAndModify(s: string) returns (r: string)
    ensures |r| == |s| + 7
    ensures r[..|s|] == s && r[|s|..] == " World!"
  {
    var newStr := s;
    newStr := newStr + " World!";
    r := newStr;
  }

  /** Sum of the integers `low..=high` (0 for an empty range). */
  function RangeSum(low: int, high: int): int
    decreases high - low
  {
    if high < low then 0 else RangeSum(low, high - 1) + high
  }

  /** Gauss's formula for the sum of `low..=high`. */
  lemma {:induction false} RangeSumClosedForm(low: int, high: int)
    requires low <= high + 1
    ensures 2 * RangeSum(low, high) == (high - low + 1) * (low + high)
    decreases high - low
  {
    if low <= high {
      RangeSumClosedForm(low, high - 1);
      assert (high - low + 1) * (low + high)
             == (high - low) * (low + high - 1) + 2 * high;
    }
  }

  /** Every running total the loop reaches fits in `i32` (otherwise `+=` panics in a debug build). */
  predicate RunningTotalsFit(total: int, low: int, high: int) {
    forall k :: low <= k <= high ==> IsI32(total + RangeSum(low, k))
  }

  /**
   * `sum(&mut total, low, high)`: adds every integer of `low..=high` to `total`;
   * an empty range leaves it unchanged.
   */
  method Sum(total: I32, low: I32, high: I32) returns (total': I32)
    requires RunningTotalsFit(total, low, high)
    ensures total' == total + RangeSum(low, high)
    ensures low > high ==> total' == total
    ensures low <= high ==> 2 * (total' - total) == (high - low + 1) * (low + high)
  {
    if low <= high {
      RangeSumClosedForm(low, high);
    }
    total' := total;
    var i: int := low;
    while i <= high
      invariant low <= i <= (if low <= high then high + 1 else low)
      invariant total' == total + RangeSum(low, i - 1)
    {
      assert RangeSum(low, i) == RangeSum(low, i - 1) + i;
      assert IsI32(total + RangeSum(low, i));
      total' := total' + i;
      i := i + 1;
    }
  }

  /** `sum` from 0 with low 0 and high 100 gives 5050. */
  method SumExample() returns (total: I32)
    ensures total == 5050
  {
    total := 0;
    forall k | 0 <= k <= 100
      ensures IsI32(0 + RangeSum(0, k))
    {
      RangeSumClosedForm(0, k);
      assert k * (k + 1) <= 100 * 101;
    }
    total := Sum(total, 0, 100);
    RangeSumClosedForm(0, 100);
  }
}
