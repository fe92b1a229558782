/**
 * The integer exercises of the first homework: `is_even`, `check_guess`, the
 * FizzBuzz, sum and largest-number loops over an array, and the guessing loop.
 * Output is modelled as the values the loops would print.
 */
module Homework {
  import opened RustInt

  /** `is_even`: `n % 2 == 0` with Rust's remainder, i.e. exactly when 2 divides `n`. */
  function IsEven(n: I32): (r: bool)
    ensures r <==> n % 2 == 0
  {
    RustRemZeroIffDivides(n, 2);
    RustRem(n, 2) == 0
  }

  /** `check_guess`: -1 when the guess is too low, 1 when too high, 0 when right. */
  function CheckGuess(guess: I32, secret: I32): (r: I32)
    ensures r == -1 <==> guess < secret
    ensures r == 1 <==> guess > secret
    ensures r == 0 <==> guess == secret
  {
    if guess < secret then -1
    else if guess > secret then 1
    else 0
  }

  /** What the FizzBuzz loop prints for one number. */
  datatype Label = FizzBuzz | Fizz | Buzz | Even(n: int) | Odd(n: int)

  /** The `if` chain of the FizzBuzz loop, with Rust's remainder. */
  function Classify(n: I32): Label {
    if RustRem(n, 15) == 0 then FizzBuzz
    else if RustRem(n, 3) == 0 then Fizz
    else if RustRem(n, 5) == 0 then Buzz
    else if IsEven(n) then Even(n)
    else Odd(n)
  }

  /**
   * The classification the exercise asks for: divisible by both 3 and 5 gives
   * FizzBuzz, by 3 only Fizz, by 5 only Buzz, and any other number is labelled
   * even or odd, negative numbers included.
   */
  lemma ClassifyMeaning(n: I32)
    ensures Classify(n) == FizzBuzz <==> n % 3 == 0 && n % 5 == 0
    ensures Classify(n) == Fizz <==> n % 3 == 0 && n % 5 != 0
    ensures Classify(n) == Buzz <==> n % 3 != 0 && n % 5 == 0
    ensures Classify(n) == Even(n) <==> n % 3 != 0 && n % 5 != 0 && n % 2 == 0
    ensures Classify(n) == Odd(n) <==> n % 3 != 0 && n % 5 != 0 && n % 2 != 0
  {
    RustRemZeroIffDivides(n, 15);
    RustRemZeroIffDivides(n, 3);
    RustRemZeroIffDivides(n, 5);
    DivisibleBy15(n);
  }

  /** 15 divides `n` exactly when both 3 and 5 do. */
  lemma DivisibleBy15(n: int)
    ensures n % 15 == 0 <==> n % 3 == 0 && n % 5 == 0
  {
    var both := n % 3 == 0 && n % 5 == 0;
    if both {
      var x, y := n / 3, n / 5;
      assert n == 3 * x && n == 5 * y;
      assert n == 15 * (2 * y - x);
      assert n % 15 == 0;
    }
    if n % 15 == 0 {
      var z := n / 15;
      assert n == 3 * (5 * z) && n == 5 * (3 * z);
      assert both;
    }
  }

  /** The FizzBuzz loop: one label per number, in array order. */
  method FizzBuzzLabels(nums: seq<I32>) returns (labels: seq<Label>)
    ensures |labels| == |nums|
    ensures forall i :: 0 <= i < |nums| ==> labels[i] == Classify(nums[i])
  {
    labels := [];
    for i := 0 to |nums|
      invariant |labels| == i
      invariant forall j :: 0 <= j < i ==> labels[j] == Classify(nums[j])
    {
      var num := nums[i];
      var l: Label;
      if RustRem(num, 15) == 0 {
        l := FizzBuzz;
      } else if RustRem(num, 3) == 0 {
        l := Fizz;
      } else if RustRem(num, 5) == 0 {
        l := Buzz;
      } else if IsEven(num) {
        l := Even(num);
      } else {
        l := Odd(num);
      }
      labels := labels + [l];
    }
  }

  /** Sum of a sequence of integers. */
  function Sum(s: seq<int>): int {
    if s == [] then 0 else Sum(s[..|s| - 1]) + s[|s| - 1]
  }

  /** No partial sum overflows `i32` (the addition would panic in a debug build). */
  predicate PartialSumsFit(a: seq<I32>) {
    forall k :: 0 <= k <= |a| ==> IsI32(Sum(a[..k]))
  }

  /** The `while` loop that sums the array. */
  method SumArray(a: seq<I32>) returns (sum: I32)
    requires PartialSumsFit(a)
    ensures sum == Sum(a)
  {
    sum := 0;
    var x := 0;
    while x < |a|
      invariant 0 <= x <= |a|
      invariant sum == Sum(a[..x])
    {
      assert a[..x + 1][..x] == a[..x];
      sum := sum + a[x];
      x := x + 1;
    }
    assert a[..|a|] == a;
  }

  /**
   * The loop that finds the largest number, starting from 0: the result is at
   * least 0 and every element, and it is an element unless it is 0.
   */
  method LargestNum(a: seq<I32>) returns (largest: I32)
    ensures largest >= 0
    ensures forall i :: 0 <= i < |a| ==> a[i] <= largest
    ensures largest == 0 || largest in a
    ensures (exists i :: 0 <= i < |a| && a[i] > 0) ==> largest in a
  {
    largest := 0;
    for i := 0 to |a|
      invariant largest >= 0
      invariant forall j :: 0 <= j < i ==> a[j] <= largest
      invariant largest == 0 || largest in a[..i]
    {
      if a[i] > largest {
        largest := a[i];
      }
    }
    assert a[..|a|] == a;
  }

  /**
   * The guessing loop: it counts guesses until `check_guess` says one is right,
   * so the count is the 1-based position of the first correct guess, or the
   * number of guesses when none is right.
   */
  method CountGuesses(guesses: seq<I32>, secret: I32) returns (count: nat)
    ensures count <= |guesses|
    ensures forall j :: 0 <= j < count - 1 ==> guesses[j] != secret
    ensures secret in guesses ==> count > 0 && guesses[count - 1] == secret
    ensures secret !in guesses ==> count == |guesses|
  {
    count := 0;
    var i := 0;
    while i < |guesses|
      invariant 0 <= i <= |guesses|
      invariant count == i
      invariant secret !in guesses[..i]
    {
      count := count + 1;
      if CheckGuess(guesses[i], secret) == 0 {
        break;
      } else if CheckGuess(guesses[i], secret) == 1 {
        // "too high"
      } else {
        // "too low"
      }
      assert guesses[..i + 1] == guesses[..i] + [guesses[i]];
      i := i + 1;
    }
    assert i == |guesses| ==> guesses[..i] == guesses;
  }

  /**
   * `assignment2` on its array [1, 5, 2, 9, 8, 6, 30, 4, 7, 3]: the labels
   * printed, the sum 75 and the largest number 30.
   */
  method Assignment2() returns (labels: seq<Label>, sum: I32, largest: I32)
    ensures labels == [Odd(1), Buzz, Even(2), Fizz, Even(8), Fizz, FizzBuzz, Even(4), Odd(7), Fizz]
    ensures sum == 75
    ensures largest == 30
  {
    var nums: seq<I32> := [1, 5, 2, 9, 8, 6, 30, 4, 7, 3];
    labels := FizzBuzzLabels(nums);
    ExampleLabels(nums, labels);
    ExampleSum(nums);
    sum := SumArray(nums);
    largest := LargestNum(nums);
    ExampleLargest(nums, largest);
  }

  /** The example array's running sums fit in `i32`, and the total is 75. */
  lemma ExampleSum(nums: seq<I32>)
    requires nums == [1, 5, 2, 9, 8, 6, 30, 4, 7, 3]
    ensures PartialSumsFit(nums) && Sum(nums) == 75
  {
    forall k | 0 <= k <= |nums|
      ensures IsI32(Sum(nums[..k]))
    {
      PrefixSumsOfExample(nums, k);
      assert 0 <= [0, 1, 6, 8, 17, 25, 31, 61, 65, 72, 75][k] <= 75;
    }
    PrefixSumsOfExample(nums, |nums|);
    assert nums[..|nums|] == nums;
  }

  /** The largest number of the example array, as the loop finds it, is 30. */
  lemma ExampleLargest(nums: seq<I32>, largest: I32)
    requires nums == [1, 5, 2, 9, 8, 6, 30, 4, 7, 3]
    requires forall i :: 0 <= i < |nums| ==> nums[i] <= largest
    requires largest in nums
    ensures largest == 30
  {
    assert nums[6] == 30;
  }

  lemma ExampleLabels(nums: seq<I32>, labels: seq<Label>)
    requires nums == [1, 5, 2, 9, 8, 6, 30, 4, 7, 3]
    requires |labels| == |nums| && forall i :: 0 <= i < |nums| ==> labels[i] == Classify(nums[i])
    ensures labels == [Odd(1), Buzz, Even(2), Fizz, Even(8), Fizz, FizzBuzz, Even(4), Odd(7), Fizz]
  {
    assert Classify(1) == Odd(1) && Classify(5) == Buzz && Classify(2) == Even(2);
    assert Classify(9) == Fizz && Classify(8) == Even(8) && Classify(6) == Fizz;
    assert Classify(30) == FizzBuzz && Classify(4) == Even(4) && Classify(7) == Odd(7);
    assert Classify(3) == Fizz;
  }

  lemma PrefixSumsOfExample(a: seq<I32>, k: nat)
    requires a == [1, 5, 2, 9, 8, 6, 30, 4, 7, 3] && k <= |a|
    ensures Sum(a[..k]) == [0, 1, 6, 8, 17, 25, 31, 61, 65, 72, 75][k]
  {
    if k > 0 {
      PrefixSumsOfExample(a, k - 1);
      assert a[..k][..k - 1] == a[..k - 1];
    }
  }

  /** `assignment3`: guesses [1, 5, 8, 9, 4] against the secret 4 take five guesses. */
  method Assignment3() returns (count: nat)
    ensures count == 5
  {
    var guesses: seq<I32> := [1, 5, 8, 9, 4];
    count := CountGuesses(guesses, 4);
    assert guesses[4] == 4;
  }
}
