/**
 * The decimal text form of an unsigned integer that `format!("{}")` writes,
 * and `str::parse::<u16>`, which reads it back.
 */
module DecimalText {
  import opened Wrappers
  import opened RustInt

  predicate IsDigit(c: char) { '0' <= c <= '9' }

  function DigitValue(c: char): nat
    requires IsDigit(c)
  {
    (c as int) - ('0' as int)
  }

  function DigitChar(d: nat): (c: char)
    requires d < 10
    ensures IsDigit(c) && DigitValue(c) == d
  {
    (('0' as int) + d) as char
  }

  predicate AllDigits(s: seq<char>) {
    forall i :: 0 <= i < |s| ==> IsDigit(s[i])
  }

  /** The value of a string of decimal digits, most significant first. */
  function DecimalValue(s: seq<char>): nat
    requires AllDigits(s)
  {
    if s == [] then 0 else 10 * DecimalValue(s[..|s| - 1]) + DigitValue(s[|s| - 1])
  }

  /** `n` written in decimal without leading zeros, as `Display` prints an unsigned integer. */
  function Decimal(n: nat): (s: seq<char>)
    ensures |s| > 0 && AllDigits(s)
  {
    if n < 10 then [DigitChar(n)] else Decimal(n / 10) + [DigitChar(n % 10)]
  }

  lemma {:induction false} DecimalValueOfDecimal(n: nat)
    ensures DecimalValue(Decimal(n)) == n
  {
    if n >= 10 {
      var s := Decimal(n);
      assert s[..|s| - 1] == Decimal(n / 10);
      DecimalValueOfDecimal(n / 10);
    }
  }

  /**
   * `str::parse::<u16>`: an optional leading '+' followed by at least one ASCII
   * digit, with a value that fits in 16 bits; anything else is an error.
   */
  function ParseU16(s: seq<char>): (r: Option<U16>)
    ensures r.Some? ==> |s| > 0
  {
    if s == [] then None
    else if (s[0] == '+' || s[0] == '-') && |s| == 1 then None
    else
      var digits := if s[0] == '+' then s[1..] else s;
      if AllDigits(digits) && DecimalValue(digits) <= U16_MAX then Some(DecimalValue(digits))
      else None
  }

  /** Parsing what `Display` wrote for a `u16` gives the value back. */
  lemma ParseDecimal(y: U16)
    ensures ParseU16(Decimal(y)) == Some(y)
  {
    DecimalValueOfDecimal(y);
  }
}
