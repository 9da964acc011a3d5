/**
 * Fixed-width integers as the client uses them, their decimal rendering
 * (`to_string`) and Rust's `str::parse` for `u32` and `i32`.
 */
module Numeric {
  import opened Wrappers

  const U16_MAX: int := 0xFFFF
  const U32_MAX: int := 0xFFFF_FFFF
  const U64_MAX: int := 0xFFFF_FFFF_FFFF_FFFF
  const I32_MIN: int := -0x8000_0000
  const I32_MAX: int := 0x7FFF_FFFF

  type u16 = x: int | 0 <= x <= U16_MAX
  type u32 = x: int | 0 <= x <= U32_MAX
  type u64 = x: int | 0 <= x <= U64_MAX
  type i32 = x: int | I32_MIN <= x <= I32_MAX

  predicate IsDigit(c: char) {
    '0' <= c <= '9'
  }

  predicate AllDigits(s: string) {
    forall i | 0 <= i < |s| :: IsDigit(s[i])
  }

  function DigitChar(d: nat): (c: char)
    requires d < 10
    ensures IsDigit(c)
  {
    ('0' as int + d) as char
  }

  /** The value of a run of ASCII digits, most significant first. */
  function DigitsValue(s: string): nat
    requires AllDigits(s)
  {
    if |s| == 0 then 0
    else DigitsValue(s[..|s| - 1]) * 10 + (s[|s| - 1] as int - '0' as int)
  }

  /** `n.to_string()` for an unsigned integer: no sign, no leading zeros. */
  function Decimal(n: nat): (r: string)
    ensures |r| > 0 && AllDigits(r)
    ensures r[0] == '0' ==> n == 0
  {
    if n < 10 then [DigitChar(n)] else Decimal(n / 10) + [DigitChar(n % 10)]
  }

  /** Rendering and reading back decimal digits loses nothing. */
  lemma {:induction false} DecimalValue(n: nat)
    ensures DigitsValue(Decimal(n)) == n
  {
    if n >= 10 {
      DecimalValue(n / 10);
      assert Decimal(n)[..|Decimal(n)| - 1] == Decimal(n / 10);
    }
  }

  /** Different numbers render differently. */
  lemma DecimalInjective(m: nat, n: nat)
    requires Decimal(m) == Decimal(n)
    ensures m == n
  {
    DecimalValue(m);
    DecimalValue(n);
  }

  /** The digit run an unsigned parse reads: the text after an optional leading `+`. */
  function UnsignedDigits(s: string): string {
    if |s| > 0 && s[0] == '+' then s[1..] else s
  }

  /** The digit run a signed parse reads: the text after an optional leading `+` or `-`. */
  function SignedDigits(s: string): string {
    if |s| > 0 && (s[0] == '+' || s[0] == '-') then s[1..] else s
  }

  /**
   * `s.parse::<u32>()`: an optional `+`, then one or more ASCII digits whose
   * value fits in 32 bits. A lone sign, a `-`, any other character and
   * overflow are errors.
   */
  function ParseU32(s: string): (r: Option<u32>)
    ensures var d := UnsignedDigits(s);
            r.Some? <==> |s| > 0 && |d| > 0 && AllDigits(d) && DigitsValue(d) <= U32_MAX
    ensures r.Some? ==> AllDigits(UnsignedDigits(s)) && r.value == DigitsValue(UnsignedDigits(s))
  {
    if |s| == 0 then None
    else
      var digits := UnsignedDigits(s);
      if |digits| > 0 && AllDigits(digits) && DigitsValue(digits) <= U32_MAX
      then Some(DigitsValue(digits))
      else None
  }

  /**
   * `s.parse::<i32>()`: an optional `+` or `-`, then one or more ASCII digits
   * whose signed value fits in 32 bits.
   */
  function ParseI32(s: string): (r: Option<i32>)
    ensures var d := SignedDigits(s);
            r.Some? <==> |s| > 0 && |d| > 0 && AllDigits(d)
                         && (if s[0] == '-' then DigitsValue(d) <= -I32_MIN else DigitsValue(d) <= I32_MAX)
    ensures r.Some? ==> AllDigits(SignedDigits(s))
                        && r.value == (if s[0] == '-' then -(DigitsValue(SignedDigits(s)) as int)
                                       else DigitsValue(SignedDigits(s)))
  {
    if |s| == 0 then None
    else
      var negative := s[0] == '-';
      var digits := SignedDigits(s);
      if |digits| > 0 && AllDigits(digits) then
        var v := if negative then -(DigitsValue(digits) as int) else DigitsValue(digits);
        if I32_MIN <= v <= I32_MAX then Some(v) else None
      else None
  }

  /** Every `u32` survives `to_string` followed by `parse::<u32>`. */
  lemma ParseU32Decimal(n: u32)
    ensures ParseU32(Decimal(n)) == Some(n)
  {
    DecimalValue(n);
  }

  /** An explicit `+` sign is accepted and ignored. */
  lemma ParseU32Plus(n: u32)
    ensures ParseU32("+" + Decimal(n)) == Some(n)
  {
    DecimalValue(n);
    assert ("+" + Decimal(n))[1..] == Decimal(n);
  }

  /** A sign with no digits after it is refused. */
  lemma ParseLoneSign()
    ensures ParseU32("+") == None
    ensures ParseI32("+") == None && ParseI32("-") == None
  {
  }

  /** An unsigned parse refuses any leading `-`, even on zero. */
  lemma ParseU32Minus(t: string)
    ensures ParseU32("-" + t) == None
  {
    assert !IsDigit(("-" + t)[0]);
  }

  /** Every non-negative `i32` survives `to_string` followed by `parse::<i32>`. */
  lemma ParseI32Decimal(n: nat)
    requires n <= I32_MAX
    ensures ParseI32(Decimal(n)) == Some(n)
    ensures ParseI32("-" + Decimal(n)) == Some(-(n as int) as i32)
  {
    DecimalValue(n);
    assert ("-" + Decimal(n))[1..] == Decimal(n);
  }
}
