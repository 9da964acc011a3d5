/** Errors raised while constructing validated request values, and their messages. */
module Validation {
  import opened Numeric

  datatype ValidationError =
    | Empty(field: string)
    | TooManyRecipients(max: nat, actual: nat)
    | InvalidPhoneNumber(input: string)
    | TtlOutOfRange(min: nat, max: nat, actual: nat)
      /** Raised by the status-request constructor; it has no message of its own. */
    | TooManySmsIds(max: nat, actual: nat)

  const TTL_PREFIX: string := "ttl minutes out of range: "

  /** The bounds part of the out-of-range message. */
  function TtlExpected(min: nat, max: nat): string {
    " (expected " + Decimal(min) + "..=" + Decimal(max) + ")"
  }

  /** The human-readable message of an error (its `Display`). */
  function Message(e: ValidationError): (r: string)
    requires !e.TooManySmsIds?
    ensures e.Empty? ==> |r| >= |e.field| && r[..|e.field|] == e.field
  {
    match e
    case Empty(field) => field + " must not be empty"
    case TooManyRecipients(max, actual) =>
      RECIPIENTS_PREFIX + Decimal(actual) + MAX_PREFIX + Decimal(max) + ")"
    case InvalidPhoneNumber(input) => PHONE_PREFIX + input
    case TtlOutOfRange(min, max, actual) =>
      TTL_PREFIX + Decimal(actual) + TtlExpected(min, max)
  }

  /** Two empty-field errors read the same only when they name the same field. */
  lemma MessageEmptyInjective(f: string, g: string)
    requires Message(Empty(f)) == Message(Empty(g))
    ensures f == g
  {
    assert |f| == |g|;
    assert f == Message(Empty(f))[..|f|];
  }

  /** The out-of-range message reports the rejected value right after its prefix. */
  lemma MessageTtlReportsActual(min: nat, max: nat, a: nat, b: nat)
    requires Message(TtlOutOfRange(min, max, a)) == Message(TtlOutOfRange(min, max, b))
    ensures a == b
  {
    SameFrame(TTL_PREFIX, Decimal(a), Decimal(b), TtlExpected(min, max));
    DecimalInjective(a, b);
  }

  const RECIPIENTS_PREFIX: string := "too many recipients: "
  const MAX_PREFIX: string := " (max "
  const PHONE_PREFIX: string := "invalid phone number: "

  /** The too-many-recipients message reports both the count and the limit: equal messages mean equal errors. */
  lemma MessageRecipientsReportsCounts(max1: nat, actual1: nat, max2: nat, actual2: nat)
    requires Message(TooManyRecipients(max1, actual1)) == Message(TooManyRecipients(max2, actual2))
    ensures max1 == max2 && actual1 == actual2
  {
    var tail1 := MAX_PREFIX + Decimal(max1) + ")";
    var tail2 := MAX_PREFIX + Decimal(max2) + ")";
    assert Message(TooManyRecipients(max1, actual1)) == RECIPIENTS_PREFIX + Decimal(actual1) + tail1;
    assert Message(TooManyRecipients(max2, actual2)) == RECIPIENTS_PREFIX + Decimal(actual2) + tail2;
    DigitsFrame(RECIPIENTS_PREFIX, Decimal(actual1), Decimal(actual2), tail1, tail2);
    DecimalInjective(actual1, actual2);
    SameFrame(MAX_PREFIX, Decimal(max1), Decimal(max2), ")");
    DecimalInjective(max1, max2);
  }

  /** The invalid-number message carries the input verbatim: equal messages mean equal inputs. */
  lemma MessagePhoneReportsInput(a: string, b: string)
    requires Message(InvalidPhoneNumber(a)) == Message(InvalidPhoneNumber(b))
    ensures a == b
  {
    assert a == Message(InvalidPhoneNumber(a))[|PHONE_PREFIX|..];
    assert b == Message(InvalidPhoneNumber(b))[|PHONE_PREFIX|..];
  }

  /** The out-of-range message reports the value and both bounds: equal messages mean equal errors. */
  lemma MessageTtlInjective(min1: nat, max1: nat, actual1: nat, min2: nat, max2: nat, actual2: nat)
    requires Message(TtlOutOfRange(min1, max1, actual1)) == Message(TtlOutOfRange(min2, max2, actual2))
    ensures min1 == min2 && max1 == max2 && actual1 == actual2
  {
    DigitsFrame(TTL_PREFIX, Decimal(actual1), Decimal(actual2), TtlExpected(min1, max1), TtlExpected(min2, max2));
    DecimalInjective(actual1, actual2);
    var bound1 := "..=" + Decimal(max1) + ")";
    var bound2 := "..=" + Decimal(max2) + ")";
    assert TtlExpected(min1, max1) == " (expected " + Decimal(min1) + bound1;
    assert TtlExpected(min2, max2) == " (expected " + Decimal(min2) + bound2;
    DigitsFrame(" (expected ", Decimal(min1), Decimal(min2), bound1, bound2);
    DecimalInjective(min1, min2);
    SameFrame("..=", Decimal(max1), Decimal(max2), ")");
    DecimalInjective(max1, max2);
  }

  /**
   * A run of digits after a common prefix ends where the first non-digit
   * begins, so two such texts that are equal have the same digits and the
   * same remainder.
   */
  lemma DigitsFrame(p: string, x: string, y: string, t: string, u: string)
    requires p + x + t == p + y + u
    requires AllDigits(x) && AllDigits(y)
    requires |t| > 0 && !IsDigit(t[0]) && |u| > 0 && !IsDigit(u[0])
    ensures x == y && t == u
  {
    var s := p + x + t;
    assert x + t == s[|p|..] == (p + y + u)[|p|..] == y + u;
    DigitRunEnds(x, t);
    DigitRunEnds(y, u);
    assert x == (x + t)[..|x|];
    assert y == (y + u)[..|y|];
    assert t == (x + t)[|x|..];
    assert u == (y + u)[|y|..];
  }

  /** The length of the run of digits a text starts with. */
  function DigitRun(s: string): nat {
    if |s| == 0 || !IsDigit(s[0]) then 0 else 1 + DigitRun(s[1..])
  }

  /** Digits followed by a non-digit form a run exactly as long as the digits. */
  lemma {:induction false} DigitRunEnds(x: string, t: string)
    requires AllDigits(x) && |t| > 0 && !IsDigit(t[0])
    ensures DigitRun(x + t) == |x|
  {
    if |x| == 0 {
      assert x + t == t;
    } else {
      assert (x + t)[1..] == x[1..] + t;
      DigitRunEnds(x[1..], t);
    }
  }

  /** Two texts between the same prefix and suffix are equal when the whole texts are. */
  lemma SameFrame(p: string, x: string, y: string, t: string)
    requires p + x + t == p + y + t
    ensures x == y
  {
    assert |x| == |y|;
    assert x == (p + x + t)[|p|..|p| + |x|];
    assert y == (p + y + t)[|p|..|p| + |y|];
  }
}
