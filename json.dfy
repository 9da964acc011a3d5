/**
 * A parsed JSON document, as serde_json hands it to the deserialisers the
 * client derives. Numbers keep the literal text they had in the body, strings
 * are already unescaped, and object members stay in document order.
 */
module JsonValue {
  import opened Wrappers
  import opened Numeric

  datatype Json =
    | JNull
    | JBool(b: bool)
      /**
       * A JSON number literal, as written: an optional `-`, digits, optional
       * fraction and exponent. The token is not checked against that grammar
       * here: the parser that builds these values is trusted to produce only
       * such literals (so a token like `007`, which a JSON parser never
       * yields, is representable but never arises).
       */
    | JNumber(token: string)
    | JString(text: string)
    | JArray(items: seq<Json>)
    | JObject(members: seq<(string, Json)>)

  /** The first character of the value's raw text in the body. */
  function FirstChar(j: Json): (r: Option<char>)
    ensures j.JString? ==> r == Some('"')
    ensures j.JNumber? ==> (r.Some? <==> j.token != [])
  {
    match j
    case JNull => Some('n')
    case JBool(b) => Some(if b then 't' else 'f')
    case JNumber(token) => if |token| == 0 then None else Some(token[0])
    case JString(_) => Some('"')
    case JArray(_) => Some('[')
    case JObject(_) => Some('{')
  }

  /**
   * The integer a number literal denotes when serde_json reads it as an
   * integer. A fraction or exponent makes it a float, and so does `-0`
   * (serde_json turns a negative zero into the float `-0.0`).
   */
  function IntegerToken(token: string): (r: Option<int>)
    ensures r.Some? ==> |token| > 0
    ensures r.Some? && r.value < 0 <==> r.Some? && token[0] == '-'
  {
    if |token| > 0 && token[0] == '-' then
      var digits := token[1..];
      if |digits| > 0 && AllDigits(digits) && DigitsValue(digits) > 0
      then Some(-(DigitsValue(digits) as int)) else None
    else if |token| > 0 && AllDigits(token) then Some(DigitsValue(token))
    else None
  }

  /** A JSON value read into an `i32`: an integer literal within range. */
  function AsI32(j: Json): (r: Option<i32>)
    ensures r.Some? ==> j.JNumber? && IntegerToken(j.token) == Some(r.value as int)
  {
    if j.JNumber? then
      var n := IntegerToken(j.token);
      if n.Some? && I32_MIN <= n.value <= I32_MAX then Some(n.value) else None
    else None
  }

  /** A JSON value read into a `u32`: a non-negative integer literal within range. */
  function AsU32(j: Json): (r: Option<u32>)
    ensures r.Some? ==> j.JNumber? && IntegerToken(j.token) == Some(r.value as int)
  {
    if j.JNumber? then
      var n := IntegerToken(j.token);
      if n.Some? && 0 <= n.value <= U32_MAX then Some(n.value) else None
    else None
  }

  /** Every `u32` written as a decimal literal is read back as itself. */
  lemma AsU32Decimal(n: u32)
    ensures AsU32(JNumber(Decimal(n))) == Some(n)
  {
    DecimalValue(n);
    assert Decimal(n)[0] != '-';
  }

  /** A negative `i32` written as `-` and its magnitude is read back as itself. */
  lemma AsI32Negative(n: nat)
    requires 0 < n <= -I32_MIN
    ensures AsI32(JNumber("-" + Decimal(n))) == Some(-(n as int) as i32)
  {
    DecimalValue(n);
    assert ("-" + Decimal(n))[1..] == Decimal(n);
  }

  /** A non-negative `i32` written as a decimal literal is read back as itself. */
  lemma AsI32Decimal(n: nat)
    requires n <= I32_MAX
    ensures AsI32(JNumber(Decimal(n))) == Some(n)
  {
    DecimalValue(n);
    assert Decimal(n)[0] != '-';
  }

  /** How an `i32` is written in a JSON body. */
  function I32Json(c: i32): Json {
    if c < 0 then JNumber("-" + Decimal(-(c as int))) else JNumber(Decimal(c))
  }

  /** Every `i32` survives being written and read back. */
  lemma I32JsonRoundTrip(c: i32)
    ensures AsI32(I32Json(c)) == Some(c)
  {
    if c < 0 { AsI32Negative(-(c as int)); } else { AsI32Decimal(c); }
  }
}
