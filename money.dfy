/**
 * `TransportMoney`: an amount SMS.RU sends either as a JSON string or as a
 * JSON number. A number keeps its literal text, so `10.00` stays `10.00`.
 * The choice is made on the first byte of the value's raw text, as the JSON
 * grammar of RFC 8259 fixes it (section 7: a string opens with a quotation
 * mark; section 6: a number opens with a minus sign or a digit).
 */
module Money {
  import opened Wrappers
  import opened Numeric
  import opened JsonValue
  import opened Transport

  /** The stored amount. */
  datatype TransportMoney = TransportMoney(text: string)

  /** `into_string`: the stored text, unchanged. */
  function IntoString(m: TransportMoney): (r: string)
    ensures TransportMoney(r) == m
  {
    m.text
  }

  /** The deserialiser: a string's content, a number's literal text, anything else an error. */
  function DeserializeMoney(j: Json): (r: Result<TransportMoney, TransportError>)
    ensures r.Ok? <==> j.JString? || (j.JNumber? && |j.token| > 0 && (j.token[0] == '-' || IsDigit(j.token[0])))
    ensures r.Err? ==> r.error == InvalidJson
  {
    match FirstChar(j)
    case Some(c) =>
      if c == '"' then
        if j.JString? then Ok(TransportMoney(j.text)) else Err(InvalidJson)
      else if c == '-' || IsDigit(c) then
        if j.JNumber? then Ok(TransportMoney(j.token)) else Err(InvalidJson)
      else Err(InvalidJson)
    case None => Err(InvalidJson)
  }

  /** The amount as the response carries it: the money decoder followed by `into_string`. */
  function DecodeMoney(j: Json): (r: Result<string, TransportError>)
  {
    var m :- DeserializeMoney(j);
    Ok(IntoString(m))
  }

  /**
   * A string amount reads back as its content, and a number amount as its
   * literal text: no digits are added or dropped.
   */
  lemma DecodeMoneyKeepsText(s: string, token: string)
    requires |token| > 0 && (token[0] == '-' || IsDigit(token[0]))
    ensures DecodeMoney(JString(s)) == Ok(s)
    ensures DecodeMoney(JNumber(token)) == Ok(token)
  {
  }

  /** Only strings and numbers are amounts: `null` (outside an `Option`), booleans, arrays and objects are refused. */
  lemma DecodeMoneyRejects(j: Json)
    requires !j.JString? && !j.JNumber?
    ensures DecodeMoney(j) == Err(InvalidJson)
  {
  }

  /** The amounts the tests use: `10.00`, `0.50`, `4122.56`, `0.00` as numbers and `"10.50"` as a string. */
  lemma MoneyExamples()
    ensures DecodeMoney(JNumber("10.00")) == Ok("10.00")
    ensures DecodeMoney(JNumber("0.50")) == Ok("0.50")
    ensures DecodeMoney(JNumber("4122.56")) == Ok("4122.56")
    ensures DecodeMoney(JNumber("0.00")) == Ok("0.00")
    ensures DecodeMoney(JString("10.50")) == Ok("10.50")
  {
  }
}
