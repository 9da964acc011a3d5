/**
 * The account endpoints (`auth/check`, `my/balance`, `my/free`, `my/limit`,
 * `my/senders`): every request is the bare `json=1` form, and each reply is
 * the envelope with at most a balance, two counters or a list of sender
 * names. Counters come as JSON numbers or as strings of digits.
 */
module AccountTransport {
  import opened Wrappers
  import opened Numeric
  import opened Text
  import opened JsonValue
  import opened Response
  import opened Form
  import opened Transport
  import opened Money

  /**
   * `encode_json_only_form`, which `encode_auth_check_form`,
   * `encode_get_balance_form`, `encode_get_free_usage_form`,
   * `encode_get_limit_usage_form` and `encode_get_senders_form` all return.
   */
  function JsonOnlyForm(): (r: seq<Param>)
    ensures r == [("json", "1")]
  {
    [JSON_PARAM]
  }

  /** The one pair the account forms carry asks for JSON. */
  lemma JsonOnlyFormAsksJson()
    ensures FirstValue(JsonOnlyForm(), JSON_PARAM.0) == Some("1")
    ensures forall p | p in JsonOnlyForm() :: p == JSON_PARAM
  {
  }

  /** `TransportCount`, read untagged: a `u32` number first, then any string. */
  datatype TransportCount = CountInt(n: u32) | CountString(s: string)

  function DecodeCount(j: Json): (r: Result<TransportCount, TransportError>)
    ensures r.Ok? <==> AsU32(j).Some? || j.JString?
    ensures AsU32(j).Some? ==> r == Ok(CountInt(AsU32(j).value))
    ensures j.JString? ==> r == Ok(CountString(j.text))
    ensures r.Err? ==> r.error == InvalidJson
  {
    var n := AsU32(j);
    if n.Some? then Ok(CountInt(n.value))
    else if j.JString? then Ok(CountString(j.text))
    else Err(InvalidJson)
  }

  /** `into_u32`: a number as it is, a string trimmed and parsed; a string that does not parse gives nothing. */
  function IntoU32(c: TransportCount): (r: Option<u32>)
    ensures c.CountInt? ==> r == Some(c.n)
    ensures c.CountString? ==> r == ParseU32(Trim(c.s))
  {
    match c
    case CountInt(n) => Some(n)
    case CountString(s) => ParseU32(Trim(s))
  }

  /** One counter value: the untagged read, then `into_u32`. */
  function ReadCount(j: Json): Result<Option<u32>, TransportError> {
    var c :- DecodeCount(j);
    Ok(IntoU32(c))
  }

  /** A counter field as the response carries it: `Option<TransportCount>` then `and_then(into_u32)`. */
  function CountField(members: Members, name: string): (r: Result<Option<u32>, TransportError>)
    ensures !HasMember(members, name) ==> r == Ok(None)
    ensures Field(members, name) == Ok(Some(JNull)) ==> r == Ok(None)
    ensures forall v | Field(members, name) == Ok(Some(v)) && v != JNull :: r == ReadCount(v)
  {
    var c :- OptionalField(members, name, DecodeCount);
    Ok(if c.Some? then IntoU32(c.value) else None)
  }

  /** A counter written as a number reads as that number. */
  lemma CountNumber(n: u32)
    ensures ReadCount(JNumber(Decimal(n))) == Ok(Some(n))
  {
    AsU32Decimal(n);
  }

  /**
   * A counter written as a string of digits reads as their value, whatever
   * whitespace surrounds them.
   */
  lemma CountDigits(n: u32, pad: string)
    requires AllWhitespace(pad)
    ensures ReadCount(JString(pad + Decimal(n) + pad)) == Ok(Some(n))
  {
    var d := Decimal(n);
    assert IsDigit(d[0]) && IsDigit(d[|d| - 1]);
    PaddedTrim(pad, d);
    ParseU32Decimal(n);
  }

  /** A string that is no number is no counter, and not an error either. */
  lemma CountJunk(junk: string)
    requires ParseU32(Trim(junk)).None?
    ensures ReadCount(JString(junk)) == Ok(None)
  {
  }

  /** A counter that is neither a `u32` number nor a string (a negative or fractional number, `true`) fails the whole reply. */
  lemma CountRejects(j: Json)
    requires AsU32(j).None? && !j.JString?
    ensures ReadCount(j) == Err(InvalidJson)
  {
  }

  /** The string counters of the client's tests: `"5"` and `"7"`. */
  lemma CountExamples()
    ensures ReadCount(JString("5")) == Ok(Some(5))
    ensures ReadCount(JString("7")) == Ok(Some(7))
  {
    assert ReadCount(JString("5")) == Ok(Some(5)) by {
      assert Decimal(5) == "5";
      CountText(5);
    }
    assert Decimal(7) == "7";
    CountText(7);
  }

  /** The numeric counters of the client's tests: `3` and `100`. */
  lemma CountNumberExamples()
    ensures ReadCount(JNumber("3")) == Ok(Some(3))
    ensures ReadCount(JNumber("100")) == Ok(Some(100))
  {
    assert ReadCount(JNumber("3")) == Ok(Some(3)) by {
      assert Decimal(3) == "3";
      CountNumber(3);
    }
    assert Decimal(10) == "10";
    assert Decimal(100) == "100";
    CountNumber(100);
  }

  /** A counter written as its bare digits reads as their value. */
  lemma CountText(n: u32)
    ensures ReadCount(JString(Decimal(n))) == Ok(Some(n))
  {
    var d := Decimal(n);
    assert Trim(d) == d by {
      assert IsDigit(d[0]) && IsDigit(d[|d| - 1]);
      TrimOfTrimmed(d);
    }
    assert ParseU32(d) == Some(n) by {
      ParseU32Decimal(n);
    }
    assert IntoU32(CountString(d)) == Some(n);
    assert DecodeCount(JString(d)) == Ok(CountString(d));
  }

  /** `decode_status_only_json_response`. */
  function DecodeStatusOnly(j: Json): Result<StatusOnlyResponse, TransportError> {
    var members :- ObjectMembers(j);
    var e :- DecodeEnvelope(members);
    Ok(StatusOnlyResponse(e.status, e.status_code, e.status_text))
  }

  const TOTAL_FREE_FIELD: string := "total_free"
  const TOTAL_LIMIT_FIELD: string := "total_limit"
  const USED_TODAY_FIELD: string := "used_today"
  const SENDERS_FIELD: string := "senders"

  /** `decode_balance_json_response`. */
  function DecodeBalanceReply(j: Json): Result<BalanceResponse, TransportError> {
    var members :- ObjectMembers(j);
    var e :- DecodeEnvelope(members);
    var balance :- OptionalField(members, BALANCE_FIELD, DecodeMoney);
    Ok(BalanceResponse(e.status, e.status_code, e.status_text, balance))
  }

  /** `decode_free_usage_json_response`. */
  function DecodeFreeUsage(j: Json): Result<FreeUsageResponse, TransportError> {
    var members :- ObjectMembers(j);
    var e :- DecodeEnvelope(members);
    var total :- CountField(members, TOTAL_FREE_FIELD);
    var used :- CountField(members, USED_TODAY_FIELD);
    Ok(FreeUsageResponse(e.status, e.status_code, e.status_text, total, used))
  }

  /** `decode_limit_usage_json_response`. */
  function DecodeLimitUsage(j: Json): Result<LimitUsageResponse, TransportError> {
    var members :- ObjectMembers(j);
    var e :- DecodeEnvelope(members);
    var total :- CountField(members, TOTAL_LIMIT_FIELD);
    var used :- CountField(members, USED_TODAY_FIELD);
    Ok(LimitUsageResponse(e.status, e.status_code, e.status_text, total, used))
  }

  /** `decode_senders_json_response`. */
  function DecodeSenders(j: Json): Result<SendersResponse, TransportError> {
    var members :- ObjectMembers(j);
    var e :- DecodeEnvelope(members);
    var senders :- DefaultList(members, SENDERS_FIELD, DecodeString);
    Ok(SendersResponse(e.status, e.status_code, e.status_text, senders))
  }

  predicate NotEnvelopeName(name: string) {
    name != STATUS_FIELD && name != STATUS_CODE_FIELD && name != STATUS_TEXT_FIELD
  }

  /**
   * An envelope written out is read back by the status-only decoder,
   * whatever further members the reply carries: unknown fields are ignored.
   */
  lemma StatusOnlyRoundTrip(e: Envelope, rest: Members)
    requires forall i | 0 <= i < |rest| :: NotEnvelopeName(rest[i].0)
    ensures DecodeStatusOnly(JObject(EnvelopeMembers(e) + rest))
            == Ok(StatusOnlyResponse(e.status, e.status_code, e.status_text))
  {
    EnvelopeRoundTrip(e, rest);
  }

  /**
   * The balance reads as the amount SMS.RU wrote, whether a string or a
   * number; without a balance field there is none.
   */
  lemma BalanceReplyRoundTrip(e: Envelope, amount: Json)
    requires amount.JString? || (amount.JNumber? && |amount.token| > 0 && (amount.token[0] == '-' || IsDigit(amount.token[0])))
    ensures DecodeBalanceReply(JObject(EnvelopeMembers(e) + [(BALANCE_FIELD, amount)]))
            == Ok(BalanceResponse(e.status, e.status_code, e.status_text,
                                  Some(if amount.JString? then amount.text else amount.token)))
    ensures DecodeBalanceReply(JObject(EnvelopeMembers(e)))
            == Ok(BalanceResponse(e.status, e.status_code, e.status_text, None))
  {
    var rest := [(BALANCE_FIELD, amount)];
    EnvelopeAndFields(e, rest, BALANCE_FIELD);
    FieldOfDistinct(rest, 0);
    if amount.JString? {
      DecodeMoneyKeepsText(amount.text, "0");
    } else {
      DecodeMoneyKeepsText("", amount.token);
    }
    EnvelopeOnlyField(e, BALANCE_FIELD);
  }

  /** Two counter members, in this order. */
  function CounterMembers(first: string, a: Json, b: Json): Members {
    [(first, a), (USED_TODAY_FIELD, b)]
  }

  lemma CounterFields(e: Envelope, first: string, a: Json, b: Json)
    requires first == TOTAL_FREE_FIELD || first == TOTAL_LIMIT_FIELD
    ensures DecodeEnvelope(EnvelopeMembers(e) + CounterMembers(first, a, b)) == Ok(e)
    ensures Field(EnvelopeMembers(e) + CounterMembers(first, a, b), first) == Ok(Some(a))
    ensures Field(EnvelopeMembers(e) + CounterMembers(first, a, b), USED_TODAY_FIELD) == Ok(Some(b))
  {
    var rest := CounterMembers(first, a, b);
    EnvelopeAndFields(e, rest, first);
    EnvelopeAndFields(e, rest, USED_TODAY_FIELD);
    FieldOfDistinct(rest, 0);
    FieldOfDistinct(rest, 1);
  }

  /** A counter member holding a `u32` as a number or as its digits reads as that `u32`. */
  lemma CountFieldOf(members: Members, name: string, v: Json, n: u32)
    requires Field(members, name) == Ok(Some(v))
    requires v == JNumber(Decimal(n)) || v == JString(Decimal(n))
    ensures CountField(members, name) == Ok(Some(n))
  {
    if v.JNumber? {
      CountNumber(n);
    } else {
      CountText(n);
    }
    assert v != JNull;
  }

  /** The free-usage counters read as written, each as a number or as digits. */
  lemma FreeUsageRoundTrip(e: Envelope, total: u32, used: u32, totalAsText: bool, usedAsText: bool)
    ensures var a := if totalAsText then JString(Decimal(total)) else JNumber(Decimal(total));
            var b := if usedAsText then JString(Decimal(used)) else JNumber(Decimal(used));
            DecodeFreeUsage(JObject(EnvelopeMembers(e) + CounterMembers(TOTAL_FREE_FIELD, a, b)))
            == Ok(FreeUsageResponse(e.status, e.status_code, e.status_text, Some(total), Some(used)))
  {
    var a := if totalAsText then JString(Decimal(total)) else JNumber(Decimal(total));
    var b := if usedAsText then JString(Decimal(used)) else JNumber(Decimal(used));
    var m := EnvelopeMembers(e) + CounterMembers(TOTAL_FREE_FIELD, a, b);
    CounterFields(e, TOTAL_FREE_FIELD, a, b);
    CountFieldOf(m, TOTAL_FREE_FIELD, a, total);
    CountFieldOf(m, USED_TODAY_FIELD, b, used);
  }

  /** The limit-usage counters read as written, each as a number or as digits. */
  lemma LimitUsageRoundTrip(e: Envelope, total: u32, used: u32, totalAsText: bool, usedAsText: bool)
    ensures var a := if totalAsText then JString(Decimal(total)) else JNumber(Decimal(total));
            var b := if usedAsText then JString(Decimal(used)) else JNumber(Decimal(used));
            DecodeLimitUsage(JObject(EnvelopeMembers(e) + CounterMembers(TOTAL_LIMIT_FIELD, a, b)))
            == Ok(LimitUsageResponse(e.status, e.status_code, e.status_text, Some(total), Some(used)))
  {
    var a := if totalAsText then JString(Decimal(total)) else JNumber(Decimal(total));
    var b := if usedAsText then JString(Decimal(used)) else JNumber(Decimal(used));
    var m := EnvelopeMembers(e) + CounterMembers(TOTAL_LIMIT_FIELD, a, b);
    CounterFields(e, TOTAL_LIMIT_FIELD, a, b);
    CountFieldOf(m, TOTAL_LIMIT_FIELD, a, total);
    CountFieldOf(m, USED_TODAY_FIELD, b, used);
  }

  /**
   * The sender names read as written, in order and with repeats; without a
   * `senders` field the list is empty.
   */
  lemma SendersRoundTrip(e: Envelope, names: seq<string>)
    ensures DecodeSenders(JObject(EnvelopeMembers(e) + [(SENDERS_FIELD, JArray(StringsJson(names)))]))
            == Ok(SendersResponse(e.status, e.status_code, e.status_text, names))
    ensures DecodeSenders(JObject(EnvelopeMembers(e)))
            == Ok(SendersResponse(e.status, e.status_code, e.status_text, []))
  {
    var rest := [(SENDERS_FIELD, JArray(StringsJson(names)))];
    EnvelopeAndFields(e, rest, SENDERS_FIELD);
    FieldOfDistinct(rest, 0);
    StringItems(names);
    EnvelopeAndFields(e, [], SENDERS_FIELD);
    assert EnvelopeMembers(e) + [] == EnvelopeMembers(e);
  }

  /** A `senders` field that is not an array (`null`, a string) fails the reply. */
  lemma SendersRejectsNonArray(e: Envelope, v: Json)
    requires !v.JArray?
    ensures DecodeSenders(JObject(EnvelopeMembers(e) + [(SENDERS_FIELD, v)])) == Err(InvalidJson)
  {
    var rest := [(SENDERS_FIELD, v)];
    EnvelopeAndFields(e, rest, SENDERS_FIELD);
    FieldOfDistinct(rest, 0);
  }
}
