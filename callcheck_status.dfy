/**
 * The `callcheck/status` endpoint, which polls a call authentication: the
 * form names the check id, and the reply's `check_status` comes as a JSON
 * number or as a string of digits; a string that is no number is read as no
 * status at all.
 */
module CallCheckStatusTransport {
  import opened Wrappers
  import opened Numeric
  import opened Text
  import opened JsonValue
  import opened Value
  import opened Request
  import opened Response
  import opened Form
  import opened Transport

  /** The form of a status poll: the marker in JSON mode, then the check id. */
  function CheckCallAuthStatusForm(request: CheckCallAuthStatus): (r: seq<Param>)
    ensures HasName(r, JSON_PARAM.0) <==> request.options.json == Json
    ensures request.options.json == Json ==> r[0] == JSON_PARAM
    ensures |r| > 0 && r[|r| - 1] == (CALL_CHECK_ID_FIELD, request.check_id)
    ensures FirstValue(r, CALL_CHECK_ID_FIELD) == Some(request.check_id)
    ensures |r| == if request.options.json == Json then 2 else 1
  {
    var r := JsonParams(request.options.json) + [(CALL_CHECK_ID_FIELD, request.check_id)];
    assert r[|r| - 1].0 != JSON_PARAM.0;
    assert request.options.json == Json ==> r[0].0 == JSON_PARAM.0;
    r
  }

  /** `encode_check_call_auth_status_form`. */
  method EncodeCheckCallAuthStatusForm(request: CheckCallAuthStatus) returns (params: seq<Param>)
    ensures params == CheckCallAuthStatusForm(request)
  {
    params := [];
    if request.options.json == Json {
      params := params + [JSON_PARAM];
    }
    params := params + [(CALL_CHECK_ID_FIELD, request.check_id)];
  }

  /** The default options ask for JSON; `Plain` leaves the marker out. */
  lemma CheckCallAuthStatusFormExamples(id: CallCheckId)
    ensures CheckCallAuthStatusForm(CheckCallAuthStatus(id, DefaultCheckCallAuthStatusOptions()))
            == [("json", "1"), ("check_id", id)]
    ensures CheckCallAuthStatusForm(CheckCallAuthStatus(id, CheckCallAuthStatusOptions(Plain))) == [("check_id", id)]
  {
  }

  /** `TransportCheckStatusCode`, read untagged: an `i32` number first, then any string. */
  datatype TransportCheckStatusCode = CodeInt(v: i32) | CodeString(s: string)

  function DecodeCheckCode(j: Json): (r: Result<TransportCheckStatusCode, TransportError>)
    ensures r.Ok? <==> AsI32(j).Some? || j.JString?
    ensures AsI32(j).Some? ==> r == Ok(CodeInt(AsI32(j).value))
    ensures j.JString? ==> r == Ok(CodeString(j.text))
    ensures r.Err? ==> r.error == InvalidJson
  {
    var n := AsI32(j);
    if n.Some? then Ok(CodeInt(n.value))
    else if j.JString? then Ok(CodeString(j.text))
    else Err(InvalidJson)
  }

  /** `into_code`: a number as it is, a string trimmed and parsed; a string that does not parse gives nothing. */
  function IntoCode(c: TransportCheckStatusCode): (r: Option<CallCheckStatusCode>)
    ensures c.CodeInt? ==> r == Some(CallCheckStatusCode(c.v))
    ensures c.CodeString? ==> (r.Some? <==> ParseI32(Trim(c.s)).Some?)
    ensures c.CodeString? && r.Some? ==> ParseI32(Trim(c.s)) == Some(r.value.code)
  {
    match c
    case CodeInt(v) => Some(CallCheckStatusCode(v))
    case CodeString(s) =>
      var n := ParseI32(Trim(s));
      if n.Some? then Some(CallCheckStatusCode(n.value)) else None
  }

  /** One `check_status` value: the untagged read, then `into_code`. */
  function ReadCheckStatus(j: Json): Result<Option<CallCheckStatusCode>, TransportError> {
    var c :- DecodeCheckCode(j);
    Ok(IntoCode(c))
  }

  const CHECK_STATUS_FIELD: string := "check_status"
  const CHECK_STATUS_TEXT_FIELD: string := "check_status_text"

  /** The `check_status` field: `Option<TransportCheckStatusCode>`, then `and_then(into_code)`. */
  function CheckStatusField(members: Members): (r: Result<Option<CallCheckStatusCode>, TransportError>)
    ensures !HasMember(members, CHECK_STATUS_FIELD) ==> r == Ok(None)
    ensures Field(members, CHECK_STATUS_FIELD) == Ok(Some(JNull)) ==> r == Ok(None)
    ensures forall v | Field(members, CHECK_STATUS_FIELD) == Ok(Some(v)) && v != JNull :: r == ReadCheckStatus(v)
  {
    var c :- OptionalField(members, CHECK_STATUS_FIELD, DecodeCheckCode);
    Ok(if c.Some? then IntoCode(c.value) else None)
  }

  /** `decode_check_call_auth_status_json_response`. */
  function DecodeCheckCallAuthStatus(j: Json): Result<CheckCallAuthStatusResponse, TransportError> {
    var members :- ObjectMembers(j);
    var e :- DecodeEnvelope(members);
    var code :- CheckStatusField(members);
    var text :- OptionalField(members, CHECK_STATUS_TEXT_FIELD, DecodeString);
    Ok(CheckCallAuthStatusResponse(e.status, e.status_code, e.status_text, code, text))
  }

  /** A status written as a number reads as that code, known to the client or not. */
  lemma CheckCodeNumber(c: i32)
    ensures ReadCheckStatus(I32Json(c)) == Ok(Some(CallCheckStatusCode(c)))
  {
    I32JsonRoundTrip(c);
  }

  /**
   * A status written as a string of digits, with or without a minus sign,
   * reads as its value, whatever whitespace surrounds it.
   */
  lemma CheckCodeDigits(n: nat, negative: bool, pad: string)
    requires n <= I32_MAX && AllWhitespace(pad)
    ensures var d := if negative then "-" + Decimal(n) else Decimal(n);
            ReadCheckStatus(JString(pad + d + pad))
            == Ok(Some(CallCheckStatusCode(if negative then -(n as int) as i32 else n)))
  {
    var d := if negative then "-" + Decimal(n) else Decimal(n);
    var v: i32 := if negative then -(n as int) else n;
    assert Trim(pad + d + pad) == d by {
      SignedDigitsTrimmed(n, negative);
      PaddedTrim(pad, d);
    }
    assert ParseI32(d) == Some(v) by {
      ParseI32Decimal(n);
    }
    assert IntoCode(CodeString(pad + d + pad)) == Some(CallCheckStatusCode(v));
    ReadCheckString(pad + d + pad);
  }

  /** A string status is read by `into_code` on its trimmed text. */
  lemma ReadCheckString(s: string)
    ensures ReadCheckStatus(JString(s)) == Ok(IntoCode(CodeString(s)))
  {
  }

  lemma SignedDigitsTrimmed(n: nat, negative: bool)
    ensures var d := if negative then "-" + Decimal(n) else Decimal(n);
            IsTrimmed(d) && d != []
  {
    var d := if negative then "-" + Decimal(n) else Decimal(n);
    var digits := Decimal(n);
    assert IsDigit(digits[0]) && IsDigit(digits[|digits| - 1]);
    assert d[|d| - 1] == digits[|digits| - 1];
  }

  /** A string that is no `i32` is no status, and not an error either. */
  lemma CheckCodeJunk(junk: string)
    requires ParseI32(Trim(junk)).None?
    ensures ReadCheckStatus(JString(junk)) == Ok(None)
  {
  }

  /** A status that is neither an `i32` number nor a string (a fraction, `true`) fails the whole reply. */
  lemma CheckCodeRejects(j: Json)
    requires AsI32(j).None? && !j.JString? && j != JNull
    ensures ReadCheckStatus(j) == Err(InvalidJson)
  {
  }

  /** The string reply of the client's tests: `"401"` is a confirmed call. */
  lemma CheckCodeExamples()
    ensures ReadCheckStatus(JString("401")) == Ok(Some(CallCheckStatusCode(401)))
    ensures KnownCallCheckFromCode(401) == Some(Confirmed)
  {
    assert Decimal(4) == "4";
    assert Decimal(40) == "40";
    assert Decimal(401) == "401";
    CheckCodeText(401);
  }

  /** A status written as its bare digits reads as their value. */
  lemma CheckCodeText(n: nat)
    requires n <= I32_MAX
    ensures ReadCheckStatus(JString(Decimal(n))) == Ok(Some(CallCheckStatusCode(n)))
  {
    var d := Decimal(n);
    assert Trim(d) == d by {
      assert IsDigit(d[0]) && IsDigit(d[|d| - 1]);
      TrimOfTrimmed(d);
    }
    assert ParseI32(d) == Some(n) by {
      ParseI32Decimal(n);
    }
    assert IntoCode(CodeString(d)) == Some(CallCheckStatusCode(n));
    ReadCheckString(d);
  }

  /** The numeric reply of the client's tests: `400` is a call not made yet. */
  lemma CheckCodeNumberExample()
    ensures ReadCheckStatus(JNumber("400")) == Ok(Some(CallCheckStatusCode(400)))
    ensures KnownCallCheckFromCode(400) == Some(NotConfirmedYet)
  {
    assert Decimal(4) == "4";
    assert Decimal(40) == "40";
    assert Decimal(400) == "400";
    CheckCodeNumber(400);
  }

  /** A poll reply: the envelope, the status as SMS.RU wrote it, and its text. */
  function StatusReply(e: Envelope, code: Json, text: Option<string>): Members {
    EnvelopeMembers(e) + [(CHECK_STATUS_FIELD, code), (CHECK_STATUS_TEXT_FIELD, OptStringJson(text))]
  }

  lemma StatusReplyFields(e: Envelope, code: Json, text: Option<string>)
    ensures DecodeEnvelope(StatusReply(e, code, text)) == Ok(e)
    ensures Field(StatusReply(e, code, text), CHECK_STATUS_FIELD) == Ok(Some(code))
    ensures Field(StatusReply(e, code, text), CHECK_STATUS_TEXT_FIELD) == Ok(Some(OptStringJson(text)))
  {
    var rest := [(CHECK_STATUS_FIELD, code), (CHECK_STATUS_TEXT_FIELD, OptStringJson(text))];
    EnvelopeAndFields(e, rest, CHECK_STATUS_FIELD);
    EnvelopeAndFields(e, rest, CHECK_STATUS_TEXT_FIELD);
    FieldOfDistinct(rest, 0);
    FieldOfDistinct(rest, 1);
  }

  /**
   * A poll reply reads as the envelope, the status as `into_code` reads it
   * (`null` being no status) and the text; a status that is neither a
   * number nor a string fails the reply.
   */
  lemma StatusReplyRoundTrip(e: Envelope, code: Json, text: Option<string>)
    ensures ReadCheckStatus(code).Ok? || code == JNull ==>
      DecodeCheckCallAuthStatus(JObject(StatusReply(e, code, text)))
      == Ok(CheckCallAuthStatusResponse(e.status, e.status_code, e.status_text,
                                        if code == JNull then None else ReadCheckStatus(code).value, text))
    ensures ReadCheckStatus(code).Err? && code != JNull ==>
      DecodeCheckCallAuthStatus(JObject(StatusReply(e, code, text))) == Err(InvalidJson)
  {
    StatusReplyFields(e, code, text);
  }

  /** A reply holding only the envelope (a top-level `ERROR`) has no status and no text. */
  lemma CheckCallAuthStatusEnvelopeOnly(e: Envelope)
    ensures DecodeCheckCallAuthStatus(JObject(EnvelopeMembers(e)))
            == Ok(CheckCallAuthStatusResponse(e.status, e.status_code, e.status_text, None, None))
  {
    EnvelopeOnlyField(e, CHECK_STATUS_FIELD);
    EnvelopeOnlyField(e, CHECK_STATUS_TEXT_FIELD);
  }
}
