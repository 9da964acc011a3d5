/**
 * The `callcheck/add` endpoint, which starts authentication by a call: the
 * form names the phone to authenticate, and the reply gives the check id to
 * poll and the number the user has to call, both of which are validated
 * again before they reach the caller.
 */
module CallCheckAddTransport {
  import opened Wrappers
  import opened Text
  import opened JsonValue
  import opened Value
  import opened Request
  import opened Response
  import opened Form
  import opened Transport

  const PHONE_FIELD: string := "phone"

  /** The form of a call-authentication start: the marker in JSON mode, then the phone. */
  function StartCallAuthForm(request: StartCallAuth): (r: seq<Param>)
    ensures HasName(r, JSON_PARAM.0) <==> request.options.json == Json
    ensures request.options.json == Json ==> r[0] == JSON_PARAM
    ensures |r| > 0 && r[|r| - 1] == (PHONE_FIELD, request.phone)
    ensures FirstValue(r, PHONE_FIELD) == Some(request.phone)
    ensures |r| == if request.options.json == Json then 2 else 1
  {
    var r := JsonParams(request.options.json) + [(PHONE_FIELD, request.phone)];
    assert r[|r| - 1].0 != JSON_PARAM.0;
    assert request.options.json == Json ==> r[0].0 == JSON_PARAM.0;
    r
  }

  /** `encode_start_call_auth_form`. */
  method EncodeStartCallAuthForm(request: StartCallAuth) returns (params: seq<Param>)
    ensures params == StartCallAuthForm(request)
  {
    params := [];
    if request.options.json == Json {
      params := params + [JSON_PARAM];
    }
    params := params + [(PHONE_FIELD, request.phone)];
  }

  /** The default options ask for JSON; `Plain` leaves the marker out. */
  lemma StartCallAuthFormExamples(phone: RawPhoneNumber)
    ensures StartCallAuthForm(StartCallAuth(phone, DefaultStartCallAuthOptions()))
            == [("json", "1"), ("phone", phone)]
    ensures StartCallAuthForm(StartCallAuth(phone, StartCallAuthOptions(Plain))) == [("phone", phone)]
  {
  }

  const CALL_PHONE_FIELD: string := "call_phone"
  const CALL_PHONE_PRETTY_FIELD: string := "call_phone_pretty"
  const CALL_PHONE_HTML_FIELD: string := "call_phone_html"

  /** `StartCallAuthJsonResponse`, as serde reads it: every field past the envelope is an optional string. */
  datatype StartCallAuthJson = StartCallAuthJson(
    envelope: Envelope,
    check_id: Option<string>,
    call_phone: Option<string>,
    call_phone_pretty: Option<string>,
    call_phone_html: Option<string>)

  function ParseStartCallAuthJson(j: Json): Result<StartCallAuthJson, TransportError> {
    var members :- ObjectMembers(j);
    var envelope :- DecodeEnvelope(members);
    var check_id :- OptionalField(members, CALL_CHECK_ID_FIELD, DecodeString);
    var call_phone :- OptionalField(members, CALL_PHONE_FIELD, DecodeString);
    var pretty :- OptionalField(members, CALL_PHONE_PRETTY_FIELD, DecodeString);
    var html :- OptionalField(members, CALL_PHONE_HTML_FIELD, DecodeString);
    Ok(StartCallAuthJson(envelope, check_id, call_phone, pretty, html))
  }

  /** A present check id goes through `CallCheckId::new`; a blank one is refused with the value as sent. */
  function ValidateCheckId(value: Option<string>): (r: Result<Option<CallCheckId>, TransportError>)
    ensures value.None? ==> r == Ok(None)
    ensures value.Some? && !AllWhitespace(value.value) ==> r == Ok(Some(Trim(value.value)))
    ensures value.Some? && AllWhitespace(value.value) ==> r == Err(InvalidCheckId(value.value))
  {
    match value
    case None => Ok(None)
    case Some(v) =>
      match NewCallCheckId(v)
      case Ok(id) => Ok(Some(id))
      case Err(_) => Err(InvalidCheckId(v))
  }

  /** A present call phone goes through `RawPhoneNumber::new`; a blank one is refused with the value as sent. */
  function ValidateCallPhone(value: Option<string>): (r: Result<Option<RawPhoneNumber>, TransportError>)
    ensures value.None? ==> r == Ok(None)
    ensures value.Some? && !AllWhitespace(value.value) ==> r == Ok(Some(Trim(value.value)))
    ensures value.Some? && AllWhitespace(value.value) ==> r == Err(InvalidCallPhone(value.value))
  {
    match value
    case None => Ok(None)
    case Some(v) =>
      match NewRawPhoneNumber(v)
      case Ok(phone) => Ok(Some(phone))
      case Err(_) => Err(InvalidCallPhone(v))
  }

  /**
   * `decode_start_call_auth_json_response`. A reply serde cannot read is
   * `InvalidJson`; a blank check id is refused before the call phone is
   * looked at; otherwise both are stored trimmed and everything else is
   * copied.
   */
  function DecodeStartCallAuth(j: Json): Result<StartCallAuthResponse, TransportError>
  {
    var p :- ParseStartCallAuthJson(j);
    ValidateStart(p)
  }

  /** The validation half of `decode_start_call_auth_json_response`, on what serde read. */
  function ValidateStart(p: StartCallAuthJson): Result<StartCallAuthResponse, TransportError> {
    var check_id :- ValidateCheckId(p.check_id);
    var call_phone :- ValidateCallPhone(p.call_phone);
    Ok(StartCallAuthResponse(p.envelope.status, p.envelope.status_code, p.envelope.status_text,
                             check_id, call_phone, p.call_phone_pretty, p.call_phone_html))
  }

  /**
   * The check id's error comes first, then the call phone's; otherwise the
   * envelope and the renderings are copied with both values trimmed.
   */
  lemma ValidateStartCases(p: StartCallAuthJson)
    ensures p.check_id.Some? && AllWhitespace(p.check_id.value) ==> ValidateStart(p) == Err(InvalidCheckId(p.check_id.value))
    ensures ValidateCheckId(p.check_id).Ok? && p.call_phone.Some? && AllWhitespace(p.call_phone.value) ==>
      ValidateStart(p) == Err(InvalidCallPhone(p.call_phone.value))
    ensures ValidateStart(p).Ok? <==> ValidateCheckId(p.check_id).Ok? && ValidateCallPhone(p.call_phone).Ok?
    ensures ValidateStart(p).Ok? ==>
      var r := ValidateStart(p).value;
      && r.status == p.envelope.status
      && r.status_code == p.envelope.status_code
      && r.status_text == p.envelope.status_text
      && r.check_id == (if p.check_id.Some? then Some(Trim(p.check_id.value)) else None)
      && r.call_phone == (if p.call_phone.Some? then Some(Trim(p.call_phone.value)) else None)
      && r.call_phone_pretty == p.call_phone_pretty
      && r.call_phone_html == p.call_phone_html
  {
  }

  /** A successful start as SMS.RU writes it: the envelope, the check id, the number to call and its two renderings. */
  function StartCallAuthReply(e: Envelope, id: string, phone: string, pretty: Option<string>, html: Option<string>)
    : Members
  {
    EnvelopeMembers(e) + CallMembers(id, phone, pretty, html)
  }

  function CallMembers(id: string, phone: string, pretty: Option<string>, html: Option<string>): Members {
    [(CALL_CHECK_ID_FIELD, JString(id)),
     (CALL_PHONE_FIELD, JString(phone)),
     (CALL_PHONE_PRETTY_FIELD, OptStringJson(pretty)),
     (CALL_PHONE_HTML_FIELD, OptStringJson(html))]
  }

  /** Each field of such a reply reads as written. */
  lemma StartCallAuthReplyParsed(e: Envelope, id: string, phone: string, pretty: Option<string>, html: Option<string>)
    ensures ParseStartCallAuthJson(JObject(StartCallAuthReply(e, id, phone, pretty, html)))
            == Ok(StartCallAuthJson(e, Some(id), Some(phone), pretty, html))
  {
    var m := StartCallAuthReply(e, id, phone, pretty, html);
    assert DecodeEnvelope(m) == Ok(e) && OptionalField(m, CALL_CHECK_ID_FIELD, DecodeString) == Ok(Some(id)) by {
      CallMemberRead(e, id, phone, pretty, html, 0);
    }
    assert OptionalField(m, CALL_PHONE_FIELD, DecodeString) == Ok(Some(phone)) by {
      CallMemberRead(e, id, phone, pretty, html, 1);
    }
    assert OptionalField(m, CALL_PHONE_PRETTY_FIELD, DecodeString) == Ok(pretty) by {
      CallMemberRead(e, id, phone, pretty, html, 2);
    }
    assert OptionalField(m, CALL_PHONE_HTML_FIELD, DecodeString) == Ok(html) by {
      CallMemberRead(e, id, phone, pretty, html, 3);
    }
    ParseStartFrom(m, StartCallAuthJson(e, Some(id), Some(phone), pretty, html));
  }

  /** Serde's reading of a start reply, field by field. */
  lemma ParseStartFrom(m: Members, p: StartCallAuthJson)
    requires DecodeEnvelope(m) == Ok(p.envelope)
    requires OptionalField(m, CALL_CHECK_ID_FIELD, DecodeString) == Ok(p.check_id)
    requires OptionalField(m, CALL_PHONE_FIELD, DecodeString) == Ok(p.call_phone)
    requires OptionalField(m, CALL_PHONE_PRETTY_FIELD, DecodeString) == Ok(p.call_phone_pretty)
    requires OptionalField(m, CALL_PHONE_HTML_FIELD, DecodeString) == Ok(p.call_phone_html)
    ensures ParseStartCallAuthJson(JObject(m)) == Ok(p)
  {
  }

  lemma CallMemberRead(e: Envelope, id: string, phone: string, pretty: Option<string>, html: Option<string>, i: int)
    requires 0 <= i < 4
    ensures DecodeEnvelope(StartCallAuthReply(e, id, phone, pretty, html)) == Ok(e)
    ensures Field(StartCallAuthReply(e, id, phone, pretty, html), CallMembers(id, phone, pretty, html)[i].0)
            == Ok(Some(CallMembers(id, phone, pretty, html)[i].1))
  {
    var rest := CallMembers(id, phone, pretty, html);
    EnvelopeAndFields(e, rest, rest[i].0);
    FieldOfDistinct(rest, i);
  }

  /**
   * A check id and a call phone that are not blank come back trimmed,
   * whatever whitespace SMS.RU put around them; the renderings are copied.
   */
  lemma StartCallAuthRoundTrip(e: Envelope, id: string, phone: string, pretty: Option<string>, html: Option<string>)
    requires !AllWhitespace(id) && !AllWhitespace(phone)
    ensures DecodeStartCallAuth(JObject(StartCallAuthReply(e, id, phone, pretty, html)))
            == Ok(StartCallAuthResponse(e.status, e.status_code, e.status_text,
                                        Some(Trim(id)), Some(Trim(phone)), pretty, html))
  {
    StartCallAuthReplyParsed(e, id, phone, pretty, html);
  }

  /** A blank check id fails the reply, carrying the id as sent, even when the call phone is blank too. */
  lemma StartCallAuthBlankCheckId(e: Envelope, id: string, phone: string, pretty: Option<string>, html: Option<string>)
    requires AllWhitespace(id)
    ensures DecodeStartCallAuth(JObject(StartCallAuthReply(e, id, phone, pretty, html))) == Err(InvalidCheckId(id))
  {
    StartCallAuthReplyParsed(e, id, phone, pretty, html);
  }

  /** With a valid check id, a blank call phone fails the reply, carrying the phone as sent. */
  lemma StartCallAuthBlankCallPhone(e: Envelope, id: string, phone: string, pretty: Option<string>, html: Option<string>)
    requires !AllWhitespace(id) && AllWhitespace(phone)
    ensures DecodeStartCallAuth(JObject(StartCallAuthReply(e, id, phone, pretty, html))) == Err(InvalidCallPhone(phone))
  {
    StartCallAuthReplyParsed(e, id, phone, pretty, html);
  }

  /** A reply holding only the envelope (a top-level `ERROR`) has no check id, no phone and no renderings. */
  lemma StartCallAuthEnvelopeOnly(e: Envelope)
    ensures DecodeStartCallAuth(JObject(EnvelopeMembers(e)))
            == Ok(StartCallAuthResponse(e.status, e.status_code, e.status_text, None, None, None, None))
  {
    var m := EnvelopeMembers(e);
    EnvelopeOnlyField(e, CALL_CHECK_ID_FIELD);
    EnvelopeOnlyField(e, CALL_PHONE_FIELD);
    EnvelopeOnlyField(e, CALL_PHONE_PRETTY_FIELD);
    EnvelopeOnlyField(e, CALL_PHONE_HTML_FIELD);
    assert ParseStartCallAuthJson(JObject(m)) == Ok(StartCallAuthJson(e, None, None, None, None));
  }
}
