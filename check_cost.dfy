/**
 * The `sms/cost` endpoint: the form a cost request is posted as (the send
 * form's recipients and texts with only the sender and transliteration
 * options), and the reading of SMS.RU's JSON answer, with its totals and a
 * per-recipient object keyed by phone numbers.
 */
module CheckCostTransport {
  import opened Wrappers
  import opened Numeric
  import opened Text
  import opened JsonValue
  import opened Value
  import opened Request
  import opened Response
  import opened Form
  import opened Transport
  import opened KeyMatch
  import opened ItemMap
  import opened SortedMap
  import opened Money

  /** The option pairs of a cost request: the sender when present, then `translit=1` when set. */
  function CostOptionParams(o: CheckCostOptions): (r: seq<Param>)
    ensures forall p | p in r :: p.0 == SENDER_ID_FIELD || p.0 == TRANSLIT_FIELD
  {
    OptParam(SENDER_ID_FIELD, o.from) + FlagParam(TRANSLIT_FIELD, o.translit)
  }

  /** `push_options` of the cost encoder. */
  method PushCostOptions(params: seq<Param>, o: CheckCostOptions) returns (out: seq<Param>)
    ensures out == params + CostOptionParams(o)
  {
    out := params;
    if o.from.Some? {
      out := out + [(SENDER_ID_FIELD, o.from.value)];
    }
    if o.translit {
      out := out + [(TRANSLIT_FIELD, "1")];
    }
  }

  /** The sender is sent exactly when set, as written, and `translit` exactly when the flag is on. */
  lemma CostOptionValues(o: CheckCostOptions)
    ensures FirstValue(CostOptionParams(o), SENDER_ID_FIELD) == o.from
    ensures FirstValue(CostOptionParams(o), TRANSLIT_FIELD) == if o.translit then Some("1") else None
    ensures |CostOptionParams(o)| <= 2
  {
    var f := OptParam(SENDER_ID_FIELD, o.from);
    var t := FlagParam(TRANSLIT_FIELD, o.translit);
    FirstValueAppend(f, t, SENDER_ID_FIELD);
    FirstValueAppend(f, t, TRANSLIT_FIELD);
  }

  function CostOptionsOf(request: CheckCost): CheckCostOptions {
    match request
    case CostToMany(_, _, o) => o
    case CostPerRecipient(_, o) => o
  }

  /** The form of a cost request: the marker, the recipients and texts, then the options. */
  function CheckCostForm(request: CheckCost): seq<Param> {
    match request
    case CostToMany(recipients, msg, o) => JsonParams(o.json) + ToManyParams(recipients, msg) + CostOptionParams(o)
    case CostPerRecipient(messages, o) => JsonParams(o.json) + BracketParams(messages) + CostOptionParams(o)
  }

  /** `encode_check_cost_form`. */
  method EncodeCheckCostForm(request: CheckCost) returns (params: seq<Param>)
    ensures params == CheckCostForm(request)
  {
    match request {
      case CostToMany(recipients, msg, o) =>
        params := EncodeCostToManyForm(recipients, msg, o);
      case CostPerRecipient(messages, o) =>
        params := EncodeCostPerRecipientForm(messages, o);
    }
  }

  /** The one-text arm of `encode_check_cost_form`. */
  method EncodeCostToManyForm(recipients: seq<RawPhoneNumber>, msg: MessageText, o: CheckCostOptions)
    returns (params: seq<Param>)
    ensures params == JsonParams(o.json) + ToManyParams(recipients, msg) + CostOptionParams(o)
  {
    params := PushJson([], o.json);
    var to := JoinedPhones(recipients);
    params := params + [(RAW_PHONE_FIELD, to)];
    params := params + [(MESSAGE_TEXT_FIELD, msg)];
    assert params == JsonParams(o.json) + ToManyParams(recipients, msg);
    params := PushCostOptions(params, o);
  }

  /** The per-recipient arm of `encode_check_cost_form`. */
  method EncodeCostPerRecipientForm(messages: PhoneMessages, o: CheckCostOptions) returns (params: seq<Param>)
    ensures params == JsonParams(o.json) + BracketParams(messages) + CostOptionParams(o)
  {
    params := PushJson([], o.json);
    assert params == JsonParams(o.json);
    params := PushBracketParams(params, messages);
    params := PushCostOptions(params, o);
  }

  /**
   * `json=1` is sent exactly in JSON mode, and then as the first pair;
   * no other pair is named `json`.
   */
  lemma CheckCostFormJson(request: CheckCost)
    ensures forall i | 0 <= i < |CheckCostForm(request)| ::
      CheckCostForm(request)[i].0 == JSON_PARAM.0 <==> i == 0 && CostOptionsOf(request).json == Json
    ensures CostOptionsOf(request).json == Json ==> CheckCostForm(request)[0] == JSON_PARAM
  {
    var o := CostOptionsOf(request);
    match request
    case CostToMany(recipients, msg, _) =>
      AppendStep(JsonParams(o.json), ToManyParams(recipients, msg), CostOptionParams(o));
      JsonFirst(o.json, ToManyParams(recipients, msg) + CostOptionParams(o));
    case CostPerRecipient(messages, _) =>
      BracketParamsRecover(messages);
      AppendStep(JsonParams(o.json), BracketParams(messages), CostOptionParams(o));
      JsonFirst(o.json, BracketParams(messages) + CostOptionParams(o));
  }

  /**
   * A one-text cost request reads back, field by field, as the comma-joined
   * recipients, the text and the two options.
   */
  lemma CheckCostToManyFields(recipients: seq<RawPhoneNumber>, msg: MessageText, o: CheckCostOptions)
    ensures FirstValue(CheckCostForm(CostToMany(recipients, msg, o)), RAW_PHONE_FIELD) == Some(JoinedPhones(recipients))
    ensures FirstValue(CheckCostForm(CostToMany(recipients, msg, o)), MESSAGE_TEXT_FIELD) == Some(msg)
    ensures FirstValue(CheckCostForm(CostToMany(recipients, msg, o)), SENDER_ID_FIELD) == o.from
    ensures FirstValue(CheckCostForm(CostToMany(recipients, msg, o)), TRANSLIT_FIELD)
            == if o.translit then Some("1") else None
  {
    CostToManyTexts(recipients, msg, o);
    CostToManyOption(recipients, msg, o, SENDER_ID_FIELD);
    CostToManyOption(recipients, msg, o, TRANSLIT_FIELD);
    CostOptionValues(o);
  }

  lemma CostToManyTexts(recipients: seq<RawPhoneNumber>, msg: MessageText, o: CheckCostOptions)
    ensures FirstValue(CheckCostForm(CostToMany(recipients, msg, o)), RAW_PHONE_FIELD) == Some(JoinedPhones(recipients))
    ensures FirstValue(CheckCostForm(CostToMany(recipients, msg, o)), MESSAGE_TEXT_FIELD) == Some(msg)
  {
    var head := JsonParams(o.json) + ToManyParams(recipients, msg);
    assert head[|JsonParams(o.json)|].0 == RAW_PHONE_FIELD;
    assert head[|JsonParams(o.json)| + 1].0 == MESSAGE_TEXT_FIELD;
    FirstValueKeep(head, CostOptionParams(o), RAW_PHONE_FIELD);
    FirstValueKeep(head, CostOptionParams(o), MESSAGE_TEXT_FIELD);
    FirstValueSkip(JsonParams(o.json), ToManyParams(recipients, msg), RAW_PHONE_FIELD);
    FirstValueSkip(JsonParams(o.json), ToManyParams(recipients, msg), MESSAGE_TEXT_FIELD);
  }

  lemma CostToManyOption(recipients: seq<RawPhoneNumber>, msg: MessageText, o: CheckCostOptions, name: string)
    requires name == SENDER_ID_FIELD || name == TRANSLIT_FIELD
    ensures FirstValue(CheckCostForm(CostToMany(recipients, msg, o)), name) == FirstValue(CostOptionParams(o), name)
  {
    assert name != JSON_PARAM.0 && name != RAW_PHONE_FIELD && name != MESSAGE_TEXT_FIELD by {
      assert |name| != 4 || name[0] != 'j';
    }
    var head := JsonParams(o.json) + ToManyParams(recipients, msg);
    assert forall p | p in head :: p.0 == JSON_PARAM.0 || p.0 == RAW_PHONE_FIELD || p.0 == MESSAGE_TEXT_FIELD;
    FirstValueSkip(head, CostOptionParams(o), name);
  }

  /**
   * A per-recipient cost request sends no `to` or `msg` pair; each number's
   * text is found under its bracketed name, and the options read as sent.
   */
  lemma CheckCostPerRecipientFields(messages: PhoneMessages, o: CheckCostOptions)
    ensures !HasName(CheckCostForm(CostPerRecipient(messages, o)), RAW_PHONE_FIELD)
    ensures !HasName(CheckCostForm(CostPerRecipient(messages, o)), MESSAGE_TEXT_FIELD)
    ensures forall i | 0 <= i < |messages| ::
      FirstValue(CheckCostForm(CostPerRecipient(messages, o)), BracketKey(messages[i].0)) == Some(messages[i].1)
    ensures FirstValue(CheckCostForm(CostPerRecipient(messages, o)), SENDER_ID_FIELD) == o.from
    ensures FirstValue(CheckCostForm(CostPerRecipient(messages, o)), TRANSLIT_FIELD)
            == if o.translit then Some("1") else None
  {
    var f := CheckCostForm(CostPerRecipient(messages, o));
    BracketParamsRecover(messages);
    forall i | 0 <= i < |f| ensures f[i].0 != RAW_PHONE_FIELD && f[i].0 != MESSAGE_TEXT_FIELD {
      assert f[i] in f;
    }
    forall i | 0 <= i < |messages|
      ensures FirstValue(f, BracketKey(messages[i].0)) == Some(messages[i].1)
    {
      CostPerRecipientText(messages, o, i);
    }
    CostPerRecipientOption(messages, o, SENDER_ID_FIELD);
    CostPerRecipientOption(messages, o, TRANSLIT_FIELD);
    CostOptionValues(o);
  }

  lemma CostPerRecipientText(messages: PhoneMessages, o: CheckCostOptions, i: int)
    requires 0 <= i < |messages|
    ensures FirstValue(CheckCostForm(CostPerRecipient(messages, o)), BracketKey(messages[i].0)) == Some(messages[i].1)
  {
    BracketFormText(o.json, messages, CostOptionParams(o), i);
  }

  lemma CostPerRecipientOption(messages: PhoneMessages, o: CheckCostOptions, name: string)
    requires name == SENDER_ID_FIELD || name == TRANSLIT_FIELD
    ensures FirstValue(CheckCostForm(CostPerRecipient(messages, o)), name) == FirstValue(CostOptionParams(o), name)
  {
    assert name[2] != '[' && name != JSON_PARAM.0;
    BracketFormSkips(o.json, messages, CostOptionParams(o), name);
  }

  const EXAMPLE_OTHER_PHONE: RawPhoneNumber := "+74993221627"

  /**
   * The shape the encoder's own test checks: two recipients, a sender and
   * transliteration in JSON mode give exactly these five pairs, in order.
   */
  lemma CheckCostToManyExample(p1: RawPhoneNumber, p2: RawPhoneNumber, msg: MessageText, from: SenderId)
    ensures CheckCostForm(CostToMany([p1, p2], msg, CheckCostOptions(Json, Some(from), true)))
            == [("json", "1"), ("to", p1 + "," + p2), ("msg", msg), ("from", from), ("translit", "1")]
  {
    var phones: seq<RawPhoneNumber> := [p1, p2];
    var o := CheckCostOptions(Json, Some(from), true);
    assert JoinedPhones(phones) == p1 + "," + p2 by {
      assert phones[1..] == [p2];
      assert Join(phones[1..], ",") == p2;
    }
    assert CostOptionParams(o) == [("from", from), ("translit", "1")];
    assert CheckCostForm(CostToMany(phones, msg, o))
           == JsonParams(Json) + ToManyParams(phones, msg) + CostOptionParams(o);
  }

  /** Without JSON mode no pair is named `json`. */
  lemma CheckCostPlainExample(msg: MessageText)
    ensures !HasName(CheckCostForm(CostToMany([EXAMPLE_PHONE], msg, CheckCostOptions(Plain, None, false))),
                     JSON_PARAM.0)
  {
    CheckCostFormJson(CostToMany([EXAMPLE_PHONE], msg, CheckCostOptions(Plain, None, false)));
  }

  const COST_FIELD: string := "cost"
  const TOTAL_COST_FIELD: string := "total_cost"
  const TOTAL_SMS_FIELD: string := "total_sms"

  /** One recipient's price: its own status, code and text, the cost as sent, and the number of parts. */
  function DecodeSmsCostResult(j: Json): Result<SmsCostResult, TransportError> {
    var members :- ObjectMembers(j);
    var envelope :- DecodeEnvelope(members);
    var cost :- OptionalField(members, COST_FIELD, DecodeMoney);
    var sms :- OptionalField(members, SMS_FIELD, DecodeU32);
    Ok(SmsCostResult(envelope.status, envelope.status_code, envelope.status_text, cost, sms))
  }

  /** How SMS.RU writes one recipient's price, with a string cost. */
  function SmsCostResultJson(r: SmsCostResult): Json {
    JObject(EnvelopeMembers(Envelope(r.status, r.status_code, r.status_text))
            + [(COST_FIELD, OptStringJson(r.cost)), (SMS_FIELD, OptU32Json(r.sms))])
  }

  /**
   * A recipient's price is read back exactly as written: an `ERROR` item
   * (code 207, say, and no cost) stays an `ERROR` item with its own code.
   */
  lemma SmsCostResultRoundTrip(r: SmsCostResult)
    ensures DecodeSmsCostResult(SmsCostResultJson(r)) == Ok(r)
  {
    var m := SmsCostResultJson(r).members;
    SmsCostResultFields(r);
    if r.cost.Some? { DecodeMoneyKeepsText(r.cost.value, "0"); }
    OptStringFieldRead(m, COST_FIELD, r.cost, DecodeMoney);
    OptU32FieldRead(m, SMS_FIELD, r.sms);
  }

  lemma SmsCostResultFields(r: SmsCostResult)
    ensures SmsCostResultJson(r).JObject?
    ensures DecodeEnvelope(SmsCostResultJson(r).members) == Ok(Envelope(r.status, r.status_code, r.status_text))
    ensures Field(SmsCostResultJson(r).members, COST_FIELD) == Ok(Some(OptStringJson(r.cost)))
    ensures Field(SmsCostResultJson(r).members, SMS_FIELD) == Ok(Some(OptU32Json(r.sms)))
  {
    var e := Envelope(r.status, r.status_code, r.status_text);
    var rest := [(COST_FIELD, OptStringJson(r.cost)), (SMS_FIELD, OptU32Json(r.sms))];
    EnvelopeAndFields(e, rest, COST_FIELD);
    EnvelopeAndFields(e, rest, SMS_FIELD);
    FieldOfDistinct(rest, 0);
    FieldOfDistinct(rest, 1);
  }

  /** `CheckCostJsonResponse`, as serde reads it. */
  datatype CheckCostJson = CheckCostJson(
    envelope: Envelope,
    total_cost: Option<string>,
    total_sms: Option<u32>,
    sms: seq<(string, SmsCostResult)>)

  function ParseCheckCostJson(j: Json): Result<CheckCostJson, TransportError> {
    var members :- ObjectMembers(j);
    var envelope :- DecodeEnvelope(members);
    var totalCost :- OptionalField(members, TOTAL_COST_FIELD, DecodeMoney);
    var totalSms :- OptionalField(members, TOTAL_SMS_FIELD, DecodeU32);
    var sms :- DefaultMap(members, SMS_FIELD, DecodeSmsCostResult);
    Ok(CheckCostJson(envelope, totalCost, totalSms, sms))
  }

  /** The table of a cost request's numbers. */
  function CheckCostLookup(request: CheckCost): map<string, RawPhoneNumber> {
    PhoneLookup(CheckCostPhones(request), Raw)
  }

  function CheckCostResolver(request: CheckCost): string -> Result<RawPhoneNumber, TransportError> {
    key => MatchPhoneKey(CheckCostLookup(request), key)
  }

  /** The members of the reply's `sms` object. */
  function CostObject(j: Json): Members {
    if j.JObject? then ItemObject(j.members, SMS_FIELD) else []
  }

  /**
   * `decode_check_cost_json_response`: serde reads the reply, then every
   * member of `sms` is keyed by the request's number it matches.
   */
  function DecodeCheckCost(request: CheckCost, j: Json): Result<CheckCostResponse, TransportError> {
    match ParseCheckCostJson(j)
    case Err(_) => Err(InvalidJson)
    case Ok(parsed) =>
      var sms :- ResolveAll(parsed.sms, CheckCostResolver(request));
      Ok(CheckCostResponse(parsed.envelope.status, parsed.envelope.status_code, parsed.envelope.status_text,
                           parsed.total_cost, parsed.total_sms, sms))
  }

  /**
   * On success: every key of `sms` is a number of the request; every member
   * of the reply's `sms` object matched a number that is a key; there are no
   * more keys than members; each value is the decoding of a member matching
   * its key; and the reply's status, code and text are the envelope's.
   */
  lemma DecodeCheckCostKeys(request: CheckCost, j: Json)
    requires DecodeCheckCost(request, j).Ok?
    ensures forall phone | phone in DecodeCheckCost(request, j).value.sms :: phone in CheckCostPhones(request)
    ensures forall i | 0 <= i < |CostObject(j)| ::
      MatchPhoneKey(CheckCostLookup(request), CostObject(j)[i].0).Ok?
      && MatchPhoneKey(CheckCostLookup(request), CostObject(j)[i].0).value in DecodeCheckCost(request, j).value.sms
    ensures |DecodeCheckCost(request, j).value.sms| <= |CostObject(j)|
    ensures forall phone | phone in DecodeCheckCost(request, j).value.sms ::
      exists i | 0 <= i < |CostObject(j)| ::
        MatchPhoneKey(CheckCostLookup(request), CostObject(j)[i].0) == Ok(phone)
        && DecodeSmsCostResult(CostObject(j)[i].1) == Ok(DecodeCheckCost(request, j).value.sms[phone])
    ensures j.JObject?
    ensures var r := DecodeCheckCost(request, j).value;
      DecodeEnvelope(j.members) == Ok(Envelope(r.status, r.status_code, r.status_text))
  {
    CostMatched(request, j);
    CostSourced(request, j);
    CostKeysFromRequest(request, j);
    DecodedCostParts(request, j);
    ParsedCostItems(j);
  }

  lemma CostMatched(request: CheckCost, j: Json)
    requires DecodeCheckCost(request, j).Ok?
    ensures forall i | 0 <= i < |CostObject(j)| ::
      MatchPhoneKey(CheckCostLookup(request), CostObject(j)[i].0).Ok?
      && MatchPhoneKey(CheckCostLookup(request), CostObject(j)[i].0).value in DecodeCheckCost(request, j).value.sms
    ensures |DecodeCheckCost(request, j).value.sms| <= |CostObject(j)|
  {
    DecodedCostParts(request, j);
    ParsedCostItems(j);
    ResolvedItems(j.members, SMS_FIELD, DecodeSmsCostResult, CheckCostResolver(request));
  }

  lemma CostSourced(request: CheckCost, j: Json)
    requires DecodeCheckCost(request, j).Ok?
    ensures forall phone | phone in DecodeCheckCost(request, j).value.sms ::
      exists i | 0 <= i < |CostObject(j)| ::
        MatchPhoneKey(CheckCostLookup(request), CostObject(j)[i].0) == Ok(phone)
        && DecodeSmsCostResult(CostObject(j)[i].1) == Ok(DecodeCheckCost(request, j).value.sms[phone])
  {
    var resolve := CheckCostResolver(request);
    DecodedCostParts(request, j);
    ParsedCostItems(j);
    ResolvedItems(j.members, SMS_FIELD, DecodeSmsCostResult, resolve);
    var obj := CostObject(j);
    var sms := DecodeCheckCost(request, j).value.sms;
    forall phone | phone in sms
      ensures exists i | 0 <= i < |obj| ::
        MatchPhoneKey(CheckCostLookup(request), obj[i].0) == Ok(phone) && DecodeSmsCostResult(obj[i].1) == Ok(sms[phone])
    {
      var i :| 0 <= i < |obj| && resolve(obj[i].0) == Ok(phone) && DecodeSmsCostResult(obj[i].1) == Ok(sms[phone]);
      assert resolve(obj[i].0) == MatchPhoneKey(CheckCostLookup(request), obj[i].0);
    }
  }

  lemma CostKeysFromRequest(request: CheckCost, j: Json)
    requires DecodeCheckCost(request, j).Ok?
    ensures forall phone | phone in DecodeCheckCost(request, j).value.sms :: phone in CheckCostPhones(request)
  {
    DecodedCostParts(request, j);
    var items := ParseCheckCostJson(j).value.sms;
    var resolve := CheckCostResolver(request);
    forall phone | phone in DecodeCheckCost(request, j).value.sms ensures phone in CheckCostPhones(request) {
      ResolveAllValueSource(items, resolve, phone);
      var x :| 0 <= x < |items| && resolve(items[x].0) == Ok(phone) && items[x].1 == ResolveAll(items, resolve).value[phone];
      MatchPhoneKeyFromRequest(CheckCostPhones(request), Raw, items[x].0);
    }
  }

  /** A decoded reply is the envelope and the items serde read, each resolved. */
  lemma DecodedCostParts(request: CheckCost, j: Json)
    requires DecodeCheckCost(request, j).Ok?
    ensures ParseCheckCostJson(j).Ok?
    ensures ResolveAll(ParseCheckCostJson(j).value.sms, CheckCostResolver(request)).Ok?
    ensures DecodeCheckCost(request, j).value.sms
            == ResolveAll(ParseCheckCostJson(j).value.sms, CheckCostResolver(request)).value
    ensures var r := DecodeCheckCost(request, j).value;
      ParseCheckCostJson(j).value.envelope == Envelope(r.status, r.status_code, r.status_text)
  {
  }

  /**
   * Failure: a reply serde cannot read is `InvalidJson`; otherwise the error
   * names a member of `sms`, as sent, that matches no number of the request.
   */
  lemma DecodeCheckCostErrors(request: CheckCost, j: Json)
    ensures DecodeCheckCost(request, j) == Err(InvalidJson) <==> ParseCheckCostJson(j).Err?
    ensures DecodeCheckCost(request, j).Err? && ParseCheckCostJson(j).Ok? ==>
      exists i | 0 <= i < |CostObject(j)| ::
        DecodeCheckCost(request, j).error == UnknownPhoneNumberKey(CostObject(j)[i].0)
        && MatchKey(CheckCostLookup(request), CostObject(j)[i].0).None?
    ensures DecodeCheckCost(request, j).Err? && ParseCheckCostJson(j).Ok? ==>
      var items := ParseCheckCostJson(j).value.sms;
      Ascending(items)
      && exists i | 0 <= i < |items| ::
           DecodeCheckCost(request, j).error == UnknownPhoneNumberKey(items[i].0)
           && forall k | 0 <= k < i :: MatchKey(CheckCostLookup(request), items[k].0).Some?
  {
    var parse := ParseCheckCostJson(j);
    if parse.Ok? && ResolveAll(parse.value.sms, CheckCostResolver(request)).Err? {
      CostUnmatchedKey(request, j);
      var i := CostFirstUnmatched(request, j);
    }
  }

  /**
   * The member a failed reply names is the first of the `sms` map, in
   * ascending key order, that matches no number: every key before it matched.
   */
  lemma CostFirstUnmatched(request: CheckCost, j: Json) returns (i: int)
    requires ParseCheckCostJson(j).Ok?
    requires ResolveAll(ParseCheckCostJson(j).value.sms, CheckCostResolver(request)).Err?
    ensures var items := ParseCheckCostJson(j).value.sms;
      Ascending(items) && 0 <= i < |items|
      && ResolveAll(items, CheckCostResolver(request)).error == UnknownPhoneNumberKey(items[i].0)
      && MatchKey(CheckCostLookup(request), items[i].0).None?
      && forall k | 0 <= k < i :: MatchKey(CheckCostLookup(request), items[k].0).Some?
  {
    var items := ParseCheckCostJson(j).value.sms;
    var resolve := CheckCostResolver(request);
    ParsedCostItems(j);
    DefaultMapShape(j.members, SMS_FIELD, DecodeSmsCostResult);
    i := ResolveAllFirstFailing(items, resolve);
    forall k | 0 <= k < i
      ensures MatchKey(CheckCostLookup(request), items[k].0).Some?
    {
      assert resolve(items[k].0).Ok?;
    }
  }

  lemma CostUnmatchedKey(request: CheckCost, j: Json)
    requires ParseCheckCostJson(j).Ok?
    requires ResolveAll(ParseCheckCostJson(j).value.sms, CheckCostResolver(request)).Err?
    ensures exists i | 0 <= i < |CostObject(j)| ::
      ResolveAll(ParseCheckCostJson(j).value.sms, CheckCostResolver(request)).error
        == UnknownPhoneNumberKey(CostObject(j)[i].0)
      && MatchKey(CheckCostLookup(request), CostObject(j)[i].0).None?
  {
    var resolve := CheckCostResolver(request);
    ParsedCostItems(j);
    var all := ResolveAll(ParseCheckCostJson(j).value.sms, resolve);
    var i := ResolvedItemsError(j.members, SMS_FIELD, DecodeSmsCostResult, resolve);
    assert all.error == UnknownPhoneNumberKey(CostObject(j)[i].0);
  }

  /** What serde read as the items is the reply's `sms` object, decoded. */
  lemma ParsedCostItems(j: Json)
    requires ParseCheckCostJson(j).Ok?
    ensures j.JObject? && DefaultMap(j.members, SMS_FIELD, DecodeSmsCostResult).Ok?
    ensures ParseCheckCostJson(j).value.sms == DefaultMap(j.members, SMS_FIELD, DecodeSmsCostResult).value
    ensures DecodeEnvelope(j.members) == Ok(ParseCheckCostJson(j).value.envelope)
  {
  }

  /**
   * A reply holding only the envelope (a top-level `ERROR` such as code 200,
   * "Invalid api_id") is read whatever the request: no totals, no items.
   */
  lemma DecodeCheckCostEnvelopeOnly(request: CheckCost, e: Envelope)
    ensures DecodeCheckCost(request, JObject(EnvelopeMembers(e)))
            == Ok(CheckCostResponse(e.status, e.status_code, e.status_text, None, None, map[]))
  {
    var m := EnvelopeMembers(e);
    EnvelopeOnlyField(e, TOTAL_COST_FIELD);
    EnvelopeOnlyField(e, TOTAL_SMS_FIELD);
    EnvelopeOnlyField(e, SMS_FIELD);
    assert ParseCheckCostJson(JObject(m)) == Ok(CheckCostJson(e, None, None, []));
  }
}
