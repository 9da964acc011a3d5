/**
 * The `sms/send` endpoint: the form a send request is posted as, and the
 * reading of SMS.RU's JSON answer, whose per-recipient object is keyed by
 * phone numbers written the way SMS.RU chose to write them.
 */
module SendSmsTransport {
  import opened Wrappers
  import opened Numeric
  import opened Text
  import opened JsonValue
  import opened Value
  import opened Request
  import opened Response
  import opened Form
  import opened Transport
  import opened KeyMatch
  import opened ItemMap
  import opened SortedMap

  const IP_FIELD: string := "ip"
  const DAYTIME_FIELD: string := "daytime"
  const TEST_FIELD: string := "test"

  /** The option fields, in the order `push_options` tests them. */
  const SEND_OPTION_ORDER: seq<string> :=
    [SENDER_ID_FIELD, IP_FIELD, TIME_FIELD, TTL_FIELD, DAYTIME_FIELD, TRANSLIT_FIELD, TEST_FIELD, PARTNER_ID_FIELD]

  /** Each option with the value it is sent with, if any; times and lifetimes in decimal. */
  function SendOptionSlots(o: SendOptions): (r: seq<Slot>)
    ensures |r| == |SEND_OPTION_ORDER|
    ensures forall k | 0 <= k < |r| :: r[k].0 == SEND_OPTION_ORDER[k]
  {
    [(SENDER_ID_FIELD, o.from),
     (IP_FIELD, if o.ip.Some? then Some(o.ip.value.text) else None),
     (TIME_FIELD, if o.time.Some? then Some(Decimal(o.time.value)) else None),
     (TTL_FIELD, if o.ttl.Some? then Some(Decimal(o.ttl.value)) else None),
     FlagSlot(DAYTIME_FIELD, o.daytime),
     FlagSlot(TRANSLIT_FIELD, o.translit),
     FlagSlot(TEST_FIELD, o.test),
     (PARTNER_ID_FIELD, o.partner_id)]
  }

  /** The sender, address, time and lifetime pairs, each when present. */
  function RoutingOptionParams(o: SendOptions): seq<Param> {
    OptParam(SENDER_ID_FIELD, o.from)
    + OptParam(IP_FIELD, if o.ip.Some? then Some(o.ip.value.text) else None)
    + OptParam(TIME_FIELD, if o.time.Some? then Some(Decimal(o.time.value)) else None)
    + OptParam(TTL_FIELD, if o.ttl.Some? then Some(Decimal(o.ttl.value)) else None)
  }

  /** The three flags, each when set, and the partner id when present. */
  function FlagOptionParams(o: SendOptions): seq<Param> {
    FlagParam(DAYTIME_FIELD, o.daytime)
    + FlagParam(TRANSLIT_FIELD, o.translit)
    + FlagParam(TEST_FIELD, o.test)
    + OptParam(PARTNER_ID_FIELD, o.partner_id)
  }

  /** The option pairs of a send request: each present option, in the fixed order. */
  function SendOptionParams(o: SendOptions): seq<Param> {
    RoutingOptionParams(o) + FlagOptionParams(o)
  }

  /** The option pairs are those of the option slots. */
  lemma SendOptionParamsPresent(o: SendOptions)
    ensures SendOptionParams(o) == Present(SendOptionSlots(o))
  {
    var slots := SendOptionSlots(o);
    var head := slots[..4];
    var tail := slots[4..];
    assert slots == head + tail;
    PresentAppend(head, tail);
    PresentFour(head);
    PresentFour(tail);
  }

  /**
   * `push_options`: appends each present option, in the fixed order. The
   * eight tests are split over two steps, the first four options and the
   * last four.
   */
  method PushOptions(params: seq<Param>, o: SendOptions) returns (out: seq<Param>)
    ensures out == params + SendOptionParams(o)
  {
    out := PushRoutingOptions(params, o);
    out := PushFlagOptions(out, o);
    AppendStep(params, RoutingOptionParams(o), FlagOptionParams(o));
  }

  method PushRoutingOptions(params: seq<Param>, o: SendOptions) returns (out: seq<Param>)
    ensures out == params + RoutingOptionParams(o)
  {
    out := params;
    if o.from.Some? {
      out := out + [(SENDER_ID_FIELD, o.from.value)];
    }
    if o.ip.Some? {
      out := out + [(IP_FIELD, o.ip.value.text)];
    }
    if o.time.Some? {
      out := out + [(TIME_FIELD, Decimal(o.time.value))];
    }
    if o.ttl.Some? {
      out := out + [(TTL_FIELD, Decimal(o.ttl.value))];
    }
  }

  method PushFlagOptions(params: seq<Param>, o: SendOptions) returns (out: seq<Param>)
    ensures out == params + FlagOptionParams(o)
  {
    out := params;
    if o.daytime {
      out := out + [(DAYTIME_FIELD, "1")];
    }
    if o.translit {
      out := out + [(TRANSLIT_FIELD, "1")];
    }
    if o.test {
      out := out + [(TEST_FIELD, "1")];
    }
    if o.partner_id.Some? {
      out := out + [(PARTNER_ID_FIELD, o.partner_id.value)];
    }
  }

  function SendOptionsOf(request: SendSms): SendOptions {
    match request
    case ToMany(_, _, o) => o
    case PerRecipient(_, o) => o
  }

  /** The form of a send request: the marker, the recipients and texts, then the options. */
  function SendSmsForm(request: SendSms): seq<Param> {
    match request
    case ToMany(recipients, msg, o) => JsonParams(o.json) + ToManyParams(recipients, msg) + SendOptionParams(o)
    case PerRecipient(messages, o) => JsonParams(o.json) + BracketParams(messages) + SendOptionParams(o)
  }

  /** `encode_send_sms_form`. */
  method EncodeSendSmsForm(request: SendSms) returns (params: seq<Param>)
    ensures params == SendSmsForm(request)
  {
    match request {
      case ToMany(recipients, msg, o) =>
        params := EncodeToManyForm(recipients, msg, o);
      case PerRecipient(messages, o) =>
        params := EncodePerRecipientForm(messages, o);
    }
  }

  /** The one-text arm of `encode_send_sms_form`. */
  method EncodeToManyForm(recipients: seq<RawPhoneNumber>, msg: MessageText, o: SendOptions)
    returns (params: seq<Param>)
    ensures params == JsonParams(o.json) + ToManyParams(recipients, msg) + SendOptionParams(o)
  {
    params := PushJson([], o.json);
    var to := JoinedPhones(recipients);
    params := params + [(RAW_PHONE_FIELD, to)];
    params := params + [(MESSAGE_TEXT_FIELD, msg)];
    assert params == JsonParams(o.json) + ToManyParams(recipients, msg);
    params := PushOptions(params, o);
  }

  /** The per-recipient arm of `encode_send_sms_form`. */
  method EncodePerRecipientForm(messages: PhoneMessages, o: SendOptions) returns (params: seq<Param>)
    ensures params == JsonParams(o.json) + BracketParams(messages) + SendOptionParams(o)
  {
    params := PushJson([], o.json);
    assert params == JsonParams(o.json);
    params := PushBracketParams(params, messages);
    params := PushOptions(params, o);
  }

  /** Every option pair carries one of the option names. */
  lemma SendOptionNames(o: SendOptions, p: Param)
    requires p in SendOptionParams(o)
    ensures p.0 in SEND_OPTION_ORDER
  {
    SendOptionParamsPresent(o);
    PresentFromSlots(SendOptionSlots(o), p);
  }

  lemma SendOptionSlotsDistinct(o: SendOptions)
    ensures DistinctNames(SendOptionSlots(o))
  {
  }

  /**
   * Each option is sent exactly when it is set, with its value: the sender
   * and partner ids as written, the address as displayed, the time and the
   * lifetime in decimal, and a flag as `1`.
   */
  lemma SendOptionValues(o: SendOptions)
    ensures FirstValue(SendOptionParams(o), SENDER_ID_FIELD) == o.from
    ensures FirstValue(SendOptionParams(o), IP_FIELD) == if o.ip.Some? then Some(o.ip.value.text) else None
    ensures FirstValue(SendOptionParams(o), TIME_FIELD) == if o.time.Some? then Some(Decimal(o.time.value)) else None
    ensures FirstValue(SendOptionParams(o), TTL_FIELD) == if o.ttl.Some? then Some(Decimal(o.ttl.value)) else None
    ensures FirstValue(SendOptionParams(o), DAYTIME_FIELD) == if o.daytime then Some("1") else None
    ensures FirstValue(SendOptionParams(o), TRANSLIT_FIELD) == if o.translit then Some("1") else None
    ensures FirstValue(SendOptionParams(o), TEST_FIELD) == if o.test then Some("1") else None
    ensures FirstValue(SendOptionParams(o), PARTNER_ID_FIELD) == o.partner_id
  {
    var slots := SendOptionSlots(o);
    SendOptionParamsPresent(o);
    SendOptionSlotsDistinct(o);
    PresentValue(slots, 0);
    PresentValue(slots, 1);
    PresentValue(slots, 2);
    PresentValue(slots, 3);
    PresentValue(slots, 4);
    PresentValue(slots, 5);
    PresentValue(slots, 6);
    PresentValue(slots, 7);
  }

  /** Options are sent in the fixed order `from, ip, time, ttl, daytime, translit, test, partner_id`. */
  lemma SendOptionOrder(o: SendOptions, i: int, j: int)
    requires 0 <= i < j < |SendOptionParams(o)|
    ensures exists a, b | 0 <= a < b < |SEND_OPTION_ORDER| ::
      SEND_OPTION_ORDER[a] == SendOptionParams(o)[i].0 && SEND_OPTION_ORDER[b] == SendOptionParams(o)[j].0
  {
    SendOptionParamsPresent(o);
    PresentPairOrder(SendOptionSlots(o), i, j);
  }

  /** No option carries the name `json`, `to` or `msg`, nor a bracketed name. */
  lemma SendOptionNamesDiffer(o: SendOptions)
    ensures forall p | p in SendOptionParams(o) ::
      p.0 != JSON_PARAM.0 && p.0 != RAW_PHONE_FIELD && p.0 != MESSAGE_TEXT_FIELD
      && (|p.0| == 0 || p.0[|p.0| - 1] != ']')
  {
    forall p | p in SendOptionParams(o)
      ensures p.0 != JSON_PARAM.0 && p.0 != RAW_PHONE_FIELD && p.0 != MESSAGE_TEXT_FIELD
              && (|p.0| == 0 || p.0[|p.0| - 1] != ']')
    {
      SendOptionNames(o, p);
    }
  }

  /**
   * `json=1` is sent exactly in JSON mode, and then as the first pair;
   * no other pair is named `json`.
   */
  lemma SendSmsFormJson(request: SendSms)
    ensures forall i | 0 <= i < |SendSmsForm(request)| ::
      SendSmsForm(request)[i].0 == JSON_PARAM.0 <==> i == 0 && SendOptionsOf(request).json == Json
    ensures SendOptionsOf(request).json == Json ==> SendSmsForm(request)[0] == JSON_PARAM
  {
    var o := SendOptionsOf(request);
    SendOptionNamesDiffer(o);
    match request
    case ToMany(recipients, msg, _) =>
      AppendStep(JsonParams(o.json), ToManyParams(recipients, msg), SendOptionParams(o));
      JsonFirst(o.json, ToManyParams(recipients, msg) + SendOptionParams(o));
    case PerRecipient(messages, _) =>
      BracketParamsRecover(messages);
      AppendStep(JsonParams(o.json), BracketParams(messages), SendOptionParams(o));
      JsonFirst(o.json, BracketParams(messages) + SendOptionParams(o));
  }

  /**
   * A one-text request reads back, field by field, as the comma-joined
   * recipients, the text and the options; splitting the `to` value on commas
   * gives the recipients back in order when no number holds a comma.
   */
  lemma SendSmsToManyFields(request: SendSms)
    requires request.ToMany?
    ensures FirstValue(SendSmsForm(request), RAW_PHONE_FIELD) == Some(JoinedPhones(request.recipients))
    ensures FirstValue(SendSmsForm(request), MESSAGE_TEXT_FIELD) == Some(request.msg)
    ensures forall name | name in SEND_OPTION_ORDER ::
      FirstValue(SendSmsForm(request), name) == FirstValue(SendOptionParams(request.options), name)
    ensures |request.recipients| > 0 && (forall i | 0 <= i < |request.recipients| :: ',' !in request.recipients[i]) ==>
      Split(FirstValue(SendSmsForm(request), RAW_PHONE_FIELD).value, ',') == request.recipients
  {
    ToManyTexts(request.recipients, request.msg, request.options);
    forall name | name in SEND_OPTION_ORDER
      ensures FirstValue(SendSmsForm(request), name) == FirstValue(SendOptionParams(request.options), name)
    {
      ToManyOption(request.recipients, request.msg, request.options, name);
    }
    if |request.recipients| > 0 && (forall i | 0 <= i < |request.recipients| :: ',' !in request.recipients[i]) {
      JoinedPhonesSplit(request.recipients);
    }
  }

  lemma ToManyTexts(recipients: seq<RawPhoneNumber>, msg: MessageText, o: SendOptions)
    ensures FirstValue(SendSmsForm(ToMany(recipients, msg, o)), RAW_PHONE_FIELD) == Some(JoinedPhones(recipients))
    ensures FirstValue(SendSmsForm(ToMany(recipients, msg, o)), MESSAGE_TEXT_FIELD) == Some(msg)
  {
    var head := JsonParams(o.json) + ToManyParams(recipients, msg);
    assert head[|JsonParams(o.json)|].0 == RAW_PHONE_FIELD;
    assert head[|JsonParams(o.json)| + 1].0 == MESSAGE_TEXT_FIELD;
    FirstValueKeep(head, SendOptionParams(o), RAW_PHONE_FIELD);
    FirstValueKeep(head, SendOptionParams(o), MESSAGE_TEXT_FIELD);
    FirstValueSkip(JsonParams(o.json), ToManyParams(recipients, msg), RAW_PHONE_FIELD);
    FirstValueSkip(JsonParams(o.json), ToManyParams(recipients, msg), MESSAGE_TEXT_FIELD);
  }

  lemma ToManyOption(recipients: seq<RawPhoneNumber>, msg: MessageText, o: SendOptions, name: string)
    requires name in SEND_OPTION_ORDER
    ensures FirstValue(SendSmsForm(ToMany(recipients, msg, o)), name) == FirstValue(SendOptionParams(o), name)
  {
    OptionNotHead(name);
    var head := JsonParams(o.json) + ToManyParams(recipients, msg);
    assert forall p | p in head :: p.0 == JSON_PARAM.0 || p.0 == RAW_PHONE_FIELD || p.0 == MESSAGE_TEXT_FIELD;
    FirstValueSkip(head, SendOptionParams(o), name);
  }

  /** No option field is named like the marker, the recipients or the text. */
  lemma OptionNotHead(name: string)
    requires name in SEND_OPTION_ORDER
    ensures name != JSON_PARAM.0 && name != RAW_PHONE_FIELD && name != MESSAGE_TEXT_FIELD
  {
    assert |name| != 4 || name[0] != 'j';
    assert |name| != 2 || name[0] != 't';
    assert |name| != 3 || name[0] != 'm';
  }

  /**
   * A per-recipient request sends no `to` or `msg` pair; each number's text
   * is found under its bracketed name, and the options read as sent.
   */
  lemma SendSmsPerRecipientFields(request: SendSms)
    requires request.PerRecipient?
    ensures !HasName(SendSmsForm(request), RAW_PHONE_FIELD) && !HasName(SendSmsForm(request), MESSAGE_TEXT_FIELD)
    ensures forall i | 0 <= i < |request.messages| ::
      FirstValue(SendSmsForm(request), BracketKey(request.messages[i].0)) == Some(request.messages[i].1)
    ensures forall name | name in SEND_OPTION_ORDER ::
      FirstValue(SendSmsForm(request), name) == FirstValue(SendOptionParams(request.options), name)
  {
    var o := request.options;
    var messages := request.messages;
    var f := SendSmsForm(request);
    BracketParamsRecover(messages);
    SendOptionNamesDiffer(o);
    forall i | 0 <= i < |f| ensures f[i].0 != RAW_PHONE_FIELD && f[i].0 != MESSAGE_TEXT_FIELD {
      assert f[i] in f;
    }
    forall i | 0 <= i < |messages|
      ensures FirstValue(f, BracketKey(messages[i].0)) == Some(messages[i].1)
    {
      PerRecipientText(messages, o, i);
    }
    forall name | name in SEND_OPTION_ORDER
      ensures FirstValue(f, name) == FirstValue(SendOptionParams(o), name)
    {
      PerRecipientOption(messages, o, name);
    }
  }

  lemma PerRecipientText(messages: PhoneMessages, o: SendOptions, i: int)
    requires 0 <= i < |messages|
    ensures FirstValue(SendSmsForm(PerRecipient(messages, o)), BracketKey(messages[i].0)) == Some(messages[i].1)
  {
    BracketFormText(o.json, messages, SendOptionParams(o), i);
  }

  lemma PerRecipientOption(messages: PhoneMessages, o: SendOptions, name: string)
    requires name in SEND_OPTION_ORDER
    ensures FirstValue(SendSmsForm(PerRecipient(messages, o)), name) == FirstValue(SendOptionParams(o), name)
  {
    var head := JsonParams(o.json) + BracketParams(messages);
    forall p | p in head ensures p.0 != name {
      if p in BracketParams(messages) {
        var i :| 0 <= i < |messages| && BracketParams(messages)[i] == p;
        OptionNotBracket(name, messages[i].0);
      }
    }
    FirstValueSkip(head, SendOptionParams(o), name);
  }

  /** No option field has the `to[...]` shape of a per-recipient name. */
  lemma OptionNotBracket(name: string, raw: string)
    requires name in SEND_OPTION_ORDER
    ensures BracketKey(raw) != name
  {
    assert |name| < 3 || name[2] != '[';
    assert BracketKey(raw)[..3][2] == '[';
  }

  /**
   * `TransportBalance`, read untagged: a JSON string is kept as it is; a
   * JSON number is rendered by `serde_json::Number::to_string`, which is
   * not part of this model and comes in as `render`.
   */
  function DecodeBalance(j: Json, render: string -> string): (r: Result<string, TransportError>)
    ensures r.Ok? <==> j.JString? || j.JNumber?
    ensures r.Err? ==> r.error == InvalidJson
  {
    if j.JString? then Ok(j.text)
    else if j.JNumber? then Ok(render(j.token))
    else Err(InvalidJson)
  }

  /** One recipient's result: its own status, code and text, and the message id as sent. */
  function DecodeSmsResult(j: Json): Result<SmsResult, TransportError> {
    var members :- ObjectMembers(j);
    var envelope :- DecodeEnvelope(members);
    var smsId :- OptionalField(members, SMS_ID_FIELD, DecodeString);
    Ok(SmsResult(envelope.status, envelope.status_code, envelope.status_text, smsId))
  }

  /** How SMS.RU writes one recipient's result. */
  function SmsResultJson(r: SmsResult): Json {
    JObject(EnvelopeMembers(Envelope(r.status, r.status_code, r.status_text)) + [(SMS_ID_FIELD, OptStringJson(r.sms_id))])
  }

  /**
   * A recipient's result is read back exactly as written: an `ERROR` item
   * stays an `ERROR` item, with its own code and text.
   */
  lemma SmsResultRoundTrip(r: SmsResult)
    ensures DecodeSmsResult(SmsResultJson(r)) == Ok(r)
  {
    var e := Envelope(r.status, r.status_code, r.status_text);
    var rest := [(SMS_ID_FIELD, OptStringJson(r.sms_id))];
    EnvelopeAndFields(e, rest, SMS_ID_FIELD);
    FieldOfDistinct(rest, 0);
  }

  /** `SendSmsJsonResponse`, as serde reads it. */
  datatype SendSmsJson = SendSmsJson(envelope: Envelope, balance: Option<string>, sms: seq<(string, SmsResult)>)

  function ParseSendSmsJson(j: Json, render: string -> string): Result<SendSmsJson, TransportError> {
    var members :- ObjectMembers(j);
    var envelope :- DecodeEnvelope(members);
    var balance :- OptionalField(members, BALANCE_FIELD, v => DecodeBalance(v, render));
    var sms :- DefaultMap(members, SMS_FIELD, DecodeSmsResult);
    Ok(SendSmsJson(envelope, balance, sms))
  }

  /** What serde read as the items is the reply's `sms` object, decoded. */
  lemma ParsedSmsItems(j: Json, render: string -> string)
    requires ParseSendSmsJson(j, render).Ok?
    ensures j.JObject? && DefaultMap(j.members, SMS_FIELD, DecodeSmsResult).Ok?
    ensures ParseSendSmsJson(j, render).value.sms == DefaultMap(j.members, SMS_FIELD, DecodeSmsResult).value
    ensures DecodeEnvelope(j.members) == Ok(ParseSendSmsJson(j, render).value.envelope)
  {
  }

  /** The table of a send request's numbers. */
  function SendSmsLookup(request: SendSms): map<string, RawPhoneNumber> {
    PhoneLookup(SendSmsPhones(request), Raw)
  }

  function SendSmsResolver(request: SendSms): string -> Result<RawPhoneNumber, TransportError> {
    key => MatchPhoneKey(SendSmsLookup(request), key)
  }

  /** The members of the reply's `sms` object. */
  function SmsObject(j: Json): Members {
    if j.JObject? then ItemObject(j.members, SMS_FIELD) else []
  }

  /**
   * `decode_send_sms_json_response`: serde reads the reply, then every
   * member of `sms` is keyed by the request's number it matches.
   */
  function DecodeSendSms(request: SendSms, j: Json, render: string -> string): Result<SendSmsResponse, TransportError> {
    match ParseSendSmsJson(j, render)
    case Err(_) => Err(InvalidJson)
    case Ok(parsed) =>
      var sms :- ResolveAll(parsed.sms, SendSmsResolver(request));
      Ok(SendSmsResponse(parsed.envelope.status, parsed.envelope.status_code, parsed.envelope.status_text,
                         parsed.balance, sms))
  }

  /**
   * On success: every key of `sms` is a number of the request; every member
   * of the reply's `sms` object matched a number that is a key (nothing is
   * dropped); there are no more keys than members; each value is the
   * decoding of a member matching its key; and the reply's status, code and
   * text are the envelope's.
   */
  lemma DecodeSendSmsKeys(request: SendSms, j: Json, render: string -> string)
    requires DecodeSendSms(request, j, render).Ok?
    ensures forall phone | phone in DecodeSendSms(request, j, render).value.sms :: phone in SendSmsPhones(request)
    ensures forall i | 0 <= i < |SmsObject(j)| ::
      MatchPhoneKey(SendSmsLookup(request), SmsObject(j)[i].0).Ok?
      && MatchPhoneKey(SendSmsLookup(request), SmsObject(j)[i].0).value in DecodeSendSms(request, j, render).value.sms
    ensures |DecodeSendSms(request, j, render).value.sms| <= |SmsObject(j)|
    ensures forall phone | phone in DecodeSendSms(request, j, render).value.sms ::
      exists i | 0 <= i < |SmsObject(j)| ::
        MatchPhoneKey(SendSmsLookup(request), SmsObject(j)[i].0) == Ok(phone)
        && DecodeSmsResult(SmsObject(j)[i].1) == Ok(DecodeSendSms(request, j, render).value.sms[phone])
    ensures j.JObject?
    ensures var r := DecodeSendSms(request, j, render).value;
      DecodeEnvelope(j.members) == Ok(Envelope(r.status, r.status_code, r.status_text))
  {
    SendMatched(request, j, render);
    SendSourced(request, j, render);
    SendKeysFromRequest(request, j, render);
    DecodedSendParts(request, j, render);
    ParsedSmsItems(j, render);
  }

  /** A decoded reply is the envelope, the balance and the items serde read, each resolved. */
  lemma DecodedSendParts(request: SendSms, j: Json, render: string -> string)
    requires DecodeSendSms(request, j, render).Ok?
    ensures ParseSendSmsJson(j, render).Ok?
    ensures ResolveAll(ParseSendSmsJson(j, render).value.sms, SendSmsResolver(request)).Ok?
    ensures DecodeSendSms(request, j, render).value.sms
            == ResolveAll(ParseSendSmsJson(j, render).value.sms, SendSmsResolver(request)).value
    ensures var r := DecodeSendSms(request, j, render).value;
      ParseSendSmsJson(j, render).value.envelope == Envelope(r.status, r.status_code, r.status_text)
  {
  }

  lemma SendMatched(request: SendSms, j: Json, render: string -> string)
    requires DecodeSendSms(request, j, render).Ok?
    ensures forall i | 0 <= i < |SmsObject(j)| ::
      MatchPhoneKey(SendSmsLookup(request), SmsObject(j)[i].0).Ok?
      && MatchPhoneKey(SendSmsLookup(request), SmsObject(j)[i].0).value in DecodeSendSms(request, j, render).value.sms
    ensures |DecodeSendSms(request, j, render).value.sms| <= |SmsObject(j)|
  {
    DecodedSendParts(request, j, render);
    ParsedSmsItems(j, render);
    ResolvedItems(j.members, SMS_FIELD, DecodeSmsResult, SendSmsResolver(request));
  }

  lemma SendSourced(request: SendSms, j: Json, render: string -> string)
    requires DecodeSendSms(request, j, render).Ok?
    ensures forall phone | phone in DecodeSendSms(request, j, render).value.sms ::
      exists i | 0 <= i < |SmsObject(j)| ::
        MatchPhoneKey(SendSmsLookup(request), SmsObject(j)[i].0) == Ok(phone)
        && DecodeSmsResult(SmsObject(j)[i].1) == Ok(DecodeSendSms(request, j, render).value.sms[phone])
  {
    var resolve := SendSmsResolver(request);
    DecodedSendParts(request, j, render);
    ParsedSmsItems(j, render);
    ResolvedItems(j.members, SMS_FIELD, DecodeSmsResult, resolve);
    var obj := SmsObject(j);
    var sms := DecodeSendSms(request, j, render).value.sms;
    forall phone | phone in sms
      ensures exists i | 0 <= i < |obj| ::
        MatchPhoneKey(SendSmsLookup(request), obj[i].0) == Ok(phone) && DecodeSmsResult(obj[i].1) == Ok(sms[phone])
    {
      var i :| 0 <= i < |obj| && resolve(obj[i].0) == Ok(phone) && DecodeSmsResult(obj[i].1) == Ok(sms[phone]);
      assert resolve(obj[i].0) == MatchPhoneKey(SendSmsLookup(request), obj[i].0);
    }
  }

  lemma SendKeysFromRequest(request: SendSms, j: Json, render: string -> string)
    requires DecodeSendSms(request, j, render).Ok?
    ensures forall phone | phone in DecodeSendSms(request, j, render).value.sms :: phone in SendSmsPhones(request)
  {
    DecodedSendParts(request, j, render);
    var items := ParseSendSmsJson(j, render).value.sms;
    var resolve := SendSmsResolver(request);
    forall phone | phone in DecodeSendSms(request, j, render).value.sms ensures phone in SendSmsPhones(request) {
      ResolveAllValueSource(items, resolve, phone);
      var x :| 0 <= x < |items| && resolve(items[x].0) == Ok(phone) && items[x].1 == ResolveAll(items, resolve).value[phone];
      MatchPhoneKeyFromRequest(SendSmsPhones(request), Raw, items[x].0);
    }
  }

  /**
   * Failure: a reply serde cannot read is `InvalidJson`; otherwise the error
   * names a member of `sms`, as sent, that matches no number of the request.
   */
  lemma DecodeSendSmsErrors(request: SendSms, j: Json, render: string -> string)
    ensures DecodeSendSms(request, j, render) == Err(InvalidJson) <==> ParseSendSmsJson(j, render).Err?
    ensures DecodeSendSms(request, j, render).Err? && ParseSendSmsJson(j, render).Ok? ==>
      exists i | 0 <= i < |SmsObject(j)| ::
        DecodeSendSms(request, j, render).error == UnknownPhoneNumberKey(SmsObject(j)[i].0)
        && MatchKey(SendSmsLookup(request), SmsObject(j)[i].0).None?
    ensures DecodeSendSms(request, j, render).Err? && ParseSendSmsJson(j, render).Ok? ==>
      var items := ParseSendSmsJson(j, render).value.sms;
      Ascending(items)
      && exists i | 0 <= i < |items| ::
           DecodeSendSms(request, j, render).error == UnknownPhoneNumberKey(items[i].0)
           && forall k | 0 <= k < i :: MatchKey(SendSmsLookup(request), items[k].0).Some?
  {
    var parse := ParseSendSmsJson(j, render);
    if parse.Ok? && ResolveAll(parse.value.sms, SendSmsResolver(request)).Err? {
      SendUnmatchedKey(request, j, render);
      var i := SendFirstUnmatched(request, j, render);
    }
  }

  /**
   * The member a failed reply names is the first of the `sms` map, in
   * ascending key order, that matches no number: every key before it matched.
   */
  lemma SendFirstUnmatched(request: SendSms, j: Json, render: string -> string) returns (i: int)
    requires ParseSendSmsJson(j, render).Ok?
    requires ResolveAll(ParseSendSmsJson(j, render).value.sms, SendSmsResolver(request)).Err?
    ensures var items := ParseSendSmsJson(j, render).value.sms;
      Ascending(items) && 0 <= i < |items|
      && ResolveAll(items, SendSmsResolver(request)).error == UnknownPhoneNumberKey(items[i].0)
      && MatchKey(SendSmsLookup(request), items[i].0).None?
      && forall k | 0 <= k < i :: MatchKey(SendSmsLookup(request), items[k].0).Some?
  {
    var items := ParseSendSmsJson(j, render).value.sms;
    var resolve := SendSmsResolver(request);
    ParsedSmsItems(j, render);
    DefaultMapShape(j.members, SMS_FIELD, DecodeSmsResult);
    i := ResolveAllFirstFailing(items, resolve);
    forall k | 0 <= k < i
      ensures MatchKey(SendSmsLookup(request), items[k].0).Some?
    {
      assert resolve(items[k].0).Ok?;
    }
  }

  lemma SendUnmatchedKey(request: SendSms, j: Json, render: string -> string)
    requires ParseSendSmsJson(j, render).Ok?
    requires ResolveAll(ParseSendSmsJson(j, render).value.sms, SendSmsResolver(request)).Err?
    ensures exists i | 0 <= i < |SmsObject(j)| ::
      ResolveAll(ParseSendSmsJson(j, render).value.sms, SendSmsResolver(request)).error
        == UnknownPhoneNumberKey(SmsObject(j)[i].0)
      && MatchKey(SendSmsLookup(request), SmsObject(j)[i].0).None?
  {
    var resolve := SendSmsResolver(request);
    var items := ParseSendSmsJson(j, render).value.sms;
    ParsedSmsItems(j, render);
    var all := ResolveAll(items, resolve);
    var i := ResolvedItemsError(j.members, SMS_FIELD, DecodeSmsResult, resolve);
    assert all.error == UnknownPhoneNumberKey(SmsObject(j)[i].0);
  }

  /**
   * A reply with one per-recipient member, under any key spelling that
   * matches a number of the request: the envelope is kept, a numeric balance
   * is rendered, and the member's result lands under the request's number.
   */
  lemma DecodeSendSmsOneMember(request: SendSms, e: Envelope, token: string, key: string, item: SmsResult,
                               render: string -> string)
    requires MatchPhoneKey(SendSmsLookup(request), key).Ok?
    ensures DecodeSendSms(request, JObject(OneMemberReply(e, token, key, item)), render)
            == Ok(SendSmsResponse(e.status, e.status_code, e.status_text, Some(render(token)),
                                  map[MatchPhoneKey(SendSmsLookup(request), key).value := item]))
  {
    ParseOneMember(e, token, key, item, render);
    assert [(key, item)][..0] == [];
    assert ResolveAll([(key, item)], SendSmsResolver(request))
      == Ok(map[MatchPhoneKey(SendSmsLookup(request), key).value := item]);
  }

  lemma ParseOneMember(e: Envelope, token: string, key: string, item: SmsResult, render: string -> string)
    ensures ParseSendSmsJson(JObject(OneMemberReply(e, token, key, item)), render)
            == Ok(SendSmsJson(e, Some(render(token)), [(key, item)]))
  {
    OneMemberFields(e, token, key, item);
    OneMemberBalance(e, token, key, item, render);
    OneMemberItems(e, token, key, item);
  }

  lemma OneMemberBalance(e: Envelope, token: string, key: string, item: SmsResult, render: string -> string)
    ensures OptionalField(OneMemberReply(e, token, key, item), BALANCE_FIELD, v => DecodeBalance(v, render))
            == Ok(Some(render(token)))
  {
    OneMemberFields(e, token, key, item);
  }

  lemma OneMemberItems(e: Envelope, token: string, key: string, item: SmsResult)
    ensures DefaultMap(OneMemberReply(e, token, key, item), SMS_FIELD, DecodeSmsResult) == Ok([(key, item)])
  {
    OneMemberFields(e, token, key, item);
    SmsResultRoundTrip(item);
    OneEntry(key, SmsResultJson(item), DecodeSmsResult, item);
  }

  /** The members of a reply with an envelope, a numeric balance and one per-recipient member. */
  function OneMemberReply(e: Envelope, token: string, key: string, item: SmsResult): Members {
    EnvelopeMembers(e) + [(BALANCE_FIELD, JNumber(token)), (SMS_FIELD, JObject([(key, SmsResultJson(item))]))]
  }

  lemma OneMemberFields(e: Envelope, token: string, key: string, item: SmsResult)
    ensures DecodeEnvelope(OneMemberReply(e, token, key, item)) == Ok(e)
    ensures Field(OneMemberReply(e, token, key, item), BALANCE_FIELD) == Ok(Some(JNumber(token)))
    ensures Field(OneMemberReply(e, token, key, item), SMS_FIELD) == Ok(Some(JObject([(key, SmsResultJson(item))])))
  {
    var rest := [(BALANCE_FIELD, JNumber(token)), (SMS_FIELD, JObject([(key, SmsResultJson(item))]))];
    EnvelopeAndFields(e, rest, BALANCE_FIELD);
    EnvelopeAndFields(e, rest, SMS_FIELD);
    FieldOfDistinct(rest, 0);
    FieldOfDistinct(rest, 1);
  }

  /**
   * The reply of the client's own example: `+79251234567` sent to, the
   * result reported under that key, found under the request's number.
   */
  lemma DecodeSendSmsExample(msg: MessageText, e: Envelope, token: string, item: SmsResult, render: string -> string)
    ensures DecodeSendSms(ToMany([EXAMPLE_PHONE], msg, DefaultSendOptions()),
                          JObject(OneMemberReply(e, token, "+79251234567", item)), render)
            == Ok(SendSmsResponse(e.status, e.status_code, e.status_text, Some(render(token)), map[EXAMPLE_PHONE := item]))
  {
    var request := ToMany([EXAMPLE_PHONE], msg, DefaultSendOptions());
    assert SendSmsLookup(request) == PhoneLookup([EXAMPLE_PHONE], Raw);
    PhoneMatchExamples();
    DecodeSendSmsOneMember(request, e, token, "+79251234567", item, render);
  }
}
