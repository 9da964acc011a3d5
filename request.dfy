/**
 * Request values of the SMS.RU client, with the validating constructors that
 * bound how many recipients or ids one request may carry.
 */
module Request {
  import opened Wrappers
  import opened Numeric
  import opened Text
  import opened Validation
  import opened Value
  import opened SortedMap

  const SEND_SMS_MAX_RECIPIENTS: nat := 100
  const CHECK_COST_MAX_RECIPIENTS: nat := 100
  const CHECK_STATUS_MAX_SMS_IDS: nat := 100

  /** Whether the request asks SMS.RU for a JSON answer (`json=1`). */
  datatype JsonMode = Json | Plain

  datatype SendOptions = SendOptions(
    json: JsonMode,
    from: Option<SenderId>,
    ip: Option<IpAddr>,
    time: Option<UnixTimestamp>,
    ttl: Option<TtlMinutes>,
    daytime: bool,
    translit: bool,
    test: bool,
    partner_id: Option<PartnerId>)

  function DefaultSendOptions(): SendOptions {
    SendOptions(Json, None, None, None, None, false, false, false, None)
  }

  datatype CheckCostOptions = CheckCostOptions(json: JsonMode, from: Option<SenderId>, translit: bool)

  function DefaultCheckCostOptions(): CheckCostOptions {
    CheckCostOptions(Json, None, false)
  }

  datatype StartCallAuthOptions = StartCallAuthOptions(json: JsonMode)

  function DefaultStartCallAuthOptions(): StartCallAuthOptions {
    StartCallAuthOptions(Json)
  }

  datatype CheckCallAuthStatusOptions = CheckCallAuthStatusOptions(json: JsonMode)

  function DefaultCheckCallAuthStatusOptions(): CheckCallAuthStatusOptions {
    CheckCallAuthStatusOptions(Json)
  }

  /**
   * A `BTreeMap<RawPhoneNumber, MessageText>` as it iterates: entries in
   * ascending order of the raw number.
   */
  type PhoneMessages = m: seq<(RawPhoneNumber, MessageText)> | Ascending(m) witness []

  datatype SendSms =
    | ToMany(recipients: seq<RawPhoneNumber>, msg: MessageText, options: SendOptions)
    | PerRecipient(messages: PhoneMessages, options: SendOptions)

  datatype CheckCost =
    | CostToMany(recipients: seq<RawPhoneNumber>, msg: MessageText, options: CheckCostOptions)
    | CostPerRecipient(messages: PhoneMessages, options: CheckCostOptions)

  datatype CheckStatus = CheckStatus(sms_ids: seq<SmsId>)

  datatype StartCallAuth = StartCallAuth(phone: RawPhoneNumber, options: StartCallAuthOptions)

  datatype CheckCallAuthStatus = CheckCallAuthStatus(check_id: CallCheckId, options: CheckCallAuthStatusOptions)

  datatype AddStoplistEntry = AddStoplistEntry(phone: RawPhoneNumber, text: StoplistText)
  datatype RemoveStoplistEntry = RemoveStoplistEntry(phone: RawPhoneNumber)
  datatype AddCallback = AddCallback(url: CallbackUrl)
  datatype RemoveCallback = RemoveCallback(url: CallbackUrl)

  /** The common bound check: none is `Empty(field)`, more than `max` is too many. */
  function CheckCount(field: string, count: nat, max: nat): (r: Option<ValidationError>)
    ensures r.None? <==> 1 <= count <= max
    ensures count == 0 ==> r == Some(Empty(field))
    ensures count > max >= 1 ==> r == Some(TooManyRecipients(max, count))
  {
    if count == 0 then Some(Empty(field))
    else if count > max then Some(TooManyRecipients(max, count))
    else None
  }

  /** `SendSms::to_many`: one text for 1 to 100 recipients. */
  function SendSmsToMany(recipients: seq<RawPhoneNumber>, msg: MessageText, options: SendOptions)
    : (r: Result<SendSms, ValidationError>)
    ensures r.Ok? <==> 1 <= |recipients| <= SEND_SMS_MAX_RECIPIENTS
    ensures r.Ok? ==> r.value == ToMany(recipients, msg, options)
    ensures |recipients| == 0 ==> r == Err(Empty(RAW_PHONE_FIELD))
    ensures |recipients| > SEND_SMS_MAX_RECIPIENTS
            ==> r == Err(TooManyRecipients(SEND_SMS_MAX_RECIPIENTS, |recipients|))
  {
    var e := CheckCount(RAW_PHONE_FIELD, |recipients|, SEND_SMS_MAX_RECIPIENTS);
    if e.Some? then Err(e.value) else Ok(ToMany(recipients, msg, options))
  }

  /** `SendSms::per_recipient`: a text per number, for 1 to 100 numbers. */
  function SendSmsPerRecipient(messages: PhoneMessages, options: SendOptions)
    : (r: Result<SendSms, ValidationError>)
    ensures r.Ok? <==> 1 <= |messages| <= SEND_SMS_MAX_RECIPIENTS
    ensures r.Ok? ==> r.value == PerRecipient(messages, options)
    ensures |messages| == 0 ==> r == Err(Empty(RAW_PHONE_FIELD))
    ensures |messages| > SEND_SMS_MAX_RECIPIENTS
            ==> r == Err(TooManyRecipients(SEND_SMS_MAX_RECIPIENTS, |messages|))
  {
    var e := CheckCount(RAW_PHONE_FIELD, |messages|, SEND_SMS_MAX_RECIPIENTS);
    if e.Some? then Err(e.value) else Ok(PerRecipient(messages, options))
  }

  /** `CheckCost::to_many`. */
  function CheckCostToMany(recipients: seq<RawPhoneNumber>, msg: MessageText, options: CheckCostOptions)
    : (r: Result<CheckCost, ValidationError>)
    ensures r.Ok? <==> 1 <= |recipients| <= CHECK_COST_MAX_RECIPIENTS
    ensures r.Ok? ==> r.value == CostToMany(recipients, msg, options)
    ensures |recipients| == 0 ==> r == Err(Empty(RAW_PHONE_FIELD))
    ensures |recipients| > CHECK_COST_MAX_RECIPIENTS
            ==> r == Err(TooManyRecipients(CHECK_COST_MAX_RECIPIENTS, |recipients|))
  {
    var e := CheckCount(RAW_PHONE_FIELD, |recipients|, CHECK_COST_MAX_RECIPIENTS);
    if e.Some? then Err(e.value) else Ok(CostToMany(recipients, msg, options))
  }

  /** `CheckCost::per_recipient`. */
  function CheckCostPerRecipient(messages: PhoneMessages, options: CheckCostOptions)
    : (r: Result<CheckCost, ValidationError>)
    ensures r.Ok? <==> 1 <= |messages| <= CHECK_COST_MAX_RECIPIENTS
    ensures r.Ok? ==> r.value == CostPerRecipient(messages, options)
    ensures |messages| == 0 ==> r == Err(Empty(RAW_PHONE_FIELD))
    ensures |messages| > CHECK_COST_MAX_RECIPIENTS
            ==> r == Err(TooManyRecipients(CHECK_COST_MAX_RECIPIENTS, |messages|))
  {
    var e := CheckCount(RAW_PHONE_FIELD, |messages|, CHECK_COST_MAX_RECIPIENTS);
    if e.Some? then Err(e.value) else Ok(CostPerRecipient(messages, options))
  }

  /** `CheckStatus::new`: 1 to 100 message ids. */
  function NewCheckStatus(sms_ids: seq<SmsId>): (r: Result<CheckStatus, ValidationError>)
    ensures r.Ok? <==> 1 <= |sms_ids| <= CHECK_STATUS_MAX_SMS_IDS
    ensures r.Ok? ==> r.value.sms_ids == sms_ids
    ensures |sms_ids| == 0 ==> r == Err(Empty(SMS_ID_FIELD))
    ensures |sms_ids| > CHECK_STATUS_MAX_SMS_IDS
            ==> r == Err(TooManySmsIds(CHECK_STATUS_MAX_SMS_IDS, |sms_ids|))
  {
    if |sms_ids| == 0 then Err(Empty(SMS_ID_FIELD))
    else if |sms_ids| > CHECK_STATUS_MAX_SMS_IDS
    then Err(TooManySmsIds(CHECK_STATUS_MAX_SMS_IDS, |sms_ids|))
    else Ok(CheckStatus(sms_ids))
  }

  /** `CheckStatus::one`: the single-id request, which `NewCheckStatus` also accepts. */
  function CheckStatusOne(sms_id: SmsId): (r: CheckStatus)
    ensures NewCheckStatus([sms_id]) == Ok(r)
  {
    CheckStatus([sms_id])
  }

  /** The recipients of a send request, in the order its lookup registers them. */
  function SendSmsPhones(request: SendSms): (r: seq<RawPhoneNumber>)
    ensures request.ToMany? ==> r == request.recipients
    ensures request.PerRecipient? ==>
              |r| == |request.messages| && forall i | 0 <= i < |r| :: r[i] == request.messages[i].0
  {
    match request
    case ToMany(recipients, _, _) => recipients
    case PerRecipient(messages, _) => seq(|messages|, i requires 0 <= i < |messages| => messages[i].0)
  }

  /** The recipients of a cost request, in the order its lookup registers them. */
  function CheckCostPhones(request: CheckCost): (r: seq<RawPhoneNumber>)
    ensures request.CostToMany? ==> r == request.recipients
    ensures request.CostPerRecipient? ==>
              |r| == |request.messages| && forall i | 0 <= i < |r| :: r[i] == request.messages[i].0
  {
    match request
    case CostToMany(recipients, _, _) => recipients
    case CostPerRecipient(messages, _) => seq(|messages|, i requires 0 <= i < |messages| => messages[i].0)
  }
}
