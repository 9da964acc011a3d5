/**
 * The typed answers the client returns. Every answer carries the envelope
 * SMS.RU puts on each reply (status, numeric status code, optional text);
 * per-item results keep their own status, so an item `ERROR` can sit inside
 * an `OK` reply. Amounts of money are kept as the text SMS.RU sent.
 */
module Response {
  import opened Wrappers
  import opened Numeric
  import opened Value

  /** The closed reply status: `OK` or `ERROR`. */
  datatype Status = StatusOk | StatusError

  datatype SmsResult = SmsResult(
    status: Status,
    status_code: StatusCode,
    status_text: Option<string>,
    sms_id: Option<string>)

  datatype SendSmsResponse = SendSmsResponse(
    status: Status,
    status_code: StatusCode,
    status_text: Option<string>,
    balance: Option<string>,
    sms: map<RawPhoneNumber, SmsResult>)

  datatype SmsStatusResult = SmsStatusResult(
    status: Status,
    status_code: StatusCode,
    status_text: Option<string>,
    cost: Option<string>)

  datatype CheckStatusResponse = CheckStatusResponse(
    status: Status,
    status_code: StatusCode,
    status_text: Option<string>,
    balance: Option<string>,
    sms: map<SmsId, SmsStatusResult>)

  datatype SmsCostResult = SmsCostResult(
    status: Status,
    status_code: StatusCode,
    status_text: Option<string>,
    cost: Option<string>,
    sms: Option<u32>)

  datatype CheckCostResponse = CheckCostResponse(
    status: Status,
    status_code: StatusCode,
    status_text: Option<string>,
    total_cost: Option<string>,
    total_sms: Option<u32>,
    sms: map<RawPhoneNumber, SmsCostResult>)

  datatype StartCallAuthResponse = StartCallAuthResponse(
    status: Status,
    status_code: StatusCode,
    status_text: Option<string>,
    check_id: Option<CallCheckId>,
    call_phone: Option<RawPhoneNumber>,
    call_phone_pretty: Option<string>,
    call_phone_html: Option<string>)

  datatype CheckCallAuthStatusResponse = CheckCallAuthStatusResponse(
    status: Status,
    status_code: StatusCode,
    status_text: Option<string>,
    check_status: Option<CallCheckStatusCode>,
    check_status_text: Option<string>)

  datatype StatusOnlyResponse = StatusOnlyResponse(
    status: Status,
    status_code: StatusCode,
    status_text: Option<string>)

  datatype BalanceResponse = BalanceResponse(
    status: Status,
    status_code: StatusCode,
    status_text: Option<string>,
    balance: Option<string>)

  datatype FreeUsageResponse = FreeUsageResponse(
    status: Status,
    status_code: StatusCode,
    status_text: Option<string>,
    total_free: Option<u32>,
    used_today: Option<u32>)

  datatype LimitUsageResponse = LimitUsageResponse(
    status: Status,
    status_code: StatusCode,
    status_text: Option<string>,
    total_limit: Option<u32>,
    used_today: Option<u32>)

  datatype SendersResponse = SendersResponse(
    status: Status,
    status_code: StatusCode,
    status_text: Option<string>,
    senders: seq<string>)

  datatype StoplistResponse = StoplistResponse(
    status: Status,
    status_code: StatusCode,
    status_text: Option<string>,
    stoplist: map<RawPhoneNumber, string>)

  datatype CallbacksResponse = CallbacksResponse(
    status: Status,
    status_code: StatusCode,
    status_text: Option<string>,
    callback: seq<CallbackUrl>)
}
