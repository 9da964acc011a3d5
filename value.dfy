/**
 * Validated request values and the status-code vocabulary of SMS.RU.
 *
 * Every string newtype of the client is a subset type of `string` carrying
 * its invariant: most are "equal to their own trim and non-empty" (a token),
 * a password only needs to be non-empty, and a message needs some
 * non-whitespace character.
 */
module Value {
  import opened Wrappers
  import opened Text
  import opened Numeric
  import opened Validation

  /** A trimmed, non-empty string: what the trimming constructors store. */
  predicate IsToken(s: string) {
    s != [] && IsTrimmed(s)
  }

  type ApiId = s: string | IsToken(s) witness "0"
  type Login = s: string | IsToken(s) witness "0"
  type PartnerId = s: string | IsToken(s) witness "0"
  type SenderId = s: string | IsToken(s) witness "0"
  type SmsId = s: string | IsToken(s) witness "0"
  type CallCheckId = s: string | IsToken(s) witness "0"
  /** A phone number exactly as the caller wrote it, minus surrounding whitespace. */
  type RawPhoneNumber = s: string | IsToken(s) witness "0"
  type Password = s: string | s != [] witness "0"
  type MessageText = s: string | Trim(s) != [] witness "0"

  const API_ID_FIELD: string := "api_id"
  const LOGIN_FIELD: string := "login"
  const PASSWORD_FIELD: string := "password"
  const PARTNER_ID_FIELD: string := "partner_id"
  const SENDER_ID_FIELD: string := "from"
  const MESSAGE_TEXT_FIELD: string := "msg"
  const SMS_ID_FIELD: string := "sms_id"
  const CALL_CHECK_ID_FIELD: string := "check_id"
  const RAW_PHONE_FIELD: string := "to"
  const TIME_FIELD: string := "time"
  const TTL_FIELD: string := "ttl"

  /**
   * The shared rule of the trimming constructors: the trimmed input, or
   * `Empty(field)` when nothing but whitespace was given.
   */
  function NewToken(field: string, value: string): (r: Result<string, ValidationError>)
    ensures r.Ok? <==> !AllWhitespace(value)
    ensures r.Ok? ==> r.value == Trim(value) && IsToken(r.value)
    ensures r.Err? ==> r.error == Empty(field)
  {
    TrimEmpty(value);
    var t := Trim(value);
    if t == [] then Err(Empty(field)) else Ok(t)
  }

  function NewApiId(value: string): (r: Result<ApiId, ValidationError>)
    ensures r.Ok? <==> !AllWhitespace(value)
    ensures r.Ok? ==> r.value == Trim(value)
    ensures r.Err? ==> r.error == Empty(API_ID_FIELD)
  {
    var t :- NewToken(API_ID_FIELD, value);
    Ok(t)
  }

  function NewLogin(value: string): (r: Result<Login, ValidationError>)
    ensures r.Ok? <==> !AllWhitespace(value)
    ensures r.Ok? ==> r.value == Trim(value)
    ensures r.Err? ==> r.error == Empty(LOGIN_FIELD)
  {
    var t :- NewToken(LOGIN_FIELD, value);
    Ok(t)
  }

  function NewPartnerId(value: string): (r: Result<PartnerId, ValidationError>)
    ensures r.Ok? <==> !AllWhitespace(value)
    ensures r.Ok? ==> r.value == Trim(value)
    ensures r.Err? ==> r.error == Empty(PARTNER_ID_FIELD)
  {
    var t :- NewToken(PARTNER_ID_FIELD, value);
    Ok(t)
  }

  function NewSenderId(value: string): (r: Result<SenderId, ValidationError>)
    ensures r.Ok? <==> !AllWhitespace(value)
    ensures r.Ok? ==> r.value == Trim(value)
    ensures r.Err? ==> r.error == Empty(SENDER_ID_FIELD)
  {
    var t :- NewToken(SENDER_ID_FIELD, value);
    Ok(t)
  }

  function NewSmsId(value: string): (r: Result<SmsId, ValidationError>)
    ensures r.Ok? <==> !AllWhitespace(value)
    ensures r.Ok? ==> r.value == Trim(value)
    ensures r.Err? ==> r.error == Empty(SMS_ID_FIELD)
  {
    var t :- NewToken(SMS_ID_FIELD, value);
    Ok(t)
  }

  function NewCallCheckId(value: string): (r: Result<CallCheckId, ValidationError>)
    ensures r.Ok? <==> !AllWhitespace(value)
    ensures r.Ok? ==> r.value == Trim(value)
    ensures r.Err? ==> r.error == Empty(CALL_CHECK_ID_FIELD)
  {
    var t :- NewToken(CALL_CHECK_ID_FIELD, value);
    Ok(t)
  }

  function NewRawPhoneNumber(value: string): (r: Result<RawPhoneNumber, ValidationError>)
    ensures r.Ok? <==> !AllWhitespace(value)
    ensures r.Ok? ==> r.value == Trim(value)
    ensures r.Err? ==> r.error == Empty(RAW_PHONE_FIELD)
  {
    var t :- NewToken(RAW_PHONE_FIELD, value);
    Ok(t)
  }

  /** A password is kept exactly as given, whitespace included; only "" is refused. */
  function NewPassword(value: string): (r: Result<Password, ValidationError>)
    ensures r.Ok? <==> value != []
    ensures r.Ok? ==> r.value == value
    ensures r.Err? ==> r.error == Empty(PASSWORD_FIELD)
  {
    if value == [] then Err(Empty(PASSWORD_FIELD)) else Ok(value)
  }

  /** Message text is kept as given; it is refused when it is all whitespace. */
  function NewMessageText(value: string): (r: Result<MessageText, ValidationError>)
    ensures r.Ok? <==> !AllWhitespace(value)
    ensures r.Ok? ==> r.value == value
    ensures r.Err? ==> r.error == Empty(MESSAGE_TEXT_FIELD)
  {
    TrimEmpty(value);
    if Trim(value) == [] then Err(Empty(MESSAGE_TEXT_FIELD)) else Ok(value)
  }

  /** A value a trimming constructor produced is accepted again unchanged. */
  lemma NewTokenStable(field: string, value: string)
    requires NewToken(field, value).Ok?
    ensures NewToken(field, NewToken(field, value).value) == NewToken(field, value)
  {
    TrimIdempotent(value);
    TrimEmpty(Trim(value));
  }

  /** Scheduled send time in Unix seconds; any `u64` is accepted. */
  type UnixTimestamp = u64

  const TTL_MIN: u16 := 1
  const TTL_MAX: u16 := 1440

  type TtlMinutes = x: u16 | TTL_MIN <= x <= TTL_MAX witness TTL_MIN

  function NewTtlMinutes(value: u16): (r: Result<TtlMinutes, ValidationError>)
    ensures r.Ok? <==> TTL_MIN <= value <= TTL_MAX
    ensures r.Ok? ==> r.value == value
    ensures r.Err? ==> r.error == TtlOutOfRange(TTL_MIN, TTL_MAX, value)
  {
    if !(TTL_MIN <= value <= TTL_MAX) then Err(TtlOutOfRange(TTL_MIN, TTL_MAX, value))
    else Ok(value)
  }

  /** A status code as SMS.RU sent it, known to the client or not. */
  datatype StatusCode = StatusCode(code: i32)

  datatype KnownStatusCode =
    | MessageNotFound
    | RequestOkOrQueued
    | BeingDeliveredToOperator
    | SentInTransit
    | Delivered
    | NotDeliveredTtlExpired
    | NotDeliveredDeletedByOperator
    | NotDeliveredPhoneFailure
    | NotDeliveredUnknown
    | NotDeliveredRejected
    | Read
    | NotDeliveredNoRoute
    | InvalidApiId
    | InsufficientFunds
    | InvalidRecipientOrNoRoute
    | EmptyMessageText
    | SenderNotEnabled
    | MessageTooLong
    | DailyLimitExceeded
    | NoDeliveryRoute
    | InvalidTime
    | RecipientInStopList
    | UsedGetInsteadOfPost
    | MethodNotFound
    | MessageNotUtf8
    | TooManyNumbers
    | RecipientAbroadBlocked
    | RecipientInGlobalStopList
    | ForbiddenWordInText
    | MissingDisclaimerPhrase
    | ServiceTemporarilyUnavailable
    | SenderMustMatchBrand
    | ExceededDailyLimitToNumber
    | ExceededIdenticalPerMinute
    | ExceededIdenticalPerDay
    | ExceededRepeatSendLimit
    | InvalidToken
    | InvalidAuth
    | AccountNotConfirmed
    | ConfirmationCodeWrong
    | TooManyConfirmationCodes
    | TooManyWrongAttempts
    | ServerError
    | LimitIpCountryMismatchCategory1
    | LimitIpCountryMismatchCategory2
    | LimitTooManyToCountry
    | LimitTooManyForeignAuth
    | LimitTooManyFromIp
    | LimitHostingProviderIp
    | InvalidEndUserIp
    | LimitTooManyCalls
    | CountryBlocked
    | CallbackUrlInvalid
    | CallbackHandlerNotFound
    | CallCheckNotConfirmedYet
    | CallCheckConfirmed
    | CallCheckExpiredOrInvalidCheckId

  /** The wire code of each known status: the table read in the other direction. */
  function KnownCode(k: KnownStatusCode): i32
  {
    match k
    case MessageNotFound => -1
    case RequestOkOrQueued => 100
    case BeingDeliveredToOperator => 101
    case SentInTransit => 102
    case Delivered => 103
    case NotDeliveredTtlExpired => 104
    case NotDeliveredDeletedByOperator => 105
    case NotDeliveredPhoneFailure => 106
    case NotDeliveredUnknown => 107
    case NotDeliveredRejected => 108
    case Read => 110
    case NotDeliveredNoRoute => 150
    case InvalidApiId => 200
    case InsufficientFunds => 201
    case InvalidRecipientOrNoRoute => 202
    case EmptyMessageText => 203
    case SenderNotEnabled => 204
    case MessageTooLong => 205
    case DailyLimitExceeded => 206
    case NoDeliveryRoute => 207
    case InvalidTime => 208
    case RecipientInStopList => 209
    case UsedGetInsteadOfPost => 210
    case MethodNotFound => 211
    case MessageNotUtf8 => 212
    case TooManyNumbers => 213
    case RecipientAbroadBlocked => 214
    case RecipientInGlobalStopList => 215
    case ForbiddenWordInText => 216
    case MissingDisclaimerPhrase => 217
    case ServiceTemporarilyUnavailable => 220
    case SenderMustMatchBrand => 221
    case ExceededDailyLimitToNumber => 230
    case ExceededIdenticalPerMinute => 231
    case ExceededIdenticalPerDay => 232
    case ExceededRepeatSendLimit => 233
    case InvalidToken => 300
    case InvalidAuth => 301
    case AccountNotConfirmed => 302
    case ConfirmationCodeWrong => 303
    case TooManyConfirmationCodes => 304
    case TooManyWrongAttempts => 305
    case ServerError => 500
    case LimitIpCountryMismatchCategory1 => 501
    case LimitIpCountryMismatchCategory2 => 502
    case LimitTooManyToCountry => 503
    case LimitTooManyForeignAuth => 504
    case LimitTooManyFromIp => 505
    case LimitHostingProviderIp => 506
    case InvalidEndUserIp => 507
    case LimitTooManyCalls => 508
    case CountryBlocked => 550
    case CallbackUrlInvalid => 901
    case CallbackHandlerNotFound => 902
    case CallCheckNotConfirmedYet => 400
    case CallCheckConfirmed => 401
    case CallCheckExpiredOrInvalidCheckId => 402
  }

  /** `KnownStatusCode::from_code`: the known status a wire code stands for. */
  function KnownFromCode(code: i32): (r: Option<KnownStatusCode>)
  {
    match code
    case -1 => Some(MessageNotFound)
    case 100 => Some(RequestOkOrQueued)
    case 101 => Some(BeingDeliveredToOperator)
    case 102 => Some(SentInTransit)
    case 103 => Some(Delivered)
    case 104 => Some(NotDeliveredTtlExpired)
    case 105 => Some(NotDeliveredDeletedByOperator)
    case 106 => Some(NotDeliveredPhoneFailure)
    case 107 => Some(NotDeliveredUnknown)
    case 108 => Some(NotDeliveredRejected)
    case 110 => Some(Read)
    case 150 => Some(NotDeliveredNoRoute)
    case 200 => Some(InvalidApiId)
    case 201 => Some(InsufficientFunds)
    case 202 => Some(InvalidRecipientOrNoRoute)
    case 203 => Some(EmptyMessageText)
    case 204 => Some(SenderNotEnabled)
    case 205 => Some(MessageTooLong)
    case 206 => Some(DailyLimitExceeded)
    case 207 => Some(NoDeliveryRoute)
    case 208 => Some(InvalidTime)
    case 209 => Some(RecipientInStopList)
    case 210 => Some(UsedGetInsteadOfPost)
    case 211 => Some(MethodNotFound)
    case 212 => Some(MessageNotUtf8)
    case 213 => Some(TooManyNumbers)
    case 214 => Some(RecipientAbroadBlocked)
    case 215 => Some(RecipientInGlobalStopList)
    case 216 => Some(ForbiddenWordInText)
    case 217 => Some(MissingDisclaimerPhrase)
    case 220 => Some(ServiceTemporarilyUnavailable)
    case 221 => Some(SenderMustMatchBrand)
    case 230 => Some(ExceededDailyLimitToNumber)
    case 231 => Some(ExceededIdenticalPerMinute)
    case 232 => Some(ExceededIdenticalPerDay)
    case 233 => Some(ExceededRepeatSendLimit)
    case 300 => Some(InvalidToken)
    case 301 => Some(InvalidAuth)
    case 302 => Some(AccountNotConfirmed)
    case 303 => Some(ConfirmationCodeWrong)
    case 304 => Some(TooManyConfirmationCodes)
    case 305 => Some(TooManyWrongAttempts)
    case 500 => Some(ServerError)
    case 501 => Some(LimitIpCountryMismatchCategory1)
    case 502 => Some(LimitIpCountryMismatchCategory2)
    case 503 => Some(LimitTooManyToCountry)
    case 504 => Some(LimitTooManyForeignAuth)
    case 505 => Some(LimitTooManyFromIp)
    case 506 => Some(LimitHostingProviderIp)
    case 507 => Some(InvalidEndUserIp)
    case 508 => Some(LimitTooManyCalls)
    case 550 => Some(CountryBlocked)
    case 901 => Some(CallbackUrlInvalid)
    case 902 => Some(CallbackHandlerNotFound)
    case 400 => Some(CallCheckNotConfirmedYet)
    case 401 => Some(CallCheckConfirmed)
    case 402 => Some(CallCheckExpiredOrInvalidCheckId)
    case _ => None
  }

  /** A recognised code is the wire code of the status it was recognised as. */
  lemma KnownFromCodeSound(code: i32)
    requires KnownFromCode(code).Some?
    ensures KnownCode(KnownFromCode(code).value) == code
  {
    if code < 104 { KnownFromCodeSoundPart0(code); }
    else if code < 150 { KnownFromCodeSoundPart1(code); }
    else if code < 205 { KnownFromCodeSoundPart2(code); }
    else if code < 211 { KnownFromCodeSoundPart3(code); }
    else if code < 217 { KnownFromCodeSoundPart4(code); }
    else if code < 232 { KnownFromCodeSoundPart5(code); }
    else if code < 303 { KnownFromCodeSoundPart6(code); }
    else if code < 401 { KnownFromCodeSoundPart7(code); }
    else if code < 503 { KnownFromCodeSoundPart8(code); }
    else if code < 508 { KnownFromCodeSoundPart9(code); }
    else { KnownFromCodeSoundPart10(code); }
  }

  lemma KnownFromCodeSoundPart0(code: i32)
    requires KnownFromCode(code).Some? && code < 104
    ensures KnownCode(KnownFromCode(code).value) == code
  {
  }

  lemma KnownFromCodeSoundPart1(code: i32)
    requires KnownFromCode(code).Some? && 104 <= code && code < 150
    ensures KnownCode(KnownFromCode(code).value) == code
  {
  }

  lemma KnownFromCodeSoundPart2(code: i32)
    requires KnownFromCode(code).Some? && 150 <= code && code < 205
    ensures KnownCode(KnownFromCode(code).value) == code
  {
  }

  lemma KnownFromCodeSoundPart3(code: i32)
    requires KnownFromCode(code).Some? && 205 <= code && code < 211
    ensures KnownCode(KnownFromCode(code).value) == code
  {
  }

  lemma KnownFromCodeSoundPart4(code: i32)
    requires KnownFromCode(code).Some? && 211 <= code && code < 217
    ensures KnownCode(KnownFromCode(code).value) == code
  {
  }

  lemma KnownFromCodeSoundPart5(code: i32)
    requires KnownFromCode(code).Some? && 217 <= code && code < 232
    ensures KnownCode(KnownFromCode(code).value) == code
  {
  }

  lemma KnownFromCodeSoundPart6(code: i32)
    requires KnownFromCode(code).Some? && 232 <= code && code < 303
    ensures KnownCode(KnownFromCode(code).value) == code
  {
  }

  lemma KnownFromCodeSoundPart7(code: i32)
    requires KnownFromCode(code).Some? && 303 <= code && code < 401
    ensures KnownCode(KnownFromCode(code).value) == code
  {
  }

  lemma KnownFromCodeSoundPart8(code: i32)
    requires KnownFromCode(code).Some? && 401 <= code && code < 503
    ensures KnownCode(KnownFromCode(code).value) == code
  {
  }

  lemma KnownFromCodeSoundPart9(code: i32)
    requires KnownFromCode(code).Some? && 503 <= code && code < 508
    ensures KnownCode(KnownFromCode(code).value) == code
  {
  }

  lemma KnownFromCodeSoundPart10(code: i32)
    requires KnownFromCode(code).Some? && 508 <= code
    ensures KnownCode(KnownFromCode(code).value) == code
  {
  }

  /** Every known status is recognised again from its own wire code. */
  lemma KnownFromCodeComplete(k: KnownStatusCode)
    ensures KnownFromCode(KnownCode(k)) == Some(k)
  {
    if KnownCode(k) < 104 { KnownFromCodeCompletePart0(k); }
    else if KnownCode(k) < 150 { KnownFromCodeCompletePart1(k); }
    else if KnownCode(k) < 205 { KnownFromCodeCompletePart2(k); }
    else if KnownCode(k) < 211 { KnownFromCodeCompletePart3(k); }
    else if KnownCode(k) < 217 { KnownFromCodeCompletePart4(k); }
    else if KnownCode(k) < 232 { KnownFromCodeCompletePart5(k); }
    else if KnownCode(k) < 303 { KnownFromCodeCompletePart6(k); }
    else if KnownCode(k) < 401 { KnownFromCodeCompletePart7(k); }
    else if KnownCode(k) < 503 { KnownFromCodeCompletePart8(k); }
    else if KnownCode(k) < 508 { KnownFromCodeCompletePart9(k); }
    else { KnownFromCodeCompletePart10(k); }
  }

  lemma KnownFromCodeCompletePart0(k: KnownStatusCode)
    requires KnownCode(k) < 104
    ensures KnownFromCode(KnownCode(k)) == Some(k)
  {
  }

  lemma KnownFromCodeCompletePart1(k: KnownStatusCode)
    requires 104 <= KnownCode(k) && KnownCode(k) < 150
    ensures KnownFromCode(KnownCode(k)) == Some(k)
  {
  }

  lemma KnownFromCodeCompletePart2(k: KnownStatusCode)
    requires 150 <= KnownCode(k) && KnownCode(k) < 205
    ensures KnownFromCode(KnownCode(k)) == Some(k)
  {
  }

  lemma KnownFromCodeCompletePart3(k: KnownStatusCode)
    requires 205 <= KnownCode(k) && KnownCode(k) < 211
    ensures KnownFromCode(KnownCode(k)) == Some(k)
  {
  }

  lemma KnownFromCodeCompletePart4(k: KnownStatusCode)
    requires 211 <= KnownCode(k) && KnownCode(k) < 217
    ensures KnownFromCode(KnownCode(k)) == Some(k)
  {
  }

  lemma KnownFromCodeCompletePart5(k: KnownStatusCode)
    requires 217 <= KnownCode(k) && KnownCode(k) < 232
    ensures KnownFromCode(KnownCode(k)) == Some(k)
  {
  }

  lemma KnownFromCodeCompletePart6(k: KnownStatusCode)
    requires 232 <= KnownCode(k) && KnownCode(k) < 303
    ensures KnownFromCode(KnownCode(k)) == Some(k)
  {
  }

  lemma KnownFromCodeCompletePart7(k: KnownStatusCode)
    requires 303 <= KnownCode(k) && KnownCode(k) < 401
    ensures KnownFromCode(KnownCode(k)) == Some(k)
  {
  }

  lemma KnownFromCodeCompletePart8(k: KnownStatusCode)
    requires 401 <= KnownCode(k) && KnownCode(k) < 503
    ensures KnownFromCode(KnownCode(k)) == Some(k)
  {
  }

  lemma KnownFromCodeCompletePart9(k: KnownStatusCode)
    requires 503 <= KnownCode(k) && KnownCode(k) < 508
    ensures KnownFromCode(KnownCode(k)) == Some(k)
  {
  }

  lemma KnownFromCodeCompletePart10(k: KnownStatusCode)
    requires 508 <= KnownCode(k)
    ensures KnownFromCode(KnownCode(k)) == Some(k)
  {
  }

  predicate KnownIsRetryable(k: KnownStatusCode) {
    k in {ServiceTemporarilyUnavailable, TooManyConfirmationCodes, TooManyWrongAttempts, ServerError}
  }

  predicate KnownIsAuthError(k: KnownStatusCode) {
    k in {InvalidApiId, InvalidToken, InvalidAuth, AccountNotConfirmed}
  }

  /** `StatusCode::is_retryable`: exactly the codes 220, 304, 305 and 500. */
  function IsRetryable(c: StatusCode): (r: bool)
    ensures r <==> c.code == 220 || c.code == 304 || c.code == 305 || c.code == 500
  {
    var k := KnownFromCode(c.code);
    k.Some? && KnownIsRetryable(k.value)
  }

  /** `StatusCode::is_auth_error`: exactly the codes 200, 300, 301 and 302. */
  function IsAuthError(c: StatusCode): (r: bool)
    ensures r <==> c.code == 200 || c.code == 300 || c.code == 301 || c.code == 302
  {
    var k := KnownFromCode(c.code);
    k.Some? && KnownIsAuthError(k.value)
  }

  /** No code is both retryable and an authentication failure. */
  lemma RetryableNotAuth(c: StatusCode)
    ensures !(IsRetryable(c) && IsAuthError(c))
  {
  }

  /** A call-authentication status as SMS.RU sent it. */
  datatype CallCheckStatusCode = CallCheckStatusCode(code: i32)

  datatype KnownCallCheckStatusCode = NotConfirmedYet | Confirmed | ExpiredOrInvalidCheckId

  function KnownCallCheckCode(k: KnownCallCheckStatusCode): i32
  {
    match k
    case NotConfirmedYet => 400
    case Confirmed => 401
    case ExpiredOrInvalidCheckId => 402
  }

  /** `KnownCallCheckStatusCode::from_code`: 400, 401 and 402, and nothing else. */
  function KnownCallCheckFromCode(code: i32): (r: Option<KnownCallCheckStatusCode>)
    ensures r.Some? <==> 400 <= code <= 402
    ensures r.Some? ==> KnownCallCheckCode(r.value) == code
  {
    match code
    case 400 => Some(NotConfirmedYet)
    case 401 => Some(Confirmed)
    case 402 => Some(ExpiredOrInvalidCheckId)
    case _ => None
  }

  /** The call-check codes name the same states in the general status table. */
  lemma CallCheckCodesAgree(code: i32)
    requires KnownCallCheckFromCode(code).Some?
    ensures KnownFromCode(code).Some?
    ensures KnownFromCode(code).value
            == match KnownCallCheckFromCode(code).value
               case NotConfirmedYet => CallCheckNotConfirmedYet
               case Confirmed => CallCheckConfirmed
               case ExpiredOrInvalidCheckId => CallCheckExpiredOrInvalidCheckId
  {
  }

  /** Display and wire form of an IP address, kept as the text `to_string` gives. */
  datatype IpAddr = IpAddr(text: string)

  /** Stop-list note; it is sent as written. */
  datatype StoplistText = StoplistText(text: string)

  /** Callback URL accepted by the client's URL check. */
  datatype CallbackUrl = CallbackUrl(url: string)
}
