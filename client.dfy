/**
 * The client layer: credentials, the posted form, the HTTP transport as a
 * recorder of what was posted, and the classification every call applies
 * to the reply (HTTP status first, then the decoder, then the top-level
 * API status). The transport answers through a function it is given, and
 * the JSON text of a reply is read by a parser that is a parameter too.
 */
module Client {
  import opened Wrappers
  import opened Numeric
  import opened Text
  import opened JsonValue
  import opened Value
  import opened Validation
  import opened Response
  import opened Form
  import opened Transport
  import Request
  import S = SendSmsTransport
  import C = CheckCostTransport
  import T = CheckStatusTransport
  import A = AccountTransport
  import CA = CallCheckAddTransport
  import CS = CallCheckStatusTransport
  import SL = StoplistTransport
  import CB = CallbackTransport

  // ---------------------------------------------------------------- credentials

  /** `Auth`: an `api_id` token, or a login and its password. */
  datatype Auth = ApiIdAuth(api_id: ApiId) | LoginPasswordAuth(login: Login, password: Password)

  /** `Auth::api_id`: the token is trimmed; a blank one is refused. */
  function NewApiIdAuth(value: string): (r: Result<Auth, ValidationError>)
    ensures r.Ok? <==> !AllWhitespace(value)
    ensures r.Ok? ==> r.value == ApiIdAuth(Trim(value))
    ensures r.Err? ==> r.error == Empty(API_ID_FIELD)
  {
    var id :- NewApiId(value);
    Ok(ApiIdAuth(id))
  }

  /**
   * `Auth::login_password`: the login is trimmed and checked first, so a
   * blank login is reported even when the password is empty too; the
   * password is kept as given and only "" is refused.
   */
  function NewLoginPasswordAuth(login: string, password: string): (r: Result<Auth, ValidationError>)
    ensures r.Ok? <==> !AllWhitespace(login) && password != []
    ensures r.Ok? ==> r.value == LoginPasswordAuth(Trim(login), password)
    ensures AllWhitespace(login) ==> r == Err(Empty(LOGIN_FIELD))
    ensures !AllWhitespace(login) && password == [] ==> r == Err(Empty(PASSWORD_FIELD))
  {
    var l :- NewLogin(login);
    var p :- NewPassword(password);
    Ok(LoginPasswordAuth(l, p))
  }

  /** The credential pairs, in the order `push_form_params` appends them. */
  function AuthParams(auth: Auth): seq<Param> {
    match auth
    case ApiIdAuth(id) => [(API_ID_FIELD, id)]
    case LoginPasswordAuth(l, p) => [(LOGIN_FIELD, l), (PASSWORD_FIELD, p)]
  }

  /** `Auth::push_form_params`: the credentials go after what the list already holds. */
  method PushFormParams(params: seq<Param>, auth: Auth) returns (out: seq<Param>)
    ensures out == params + AuthParams(auth)
  {
    out := params;
    match auth {
      case ApiIdAuth(id) =>
        out := out + [(API_ID_FIELD, id)];
      case LoginPasswordAuth(l, p) =>
        out := out + [(LOGIN_FIELD, l)];
        out := out + [(PASSWORD_FIELD, p)];
    }
  }

  /** The list a call posts: the credentials, then the endpoint's own form. */
  function Posted(auth: Auth, form: seq<Param>): seq<Param> {
    AuthParams(auth) + form
  }

  predicate IsCredentialName(name: string) {
    name == API_ID_FIELD || name == LOGIN_FIELD || name == PASSWORD_FIELD
  }

  /**
   * Reading the posted list: an `api_id` auth shows exactly its token under
   * `api_id` and no login; a login auth shows its login and password and no
   * `api_id`; whatever the endpoint form says under any other name reads
   * unchanged; and the credentials win over a form that repeats their name.
   */
  lemma PostedFields(auth: Auth, form: seq<Param>, name: string)
    ensures |AuthParams(auth)| == (if auth.ApiIdAuth? then 1 else 2)
    ensures Posted(auth, form)[..|AuthParams(auth)|] == AuthParams(auth)
    ensures Posted(auth, form)[|AuthParams(auth)|..] == form
    ensures auth.ApiIdAuth? ==> FirstValue(Posted(auth, form), API_ID_FIELD) == Some(auth.api_id)
    ensures auth.LoginPasswordAuth? ==>
      FirstValue(Posted(auth, form), LOGIN_FIELD) == Some(auth.login)
      && FirstValue(Posted(auth, form), PASSWORD_FIELD) == Some(auth.password)
    ensures !IsCredentialName(name) ==> FirstValue(Posted(auth, form), name) == FirstValue(form, name)
    ensures auth.ApiIdAuth? && (name == LOGIN_FIELD || name == PASSWORD_FIELD) ==>
      FirstValue(Posted(auth, form), name) == FirstValue(form, name)
    ensures auth.LoginPasswordAuth? && name == API_ID_FIELD ==>
      FirstValue(Posted(auth, form), name) == FirstValue(form, name)
  {
    var a := AuthParams(auth);
    FirstValueAppend(a, form, name);
    FirstValueAppend(a, form, API_ID_FIELD);
    FirstValueAppend(a, form, LOGIN_FIELD);
    FirstValueAppend(a, form, PASSWORD_FIELD);
    if auth.LoginPasswordAuth? {
      assert a[1..] + form == (a + form)[1..];
      FirstValueAppend(a[1..], form, PASSWORD_FIELD);
    }
  }

  /** The constructors of the client's tests: a blank token, an empty login and an empty password are all refused. */
  lemma AuthExamples()
    ensures NewApiIdAuth("   ") == Err(Empty(API_ID_FIELD))
    ensures NewLoginPasswordAuth("", "pass") == Err(Empty(LOGIN_FIELD))
    ensures NewLoginPasswordAuth("user", "") == Err(Empty(PASSWORD_FIELD))
  {
    assert AllWhitespace("   ");
    assert !AllWhitespace("user") by { assert "user"[0] == 'u'; }
  }

  // ---------------------------------------------------------------- transport

  /** `HttpResponse`: the status line's code and the body as text. */
  datatype HttpResponse = HttpResponse(status: u16, body: string)

  /**
   * `HttpTransport`: posting a form answers with `respond(url, params)` or
   * with a failure message, and every post is recorded, so a call that
   * must not reach the network can be seen not to.
   */
  class HttpTransport {
    var posted: seq<(string, seq<Param>)>
    const respond: (string, seq<Param>) -> Result<HttpResponse, string>

    constructor (respond: (string, seq<Param>) -> Result<HttpResponse, string>)
      ensures posted == [] && this.respond == respond
    {
      posted := [];
      this.respond := respond;
    }

    /** `post_form`. */
    method PostForm(url: string, params: seq<Param>) returns (r: Result<HttpResponse, string>)
      modifies this
      ensures posted == old(posted) + [(url, params)]
      ensures r == respond(url, params)
    {
      posted := posted + [(url, params)];
      r := respond(url, params);
    }
  }

  // ---------------------------------------------------------------- errors and classification

  /** `SmsRuError`. The transport failure and the fixed message of an unsupported format keep their text only. */
  datatype SmsRuError =
    | TransportFailure(message: string)
    | HttpStatus(status: u16, body: Option<string>)
    | Api(status_code: StatusCode, status_text: Option<string>)
    | Parse(cause: TransportError)
    | UnsupportedResponseFormat(message: string)
    | Validation(invalid: ValidationError)

  predicate IsSuccess(status: u16) {
    200 <= status <= 299
  }

  /** The body kept with a non-2xx status: nothing when it is blank, otherwise all of it, untrimmed. */
  function ErrorBody(body: string): (r: Option<string>)
    ensures r.None? <==> AllWhitespace(body)
    ensures r.Some? ==> r.value == body
  {
    TrimEmpty(body);
    if Trim(body) == [] then None else Some(body)
  }

  /**
   * What every call does with the transport's answer: a failure is
   * `TransportFailure`; a status outside 200..=299 is `HttpStatus`; a body
   * the decoder refuses is `Parse`; a decoded top-level status that is not
   * `OK` is `Api` with the decoded code and text; otherwise the decoded
   * value comes back unchanged.
   */
  function Classify<R>(response: Result<HttpResponse, string>, decode: string -> Result<R, TransportError>,
                       envelopeOf: R -> Envelope): (r: Result<R, SmsRuError>)
    ensures response.Err? ==> r == Err(TransportFailure(response.error))
    ensures response.Ok? && !IsSuccess(response.value.status) ==>
      r == Err(HttpStatus(response.value.status, ErrorBody(response.value.body)))
    ensures response.Ok? && IsSuccess(response.value.status) && decode(response.value.body).Err? ==>
      r == Err(Parse(decode(response.value.body).error))
    ensures response.Ok? && IsSuccess(response.value.status) && decode(response.value.body).Ok? ==>
      var e := envelopeOf(decode(response.value.body).value);
      e.status != StatusOk ==> r == Err(Api(e.status_code, e.status_text))
    ensures r.Ok? <==>
      response.Ok? && IsSuccess(response.value.status) && decode(response.value.body).Ok?
      && envelopeOf(decode(response.value.body).value).status == StatusOk
    ensures r.Ok? ==> r.value == decode(response.value.body).value
  {
    match response
    case Err(message) => Err(TransportFailure(message))
    case Ok(http) =>
      if !IsSuccess(http.status) then Err(HttpStatus(http.status, ErrorBody(http.body)))
      else
        match decode(http.body)
        case Err(e) => Err(Parse(e))
        case Ok(parsed) =>
          var e := envelopeOf(parsed);
          if e.status != StatusOk then Err(Api(e.status_code, e.status_text)) else Ok(parsed)
  }

  /** A body that is not JSON at all is the decoders' `InvalidJson`; JSON text goes to the reader. */
  function BodyDecoder<R>(parse: string -> Option<Json>, read: Json -> Result<R, TransportError>)
    : string -> Result<R, TransportError>
  {
    body => if parse(body).Some? then read(parse(body).value) else Err(InvalidJson)
  }

  /** The HTTP-level cases of the client's tests: a 500 keeps its body, a blank 503 body is none. */
  lemma ClassifyHttpExamples<R>(decode: string -> Result<R, TransportError>, envelopeOf: R -> Envelope)
    ensures Classify(Ok(HttpResponse(500, "oops")), decode, envelopeOf) == Err(HttpStatus(500, Some("oops")))
    ensures Classify(Ok(HttpResponse(503, "   ")), decode, envelopeOf) == Err(HttpStatus(503, None))
  {
    assert !AllWhitespace("oops") by { assert "oops"[0] == 'o'; }
    assert AllWhitespace("   ");
  }

  /** Text the JSON parser refuses is a `Parse` error whatever the reader would have said. */
  lemma ClassifyUnparsable<R>(status: u16, body: string, parse: string -> Option<Json>,
                              read: Json -> Result<R, TransportError>, envelopeOf: R -> Envelope)
    requires IsSuccess(status) && parse(body).None?
    ensures Classify(Ok(HttpResponse(status, body)), BodyDecoder(parse, read), envelopeOf) == Err(Parse(InvalidJson))
  {
  }

  /** The top-level status of each response, which `Classify` inspects. */
  function SendSmsEnvelope(r: SendSmsResponse): Envelope { Envelope(r.status, r.status_code, r.status_text) }
  function CheckCostEnvelope(r: CheckCostResponse): Envelope { Envelope(r.status, r.status_code, r.status_text) }
  function CheckStatusEnvelope(r: CheckStatusResponse): Envelope { Envelope(r.status, r.status_code, r.status_text) }
  function StartCallAuthEnvelope(r: StartCallAuthResponse): Envelope { Envelope(r.status, r.status_code, r.status_text) }
  function CallAuthStatusEnvelope(r: CheckCallAuthStatusResponse): Envelope { Envelope(r.status, r.status_code, r.status_text) }
  function StatusOnlyEnvelope(r: StatusOnlyResponse): Envelope { Envelope(r.status, r.status_code, r.status_text) }
  function BalanceEnvelope(r: BalanceResponse): Envelope { Envelope(r.status, r.status_code, r.status_text) }
  function FreeUsageEnvelope(r: FreeUsageResponse): Envelope { Envelope(r.status, r.status_code, r.status_text) }
  function LimitUsageEnvelope(r: LimitUsageResponse): Envelope { Envelope(r.status, r.status_code, r.status_text) }
  function SendersEnvelope(r: SendersResponse): Envelope { Envelope(r.status, r.status_code, r.status_text) }
  function StoplistEnvelope(r: StoplistResponse): Envelope { Envelope(r.status, r.status_code, r.status_text) }
  function CallbacksEnvelope(r: CallbacksResponse): Envelope { Envelope(r.status, r.status_code, r.status_text) }

  /** The readers that need the request (to map reply keys back) or a foreign helper. */
  function SendSmsReader(request: Request.SendSms, render: string -> string): Json -> Result<SendSmsResponse, TransportError> {
    j => S.DecodeSendSms(request, j, render)
  }

  function CheckCostReader(request: Request.CheckCost): Json -> Result<CheckCostResponse, TransportError> {
    j => C.DecodeCheckCost(request, j)
  }

  function CheckStatusReader(request: Request.CheckStatus): Json -> Result<CheckStatusResponse, TransportError> {
    j => T.DecodeCheckStatus(request, j)
  }

  function CallbacksReader(newUrl: string -> Option<CallbackUrl>): Json -> Result<CallbacksResponse, TransportError> {
    j => CB.DecodeCallbacks(j, newUrl)
  }

  // ---------------------------------------------------------------- endpoints

  /** The sixteen SMS.RU methods the client calls, in the order the client declares their endpoints. */
  datatype Endpoint =
    | SendEndpoint | CostEndpoint | StatusEndpoint | CallcheckAddEndpoint | CallcheckStatusEndpoint
    | AuthCheckEndpoint | MyBalanceEndpoint | MyFreeEndpoint | MyLimitEndpoint | MySendersEndpoint
    | StoplistAddEndpoint | StoplistDelEndpoint | StoplistGetEndpoint
    | CallbackAddEndpoint | CallbackDelEndpoint | CallbackGetEndpoint

  const ENDPOINT_COUNT: nat := 16

  /** Where each method's URL sits in an `EndpointUrls` table. */
  function EndpointIndex(e: Endpoint): (r: nat)
    ensures r < ENDPOINT_COUNT && EndpointAt(r) == e
  {
    match e
    case SendEndpoint => 0
    case CostEndpoint => 1
    case StatusEndpoint => 2
    case CallcheckAddEndpoint => 3
    case CallcheckStatusEndpoint => 4
    case AuthCheckEndpoint => 5
    case MyBalanceEndpoint => 6
    case MyFreeEndpoint => 7
    case MyLimitEndpoint => 8
    case MySendersEndpoint => 9
    case StoplistAddEndpoint => 10
    case StoplistDelEndpoint => 11
    case StoplistGetEndpoint => 12
    case CallbackAddEndpoint => 13
    case CallbackDelEndpoint => 14
    case CallbackGetEndpoint => 15
  }

  function EndpointAt(i: nat): Endpoint
    requires i < ENDPOINT_COUNT
  {
    [SendEndpoint, CostEndpoint, StatusEndpoint, CallcheckAddEndpoint, CallcheckStatusEndpoint,
     AuthCheckEndpoint, MyBalanceEndpoint, MyFreeEndpoint, MyLimitEndpoint, MySendersEndpoint,
     StoplistAddEndpoint, StoplistDelEndpoint, StoplistGetEndpoint,
     CallbackAddEndpoint, CallbackDelEndpoint, CallbackGetEndpoint][i]
  }

  /** The default URLs, in `EndpointIndex` order. */
  const DEFAULT_ENDPOINTS: seq<string> := [
    "https://sms.ru/sms/send",
    "https://sms.ru/sms/cost",
    "https://sms.ru/sms/status",
    "https://sms.ru/callcheck/add",
    "https://sms.ru/callcheck/status",
    "https://sms.ru/auth/check",
    "https://sms.ru/my/balance",
    "https://sms.ru/my/free",
    "https://sms.ru/my/limit",
    "https://sms.ru/my/senders",
    "https://sms.ru/stoplist/add",
    "https://sms.ru/stoplist/del",
    "https://sms.ru/stoplist/get",
    "https://sms.ru/callback/add",
    "https://sms.ru/callback/del",
    "https://sms.ru/callback/get"]

  /** The sixteen `*_endpoint` fields of the builder and the client, one URL per method. */
  type EndpointUrls = s: seq<string> | |s| == ENDPOINT_COUNT witness DEFAULT_ENDPOINTS

  /** `SmsRuClientBuilder`: the credentials and one URL per method. */
  class SmsRuClientBuilder {
    var auth: Auth
    var endpoints: EndpointUrls

    function Url(e: Endpoint): string
      reads this
    {
      endpoints[EndpointIndex(e)]
    }

    /** `SmsRuClientBuilder::new`: the given credentials and the default URLs. */
    constructor (auth: Auth)
      ensures this.auth == auth && endpoints == DEFAULT_ENDPOINTS
    {
      this.auth := auth;
      endpoints := DEFAULT_ENDPOINTS;
    }

    /** `endpoint`: one URL for all sixteen methods; the credentials stay. */
    method SetAllEndpoints(url: string)
      modifies this
      ensures auth == old(auth)
      ensures forall e: Endpoint :: Url(e) == url
    {
      endpoints := seq(ENDPOINT_COUNT, _ => url);
    }

    /** `Url(SendEndpoint)`, `Url(CostEndpoint)`, ... `Url(CallbackGetEndpoint)`: the one URL named changes, no other. */
    method SetEndpoint(which: Endpoint, url: string)
      modifies this
      ensures auth == old(auth)
      ensures Url(which) == url
      ensures forall e: Endpoint | e != which :: Url(e) == old(Url(e))
    {
      endpoints := endpoints[EndpointIndex(which) := url];
    }
  }

  /** `SmsRuClient`: fixed credentials, one URL per method, and the transport. */
  class SmsRuClient {
    const auth: Auth
    const endpoints: EndpointUrls
    const http: HttpTransport

    function Url(e: Endpoint): string {
      endpoints[EndpointIndex(e)]
    }

    /** `SmsRuClient::new`: the default URLs. */
    constructor (auth: Auth, http: HttpTransport)
      ensures this.auth == auth && this.http == http && endpoints == DEFAULT_ENDPOINTS
    {
      this.auth := auth;
      this.http := http;
      endpoints := DEFAULT_ENDPOINTS;
    }

    /** The part of `build` that moves the builder's credentials and URLs into the client. */
    constructor Build(b: SmsRuClientBuilder, http: HttpTransport)
      ensures auth == b.auth && this.http == http && endpoints == b.endpoints
    {
      auth := b.auth;
      this.http := http;
      endpoints := b.endpoints;
    }

    /** The steps every call shares: post the credentials and the form, then classify the answer. */
    method Call<R>(url: string, form: seq<Param>, decode: string -> Result<R, TransportError>, envelopeOf: R -> Envelope)
      returns (r: Result<R, SmsRuError>)
      modifies http
      ensures http.posted == old(http.posted) + [(url, Posted(auth, form))]
      ensures r == Classify(http.respond(url, Posted(auth, form)), decode, envelopeOf)
    {
      var params := PushFormParams([], auth);
      params := params + form;
      assert params == Posted(auth, form);
      var response := http.PostForm(url, params);
      r := Classify(response, decode, envelopeOf);
    }

    /** `send_sms`: plain-text mode is refused before anything is posted. */
    method SendSms(request: Request.SendSms, parse: string -> Option<Json>, render: string -> string)
      returns (r: Result<SendSmsResponse, SmsRuError>)
      modifies http
      ensures S.SendOptionsOf(request).json == Request.Plain ==>
        r.Err? && r.error.UnsupportedResponseFormat? && http.posted == old(http.posted)
      ensures S.SendOptionsOf(request).json == Request.Json ==>
        var params := Posted(auth, S.SendSmsForm(request));
        http.posted == old(http.posted) + [(Url(SendEndpoint), params)]
        && r == Classify(http.respond(Url(SendEndpoint), params), BodyDecoder(parse, SendSmsReader(request, render)), SendSmsEnvelope)
    {
      if S.SendOptionsOf(request).json != Request.Json {
        return Err(UnsupportedResponseFormat("plain-text responses are not supported; set SendOptions.json = JsonMode::Json"));
      }
      var form := S.EncodeSendSmsForm(request);
      r := Call(Url(SendEndpoint), form, BodyDecoder(parse, SendSmsReader(request, render)), SendSmsEnvelope);
    }

    /** `check_cost`: plain-text mode is refused before anything is posted. */
    method CheckCost(request: Request.CheckCost, parse: string -> Option<Json>)
      returns (r: Result<CheckCostResponse, SmsRuError>)
      modifies http
      ensures C.CostOptionsOf(request).json == Request.Plain ==>
        r.Err? && r.error.UnsupportedResponseFormat? && http.posted == old(http.posted)
      ensures C.CostOptionsOf(request).json == Request.Json ==>
        var params := Posted(auth, C.CheckCostForm(request));
        http.posted == old(http.posted) + [(Url(CostEndpoint), params)]
        && r == Classify(http.respond(Url(CostEndpoint), params), BodyDecoder(parse, CheckCostReader(request)), CheckCostEnvelope)
    {
      if C.CostOptionsOf(request).json != Request.Json {
        return Err(UnsupportedResponseFormat("plain-text responses are not supported; set CheckCostOptions.json = JsonMode::Json"));
      }
      var form := C.EncodeCheckCostForm(request);
      r := Call(Url(CostEndpoint), form, BodyDecoder(parse, CheckCostReader(request)), CheckCostEnvelope);
    }

    /** `check_status`: its form always asks for JSON, so there is no mode to refuse. */
    method CheckStatus(request: Request.CheckStatus, parse: string -> Option<Json>)
      returns (r: Result<CheckStatusResponse, SmsRuError>)
      modifies http
      ensures var params := Posted(auth, T.CheckStatusForm(request));
        http.posted == old(http.posted) + [(Url(StatusEndpoint), params)]
        && r == Classify(http.respond(Url(StatusEndpoint), params), BodyDecoder(parse, CheckStatusReader(request)), CheckStatusEnvelope)
    {
      r := Call(Url(StatusEndpoint), T.CheckStatusForm(request), BodyDecoder(parse, CheckStatusReader(request)), CheckStatusEnvelope);
    }

    /** `start_call_auth`: plain-text mode is refused before anything is posted. */
    method StartCallAuth(request: Request.StartCallAuth, parse: string -> Option<Json>)
      returns (r: Result<StartCallAuthResponse, SmsRuError>)
      modifies http
      ensures request.options.json == Request.Plain ==>
        r.Err? && r.error.UnsupportedResponseFormat? && http.posted == old(http.posted)
      ensures request.options.json == Request.Json ==>
        var params := Posted(auth, CA.StartCallAuthForm(request));
        http.posted == old(http.posted) + [(Url(CallcheckAddEndpoint), params)]
        && r == Classify(http.respond(Url(CallcheckAddEndpoint), params), BodyDecoder(parse, CA.DecodeStartCallAuth), StartCallAuthEnvelope)
    {
      if request.options.json != Request.Json {
        return Err(UnsupportedResponseFormat("plain-text responses are not supported; set StartCallAuthOptions.json = JsonMode::Json"));
      }
      var form := CA.EncodeStartCallAuthForm(request);
      r := Call(Url(CallcheckAddEndpoint), form, BodyDecoder(parse, CA.DecodeStartCallAuth), StartCallAuthEnvelope);
    }

    /** `check_call_auth_status`: plain-text mode is refused before anything is posted. */
    method CheckCallAuthStatus(request: Request.CheckCallAuthStatus, parse: string -> Option<Json>)
      returns (r: Result<CheckCallAuthStatusResponse, SmsRuError>)
      modifies http
      ensures request.options.json == Request.Plain ==>
        r.Err? && r.error.UnsupportedResponseFormat? && http.posted == old(http.posted)
      ensures request.options.json == Request.Json ==>
        var params := Posted(auth, CS.CheckCallAuthStatusForm(request));
        http.posted == old(http.posted) + [(Url(CallcheckStatusEndpoint), params)]
        && r == Classify(http.respond(Url(CallcheckStatusEndpoint), params), BodyDecoder(parse, CS.DecodeCheckCallAuthStatus), CallAuthStatusEnvelope)
    {
      if request.options.json != Request.Json {
        return Err(UnsupportedResponseFormat("plain-text responses are not supported; set CheckCallAuthStatusOptions.json = JsonMode::Json"));
      }
      var form := CS.EncodeCheckCallAuthStatusForm(request);
      r := Call(Url(CallcheckStatusEndpoint), form, BodyDecoder(parse, CS.DecodeCheckCallAuthStatus), CallAuthStatusEnvelope);
    }

    /** `check_auth`. */
    method CheckAuth(parse: string -> Option<Json>) returns (r: Result<StatusOnlyResponse, SmsRuError>)
      modifies http
      ensures var params := Posted(auth, A.JsonOnlyForm());
        http.posted == old(http.posted) + [(Url(AuthCheckEndpoint), params)]
        && r == Classify(http.respond(Url(AuthCheckEndpoint), params), BodyDecoder(parse, A.DecodeStatusOnly), StatusOnlyEnvelope)
    {
      r := Call(Url(AuthCheckEndpoint), A.JsonOnlyForm(), BodyDecoder(parse, A.DecodeStatusOnly), StatusOnlyEnvelope);
    }

    /** `get_balance`. */
    method GetBalance(parse: string -> Option<Json>) returns (r: Result<BalanceResponse, SmsRuError>)
      modifies http
      ensures var params := Posted(auth, A.JsonOnlyForm());
        http.posted == old(http.posted) + [(Url(MyBalanceEndpoint), params)]
        && r == Classify(http.respond(Url(MyBalanceEndpoint), params), BodyDecoder(parse, A.DecodeBalanceReply), BalanceEnvelope)
    {
      r := Call(Url(MyBalanceEndpoint), A.JsonOnlyForm(), BodyDecoder(parse, A.DecodeBalanceReply), BalanceEnvelope);
    }

    /** `get_free_usage`. */
    method GetFreeUsage(parse: string -> Option<Json>) returns (r: Result<FreeUsageResponse, SmsRuError>)
      modifies http
      ensures var params := Posted(auth, A.JsonOnlyForm());
        http.posted == old(http.posted) + [(Url(MyFreeEndpoint), params)]
        && r == Classify(http.respond(Url(MyFreeEndpoint), params), BodyDecoder(parse, A.DecodeFreeUsage), FreeUsageEnvelope)
    {
      r := Call(Url(MyFreeEndpoint), A.JsonOnlyForm(), BodyDecoder(parse, A.DecodeFreeUsage), FreeUsageEnvelope);
    }

    /** `get_limit_usage`. */
    method GetLimitUsage(parse: string -> Option<Json>) returns (r: Result<LimitUsageResponse, SmsRuError>)
      modifies http
      ensures var params := Posted(auth, A.JsonOnlyForm());
        http.posted == old(http.posted) + [(Url(MyLimitEndpoint), params)]
        && r == Classify(http.respond(Url(MyLimitEndpoint), params), BodyDecoder(parse, A.DecodeLimitUsage), LimitUsageEnvelope)
    {
      r := Call(Url(MyLimitEndpoint), A.JsonOnlyForm(), BodyDecoder(parse, A.DecodeLimitUsage), LimitUsageEnvelope);
    }

    /** `get_senders`. */
    method GetSenders(parse: string -> Option<Json>) returns (r: Result<SendersResponse, SmsRuError>)
      modifies http
      ensures var params := Posted(auth, A.JsonOnlyForm());
        http.posted == old(http.posted) + [(Url(MySendersEndpoint), params)]
        && r == Classify(http.respond(Url(MySendersEndpoint), params), BodyDecoder(parse, A.DecodeSenders), SendersEnvelope)
    {
      r := Call(Url(MySendersEndpoint), A.JsonOnlyForm(), BodyDecoder(parse, A.DecodeSenders), SendersEnvelope);
    }

    /** `add_stoplist_entry`: the reply is read as status only. */
    method AddStoplistEntry(request: Request.AddStoplistEntry, parse: string -> Option<Json>)
      returns (r: Result<StatusOnlyResponse, SmsRuError>)
      modifies http
      ensures var params := Posted(auth, SL.AddStoplistForm(request));
        http.posted == old(http.posted) + [(Url(StoplistAddEndpoint), params)]
        && r == Classify(http.respond(Url(StoplistAddEndpoint), params), BodyDecoder(parse, A.DecodeStatusOnly), StatusOnlyEnvelope)
    {
      r := Call(Url(StoplistAddEndpoint), SL.AddStoplistForm(request), BodyDecoder(parse, A.DecodeStatusOnly), StatusOnlyEnvelope);
    }

    /** `remove_stoplist_entry`: the reply is read as status only. */
    method RemoveStoplistEntry(request: Request.RemoveStoplistEntry, parse: string -> Option<Json>)
      returns (r: Result<StatusOnlyResponse, SmsRuError>)
      modifies http
      ensures var params := Posted(auth, SL.RemoveStoplistForm(request));
        http.posted == old(http.posted) + [(Url(StoplistDelEndpoint), params)]
        && r == Classify(http.respond(Url(StoplistDelEndpoint), params), BodyDecoder(parse, A.DecodeStatusOnly), StatusOnlyEnvelope)
    {
      r := Call(Url(StoplistDelEndpoint), SL.RemoveStoplistForm(request), BodyDecoder(parse, A.DecodeStatusOnly), StatusOnlyEnvelope);
    }

    /** `get_stoplist`. */
    method GetStoplist(parse: string -> Option<Json>) returns (r: Result<StoplistResponse, SmsRuError>)
      modifies http
      ensures var params := Posted(auth, SL.GetStoplistForm());
        http.posted == old(http.posted) + [(Url(StoplistGetEndpoint), params)]
        && r == Classify(http.respond(Url(StoplistGetEndpoint), params), BodyDecoder(parse, SL.DecodeStoplist), StoplistEnvelope)
    {
      r := Call(Url(StoplistGetEndpoint), SL.GetStoplistForm(), BodyDecoder(parse, SL.DecodeStoplist), StoplistEnvelope);
    }

    /** `add_callback`: the reply lists the handlers now held. */
    method AddCallback(request: Request.AddCallback, parse: string -> Option<Json>, newUrl: string -> Option<CallbackUrl>)
      returns (r: Result<CallbacksResponse, SmsRuError>)
      modifies http
      ensures var params := Posted(auth, CB.AddCallbackForm(request));
        http.posted == old(http.posted) + [(Url(CallbackAddEndpoint), params)]
        && r == Classify(http.respond(Url(CallbackAddEndpoint), params), BodyDecoder(parse, CallbacksReader(newUrl)), CallbacksEnvelope)
    {
      r := Call(Url(CallbackAddEndpoint), CB.AddCallbackForm(request), BodyDecoder(parse, CallbacksReader(newUrl)), CallbacksEnvelope);
    }

    /** `remove_callback`: the reply lists the handlers still held. */
    method RemoveCallback(request: Request.RemoveCallback, parse: string -> Option<Json>, newUrl: string -> Option<CallbackUrl>)
      returns (r: Result<CallbacksResponse, SmsRuError>)
      modifies http
      ensures var params := Posted(auth, CB.RemoveCallbackForm(request));
        http.posted == old(http.posted) + [(Url(CallbackDelEndpoint), params)]
        && r == Classify(http.respond(Url(CallbackDelEndpoint), params), BodyDecoder(parse, CallbacksReader(newUrl)), CallbacksEnvelope)
    {
      r := Call(Url(CallbackDelEndpoint), CB.RemoveCallbackForm(request), BodyDecoder(parse, CallbacksReader(newUrl)), CallbacksEnvelope);
    }

    /** `get_callbacks`. */
    method GetCallbacks(parse: string -> Option<Json>, newUrl: string -> Option<CallbackUrl>)
      returns (r: Result<CallbacksResponse, SmsRuError>)
      modifies http
      ensures var params := Posted(auth, CB.GetCallbacksForm());
        http.posted == old(http.posted) + [(Url(CallbackGetEndpoint), params)]
        && r == Classify(http.respond(Url(CallbackGetEndpoint), params), BodyDecoder(parse, CallbacksReader(newUrl)), CallbacksEnvelope)
    {
      r := Call(Url(CallbackGetEndpoint), CB.GetCallbacksForm(), BodyDecoder(parse, CallbacksReader(newUrl)), CallbacksEnvelope);
    }
  }

  /** The client's endpoint test: after `endpoint(url)` and the build, every call posts to `url`. */
  method EndpointOverride(auth: Auth, url: string, http: HttpTransport) returns (client: SmsRuClient)
    ensures client.auth == auth && client.http == http
    ensures forall e: Endpoint :: client.Url(e) == url
  {
    var b := new SmsRuClientBuilder(auth);
    b.SetAllEndpoints(url);
    client := new SmsRuClient.Build(b, http);
    forall e: Endpoint ensures client.Url(e) == url {
      assert client.Url(e) == b.Url(e);
    }
  }
}
