/**
 * The callback endpoints (`callback/add`, `callback/del`, `callback/get`):
 * the add and remove forms name one URL, and every reply lists the handler
 * URLs SMS.RU holds, each validated again by the client's URL check
 * (`CallbackUrl::new`, which is not part of this model and is a parameter).
 */
module CallbackTransport {
  import opened Wrappers
  import opened JsonValue
  import opened Value
  import opened Request
  import opened Response
  import opened Form
  import opened Transport

  const URL_FIELD: string := "url"
  const CALLBACK_FIELD: string := "callback"

  /** `encode_add_callback_form`: the marker, then the URL. */
  function AddCallbackForm(request: AddCallback): (r: seq<Param>)
    ensures r == [("json", "1"), ("url", request.url.url)]
  {
    [JSON_PARAM, (URL_FIELD, request.url.url)]
  }

  /** `encode_remove_callback_form`: the same two pairs as adding. */
  function RemoveCallbackForm(request: RemoveCallback): (r: seq<Param>)
    ensures r == [("json", "1"), ("url", request.url.url)]
  {
    [JSON_PARAM, (URL_FIELD, request.url.url)]
  }

  /** `encode_get_callbacks_form`: the marker alone. */
  function GetCallbacksForm(): (r: seq<Param>)
    ensures r == [("json", "1")]
  {
    [JSON_PARAM]
  }

  /** Adding and removing the same URL post the same form: only the endpoint tells them apart. */
  lemma AddRemoveSameForm(url: CallbackUrl)
    ensures AddCallbackForm(AddCallback(url)) == RemoveCallbackForm(RemoveCallback(url))
    ensures FirstValue(AddCallbackForm(AddCallback(url)), URL_FIELD) == Some(url.url)
    ensures !HasName(GetCallbacksForm(), URL_FIELD)
  {
    assert GetCallbacksForm()[0].0 != URL_FIELD;
  }

  /** `CallbackJsonResponse`, as serde reads it: the URLs as sent, in order. */
  datatype CallbacksJson = CallbacksJson(envelope: Envelope, callback: seq<string>)

  function ParseCallbacksJson(j: Json): Result<CallbacksJson, TransportError> {
    var members :- ObjectMembers(j);
    var envelope :- DecodeEnvelope(members);
    var callback :- DefaultList(members, CALLBACK_FIELD, DecodeString);
    Ok(CallbacksJson(envelope, callback))
  }

  /**
   * Every URL through the URL check, in order: the result keeps the order
   * and the length, and the first URL the check refuses fails the whole
   * list with `InvalidCallbackUrl` carrying that URL.
   */
  function ValidateUrls(urls: seq<string>, newUrl: string -> Option<CallbackUrl>)
    : (r: Result<seq<CallbackUrl>, TransportError>)
    ensures r.Ok? <==> forall i | 0 <= i < |urls| :: newUrl(urls[i]).Some?
    ensures r.Ok? ==> |r.value| == |urls| && forall i | 0 <= i < |urls| :: newUrl(urls[i]) == Some(r.value[i])
    ensures r.Err? ==> exists i | 0 <= i < |urls| ::
      newUrl(urls[i]).None? && r.error == InvalidCallbackUrl(urls[i])
      && forall k | 0 <= k < i :: newUrl(urls[k]).Some?
  {
    if |urls| == 0 then Ok([])
    else
      match newUrl(urls[0])
      case None => Err(InvalidCallbackUrl(urls[0]))
      case Some(url) =>
        var rest := ValidateUrls(urls[1..], newUrl);
        if rest.Err? then
          assert exists i | 1 <= i < |urls| ::
            newUrl(urls[i]).None? && rest.error == InvalidCallbackUrl(urls[i])
            && forall k | 0 <= k < i :: newUrl(urls[k]).Some? by {
            var i :| 0 <= i < |urls[1..]| && newUrl(urls[1..][i]).None? && rest.error == InvalidCallbackUrl(urls[1..][i])
                     && forall k | 0 <= k < i :: newUrl(urls[1..][k]).Some?;
            assert forall k | 1 <= k < i + 1 :: urls[k] == urls[1..][k - 1];
          }
          Err(rest.error)
        else
          assert forall i | 1 <= i < |urls| :: urls[i] == urls[1..][i - 1];
          Ok([url] + rest.value)
  }

  /** `decode_callbacks_json_response`: serde reads the reply, then every URL is validated. */
  function DecodeCallbacks(j: Json, newUrl: string -> Option<CallbackUrl>): Result<CallbacksResponse, TransportError> {
    match ParseCallbacksJson(j)
    case Err(_) => Err(InvalidJson)
    case Ok(p) =>
      var callback :- ValidateUrls(p.callback, newUrl);
      Ok(CallbacksResponse(p.envelope.status, p.envelope.status_code, p.envelope.status_text, callback))
  }

  /** A listing as SMS.RU writes it: the envelope and the URLs. */
  function CallbacksReply(e: Envelope, urls: seq<string>): Members {
    EnvelopeMembers(e) + [(CALLBACK_FIELD, JArray(StringsJson(urls)))]
  }

  lemma CallbacksReplyParsed(e: Envelope, urls: seq<string>)
    ensures ParseCallbacksJson(JObject(CallbacksReply(e, urls))) == Ok(CallbacksJson(e, urls))
  {
    var rest := [(CALLBACK_FIELD, JArray(StringsJson(urls)))];
    EnvelopeAndFields(e, rest, CALLBACK_FIELD);
    FieldOfDistinct(rest, 0);
    StringItems(urls);
  }

  /**
   * URLs the check accepts come back in the order and number sent, each
   * as the check made it.
   */
  lemma CallbacksRoundTrip(e: Envelope, urls: seq<string>, newUrl: string -> Option<CallbackUrl>)
    requires forall i | 0 <= i < |urls| :: newUrl(urls[i]).Some?
    ensures DecodeCallbacks(JObject(CallbacksReply(e, urls)), newUrl).Ok?
    ensures var r := DecodeCallbacks(JObject(CallbacksReply(e, urls)), newUrl).value;
      r.status == e.status && r.status_code == e.status_code && r.status_text == e.status_text
      && |r.callback| == |urls| && forall i | 0 <= i < |urls| :: newUrl(urls[i]) == Some(r.callback[i])
  {
    CallbacksReplyParsed(e, urls);
  }

  /** The first URL the check refuses fails the reply, whatever follows it. */
  lemma CallbacksRejected(e: Envelope, urls: seq<string>, newUrl: string -> Option<CallbackUrl>, i: int)
    requires 0 <= i < |urls| && newUrl(urls[i]).None?
    requires forall k | 0 <= k < i :: newUrl(urls[k]).Some?
    ensures DecodeCallbacks(JObject(CallbacksReply(e, urls)), newUrl) == Err(InvalidCallbackUrl(urls[i]))
  {
    CallbacksReplyParsed(e, urls);
    var r := ValidateUrls(urls, newUrl);
    var j :| 0 <= j < |urls| && newUrl(urls[j]).None? && r.error == InvalidCallbackUrl(urls[j])
             && forall k | 0 <= k < j :: newUrl(urls[k]).Some?;
  }

  /** Without a `callback` field the list is empty. */
  lemma CallbacksEnvelopeOnly(e: Envelope, newUrl: string -> Option<CallbackUrl>)
    ensures DecodeCallbacks(JObject(EnvelopeMembers(e)), newUrl)
            == Ok(CallbacksResponse(e.status, e.status_code, e.status_text, []))
  {
    var m := EnvelopeMembers(e);
    EnvelopeRoundTrip(e, []);
    assert m + [] == m;
    assert !HasMember(m, CALLBACK_FIELD);
  }
}
