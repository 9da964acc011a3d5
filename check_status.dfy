/**
 * The `sms/status` endpoint: the two-pair form a status query is posted as,
 * and the reading of SMS.RU's JSON answer, whose per-message object is keyed
 * by the message ids of the query.
 */
module CheckStatusTransport {
  import opened Wrappers
  import opened Text
  import opened JsonValue
  import opened Value
  import opened Request
  import opened Response
  import opened Form
  import opened Transport
  import opened KeyMatch
  import opened ItemMap
  import opened SortedMap
  import opened Money

  /** The `sms_id` value: the ids joined by commas. */
  function JoinedIds(ids: seq<SmsId>): string {
    Join(ids, ",")
  }

  /** `encode_check_status_form`: always `json=1`, then the joined ids. */
  function CheckStatusForm(request: CheckStatus): seq<Param> {
    [JSON_PARAM, (SMS_ID_FIELD, JoinedIds(request.sms_ids))]
  }

  /**
   * The form always asks for JSON, whatever the options of other requests,
   * and its `sms_id` value splits on commas back into the ids, in order,
   * when no id holds a comma.
   */
  lemma CheckStatusFormFields(request: CheckStatus)
    ensures FirstValue(CheckStatusForm(request), JSON_PARAM.0) == Some(JSON_PARAM.1)
    ensures FirstValue(CheckStatusForm(request), SMS_ID_FIELD) == Some(JoinedIds(request.sms_ids))
    ensures |request.sms_ids| > 0 && (forall i | 0 <= i < |request.sms_ids| :: ',' !in request.sms_ids[i]) ==>
      Split(FirstValue(CheckStatusForm(request), SMS_ID_FIELD).value, ',') == request.sms_ids
  {
    if |request.sms_ids| > 0 && (forall i | 0 <= i < |request.sms_ids| :: ',' !in request.sms_ids[i]) {
      SplitJoin(request.sms_ids, ',');
    }
  }

  /** The encoder's own test: two ids. */
  lemma CheckStatusFormExample(a: SmsId, b: SmsId)
    ensures CheckStatusForm(CheckStatus([a, b])) == [("json", "1"), ("sms_id", a + "," + b)]
  {
    var ids: seq<SmsId> := [a, b];
    assert ids[1..] == [b];
    assert Join(ids[1..], ",") == b;
  }

  const COST_FIELD: string := "cost"

  /** One message's state: its own status, code and text, and its cost as sent. */
  function DecodeSmsStatusResult(j: Json): Result<SmsStatusResult, TransportError> {
    var members :- ObjectMembers(j);
    var envelope :- DecodeEnvelope(members);
    var cost :- OptionalField(members, COST_FIELD, DecodeMoney);
    Ok(SmsStatusResult(envelope.status, envelope.status_code, envelope.status_text, cost))
  }

  /** How SMS.RU writes one message's state, with a string cost. */
  function SmsStatusResultJson(r: SmsStatusResult): Json {
    JObject(EnvelopeMembers(Envelope(r.status, r.status_code, r.status_text)) + [(COST_FIELD, OptStringJson(r.cost))])
  }

  /**
   * A message's state is read back exactly as written: an `ERROR` item with
   * code -1 ("Message not found") stays an `ERROR` item with that code.
   */
  lemma SmsStatusResultRoundTrip(r: SmsStatusResult)
    ensures DecodeSmsStatusResult(SmsStatusResultJson(r)) == Ok(r)
  {
    var e := Envelope(r.status, r.status_code, r.status_text);
    var rest := [(COST_FIELD, OptStringJson(r.cost))];
    EnvelopeAndFields(e, rest, COST_FIELD);
    FieldOfDistinct(rest, 0);
    if r.cost.Some? { DecodeMoneyKeepsText(r.cost.value, "0"); }
    OptStringFieldRead(EnvelopeMembers(e) + rest, COST_FIELD, r.cost, DecodeMoney);
  }

  /** `CheckStatusJsonResponse`, as serde reads it. */
  datatype CheckStatusJson = CheckStatusJson(envelope: Envelope, balance: Option<string>, sms: seq<(string, SmsStatusResult)>)

  function ParseCheckStatusJson(j: Json): Result<CheckStatusJson, TransportError> {
    var members :- ObjectMembers(j);
    var envelope :- DecodeEnvelope(members);
    var balance :- OptionalField(members, BALANCE_FIELD, DecodeMoney);
    var sms :- DefaultMap(members, SMS_FIELD, DecodeSmsStatusResult);
    Ok(CheckStatusJson(envelope, balance, sms))
  }

  function CheckStatusResolver(request: CheckStatus): string -> Result<SmsId, TransportError> {
    key => MatchSmsIdKey(SmsIdLookup(request.sms_ids), key)
  }

  /** The members of the reply's `sms` object. */
  function StatusObject(j: Json): Members {
    if j.JObject? then ItemObject(j.members, SMS_FIELD) else []
  }

  /**
   * `decode_check_status_json_response`: serde reads the reply, then every
   * member of `sms` is keyed by the id of the query it matches.
   */
  function DecodeCheckStatus(request: CheckStatus, j: Json): Result<CheckStatusResponse, TransportError> {
    match ParseCheckStatusJson(j)
    case Err(_) => Err(InvalidJson)
    case Ok(parsed) =>
      var sms :- ResolveAll(parsed.sms, CheckStatusResolver(request));
      Ok(CheckStatusResponse(parsed.envelope.status, parsed.envelope.status_code, parsed.envelope.status_text,
                             parsed.balance, sms))
  }

  /**
   * On success: every key of `sms` is an id of the query; every member of
   * the reply's `sms` object is an id of the query once trimmed (or as
   * sent) and is a key; there are no more keys than members; each value is
   * the decoding of a member naming its id; and the reply's status, code and
   * text are the envelope's.
   */
  lemma DecodeCheckStatusKeys(request: CheckStatus, j: Json)
    requires DecodeCheckStatus(request, j).Ok?
    ensures forall id | id in DecodeCheckStatus(request, j).value.sms :: id in request.sms_ids
    ensures forall i | 0 <= i < |StatusObject(j)| ::
      (Trim(StatusObject(j)[i].0) in request.sms_ids || StatusObject(j)[i].0 in request.sms_ids)
      && MatchSmsIdKey(SmsIdLookup(request.sms_ids), StatusObject(j)[i].0).value in DecodeCheckStatus(request, j).value.sms
    ensures |DecodeCheckStatus(request, j).value.sms| <= |StatusObject(j)|
    ensures forall id | id in DecodeCheckStatus(request, j).value.sms ::
      exists i | 0 <= i < |StatusObject(j)| ::
        (StatusObject(j)[i].0 == id || Trim(StatusObject(j)[i].0) == id)
        && DecodeSmsStatusResult(StatusObject(j)[i].1) == Ok(DecodeCheckStatus(request, j).value.sms[id])
    ensures j.JObject?
    ensures var r := DecodeCheckStatus(request, j).value;
      DecodeEnvelope(j.members) == Ok(Envelope(r.status, r.status_code, r.status_text))
  {
    StatusItemsMatched(request, j);
    StatusItemsSourced(request, j);
  }

  lemma StatusItemsMatched(request: CheckStatus, j: Json)
    requires DecodeCheckStatus(request, j).Ok?
    ensures forall i | 0 <= i < |StatusObject(j)| ::
      (Trim(StatusObject(j)[i].0) in request.sms_ids || StatusObject(j)[i].0 in request.sms_ids)
      && MatchSmsIdKey(SmsIdLookup(request.sms_ids), StatusObject(j)[i].0).value in DecodeCheckStatus(request, j).value.sms
    ensures |DecodeCheckStatus(request, j).value.sms| <= |StatusObject(j)|
    ensures j.JObject?
    ensures var r := DecodeCheckStatus(request, j).value;
      DecodeEnvelope(j.members) == Ok(Envelope(r.status, r.status_code, r.status_text))
  {
    var ids := request.sms_ids;
    ResolvedItems(j.members, SMS_FIELD, DecodeSmsStatusResult, CheckStatusResolver(request));
    var obj := StatusObject(j);
    forall i | 0 <= i < |obj| ensures Trim(obj[i].0) in ids || obj[i].0 in ids {
      MatchSmsIdKeyExact(ids, obj[i].0);
    }
  }

  lemma StatusItemsSourced(request: CheckStatus, j: Json)
    requires DecodeCheckStatus(request, j).Ok?
    ensures forall id | id in DecodeCheckStatus(request, j).value.sms :: id in request.sms_ids
    ensures forall id | id in DecodeCheckStatus(request, j).value.sms ::
      exists i | 0 <= i < |StatusObject(j)| ::
        (StatusObject(j)[i].0 == id || Trim(StatusObject(j)[i].0) == id)
        && DecodeSmsStatusResult(StatusObject(j)[i].1) == Ok(DecodeCheckStatus(request, j).value.sms[id])
  {
    var ids := request.sms_ids;
    var resolve := CheckStatusResolver(request);
    ResolvedItems(j.members, SMS_FIELD, DecodeSmsStatusResult, resolve);
    var obj := StatusObject(j);
    var sms := DecodeCheckStatus(request, j).value.sms;
    forall id | id in sms
      ensures id in ids
      ensures exists i | 0 <= i < |obj| ::
        (obj[i].0 == id || Trim(obj[i].0) == id) && DecodeSmsStatusResult(obj[i].1) == Ok(sms[id])
    {
      var i :| 0 <= i < |obj| && resolve(obj[i].0) == Ok(id) && DecodeSmsStatusResult(obj[i].1) == Ok(sms[id]);
      MatchSmsIdKeyExact(ids, obj[i].0);
    }
  }

  /** What serde read as the items is the reply's `sms` object, decoded. */
  lemma ParsedStatusItems(j: Json)
    requires ParseCheckStatusJson(j).Ok?
    ensures j.JObject? && DefaultMap(j.members, SMS_FIELD, DecodeSmsStatusResult).Ok?
    ensures ParseCheckStatusJson(j).value.sms == DefaultMap(j.members, SMS_FIELD, DecodeSmsStatusResult).value
  {
  }

  /**
   * Failure: a reply serde cannot read is `InvalidJson`; otherwise the error
   * names a member of `sms`, as sent, that is no id of the query, trimmed or
   * not.
   */
  lemma DecodeCheckStatusErrors(request: CheckStatus, j: Json)
    ensures DecodeCheckStatus(request, j) == Err(InvalidJson) <==> ParseCheckStatusJson(j).Err?
    ensures DecodeCheckStatus(request, j).Err? && ParseCheckStatusJson(j).Ok? ==>
      exists i | 0 <= i < |StatusObject(j)| ::
        DecodeCheckStatus(request, j).error == UnknownSmsIdKey(StatusObject(j)[i].0)
        && Trim(StatusObject(j)[i].0) !in request.sms_ids && StatusObject(j)[i].0 !in request.sms_ids
    ensures DecodeCheckStatus(request, j).Err? && ParseCheckStatusJson(j).Ok? ==>
      var items := ParseCheckStatusJson(j).value.sms;
      Ascending(items)
      && exists i | 0 <= i < |items| ::
           DecodeCheckStatus(request, j).error == UnknownSmsIdKey(items[i].0)
           && forall k | 0 <= k < i :: Trim(items[k].0) in request.sms_ids || items[k].0 in request.sms_ids
  {
    var resolve := CheckStatusResolver(request);
    var parse := ParseCheckStatusJson(j);
    if parse.Ok? {
      ParsedStatusItems(j);
      var items := parse.value.sms;
      var all := ResolveAll(items, resolve);
      if all.Err? {
        var i := ResolvedItemsError(j.members, SMS_FIELD, DecodeSmsStatusResult, resolve);
        MatchSmsIdKeyExact(request.sms_ids, StatusObject(j)[i].0);
        assert all.error == UnknownSmsIdKey(StatusObject(j)[i].0);
        assert DecodeCheckStatus(request, j) == Err(all.error);
        var first := StatusFirstUnmatched(request, j);
      }
    }
  }

  /**
   * The member a failed reply names is the first of the `sms` map, in
   * ascending key order, that is no queried id: every key before it is one,
   * trimmed or as sent.
   */
  lemma StatusFirstUnmatched(request: CheckStatus, j: Json) returns (i: int)
    requires ParseCheckStatusJson(j).Ok?
    requires ResolveAll(ParseCheckStatusJson(j).value.sms, CheckStatusResolver(request)).Err?
    ensures var items := ParseCheckStatusJson(j).value.sms;
      Ascending(items) && 0 <= i < |items|
      && ResolveAll(items, CheckStatusResolver(request)).error == UnknownSmsIdKey(items[i].0)
      && Trim(items[i].0) !in request.sms_ids && items[i].0 !in request.sms_ids
      && forall k | 0 <= k < i :: Trim(items[k].0) in request.sms_ids || items[k].0 in request.sms_ids
  {
    var items := ParseCheckStatusJson(j).value.sms;
    var resolve := CheckStatusResolver(request);
    ParsedStatusItems(j);
    DefaultMapShape(j.members, SMS_FIELD, DecodeSmsStatusResult);
    i := ResolveAllFirstFailing(items, resolve);
    MatchSmsIdKeyExact(request.sms_ids, items[i].0);
    forall k | 0 <= k < i
      ensures Trim(items[k].0) in request.sms_ids || items[k].0 in request.sms_ids
    {
      assert resolve(items[k].0).Ok?;
      MatchSmsIdKeyExact(request.sms_ids, items[k].0);
    }
  }

  /** The members of a reply with an envelope and one per-message member. */
  function OneStatusReply(e: Envelope, key: string, item: SmsStatusResult): Members {
    EnvelopeMembers(e) + [(SMS_FIELD, JObject([(key, SmsStatusResultJson(item))]))]
  }

  /**
   * A reply with one per-message member, under the id of a one-id query,
   * padded with whitespace or not: the member's state lands under the id and
   * no balance is reported.
   */
  lemma DecodeCheckStatusOneMember(id: SmsId, e: Envelope, key: string, item: SmsStatusResult)
    requires Trim(key) == id
    ensures DecodeCheckStatus(CheckStatusOne(id), JObject(OneStatusReply(e, key, item)))
            == Ok(CheckStatusResponse(e.status, e.status_code, e.status_text, None, map[id := item]))
  {
    ParseOneStatus(e, key, item);
    assert MatchSmsIdKey(SmsIdLookup([id]), key) == Ok(id);
    ResolveOne(key, item, CheckStatusResolver(CheckStatusOne(id)));
  }

  lemma ParseOneStatus(e: Envelope, key: string, item: SmsStatusResult)
    ensures ParseCheckStatusJson(JObject(OneStatusReply(e, key, item))) == Ok(CheckStatusJson(e, None, [(key, item)]))
  {
    OneStatusFields(e, key, item);
    OneStatusItems(e, key, item);
    OneStatusNoBalance(e, key, item);
  }

  lemma OneStatusNoBalance(e: Envelope, key: string, item: SmsStatusResult)
    ensures OptionalField(OneStatusReply(e, key, item), BALANCE_FIELD, DecodeMoney) == Ok(None)
  {
    var m := OneStatusReply(e, key, item);
    forall i | 0 <= i < |m| ensures m[i].0 != BALANCE_FIELD {
    }
  }

  lemma OneStatusItems(e: Envelope, key: string, item: SmsStatusResult)
    ensures DefaultMap(OneStatusReply(e, key, item), SMS_FIELD, DecodeSmsStatusResult) == Ok([(key, item)])
  {
    OneStatusFields(e, key, item);
    SmsStatusResultRoundTrip(item);
    OneEntry(key, SmsStatusResultJson(item), DecodeSmsStatusResult, item);
  }

  lemma OneStatusFields(e: Envelope, key: string, item: SmsStatusResult)
    ensures DecodeEnvelope(OneStatusReply(e, key, item)) == Ok(e)
    ensures Field(OneStatusReply(e, key, item), SMS_FIELD) == Ok(Some(JObject([(key, SmsStatusResultJson(item))])))
  {
    var rest := [(SMS_FIELD, JObject([(key, SmsStatusResultJson(item))]))];
    EnvelopeAndFields(e, rest, SMS_FIELD);
    FieldOfDistinct(rest, 0);
  }

  /**
   * A reply holding only the envelope (a top-level `ERROR`) is read whatever
   * the query: no balance, no items.
   */
  lemma DecodeCheckStatusEnvelopeOnly(request: CheckStatus, e: Envelope)
    ensures DecodeCheckStatus(request, JObject(EnvelopeMembers(e)))
            == Ok(CheckStatusResponse(e.status, e.status_code, e.status_text, None, map[]))
  {
    var m := EnvelopeMembers(e);
    EnvelopeOnlyField(e, BALANCE_FIELD);
    EnvelopeOnlyField(e, SMS_FIELD);
    assert ParseCheckStatusJson(JObject(m)) == Ok(CheckStatusJson(e, None, []));
  }
}
