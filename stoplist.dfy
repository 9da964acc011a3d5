/**
 * The stop-list endpoints (`stoplist/add`, `stoplist/del`, `stoplist/get`):
 * the forms name a phone and a note, and the listing reply maps each phone
 * SMS.RU holds to its note. Each phone key is validated as a raw number
 * again, so a blank key fails the whole reply.
 */
module StoplistTransport {
  import opened Wrappers
  import opened Text
  import opened JsonValue
  import opened Value
  import opened Request
  import opened Response
  import opened Form
  import opened Transport
  import opened KeyMatch
  import opened ItemMap
  import opened SortedMap

  const STOPLIST_PHONE_FIELD: string := "stoplist_phone"
  const STOPLIST_TEXT_FIELD: string := "stoplist_text"
  const STOPLIST_FIELD: string := "stoplist"

  /** `encode_add_stoplist_form`: the marker, the phone, then the note. */
  function AddStoplistForm(request: AddStoplistEntry): (r: seq<Param>)
    ensures r == [("json", "1"), ("stoplist_phone", request.phone), ("stoplist_text", request.text.text)]
  {
    [JSON_PARAM, (STOPLIST_PHONE_FIELD, request.phone), (STOPLIST_TEXT_FIELD, request.text.text)]
  }

  /** `encode_remove_stoplist_form`: the marker, then the phone. */
  function RemoveStoplistForm(request: RemoveStoplistEntry): (r: seq<Param>)
    ensures r == [("json", "1"), ("stoplist_phone", request.phone)]
  {
    [JSON_PARAM, (STOPLIST_PHONE_FIELD, request.phone)]
  }

  /** `encode_get_stoplist_form`: the marker alone. */
  function GetStoplistForm(): (r: seq<Param>)
    ensures r == [("json", "1")]
  {
    [JSON_PARAM]
  }

  /**
   * The stop-list forms always ask for JSON, name the phone exactly once,
   * and only the add form carries a note.
   */
  lemma StoplistFormsFields(add: AddStoplistEntry, remove: RemoveStoplistEntry)
    ensures FirstValue(AddStoplistForm(add), STOPLIST_PHONE_FIELD) == Some(add.phone)
    ensures FirstValue(AddStoplistForm(add), STOPLIST_TEXT_FIELD) == Some(add.text.text)
    ensures FirstValue(RemoveStoplistForm(remove), STOPLIST_PHONE_FIELD) == Some(remove.phone)
    ensures !HasName(RemoveStoplistForm(remove), STOPLIST_TEXT_FIELD)
    ensures !HasName(GetStoplistForm(), STOPLIST_PHONE_FIELD)
    ensures AddStoplistForm(add)[0] == JSON_PARAM && RemoveStoplistForm(remove)[0] == JSON_PARAM
  {
    var f := AddStoplistForm(add);
    assert f[..2] + f[2..] == f;
    assert f[0].0 != STOPLIST_TEXT_FIELD && f[1].0 != STOPLIST_TEXT_FIELD;
    FirstValueSkip(f[..2], f[2..], STOPLIST_TEXT_FIELD);
    assert RemoveStoplistForm(remove)[0].0 != STOPLIST_TEXT_FIELD;
    assert RemoveStoplistForm(remove)[1].0 != STOPLIST_TEXT_FIELD;
    assert GetStoplistForm()[0].0 != STOPLIST_PHONE_FIELD;
  }

  /** `StoplistJsonResponse`, as serde reads it: the notes keyed by the phones as sent, ascending. */
  datatype StoplistJson = StoplistJson(envelope: Envelope, stoplist: seq<(string, string)>)

  function ParseStoplistJson(j: Json): Result<StoplistJson, TransportError> {
    var members :- ObjectMembers(j);
    var envelope :- DecodeEnvelope(members);
    var stoplist :- DefaultMap(members, STOPLIST_FIELD, DecodeString);
    Ok(StoplistJson(envelope, stoplist))
  }

  /** A stop-list key becomes `RawPhoneNumber::new(key)`; a blank key is refused with the key as sent. */
  function StoplistKey(key: string): (r: Result<RawPhoneNumber, TransportError>)
    ensures r.Ok? <==> !AllWhitespace(key)
    ensures r.Ok? ==> r.value == Trim(key)
    ensures r.Err? ==> r.error == InvalidStoplistPhoneKey(key)
  {
    match NewRawPhoneNumber(key)
    case Ok(phone) => Ok(phone)
    case Err(_) => Err(InvalidStoplistPhoneKey(key))
  }

  /** The members of the reply's `stoplist` object. */
  function StoplistObject(j: Json): Members {
    if j.JObject? then ItemObject(j.members, STOPLIST_FIELD) else []
  }

  /** `decode_get_stoplist_json_response`: serde reads the reply, then every key is validated. */
  function DecodeStoplist(j: Json): Result<StoplistResponse, TransportError> {
    match ParseStoplistJson(j)
    case Err(_) => Err(InvalidJson)
    case Ok(p) =>
      var stoplist :- ResolveAll(p.stoplist, StoplistKey);
      Ok(StoplistResponse(p.envelope.status, p.envelope.status_code, p.envelope.status_text, stoplist))
  }

  /**
   * On success: every member of the reply's `stoplist` object lands under
   * its key trimmed, every phone of the result is such a trimmed key whose
   * note is copied unchanged, there are no more phones than members, and
   * the reply's status, code and text are the envelope's.
   */
  lemma DecodeStoplistKeys(j: Json)
    requires DecodeStoplist(j).Ok?
    ensures forall i | 0 <= i < |StoplistObject(j)| :: Trim(StoplistObject(j)[i].0) in DecodeStoplist(j).value.stoplist
    ensures forall phone | phone in DecodeStoplist(j).value.stoplist ::
      exists i | 0 <= i < |StoplistObject(j)| ::
        Trim(StoplistObject(j)[i].0) == phone && StoplistObject(j)[i].1 == JString(DecodeStoplist(j).value.stoplist[phone])
    ensures |DecodeStoplist(j).value.stoplist| <= |StoplistObject(j)|
    ensures j.JObject?
    ensures var r := DecodeStoplist(j).value;
      DecodeEnvelope(j.members) == Ok(Envelope(r.status, r.status_code, r.status_text))
  {
    StoplistMatched(j);
    StoplistSourced(j);
  }

  lemma StoplistMatched(j: Json)
    requires DecodeStoplist(j).Ok?
    ensures forall i | 0 <= i < |StoplistObject(j)| :: Trim(StoplistObject(j)[i].0) in DecodeStoplist(j).value.stoplist
    ensures |DecodeStoplist(j).value.stoplist| <= |StoplistObject(j)|
    ensures j.JObject?
    ensures var r := DecodeStoplist(j).value;
      DecodeEnvelope(j.members) == Ok(Envelope(r.status, r.status_code, r.status_text))
  {
    ResolvedItems(j.members, STOPLIST_FIELD, DecodeString, StoplistKey);
    var obj := StoplistObject(j);
    forall i | 0 <= i < |obj| ensures Trim(obj[i].0) in DecodeStoplist(j).value.stoplist {
      assert StoplistKey(obj[i].0).Ok?;
    }
  }

  lemma StoplistSourced(j: Json)
    requires DecodeStoplist(j).Ok?
    ensures forall phone | phone in DecodeStoplist(j).value.stoplist ::
      exists i | 0 <= i < |StoplistObject(j)| ::
        Trim(StoplistObject(j)[i].0) == phone && StoplistObject(j)[i].1 == JString(DecodeStoplist(j).value.stoplist[phone])
  {
    ResolvedItems(j.members, STOPLIST_FIELD, DecodeString, StoplistKey);
    var obj := StoplistObject(j);
    var stoplist := DecodeStoplist(j).value.stoplist;
    forall phone | phone in stoplist
      ensures exists i | 0 <= i < |obj| :: Trim(obj[i].0) == phone && obj[i].1 == JString(stoplist[phone])
    {
      var i :| 0 <= i < |obj| && StoplistKey(obj[i].0) == Ok(phone) && DecodeString(obj[i].1) == Ok(stoplist[phone]);
    }
  }

  /**
   * Failure: a reply serde cannot read is `InvalidJson`; otherwise the error
   * carries a blank member key of `stoplist`, as sent.
   */
  lemma DecodeStoplistErrors(j: Json)
    ensures DecodeStoplist(j) == Err(InvalidJson) <==> ParseStoplistJson(j).Err?
    ensures DecodeStoplist(j).Err? && ParseStoplistJson(j).Ok? ==>
      exists i | 0 <= i < |StoplistObject(j)| ::
        DecodeStoplist(j).error == InvalidStoplistPhoneKey(StoplistObject(j)[i].0)
        && AllWhitespace(StoplistObject(j)[i].0)
    ensures DecodeStoplist(j).Err? && ParseStoplistJson(j).Ok? ==>
      var entries := ParseStoplistJson(j).value.stoplist;
      Ascending(entries)
      && exists i | 0 <= i < |entries| ::
           DecodeStoplist(j).error == InvalidStoplistPhoneKey(entries[i].0)
           && forall k | 0 <= k < i :: !AllWhitespace(entries[k].0)
  {
    var parse := ParseStoplistJson(j);
    if parse.Ok? && ResolveAll(parse.value.stoplist, StoplistKey).Err? {
      StoplistBlankMember(j);
      var i := StoplistFirstBlank(j);
    }
  }

  /**
   * The key a failed listing names is the first blank key of the map, in
   * ascending key order: every key before it is a phone number.
   */
  lemma StoplistFirstBlank(j: Json) returns (i: int)
    requires ParseStoplistJson(j).Ok?
    requires ResolveAll(ParseStoplistJson(j).value.stoplist, StoplistKey).Err?
    ensures var entries := ParseStoplistJson(j).value.stoplist;
      Ascending(entries) && 0 <= i < |entries|
      && ResolveAll(entries, StoplistKey).error == InvalidStoplistPhoneKey(entries[i].0)
      && AllWhitespace(entries[i].0)
      && forall k | 0 <= k < i :: !AllWhitespace(entries[k].0)
  {
    var entries := ParseStoplistJson(j).value.stoplist;
    assert j.JObject? && entries == DefaultMap(j.members, STOPLIST_FIELD, DecodeString).value;
    DefaultMapShape(j.members, STOPLIST_FIELD, DecodeString);
    i := ResolveAllFirstFailing(entries, StoplistKey);
  }

  lemma StoplistBlankMember(j: Json)
    requires ParseStoplistJson(j).Ok?
    requires ResolveAll(ParseStoplistJson(j).value.stoplist, StoplistKey).Err?
    ensures exists i | 0 <= i < |StoplistObject(j)| ::
      ResolveAll(ParseStoplistJson(j).value.stoplist, StoplistKey).error
        == InvalidStoplistPhoneKey(StoplistObject(j)[i].0)
      && AllWhitespace(StoplistObject(j)[i].0)
  {
    var all := ResolveAll(ParseStoplistJson(j).value.stoplist, StoplistKey);
    var i := ResolvedItemsError(j.members, STOPLIST_FIELD, DecodeString, StoplistKey);
    assert all.error == InvalidStoplistPhoneKey(StoplistObject(j)[i].0);
  }

  /** A listing with one entry, as SMS.RU writes it. */
  function OneEntryReply(e: Envelope, key: string, note: string): Members {
    EnvelopeMembers(e) + [(STOPLIST_FIELD, JObject([(key, JString(note))]))]
  }

  lemma OneEntryParsed(e: Envelope, key: string, note: string)
    ensures ParseStoplistJson(JObject(OneEntryReply(e, key, note))) == Ok(StoplistJson(e, [(key, note)]))
  {
    var rest := [(STOPLIST_FIELD, JObject([(key, JString(note))]))];
    EnvelopeAndFields(e, rest, STOPLIST_FIELD);
    FieldOfDistinct(rest, 0);
    OneEntry(key, JString(note), DecodeString, note);
  }

  /** A non-blank key, padded or not, lists its note under the trimmed phone. */
  lemma StoplistOneEntry(e: Envelope, key: string, note: string)
    requires !AllWhitespace(key)
    ensures DecodeStoplist(JObject(OneEntryReply(e, key, note)))
            == Ok(StoplistResponse(e.status, e.status_code, e.status_text, map[Trim(key) := note]))
  {
    OneEntryParsed(e, key, note);
    ResolveOne(key, note, StoplistKey);
  }

  /** A blank key fails the reply with `InvalidStoplistPhoneKey` carrying the key as sent. */
  lemma StoplistBlankKey(e: Envelope, key: string, note: string)
    requires AllWhitespace(key)
    ensures DecodeStoplist(JObject(OneEntryReply(e, key, note))) == Err(InvalidStoplistPhoneKey(key))
  {
    OneEntryParsed(e, key, note);
    assert [(key, note)][..0] == [];
    assert ResolveAll([(key, note)][..0], StoplistKey) == Ok(map[]);
    assert ResolveAll([(key, note)], StoplistKey) == Err(InvalidStoplistPhoneKey(key));
  }

  /** Without a `stoplist` field the listing is empty. */
  lemma StoplistEnvelopeOnly(e: Envelope)
    ensures DecodeStoplist(JObject(EnvelopeMembers(e)))
            == Ok(StoplistResponse(e.status, e.status_code, e.status_text, map[]))
  {
    var m := EnvelopeMembers(e);
    EnvelopeRoundTrip(e, []);
    assert m + [] == m;
    assert !HasMember(m, STOPLIST_FIELD);
  }
}
