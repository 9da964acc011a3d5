/**
 * The errors the transport decoders report, and how a serde-derived
 * response struct reads the fields of a parsed JSON object: a required field
 * must be present, an `Option` field is `None` when absent or `null`, a
 * `#[serde(default)]` map or list is empty when absent, a repeated field is
 * an error and an unknown field is ignored.
 */
module Transport {
  import opened Wrappers
  import opened Numeric
  import opened JsonValue
  import opened SortedMap
  import opened Value
  import opened Response

  /**
   * The union of the per-file `TransportError` enums; `InvalidJson` stands
   * for every error serde_json reports.
   */
  datatype TransportError =
    | InvalidJson
    | UnknownPhoneNumberKey(key: string)
    | UnknownSmsIdKey(key: string)
    | InvalidCheckId(value: string)
    | InvalidCallPhone(value: string)
    | InvalidStoplistPhoneKey(key: string)
    | InvalidCallbackUrl(value: string)

  type Members = seq<(string, Json)>

  /**
   * The members a derived struct is read from. The model reads structs only
   * from a JSON object and refuses every other value; serde's derived
   * visitors also accept an array holding the fields by position, and that
   * form is not part of this model.
   */
  function ObjectMembers(j: Json): (r: Result<Members, TransportError>)
    ensures r.Ok? <==> j.JObject?
    ensures r.Ok? ==> r.value == j.members
    ensures r.Err? ==> r.error == InvalidJson
  {
    if j.JObject? then Ok(j.members) else Err(InvalidJson)
  }

  predicate HasMember(members: Members, name: string) {
    exists i | 0 <= i < |members| :: members[i].0 == name
  }

  /** How many members carry the name. */
  function Occurrences(members: Members, name: string): (r: nat)
    ensures r == 0 <==> !HasMember(members, name)
  {
    if |members| == 0 then 0
    else (if members[0].0 == name then 1 else 0) + Occurrences(members[1..], name)
  }

  /** The value of the first member with the name. */
  function FirstMember(members: Members, name: string): (r: Option<Json>)
    ensures r.None? <==> !HasMember(members, name)
    ensures r.Some? ==> (name, r.value) in members
  {
    if |members| == 0 then None
    else if members[0].0 == name then Some(members[0].1)
    else FirstMember(members[1..], name)
  }

  /** A field of a derived struct: absent, present once, or an error when repeated. */
  function Field(members: Members, name: string): (r: Result<Option<Json>, TransportError>)
    ensures r.Ok? <==> Occurrences(members, name) <= 1
    ensures r.Err? ==> r.error == InvalidJson
    ensures r == Ok(None) <==> !HasMember(members, name)
    ensures r.Ok? && r.value.Some? ==> (name, r.value.value) in members
  {
    if Occurrences(members, name) > 1 then Err(InvalidJson)
    else Ok(FirstMember(members, name))
  }

  /** In an object whose names are all different, each member is found as given. */
  lemma FieldOfDistinct(members: Members, i: int)
    requires 0 <= i < |members|
    requires forall a, b | 0 <= a < b < |members| :: members[a].0 != members[b].0
    ensures Field(members, members[i].0) == Ok(Some(members[i].1))
  {
    OccurrencesOne(members, i);
    FirstMemberAt(members, i);
  }

  lemma {:induction false} OccurrencesOne(members: Members, i: int)
    requires 0 <= i < |members|
    requires forall a, b | 0 <= a < b < |members| :: members[a].0 != members[b].0
    ensures Occurrences(members, members[i].0) == 1
  {
    var name := members[i].0;
    if i == 0 {
      assert !HasMember(members[1..], name) by {
        forall a | 0 <= a < |members[1..]| ensures members[1..][a].0 != name {
          assert members[1..][a] == members[a + 1];
        }
      }
    } else {
      OccurrencesOne(members[1..], i - 1);
      assert members[1..][i - 1] == members[i];
    }
  }

  lemma {:induction false} FirstMemberAt(members: Members, i: int)
    requires 0 <= i < |members|
    requires forall a | 0 <= a < i :: members[a].0 != members[i].0
    ensures FirstMember(members, members[i].0) == Some(members[i].1)
  {
    if i > 0 {
      FirstMemberAt(members[1..], i - 1);
      assert members[1..][i - 1] == members[i];
    }
  }

  function DecodeString(j: Json): (r: Result<string, TransportError>)
    ensures r.Ok? <==> j.JString?
    ensures r.Ok? ==> r.value == j.text
  {
    if j.JString? then Ok(j.text) else Err(InvalidJson)
  }

  function DecodeI32(j: Json): (r: Result<i32, TransportError>)
    ensures r.Ok? <==> AsI32(j).Some?
    ensures r.Ok? ==> AsI32(j) == Some(r.value)
  {
    var n := AsI32(j);
    if n.Some? then Ok(n.value) else Err(InvalidJson)
  }

  function DecodeU32(j: Json): (r: Result<u32, TransportError>)
    ensures r.Ok? <==> AsU32(j).Some?
    ensures r.Ok? ==> AsU32(j) == Some(r.value)
  {
    var n := AsU32(j);
    if n.Some? then Ok(n.value) else Err(InvalidJson)
  }

  /**
   * The derived `TransportStatus` (variants renamed to upper case): the
   * string `OK` or `ERROR`, or, as serde_json also reads a unit variant,
   * an object whose one member is that name with `null`.
   */
  function DecodeStatus(j: Json): (r: Result<Status, TransportError>)
    ensures r == Ok(StatusOk) <==> j == JString("OK") || j == JObject([("OK", JNull)])
    ensures r == Ok(StatusError) <==> j == JString("ERROR") || j == JObject([("ERROR", JNull)])
  {
    var name :=
      if j.JString? then Some(j.text)
      else if j.JObject? && |j.members| == 1 && j.members[0].1 == JNull then Some(j.members[0].0)
      else None;
    if name == Some("OK") then Ok(StatusOk)
    else if name == Some("ERROR") then Ok(StatusError)
    else Err(InvalidJson)
  }

  /** A required field: missing is an error. */
  function RequiredField<T>(members: Members, name: string, decode: Json -> Result<T, TransportError>)
    : (r: Result<T, TransportError>)
    ensures !HasMember(members, name) ==> r == Err(InvalidJson)
    ensures Occurrences(members, name) > 1 ==> r == Err(InvalidJson)
  {
    var f :- Field(members, name);
    if f.None? then Err(InvalidJson) else decode(f.value)
  }

  /** An `Option` field: absent and `null` are both `None`. */
  function OptionalField<T>(members: Members, name: string, decode: Json -> Result<T, TransportError>)
    : (r: Result<Option<T>, TransportError>)
    ensures !HasMember(members, name) ==> r == Ok(None)
    ensures Field(members, name) == Ok(Some(JNull)) ==> r == Ok(None)
    ensures Occurrences(members, name) > 1 ==> r == Err(InvalidJson)
  {
    var f :- Field(members, name);
    if f.None? || f.value.JNull? then Ok(None)
    else
      var v :- decode(f.value);
      Ok(Some(v))
  }

  /** Every member's value decoded, in order; the first failure is the answer. */
  function DecodeEntries<T>(members: Members, decode: Json -> Result<T, TransportError>)
    : (r: Result<seq<(string, T)>, TransportError>)
    ensures r.Ok? ==> |r.value| == |members|
    ensures r.Ok? ==> forall i | 0 <= i < |members| ::
                        r.value[i].0 == members[i].0 && decode(members[i].1) == Ok(r.value[i].1)
  {
    if |members| == 0 then Ok([])
    else
      var v :- decode(members[0].1);
      var rest :- DecodeEntries(members[1..], decode);
      Ok([(members[0].0, v)] + rest)
  }

  /** Every array item decoded, in order; the first failure is the answer. */
  function DecodeItems<T>(items: seq<Json>, decode: Json -> Result<T, TransportError>)
    : (r: Result<seq<T>, TransportError>)
    ensures r.Ok? ==> |r.value| == |items|
    ensures r.Ok? ==> forall i | 0 <= i < |items| :: decode(items[i]) == Ok(r.value[i])
  {
    if |items| == 0 then Ok([])
    else
      var v :- decode(items[0]);
      var rest :- DecodeItems(items[1..], decode);
      Ok([v] + rest)
  }

  /** How a list of strings is written in a reply. */
  function StringsJson(names: seq<string>): (r: seq<Json>)
    ensures |r| == |names|
  {
    seq(|names|, i requires 0 <= i < |names| => JString(names[i]))
  }

  /** An array of strings reads as those strings, in order. */
  lemma {:induction false} StringItems(names: seq<string>)
    ensures DecodeItems(StringsJson(names), DecodeString) == Ok(names)
  {
    if |names| > 0 {
      StringItems(names[1..]);
      assert StringsJson(names)[1..] == StringsJson(names[1..]);
      assert [names[0]] + names[1..] == names;
    }
  }

  /**
   * A `#[serde(default)] BTreeMap<String, T>` field: empty when absent, an
   * error for `null` or any non-object; the members are inserted in document
   * order, so a repeated key keeps its last value, and the map iterates in
   * ascending key order.
   */
  function DefaultMap<T>(members: Members, name: string, decode: Json -> Result<T, TransportError>)
    : (r: Result<seq<(string, T)>, TransportError>)
    ensures !HasMember(members, name) ==> r == Ok([])
    ensures Field(members, name) == Ok(Some(JNull)) ==> r == Err(InvalidJson)
  {
    var f :- Field(members, name);
    if f.None? then Ok([])
    else if !f.value.JObject? then Err(InvalidJson)
    else
      var entries :- DecodeEntries(f.value.members, decode);
      Ok(FromEntries(entries))
  }

  /** A `#[serde(default)] Vec<T>` field: empty when absent, an error for a non-array. */
  function DefaultList<T>(members: Members, name: string, decode: Json -> Result<T, TransportError>)
    : (r: Result<seq<T>, TransportError>)
    ensures !HasMember(members, name) ==> r == Ok([])
    ensures Field(members, name) == Ok(Some(JNull)) ==> r == Err(InvalidJson)
  {
    var f :- Field(members, name);
    if f.None? then Ok([])
    else if !f.value.JArray? then Err(InvalidJson)
    else DecodeItems(f.value.items, decode)
  }

  /** Every map a `DefaultMap` reads is ascending and no larger than the JSON object. */
  lemma DefaultMapShape<T>(members: Members, name: string, decode: Json -> Result<T, TransportError>)
    requires DefaultMap(members, name, decode).Ok?
    ensures Ascending(DefaultMap(members, name, decode).value)
    ensures Field(members, name).Ok?
    ensures Field(members, name).value.Some? ==>
              Field(members, name).value.value.JObject?
              && |DefaultMap(members, name, decode).value| <= |Field(members, name).value.value.members|
  {
    var f := Field(members, name).value;
    if f.Some? {
      var entries := DecodeEntries(f.value.members, decode).value;
      FromEntriesOrder(entries);
    }
  }

  /** The status, code and text every reply carries. */
  datatype Envelope = Envelope(status: Status, status_code: StatusCode, status_text: Option<string>)

  const STATUS_FIELD: string := "status"
  const STATUS_CODE_FIELD: string := "status_code"
  const STATUS_TEXT_FIELD: string := "status_text"

  /** The per-item object of the send, cost and status replies. */
  const SMS_FIELD: string := "sms"
  /** The account balance some replies carry. */
  const BALANCE_FIELD: string := "balance"

  /** `status` and `status_code` are required, `status_text` is optional. */
  function DecodeEnvelope(members: Members): (r: Result<Envelope, TransportError>)
    ensures !HasMember(members, STATUS_FIELD) ==> r.Err?
    ensures !HasMember(members, STATUS_CODE_FIELD) ==> r.Err?
    ensures r.Ok? && !HasMember(members, STATUS_TEXT_FIELD) ==> r.value.status_text.None?
    ensures r.Ok? ==> Field(members, STATUS_FIELD).Ok? && Field(members, STATUS_FIELD).value.Some?
                      && DecodeStatus(Field(members, STATUS_FIELD).value.value) == Ok(r.value.status)
  {
    var status :- RequiredField(members, STATUS_FIELD, DecodeStatus);
    var code :- RequiredField(members, STATUS_CODE_FIELD, DecodeI32);
    var text :- OptionalField(members, STATUS_TEXT_FIELD, DecodeString);
    Ok(Envelope(status, StatusCode(code), text))
  }

  /** How a status is written in a reply. */
  function StatusJson(s: Status): Json {
    if s == StatusOk then JString("OK") else JString("ERROR")
  }

  function OptStringJson(s: Option<string>): Json {
    if s.Some? then JString(s.value) else JNull
  }

  /** How an optional count is written in a reply. */
  function OptU32Json(n: Option<u32>): Json {
    if n.Some? then JNumber(Decimal(n.value)) else JNull
  }

  /** An optional count written out is read back as itself. */
  lemma OptU32RoundTrip(n: Option<u32>)
    ensures n.Some? ==> DecodeU32(OptU32Json(n)) == Ok(n.value)
    ensures n.None? ==> OptU32Json(n) == JNull
  {
    if n.Some? {
      AsU32Decimal(n.value);
    }
  }

  /** The members of a reply holding just the envelope. */
  function EnvelopeMembers(e: Envelope): Members {
    [(STATUS_FIELD, StatusJson(e.status)),
     (STATUS_CODE_FIELD, I32Json(e.status_code.code)),
     (STATUS_TEXT_FIELD, OptStringJson(e.status_text))]
  }

  /** An envelope written out is read back as itself, whatever other fields follow. */
  lemma EnvelopeRoundTrip(e: Envelope, rest: Members)
    requires forall i | 0 <= i < |rest| ::
      rest[i].0 != STATUS_FIELD && rest[i].0 != STATUS_CODE_FIELD && rest[i].0 != STATUS_TEXT_FIELD
    ensures DecodeEnvelope(EnvelopeMembers(e) + rest) == Ok(e)
  {
    var m := EnvelopeMembers(e) + rest;
    DistinctFieldsFound(EnvelopeMembers(e), rest, 0);
    DistinctFieldsFound(EnvelopeMembers(e), rest, 1);
    DistinctFieldsFound(EnvelopeMembers(e), rest, 2);
    I32JsonRoundTrip(e.status_code.code);
  }

  /**
   * A member of a leading list of distinct names is found as given when the
   * names that follow differ from them.
   */
  lemma DistinctFieldsFound(head: Members, rest: Members, i: int)
    requires 0 <= i < |head|
    requires forall a, b | 0 <= a < b < |head| :: head[a].0 != head[b].0
    requires forall a, b | 0 <= a < |head| && 0 <= b < |rest| :: head[a].0 != rest[b].0
    ensures Field(head + rest, head[i].0) == Ok(Some(head[i].1))
  {
    var m := head + rest;
    var name := head[i].0;
    FirstMemberAt(m, i);
    OccurrencesSplit(head, rest, name);
    OccurrencesOne(head, i);
    assert !HasMember(rest, name);
  }

  /** Members before any of the name's occurrences do not change how the field reads. */
  lemma FieldAfter(head: Members, rest: Members, name: string)
    requires !HasMember(head, name)
    ensures Field(head + rest, name) == Field(rest, name)
  {
    OccurrencesSplit(head, rest, name);
    FirstMemberAfter(head, rest, name);
  }

  lemma {:induction false} FirstMemberAfter(head: Members, rest: Members, name: string)
    requires !HasMember(head, name)
    ensures FirstMember(head + rest, name) == FirstMember(rest, name)
  {
    if |head| > 0 {
      assert (head + rest)[1..] == head[1..] + rest;
      assert head[0].0 != name;
      assert !HasMember(head[1..], name) by {
        forall a | 0 <= a < |head[1..]| ensures head[1..][a].0 != name {
          assert head[1..][a] == head[a + 1];
        }
      }
      FirstMemberAfter(head[1..], rest, name);
    } else {
      assert head + rest == rest;
    }
  }

  /**
   * In a reply made of the envelope and further members, the envelope reads
   * back as itself and every other field reads as in the further members.
   */
  lemma EnvelopeAndFields(e: Envelope, rest: Members, name: string)
    requires forall i | 0 <= i < |rest| ::
      rest[i].0 != STATUS_FIELD && rest[i].0 != STATUS_CODE_FIELD && rest[i].0 != STATUS_TEXT_FIELD
    requires name != STATUS_FIELD && name != STATUS_CODE_FIELD && name != STATUS_TEXT_FIELD
    ensures DecodeEnvelope(EnvelopeMembers(e) + rest) == Ok(e)
    ensures Field(EnvelopeMembers(e) + rest, name) == Field(rest, name)
  {
    EnvelopeRoundTrip(e, rest);
    FieldAfter(EnvelopeMembers(e), rest, name);
  }

  /** An optional string written out reads back as itself through any decoder that keeps strings. */
  lemma OptStringFieldRead(m: Members, name: string, s: Option<string>, decode: Json -> Result<string, TransportError>)
    requires Field(m, name) == Ok(Some(OptStringJson(s)))
    requires s.Some? ==> decode(JString(s.value)) == Ok(s.value)
    ensures OptionalField(m, name, decode) == Ok(s)
  {
  }

  /** An optional count written out reads back as itself. */
  lemma OptU32FieldRead(m: Members, name: string, n: Option<u32>)
    requires Field(m, name) == Ok(Some(OptU32Json(n)))
    ensures OptionalField(m, name, DecodeU32) == Ok(n)
  {
    OptU32RoundTrip(n);
  }

  /** A reply holding only the envelope reads it back and has no other field. */
  lemma EnvelopeOnlyField(e: Envelope, name: string)
    requires name != STATUS_FIELD && name != STATUS_CODE_FIELD && name != STATUS_TEXT_FIELD
    ensures DecodeEnvelope(EnvelopeMembers(e)) == Ok(e)
    ensures Field(EnvelopeMembers(e), name) == Ok(None)
  {
    EnvelopeRoundTrip(e, []);
    assert EnvelopeMembers(e) + [] == EnvelopeMembers(e);
  }

  lemma {:induction false} OccurrencesSplit(a: Members, b: Members, name: string)
    ensures Occurrences(a + b, name) == Occurrences(a, name) + Occurrences(b, name)
  {
    if |a| > 0 {
      OccurrencesSplit(a[1..], b, name);
      assert (a + b)[1..] == a[1..] + b;
    } else {
      assert a + b == b;
    }
  }
}
