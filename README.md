# SMS.RU client: the wire mapping, modelled in Dafny

This project models the core of a Rust client for the SMS.RU HTTP API. The
core is the layer between the client's typed requests and responses and the
form posts and JSON replies that SMS.RU exchanges:

- **Validated values** (`Value`, `Validation`). Identifiers such as `api_id`,
  logins, sender ids, message ids, call-check ids and raw phone numbers are
  trimmed and refused when blank. Passwords and message texts are kept as
  given. Message lifetimes are bounded to 1..=1440 minutes. SMS.RU status
  codes are mapped to known variants, and some are marked retryable or
  authentication failures.
- **Requests** (`Request`). The send and cost requests take one text for many
  recipients or one text per recipient. The status request takes message ids.
  Each is bounded to 100 recipients or ids.
- **Form encoders** (`Form` and the per-endpoint modules). Each request
  becomes the ordered list of `name=value` pairs the client posts: the
  `json=1` marker, comma-joined recipients or bracketed `to[<number>]`
  names, and the options in a fixed order.
- **Reply decoders** (`Transport`, `Money`, `SortedMap`, `ItemMap`,
  `KeyMatch` and the per-endpoint modules). Each reply's JSON object is read
  as serde reads the derived transport structs: required and optional fields,
  defaulted maps and lists, untagged numbers-or-strings. The per-recipient
  and per-message keys are then matched back to the request's own phone
  numbers or ids, trimmed key first, then the key as sent. A key that
  matches nothing fails the whole reply.
- **The client** (`Client`). It covers the two kinds of credentials, the
  builder's endpoint table, the refusal of plain-text mode before anything
  is posted, and the classification of every answer. A transport failure,
  a non-2xx status, an undecodable body and a top-level `ERROR` each become
  their own error.

Each imperative step of the source is a method proved equal to a
specification function:

- the encoders' `push_*` loops;
- `insert_phone_keys` and `phone_lookup_from_request`;
- the HTTP transport's log of posts;
- the builder's setters;
- each client call.

The properties are lemmas about those functions: round trips from a reply
written out to the value decoded, field-by-field readings of a posted form,
and the completeness and soundness of key matching.

JSON is an abstract parsed value (`JsonValue.Json`). Object members are kept
in document order and number literals keep their text. Parsing the body
text into that value is a parameter (`parse: string -> Option<Json>`).

## Model

| member | source | states |
|---|---|---|
| Value.NewToken | src/domain/value.rs:16-23 | the shared rule of the trimming constructors: accepted exactly when the input is not all whitespace, the value is then the trimmed input (non-empty and trimmed), otherwise `Empty(field)` |
| Value.NewApiId | src/domain/value.rs:16-23 | `ApiId::new`: ok iff not blank, value is the trimmed input, error `Empty("api_id")` |
| Value.NewLogin | src/domain/value.rs:42-50 | `Login::new`: ok iff not blank, trimmed value, error `Empty("login")` |
| Value.NewPassword | src/domain/value.rs:68-74 | `Password::new`: ok iff non-empty, value is the input unchanged (whitespace kept), error `Empty("password")` |
| Value.NewPartnerId | src/domain/value.rs:93-101 | `PartnerId::new`: ok iff not blank, trimmed value, error `Empty("partner_id")` |
| Value.NewSenderId | src/domain/value.rs:119-127 | `SenderId::new`: ok iff not blank, trimmed value, error `Empty("from")` |
| Value.NewMessageText | src/domain/value.rs:145-151 | `MessageText::new`: ok iff not blank, value is the input untrimmed, error `Empty("msg")` |
| Value.NewSmsId | src/domain/value.rs:170-178 | `SmsId::new`: ok iff not blank, trimmed value, error `Empty("sms_id")` |
| Value.NewCallCheckId | src/domain/value.rs:196-204 | `CallCheckId::new`: ok iff not blank, trimmed value, error `Empty("check_id")` |
| Value.NewRawPhoneNumber | src/domain/value.rs:223-230 | `RawPhoneNumber::new`: ok iff not blank, trimmed value, error `Empty("to")` |
| Value.NewTokenStable | src/domain/value.rs:622-653 | a value a trimming constructor produced is accepted again and comes back unchanged |
| Value.NewTtlMinutes | src/domain/value.rs:357-371 | ok iff 1 <= value <= 1440, value kept; otherwise `TtlOutOfRange(1, 1440, value)` |
| Value.KnownFromCodeSound | src/domain/value.rs:534-595 | every code `from_code` recognises is the wire code of the variant it returns |
| Value.KnownFromCodeComplete | src/domain/value.rs:534-595 | every known variant is recognised again from its own wire code (with `KnownFromCodeSound`: the table is a bijection on the codes it lists) |
| Value.IsRetryable | src/domain/value.rs:407-412 | true exactly for the codes 220, 304, 305 and 500 |
| Value.IsAuthError | src/domain/value.rs:415-420 | true exactly for the codes 200, 300, 301 and 302 |
| Value.RetryableNotAuth | src/domain/value.rs:598-614 | no status code is both retryable and an authentication failure |
| Value.KnownCallCheckFromCode | src/domain/value.rs:457-464 | recognised exactly for 400..=402, and the variant's wire code is the input |
| Value.CallCheckCodesAgree | src/domain/value.rs:457-464 | the three call-check codes name the matching call-check variants of the general status table |
| Validation.Message | src/domain/validation.rs:11-27 | an `Empty` message starts with the field name; what the other messages report is stated by the three lemmas below |
| Validation.MessageEmptyInjective | src/domain/validation.rs:14 | two empty-field messages are equal only when they name the same field |
| Validation.MessageTtlReportsActual | src/domain/validation.rs:19-24 | two out-of-range messages with the same bounds are equal only for the same rejected value |
| Validation.MessageTtlInjective | src/domain/validation.rs:19-24 | the out-of-range message reports the rejected value and both bounds: equal messages mean equal errors |
| Validation.MessageRecipientsReportsCounts | src/domain/validation.rs:15-17 | the too-many-recipients message reports the count and the limit: equal messages mean equal errors |
| Validation.MessagePhoneReportsInput | src/domain/validation.rs:18 | the invalid-number message carries the input verbatim: equal messages mean equal inputs |
| Text.Trim | src/domain/value.rs:16-23 | `str::trim`: the result is trimmed and is the slice of the input between two all-whitespace margins |
| Text.TrimEmpty | src/domain/value.rs:16-23 | trimming leaves nothing exactly when the input is all whitespace |
| Text.TrimIdempotent | src/domain/value.rs:16-23 | trimming twice is trimming once |
| Text.TrimOfTrimmed | src/domain/value.rs:16-23 | a string with no surrounding whitespace is left unchanged by trimming |
| Text.PaddedTrim | src/transport/account.rs:91-97 | whitespace padding around a trimmed non-empty text is removed by trimming, giving the text back |
| Text.TrimUnique | src/domain/value.rs:16-23 | any slice with whitespace margins and non-whitespace ends is the trimmed string |
| Text.SplitJoin | src/transport/send_sms.rs:78-84 | joining non-empty parts with a separator no part contains is undone by splitting on it |
| Numeric.Decimal | src/transport/send_sms.rs:117-122 | `to_string` of an unsigned number: non-empty ASCII digits, no leading zero except for 0 |
| Numeric.DecimalValue | src/transport/send_sms.rs:117-122 | the digits' value is the number rendered |
| Numeric.DecimalInjective | src/transport/send_sms.rs:117-122 | different numbers render differently |
| Numeric.ParseU32 | src/transport/account.rs:91-97 | `parse::<u32>` accepts exactly a non-empty run of digits, after an optional `+`, whose value fits in 32 bits, and returns that value; a lone `+` is refused |
| Numeric.ParseI32 | src/transport/callcheck_status.rs:50-59 | `parse::<i32>` accepts exactly a non-empty run of digits after an optional `+` or `-` whose signed value lies in the `i32` range, and returns that signed value |
| Numeric.ParseLoneSign | src/transport/account.rs:91-97 | a sign with no digits after it is refused by both parses |
| Numeric.ParseU32Decimal | src/transport/account.rs:91-97 | every `u32` survives `to_string` then `parse::<u32>` |
| Numeric.ParseU32Plus | src/transport/account.rs:91-97 | `parse::<u32>` accepts and ignores a leading `+` |
| Numeric.ParseU32Minus | src/transport/account.rs:91-97 | `parse::<u32>` refuses anything starting with `-` |
| Numeric.ParseI32Decimal | src/transport/callcheck_status.rs:50-59 | every `i32` survives being written, with its sign, and parsed by `parse::<i32>` |
| JsonValue.AsI32 | src/transport/send_sms.rs:36-38 | a JSON value reads as an `i32` only when it is a number literal holding that integer |
| JsonValue.AsU32 | src/transport/account.rs:84-89 | a JSON value reads as a `u32` only when it is a number literal holding that integer |
| JsonValue.AsI32Decimal | src/transport/callcheck_status.rs:44-47 | a non-negative `i32` written in decimal reads back as itself |
| JsonValue.AsU32Decimal | src/transport/account.rs:84-89 | a `u32` written as a number literal reads back as itself |
| JsonValue.AsI32Negative | src/transport/send_sms.rs:36-38 | a negative `i32` written as `-` and its magnitude reads back as itself |
| JsonValue.I32JsonRoundTrip | src/transport/send_sms.rs:36-38 | every `i32` status code written into a reply reads back as itself |
| Transport.ObjectMembers | src/transport/account.rs:31-37 | a reply struct is read from a JSON object's members, in document order; any other value is `InvalidJson` (the array form serde also accepts is left out) |
| Transport.DecodeStatus | src/transport/send_sms.rs:20-25 | the status reads as `OK` exactly for the string `"OK"` (or the unit-variant object) and as `ERROR` exactly for `"ERROR"` |
| Transport.RequiredField | src/transport/send_sms.rs:36-38 | a required field that is missing or repeated fails the reply |
| Transport.OptionalField | src/transport/send_sms.rs:39-40 | an `Option` field that is absent or `null` is `None`; a repeated field fails the reply |
| Transport.DecodeEntries | src/transport/send_sms.rs:43-44 | on success every member is decoded, with its name and in order |
| Transport.DecodeItems | src/transport/account.rs:77-79 | on success every array item is decoded, in order |
| Transport.StringItems | src/transport/account.rs:77-79 | an array of strings reads as those strings, in order |
| Transport.DefaultMap | src/transport/send_sms.rs:43-44 | a defaulted map field is empty when absent and an error when `null` |
| Transport.DefaultList | src/transport/account.rs:77-79 | a defaulted list field is empty when absent and an error when `null` |
| Transport.DefaultMapShape | src/transport/send_sms.rs:43-44 | a defaulted map is key-ascending and no larger than the JSON object it came from |
| Transport.DecodeEnvelope | src/transport/account.rs:31-36 | `status` and `status_code` are required and `status_text` is optional; the status read is that of the `status` field |
| Transport.EnvelopeRoundTrip | src/transport/account.rs:31-36 | an envelope written out reads back as itself, whatever other fields follow |
| Transport.EnvelopeAndFields | src/transport/account.rs:31-36 | in a reply of the envelope and further members, every other field reads as in the further members |
| Transport.OptU32RoundTrip | src/transport/check_cost.rs:50-60 | an optional count written out reads back as itself |
| Money.IntoString | src/transport/money.rs:12-14 | `into_string` gives back the stored text unchanged |
| Money.DeserializeMoney | src/transport/money.rs:17-35 | an amount is accepted exactly when it is a string or a number literal; anything else is `InvalidJson` |
| Money.DecodeMoneyKeepsText | src/transport/money.rs:25-34 | a string amount reads as its content and a number amount as its literal text |
| Money.DecodeMoneyRejects | src/transport/money.rs:25-34 | `null`, booleans, arrays and objects are refused |
| Money.MoneyExamples | src/transport/check_status.rs:155-185 | the amounts of the tests (`10.00`, `0.50`, `4122.56`, `0.00`, `"10.50"`) read back verbatim |
| SortedMap.InsertContent | src/transport/send_sms.rs:43-44 | a `BTreeMap` insert holds the new entry and every other key's old entry, and nothing else |
| SortedMap.InsertAscending | src/transport/send_sms.rs:43-44 | an insert keeps the entries in ascending key order |
| SortedMap.InsertKeys | src/transport/send_sms.rs:43-44 | an insert adds its key and keeps every other |
| SortedMap.FromEntriesOrder | src/transport/send_sms.rs:43-44 | reading members into a map keeps every key, in ascending order |
| SortedMap.FromEntriesContent | src/transport/send_sms.rs:43-44 | for each key the map keeps the value of its last occurrence, and holds nothing else |
| SortedMap.AscendingUnique | src/transport/send_sms.rs:43-44 | two ascending lists with the same entries are the same list, so iteration order is fixed by content |
| ItemMap.DefaultMapFromObject | src/transport/send_sms.rs:43-44 | the items serde reads come from the object's members; every member key is among them; there are no more items than members |
| ItemMap.OneEntry | src/transport/send_sms.rs:43-44 | a one-member object whose value decodes gives the one-entry map |
| ItemMap.ResolveOne | src/transport/send_sms.rs:143-161 | collecting a single item whose key resolves gives the one-entry map under the resolved key |
| ItemMap.ResolvedItems | src/transport/send_sms.rs:143-161 | a collected per-item map: every member resolved to a key of the map, every key came from a member, and every value is that member's decoding |
| ItemMap.ResolvedItemsError | src/transport/send_sms.rs:143-161 | a failed collection fails on a member of the reply object, with that member's error |
| Form.PushJson | src/transport/send_sms.rs:105-109 | `push_json` appends `json=1` in JSON mode and nothing otherwise |
| Form.OptParam | src/transport/send_sms.rs:111-136 | an optional parameter adds one pair exactly when set, with its value, and nothing when unset |
| Form.FlagParam | src/transport/send_sms.rs:111-136 | a flag adds `name=1` exactly when on, and nothing when off |
| Form.FirstValue | src/transport/send_sms.rs:73-103 | a lookup finds a value exactly when some pair has the name, and the value found is from such a pair |
| Form.JoinedPhonesSplit | src/transport/send_sms.rs:78-84 | splitting the joined `to` value on commas gives back the recipients, in order, when no number holds a comma |
| Form.BracketKey | src/transport/send_sms.rs:95 | `to[<raw>]`: the raw number framed by `to[` and `]` |
| Form.BracketKeyRoundTrip | src/transport/send_sms.rs:95 | a bracketed name gives back its number and is never `to`, `msg` or `json` |
| Form.PushBracketParams | src/transport/send_sms.rs:94-97 | the per-recipient loop appends exactly one bracketed pair per entry, in map order |
| Form.BracketParamsRecover | src/transport/send_sms.rs:94-97 | reading the bracketed names back recovers every number and its text, strictly ascending |
| Form.BracketParamsDistinct | src/transport/send_sms.rs:94-97 | each number's text is found under its own bracketed name |
| Form.PresentValue | src/transport/send_sms.rs:111-136 | an option is sent exactly when it is set, with its value |
| Form.PresentPairOrder | src/transport/send_sms.rs:111-136 | two option pairs in sending order come from two option slots in the same order |
| Form.PresentAbsent | src/transport/send_sms.rs:111-136 | a name no option slot carries is never sent |
| Form.JsonFirst | src/transport/send_sms.rs:74-76 | a form that starts with the marker carries `json` exactly at its head, and only in JSON mode |
| Form.BracketFormText | src/transport/send_sms.rs:92-99 | in a per-recipient form each number's text is found under its bracketed name |
| Form.BracketFormSkips | src/transport/send_sms.rs:92-99 | a name that is neither the marker nor bracketed is looked up past the marker and the bracketed pairs |
| SendSmsTransport.SendOptionSlots | src/transport/send_sms.rs:111-136 | the option slots are the eight option names in the fixed sending order |
| SendSmsTransport.PushOptions | src/transport/send_sms.rs:111-136 | `push_options` appends exactly the present options, in the fixed order |
| SendSmsTransport.PushRoutingOptions | src/transport/send_sms.rs:112-123 | the first half of `push_options` appends exactly the present routing options, in order |
| SendSmsTransport.PushFlagOptions | src/transport/send_sms.rs:124-135 | the second half of `push_options` appends exactly the present flags and partner id, in order |
| SendSmsTransport.EncodeSendSmsForm | src/transport/send_sms.rs:73-103 | the imperative encoder builds exactly the specified form |
| SendSmsTransport.EncodeToManyForm | src/transport/send_sms.rs:77-91 | the one-text arm is the marker, `to`, `msg`, then the options |
| SendSmsTransport.EncodePerRecipientForm | src/transport/send_sms.rs:92-99 | the per-recipient arm is the marker, the bracketed pairs, then the options |
| SendSmsTransport.SendOptionValues | src/transport/send_sms.rs:111-136 | each option is sent exactly when set: ids as written, the address as displayed, time and lifetime in decimal, flags as `1` |
| SendSmsTransport.SendOptionOrder | src/transport/send_sms.rs:111-136 | options are sent in the order `from, ip, time, ttl, daytime, translit, test, partner_id` |
| SendSmsTransport.SendOptionNamesDiffer | src/transport/send_sms.rs:111-136 | no option is named `json`, `to` or `msg`, nor has a bracketed name |
| SendSmsTransport.SendSmsFormJson | src/transport/send_sms.rs:105-109 | `json=1` is sent exactly in JSON mode, then as the first pair, and no other pair is named `json` |
| SendSmsTransport.SendSmsToManyFields | src/transport/send_sms.rs:77-91 | a one-text form reads back as the joined recipients, the text and the options; the `to` value splits back into the recipients |
| SendSmsTransport.SendSmsPerRecipientFields | src/transport/send_sms.rs:92-99 | a per-recipient form has no `to` or `msg`; each number's text is under its bracketed name; the options read as sent |
| SendSmsTransport.DecodeBalance | src/transport/send_sms.rs:47-62 | a balance is accepted exactly when it is a string or a number; anything else is `InvalidJson` |
| SendSmsTransport.SmsResultRoundTrip | src/transport/send_sms.rs:64-71 | a per-recipient result written out reads back as itself, `ERROR` items included |
| SendSmsTransport.DecodeSendSmsKeys | src/transport/send_sms.rs:138-169 | on success every result key is a number of the request; every member of `sms` matched a number that is a key; there are no more keys than members; each value decodes from a member matching its key; the envelope is the reply's |
| SendSmsTransport.DecodeSendSmsErrors | src/transport/send_sms.rs:138-169 | `InvalidJson` exactly when serde cannot read the reply; otherwise a failure names a member of `sms`, as sent, that matches no number, and it is the first key of the ascending `sms` map that matches none |
| SendSmsTransport.SendFirstUnmatched | src/transport/send_sms.rs:143-161 | the key a failed reply reports is the first, in the map's ascending key order, that matches no number: every key before it matched |
| SendSmsTransport.DecodeSendSmsOneMember | src/transport/send_sms.rs:138-169 | a one-member reply under any key that matches a number decodes to that number's result, with the balance rendered |
| SendSmsTransport.DecodeSendSmsExample | src/transport/send_sms.rs:299-330 | the test's reply for `+79251234567` lands under the request's number |
| CheckCostTransport.CostOptionParams | src/transport/check_cost.rs:100-107 | the cost options only ever carry `from` and `translit` |
| CheckCostTransport.PushCostOptions | src/transport/check_cost.rs:100-107 | `push_options` appends exactly the cost option pairs |
| CheckCostTransport.CostOptionValues | src/transport/check_cost.rs:100-107 | the sender is sent exactly when set, as written, and `translit=1` exactly when the flag is on |
| CheckCostTransport.EncodeCheckCostForm | src/transport/check_cost.rs:62-92 | the imperative encoder builds exactly the specified form |
| CheckCostTransport.EncodeCostToManyForm | src/transport/check_cost.rs:66-80 | the one-text arm is the marker, `to`, `msg`, then the options |
| CheckCostTransport.EncodeCostPerRecipientForm | src/transport/check_cost.rs:81-88 | the per-recipient arm is the marker, the bracketed pairs, then the options |
| CheckCostTransport.CheckCostFormJson | src/transport/check_cost.rs:94-98 | `json=1` is sent exactly in JSON mode, then first, and no other pair is named `json` |
| CheckCostTransport.CheckCostToManyFields | src/transport/check_cost.rs:66-80 | a one-text cost form reads back as the joined recipients, the text and both options |
| CheckCostTransport.CheckCostPerRecipientFields | src/transport/check_cost.rs:81-88 | a per-recipient cost form has no `to` or `msg`; each text is under its bracketed name; the options read as sent |
| CheckCostTransport.CheckCostToManyExample | src/transport/check_cost.rs:203-228 | two recipients, a sender and transliteration in JSON mode give exactly the five pairs of the test, in order |
| CheckCostTransport.CheckCostPlainExample | src/transport/check_cost.rs:252-265 | without JSON mode no pair is named `json` |
| CheckCostTransport.SmsCostResultRoundTrip | src/transport/check_cost.rs:50-60 | a per-recipient price written out reads back as itself, `ERROR` items included |
| CheckCostTransport.DecodeCheckCostKeys | src/transport/check_cost.rs:109-142 | on success every key is a number of the request; every member of `sms` matched a number that is a key; no more keys than members; each value decodes from a matching member; the envelope is the reply's |
| CheckCostTransport.DecodeCheckCostErrors | src/transport/check_cost.rs:109-142 | `InvalidJson` exactly when serde cannot read the reply; otherwise a failure names an unmatched member of `sms`, as sent, and it is the first key of the ascending `sms` map that matches no number |
| CheckCostTransport.CostFirstUnmatched | src/transport/check_cost.rs:109-142 | the key a failed reply reports is the first, in the map's ascending key order, that matches no number: every key before it matched |
| CheckCostTransport.DecodeCheckCostEnvelopeOnly | src/transport/check_cost.rs:374-393 | a top-level `ERROR` reply decodes whatever the request: no totals and no items |
| CheckStatusTransport.CheckStatusFormFields | src/transport/check_status.rs:55-68 | the status form always asks for JSON, and its `sms_id` value splits back into the ids when none holds a comma |
| CheckStatusTransport.CheckStatusFormExample | src/transport/check_status.rs:134-153 | two ids give `json=1` and `sms_id=<a>,<b>` |
| CheckStatusTransport.SmsStatusResultRoundTrip | src/transport/check_status.rs:46-53 | a message's state written out reads back as itself, `ERROR` items included |
| CheckStatusTransport.DecodeCheckStatusKeys | src/transport/check_status.rs:70-101 | on success every key is an id of the query; every member of `sms` is a queried id, trimmed or as sent, and lands under a key; no more keys than members; each value decodes from its member |
| CheckStatusTransport.DecodeCheckStatusErrors | src/transport/check_status.rs:70-101 | `InvalidJson` exactly when serde cannot read the reply; otherwise a failure names a member that is no queried id, trimmed or not, and it is the first such key of the ascending `sms` map |
| CheckStatusTransport.StatusFirstUnmatched | src/transport/check_status.rs:70-101 | the key a failed reply reports is the first, in the map's ascending key order, that is no queried id: every key before it is one, trimmed or as sent |
| CheckStatusTransport.DecodeCheckStatusOneMember | src/transport/check_status.rs:187-210 | a one-member reply under the id, padded or not, lands under that id with no balance |
| CheckStatusTransport.OneStatusNoBalance | src/transport/check_status.rs:33-44 | a status reply without a `balance` field reads as no balance |
| CheckStatusTransport.DecodeCheckStatusEnvelopeOnly | src/transport/check_status.rs:246-264 | a top-level `ERROR` reply decodes whatever the query: no balance and no items |
| CallCheckAddTransport.StartCallAuthForm | src/transport/callcheck_add.rs:51-61 | the form carries `json` exactly in JSON mode, first, and ends with the phone |
| CallCheckAddTransport.EncodeStartCallAuthForm | src/transport/callcheck_add.rs:51-61 | the imperative encoder builds exactly the specified form |
| CallCheckAddTransport.StartCallAuthFormExamples | src/transport/callcheck_add.rs:101-130 | default options give `json=1, phone=<p>`; plain mode gives `phone=<p>` alone |
| CallCheckAddTransport.ValidateCheckId | src/transport/callcheck_add.rs:70-77 | a present check id is trimmed; a blank one is `InvalidCheckId` with the value as sent; absent stays absent |
| CallCheckAddTransport.ValidateCallPhone | src/transport/callcheck_add.rs:78-83 | a present call phone is trimmed; a blank one is `InvalidCallPhone` with the value as sent; absent stays absent |
| CallCheckAddTransport.ValidateStartCases | src/transport/callcheck_add.rs:63-92 | the check id's error comes first, then the phone's; otherwise the envelope and renderings are copied and both values trimmed |
| CallCheckAddTransport.StartCallAuthRoundTrip | src/transport/callcheck_add.rs:63-92 | a non-blank check id and phone come back trimmed, whatever padding SMS.RU added; the renderings are copied |
| CallCheckAddTransport.StartCallAuthBlankCheckId | src/transport/callcheck_add.rs:70-77 | a blank check id fails the reply, even when the phone is blank too |
| CallCheckAddTransport.StartCallAuthBlankCallPhone | src/transport/callcheck_add.rs:78-83 | with a valid check id, a blank phone fails the reply |
| CallCheckAddTransport.StartCallAuthEnvelopeOnly | src/transport/callcheck_add.rs:63-92 | a top-level `ERROR` reply has no check id, phone or renderings |
| CallCheckStatusTransport.CheckCallAuthStatusForm | src/transport/callcheck_status.rs:62-75 | the form carries `json` exactly in JSON mode, first, and ends with the check id |
| CallCheckStatusTransport.EncodeCheckCallAuthStatusForm | src/transport/callcheck_status.rs:62-75 | the imperative encoder builds exactly the specified form |
| CallCheckStatusTransport.CheckCallAuthStatusFormExamples | src/transport/callcheck_status.rs:103-134 | the default options give `json=1, check_id=<id>`; plain mode gives `check_id=<id>` alone |
| CallCheckStatusTransport.DecodeCheckCode | src/transport/callcheck_status.rs:44-47 | the untagged read: an `i32` number first, then any string; anything else is `InvalidJson` |
| CallCheckStatusTransport.IntoCode | src/transport/callcheck_status.rs:50-59 | a number is kept; a string gives a code exactly when its trimmed text parses as `i32`, and then that value |
| CallCheckStatusTransport.CheckStatusField | src/transport/callcheck_status.rs:77-91 | an absent or `null` status is none; otherwise the untagged read followed by `into_code` |
| CallCheckStatusTransport.CheckCodeNumber | src/transport/callcheck_status.rs:158-194 | a status written as a number reads as that code, known or not |
| CallCheckStatusTransport.CheckCodeDigits | src/transport/callcheck_status.rs:136-157 | a status written as signed digits, padded with whitespace or not, reads as its value |
| CallCheckStatusTransport.CheckCodeJunk | src/transport/callcheck_status.rs:50-59 | a string that is no `i32` gives no status, and no error |
| CallCheckStatusTransport.CheckCodeRejects | src/transport/callcheck_status.rs:44-47 | a status that is neither an `i32` number nor a string fails the reply |
| CallCheckStatusTransport.CheckCodeExamples | src/transport/callcheck_status.rs:136-157 | the test's string status `"401"` reads as code 401, a confirmed call |
| CallCheckStatusTransport.CheckCodeNumberExample | src/transport/callcheck_status.rs:158-194 | the test's numeric status `400` reads as code 400, a call not confirmed yet |
| CallCheckStatusTransport.CheckCodeText | src/transport/callcheck_status.rs:50-59 | a status written as the bare digits of a non-negative `i32` reads as that value |
| CallCheckStatusTransport.StatusReplyRoundTrip | src/transport/callcheck_status.rs:77-91 | a poll reply reads as its envelope, its status as `into_code` reads it and its text; a status of the wrong kind fails the reply |
| CallCheckStatusTransport.CheckCallAuthStatusEnvelopeOnly | src/transport/callcheck_status.rs:77-91 | a top-level `ERROR` reply has no status and no text |
| AccountTransport.JsonOnlyForm | src/transport/account.rs:99-121 | the five account forms are the single pair `json=1` |
| AccountTransport.JsonOnlyFormAsksJson | src/transport/account.rs:99-101 | the account form asks for JSON and holds nothing but the marker |
| AccountTransport.DecodeCount | src/transport/account.rs:84-89 | the untagged count: a `u32` number first, then any string; anything else is `InvalidJson` |
| AccountTransport.IntoU32 | src/transport/account.rs:91-97 | a number is kept; a string is its trimmed text parsed as `u32` |
| AccountTransport.CountField | src/transport/account.rs:142-151 | an absent or `null` counter is none; otherwise the untagged read followed by `into_u32` |
| AccountTransport.CountNumber | src/transport/account.rs:84-89 | a counter written as a number literal reads as that count |
| AccountTransport.CountDigits | src/transport/account.rs:91-97 | a counter written as digits, padded with whitespace or not, reads as its value |
| AccountTransport.CountJunk | src/transport/account.rs:91-97 | a string that is no `u32` gives no counter, and no error |
| AccountTransport.CountRejects | src/transport/account.rs:84-89 | a counter that is neither a `u32` number nor a string fails the reply |
| AccountTransport.CountExamples | src/transport/account.rs:229-260 | the string counters of the tests, `"5"` and `"7"`, read as their values |
| AccountTransport.CountNumberExamples | src/transport/account.rs:229-260 | the numeric counters of the tests, `3` and `100`, read as their values |
| AccountTransport.StatusOnlyRoundTrip | src/transport/account.rs:123-130 | the status-only reply reads back its envelope and ignores unknown fields |
| AccountTransport.BalanceReplyRoundTrip | src/transport/account.rs:132-140 | the balance reads as the text SMS.RU wrote, string or number; without the field there is none |
| AccountTransport.FreeUsageRoundTrip | src/transport/account.rs:142-151 | both free-usage counters read back, each written as a number or as digits |
| AccountTransport.LimitUsageRoundTrip | src/transport/account.rs:153-162 | both limit-usage counters read back, each written as a number or as digits |
| AccountTransport.SendersRoundTrip | src/transport/account.rs:164-172 | the sender names read back in order with repeats; without the field the list is empty |
| AccountTransport.SendersRejectsNonArray | src/transport/account.rs:74-81 | a `senders` field that is not an array fails the reply |
| StoplistTransport.AddStoplistForm | src/transport/stoplist.rs:44-56 | the add form is `json=1`, the phone, then the note |
| StoplistTransport.RemoveStoplistForm | src/transport/stoplist.rs:58-66 | the remove form is `json=1` then the phone |
| StoplistTransport.GetStoplistForm | src/transport/stoplist.rs:68-70 | the listing form is `json=1` alone |
| StoplistTransport.StoplistFormsFields | src/transport/stoplist.rs:44-70 | the forms always ask for JSON, name the phone once, and only adding carries a note |
| StoplistTransport.StoplistKey | src/transport/stoplist.rs:79-83 | a listed key is accepted exactly when not blank, as its trimmed text; a blank key is `InvalidStoplistPhoneKey` with the key as sent |
| StoplistTransport.DecodeStoplistKeys | src/transport/stoplist.rs:72-90 | on success every member lands under its trimmed key, every phone is such a key with its note copied, and there are no more phones than members |
| StoplistTransport.DecodeStoplistErrors | src/transport/stoplist.rs:72-90 | `InvalidJson` exactly when serde cannot read the reply; otherwise the failure carries a blank member key, as sent, and it is the first blank key of the ascending map |
| StoplistTransport.StoplistBlankMember | src/transport/stoplist.rs:79-83 | a failed listing names a member key of the reply object that is blank |
| StoplistTransport.StoplistFirstBlank | src/transport/stoplist.rs:72-90 | the key a failed listing reports is the first blank key in the map's ascending key order: every key before it is a phone number |
| StoplistTransport.StoplistOneEntry | src/transport/stoplist.rs:72-90 | a non-blank key, padded or not, lists its note under the trimmed phone |
| StoplistTransport.StoplistBlankKey | src/transport/stoplist.rs:79-83 | a blank key fails the listing with that key |
| StoplistTransport.StoplistEnvelopeOnly | src/transport/stoplist.rs:72-90 | without a `stoplist` field the listing is empty |
| CallbackTransport.AddCallbackForm | src/transport/callback.rs:42-50 | the add form is `json=1` then the URL |
| CallbackTransport.RemoveCallbackForm | src/transport/callback.rs:52-60 | the remove form is `json=1` then the URL |
| CallbackTransport.GetCallbacksForm | src/transport/callback.rs:62-64 | the listing form is `json=1` alone |
| CallbackTransport.AddRemoveSameForm | src/transport/callback.rs:42-60 | adding and removing a URL post the same pairs; only the endpoint tells them apart |
| CallbackTransport.ValidateUrls | src/transport/callback.rs:66-83 | every URL passes the URL check, keeping order and length; otherwise the first refused URL fails the list |
| CallbackTransport.CallbacksRoundTrip | src/transport/callback.rs:66-83 | URLs the check accepts come back in the order and number sent |
| CallbackTransport.CallbacksRejected | src/transport/callback.rs:66-83 | the first refused URL fails the reply, whatever follows |
| CallbackTransport.CallbacksEnvelopeOnly | src/transport/callback.rs:66-83 | without a `callback` field the list is empty |
| KeyMatch.PlusToggled | src/transport/send_sms.rs:202-215 | the other spelling of a number: without its leading `+`, or with one added; never the number itself |
| KeyMatch.InsertPhoneKeys | src/transport/send_sms.rs:202-215 | `insert_phone_keys` adds exactly the number and its other spelling, only where free, and keeps every existing entry |
| KeyMatch.PhoneLookupFromPhones | src/transport/send_sms.rs:189-200 | the imperative loop builds exactly the specified lookup table |
| KeyMatch.PhoneLookupKeys | src/transport/send_sms.rs:189-200 | the table holds exactly the keys some requested number registers |
| KeyMatch.PhoneLookupValues | src/transport/send_sms.rs:189-200 | every value of the table is a requested number |
| KeyMatch.PhoneLookupFirstWins | src/transport/send_sms.rs:202-215 | a key goes to the first number that registers it; later numbers never overwrite |
| KeyMatch.SmsIdLookup | src/transport/check_status.rs:103-109 | the id table holds exactly the queried ids, each under its own text |
| KeyMatch.PhoneLookupKeyPresent | src/transport/send_sms.rs:189-200 | every key a requested number registers is in the table |
| KeyMatch.PhoneLookupKeySource | src/transport/send_sms.rs:189-200 | every key of the table is registered by some requested number |
| KeyMatch.SinglePlusLookup | src/transport/send_sms.rs:202-215 | a number with a `+` registers exactly itself and itself without the `+` |
| KeyMatch.MatchKey | src/transport/send_sms.rs:171-187 | a key matches iff its trimmed text or the key as sent is in the table; the trimmed text wins |
| KeyMatch.MatchKeyIgnoresPadding | src/transport/send_sms.rs:171-187 | padding around a key that matches once trimmed does not change the match |
| KeyMatch.MatchPhoneKey | src/transport/send_sms.rs:171-187 | `match_phone_key`: the matched number, or `UnknownPhoneNumberKey` with the key as sent |
| KeyMatch.MatchSmsIdKey | src/transport/check_status.rs:111-125 | `match_sms_id_key`: the matched id, or `UnknownSmsIdKey` with the key as sent |
| KeyMatch.MatchPhoneKeyMissing | src/transport/send_sms.rs:184-186 | a key found neither trimmed nor as sent is `UnknownPhoneNumberKey` with the key as sent |
| KeyMatch.MatchPhoneKeyFromRequest | src/transport/send_sms.rs:171-187 | a matched reply key always names a number of the request |
| KeyMatch.MatchSmsIdKeyExact | src/transport/check_status.rs:111-125 | an id key matches exactly when its trimmed or untrimmed text is a queried id, and gives that id |
| KeyMatch.PlusPhonePadded | src/transport/check_cost.rs:304-330 | a number with a `+` matches the reply key of itself, padded with whitespace or not |
| KeyMatch.PlusPhoneUnplussed | src/transport/send_sms.rs:202-215 | a number with a `+` matches the reply key without its `+` |
| KeyMatch.PlusPhoneOther | src/transport/check_cost.rs:395-421 | any other key is refused with the key as sent |
| KeyMatch.PlusPhoneOtherTrimmed | src/transport/check_cost.rs:395-421 | a trimmed key that is neither the number nor the number without `+` is refused |
| KeyMatch.PhoneMatchExamples | src/transport/send_sms.rs:299-330 | a request for `+79251234567` accepts `+79251234567` and `79251234567` |
| KeyMatch.PhoneMismatchExample | src/transport/check_cost.rs:395-421 | a number the request does not hold is refused, carrying the key |
| KeyMatch.UntrimmedFallbackExample | src/transport/send_sms.rs:178-182 | the untrimmed fallback matters: a key reached only as sent still matches |
| KeyMatch.ResolveAllOk | src/transport/send_sms.rs:143-161 | collecting succeeds exactly when every key resolves |
| KeyMatch.ResolveAllFirstError | src/transport/send_sms.rs:143-161 | on failure the error is that of the first key that does not resolve |
| KeyMatch.ResolveAllFirstFailing | src/transport/send_sms.rs:143-161 | the position of that first failing key, with every key before it resolving |
| KeyMatch.ResolveAllKeys | src/transport/send_sms.rs:143-161 | on success the map's keys are exactly the resolved keys, and it is no larger than the items |
| KeyMatch.ResolveAllValues | src/transport/send_sms.rs:143-161 | the value kept for a key is that of the last item resolving to it |
| KeyMatch.ResolveAllValueSource | src/transport/send_sms.rs:143-161 | every value kept comes from an item whose key resolves to the value's key |
| Request.CheckCount | src/domain/request.rs:162-188 | the bound check passes iff 1 <= count <= max; none is `Empty(field)`, too many is `TooManyRecipients(max, count)` |
| Request.SendSmsToMany | src/domain/request.rs:162-188 | ok iff 1..=100 recipients; none is `Empty("to")`, more is `TooManyRecipients(100, n)` |
| Request.SendSmsPerRecipient | src/domain/request.rs:190-207 | ok iff 1..=100 numbers; none is `Empty("to")`, more is `TooManyRecipients(100, n)` |
| Request.CheckCostToMany | src/domain/request.rs:215-241 | ok iff 1..=100 recipients, with the same two errors |
| Request.CheckCostPerRecipient | src/domain/request.rs:243-260 | ok iff 1..=100 numbers, with the same two errors |
| Request.NewCheckStatus | src/domain/request.rs:326-340 | ok iff 1..=100 ids, kept in order; none is `Empty("sms_id")`, more is `TooManySmsIds(100, n)` |
| Request.CheckStatusOne | src/domain/request.rs:342-347 | the single-id request is the one `CheckStatus::new` builds from that id |
| Request.SendSmsPhones | src/transport/send_sms.rs:191-194 | the numbers a send request registers: its recipients, or its map's keys in order |
| Request.CheckCostPhones | src/transport/check_cost.rs:164-167 | the numbers a cost request registers: its recipients, or its map's keys in order |
| Client.NewApiIdAuth | src/client/mod.rs:85-88 | ok iff the token is not blank, holding it trimmed; else `Empty("api_id")` |
| Client.NewLoginPasswordAuth | src/client/mod.rs:90-98 | ok iff the login is not blank and the password non-empty; a blank login is reported first |
| Client.PushFormParams | src/client/mod.rs:100-118 | the credentials are appended after what the list holds |
| Client.PostedFields | src/client/mod.rs:466-468 | the posted list is the credentials then the form; a server reads the credentials under their names and every other name as in the form |
| Client.AuthExamples | src/client/mod.rs:1535-1539 | a blank token, an empty login and an empty password are all refused |
| Client.HttpTransport.PostForm | src/client/mod.rs:1179-1194 | a post is logged with its URL and pairs, and answers what the server answers |
| Client.ErrorBody | src/client/mod.rs:477-481 | the body kept with a non-2xx status is none iff blank, else the whole body untrimmed |
| Client.Classify | src/client/mod.rs:470-508 | transport failure, then non-2xx status, then decode failure, then top-level `ERROR` each give their own error; success exactly otherwise, with the decoded reply |
| Client.ClassifyHttpExamples | src/client/mod.rs:1334-1378 | a 500 keeps its body `oops`; a blank 503 body is none |
| Client.ClassifyUnparsable | src/client/mod.rs:1400-1415 | a body the JSON parser refuses is a `Parse` error |
| Client.EndpointIndex | src/client/mod.rs:18-33 | each endpoint has its own slot in the URL table |
| Client.SmsRuClientBuilder.constructor | src/client/mod.rs:177-203 | the builder starts with the credentials and the default URLs |
| Client.SmsRuClientBuilder.SetAllEndpoints | src/client/mod.rs:205-225 | `endpoint(url)` sets all sixteen URLs and keeps the credentials |
| Client.SmsRuClientBuilder.SetEndpoint | src/client/mod.rs:227-322 | a per-endpoint setter changes its own URL and no other |
| Client.SmsRuClient.constructor | src/client/mod.rs:419-443 | `SmsRuClient::new` holds the credentials and the default URLs |
| Client.SmsRuClient.Build | src/client/mod.rs:335-392 | `build` moves the builder's credentials and URLs into the client |
| Client.SmsRuClient.Call | src/client/mod.rs:466-508 | a call posts the credentials and the form once to the given URL and classifies the answer |
| Client.SmsRuClient.SendSms | src/client/mod.rs:459-509 | plain mode is refused with nothing posted; otherwise one post of the send form to the send URL, classified |
| Client.SmsRuClient.CheckCost | src/client/mod.rs:511-557 | plain mode is refused with nothing posted; otherwise one post of the cost form to the cost URL, classified |
| Client.SmsRuClient.CheckStatus | src/client/mod.rs:559-601 | one post of the status form to the status URL, classified |
| Client.SmsRuClient.StartCallAuth | src/client/mod.rs:603-651 | plain mode is refused with nothing posted; otherwise one post to the call-check URL, classified |
| Client.SmsRuClient.CheckCallAuthStatus | src/client/mod.rs:653-699 | plain mode is refused with nothing posted; otherwise one post to the call-status URL, classified |
| Client.SmsRuClient.CheckAuth | src/client/mod.rs:701-736 | one post of `json=1` to the auth-check URL, read as status only |
| Client.SmsRuClient.GetBalance | src/client/mod.rs:738-773 | one post of `json=1` to the balance URL, read as a balance reply |
| Client.SmsRuClient.GetFreeUsage | src/client/mod.rs:775-810 | one post of `json=1` to the free-usage URL |
| Client.SmsRuClient.GetLimitUsage | src/client/mod.rs:812-847 | one post of `json=1` to the limit URL |
| Client.SmsRuClient.GetSenders | src/client/mod.rs:849-884 | one post of `json=1` to the senders URL |
| Client.SmsRuClient.AddStoplistEntry | src/client/mod.rs:886-924 | one post of the add form to the stop-list add URL, read as status only |
| Client.SmsRuClient.RemoveStoplistEntry | src/client/mod.rs:926-964 | one post of the remove form to the stop-list delete URL, read as status only |
| Client.SmsRuClient.GetStoplist | src/client/mod.rs:966-1001 | one post of `json=1` to the stop-list URL, read as a listing |
| Client.SmsRuClient.AddCallback | src/client/mod.rs:1003-1041 | one post of the add form to the callback add URL, read as a URL list |
| Client.SmsRuClient.RemoveCallback | src/client/mod.rs:1043-1081 | one post of the remove form to the callback delete URL, read as a URL list |
| Client.SmsRuClient.GetCallbacks | src/client/mod.rs:1083-1118 | one post of `json=1` to the callback listing URL |
| Client.EndpointOverride | src/client/mod.rs:2067-2090 | after `endpoint(url)` and the build, every method posts to `url` |

## Left out

- HTTP itself (reqwest, async, TLS, timeouts, the user agent, the error when the HTTP client cannot be built) is not modelled. The transport is a class that logs each post and answers through a function parameter.
- Percent-encoding of the form body is not modelled. Forms are ordered lists of name and value pairs.
- Parsing JSON text into a value (serde_json) is a parameter. Number literals are kept as text, and `Number::to_string` for a numeric balance is a parameter too.
- JsonValue.Json: a number token is not constrained to the JSON number grammar; the parser parameter is trusted to produce only well-formed literals.
- Transport.ObjectMembers: serde's derived visitors also read a struct from a JSON array holding its fields by position (so a body such as `["OK",100]` is a valid status-only reply). That form is not modelled: every decoder refuses an array reply with `InvalidJson`, which the client reports as a parse error.
- `CallbackUrl::new` is a parameter: URL parsing is not part of this model.
- `PhoneNumber` parsing and formatting (the phonenumber crate) is not modelled. Requests carry raw numbers only.
- `IpAddr` display is modelled as the address's text. IP address parsing is not modelled.
- Validation.Message: has no case for `TooManySmsIds`. That variant is raised in src/domain/request.rs:334 but is missing from the `ValidationError` enum and its `Display` in src/domain/validation.rs, so the model adds the variant and leaves its message out.
- Client.SmsRuClient.SendSms and the other three plain-mode checks: the message text of `UnsupportedResponseFormat` is not modelled, only the variant.
- Client.SmsRuClientBuilder.SetEndpoint: the sixteen setters are one method taking the endpoint; `timeout` and `user_agent` are not modelled.
- SendSmsTransport.DecodeBalance: its contract states acceptance only. A string balance is kept as sent, and a numeric one is rendered by the `Number::to_string` parameter.
- The per-message `sms_id` of a send result is the transport's `Option<String>`, copied unchanged, as the code does. The domain's `SmsId` type is not applied there.
- Concurrency and the `Send`/`Sync` bounds are not modelled: every call is sequential.
