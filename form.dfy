/**
 * The `(name, value)` form lists the encoders hand to the HTTP layer, and the
 * pieces the send and cost encoders share: the `json=1` marker, the
 * comma-joined recipient list and the bracketed per-recipient fields.
 */
module Form {
  import opened Wrappers
  import opened Text
  import opened Value
  import opened Request
  import opened SortedMap

  type Param = (string, string)

  const JSON_PARAM: Param := ("json", "1")

  /** The transliteration flag both the send and the cost requests carry. */
  const TRANSLIT_FIELD: string := "translit"

  /** The marker `push_json` adds: present exactly in JSON mode. */
  function JsonParams(mode: JsonMode): seq<Param> {
    if mode == Json then [JSON_PARAM] else []
  }

  /** `push_json`: appends the marker in JSON mode. */
  method PushJson(params: seq<Param>, mode: JsonMode) returns (out: seq<Param>)
    ensures out == params + JsonParams(mode)
  {
    out := params;
    if mode == Json {
      out := out + [JSON_PARAM];
    }
  }

  /** An optional field: one pair when present, nothing when absent. */
  function OptParam(name: string, value: Option<string>): (r: seq<Param>)
    ensures value.None? ==> r == []
    ensures value.Some? ==> r == [(name, value.value)]
  {
    if value.Some? then [(name, value.value)] else []
  }

  /** Appending to a list already extended is extending it by both parts. */
  lemma AppendStep(params: seq<Param>, sent: seq<Param>, step: seq<Param>)
    ensures params + sent + step == params + (sent + step)
  {
  }

  /** A flag: `name=1` when set, nothing otherwise. */
  function FlagParam(name: string, on: bool): (r: seq<Param>)
    ensures on <==> r == [(name, "1")]
    ensures !on <==> r == []
  {
    if on then [(name, "1")] else []
  }

  /** The value of the first pair named `name`, as a server reading the form sees it. */
  function FirstValue(params: seq<Param>, name: string): (r: Option<string>)
    ensures r.Some? <==> exists i | 0 <= i < |params| :: params[i].0 == name
    ensures r.Some? ==> (name, r.value) in params
  {
    if |params| == 0 then None
    else if params[0].0 == name then Some(params[0].1)
    else FirstValue(params[1..], name)
  }

  /** The names a form list carries, in order. */
  function Names(params: seq<Param>): (r: seq<string>)
    ensures |r| == |params| && forall i | 0 <= i < |r| :: r[i] == params[i].0
  {
    seq(|params|, i requires 0 <= i < |params| => params[i].0)
  }

  /** The `to` value of a one-text request: the raw numbers joined by commas. */
  function JoinedPhones(phones: seq<RawPhoneNumber>): string {
    Join(phones, ",")
  }

  /** The two pairs of a one-text request: `to`, then `msg`. */
  function ToManyParams(phones: seq<RawPhoneNumber>, msg: MessageText): seq<Param> {
    [(RAW_PHONE_FIELD, JoinedPhones(phones)), (MESSAGE_TEXT_FIELD, msg)]
  }

  /**
   * Splitting the `to` value on commas gives back the recipients, in order,
   * whenever no raw number itself holds a comma.
   */
  lemma JoinedPhonesSplit(phones: seq<RawPhoneNumber>)
    requires |phones| > 0
    requires forall i | 0 <= i < |phones| :: ',' !in phones[i]
    ensures Split(JoinedPhones(phones), ',') == phones
  {
    SplitJoin(phones, ',');
  }

  /** `format!("{}[{}]", RawPhoneNumber::FIELD, raw)`. */
  function BracketKey(raw: string): (r: string)
    ensures |r| == |raw| + 4 && r[..3] == "to[" && r[|r| - 1] == ']'
  {
    RAW_PHONE_FIELD + "[" + raw + "]"
  }

  /** The raw number inside a bracketed `to[...]` name; `None` for other names. */
  function BracketRaw(name: string): Option<string> {
    if |name| >= 4 && name[..3] == "to[" && name[|name| - 1] == ']'
    then Some(name[3..|name| - 1]) else None
  }

  /** A bracketed name gives back its number, and is never a plain field name. */
  lemma BracketKeyRoundTrip(raw: string)
    ensures BracketRaw(BracketKey(raw)) == Some(raw)
    ensures BracketKey(raw) != RAW_PHONE_FIELD && BracketKey(raw) != MESSAGE_TEXT_FIELD
    ensures BracketKey(raw) != JSON_PARAM.0
  {
    var k := BracketKey(raw);
    assert k[3..|k| - 1] == raw;
  }

  /** One `to[<raw>]=<text>` pair per entry, in the map's (ascending) order. */
  function BracketParams(messages: PhoneMessages): (r: seq<Param>)
    ensures |r| == |messages|
  {
    seq(|messages|, i requires 0 <= i < |messages| => (BracketKey(messages[i].0), messages[i].1))
  }

  /** The per-recipient loop of the send and cost encoders. */
  method PushBracketParams(params: seq<Param>, messages: PhoneMessages) returns (out: seq<Param>)
    ensures out == params + BracketParams(messages)
  {
    out := params;
    var i := 0;
    while i < |messages|
      invariant 0 <= i <= |messages|
      invariant |out| == |params| + i && out[..|params|] == params
      invariant forall j | 0 <= j < i :: out[|params| + j] == (BracketKey(messages[j].0), messages[j].1)
    {
      out := out + [(BracketKey(messages[i].0), messages[i].1)];
      i := i + 1;
    }
    assert out == params + BracketParams(messages) by {
      assert forall j | 0 <= j < |out| :: out[j] == (params + BracketParams(messages))[j] by {
        forall j | 0 <= j < |out| ensures out[j] == (params + BracketParams(messages))[j] {
          if j < |params| { assert out[j] == out[..|params|][j]; }
        }
      }
    }
  }

  /**
   * Reading the bracketed names back recovers every number and its text, in
   * ascending order of the raw string, and none of them is `to` or `msg`.
   */
  lemma BracketParamsRecover(messages: PhoneMessages)
    ensures forall i | 0 <= i < |messages| ::
      BracketRaw(BracketParams(messages)[i].0) == Some(messages[i].0)
      && BracketParams(messages)[i].1 == messages[i].1
    ensures forall i, j | 0 <= i < j < |messages| ::
      StrLess(BracketRaw(BracketParams(messages)[i].0).value, BracketRaw(BracketParams(messages)[j].0).value)
    ensures forall p | p in BracketParams(messages) ::
      p.0 != RAW_PHONE_FIELD && p.0 != MESSAGE_TEXT_FIELD && p.0 != JSON_PARAM.0
  {
    var ps := BracketParams(messages);
    forall i | 0 <= i < |messages|
      ensures BracketRaw(ps[i].0) == Some(messages[i].0)
    {
      BracketKeyRoundTrip(messages[i].0);
    }
    forall p | p in ps
      ensures p.0 != RAW_PHONE_FIELD && p.0 != MESSAGE_TEXT_FIELD && p.0 != JSON_PARAM.0
    {
      var i :| 0 <= i < |ps| && ps[i] == p;
      BracketKeyRoundTrip(messages[i].0);
    }
  }

  /**
   * An option slot: a field name and the value it is sent with, if any. The
   * option pushers test each option in a fixed order and append the pair
   * only when the option is present (a flag is present as `1` when set).
   */
  type Slot = (string, Option<string>)

  function FlagSlot(name: string, on: bool): Slot {
    (name, if on then Some("1") else None)
  }

  /** The pairs the present slots produce, in slot order. */
  function Present(slots: seq<Slot>): (r: seq<Param>)
    ensures |r| <= |slots|
  {
    if |slots| == 0 then []
    else
      var last := slots[|slots| - 1];
      Present(slots[..|slots| - 1]) + OptParam(last.0, last.1)
  }

  /** One more slot adds its pair, if present, at the end. */
  lemma PresentSnoc(slots: seq<Slot>, k: int)
    requires 0 <= k < |slots|
    ensures Present(slots[..k + 1]) == Present(slots[..k]) + OptParam(slots[k].0, slots[k].1)
  {
    assert slots[..k + 1][..k] == slots[..k];
  }

  predicate DistinctNames(slots: seq<Slot>) {
    forall i, j | 0 <= i < j < |slots| :: slots[i].0 != slots[j].0
  }

  predicate HasName(params: seq<Param>, name: string) {
    exists i | 0 <= i < |params| :: params[i].0 == name
  }

  /** Looking a name up in two lists put together looks in the first list first. */
  lemma {:induction false} FirstValueAppend(a: seq<Param>, b: seq<Param>, name: string)
    ensures FirstValue(a + b, name) == if HasName(a, name) then FirstValue(a, name) else FirstValue(b, name)
  {
    if |a| > 0 {
      FirstValueAppend(a[1..], b, name);
      assert (a + b)[1..] == a[1..] + b;
      if a[0].0 != name {
        assert HasName(a, name) <==> HasName(a[1..], name) by {
          if HasName(a, name) {
            var i :| 0 <= i < |a| && a[i].0 == name;
            assert a[1..][i - 1] == a[i];
          }
          if HasName(a[1..], name) {
            var i :| 0 <= i < |a[1..]| && a[1..][i].0 == name;
            assert a[i + 1] == a[1..][i];
          }
        }
      }
    } else {
      assert a + b == b;
    }
  }

  /** Every pair comes from a present slot with that name and value. */
  lemma {:induction false} PresentFromSlots(slots: seq<Slot>, p: Param)
    requires p in Present(slots)
    ensures exists k | 0 <= k < |slots| :: slots[k].0 == p.0 && slots[k].1 == Some(p.1)
  {
    var n := |slots| - 1;
    var init := slots[..n];
    if p in Present(init) {
      PresentFromSlots(init, p);
      var k :| 0 <= k < |init| && init[k].0 == p.0 && init[k].1 == Some(p.1);
      assert slots[k] == init[k];
    } else {
      assert slots[n].0 == p.0 && slots[n].1 == Some(p.1);
    }
  }

  lemma HasNameAppend(a: seq<Param>, b: seq<Param>, name: string)
    ensures HasName(a + b, name) <==> HasName(a, name) || HasName(b, name)
  {
    if HasName(a, name) {
      var i :| 0 <= i < |a| && a[i].0 == name;
      assert (a + b)[i] == a[i];
    }
    if HasName(b, name) {
      var i :| 0 <= i < |b| && b[i].0 == name;
      assert (a + b)[|a| + i] == b[i];
    }
  }

  /** A name no slot carries is never sent. */
  lemma {:induction false} PresentAbsent(slots: seq<Slot>, name: string)
    requires forall k | 0 <= k < |slots| :: slots[k].0 != name
    ensures !HasName(Present(slots), name)
  {
    if |slots| > 0 {
      var n := |slots| - 1;
      var init := slots[..n];
      assert forall k | 0 <= k < n :: init[k] == slots[k];
      PresentAbsent(init, name);
      HasNameAppend(Present(init), OptParam(slots[n].0, slots[n].1), name);
    }
  }

  /**
   * A field is sent exactly when its slot is present, with the slot's value:
   * looking the name up in the pairs gives back the slot.
   */
  lemma {:induction false} PresentValue(slots: seq<Slot>, k: int)
    requires DistinctNames(slots) && 0 <= k < |slots|
    ensures FirstValue(Present(slots), slots[k].0) == slots[k].1
  {
    var n := |slots| - 1;
    var init := slots[..n];
    var name := slots[k].0;
    var last := slots[n];
    FirstValueAppend(Present(init), OptParam(last.0, last.1), name);
    if k == n {
      assert forall a | 0 <= a < n :: init[a] == slots[a];
      PresentAbsent(init, name);
    } else {
      assert init[k] == slots[k];
      assert DistinctNames(init) by {
        forall i, j | 0 <= i < j < |init| ensures init[i].0 != init[j].0 {
          assert init[i] == slots[i] && init[j] == slots[j];
        }
      }
      PresentValue(init, k);
      assert last.0 != name;
    }
  }

  /** Two pairs, in sending order, come from two slots in the same order. */
  lemma {:induction false} PresentPairOrder(slots: seq<Slot>, i: int, j: int)
    requires 0 <= i < j < |Present(slots)|
    ensures exists a, b | 0 <= a < b < |slots| :: slots[a].0 == Present(slots)[i].0 && slots[b].0 == Present(slots)[j].0
  {
    var n := |slots| - 1;
    var init := slots[..n];
    var last := slots[n];
    var pi := Present(init);
    var ps := Present(slots);
    assert ps == pi + OptParam(last.0, last.1);
    if j < |pi| {
      assert ps[i] == pi[i] && ps[j] == pi[j];
      PresentPairOrder(init, i, j);
      var a, b :| 0 <= a < b < |init| && init[a].0 == pi[i].0 && init[b].0 == pi[j].0;
      assert slots[a] == init[a] && slots[b] == init[b];
    } else {
      assert ps[i] == pi[i] && ps[j].0 == last.0;
      assert pi[i] in pi;
      PresentFromSlots(init, pi[i]);
      var a :| 0 <= a < |init| && init[a].0 == pi[i].0 && init[a].1 == Some(pi[i].1);
      assert slots[a] == init[a];
      assert 0 <= a < n < |slots| && slots[a].0 == ps[i].0 && slots[n].0 == ps[j].0;
    }
  }

  /** A pair whose name no earlier pair carries is the one a lookup of that name finds. */
  lemma {:induction false} FirstValueAt(params: seq<Param>, i: int)
    requires 0 <= i < |params|
    requires forall a | 0 <= a < i :: params[a].0 != params[i].0
    ensures FirstValue(params, params[i].0) == Some(params[i].1)
  {
    if i > 0 {
      FirstValueAt(params[1..], i - 1);
    }
  }

  /** Slot lists put together send their pairs one after the other. */
  lemma {:induction false} PresentAppend(a: seq<Slot>, b: seq<Slot>)
    ensures Present(a + b) == Present(a) + Present(b)
  {
    if |b| > 0 {
      var n := |b| - 1;
      PresentAppend(a, b[..n]);
      assert (a + b)[..|a + b| - 1] == a + b[..n];
    } else {
      assert a + b == a;
    }
  }

  /** Four slots, spelt out. */
  lemma PresentFour(slots: seq<Slot>)
    requires |slots| == 4
    ensures Present(slots) == OptParam(slots[0].0, slots[0].1) + OptParam(slots[1].0, slots[1].1)
                              + OptParam(slots[2].0, slots[2].1) + OptParam(slots[3].0, slots[3].1)
  {
    assert slots[..0] == [];
    PresentSnoc(slots, 0);
    PresentSnoc(slots, 1);
    PresentSnoc(slots, 2);
    PresentSnoc(slots, 3);
    assert slots[..4] == slots;
  }

  /**
   * A form that starts with the marker and holds no other `json` pair
   * carries `json` exactly at its head, and only in JSON mode.
   */
  lemma JsonFirst(mode: JsonMode, rest: seq<Param>)
    requires forall p | p in rest :: p.0 != JSON_PARAM.0
    ensures forall i | 0 <= i < |JsonParams(mode) + rest| ::
      (JsonParams(mode) + rest)[i].0 == JSON_PARAM.0 <==> i == 0 && mode == Json
    ensures mode == Json ==> (JsonParams(mode) + rest)[0] == JSON_PARAM
  {
    var f := JsonParams(mode) + rest;
    forall i | 0 <= i < |f| ensures f[i].0 == JSON_PARAM.0 <==> i == 0 && mode == Json {
      if i >= |JsonParams(mode)| {
        assert f[i] == rest[i - |JsonParams(mode)|];
      }
    }
  }

  /** A name the first part lacks is looked up in the second. */
  lemma FirstValueSkip(a: seq<Param>, b: seq<Param>, name: string)
    requires forall p | p in a :: p.0 != name
    ensures FirstValue(a + b, name) == FirstValue(b, name)
  {
    FirstValueAppend(a, b, name);
  }

  /** A name the first part carries is found there. */
  lemma FirstValueKeep(a: seq<Param>, b: seq<Param>, name: string)
    requires exists i | 0 <= i < |a| :: a[i].0 == name
    ensures FirstValue(a + b, name) == FirstValue(a, name)
  {
    FirstValueAppend(a, b, name);
  }

  /**
   * In a per-recipient form (the marker, the bracketed pairs, then any
   * options) each number's text is found under its bracketed name.
   */
  lemma BracketFormText(mode: JsonMode, messages: PhoneMessages, tail: seq<Param>, i: int)
    requires 0 <= i < |messages|
    ensures FirstValue(JsonParams(mode) + BracketParams(messages) + tail, BracketKey(messages[i].0)) == Some(messages[i].1)
  {
    var marker := JsonParams(mode);
    var brackets := BracketParams(messages);
    var head := marker + brackets;
    var key := BracketKey(messages[i].0);
    assert FirstValue(head, key) == Some(messages[i].1) by {
      BracketKeyRoundTrip(messages[i].0);
      BracketParamsDistinct(messages, i);
      FirstValueSkip(marker, brackets, key);
    }
    assert head[|marker| + i].0 == key;
    FirstValueKeep(head, tail, key);
  }

  /**
   * A name that is neither the marker nor of the `to[...]` shape is not in
   * the head of a per-recipient form: it is looked up in what follows.
   */
  lemma BracketFormSkips(mode: JsonMode, messages: PhoneMessages, tail: seq<Param>, name: string)
    requires name != JSON_PARAM.0 && (|name| < 3 || name[2] != '[')
    ensures FirstValue(JsonParams(mode) + BracketParams(messages) + tail, name) == FirstValue(tail, name)
  {
    var head := JsonParams(mode) + BracketParams(messages);
    forall p | p in head ensures p.0 != name {
      if p in BracketParams(messages) {
        var i :| 0 <= i < |messages| && BracketParams(messages)[i] == p;
        assert p.0[..3][2] == '[';
      }
    }
    FirstValueSkip(head, tail, name);
  }

  /** Bracketed names differ for different numbers. */
  lemma BracketParamsDistinct(messages: PhoneMessages, i: int)
    requires 0 <= i < |messages|
    ensures FirstValue(BracketParams(messages), BracketKey(messages[i].0)) == Some(messages[i].1)
  {
    var ps := BracketParams(messages);
    forall a | 0 <= a < i ensures ps[a].0 != ps[i].0 {
      BracketKeyRoundTrip(messages[a].0);
      BracketKeyRoundTrip(messages[i].0);
      StrLessIrreflexive(messages[i].0);
    }
    FirstValueAt(ps, i);
  }
}
