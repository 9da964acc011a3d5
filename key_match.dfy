/**
 * How a decoder ties the keys of a per-item reply object back to the
 * identifiers of the request: a lookup table built from the request, a
 * tolerant key match (trimmed key first, then the key as sent), and the
 * collection of the matched items into a map, which fails as a whole on the
 * first key that matches nothing.
 */
module KeyMatch {
  import opened Wrappers
  import opened Text
  import opened Value
  import opened Transport

  /** The other spelling of a number: without its leading `+`, or with one added. */
  function PlusToggled(raw: string): (r: string)
    ensures |raw| > 0 && raw[0] == '+' ==> "+" + r == raw
    ensures !(|raw| > 0 && raw[0] == '+') ==> r == "+" + raw
    ensures r != raw
  {
    if |raw| > 0 && raw[0] == '+' then raw[1..] else "+" + raw
  }

  /** The keys a phone registers: its raw form and its plus-toggled form. */
  predicate Registers(phone: string, key: string) {
    key == phone || key == PlusToggled(phone)
  }

  /** `entry(k).or_insert(v)`: an existing entry is never overwritten. */
  function OrInsert<V>(m: map<string, V>, k: string, v: V): map<string, V> {
    if k in m then m else m[k := v]
  }

  /**
   * The table after `insert_phone_keys` registered one phone whose raw text
   * is `raw`. The table is generic in what it maps to; the client stores
   * the phone itself.
   */
  function WithPhoneKeys<P>(lookup: map<string, P>, phone: P, raw: string): map<string, P> {
    OrInsert(OrInsert(lookup, raw, phone), PlusToggled(raw), phone)
  }

  /** `insert_phone_keys`: adds the phone's two keys where they are still free. */
  method InsertPhoneKeys(lookup: map<string, RawPhoneNumber>, phone: RawPhoneNumber)
    returns (out: map<string, RawPhoneNumber>)
    ensures out == WithPhoneKeys(lookup, phone, phone)
    ensures out.Keys == lookup.Keys + {phone, PlusToggled(phone)}
    ensures forall k | k in lookup :: out[k] == lookup[k]
    ensures forall k | k in out && k !in lookup :: out[k] == phone
  {
    var raw: string := phone;
    out := lookup;
    if raw !in out {
      out := out[raw := phone];
    }
    if |raw| > 0 && raw[0] == '+' {
      var withoutPlus := raw[1..];
      if withoutPlus !in out {
        out := out[withoutPlus := phone];
      }
    } else {
      var withPlus := "+" + raw;
      if withPlus !in out {
        out := out[withPlus := phone];
      }
    }
  }

  /** The raw text of a phone. */
  function Raw(phone: RawPhoneNumber): string {
    phone
  }

  /** The table `phone_lookup_from_request` builds from the phones, in order. */
  function PhoneLookup<P>(phones: seq<P>, raw: P -> string): map<string, P> {
    if |phones| == 0 then map[]
    else
      var last := phones[|phones| - 1];
      WithPhoneKeys(PhoneLookup(phones[..|phones| - 1], raw), last, raw(last))
  }

  /** `phone_lookup_from_request`: registers every phone, one after the other. */
  method PhoneLookupFromPhones(phones: seq<RawPhoneNumber>) returns (lookup: map<string, RawPhoneNumber>)
    ensures lookup == PhoneLookup(phones, Raw)
  {
    lookup := map[];
    var i := 0;
    while i < |phones|
      invariant 0 <= i <= |phones|
      invariant lookup == PhoneLookup(phones[..i], Raw)
    {
      lookup := InsertPhoneKeys(lookup, phones[i]);
      PhoneLookupSnoc(phones, Raw, i);
      i := i + 1;
    }
    assert phones[..|phones|] == phones;
  }

  /** Registering one more phone extends the table of the phones before it. */
  lemma PhoneLookupSnoc<P>(phones: seq<P>, raw: P -> string, i: int)
    requires 0 <= i < |phones|
    ensures PhoneLookup(phones[..i + 1], raw) == WithPhoneKeys(PhoneLookup(phones[..i], raw), phones[i], raw(phones[i]))
  {
    assert phones[..i + 1][..i] == phones[..i];
  }

  /** One registration adds exactly the phone's two keys. */
  lemma WithPhoneKeysHas<P>(lookup: map<string, P>, phone: P, raw: string, key: string)
    ensures key in WithPhoneKeys(lookup, phone, raw) <==> key in lookup || Registers(raw, key)
  {
  }

  /** The table holds exactly the keys some phone registers. */
  lemma PhoneLookupKeys<P>(phones: seq<P>, raw: P -> string, key: string)
    ensures key in PhoneLookup(phones, raw) <==> exists i | 0 <= i < |phones| :: Registers(raw(phones[i]), key)
  {
    if key in PhoneLookup(phones, raw) {
      var i := PhoneLookupKeySource(phones, raw, key);
    }
    if exists i | 0 <= i < |phones| :: Registers(raw(phones[i]), key) {
      var i :| 0 <= i < |phones| && Registers(raw(phones[i]), key);
      PhoneLookupKeyPresent(phones, raw, i, key);
    }
  }

  /** Every key of the table is registered by some phone, returned as `i`. */
  lemma {:induction false} PhoneLookupKeySource<P>(phones: seq<P>, raw: P -> string, key: string) returns (i: int)
    requires key in PhoneLookup(phones, raw)
    ensures 0 <= i < |phones| && Registers(raw(phones[i]), key)
  {
    var n := |phones| - 1;
    var init := phones[..n];
    WithPhoneKeysHas(PhoneLookup(init, raw), phones[n], raw(phones[n]), key);
    if key in PhoneLookup(init, raw) {
      i := PhoneLookupKeySource(init, raw, key);
      assert init[i] == phones[i];
    } else {
      i := n;
    }
  }

  /** Every key some phone registers is in the table. */
  lemma {:induction false} PhoneLookupKeyPresent<P>(phones: seq<P>, raw: P -> string, i: int, key: string)
    requires 0 <= i < |phones| && Registers(raw(phones[i]), key)
    ensures key in PhoneLookup(phones, raw)
  {
    var n := |phones| - 1;
    var init := phones[..n];
    WithPhoneKeysHas(PhoneLookup(init, raw), phones[n], raw(phones[n]), key);
    if i < n {
      assert init[i] == phones[i];
      PhoneLookupKeyPresent(init, raw, i, key);
    }
  }

  /** Every value of the table is one of the phones. */
  lemma {:induction false} PhoneLookupValues<P>(phones: seq<P>, raw: P -> string, key: string)
    requires key in PhoneLookup(phones, raw)
    ensures PhoneLookup(phones, raw)[key] in phones
  {
    var n := |phones| - 1;
    var init := phones[..n];
    if key in PhoneLookup(init, raw) && PhoneLookup(phones, raw)[key] == PhoneLookup(init, raw)[key] {
      PhoneLookupValues(init, raw, key);
      var i :| 0 <= i < n && init[i] == PhoneLookup(init, raw)[key];
      assert phones[i] == init[i];
    }
  }

  /** A key goes to the first phone that registers it: later phones never overwrite. */
  lemma {:induction false} PhoneLookupFirstWins<P>(phones: seq<P>, raw: P -> string, i: int, key: string)
    requires 0 <= i < |phones| && Registers(raw(phones[i]), key)
    requires forall j | 0 <= j < i :: !Registers(raw(phones[j]), key)
    ensures key in PhoneLookup(phones, raw) && PhoneLookup(phones, raw)[key] == phones[i]
  {
    var n := |phones| - 1;
    var init := phones[..n];
    if i == n {
      if key in PhoneLookup(init, raw) {
        var j := PhoneLookupKeySource(init, raw, key);
      }
    } else {
      assert init[i] == phones[i];
      forall j | 0 <= j < i ensures !Registers(raw(init[j]), key) {
        assert init[j] == phones[j];
      }
      PhoneLookupFirstWins(init, raw, i, key);
    }
  }

  /** `sms_id_lookup_from_request`: each id registers only its exact text. */
  function SmsIdLookup(ids: seq<SmsId>): (r: map<string, SmsId>)
    ensures forall k :: k in r <==> k in ids
    ensures forall k | k in r :: r[k] == k
  {
    map id | id in ids :: id
  }

  /**
   * The shared rule of `match_phone_key` and `match_sms_id_key`: the trimmed
   * key first, then the key as sent.
   */
  function MatchKey<V>(lookup: map<string, V>, key: string): (r: Option<V>)
    ensures r.Some? <==> Trim(key) in lookup || key in lookup
    ensures Trim(key) in lookup ==> r == Some(lookup[Trim(key)])
    ensures Trim(key) !in lookup && key in lookup ==> r == Some(lookup[key])
  {
    var trimmed := Trim(key);
    if trimmed in lookup then Some(lookup[trimmed])
    else if key in lookup then Some(lookup[key])
    else None
  }

  /** Whitespace around a key that matches once trimmed does not change the match. */
  lemma MatchKeyIgnoresPadding<V>(lookup: map<string, V>, key: string, padded: string)
    requires Trim(padded) == Trim(key) && Trim(key) in lookup
    ensures MatchKey(lookup, padded) == MatchKey(lookup, key) == Some(lookup[Trim(key)])
  {
  }

  /** `match_phone_key`: a phone of the request, or an error naming the key as sent. */
  function MatchPhoneKey<P>(lookup: map<string, P>, key: string): (r: Result<P, TransportError>)
    ensures r.Err? <==> MatchKey(lookup, key).None?
    ensures r.Err? ==> r.error == UnknownPhoneNumberKey(key)
    ensures r.Ok? ==> Some(r.value) == MatchKey(lookup, key)
  {
    var found := MatchKey(lookup, key);
    if found.Some? then Ok(found.value) else Err(UnknownPhoneNumberKey(key))
  }

  /** `match_sms_id_key`: an id of the request, or an error naming the key as sent. */
  function MatchSmsIdKey(lookup: map<string, SmsId>, key: string)
    : (r: Result<SmsId, TransportError>)
    ensures r.Err? <==> MatchKey(lookup, key).None?
    ensures r.Err? ==> r.error == UnknownSmsIdKey(key)
    ensures r.Ok? ==> Some(r.value) == MatchKey(lookup, key)
  {
    var found := MatchKey(lookup, key);
    if found.Some? then Ok(found.value) else Err(UnknownSmsIdKey(key))
  }

  /** A matched reply key always names a phone of the request. */
  lemma MatchPhoneKeyFromRequest<P>(phones: seq<P>, raw: P -> string, key: string)
    requires MatchPhoneKey(PhoneLookup(phones, raw), key).Ok?
    ensures MatchPhoneKey(PhoneLookup(phones, raw), key).value in phones
  {
    var lookup := PhoneLookup(phones, raw);
    if Trim(key) in lookup {
      PhoneLookupValues(phones, raw, Trim(key));
    } else {
      PhoneLookupValues(phones, raw, key);
    }
  }

  /** An id key matches exactly when its trimmed or untrimmed text is a requested id, and gives that id. */
  lemma MatchSmsIdKeyExact(ids: seq<SmsId>, key: string)
    ensures MatchSmsIdKey(SmsIdLookup(ids), key).Ok? <==> Trim(key) in ids || key in ids
    ensures MatchSmsIdKey(SmsIdLookup(ids), key).Ok? ==>
              var id := MatchSmsIdKey(SmsIdLookup(ids), key).value;
              id in ids && (id == Trim(key) || id == key)
  {
  }

  /** A request for one number written with a plus registers it with and without the plus. */
  lemma SinglePlusLookup(p: RawPhoneNumber)
    requires p[0] == '+'
    ensures PhoneLookup([p], Raw) == map[p := p, p[1..] := p]
  {
    assert [p][..0] == [];
    assert PlusToggled(p) == p[1..];
  }

  /** A number with a plus matches the reply key of the number itself, padded with whitespace or not. */
  lemma PlusPhonePadded(p: RawPhoneNumber, pad: string)
    requires p[0] == '+' && AllWhitespace(pad)
    ensures MatchPhoneKey(PhoneLookup([p], Raw), pad + p + pad) == Ok(p)
  {
    SinglePlusLookup(p);
    PaddedTrim(pad, p);
  }

  /** It matches the reply key of the number without its plus. */
  lemma PlusPhoneUnplussed(p: RawPhoneNumber)
    requires p[0] == '+'
    ensures MatchPhoneKey(PhoneLookup([p], Raw), p[1..]) == Ok(p)
  {
    SinglePlusLookup(p);
  }

  /** Any other key, trimmed or not, is refused with the key as sent. */
  lemma PlusPhoneOther(p: RawPhoneNumber, key: string)
    requires p[0] == '+'
    requires key != p && key != p[1..] && Trim(key) != p && Trim(key) != p[1..]
    ensures MatchPhoneKey(PhoneLookup([p], Raw), key) == Err(UnknownPhoneNumberKey(key))
  {
    var lookup := PhoneLookup([p], Raw);
    assert Trim(key) !in lookup && key !in lookup by {
      SinglePlusLookup(p);
      assert lookup.Keys == {p, p[1..]};
    }
    MatchPhoneKeyMissing(lookup, key);
  }

  /** A key found in the table neither trimmed nor as sent is refused. */
  lemma MatchPhoneKeyMissing<P>(lookup: map<string, P>, key: string)
    requires Trim(key) !in lookup && key !in lookup
    ensures MatchPhoneKey(lookup, key) == Err(UnknownPhoneNumberKey(key))
  {
  }

  const EXAMPLE_PHONE: RawPhoneNumber := "+79251234567"

  /**
   * The reply keys a request for `+79251234567` accepts: the number itself
   * and the number without its plus (padding is `PlusPhonePadded`).
   */
  lemma PhoneMatchExamples()
    ensures MatchPhoneKey(PhoneLookup([EXAMPLE_PHONE], Raw), "+79251234567") == Ok(EXAMPLE_PHONE)
    ensures MatchPhoneKey(PhoneLookup([EXAMPLE_PHONE], Raw), "79251234567") == Ok(EXAMPLE_PHONE)
  {
    PlusPhonePadded(EXAMPLE_PHONE, "");
    assert "" + EXAMPLE_PHONE + "" == "+79251234567";
    PlusPhoneUnplussed(EXAMPLE_PHONE);
    assert EXAMPLE_PHONE[1..] == "79251234567";
  }

  /** A trimmed key that is neither spelling of the number is refused. */
  lemma PlusPhoneOtherTrimmed(p: RawPhoneNumber, key: string)
    requires p[0] == '+' && IsTrimmed(key) && key != p && key != p[1..]
    ensures MatchPhoneKey(PhoneLookup([p], Raw), key) == Err(UnknownPhoneNumberKey(key))
  {
    TrimOfTrimmed(key);
    PlusPhoneOther(p, key);
  }

  /** A number the request does not hold is refused, and the error carries the key as sent. */
  lemma PhoneMismatchExample()
    ensures MatchPhoneKey(PhoneLookup([EXAMPLE_PHONE], Raw), "79999999999")
            == Err(UnknownPhoneNumberKey("79999999999"))
  {
    var key := "79999999999";
    assert IsTrimmed(key);
    assert EXAMPLE_PHONE[1..] == "79251234567";
    assert key != EXAMPLE_PHONE[1..] by { assert key[2] != EXAMPLE_PHONE[1..][2]; }
    assert key != EXAMPLE_PHONE by { assert |key| != |EXAMPLE_PHONE|; }
    PlusPhoneOtherTrimmed(EXAMPLE_PHONE, key);
  }

  const SPACED_PHONE: RawPhoneNumber := "+ 5"

  /**
   * The fallback to the untrimmed key matters: the phone `+ 5` registers the
   * key ` 5`, which a reply key of ` 5` reaches only untrimmed.
   */
  lemma UntrimmedFallbackExample()
    ensures MatchPhoneKey(PhoneLookup([SPACED_PHONE], Raw), " 5") == Ok(SPACED_PHONE)
  {
    assert [SPACED_PHONE][..0] == [];
    assert PlusToggled(SPACED_PHONE) == " 5";
    assert PhoneLookup([SPACED_PHONE], Raw) == map["+ 5" := SPACED_PHONE, " 5" := SPACED_PHONE];
    assert " 5"[1..2] == "5";
    TrimUnique(" 5", 1, 2);
  }

  /**
   * `map(..).collect::<Result<BTreeMap<_, _>, _>>()` over the reply's items
   * in iteration order: each key is resolved, a later item for the same
   * resolved key replaces an earlier one, and the first key that fails to
   * resolve is the error of the whole.
   */
  function ResolveAll<K(==), V>(entries: seq<(string, V)>, resolve: string -> Result<K, TransportError>)
    : (r: Result<map<K, V>, TransportError>)
  {
    if |entries| == 0 then Ok(map[])
    else
      var n := |entries| - 1;
      var acc :- ResolveAll(entries[..n], resolve);
      var k :- resolve(entries[n].0);
      Ok(acc[k := entries[n].1])
  }

  /** Whether the entry is the last one whose key resolves to the same value. */
  ghost predicate LastResolved<K, V>(entries: seq<(string, V)>, resolve: string -> Result<K, TransportError>, i: int)
    requires 0 <= i < |entries|
  {
    resolve(entries[i].0).Ok?
    && forall j | i < j < |entries| :: resolve(entries[j].0) != resolve(entries[i].0)
  }

  /** The collection succeeds exactly when every key resolves. */
  lemma {:induction false} ResolveAllOk<K, V>(entries: seq<(string, V)>, resolve: string -> Result<K, TransportError>)
    ensures ResolveAll(entries, resolve).Ok? <==> forall i | 0 <= i < |entries| :: resolve(entries[i].0).Ok?
  {
    if |entries| > 0 {
      var n := |entries| - 1;
      ResolveAllOk(entries[..n], resolve);
      assert forall i | 0 <= i < n :: entries[..n][i] == entries[i];
    }
  }

  /** On failure the error is that of the first key that does not resolve. */
  lemma {:induction false} ResolveAllFirstError<K, V>(entries: seq<(string, V)>, resolve: string -> Result<K, TransportError>)
    requires ResolveAll(entries, resolve).Err?
    ensures exists i | 0 <= i < |entries| ::
      resolve(entries[i].0) == Err(ResolveAll(entries, resolve).error)
      && forall j | 0 <= j < i :: resolve(entries[j].0).Ok?
  {
    var n := |entries| - 1;
    var init := entries[..n];
    assert forall i | 0 <= i < n :: init[i] == entries[i];
    if ResolveAll(init, resolve).Err? {
      ResolveAllFirstError(init, resolve);
      var i :| 0 <= i < n && resolve(init[i].0) == Err(ResolveAll(init, resolve).error)
        && forall j | 0 <= j < i :: resolve(init[j].0).Ok?;
      assert resolve(entries[i].0) == Err(ResolveAll(entries, resolve).error);
    } else {
      ResolveAllOk(init, resolve);
      assert resolve(entries[n].0) == Err(ResolveAll(entries, resolve).error);
    }
  }

  /** The first key that does not resolve, by position: its error is the collection's. */
  lemma ResolveAllFirstFailing<K, V>(entries: seq<(string, V)>, resolve: string -> Result<K, TransportError>)
    returns (i: int)
    requires ResolveAll(entries, resolve).Err?
    ensures 0 <= i < |entries| && resolve(entries[i].0) == Err(ResolveAll(entries, resolve).error)
    ensures forall k | 0 <= k < i :: resolve(entries[k].0).Ok?
  {
    ResolveAllFirstError(entries, resolve);
    i :| 0 <= i < |entries| && resolve(entries[i].0) == Err(ResolveAll(entries, resolve).error)
         && forall k | 0 <= k < i :: resolve(entries[k].0).Ok?;
  }

  /**
   * On success the map's keys are exactly the resolved keys, so nothing is
   * dropped, and it is no larger than the reply object.
   */
  lemma {:induction false} ResolveAllKeys<K, V>(entries: seq<(string, V)>, resolve: string -> Result<K, TransportError>)
    requires ResolveAll(entries, resolve).Ok?
    ensures forall k :: k in ResolveAll(entries, resolve).value <==>
      exists i | 0 <= i < |entries| :: resolve(entries[i].0) == Ok(k)
    ensures |ResolveAll(entries, resolve).value| <= |entries|
  {
    if |entries| > 0 {
      var n := |entries| - 1;
      var init := entries[..n];
      ResolveAllKeys(init, resolve);
      assert forall i | 0 <= i < n :: init[i] == entries[i];
      var acc := ResolveAll(init, resolve).value;
      var k := resolve(entries[n].0).value;
      forall x ensures x in ResolveAll(entries, resolve).value <==>
        exists i | 0 <= i < |entries| :: resolve(entries[i].0) == Ok(x)
      {
        if x in acc {
          var i :| 0 <= i < n && resolve(init[i].0) == Ok(x);
          assert resolve(entries[i].0) == Ok(x);
        }
        if exists i | 0 <= i < |entries| :: resolve(entries[i].0) == Ok(x) {
          var i :| 0 <= i < |entries| && resolve(entries[i].0) == Ok(x);
          if i < n { assert resolve(init[i].0) == Ok(x); }
        }
      }
    }
  }

  /** The value kept for a key is that of the last item resolving to it. */
  lemma {:induction false} ResolveAllValues<K, V>(entries: seq<(string, V)>, resolve: string -> Result<K, TransportError>, i: int)
    requires ResolveAll(entries, resolve).Ok?
    requires 0 <= i < |entries| && LastResolved(entries, resolve, i)
    ensures resolve(entries[i].0).value in ResolveAll(entries, resolve).value
    ensures ResolveAll(entries, resolve).value[resolve(entries[i].0).value] == entries[i].1
  {
    var n := |entries| - 1;
    if i < n {
      var init := entries[..n];
      assert init[i] == entries[i];
      assert LastResolved(init, resolve, i) by {
        forall j | i < j < n ensures resolve(init[j].0) != resolve(init[i].0) {
          assert init[j] == entries[j];
        }
      }
      ResolveAllValues(init, resolve, i);
    }
  }

  /** Every value kept comes from an item whose key resolves to the value's key. */
  lemma {:induction false} ResolveAllValueSource<K, V>(entries: seq<(string, V)>, resolve: string -> Result<K, TransportError>, k: K)
    requires ResolveAll(entries, resolve).Ok? && k in ResolveAll(entries, resolve).value
    ensures exists i | 0 <= i < |entries| ::
      resolve(entries[i].0) == Ok(k) && entries[i].1 == ResolveAll(entries, resolve).value[k]
  {
    var n := |entries| - 1;
    var init := entries[..n];
    if resolve(entries[n].0) != Ok(k) {
      ResolveAllValueSource(init, resolve, k);
      var i :| 0 <= i < n && resolve(init[i].0) == Ok(k) && init[i].1 == ResolveAll(init, resolve).value[k];
      assert entries[i] == init[i];
    }
  }
}
