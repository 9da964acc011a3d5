/**
 * The per-item object of a reply (`sms`): read by serde into a
 * `BTreeMap<String, T>`, then collected key by key into a map keyed by the
 * request's identifiers. What holds for every decoder of this shape is
 * proved here once, generically in the item type and the key resolver.
 */
module ItemMap {
  import opened Wrappers
  import opened JsonValue
  import opened Transport
  import opened KeyMatch
  import opened SortedMap

  /** The members of the per-item object; none when the field is absent (or not an object). */
  function ItemObject(members: Members, name: string): Members {
    var f := Field(members, name);
    if f.Ok? && f.value.Some? && f.value.value.JObject? then f.value.value.members else []
  }

  /**
   * The items serde reads are the object's members, decoded: each item comes
   * from a member with its key, every member's key is among the items, and
   * there are no more items than members.
   */
  lemma DefaultMapFromObject<T>(members: Members, name: string, decode: Json -> Result<T, TransportError>)
    requires DefaultMap(members, name, decode).Ok?
    ensures |DefaultMap(members, name, decode).value| <= |ItemObject(members, name)|
    ensures forall p | p in DefaultMap(members, name, decode).value ::
      exists i | 0 <= i < |ItemObject(members, name)| ::
        ItemObject(members, name)[i].0 == p.0 && decode(ItemObject(members, name)[i].1) == Ok(p.1)
    ensures forall i | 0 <= i < |ItemObject(members, name)| ::
      ItemObject(members, name)[i].0 in Keys(DefaultMap(members, name, decode).value)
  {
    var f := Field(members, name).value;
    if f.Some? {
      var obj := f.value.members;
      var entries := DecodeEntries(obj, decode).value;
      var items := DefaultMap(members, name, decode).value;
      assert items == FromEntries(entries);
      FromEntriesOrder(entries);
      FromEntriesContent(entries);
      forall p | p in items
        ensures exists i | 0 <= i < |obj| :: obj[i].0 == p.0 && decode(obj[i].1) == Ok(p.1)
      {
        var i :| 0 <= i < |entries| && entries[i] == p;
        assert obj[i].0 == p.0 && decode(obj[i].1) == Ok(p.1);
      }
      forall i | 0 <= i < |obj| ensures obj[i].0 in Keys(items) {
        assert obj[i].0 == entries[i].0;
      }
    }
  }

  /**
   * A collected per-item map: every member of the reply object resolved to a
   * key of the map (nothing is dropped), every key came from a member, and
   * every value is the decoding of a member whose key resolved to it.
   */
  lemma ResolvedItems<K, V>(members: Members, name: string, decode: Json -> Result<V, TransportError>,
                            resolve: string -> Result<K, TransportError>)
    requires DefaultMap(members, name, decode).Ok?
    requires ResolveAll(DefaultMap(members, name, decode).value, resolve).Ok?
    ensures forall i | 0 <= i < |ItemObject(members, name)| ::
      resolve(ItemObject(members, name)[i].0).Ok?
      && resolve(ItemObject(members, name)[i].0).value in ResolveAll(DefaultMap(members, name, decode).value, resolve).value
    ensures forall k | k in ResolveAll(DefaultMap(members, name, decode).value, resolve).value ::
      exists i | 0 <= i < |ItemObject(members, name)| ::
        resolve(ItemObject(members, name)[i].0) == Ok(k)
        && decode(ItemObject(members, name)[i].1) == Ok(ResolveAll(DefaultMap(members, name, decode).value, resolve).value[k])
    ensures |ResolveAll(DefaultMap(members, name, decode).value, resolve).value| <= |ItemObject(members, name)|
  {
    DefaultMapFromObject(members, name, decode);
    ResolvedFrom(ItemObject(members, name), DefaultMap(members, name, decode).value, resolve);
    ResolvedValues(ItemObject(members, name), DefaultMap(members, name, decode).value, decode, resolve);
  }

  /** `ResolvedItems`, for any items read from the members of `obj`: the key part. */
  lemma ResolvedFrom<K, V>(obj: Members, items: seq<(string, V)>, resolve: string -> Result<K, TransportError>)
    requires ResolveAll(items, resolve).Ok? && |items| <= |obj|
    requires forall i | 0 <= i < |obj| :: obj[i].0 in Keys(items)
    ensures forall i | 0 <= i < |obj| ::
      resolve(obj[i].0).Ok? && resolve(obj[i].0).value in ResolveAll(items, resolve).value
    ensures |ResolveAll(items, resolve).value| <= |obj|
  {
    ResolveAllKeys(items, resolve);
    forall i | 0 <= i < |obj| ensures resolve(obj[i].0).Ok? && resolve(obj[i].0).value in ResolveAll(items, resolve).value {
      ResolvedKey(items, resolve, obj[i].0);
    }
  }

  /** An item key resolves, to a key of the collected map. */
  lemma ResolvedKey<K, V>(items: seq<(string, V)>, resolve: string -> Result<K, TransportError>, key: string)
    requires ResolveAll(items, resolve).Ok? && key in Keys(items)
    ensures resolve(key).Ok? && resolve(key).value in ResolveAll(items, resolve).value
  {
    var j :| 0 <= j < |items| && items[j].0 == key;
    ResolveAllOk(items, resolve);
    assert resolve(items[j].0).Ok?;
    ResolveAllKeys(items, resolve);
  }

  /** `ResolvedItems`, for any items read from the members of `obj`: the value part. */
  lemma ResolvedValues<K, V>(obj: Members, items: seq<(string, V)>, decode: Json -> Result<V, TransportError>,
                             resolve: string -> Result<K, TransportError>)
    requires ResolveAll(items, resolve).Ok?
    requires forall p | p in items :: exists i | 0 <= i < |obj| :: obj[i].0 == p.0 && decode(obj[i].1) == Ok(p.1)
    ensures forall k | k in ResolveAll(items, resolve).value ::
      exists i | 0 <= i < |obj| :: resolve(obj[i].0) == Ok(k) && decode(obj[i].1) == Ok(ResolveAll(items, resolve).value[k])
  {
    var m := ResolveAll(items, resolve).value;
    forall k | k in m
      ensures exists i | 0 <= i < |obj| :: resolve(obj[i].0) == Ok(k) && decode(obj[i].1) == Ok(m[k])
    {
      ResolveAllValueSource(items, resolve, k);
      var j :| 0 <= j < |items| && resolve(items[j].0) == Ok(k) && items[j].1 == m[k];
      assert items[j] in items;
      var i :| 0 <= i < |obj| && obj[i].0 == items[j].0 && decode(obj[i].1) == Ok(items[j].1);
    }
  }

  /** A one-member object reads as a one-entry map. */
  lemma OneEntry<T>(key: string, v: Json, decode: Json -> Result<T, TransportError>, x: T)
    requires decode(v) == Ok(x)
    ensures DecodeEntries([(key, v)], decode) == Ok([(key, x)])
    ensures FromEntries([(key, x)]) == [(key, x)]
  {
    assert [(key, v)][1..] == [];
    assert DecodeEntries([(key, v)][1..], decode) == Ok([]);
    assert [(key, x)] + [] == [(key, x)];
    assert [(key, x)][..0] == [];
  }

  /** One item is collected under the key it resolves to. */
  lemma ResolveOne<K, V>(key: string, v: V, resolve: string -> Result<K, TransportError>)
    requires resolve(key).Ok?
    ensures ResolveAll([(key, v)], resolve) == Ok(map[resolve(key).value := v])
  {
    assert [(key, v)][..0] == [];
  }

  /** A failed collection fails on a member of the reply object, with that member's error. */
  lemma ResolvedItemsError<K, V>(members: Members, name: string, decode: Json -> Result<V, TransportError>,
                                 resolve: string -> Result<K, TransportError>)
    returns (i: int)
    requires DefaultMap(members, name, decode).Ok?
    requires ResolveAll(DefaultMap(members, name, decode).value, resolve).Err?
    ensures 0 <= i < |ItemObject(members, name)|
    ensures resolve(ItemObject(members, name)[i].0) == Err(ResolveAll(DefaultMap(members, name, decode).value, resolve).error)
  {
    var obj := ItemObject(members, name);
    var items := DefaultMap(members, name, decode).value;
    DefaultMapFromObject(members, name, decode);
    ResolveAllFirstError(items, resolve);
    var j :| 0 <= j < |items| && resolve(items[j].0) == Err(ResolveAll(items, resolve).error)
      && forall x | 0 <= x < j :: resolve(items[x].0).Ok?;
    assert items[j] in items;
    i :| 0 <= i < |obj| && obj[i].0 == items[j].0 && decode(obj[i].1) == Ok(items[j].1);
  }
}
