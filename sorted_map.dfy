/**
 * A `BTreeMap<String, V>` as the client sees it when it iterates one: its
 * entries listed in ascending key order. Building one from a sequence of
 * insertions (as serde does for a JSON object, member by member) keeps the
 * last value given for each key.
 */
module SortedMap {
  import opened Text

  predicate Ascending<V>(s: seq<(string, V)>) {
    forall i, j | 0 <= i < j < |s| :: StrLess(s[i].0, s[j].0)
  }

  function Keys<V>(s: seq<(string, V)>): set<string> {
    set i | 0 <= i < |s| :: s[i].0
  }

  /** `BTreeMap::insert`: replaces the value of an existing key, else adds the key in order. */
  function Insert<V>(s: seq<(string, V)>, k: string, v: V): (r: seq<(string, V)>)
    ensures |r| <= |s| + 1
  {
    if |s| == 0 then [(k, v)]
    else if s[0].0 == k then [(k, v)] + s[1..]
    else if StrLess(k, s[0].0) then [(k, v)] + s
    else [s[0]] + Insert(s[1..], k, v)
  }

  /** After an insert the map holds the new entry and every other key's old entry. */
  lemma {:induction false} InsertContent<V>(s: seq<(string, V)>, k: string, v: V)
    requires Ascending(s)
    ensures forall p | p in Insert(s, k, v) :: p == (k, v) || (p in s && p.0 != k)
    ensures (k, v) in Insert(s, k, v)
    ensures forall p | p in s && p.0 != k :: p in Insert(s, k, v)
  {
    if |s| == 0 {
    } else if s[0].0 == k {
      forall p | p in s[1..] ensures p.0 != k {
        var i :| 0 <= i < |s[1..]| && s[1..][i] == p;
        assert StrLess(s[0].0, s[i + 1].0);
        StrLessIrreflexive(k);
      }
      assert s == [s[0]] + s[1..];
    } else if StrLess(k, s[0].0) {
      forall p | p in s ensures p.0 != k {
        var i :| 0 <= i < |s| && s[i] == p;
        if i > 0 { StrLessTransitive(k, s[0].0, s[i].0); }
        StrLessIrreflexive(k);
      }
    } else {
      InsertContent(s[1..], k, v);
      assert s == [s[0]] + s[1..];
    }
  }

  /** An insert keeps the entries in ascending key order. */
  lemma {:induction false} InsertAscending<V>(s: seq<(string, V)>, k: string, v: V)
    requires Ascending(s)
    ensures Ascending(Insert(s, k, v))
  {
    if |s| == 0 {
    } else if s[0].0 == k {
      AscendingCons((k, v), s[1..]);
    } else if StrLess(k, s[0].0) {
      forall p | p in s ensures StrLess(k, p.0) {
        var i :| 0 <= i < |s| && s[i] == p;
        if i > 0 { StrLessTransitive(k, s[0].0, s[i].0); }
      }
      AscendingCons((k, v), s);
    } else {
      StrLessTotal(k, s[0].0);
      InsertAscending(s[1..], k, v);
      InsertAboveHead(s, k, v);
      AscendingCons(s[0], Insert(s[1..], k, v));
    }
  }

  /** Putting a key below all of an ascending list's keys in front keeps it ascending. */
  lemma AscendingCons<V>(h: (string, V), t: seq<(string, V)>)
    requires Ascending(t) && forall p | p in t :: StrLess(h.0, p.0)
    ensures Ascending([h] + t)
  {
    var r := [h] + t;
    forall i, j | 0 <= i < j < |r| ensures StrLess(r[i].0, r[j].0) {
      assert r[j] == t[j - 1];
      if i > 0 { assert r[i] == t[i - 1]; } else { assert t[j - 1] in t; }
    }
  }

  /** Inserting a key above the head into the tail leaves the head below every key. */
  lemma InsertAboveHead<V>(s: seq<(string, V)>, k: string, v: V)
    requires Ascending(s) && |s| > 0 && StrLess(s[0].0, k)
    ensures forall p | p in Insert(s[1..], k, v) :: StrLess(s[0].0, p.0)
  {
    var t := s[1..];
    InsertContent(t, k, v);
    forall p | p in Insert(t, k, v) ensures StrLess(s[0].0, p.0) {
      if p != (k, v) {
        var i :| 0 <= i < |t| && t[i] == p;
        assert t[i] == s[i + 1];
      }
    }
  }

  /** An insert adds its key and keeps every other. */
  lemma InsertKeys<V>(s: seq<(string, V)>, k: string, v: V)
    requires Ascending(s)
    ensures Keys(Insert(s, k, v)) == Keys(s) + {k}
  {
    InsertContent(s, k, v);
    var r := Insert(s, k, v);
    forall x | x in Keys(r) ensures x in Keys(s) + {k} {
      var i :| 0 <= i < |r| && r[i].0 == x;
      assert r[i] in r;
    }
    forall x | x in Keys(s) + {k} ensures x in Keys(r) {
      if x == k {
        assert (k, v) in r;
        var i :| 0 <= i < |r| && r[i] == (k, v);
      } else {
        var i :| 0 <= i < |s| && s[i].0 == x;
        assert s[i] in r;
        var j :| 0 <= j < |r| && r[j] == s[i];
      }
    }
  }

  /**
   * The map left by inserting `entries` one after the other, as serde does
   * for the members of a JSON object read into a `BTreeMap`.
   */
  function FromEntries<V>(entries: seq<(string, V)>): (r: seq<(string, V)>)
    ensures |r| <= |entries|
  {
    if |entries| == 0 then []
    else
      var last := entries[|entries| - 1];
      Insert(FromEntries(entries[..|entries| - 1]), last.0, last.1)
  }

  /** The last entry given for a key, among the first `n` entries. */
  predicate LastFor<V>(entries: seq<(string, V)>, i: int)
    requires 0 <= i < |entries|
  {
    forall j | i < j < |entries| :: entries[j].0 != entries[i].0
  }

  /** Reading members into a map keeps every key, in ascending order. */
  lemma {:induction false} FromEntriesOrder<V>(entries: seq<(string, V)>)
    ensures Ascending(FromEntries(entries))
    ensures Keys(FromEntries(entries)) == Keys(entries)
  {
    if |entries| > 0 {
      var n := |entries| - 1;
      var init := entries[..n];
      var last := entries[n];
      FromEntriesOrder(init);
      var m := FromEntries(init);
      assert FromEntries(entries) == Insert(m, last.0, last.1);
      InsertAscending(m, last.0, last.1);
      InsertKeys(m, last.0, last.1);
      KeysSnoc(init, last);
      assert init + [last] == entries;
    }
  }

  lemma KeysSnoc<V>(s: seq<(string, V)>, p: (string, V))
    ensures Keys(s + [p]) == Keys(s) + {p.0}
  {
    var t := s + [p];
    forall x | x in Keys(t) ensures x in Keys(s) + {p.0} {
      var i :| 0 <= i < |t| && t[i].0 == x;
      if i < |s| { assert t[i] == s[i]; }
    }
    forall x | x in Keys(s) + {p.0} ensures x in Keys(t) {
      if x == p.0 { assert t[|s|].0 == x; }
      else { var i :| 0 <= i < |s| && s[i].0 == x; assert t[i] == s[i]; }
    }
  }

  /**
   * Reading members into a map keeps, for each key, the value of its last
   * occurrence; nothing else is in the map.
   */
  lemma {:induction false} FromEntriesContent<V>(entries: seq<(string, V)>)
    ensures forall p | p in FromEntries(entries) :: p in entries
    ensures forall i | 0 <= i < |entries| && LastFor(entries, i) :: entries[i] in FromEntries(entries)
  {
    if |entries| > 0 {
      var n := |entries| - 1;
      var init := entries[..n];
      var last := entries[n];
      FromEntriesContent(init);
      FromEntriesOrder(init);
      InsertContent(FromEntries(init), last.0, last.1);
      var r := FromEntries(entries);
      assert r == Insert(FromEntries(init), last.0, last.1);
      forall p | p in r ensures p in entries {
        if p != last { assert p in FromEntries(init); }
      }
      forall i | 0 <= i < |entries| && LastFor(entries, i) ensures entries[i] in r {
        if i < n {
          assert entries[i].0 != last.0;
          assert LastFor(init, i);
          assert init[i] == entries[i];
        }
      }
    }
  }

  /** In an ascending list a key occurs once, so its value is unique. */
  lemma AscendingKeyUnique<V>(s: seq<(string, V)>, i: int, j: int)
    requires Ascending(s)
    requires 0 <= i < |s| && 0 <= j < |s| && s[i].0 == s[j].0
    ensures i == j
  {
    if i < j || j < i {
      StrLessIrreflexive(s[i].0);
    }
  }

  /**
   * A map's iteration order is fixed by its content: two ascending lists
   * holding the same entries are the same list.
   */
  lemma {:induction false} AscendingUnique<V>(s: seq<(string, V)>, t: seq<(string, V)>)
    requires Ascending(s) && Ascending(t)
    requires forall p :: p in s <==> p in t
    ensures s == t
  {
    if |s| > 0 && |t| > 0 {
      assert s[0] in t && t[0] in s;
      var i :| 0 <= i < |t| && t[i] == s[0];
      var j :| 0 <= j < |s| && s[j] == t[0];
      if i > 0 && j > 0 {
        StrLessAsymmetric(t[0].0, t[i].0);
      }
      if i > 0 && j == 0 { StrLessIrreflexive(t[0].0); }
      if j > 0 && i == 0 { StrLessIrreflexive(s[0].0); }
      assert s[0] == t[0];
      forall p ensures p in s[1..] <==> p in t[1..] {
        if p in s[1..] {
          var a :| 0 <= a < |s[1..]| && s[1..][a] == p;
          assert StrLess(s[0].0, p.0);
          StrLessIrreflexive(p.0);
          assert p in t;
        }
        if p in t[1..] {
          var a :| 0 <= a < |t[1..]| && t[1..][a] == p;
          assert StrLess(t[0].0, p.0);
          StrLessIrreflexive(p.0);
          assert p in s;
        }
      }
      AscendingUnique(s[1..], t[1..]);
      assert s == [s[0]] + s[1..] && t == [t[0]] + t[1..];
    } else {
      SameEntriesSameEmptiness(s, t);
    }
  }

  lemma SameEntriesSameEmptiness<V>(s: seq<(string, V)>, t: seq<(string, V)>)
    requires forall p :: p in s <==> p in t
    ensures |s| == 0 <==> |t| == 0
  {
    if |s| > 0 { assert s[0] in t; }
    if |t| > 0 { assert t[0] in s; }
  }
}
