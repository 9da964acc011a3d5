/**
 * String operations the client relies on: Rust's `str::trim`, `join`, and the
 * byte-wise ordering of `String` (which is what a `BTreeMap<String, _>` and the
 * derived `Ord` of the phone-number newtype use).
 */
module Text {

  /** Rust's `char::is_whitespace`: the Unicode White_Space property. */
  predicate IsWhitespace(c: char) {
    ('\t' <= c <= '\r') || c == ' ' || c == '\U{0085}' || c == '\U{00A0}'
    || c == '\U{1680}' || ('\U{2000}' <= c <= '\U{200A}') || c == '\U{2028}'
    || c == '\U{2029}' || c == '\U{202F}' || c == '\U{205F}' || c == '\U{3000}'
  }

  /** Every character of `s[lo..hi]` is whitespace. */
  predicate WhitespaceIn(s: string, lo: int, hi: int)
    requires 0 <= lo && hi <= |s|
  {
    forall i | lo <= i < hi :: IsWhitespace(s[i])
  }

  predicate AllWhitespace(s: string) {
    WhitespaceIn(s, 0, |s|)
  }

  /** Neither end of `s` is whitespace: what `trim` leaves behind. */
  predicate IsTrimmed(s: string) {
    |s| == 0 || (!IsWhitespace(s[0]) && !IsWhitespace(s[|s| - 1]))
  }

  function TrimStart(s: string): (r: string)
    ensures |r| <= |s| && r == s[|s| - |r|..]
    ensures WhitespaceIn(s, 0, |s| - |r|)
    ensures |r| == 0 || !IsWhitespace(r[0])
  {
    if |s| > 0 && IsWhitespace(s[0]) then TrimStart(s[1..]) else s
  }

  function TrimEnd(s: string): (r: string)
    ensures |r| <= |s| && r == s[..|r|]
    ensures WhitespaceIn(s, |r|, |s|)
    ensures |r| == 0 || !IsWhitespace(r[|r| - 1])
  {
    if |s| > 0 && IsWhitespace(s[|s| - 1]) then TrimEnd(s[..|s| - 1]) else s
  }

  /** The whitespace `TrimStart` drops from the front of `s`. */
  function Lead(s: string): nat
  {
    |s| - |TrimStart(s)|
  }

  /**
   * `str::trim`: the slice of `s` whose margins are whitespace and whose own
   * ends are not.
   */
  function Trim(s: string): (r: string)
    ensures IsTrimmed(r)
    ensures Lead(s) + |r| <= |s| && r == s[Lead(s)..Lead(s) + |r|]
    ensures WhitespaceIn(s, 0, Lead(s)) && WhitespaceIn(s, Lead(s) + |r|, |s|)
  {
    var t := TrimStart(s);
    var r := TrimEnd(t);
    assert r == [] || r[0] == t[0];
    r
  }

  /** Trimming leaves nothing exactly when the string is all whitespace. */
  lemma TrimEmpty(s: string)
    ensures Trim(s) == [] <==> AllWhitespace(s)
  {
    if Trim(s) != [] {
      assert s[Lead(s)] == Trim(s)[0];
    }
  }

  /** Trimming a trimmed string changes nothing. */
  lemma TrimOfTrimmed(s: string)
    requires IsTrimmed(s)
    ensures Trim(s) == s
  {
    assert TrimStart(s) == s;
  }

  lemma TrimIdempotent(s: string)
    ensures Trim(Trim(s)) == Trim(s)
  {
    TrimOfTrimmed(Trim(s));
  }

  /**
   * `Trim` is determined by its contract: any slice with whitespace margins
   * and non-whitespace ends is the trimmed string.
   */
  lemma TrimUnique(s: string, a: nat, b: nat)
    requires a <= b <= |s|
    requires WhitespaceIn(s, 0, a) && WhitespaceIn(s, b, |s|) && IsTrimmed(s[a..b])
    ensures Trim(s) == s[a..b]
  {
    var r := Trim(s);
    var a' := Lead(s);
    TrimEmpty(s);
    if a < b {
      assert s[a] == s[a..b][0] && s[b - 1] == s[a..b][b - a - 1];
      assert r[0] == s[a'] && r[|r| - 1] == s[a' + |r| - 1];
    }
  }

  /** Whitespace on both sides of a trimmed text is what `trim` removes. */
  lemma PaddedTrim(pad: string, d: string)
    requires AllWhitespace(pad) && IsTrimmed(d) && d != []
    ensures Trim(pad + d + pad) == d
  {
    var s := pad + d + pad;
    assert s[|pad|..|pad| + |d|] == d;
    forall k | 0 <= k < |pad| ensures IsWhitespace(s[k]) {
      assert s[k] == pad[k];
    }
    forall k | |pad| + |d| <= k < |s| ensures IsWhitespace(s[k]) {
      assert s[k] == pad[k - |pad| - |d|];
    }
    TrimUnique(s, |pad|, |pad| + |d|);
  }

  /** `slice.join(sep)` over string parts. */
  function Join(parts: seq<string>, sep: string): (r: string)
  {
    if |parts| == 0 then ""
    else if |parts| == 1 then parts[0]
    else parts[0] + sep + Join(parts[1..], sep)
  }

  /** `str::split(c)`: the pieces between occurrences of `c`; never empty. */
  function Split(s: string, c: char): (r: seq<string>)
    ensures |r| > 0
  {
    if |s| == 0 then [""]
    else
      var rest := Split(s[1..], c);
      if s[0] == c then [""] + rest else [[s[0]] + rest[0]] + rest[1..]
  }

  lemma {:induction false} SplitNoSeparator(p: string, c: char)
    requires c !in p
    ensures Split(p, c) == [p]
  {
    if |p| > 0 {
      SplitNoSeparator(p[1..], c);
      assert [p[0]] + p[1..] == p;
    }
  }

  lemma {:induction false} SplitAfterPiece(p: string, c: char, t: string)
    requires c !in p
    ensures Split(p + [c] + t, c) == [p] + Split(t, c)
  {
    if |p| == 0 {
      assert p + [c] + t == [c] + t;
      assert ([c] + t)[1..] == t;
    } else {
      SplitAfterPiece(p[1..], c, t);
      assert (p + [c] + t)[1..] == p[1..] + [c] + t;
      assert [p[0]] + p[1..] == p;
    }
  }

  /**
   * Joining with a separator character that no part contains can be undone
   * by splitting on it (a non-empty list is needed, since `[]` and `[""]`
   * both join to "").
   */
  lemma {:induction false} SplitJoin(parts: seq<string>, c: char)
    requires |parts| > 0
    requires forall i | 0 <= i < |parts| :: c !in parts[i]
    ensures Split(Join(parts, [c]), c) == parts
  {
    if |parts| == 1 {
      SplitNoSeparator(parts[0], c);
    } else {
      SplitJoin(parts[1..], c);
      SplitAfterPiece(parts[0], c, Join(parts[1..], [c]));
      assert [parts[0]] + parts[1..] == parts;
    }
  }

  /** Lexicographic order by code point: the order of Rust's `String`. */
  predicate StrLess(a: string, b: string)
  {
    if |a| == 0 then |b| > 0
    else if |b| == 0 then false
    else a[0] < b[0] || (a[0] == b[0] && StrLess(a[1..], b[1..]))
  }

  lemma {:induction false} StrLessIrreflexive(a: string)
    ensures !StrLess(a, a)
  {
    if |a| > 0 { StrLessIrreflexive(a[1..]); }
  }

  lemma {:induction false} StrLessTransitive(a: string, b: string, c: string)
    requires StrLess(a, b) && StrLess(b, c)
    ensures StrLess(a, c)
  {
    if |a| > 0 && |b| > 0 && |c| > 0 && a[0] == b[0] == c[0] {
      StrLessTransitive(a[1..], b[1..], c[1..]);
    }
  }

  lemma {:induction false} StrLessTotal(a: string, b: string)
    ensures a == b || StrLess(a, b) || StrLess(b, a)
  {
    if |a| > 0 && |b| > 0 && a[0] == b[0] {
      StrLessTotal(a[1..], b[1..]);
      if a[1..] == b[1..] {
        assert a == [a[0]] + a[1..] && b == [b[0]] + b[1..];
      }
    }
  }

  lemma StrLessAsymmetric(a: string, b: string)
    requires StrLess(a, b)
    ensures !StrLess(b, a)
  {
    if StrLess(b, a) {
      StrLessTransitive(a, b, a);
      StrLessIrreflexive(a);
    }
  }
}
