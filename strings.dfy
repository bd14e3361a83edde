/**
 * The three pieces of Python string handling the request parsing uses:
 * `s.split(c)` on one character, `s.strip()`, and finding the first `"__"`
 * (for `"__" in key` and `key.split("__", 1)`).
 */
module Strings {
  import opened Wrappers

  /** `Split(s, sep)` is Python's `s.split(sep)` for a one-character separator. */
  function Split(s: string, sep: char): (r: seq<string>)
    ensures |r| >= 1
    ensures forall k :: 0 <= k < |r| ==> sep !in r[k]
  {
    if s == [] then [""]
    else
      var rest := Split(s[1..], sep);
      if s[0] == sep then [""] + rest
      else [[s[0]] + rest[0]] + rest[1..]
  }

  /** Python's `sep.join(parts)`. */
  function Join(parts: seq<string>, sep: char): string {
    if parts == [] then ""
    else if |parts| == 1 then parts[0]
    else parts[0] + [sep] + Join(parts[1..], sep)
  }

  /** Joining the pieces with the separator gives back the split string. */
  lemma {:induction false} JoinSplit(s: string, sep: char)
    ensures Join(Split(s, sep), sep) == s
  {
    if s != [] {
      var rest := Split(s[1..], sep);
      JoinSplit(s[1..], sep);
      if s[0] != sep {
        var r := Split(s, sep);
        assert r[1..] == rest[1..];
        if |rest| > 1 {
          assert rest == [rest[0]] + rest[1..];
        }
      }
    }
  }

  /** A string without the separator splits into itself alone. */
  lemma {:induction false} SplitWithoutSeparator(s: string, sep: char)
    requires sep !in s
    ensures Split(s, sep) == [s]
  {
    if s != [] {
      SplitWithoutSeparator(s[1..], sep);
      assert s == [s[0]] + s[1..];
    }
  }

  /** The first piece stops at the first separator. */
  lemma {:induction false} SplitAtFirst(a: string, b: string, sep: char)
    requires sep !in a
    ensures Split(a + [sep] + b, sep) == [a] + Split(b, sep)
  {
    if a != [] {
      var s := a + [sep] + b;
      assert s[0] == a[0] && s[1..] == a[1..] + [sep] + b;
      SplitAtFirst(a[1..], b, sep);
      assert a == [a[0]] + a[1..];
    } else {
      assert a + [sep] + b == [sep] + b;
    }
  }

  /** At least one separator gives at least two pieces. */
  lemma {:induction false} SplitWithSeparator(s: string, sep: char)
    requires sep in s
    ensures |Split(s, sep)| >= 2
  {
    if s[0] != sep {
      SplitWithSeparator(s[1..], sep);
    }
  }

  /** The characters Python's `str.strip()` removes (those for which `isspace()` holds). */
  predicate IsSpace(c: char) {
    || c == ' '
    || '\t' <= c <= '\r'
    || '\U{1C}' <= c <= '\U{1F}'
    || c == '\U{85}' || c == '\U{A0}' || c == '\U{1680}'
    || '\U{2000}' <= c <= '\U{200A}'
    || c == '\U{2028}' || c == '\U{2029}' || c == '\U{202F}' || c == '\U{205F}' || c == '\U{3000}'
  }

  /** Every character of `s` is whitespace. */
  predicate AllSpace(s: string) {
    forall k :: 0 <= k < |s| ==> IsSpace(s[k])
  }

  /** How many whitespace characters `s` starts with. */
  function LeadingSpaces(s: string): (n: nat)
    ensures n <= |s|
    ensures forall k :: 0 <= k < n ==> IsSpace(s[k])
    ensures n < |s| ==> !IsSpace(s[n])
  {
    if s != [] && IsSpace(s[0]) then 1 + LeadingSpaces(s[1..]) else 0
  }

  /** How many whitespace characters `s` ends with. */
  function TrailingSpaces(s: string): (n: nat)
    ensures n <= |s|
    ensures forall k :: |s| - n <= k < |s| ==> IsSpace(s[k])
    ensures n < |s| ==> !IsSpace(s[|s| - 1 - n])
  {
    if s != [] && IsSpace(s[|s| - 1]) then 1 + TrailingSpaces(s[..|s| - 1]) else 0
  }

  /** Python's `s.strip()`: the leading whitespace goes, then the trailing whitespace of what is left. */
  function Strip(s: string): string {
    var t := s[LeadingSpaces(s)..];
    t[..|t| - TrailingSpaces(t)]
  }

  /** `Strip(s)` is the slice of `s` that starts where its leading whitespace ends. */
  lemma StripIsSlice(s: string)
    ensures LeadingSpaces(s) + |Strip(s)| <= |s|
    ensures Strip(s) == s[LeadingSpaces(s)..LeadingSpaces(s) + |Strip(s)|]
  {
    var i := LeadingSpaces(s);
    var t := s[i..];
    var n := TrailingSpaces(t);
    assert Strip(s) == t[..|t| - n];
    assert t[..|t| - n] == s[i..i + |t| - n];
  }

  /** Only whitespace comes before and after `Strip(s)` in `s`. */
  lemma StripSurroundedBySpace(s: string)
    ensures LeadingSpaces(s) + |Strip(s)| <= |s|
    ensures AllSpace(s[..LeadingSpaces(s)])
    ensures AllSpace(s[LeadingSpaces(s) + |Strip(s)|..])
  {
    var i := LeadingSpaces(s);
    var t := s[i..];
    var n := TrailingSpaces(t);
    assert |Strip(s)| == |t| - n;
    var head := s[..i];
    forall k | 0 <= k < |head|
      ensures IsSpace(head[k])
    {
      assert head[k] == s[k];
    }
    var tail := s[i + |t| - n..];
    forall k | 0 <= k < |tail|
      ensures IsSpace(tail[k])
    {
      assert tail[k] == t[|t| - n + k];
    }
  }

  /** `Strip(s)` neither starts nor ends with whitespace. */
  lemma StripEnds(s: string)
    ensures Strip(s) != [] ==> !IsSpace(Strip(s)[0]) && !IsSpace(Strip(s)[|Strip(s)| - 1])
  {
    var i := LeadingSpaces(s);
    var t := s[i..];
    var n := TrailingSpaces(t);
    var r := Strip(s);
    assert r == t[..|t| - n];
    if r != [] {
      assert r[0] == t[0] == s[i];
      assert r[|r| - 1] == t[|t| - 1 - n];
    }
  }

  /** `Strip(s)` has nothing left to strip. */
  lemma StripIdempotent(s: string)
    ensures Strip(Strip(s)) == Strip(s)
  {
    StripEnds(s);
    StripUnpadded(Strip(s));
  }

  /** A string that neither starts nor ends with whitespace is its own strip. */
  lemma StripUnpadded(s: string)
    requires s != [] ==> !IsSpace(s[0]) && !IsSpace(s[|s| - 1])
    ensures Strip(s) == s
  {
    assert LeadingSpaces(s) == 0;
    assert s[0..] == s;
    assert TrailingSpaces(s) == 0;
  }

  /** Leading whitespace goes. */
  lemma StripLeadingSpace(s: string)
    requires s != [] && IsSpace(s[0])
    ensures Strip(s) == Strip(s[1..])
  {
    assert s[LeadingSpaces(s)..] == s[1..][LeadingSpaces(s[1..])..];
  }

  /** There is a `"__"` at position `k` of `s`. */
  predicate PairAt(s: string, k: int) {
    0 <= k && k + 1 < |s| && s[k] == '_' && s[k + 1] == '_'
  }

  /** The position of the first `"__"` in `s`, if there is one. */
  function FirstPair(s: string): (r: Option<nat>)
    ensures r.Some? ==> PairAt(s, r.value) && forall k :: 0 <= k < r.value ==> !PairAt(s, k)
    ensures r.None? ==> forall k :: !PairAt(s, k)
  {
    if |s| < 2 then None
    else if s[0] == '_' && s[1] == '_' then Some(0)
    else
      match FirstPair(s[1..])
      case None =>
        assert forall k :: PairAt(s, k) ==> k == 0 || PairAt(s[1..], k - 1);
        None
      case Some(i) =>
        assert forall k :: 0 < k <= i ==> PairAt(s, k) == PairAt(s[1..], k - 1);
        Some(i + 1)
  }

  /**
   * Python's `key.split("__", 1)` on a key that holds `"__"`: the text before the
   * first `"__"` and everything after it, `"__"` included, so `a__b__c` gives `a`
   * and `b__c`.
   */
  function SplitAtPair(key: string): (r: (string, string))
    requires FirstPair(key).Some?
    ensures key == r.0 + "__" + r.1
    ensures forall k :: !PairAt(r.0, k)
    ensures r.0 != [] ==> r.0[|r.0| - 1] != '_'
  {
    var i := FirstPair(key).value;
    assert forall k :: PairAt(key[..i], k) ==> PairAt(key, k);
    assert i > 0 ==> !PairAt(key, i - 1);
    (key[..i], key[i + 2..])
  }

  /**
   * A column name with no `"__"` inside and no `'_'` at its end is recovered from
   * `column + "__" + operator`, whatever the operator holds.
   */
  lemma SplitAtPairOfJoined(column: string, operator: string)
    requires forall k :: !PairAt(column, k)
    requires column != [] ==> column[|column| - 1] != '_'
    ensures FirstPair(column + "__" + operator) == Some(|column|)
    ensures SplitAtPair(column + "__" + operator) == (column, operator)
  {
    var key := column + "__" + operator;
    assert PairAt(key, |column|);
    forall k | 0 <= k < |column|
      ensures !PairAt(key, k)
    {
      if k + 1 < |column| {
        assert !PairAt(column, k);
      }
    }
    var r := SplitAtPair(key);
    assert r.0 == key[..|column|] == column;
    assert r.1 == key[|column| + 2..] == operator;
  }
}
