/** The .NET string primitives the utilities rely on: `char.IsWhiteSpace`,
    `string.IsNullOrWhiteSpace`, `string.IsNullOrEmpty`, `string.Trim()`,
    the ordinal first-character test behind `StartsWith("@")`, and the
    first two parts of `string.Split(',')`. */
module DotNetText {
  import opened Wrappers

  /** `char.IsWhiteSpace`: the Unicode space, line and paragraph separators
      together with U+0009..U+000D and U+0085. */
  predicate IsWhiteSpace(c: char) {
    || c == ' '
    || ('\t' <= c <= '\r')
    || c == '\U{0085}'
    || c == '\U{00A0}'
    || c == '\U{1680}'
    || ('\U{2000}' <= c <= '\U{200A}')
    || c == '\U{2028}'
    || c == '\U{2029}'
    || c == '\U{202F}'
    || c == '\U{205F}'
    || c == '\U{3000}'
  }

  predicate AllWhiteSpace(s: string) {
    forall i :: 0 <= i < |s| ==> IsWhiteSpace(s[i])
  }

  /** `string.IsNullOrWhiteSpace`: null, empty, or only white space. */
  predicate IsNullOrWhiteSpace(s: Option<string>) {
    s.None? || AllWhiteSpace(s.value)
  }

  /** `string.IsNullOrEmpty`. */
  predicate IsNullOrEmpty(s: Option<string>) {
    s.None? || s.value == ""
  }

  /** True when neither end of `s` is white space (vacuously for ""). */
  predicate IsTrimmed(s: string) {
    s == "" || (!IsWhiteSpace(s[0]) && !IsWhiteSpace(s[|s| - 1]))
  }

  /** Number of white-space characters at the start of `s`. */
  function LeadingWhiteSpace(s: string): (k: nat)
    ensures k <= |s|
    ensures forall i :: 0 <= i < k ==> IsWhiteSpace(s[i])
    ensures k < |s| ==> !IsWhiteSpace(s[k])
  {
    if |s| > 0 && IsWhiteSpace(s[0]) then 1 + LeadingWhiteSpace(s[1..]) else 0
  }

  /** Number of white-space characters at the end of `s`. */
  function TrailingWhiteSpace(s: string): (k: nat)
    ensures k <= |s|
    ensures forall i :: |s| - k <= i < |s| ==> IsWhiteSpace(s[i])
    ensures k < |s| ==> !IsWhiteSpace(s[|s| - 1 - k])
  {
    if |s| > 0 && IsWhiteSpace(s[|s| - 1]) then 1 + TrailingWhiteSpace(s[..|s| - 1]) else 0
  }

  /** `string.Trim()`: drops white space from both ends. */
  function Trim(s: string): (r: string)
    ensures |r| <= |s|
    ensures IsTrimmed(r)
    ensures r == "" <==> AllWhiteSpace(s)
  {
    var t := s[LeadingWhiteSpace(s)..];
    var r := t[..|t| - TrailingWhiteSpace(t)];
    assert r != "" ==> r[0] == t[0];
    assert !AllWhiteSpace(s) ==> r != "" by {
      if !AllWhiteSpace(s) {
        var i :| 0 <= i < |s| && !IsWhiteSpace(s[i]);
        assert LeadingWhiteSpace(s) <= i;
        assert !IsWhiteSpace(t[i - LeadingWhiteSpace(s)]);
      }
    }
    r
  }

  /** The ordinal test `s.StartsWith("@")`. */
  predicate StartsWithAt(s: string) {
    |s| > 0 && s[0] == '@'
  }

  /** Index of the first `c` in `s`, or `None` (`string.IndexOf(char)` < 0). */
  function IndexOf(s: string, c: char): (r: Option<nat>)
    ensures r.None? <==> c !in s
    ensures r.Some? ==> r.value < |s| && s[r.value] == c && c !in s[..r.value]
  {
    if |s| == 0 then None
    else if s[0] == c then Some(0)
    else
      var rest := IndexOf(s[1..], c);
      if rest.None? then None
      else
        assert s[..rest.value + 1] == [s[0]] + s[1..][..rest.value];
        Some(rest.value + 1)
  }

  /** `s.Split(sep)[0]`: the text before the first separator. */
  function FirstPart(s: string, sep: char): (r: string)
    ensures sep !in r
    ensures sep !in s ==> r == s
    ensures sep in s ==> r + [sep] <= s
  {
    match IndexOf(s, sep)
    case None => s
    case Some(k) => s[..k]
  }

  /** `s.Split(sep)[1]` when the split has more than one part: the text
      between the first and the second separator. */
  function SecondPart(s: string, sep: char): (r: Option<string>)
    ensures r.Some? <==> sep in s
    ensures r.Some? ==> sep !in r.value
    ensures r.Some? ==> FirstPart(s, sep) + [sep] + r.value <= s
  {
    match IndexOf(s, sep)
    case None => None
    case Some(k) =>
      var rest := s[k + 1..];
      assert s == s[..k] + [sep] + rest;
      Some(FirstPart(rest, sep))
  }

  lemma {:induction false} TrimOfTrimmed(s: string)
    requires IsTrimmed(s)
    ensures Trim(s) == s
  {
    if s != "" {
      assert LeadingWhiteSpace(s) == 0;
      assert TrailingWhiteSpace(s) == 0;
    }
  }

  /** Trimming twice is trimming once. */
  lemma TrimIdempotent(s: string)
    ensures Trim(Trim(s)) == Trim(s)
  {
    TrimOfTrimmed(Trim(s));
  }

  /** `Trim` only ever removes white space: the input is the result with
      the white space `a` before it and `b` after it. */
  lemma TrimRemovesOnlyWhiteSpace(s: string) returns (a: string, b: string)
    ensures s == a + Trim(s) + b
    ensures AllWhiteSpace(a) && AllWhiteSpace(b)
  {
    var k := LeadingWhiteSpace(s);
    var t := s[k..];
    var m := TrailingWhiteSpace(t);
    a, b := s[..k], t[|t| - m..];
    LeadingRunIsWhiteSpace(s);
    TrailingRunIsWhiteSpace(t);
    SplitAround(s, k, m);
  }

  /** `s` is its first `k` elements, then the rest without its last `m`,
      then those `m`. */
  lemma SplitAround<T>(s: seq<T>, k: nat, m: nat)
    requires k <= |s| && m <= |s| - k
    ensures var t := s[k..]; s == s[..k] + t[..|t| - m] + t[|t| - m..]
  {
    var t := s[k..];
    assert t == t[..|t| - m] + t[|t| - m..];
    assert s == s[..k] + t;
  }

  lemma LeadingRunIsWhiteSpace(s: string)
    ensures AllWhiteSpace(s[..LeadingWhiteSpace(s)])
  {
    var k := LeadingWhiteSpace(s);
    assert forall i :: 0 <= i < k ==> s[..k][i] == s[i];
  }

  lemma TrailingRunIsWhiteSpace(t: string)
    ensures AllWhiteSpace(t[|t| - TrailingWhiteSpace(t)..])
  {
    var m := TrailingWhiteSpace(t);
    var b := t[|t| - m..];
    assert forall i :: 0 <= i < m ==> b[i] == t[|t| - m + i];
  }

  /** White space added around a trimmed string is removed again. */
  lemma TrimOfPadded(a: string, s: string, b: string)
    requires AllWhiteSpace(a) && AllWhiteSpace(b) && IsTrimmed(s) && s != ""
    ensures Trim(a + s + b) == s
  {
    var x := a + s + b;
    LeadingOfPadded(a, s + b);
    assert x[|a|..] == s + b;
    TrailingOfPadded(s, b);
  }

  lemma {:induction false} LeadingOfPadded(a: string, s: string)
    requires AllWhiteSpace(a) && s != "" && !IsWhiteSpace(s[0])
    ensures LeadingWhiteSpace(a + s) == |a|
    decreases |a|
  {
    if a != "" {
      assert (a + s)[1..] == a[1..] + s;
      LeadingOfPadded(a[1..], s);
    }
  }

  lemma {:induction false} TrailingOfPadded(s: string, b: string)
    requires AllWhiteSpace(b) && s != "" && !IsWhiteSpace(s[|s| - 1])
    ensures TrailingWhiteSpace(s + b) == |b|
    decreases |b|
  {
    if b != "" {
      assert (s + b)[..|s + b| - 1] == s + b[..|b| - 1];
      TrailingOfPadded(s, b[..|b| - 1]);
    }
  }
}
