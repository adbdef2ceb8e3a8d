/** Decimal text for integers: `int.Parse(string)` with the default
    `NumberStyles.Integer` (surrounding number white space, one optional
    sign, ASCII digits, 32-bit range) and the invariant decimal formatting
    of `uint` and `int`. */
module Int32Text {
  import opened Wrappers

  const INT32_MIN: int := -0x8000_0000
  const INT32_MAX: int := 0x7FFF_FFFF
  const UINT32_LIMIT: int := 0x1_0000_0000

  predicate IsInt32(i: int) {
    INT32_MIN <= i <= INT32_MAX
  }

  /** What `int.Parse` throws: `FormatException` or `OverflowException`. */
  datatype ParseError = FormatError | OverflowError

  /** The white space `NumberStyles.AllowLeadingWhite`/`AllowTrailingWhite`
      accept: U+0009..U+000D and U+0020 (a narrower set than `char.IsWhiteSpace`). */
  predicate IsNumberWhite(c: char) {
    c == ' ' || ('\t' <= c <= '\r')
  }

  predicate IsDigit(c: char) {
    '0' <= c <= '9'
  }

  predicate AllDigits(s: string) {
    forall i :: 0 <= i < |s| ==> IsDigit(s[i])
  }

  function DigitValue(c: char): (d: nat)
    requires IsDigit(c)
    ensures d < 10
  {
    (c as int - '0' as int) as nat
  }

  function DigitChar(d: nat): (c: char)
    requires d < 10
    ensures IsDigit(c) && DigitValue(c) == d
  {
    ('0' as int + d) as char
  }

  /** The value of a string of decimal digits, most significant first. */
  function DigitsValue(s: string): nat
    requires AllDigits(s)
  {
    if s == [] then 0 else DigitsValue(s[..|s| - 1]) * 10 + DigitValue(s[|s| - 1])
  }

  /** Shortest decimal digits of `n` (the "G" format of an unsigned integer). */
  function NatToString(n: nat): (s: string)
    ensures s != [] && AllDigits(s)
    ensures |s| > 1 ==> s[0] != '0'
  {
    if n < 10 then [DigitChar(n)] else NatToString(n / 10) + [DigitChar(n % 10)]
  }

  /** `int.ToString()` under the invariant culture. */
  function Int32ToString(i: int): (s: string)
    ensures s != []
    ensures s[0] == '-' <==> i < 0
    ensures i >= 0 ==> AllDigits(s) && (|s| > 1 ==> s[0] != '0')
  {
    if i < 0 then "-" + NatToString(-i) else NatToString(i)
  }

  function StripNumberWhite(s: string): (r: string)
    ensures |r| <= |s|
    ensures r != [] ==> !IsNumberWhite(r[0]) && !IsNumberWhite(r[|r| - 1])
  {
    if |s| > 0 && IsNumberWhite(s[0]) then StripNumberWhite(s[1..])
    else if |s| > 0 && IsNumberWhite(s[|s| - 1]) then StripNumberWhite(s[..|s| - 1])
    else s
  }

  /** `int.Parse(s)` for a non-null `s`. */
  function ParseInt32(s: string): (r: Result<int, ParseError>)
    ensures r.Ok? ==> IsInt32(r.value)
  {
    var t := StripNumberWhite(s);
    var negative := |t| > 0 && t[0] == '-';
    var body := if |t| > 0 && (t[0] == '-' || t[0] == '+') then t[1..] else t;
    if body == [] || !AllDigits(body) then Err(FormatError)
    else
      var magnitude: int := DigitsValue(body);
      var v := if negative then -magnitude else magnitude;
      if IsInt32(v) then Ok(v) else Err(OverflowError)
  }

  /** Reading back the digits of `n` gives `n`. */
  lemma {:induction false} DigitsOfNatToString(n: nat)
    ensures DigitsValue(NatToString(n)) == n
  {
    if n >= 10 {
      var s := NatToString(n);
      assert s[..|s| - 1] == NatToString(n / 10);
      DigitsOfNatToString(n / 10);
    }
  }

  lemma StripOfUnpadded(s: string)
    requires s != [] && !IsNumberWhite(s[0]) && !IsNumberWhite(s[|s| - 1])
    ensures StripNumberWhite(s) == s
  {
  }

  /** `int.Parse` inverts `int.ToString` on the 32-bit range. */
  lemma ParseOfToString(i: int)
    requires IsInt32(i)
    ensures ParseInt32(Int32ToString(i)) == Ok(i)
  {
    var s := Int32ToString(i);
    var n := if i < 0 then -i else i;
    DigitsOfNatToString(n);
    assert s[|s| - 1] == NatToString(n)[|NatToString(n)| - 1];
    StripOfUnpadded(s);
    if i < 0 {
      assert s[1..] == NatToString(n);
    }
  }

  /** A number that does not fit in 32 bits is an overflow, not a format error. */
  lemma ParseOverflow(n: nat)
    requires n > INT32_MAX
    ensures ParseInt32(NatToString(n)) == Err(OverflowError)
  {
    var s := NatToString(n);
    DigitsOfNatToString(n);
    StripOfUnpadded(s);
  }

  /** Text with no digit at all is a format error. */
  lemma ParseWithoutDigits(s: string)
    requires forall i :: 0 <= i < |s| ==> !IsDigit(s[i])
    ensures ParseInt32(s) == Err(FormatError)
  {
    var t := StripNumberWhite(s);
    StripKeepsCharacters(s);
    var body := if |t| > 0 && (t[0] == '-' || t[0] == '+') then t[1..] else t;
    if body != [] {
      assert body[0] in s;
    }
  }

  lemma {:induction false} StripKeepsCharacters(s: string)
    ensures forall c :: c in StripNumberWhite(s) ==> c in s
  {
    if |s| > 0 && IsNumberWhite(s[0]) {
      StripKeepsCharacters(s[1..]);
    } else if |s| > 0 && IsNumberWhite(s[|s| - 1]) {
      StripKeepsCharacters(s[..|s| - 1]);
    }
  }
}
