/**
 * The small part of the .NET base library the server relies on, written out:
 * 32-bit integers and their wrap-around, whitespace tests, decimal formatting
 * and parsing of integers, joining and character removal on strings.
 */
module Text {
  import opened Wrappers

  const INT32_MIN: int := -0x8000_0000
  const INT32_MAX: int := 0x7fff_ffff

  /** The range of a C# `int`. */
  type Int32 = x: int | INT32_MIN <= x <= INT32_MAX

  /** Unchecked 32-bit arithmetic: the value an `int` holds after `x` was computed without overflow checks. */
  function Wrap32(x: int): (r: Int32)
    ensures INT32_MIN <= x <= INT32_MAX ==> r == x
    ensures (r - x) % 0x1_0000_0000 == 0
  {
    (x - INT32_MIN) % 0x1_0000_0000 + INT32_MIN
  }

  /** `char.IsWhiteSpace`: the Unicode separators plus the control characters U+0009..U+000D and U+0085. */
  predicate IsWhiteSpace(c: char)
  {
    || ('\t' <= c <= '\r')
    || c == ' ' || c == '\U{0085}' || c == '\U{00A0}' || c == '\U{1680}'
    || ('\U{2000}' <= c <= '\U{200A}')
    || c == '\U{2028}' || c == '\U{2029}' || c == '\U{202F}' || c == '\U{205F}' || c == '\U{3000}'
  }

  /** `string.IsNullOrWhiteSpace`, with `None` standing for a null reference. */
  predicate IsNullOrWhiteSpace(s: Option<string>)
  {
    match s
    case None => true
    case Some(t) => forall i | 0 <= i < |t| :: IsWhiteSpace(t[i])
  }

  /** `s.StartsWith(prefix)`, taken as an ordinal comparison. */
  predicate StartsWith(s: string, prefix: string)
  {
    |prefix| <= |s| && s[..|prefix|] == prefix
  }

  /** `s.Replace(c.ToString(), string.Empty)`: every occurrence of `c` dropped, the rest kept in order. */
  function Without(s: string, c: char): (r: string)
    ensures c !in r
    ensures |r| <= |s|
    ensures forall x :: x in r <==> x in s && x != c
    ensures c !in s ==> r == s
  {
    if s == [] then []
    else if s[0] == c then Without(s[1..], c)
    else [s[0]] + Without(s[1..], c)
  }

  /** `string.Join(sep, parts)`: the parts with one `sep` between each neighbouring pair. */
  function Join(sep: char, parts: seq<string>): (r: string)
    ensures parts == [] ==> r == []
    ensures |parts| == 1 ==> r == parts[0]
  {
    if parts == [] then []
    else if |parts| == 1 then parts[0]
    else parts[0] + [sep] + Join(sep, parts[1..])
  }

  predicate IsDigit(c: char)
  {
    '0' <= c <= '9'
  }

  predicate AllDigits(s: string)
  {
    forall i | 0 <= i < |s| :: IsDigit(s[i])
  }

  function DigitChar(d: nat): (c: char)
    requires d < 10
    ensures IsDigit(c)
  {
    "0123456789"[d]
  }

  function DigitValue(c: char): nat
    requires IsDigit(c)
  {
    (c as int - '0' as int) as nat
  }

  /** The decimal digits of `n`, most significant first, without leading zeros. */
  function DigitsOf(n: nat): (r: string)
    ensures |r| >= 1 && AllDigits(r)
    ensures |r| > 1 ==> r[0] != '0'
  {
    if n < 10 then [DigitChar(n)] else DigitsOf(n / 10) + [DigitChar(n % 10)]
  }

  /** The number a string of decimal digits denotes. */
  function DigitsValue(s: string): nat
    requires AllDigits(s)
  {
    if s == [] then 0 else DigitsValue(s[..|s| - 1]) * 10 + DigitValue(s[|s| - 1])
  }

  lemma {:induction false} DigitsRoundTrip(n: nat)
    ensures DigitsValue(DigitsOf(n)) == n
  {
    var r := DigitsOf(n);
    if n >= 10 {
      DigitsRoundTrip(n / 10);
      assert r[..|r| - 1] == DigitsOf(n / 10);
    }
  }

  /** `n.ToString()` under the invariant culture: a minus sign for negative numbers, then the digits. */
  function IntToString(n: int): (r: string)
    ensures |r| >= 1 && (r[0] == '-' <==> n < 0)
  {
    if n < 0 then "-" + DigitsOf(-n) else DigitsOf(n)
  }

  /** The white space that `NumberStyles.Integer` lets stand before and after the number. */
  predicate IsNumberWhite(c: char)
  {
    '\t' <= c <= '\r' || c == ' '
  }

  function TrimStart(s: string): (r: string)
    ensures |r| <= |s|
    ensures r != [] ==> !IsNumberWhite(r[0])
  {
    if s != [] && IsNumberWhite(s[0]) then TrimStart(s[1..]) else s
  }

  function TrimEnd(s: string): (r: string)
    ensures |r| <= |s|
    ensures r != [] ==> !IsNumberWhite(r[|r| - 1])
  {
    if s != [] && IsNumberWhite(s[|s| - 1]) then TrimEnd(s[..|s| - 1]) else s
  }

  /** The outcome of `ParseInt` once the sign has been read: the digits' value if it fits in an `int`. */
  function ParseDigits(negative: bool, digits: string): Option<Int32>
  {
    if digits == [] || !AllDigits(digits) then None
    else
      var value := DigitsValue(digits) as int;
      var v := if negative then -value else value;
      if INT32_MIN <= v <= INT32_MAX then Some(v) else None
  }

  /**
   * `int.Parse(s)` with `NumberStyles.Integer` under the invariant culture: optional white space
   * around an optional sign and at least one decimal digit. `None` is the `FormatException`
   * (no number) or the `OverflowException` (outside the range of `int`).
   */
  function ParseInt(s: string): Option<Int32>
  {
    var t := TrimEnd(TrimStart(s));
    if t == [] then None
    else ParseDigits(t[0] == '-', if t[0] == '-' || t[0] == '+' then t[1..] else t)
  }

  /** Formatting an `int` and parsing it back gives the same `int`. */
  lemma {:induction false} ParseIntToString(n: Int32)
    ensures ParseInt(IntToString(n)) == Some(n)
  {
    if n < 0 {
      var d := DigitsOf(-(n as int));
      DigitsRoundTrip(-(n as int));
      assert IntToString(n) == "-" + d;
      ParseNegative(d);
    } else {
      var d := DigitsOf(n as int);
      DigitsRoundTrip(n as int);
      assert IntToString(n) == d;
      ParseUnsigned(d);
    }
  }

  /** A string that neither starts nor ends with white space parses as its sign and digits. */
  lemma ParseTrimmed(s: string)
    requires s != [] && !IsNumberWhite(s[0]) && !IsNumberWhite(s[|s| - 1])
    ensures ParseInt(s) == ParseDigits(s[0] == '-', if s[0] == '-' || s[0] == '+' then s[1..] else s)
  {
    TrimIdentity(s);
  }

  lemma ParseUnsigned(d: string)
    requires |d| >= 1 && AllDigits(d) && DigitsValue(d) <= INT32_MAX
    ensures ParseInt(d) == Some(DigitsValue(d))
  {
    assert IsDigit(d[0]) && IsDigit(d[|d| - 1]);
    ParseTrimmed(d);
  }

  lemma ParseNegative(d: string)
    requires |d| >= 1 && AllDigits(d) && INT32_MIN <= -(DigitsValue(d) as int)
    ensures ParseInt("-" + d) == Some(-(DigitsValue(d) as int))
  {
    var s := "-" + d;
    assert IsDigit(d[|d| - 1]) && s[|s| - 1] == d[|d| - 1];
    assert s[1..] == d;
    ParseTrimmed(s);
  }

  lemma TrimIdentity(s: string)
    requires s != [] && !IsNumberWhite(s[0]) && !IsNumberWhite(s[|s| - 1])
    ensures TrimEnd(TrimStart(s)) == s
  {
  }
}
