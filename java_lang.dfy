/**
 * The few pieces of java.lang the dispatcher relies on: Java objects as the
 * dispatcher observes them, `String.trim()` and `Long.toString(long)`.
 */
module JavaLang {
  import opened Wrappers

  /** A reference of static type Object: null, a String, or some other object. */
  datatype JObject = JNull | JString(chars: string) | JRef(address: nat)

  /** How string concatenation renders a nullable String. */
  function Show(s: Option<string>): string {
    match s
    case None => "null"
    case Some(t) => t
  }

  // ---------------------------------------------------------------------------
  // String.trim(): strips every leading and trailing character whose code is at
  // most U+0020.

  predicate IsTrimmable(c: char) { c <= ' ' }

  /** The length of the longest prefix of `s` that trim() removes. */
  function LeadingBlanks(s: string): (n: nat)
    ensures n <= |s|
    ensures forall i :: 0 <= i < n ==> IsTrimmable(s[i])
    ensures n < |s| ==> !IsTrimmable(s[n])
  {
    if |s| > 0 && IsTrimmable(s[0]) then 1 + LeadingBlanks(s[1..]) else 0
  }

  /** The length of the longest suffix of `s` that trim() removes. */
  function TrailingBlanks(s: string): (n: nat)
    ensures n <= |s|
    ensures forall i :: |s| - n <= i < |s| ==> IsTrimmable(s[i])
    ensures n < |s| ==> !IsTrimmable(s[|s| - 1 - n])
  {
    if |s| > 0 && IsTrimmable(s[|s| - 1]) then 1 + TrailingBlanks(s[..|s| - 1]) else 0
  }

  /**
   * String.trim(). The result is the infix of `s` that starts after its
   * blank prefix; everything outside it is blank, and it neither starts nor
   * ends with a blank, which determines it uniquely.
   */
  function Trim(s: string): (t: string)
    ensures |t| <= |s| - LeadingBlanks(s)
    ensures t == s[LeadingBlanks(s)..LeadingBlanks(s) + |t|]
    ensures forall i :: LeadingBlanks(s) + |t| <= i < |s| ==> IsTrimmable(s[i])
    ensures |t| > 0 ==> !IsTrimmable(t[0]) && !IsTrimmable(t[|t| - 1])
    ensures |t| == 0 <==> forall i :: 0 <= i < |s| ==> IsTrimmable(s[i])
  {
    var start := LeadingBlanks(s);
    var rest := s[start..];
    var t := rest[..|rest| - TrailingBlanks(rest)];
    assert forall i :: start <= i < |s| ==> s[i] == rest[i - start];
    assert t == s[start..start + |t|];
    t
  }

  /** `s.trim().isEmpty()`. */
  predicate IsBlank(s: string) { |Trim(s)| == 0 }

  /** `s == null || s.trim().isEmpty()`, the dispatcher's test for a missing string. */
  predicate NullOrBlank(s: Option<string>) { s.None? || IsBlank(s.value) }

  // ---------------------------------------------------------------------------
  // Long.toString(long), the rendering used when a long is appended to a String.

  const LONG_MIN: int := -0x8000_0000_0000_0000
  const LONG_MAX: int := 0x7FFF_FFFF_FFFF_FFFF

  /** Java's 64-bit signed `long`. */
  type Long = x: int | LONG_MIN <= x <= LONG_MAX

  predicate IsDigit(c: char) { '0' <= c <= '9' }

  function DigitChar(d: nat): (c: char)
    requires d < 10
    ensures IsDigit(c) && c as int - '0' as int == d
  {
    ('0' as int + d) as char
  }

  /** The decimal digits of `n`, most significant first, without leading zeros. */
  function Digits(n: nat): (s: string)
    ensures |s| > 0
    ensures forall i :: 0 <= i < |s| ==> IsDigit(s[i])
    ensures |s| > 1 ==> s[0] != '0'
    ensures n > 0 ==> s[0] != '0'
  {
    if n < 10 then [DigitChar(n)] else Digits(n / 10) + [DigitChar(n % 10)]
  }

  /** The number a string of decimal digits denotes. */
  function DigitsValue(s: string): int {
    if s == [] then 0 else DigitsValue(s[..|s| - 1]) * 10 + (s[|s| - 1] as int - '0' as int)
  }

  /** The sign only for negative numbers, then the digits of the magnitude. */
  function LongToString(n: Long): (s: string)
    ensures |s| > 0
    ensures s[0] == '-' <==> n < 0
    ensures forall i :: (if n < 0 then 1 else 0) <= i < |s| ==> IsDigit(s[i])
    // No leading zero: the first digit is '0' only when it is the whole of "0".
    ensures var k := if n < 0 then 1 else 0;
            k < |s| && (s[k] == '0' ==> n == 0 && s == "0")
  {
    if n < 0 then "-" + Digits(-(n as int)) else Digits(n)
  }

  /** Long.parseLong on the strings LongToString produces. */
  function ParseLong(s: string): int {
    if |s| > 0 && s[0] == '-' then -DigitsValue(s[1..]) else DigitsValue(s)
  }

  lemma {:induction false} DigitsRoundTrip(n: nat)
    ensures DigitsValue(Digits(n)) == n
  {
    if n >= 10 {
      var high := Digits(n / 10);
      var s := high + [DigitChar(n % 10)];
      assert s[..|s| - 1] == high;
      DigitsRoundTrip(n / 10);
    }
  }

  /** Long.toString is injective: its result parses back to the number. */
  lemma LongToStringRoundTrip(n: Long)
    ensures ParseLong(LongToString(n)) == n
  {
    if n < 0 {
      var s := "-" + Digits(-(n as int));
      assert s[1..] == Digits(-(n as int));
      DigitsRoundTrip(-(n as int));
    } else {
      var s := Digits(n);
      assert IsDigit(s[0]);
      DigitsRoundTrip(n);
    }
  }
}
