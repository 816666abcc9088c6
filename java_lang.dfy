/**
 * The parts of the Java and Spring standard libraries that the core's
 * branches depend on: `Character.isWhitespace` and `StringUtils.hasText`,
 * `String.trim` (used by `@NotBlank` and by the token test endpoint),
 * `String.toUpperCase`, and the `long` conversions `Long.parseLong` and
 * `String.valueOf(long)`.
 */
module JavaLang {
  import opened Wrappers

  // ---------------------------------------------------------------------
  // Whitespace, hasText, trim
  // ---------------------------------------------------------------------

  /** `Character.isWhitespace`: the Unicode space, line and paragraph
      separators except the three non-breaking spaces, plus the ASCII
      controls TAB, LF, VT, FF, CR and FS..US. */
  predicate IsWhitespace(c: char) {
    || c == ' ' || c == '\t' || c == '\n' || c == '\U{B}' || c == '\U{C}' || c == '\r'
    || ('\U{1C}' <= c <= '\U{1F}')
    || c == '\U{1680}'
    || ('\U{2000}' <= c <= '\U{2006}')
    || ('\U{2008}' <= c <= '\U{200A}')
    || c == '\U{2028}' || c == '\U{2029}' || c == '\U{205F}' || c == '\U{3000}'
  }

  /** Spring's `StringUtils.hasText`: not null and holding at least one
      character that is not whitespace. */
  predicate HasText(s: Option<string>) {
    s.Some? && exists i :: 0 <= i < |s.value| && !IsWhitespace(s.value[i])
  }

  /** `String.trim`, leading half: drops characters at or below U+0020. */
  function TrimStart(s: string): (r: string)
    ensures |r| <= |s| && r == s[|s| - |r|..]
    ensures |r| > 0 ==> r[0] > ' '
    ensures forall i :: 0 <= i < |s| - |r| ==> s[i] <= ' '
    decreases |s|
  {
    if |s| > 0 && s[0] <= ' ' then TrimStart(s[1..]) else s
  }

  /** `String.trim`, trailing half. */
  function TrimEnd(s: string): (r: string)
    ensures |r| <= |s| && r == s[..|r|]
    ensures |r| > 0 ==> r[|r| - 1] > ' '
    ensures forall i :: |r| <= i < |s| ==> s[i] <= ' '
    decreases |s|
  {
    if |s| > 0 && s[|s| - 1] <= ' ' then TrimEnd(s[..|s| - 1]) else s
  }

  /** `String.trim`: drops the characters at or below U+0020 at both ends. */
  function Trim(s: string): (r: string)
    ensures |r| > 0 ==> r[0] > ' ' && r[|r| - 1] > ' '
    ensures |r| <= |s|
    ensures exists a, b :: TrimmedAt(s, r, a, b)
  {
    var t := TrimStart(s);
    var r := TrimEnd(t);
    SliceOfSuffix(s, t, r, |s| - |t|);
    r
  }

  /** `r` is `s[a..b]`, and what lies outside `a..b` is at or below U+0020. */
  ghost predicate TrimmedAt(s: string, r: string, a: int, b: int) {
    && 0 <= a <= b <= |s| && r == s[a..b]
    && (forall i :: 0 <= i < a ==> s[i] <= ' ')
    && (forall i :: b <= i < |s| ==> s[i] <= ' ')
  }

  /** Cutting a prefix of `t = s[a..]` cuts `s[a..]` at the same place. */
  lemma SliceOfSuffix(s: string, t: string, r: string, a: int)
    requires 0 <= a <= |s| && t == s[a..]
    requires (forall i :: 0 <= i < a ==> s[i] <= ' ')
    requires |r| <= |t| && r == t[..|r|]
    requires forall j :: |r| <= j < |t| ==> t[j] <= ' '
    ensures TrimmedAt(s, r, a, a + |r|)
  {
    forall i | a + |r| <= i < |s|
      ensures s[i] <= ' '
    {
      assert s[i] == t[i - a];
    }
  }

  /** `s.trim().isEmpty()` holds exactly when every character of `s` is at
      or below U+0020. */
  lemma TrimEmptyIffAllControl(s: string)
    ensures |Trim(s)| == 0 <==> forall i :: 0 <= i < |s| ==> s[i] <= ' '
  {
    if |Trim(s)| == 0 {
      // TrimEnd leaves nothing, so TrimStart left nothing either
      assert |TrimStart(s)| == 0;
    } else {
      var t := TrimStart(s);
      assert Trim(s)[0] == t[0] == s[|s| - |t|];
    }
  }

  /** A reference in string concatenation: `null` reads "null". */
  function StringValueOf(s: Option<string>): string {
    if s.Some? then s.value else "null"
  }

  /** Bean Validation's `@NotBlank`: not null and not empty after `trim()`. */
  predicate NotBlank(s: Option<string>) {
    s.Some? && |Trim(s.value)| > 0
  }

  // ---------------------------------------------------------------------
  // Case mapping
  // ---------------------------------------------------------------------

  function UpperChar(c: char): char {
    if 'a' <= c <= 'z' then (c as int - 32) as char else c
  }

  /** `String.toUpperCase` on the ASCII letters (every enum name is ASCII). */
  function ToUpperCase(s: string): (r: string)
    ensures |r| == |s|
    ensures forall i :: 0 <= i < |s| ==> r[i] == UpperChar(s[i])
  {
    seq(|s|, i requires 0 <= i < |s| => UpperChar(s[i]))
  }

  // ---------------------------------------------------------------------
  // Java long, Long.parseLong and String.valueOf(long)
  // ---------------------------------------------------------------------

  const LONG_MIN: int := -0x8000_0000_0000_0000
  const LONG_MAX: int := 0x7FFF_FFFF_FFFF_FFFF

  /** A Java `long`. */
  type Long = x: int | LONG_MIN <= x <= LONG_MAX

  predicate IsDigit(c: char) { '0' <= c <= '9' }

  predicate AllDigits(s: string) {
    forall i :: 0 <= i < |s| ==> IsDigit(s[i])
  }

  function DigitValue(c: char): nat
    requires IsDigit(c)
  {
    c as int - '0' as int
  }

  function DigitChar(d: nat): (c: char)
    requires d < 10
    ensures IsDigit(c) && DigitValue(c) == d
  {
    ('0' as int + d) as char
  }

  /** The value of a string of decimal digits, most significant first. */
  function DigitsValue(s: string): nat
    requires AllDigits(s)
    decreases |s|
  {
    if |s| == 0 then 0 else DigitsValue(s[..|s| - 1]) * 10 + DigitValue(s[|s| - 1])
  }

  /** The shortest decimal rendering of a natural number: digits only, and
      no leading zero unless the number is zero. */
  function NatToString(n: nat): (r: string)
    ensures |r| > 0 && AllDigits(r)
    ensures r[0] == '0' <==> n == 0
    decreases n
  {
    if n < 10 then [DigitChar(n)] else NatToString(n / 10) + [DigitChar(n % 10)]
  }

  lemma {:induction false} DigitsValueOfNatToString(n: nat)
    ensures DigitsValue(NatToString(n)) == n
    decreases n
  {
    if n >= 10 {
      DigitsValueOfNatToString(n / 10);
      var s := NatToString(n);
      assert s[..|s| - 1] == NatToString(n / 10);
    }
  }

  /** `String.valueOf(long)`: a minus sign for negative values, then the
      shortest decimal rendering of the magnitude. */
  function LongToString(n: Long): (r: string)
    ensures |r| > 0
    ensures r[0] == '-' <==> n < 0
  {
    if n < 0 then "-" + NatToString(-(n as int)) else NatToString(n)
  }

  /** `Long.parseLong`: an optional '+' or '-', then one or more decimal
      digits, and the value must fit in a `long`; `None` stands for the
      `NumberFormatException`. */
  function ParseLong(s: string): (r: Option<Long>)
    ensures r.Some? ==> |s| > 0 && (s[0] == '-' || s[0] == '+' || IsDigit(s[0]))
  {
    if |s| == 0 then None
    else
      var signed := s[0] == '-' || s[0] == '+';
      var digits := if signed then s[1..] else s;
      if |digits| == 0 || !AllDigits(digits) then None
      else
        var v: int := if s[0] == '-' then -(DigitsValue(digits) as int) else DigitsValue(digits);
        if LONG_MIN <= v <= LONG_MAX then Some(v) else None
  }

  /** Parsing the rendering of a `long` gives the `long` back. */
  lemma LongRoundTrip(n: Long)
    ensures ParseLong(LongToString(n)) == Some(n)
  {
    var s := LongToString(n);
    if n < 0 {
      var m: nat := -(n as int);
      DigitsValueOfNatToString(m);
      assert s[0] == '-' && s[1..] == NatToString(m);
      assert AllDigits(s[1..]) && DigitsValue(s[1..]) == m;
    } else {
      var m: nat := n as int;
      DigitsValueOfNatToString(m);
      assert s == NatToString(m);
      assert IsDigit(s[0]) && AllDigits(s) && DigitsValue(s) == m;
    }
  }

  /** Rendering is injective: two different `long`s never share a string. */
  lemma LongToStringInjective(a: Long, b: Long)
    requires LongToString(a) == LongToString(b)
    ensures a == b
  {
    LongRoundTrip(a);
    LongRoundTrip(b);
  }

  /** Parsing is not: "007", "+7" and "7" all denote 7, and only "7" is
      what `String.valueOf` produces for it. */
  lemma ParseLongNotInjective()
    ensures ParseLong("007") == ParseLong("+7") == ParseLong("7") == Some(7)
    ensures LongToString(7) == "7"
  {
    assert "007"[..2] == "00" && "00"[..1] == "0";
    assert "+7"[1..] == "7";
    assert "7"[..0] == "";
  }
}
