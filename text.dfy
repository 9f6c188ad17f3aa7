/**
 * The handful of Python string operations the bot relies on, written out:
 * `str.split(sep)`, `str.strip()`, `str.isdigit()`, `int(s)`, `str(n)`,
 * `str.upper()` and `str.lower()`.
 */
module Text {
  import opened Wrappers

  // ---------------------------------------------------------------------------
  // str.split(sep) with an explicit one-character separator
  // ---------------------------------------------------------------------------

  /**
   * `s.split(sep)`: the pieces between separators, never an empty list;
   * joined with the separator they give back `s`.
   */
  function Split(s: string, sep: char): (r: seq<string>)
    ensures |r| >= 1
    ensures forall i :: 0 <= i < |r| ==> sep !in r[i]
    ensures Join(r, [sep]) == s
    decreases |s|
  {
    if |s| == 0 then [""]
    else
      var rest := Split(s[1..], sep);
      if s[0] == sep then
        assert Join([""] + rest, [sep]) == "" + [sep] + Join(rest, [sep]);
        assert s == [sep] + s[1..];
        [""] + rest
      else
        var r := [[s[0]] + rest[0]] + rest[1..];
        assert s == [s[0]] + s[1..];
        if |rest| == 1 then
          r
        else
          assert Join(rest, [sep]) == rest[0] + [sep] + Join(rest[1..], [sep]);
          assert r[1..] == rest[1..];
          r
  }

  /** `s.split(sep)[-1]` */
  function LastSegment(s: string, sep: char): string {
    var parts := Split(s, sep);
    parts[|parts| - 1]
  }

  /** `s.split(sep)[1]`, or None where Python would raise IndexError. */
  function SecondSegment(s: string, sep: char): Option<string> {
    var parts := Split(s, sep);
    if |parts| >= 2 then Some(parts[1]) else None
  }

  /** A string without the separator is one piece. */
  lemma {:induction false} SplitWithoutSeparator(t: string, sep: char)
    requires sep !in t
    ensures Split(t, sep) == [t]
    decreases |t|
  {
    if |t| > 0 {
      SplitWithoutSeparator(t[1..], sep);
      assert [t[0]] + t[1..] == t;
    }
  }

  /** Splitting `a + sep + b` where `a` has no separator: `a` comes first, then the pieces of `b`. */
  lemma {:induction false} SplitAfterPrefix(a: string, sep: char, b: string)
    requires sep !in a
    ensures Split(a + [sep] + b, sep) == [a] + Split(b, sep)
    decreases |a|
  {
    var s := a + [sep] + b;
    if |a| == 0 {
      assert s[1..] == b;
    } else {
      assert s[1..] == a[1..] + [sep] + b;
      SplitAfterPrefix(a[1..], sep, b);
      assert [a[0]] + a[1..] == a;
    }
  }

  /**
   * Whatever precedes the last separator, the last piece is what follows it:
   * `(p + sep + t).split(sep)[-1] == t` when `t` has no separator.
   */
  lemma {:induction false} LastSegmentAfterSeparator(p: string, sep: char, t: string)
    requires sep !in t
    ensures |Split(p + [sep] + t, sep)| >= 2
    ensures LastSegment(p + [sep] + t, sep) == t
    decreases |p|
  {
    var s := p + [sep] + t;
    if |p| == 0 {
      assert s[1..] == t;
      SplitWithoutSeparator(t, sep);
    } else {
      assert s[1..] == p[1..] + [sep] + t;
      LastSegmentAfterSeparator(p[1..], sep, t);
    }
  }

  // ---------------------------------------------------------------------------
  // str.strip()
  // ---------------------------------------------------------------------------

  /** The characters Python's `str.isspace()` accepts (and `str.strip()` removes). */
  predicate IsSpace(c: char) {
    c == ' ' || ('\t' <= c <= '\r') || ('\U{001C}' <= c <= '\U{001F}')
    || c == '\U{0085}' || c == '\U{00A0}' || c == '\U{1680}'
    || ('\U{2000}' <= c <= '\U{200A}') || c == '\U{2028}' || c == '\U{2029}'
    || c == '\U{202F}' || c == '\U{205F}' || c == '\U{3000}'
  }

  /** `s.lstrip()`: the longest suffix that does not start with whitespace. */
  function StripLeft(s: string): (r: string)
    ensures |r| <= |s|
    ensures r == s[|s| - |r|..]
    ensures |r| > 0 ==> !IsSpace(r[0])
    ensures forall i :: 0 <= i < |s| - |r| ==> IsSpace(s[i])
  {
    if |s| > 0 && IsSpace(s[0]) then StripLeft(s[1..]) else s
  }

  /** `s.rstrip()`: the longest prefix that does not end with whitespace. */
  function StripRight(s: string): (r: string)
    ensures |r| <= |s|
    ensures r == s[..|r|]
    ensures |r| > 0 ==> !IsSpace(r[|r| - 1])
    ensures forall i :: |r| <= i < |s| ==> IsSpace(s[i])
  {
    if |s| > 0 && IsSpace(s[|s| - 1]) then StripRight(s[..|s| - 1]) else s
  }

  /** `s.strip()` */
  function Strip(s: string): string {
    StripRight(StripLeft(s))
  }

  // ---------------------------------------------------------------------------
  // Digits, str(n) and int(s)
  // ---------------------------------------------------------------------------

  predicate IsDigit(c: char) {
    '0' <= c <= '9'
  }

  /** `s.isdigit()`, for ASCII digits: non-empty and made only of digits. */
  predicate IsDigits(s: string) {
    |s| > 0 && forall i :: 0 <= i < |s| ==> IsDigit(s[i])
  }

  /** The value of a decimal numeral (meaningful where `IsDigits` holds). */
  function DigitsValue(s: string): nat
  {
    if |s| == 0 then 0
    else DigitsValue(s[..|s| - 1]) * 10 + DigitValue(s[|s| - 1])
  }

  function DigitValue(c: char): nat {
    if IsDigit(c) then c as int - '0' as int else 0
  }

  function DigitChar(d: nat): (c: char)
    requires d < 10
    ensures IsDigit(c) && c as int - '0' as int == d
  {
    (d + '0' as int) as char
  }

  /** `str(n)` for a non-negative int: its shortest decimal numeral. */
  function NatToString(n: nat): string
  {
    if n < 10 then [DigitChar(n)] else NatToString(n / 10) + [DigitChar(n % 10)]
  }

  /** `str(i)` */
  function IntToString(i: int): string {
    if i < 0 then "-" + NatToString(-i) else NatToString(i)
  }

  /** `str(n)` is a numeral that reads back as `n`. */
  lemma {:induction false} NatToStringReadsBack(n: nat)
    ensures IsDigits(NatToString(n))
    ensures DigitsValue(NatToString(n)) == n
  {
    var s := NatToString(n);
    if n >= 10 {
      NatToStringReadsBack(n / 10);
      assert s[..|s| - 1] == NatToString(n / 10);
    }
  }

  /** Distinct numbers have distinct decimal forms. */
  lemma NatToStringInjective(a: nat, b: nat)
    requires NatToString(a) == NatToString(b)
    ensures a == b
  {
    NatToStringReadsBack(a);
    NatToStringReadsBack(b);
  }

  /** `int(s)`: surrounding whitespace, an optional sign, then decimal digits; None where Python raises ValueError. */
  function ParseInt(s: string): Option<int> {
    ParseSigned(Strip(s))
  }

  /** An optional sign followed by a numeral. */
  function ParseSigned(t: string): Option<int> {
    if |t| > 0 && (t[0] == '-' || t[0] == '+') then
      if IsDigits(t[1..]) then
        var magnitude: int := DigitsValue(t[1..]);
        Some(if t[0] == '-' then -magnitude else magnitude)
      else None
    else if IsDigits(t) then Some(DigitsValue(t))
    else None
  }

  /** A numeral has no surrounding whitespace to strip. */
  lemma StripNumeral(d: string)
    requires IsDigits(d)
    ensures Strip(d) == d
  {
    assert !IsSpace(d[0]) && !IsSpace(d[|d| - 1]);
    assert StripLeft(d) == d;
  }

  /** `lstrip()` removes a whitespace prefix up to a non-space character. */
  lemma {:induction false} StripLeftPadded(pre: string, y: string)
    requires forall i :: 0 <= i < |pre| ==> IsSpace(pre[i])
    requires |y| > 0 && !IsSpace(y[0])
    ensures StripLeft(pre + y) == y
    decreases |pre|
  {
    if pre == [] {
      assert pre + y == y;
    } else {
      assert (pre + y)[0] == pre[0];
      assert (pre + y)[1..] == pre[1..] + y;
      StripLeftPadded(pre[1..], y);
    }
  }

  /** `rstrip()` removes a whitespace suffix back to a non-space character. */
  lemma {:induction false} StripRightPadded(y: string, post: string)
    requires forall i :: 0 <= i < |post| ==> IsSpace(post[i])
    requires |y| > 0 && !IsSpace(y[|y| - 1])
    ensures StripRight(y + post) == y
    decreases |post|
  {
    var s := y + post;
    if post == [] {
      assert s == y;
    } else {
      assert s[|s| - 1] == post[|post| - 1];
      assert s[..|s| - 1] == y + post[..|post| - 1];
      StripRightPadded(y, post[..|post| - 1]);
    }
  }

  /**
   * Whitespace around a word that neither starts nor ends with whitespace
   * is exactly what `strip()` removes.
   */
  lemma StripPadded(pre: string, x: string, post: string)
    requires forall i :: 0 <= i < |pre| ==> IsSpace(pre[i])
    requires forall i :: 0 <= i < |post| ==> IsSpace(post[i])
    requires |x| > 0 && !IsSpace(x[0]) && !IsSpace(x[|x| - 1])
    ensures Strip(pre + x + post) == x
  {
    assert pre + x + post == pre + (x + post);
    StripLeftPadded(pre, x + post);
    StripRightPadded(x, post);
  }

  /** Stripping leaves a numeral as it is. */
  lemma ParseNumeralStrip(d: string)
    requires IsDigits(d)
    ensures ParseInt(d) == ParseSigned(d)
  {
    StripNumeral(d);
  }

  /** An unsigned numeral reads as its own value. */
  lemma ParseNumeralValue(d: string)
    requires IsDigits(d)
    ensures ParseSigned(d) == Some(DigitsValue(d))
  {
    assert !(d[0] == '-' || d[0] == '+');
  }

  /** A bare numeral parses to its value. */
  lemma ParseDigits(d: string)
    requires IsDigits(d)
    ensures ParseInt(d) == Some(DigitsValue(d))
  {
    ParseNumeralStrip(d);
    ParseNumeralValue(d);
  }

  /** "-" then a numeral has no surrounding whitespace to strip. */
  lemma StripNegatedNumeral(d: string)
    requires IsDigits(d)
    ensures Strip("-" + d) == "-" + d
  {
    var t := "-" + d;
    assert !IsSpace(t[0]);
    assert StripLeft(t) == t;
    assert t[|t| - 1] == d[|d| - 1];
    assert !IsSpace(t[|t| - 1]);
  }

  /** "-" then a numeral reads as the negated value. */
  lemma SignedNegatedNumeral(d: string)
    requires IsDigits(d)
    ensures ParseSigned("-" + d) == Some(0 - DigitsValue(d))
  {
    var t := "-" + d;
    assert t[1..] == d;
  }

  /** A minus sign before a numeral parses to the negated value. */
  lemma ParseNegatedDigits(d: string)
    requires IsDigits(d)
    ensures ParseInt("-" + d) == Some(0 - DigitsValue(d))
  {
    StripNegatedNumeral(d);
    SignedNegatedNumeral(d);
  }

  /** `int(s) == n` for the decimal form `s` of a non-negative `n`. */
  lemma ParseNatRoundTrip(n: nat, s: string)
    requires s == NatToString(n)
    ensures ParseInt(s) == Some(n)
  {
    NatToStringReadsBack(n);
    ParseDigits(s);
  }

  /** `int(s) == -n` for the decimal form `s` of a negative `-n`. */
  lemma ParseNegatedRoundTrip(n: nat, s: string)
    requires s == "-" + NatToString(n)
    ensures ParseInt(s) == Some(0 - n)
  {
    var d := NatToString(n);
    NatToStringReadsBack(n);
    ParseNegatedDigits(d);
  }

  /** `int(str(i)) == i` */
  lemma ParseIntRoundTrip(i: int)
    ensures ParseInt(IntToString(i)) == Some(i)
  {
    var s := IntToString(i);
    if i < 0 {
      ParseNegatedRoundTrip(-i, s);
    } else {
      ParseNatRoundTrip(i, s);
    }
  }

  /** `str` is injective on ints. */
  lemma IntToStringInjective(a: int, b: int)
    requires IntToString(a) == IntToString(b)
    ensures a == b
  {
    ParseIntRoundTrip(a);
    ParseIntRoundTrip(b);
  }

  // ---------------------------------------------------------------------------
  // Case mapping
  // ---------------------------------------------------------------------------

  /**
   * `c.upper()` where it matters here: ASCII letters, and the two non-ASCII letters
   * whose upper-case form is an ASCII letter (dotless i and long s). Every other
   * character is kept as it is.
   */
  function UpperChar(c: char): char {
    if 'a' <= c <= 'z' then (c as int - 32) as char
    else if c == '\U{0131}' then 'I'
    else if c == '\U{017F}' then 'S'
    else c
  }

  /** `c.lower()` for ASCII letters; every other character is kept as it is. */
  function LowerChar(c: char): char {
    if 'A' <= c <= 'Z' then (c as int + 32) as char else c
  }

  function Upper(s: string): (r: string)
    ensures |r| == |s|
    ensures forall i :: 0 <= i < |s| ==> r[i] == UpperChar(s[i])
  {
    if |s| == 0 then "" else [UpperChar(s[0])] + Upper(s[1..])
  }

  function Lower(s: string): (r: string)
    ensures |r| == |s|
    ensures forall i :: 0 <= i < |s| ==> r[i] == LowerChar(s[i])
  {
    if |s| == 0 then "" else [LowerChar(s[0])] + Lower(s[1..])
  }

  /** `s.startswith(prefix)` */
  predicate StartsWith(s: string, prefix: string) {
    |prefix| <= |s| && s[..|prefix|] == prefix
  }

  /** A string that differs from `prefix` at some position of the prefix does not start with it. */
  lemma NotPrefix(data: string, prefix: string, i: nat)
    requires i < |prefix| && (i >= |data| || data[i] != prefix[i])
    ensures !StartsWith(data, prefix)
  {
  }

  /** `s.replace(c, "")` for a single character `c`: every other character, in order. */
  function Without(s: string, c: char): (r: string)
    ensures c !in r
    ensures |r| <= |s|
    ensures c !in s ==> r == s
  {
    if |s| == 0 then ""
    else if s[0] == c then Without(s[1..], c)
    else [s[0]] + Without(s[1..], c)
  }

  /** Removing a character distributes over concatenation. */
  lemma {:induction false} WithoutAppend(a: string, b: string, c: char)
    ensures Without(a + b, c) == Without(a, c) + Without(b, c)
    decreases |a|
  {
    if |a| > 0 {
      assert (a + b)[1..] == a[1..] + b;
      WithoutAppend(a[1..], b, c);
    } else {
      assert a + b == b;
    }
  }

  /** On one character: removed if it is `c`, kept otherwise. */
  lemma WithoutSingle(x: char, c: char)
    ensures Without([x], c) == if x == c then "" else [x]
  {
    assert [x][1..] == "";
  }

  /** `sep.join(items)` */
  function Join(items: seq<string>, sep: string): string {
    if |items| == 0 then ""
    else if |items| == 1 then items[0]
    else items[0] + sep + Join(items[1..], sep)
  }
}
