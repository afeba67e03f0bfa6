/** JavaScript's global `parseInt(s)` (no radix argument) on the strings this
    client feeds it: the value stored for the logged-in user's id and the
    contents of the numeric form fields. `None` stands for `NaN`. */
module Numbers {
  import opened Common

  predicate IsDigit(c: char) { '0' <= c <= '9' }

  predicate AllDigits(d: string) { forall i :: 0 <= i < |d| ==> IsDigit(d[i]) }

  /** The ASCII white-space and line-terminator characters that `parseInt`
      skips before the number. */
  predicate IsSpace(c: char) {
    c == ' ' || c == '\t' || c == '\n' || c == '\U{B}' || c == '\U{C}' || c == '\r'
  }

  /** `s` without its leading white space. */
  function TrimStart(s: string): (r: string)
    ensures |r| <= |s|
    ensures r == [] || !IsSpace(r[0])
  {
    if s != [] && IsSpace(s[0]) then TrimStart(s[1..]) else s
  }

  /** What is left after trimming is a suffix of `s`. */
  lemma {:induction false} TrimStartIsSuffix(s: string)
    ensures TrimStart(s) == s[|s| - |TrimStart(s)|..]
  {
    if s != [] && IsSpace(s[0]) {
      TrimStartIsSuffix(s[1..]);
      assert s[1..][|s[1..]| - |TrimStart(s[1..])|..] == s[|s| - |TrimStart(s)|..];
    }
  }

  /** The longest prefix of `s` made of decimal digits. */
  function LeadingDigits(s: string): (d: string)
    ensures |d| <= |s|
    ensures AllDigits(d)
    ensures |d| == |s| || !IsDigit(s[|d|])
  {
    if s != [] && IsDigit(s[0]) then [s[0]] + LeadingDigits(s[1..]) else []
  }

  /** The digits read are the first characters of `s`. */
  lemma {:induction false} LeadingDigitsIsPrefix(s: string)
    ensures LeadingDigits(s) == s[..|LeadingDigits(s)|]
  {
    if s != [] && IsDigit(s[0]) {
      LeadingDigitsIsPrefix(s[1..]);
      assert s[..|LeadingDigits(s)|] == [s[0]] + s[1..][..|LeadingDigits(s[1..])|];
    }
  }

  function DigitValue(c: char): nat
    requires IsDigit(c)
  {
    c as int - '0' as int
  }

  /** The value of a string of decimal digits, most significant first. */
  function DigitsValue(d: string): nat
    requires AllDigits(d)
  {
    if d == [] then 0 else 10 * DigitsValue(d[..|d| - 1]) + DigitValue(d[|d| - 1])
  }

  /** `parseInt(s)`: skip leading white space, read an optional sign, then
      the longest run of decimal digits; stop at the first other character.
      No digit at all gives `NaN` (`None`). */
  function ParseInt(s: string): Option<int> {
    ParseSigned(TrimStart(s))
  }

  /** `t` begins with a digit, or with a sign followed by a digit. */
  predicate StartsNumber(t: string) {
    || (t != [] && IsDigit(t[0]))
    || (|t| > 1 && (t[0] == '-' || t[0] == '+') && IsDigit(t[1]))
  }

  /** An optional sign followed by the digits. */
  function ParseSigned(t: string): Option<int> {
    if t != [] && t[0] == '-' then Negate(ParseDigits(t[1..]))
    else if t != [] && t[0] == '+' then ParseDigits(t[1..])
    else ParseDigits(t)
  }

  /** The value of the leading digits, `NaN` when there are none. */
  function ParseDigits(body: string): Option<int> {
    var digits := LeadingDigits(body);
    if digits == [] then None else Some(DigitsValue(digits))
  }

  function Negate(v: Option<int>): Option<int> {
    match v
    case None => None
    case Some(n) => Some(-n)
  }

  function DigitChar(n: nat): (c: char)
    requires n < 10
    ensures IsDigit(c) && DigitValue(c) == n
  {
    ('0' as int + n) as char
  }

  /** `String(n)` for a non-negative integer: its decimal digits, most
      significant first, with no leading zero. */
  function FormatNat(n: nat): (s: string)
    ensures s != [] && AllDigits(s)
    ensures DigitsValue(s) == n
  {
    if n < 10 then [DigitChar(n)]
    else
      var s := FormatNat(n / 10) + [DigitChar(n % 10)];
      assert s[..|s| - 1] == FormatNat(n / 10);
      s
  }

  /** `String(n)` for any integer. */
  function FormatInt(n: int): string {
    if n < 0 then "-" + FormatNat(-n) else FormatNat(n)
  }

  lemma {:induction false} LeadingDigitsOfNumber(d: string, tail: string)
    requires AllDigits(d)
    requires tail == [] || !IsDigit(tail[0])
    ensures LeadingDigits(d + tail) == d
  {
    if d == [] {
      assert d + tail == tail;
    } else {
      assert (d + tail)[1..] == d[1..] + tail;
      LeadingDigitsOfNumber(d[1..], tail);
      assert [d[0]] + d[1..] == d;
    }
  }

  /** A run of digits followed by a non-digit or nothing parses to the
      value of the run. */
  lemma ParseDigitsOfRun(d: string, tail: string)
    requires d != [] && AllDigits(d)
    requires tail == [] || !IsDigit(tail[0])
    ensures ParseDigits(d + tail) == Some(DigitsValue(d))
  {
    LeadingDigitsOfNumber(d, tail);
  }

  /** A string that starts with a digit or a minus sign has no leading
      white space to skip. */
  lemma NothingToTrim(s: string)
    requires s != [] && (IsDigit(s[0]) || s[0] == '-')
    ensures ParseInt(s) == ParseSigned(s)
  {
    assert TrimStart(s) == s;
  }

  /** A leading minus sign negates what the digits after it give. */
  lemma ParseSignedMinus(u: string)
    ensures ParseSigned(['-'] + u) == Negate(ParseDigits(u))
  {
    assert (['-'] + u)[1..] == u;
  }

  /** A minus sign in front of a string whose digits give `v`. */
  lemma ParseMinusDigits(u: string, v: int)
    requires ParseDigits(u) == Some(v)
    ensures ParseInt(['-'] + u) == Some(-v)
  {
    var s := ['-'] + u;
    assert ParseInt(s) == ParseSigned(s) by {
      NothingToTrim(s);
    }
    assert ParseSigned(s) == Negate(Some(v)) by {
      ParseSignedMinus(u);
    }
  }

  /** A run of digits, then a non-digit or nothing. */
  lemma ParsePlainRun(d: string, tail: string)
    requires d != [] && AllDigits(d)
    requires tail == [] || !IsDigit(tail[0])
    ensures ParseInt(d + tail) == Some(DigitsValue(d))
  {
    ParseDigitsOfRun(d, tail);
    assert (d + tail)[0] == d[0];
    NothingToTrim(d + tail);
  }

  /** The rendering of a negative number is a minus sign and the digits of
      its magnitude. */
  lemma NegativeRendering(n: int, tail: string)
    requires n < 0
    ensures FormatInt(n) + tail == ['-'] + (FormatNat(-n) + tail)
  {
    var d := FormatNat(-n);
    assert FormatInt(n) == ['-'] + d;
  }

  /** `parseInt` reads back the rendering of an integer, and stops at the
      first non-digit that follows it (so `parseInt("85.5")` is 85). */
  lemma ParseIntReadsLeadingNumber(n: int, tail: string)
    requires tail == [] || !IsDigit(tail[0])
    ensures ParseInt(FormatInt(n) + tail) == Some(n)
  {
    if n < 0 {
      var d := FormatNat(-n);
      ParseDigitsOfRun(d, tail);
      ParseMinusDigits(d + tail, -n);
      NegativeRendering(n, tail);
    } else {
      ParsePlainRun(FormatNat(n), tail);
    }
  }

  /** The digits give a value exactly when the body starts with a digit,
      and that value is never negative. */
  lemma ParseDigitsRule(body: string)
    ensures ParseDigits(body).Some? <==> body != [] && IsDigit(body[0])
    ensures ParseDigits(body).Some? ==> ParseDigits(body).value >= 0
  {
    var digits := LeadingDigits(body);
    if body != [] && IsDigit(body[0]) {
      assert digits != [] by {
        assert |digits| == |body| || !IsDigit(body[|digits|]);
      }
    }
  }

  /** An optional sign and digits give a value exactly when `t` starts a
      number; a negative value needs the minus sign. */
  lemma ParseSignedRule(t: string)
    ensures ParseSigned(t).Some? <==> StartsNumber(t)
    ensures ParseSigned(t).Some? && ParseSigned(t).value < 0 ==> t[0] == '-'
  {
    ParseDigitsRule(t);
    if t != [] && (t[0] == '-' || t[0] == '+') {
      ParseDigitsRule(t[1..]);
      assert |t| > 1 ==> t[1..][0] == t[1];
    }
  }

  /** When `parseInt` gives `NaN`: exactly when, after the leading white
      space, neither a digit nor a sign followed by a digit comes next. A
      negative result needs a minus sign. */
  lemma ParseIntNaNRule(s: string)
    ensures ParseInt(s).Some? <==> StartsNumber(TrimStart(s))
    ensures ParseInt(s).Some? && ParseInt(s).value < 0 ==> TrimStart(s)[0] == '-'
  {
    ParseSignedRule(TrimStart(s));
  }

  /** Round trip: `parseInt(String(n)) == n`. */
  lemma ParseIntFormatInt(n: int)
    ensures ParseInt(FormatInt(n)) == Some(n)
  {
    ParseIntReadsLeadingNumber(n, []);
    assert FormatInt(n) + [] == FormatInt(n);
  }

  /** A string without any decimal digit parses to `NaN`; in particular the
      empty string does. */
  lemma NoDigitIsNaN(s: string)
    requires forall i :: 0 <= i < |s| ==> !IsDigit(s[i])
    ensures ParseInt(s) == None
  {
    var t := TrimStart(s);
    var k := |s| - |t|;
    TrimStartIsSuffix(s);
    if t != [] {
      assert t[0] == s[k];
    }
    if |t| > 1 {
      assert t[1] == s[k + 1];
    }
    assert !StartsNumber(t);
    ParseIntNaNRule(s);
  }
}
