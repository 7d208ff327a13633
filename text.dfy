/**
  The string operations the application relies on: ASCII case mapping (`toLowerCase`/`toUpperCase`),
  `startsWith`, `includes`, and the decimal-number reading that `parseFloat` performs on a price typed
  into a form.
 */
module Text {
  import opened Base

  /* ---------- case mapping ---------- */

  function LowerChar(c: char): char {
    if 'A' <= c <= 'Z' then (c as int + 32) as char else c
  }

  function UpperChar(c: char): char {
    if 'a' <= c <= 'z' then (c as int - 32) as char else c
  }

  /** `s.toLowerCase()` on the ASCII letters. */
  function Lower(s: string): (r: string)
    ensures |r| == |s|
  {
    seq(|s|, i requires 0 <= i < |s| => LowerChar(s[i]))
  }

  /** `s.toUpperCase()` on the ASCII letters. */
  function Upper(s: string): (r: string)
    ensures |r| == |s|
  {
    seq(|s|, i requires 0 <= i < |s| => UpperChar(s[i]))
  }

  /** Upper-casing forgets the case the text was written in. */
  lemma UpperOfLower(s: string)
    ensures Upper(Lower(s)) == Upper(s)
  {
    forall i | 0 <= i < |s|
      ensures Upper(Lower(s))[i] == Upper(s)[i]
    {
      var c := s[i];
      assert Lower(s)[i] == LowerChar(c);
      if 'A' <= c <= 'Z' {
        assert UpperChar(LowerChar(c)) == c == UpperChar(c);
      }
    }
  }

  /** Lower-casing forgets the case the text was written in. */
  lemma LowerOfUpper(s: string)
    ensures Lower(Upper(s)) == Lower(s)
  {
    forall i | 0 <= i < |s|
      ensures Lower(Upper(s))[i] == Lower(s)[i]
    {
      var c := s[i];
      assert Upper(s)[i] == UpperChar(c);
      if 'a' <= c <= 'z' {
        assert LowerChar(UpperChar(c)) == c == LowerChar(c);
      }
    }
  }

  /** Lower-casing is idempotent. */
  lemma LowerIdempotent(s: string)
    ensures Lower(Lower(s)) == Lower(s)
  {
    forall i | 0 <= i < |s|
      ensures Lower(Lower(s))[i] == Lower(s)[i]
    {
      assert Lower(s)[i] == LowerChar(s[i]);
    }
  }

  /* ---------- prefixes and substrings ---------- */

  /** `s.startsWith(p)` */
  predicate StartsWith(s: string, p: string) {
    |p| <= |s| && s[..|p|] == p
  }

  /** `hay.includes(needle)`, scanning the start positions from the left. */
  predicate Contains(hay: string, needle: string)
    decreases |hay|
  {
    StartsWith(hay, needle) || (|hay| > 0 && Contains(hay[1..], needle))
  }

  /** The needle occurs in the haystack starting at position `i`. */
  predicate OccursAt(hay: string, needle: string, i: int) {
    0 <= i <= |hay| - |needle| && hay[i..i + |needle|] == needle
  }

  /** `includes` holds exactly when the needle occurs at some position of the haystack. */
  lemma {:induction false} ContainsIffOccurs(hay: string, needle: string)
    ensures Contains(hay, needle) <==> exists i :: OccursAt(hay, needle, i)
    decreases |hay|
  {
    if exists i :: OccursAt(hay, needle, i) {
      var i :| OccursAt(hay, needle, i);
      if i > 0 {
        assert OccursAt(hay[1..], needle, i - 1);
        ContainsIffOccurs(hay[1..], needle);
      }
    }
    if |hay| > 0 && Contains(hay[1..], needle) {
      ContainsIffOccurs(hay[1..], needle);
      var i :| OccursAt(hay[1..], needle, i);
      assert OccursAt(hay, needle, i + 1);
    }
    if StartsWith(hay, needle) {
      assert OccursAt(hay, needle, 0);
    }
  }

  /** Every string includes the empty string. */
  lemma ContainsEmpty(hay: string)
    ensures Contains(hay, "")
  {
    assert StartsWith(hay, "");
  }

  /* ---------- reading a number the way parseFloat does ---------- */

  predicate IsDigit(c: char) {
    '0' <= c <= '9'
  }

  /**
    The white space that parseFloat skips before the number: the ECMAScript white space (tab, vertical
    tab, form feed, space, no-break space, byte order mark and the other space separators) and the four
    line terminators.
   */
  predicate IsSpace(c: char) {
    c == ' ' || c == '\t' || c == '\n' || c == '\r' || c == '\U{000B}' || c == '\U{000C}' ||
    c == '\U{00A0}' || c == '\U{FEFF}' || c == '\U{1680}' || ('\U{2000}' <= c <= '\U{200A}') ||
    c == '\U{2028}' || c == '\U{2029}' || c == '\U{202F}' || c == '\U{205F}' || c == '\U{3000}'
  }

  /** `s` without its leading white space. */
  function TrimStart(s: string): (r: string)
    ensures |r| <= |s|
  {
    if |s| > 0 && IsSpace(s[0]) then TrimStart(s[1..]) else s
  }

  /** Trimming keeps a suffix of the text, one that does not start with white space. */
  lemma {:induction false} TrimStartSuffix(s: string)
    ensures var r := TrimStart(s); r == s[|s| - |r|..] && (|r| > 0 ==> !IsSpace(r[0]))
  {
    if |s| > 0 && IsSpace(s[0]) {
      TrimStartSuffix(s[1..]);
      assert s[1..][|s| - 1 - |TrimStart(s[1..])|..] == s[|s| - |TrimStart(s[1..])|..];
    }
  }

  /** Length of the run of decimal digits at the start of `s`. */
  function DigitRun(s: string): (n: nat)
    ensures n <= |s|
    ensures forall i :: 0 <= i < n ==> IsDigit(s[i])
    ensures n < |s| ==> !IsDigit(s[n])
  {
    if |s| > 0 && IsDigit(s[0]) then 1 + DigitRun(s[1..]) else 0
  }

  /** Some character of `s` is a decimal digit. */
  predicate HasDigit(s: string) {
    exists i :: 0 <= i < |s| && IsDigit(s[i])
  }

  predicate AllDigits(d: string) {
    forall i :: 0 <= i < |d| ==> IsDigit(d[i])
  }

  /** The value of a string of decimal digits, most significant first. */
  function DigitsValue(d: string): nat
    requires AllDigits(d)
  {
    if |d| == 0 then 0 else 10 * DigitsValue(d[..|d| - 1]) + (d[|d| - 1] as int - '0' as int)
  }

  function Pow10(n: nat): (r: real)
    ensures r >= 1.0
  {
    if n == 0 then 1.0 else 10.0 * Pow10(n - 1)
  }

  /** The factor an exponent part `e[+|-]digits` contributes; 1 when there is no complete exponent part. */
  function ExponentFactor(rest: string): (r: real)
    ensures r > 0.0
  {
    if |rest| > 0 && (rest[0] == 'e' || rest[0] == 'E') then
      var signed := |rest| > 1 && (rest[1] == '+' || rest[1] == '-');
      var body := if signed then rest[2..] else rest[1..];
      var n := DigitRun(body);
      if n == 0 then 1.0
      else
        var e := DigitsValue(body[..n]);
        if signed && rest[1] == '-' then 1.0 / Pow10(e) else Pow10(e)
    else 1.0
  }

  /** The value of the run of decimal digits at the start of `s` (0 when there is none). */
  function LeadValue(s: string): nat {
    var n := DigitRun(s);
    assert AllDigits(s[..n]);
    DigitsValue(s[..n])
  }

  /** The number of digits after a point at the start of `s`; 0 when `s` does not start with a point. */
  function FractionDigits(s: string): nat {
    if |s| > 0 && s[0] == '.' then DigitRun(s[1..]) else 0
  }

  /** The value of `.digits` at the start of `s`. */
  function FractionValue(s: string): (r: real)
    ensures r >= 0.0
  {
    if |s| > 0 && s[0] == '.' then LeadValue(s[1..]) as real / Pow10(DigitRun(s[1..])) else 0.0
  }

  /** What follows `.digits` at the start of `s`. */
  function AfterFraction(s: string): string {
    if |s| > 0 && s[0] == '.' then s[1..][DigitRun(s[1..])..] else s
  }

  /** An unsigned decimal number at the start of `u`: digits, an optional fraction, an optional exponent. */
  function Unsigned(u: string): Option<real> {
    var afterInt := u[DigitRun(u)..];
    if DigitRun(u) == 0 && FractionDigits(afterInt) == 0 then None
    else Some(UnsignedValue(u))
  }

  /** The value of the digits, fraction and exponent at the start of `u`; never negative. */
  function UnsignedValue(u: string): (r: real)
    ensures r >= 0.0
  {
    var afterInt := u[DigitRun(u)..];
    var mantissa := LeadValue(u) as real + FractionValue(afterInt);
    var factor := ExponentFactor(AfterFraction(afterInt));
    ProductNotNegative(mantissa, factor);
    mantissa * factor
  }

  lemma ProductNotNegative(a: real, b: real)
    requires a >= 0.0 && b > 0.0
    ensures a * b >= 0.0
  {
  }

  /** An unsigned number needs a digit, and a leading digit always gives one. */
  lemma UnsignedNeedsDigit(u: string)
    ensures Unsigned(u).Some? ==> HasDigit(u)
    ensures |u| > 0 && IsDigit(u[0]) ==> Unsigned(u).Some?
  {
    var n := DigitRun(u);
    if Unsigned(u).Some? {
      if n > 0 {
        assert IsDigit(u[0]);
      } else {
        assert u[n..] == u;
        assert IsDigit(u[1..][0]);
        assert IsDigit(u[1]);
      }
    }
  }

  /**
    `parseFloat(s)`: skip leading white space, read an optional sign, digits, an optional fraction and an
    optional exponent, and ignore whatever follows. `None` is NaN: no digit before or after the point.
   */
  function ParseFloat(s: string): Option<real> {
    var t := TrimStart(s);
    if |t| > 0 && (t[0] == '-' || t[0] == '+') then
      var m := Unsigned(t[1..]);
      if t[0] == '-' && m.Some? then Some(-m.value) else m
    else Unsigned(t)
  }

  /**
    What `parseFloat` gives NaN for and what it never gives: a number is read only from a text holding a
    digit; a negative number only when the first character after the white space is a minus; and a
    text starting with a digit always reads as a number that is not negative.
   */
  lemma ParseFloatReading(s: string)
    ensures ParseFloat(s).Some? ==> HasDigit(s)
    ensures ParseFloat(s).Some? && ParseFloat(s).value < 0.0 ==> |TrimStart(s)| > 0 && TrimStart(s)[0] == '-'
    ensures |s| > 0 && IsDigit(s[0]) ==> ParseFloat(s).Some? && ParseFloat(s).value >= 0.0
  {
    var t := TrimStart(s);
    TrimStartSuffix(s);
    if |t| > 0 && (t[0] == '-' || t[0] == '+') {
      UnsignedNeedsDigit(t[1..]);
      if ParseFloat(s).Some? {
        var i :| 0 <= i < |t[1..]| && IsDigit(t[1..][i]);
        assert s[|s| - |t| + i + 1] == t[1..][i];
      }
    } else {
      UnsignedNeedsDigit(t);
      if ParseFloat(s).Some? {
        var i :| 0 <= i < |t| && IsDigit(t[i]);
        assert s[|s| - |t| + i] == t[i];
      }
    }
    if |s| > 0 && IsDigit(s[0]) {
      assert TrimStart(s) == s;
    }
  }

  /** The decimal text of a natural number, as `String(n)` writes it. */
  function NatText(n: nat): (r: string)
    ensures |r| > 0 && AllDigits(r)
  {
    if n < 10 then [(n + '0' as int) as char] else NatText(n / 10) + [(n % 10 + '0' as int) as char]
  }

  lemma {:induction false} NatTextValue(n: nat)
    ensures DigitsValue(NatText(n)) == n
  {
    if n >= 10 {
      NatTextValue(n / 10);
      var t := NatText(n);
      assert t[..|t| - 1] == NatText(n / 10);
    }
  }

  lemma {:induction false} DigitRunOfDigits(d: string)
    requires AllDigits(d)
    ensures DigitRun(d) == |d|
    decreases |d|
  {
    if |d| > 0 {
      DigitRunOfDigits(d[1..]);
    }
  }

  /** The text of a natural number, read as an unsigned number, is that number. */
  lemma UnsignedNatText(n: nat)
    ensures Unsigned(NatText(n)) == Some(n as real)
  {
    var t := NatText(n);
    DigitRunOfDigits(t);
    NatTextValue(n);
    assert t[..|t|] == t;
    assert t[|t|..] == "";
  }

  /** Reading back the text of a natural number gives that number. */
  lemma ParseNatText(n: nat)
    ensures ParseFloat(NatText(n)) == Some(n as real)
  {
    var t := NatText(n);
    assert IsDigit(t[0]);
    assert TrimStart(t) == t;
    UnsignedNatText(n);
  }

  /** Leading white space, including the wide Unicode spaces, does not change what `parseFloat` reads. */
  lemma ParseSkipsSpace(c: char, s: string)
    requires IsSpace(c)
    ensures ParseFloat([c] + s) == ParseFloat(s)
  {
    assert ([c] + s)[1..] == s;
  }

  /** A price typed after an ideographic space still reads as its number. */
  lemma ParseAfterIdeographicSpace(n: nat)
    ensures ParseFloat(['\U{3000}'] + NatText(n)) == Some(n as real)
  {
    ParseSkipsSpace('\U{3000}', NatText(n));
    ParseNatText(n);
  }

  /** A sign in front of a number's digits negates it, and leading white space is ignored. */
  lemma ParseNegative(n: nat)
    ensures ParseFloat(" -" + NatText(n)) == Some(-(n as real))
  {
    var t := NatText(n);
    var s := " -" + t;
    assert s[1..] == "-" + t;
    assert TrimStart(s[1..]) == "-" + t;
    assert TrimStart(s) == "-" + t;
    assert ("-" + t)[1..] == t;
    UnsignedNatText(n);
  }
}
