/** The JavaScript string operations the client relies on, stated over
    sequences of Unicode scalar values: `length` (UTF-16 code units), `trim`,
    `toLowerCase` (restricted to ASCII letters), `includes`, `split(c)[0]` and
    the decimal rendering of an integer in a template literal. */
module Text {

  // ---------------------------------------------------------------------------
  // length
  // ---------------------------------------------------------------------------

  /** Code units one scalar value takes in UTF-16. */
  function Utf16Units(c: char): nat {
    if c as int > 0xFFFF then 2 else 1
  }

  /** `s.length` in JavaScript: the number of UTF-16 code units of `s`. */
  function Utf16Length(s: string): (n: nat)
    ensures |s| <= n <= 2 * |s|
    ensures n == 0 <==> s == []
  {
    if |s| == 0 then 0 else Utf16Units(s[0]) + Utf16Length(s[1..])
  }

  /** A string of Basic Multilingual Plane characters has as many code units
      as characters. */
  lemma {:induction false} Utf16LengthOfBmp(s: string)
    requires forall i :: 0 <= i < |s| ==> s[i] as int <= 0xFFFF
    ensures Utf16Length(s) == |s|
  {
    if |s| > 0 {
      Utf16LengthOfBmp(s[1..]);
    }
  }

  // ---------------------------------------------------------------------------
  // trim
  // ---------------------------------------------------------------------------

  /** The characters `String.prototype.trim` removes: ECMAScript WhiteSpace
      (tab, vertical tab, form feed, zero-width no-break space and every
      space separator) and LineTerminator (LF, CR, U+2028, U+2029). */
  predicate IsJsWhitespace(c: char) {
    c in JsWhitespace
  }

  const JsWhitespace: set<char> :=
    { '\t', '\n', '\U{000B}', '\U{000C}', '\r', ' ', '\U{00A0}', '\U{1680}',
      '\U{2000}', '\U{2001}', '\U{2002}', '\U{2003}', '\U{2004}', '\U{2005}',
      '\U{2006}', '\U{2007}', '\U{2008}', '\U{2009}', '\U{200A}',
      '\U{2028}', '\U{2029}', '\U{202F}', '\U{205F}', '\U{3000}', '\U{FEFF}' }

  /** Every character of `s` is whitespace. */
  predicate AllWhitespace(s: string) {
    forall i :: 0 <= i < |s| ==> IsJsWhitespace(s[i])
  }

  /** The end of the whitespace run of `s` that starts at index `i`. */
  function LeadingEnd(s: string, i: nat): (k: nat)
    requires i <= |s|
    ensures i <= k <= |s|
    ensures forall j :: i <= j < k ==> IsJsWhitespace(s[j])
    ensures k == |s| || !IsJsWhitespace(s[k])
    decreases |s| - i
  {
    if i < |s| && IsJsWhitespace(s[i]) then LeadingEnd(s, i + 1) else i
  }

  /** The start of the whitespace run of `s` that ends at index `j`. */
  function TrailingStart(s: string, j: nat): (k: nat)
    requires j <= |s|
    ensures k <= j
    ensures forall m :: k <= m < j ==> IsJsWhitespace(s[m])
    ensures k == 0 || !IsJsWhitespace(s[k - 1])
  {
    if j > 0 && IsJsWhitespace(s[j - 1]) then TrailingStart(s, j - 1) else j
  }

  /** `s` with its leading whitespace removed. */
  function TrimStart(s: string): (r: string)
    ensures |r| <= |s| && r == s[|s| - |r|..]
    ensures AllWhitespace(s[..|s| - |r|])
    ensures r == [] || !IsJsWhitespace(r[0])
  {
    var k := LeadingEnd(s, 0);
    assert forall j :: 0 <= j < k ==> s[..k][j] == s[j];
    s[k..]
  }

  /** `s` with its trailing whitespace removed. */
  function TrimEnd(s: string): (r: string)
    ensures |r| <= |s| && r == s[..|r|]
    ensures AllWhitespace(s[|r|..])
    ensures r == [] || !IsJsWhitespace(r[|r| - 1])
  {
    var k := TrailingStart(s, |s|);
    assert forall m :: 0 <= m < |s| - k ==> s[k..][m] == s[k + m];
    s[..k]
  }

  /** `r` is the block of `s` starting at `lo`, and everything of `s`
      before and after that block is whitespace. */
  predicate WhitespaceAround(s: string, r: string, lo: int) {
    && 0 <= lo <= |s| - |r|
    && r == s[lo..lo + |r|]
    && AllWhitespace(s[..lo])
    && AllWhitespace(s[lo + |r|..])
  }

  /** `s.trim()`: the contiguous part of `s` between its leading and its
      trailing whitespace. */
  function Trim(s: string): (r: string)
    ensures exists lo :: WhitespaceAround(s, r, lo)
    ensures r == [] || (!IsJsWhitespace(r[0]) && !IsJsWhitespace(r[|r| - 1]))
    ensures r == [] <==> AllWhitespace(s)
  {
    var t := TrimStart(s);
    var r := TrimEnd(t);
    TrimParts(s, |s| - |t|, t, r);
    r
  }

  lemma TrimParts(s: string, lo: nat, t: string, r: string)
    requires lo <= |s| && t == s[lo..] && AllWhitespace(s[..lo])
    requires t == [] || !IsJsWhitespace(t[0])
    requires |r| <= |t| && r == t[..|r|] && AllWhitespace(t[|r|..])
    ensures WhitespaceAround(s, r, lo)
    ensures r == [] <==> AllWhitespace(s)
  {
    assert r == s[lo..lo + |r|];
    assert s[lo + |r|..] == t[|r|..];
    if r == [] {
      assert t[0..] == t;
      assert |t| == 0;
      assert s[..lo] == s;
    } else {
      assert r[0] == s[lo];
    }
  }

  /** Trimming twice is trimming once. */
  lemma TrimIdempotent(s: string)
    ensures Trim(Trim(s)) == Trim(s)
  {
    var r := Trim(s);
    if r != [] {
      assert LeadingEnd(r, 0) == 0;
      assert r[0..] == r;
      assert TrailingStart(r, |r|) == |r|;
      assert r[..|r|] == r;
    }
    assert TrimEnd(TrimStart(r)) == r;
  }

  // ---------------------------------------------------------------------------
  // toLowerCase
  // ---------------------------------------------------------------------------

  predicate IsAsciiUpper(c: char) {
    'A' <= c <= 'Z'
  }

  /** The lower-case form of one character (ASCII letters only). */
  function LowerChar(c: char): (d: char)
    ensures !IsAsciiUpper(d)
    ensures IsAsciiUpper(c) ==> d as int == c as int + 32
    ensures !IsAsciiUpper(c) ==> d == c
  {
    if IsAsciiUpper(c) then (c as int + 32) as char else c
  }

  /** `s.toLowerCase()` restricted to ASCII letters. */
  function Lower(s: string): (r: string)
    ensures |r| == |s|
    ensures forall i :: 0 <= i < |r| ==> !IsAsciiUpper(r[i])
    ensures forall i :: 0 <= i < |r| ==> LowerChar(s[i]) == r[i]
  {
    seq(|s|, i requires 0 <= i < |s| => LowerChar(s[i]))
  }

  /** Lower-casing a lower-case string changes nothing. */
  lemma LowerIdempotent(s: string)
    ensures Lower(Lower(s)) == Lower(s)
  {
  }

  // ---------------------------------------------------------------------------
  // includes
  // ---------------------------------------------------------------------------

  /** `t` occurs in `s` starting at index `i`. */
  predicate OccursAt(s: string, t: string, i: int) {
    0 <= i <= |s| - |t| && s[i..i + |t|] == t
  }

  /** `s.includes(t)`: `t` occurs in `s` as a contiguous block. */
  function Includes(s: string, t: string): (r: bool)
    ensures r <==> exists i :: OccursAt(s, t, i)
    decreases |s|
  {
    if |t| > |s| then false
    else if s[..|t|] == t then assert OccursAt(s, t, 0); true
    else
      var r := Includes(s[1..], t);
      assert r ==> exists i :: OccursAt(s, t, i) by {
        if r {
          var j :| OccursAt(s[1..], t, j);
          assert s[1..][j..j + |t|] == s[j + 1..j + 1 + |t|];
          assert OccursAt(s, t, j + 1);
        }
      }
      assert (exists i :: OccursAt(s, t, i)) ==> r by {
        if exists i :: OccursAt(s, t, i) {
          var i :| OccursAt(s, t, i);
          assert i != 0;
          assert s[1..][i - 1..i - 1 + |t|] == s[i..i + |t|];
          assert OccursAt(s[1..], t, i - 1);
        }
      }
      r
  }

  /** Every string includes the empty string. */
  lemma IncludesEmpty(s: string)
    ensures Includes(s, "")
  {
    assert OccursAt(s, "", 0);
  }

  // ---------------------------------------------------------------------------
  // split(c)[0]
  // ---------------------------------------------------------------------------

  /** `s.split(c)[0]`: the part of `s` before the first `c`, or all of `s`
      when `c` does not occur. */
  function BeforeFirst(s: string, c: char): (r: string)
    ensures |r| <= |s| && r == s[..|r|]
    ensures c !in r
    ensures |r| == |s| || s[|r|] == c
  {
    if |s| == 0 || s[0] == c then [] else [s[0]] + BeforeFirst(s[1..], c)
  }

  /** Splitting `a + [c] + b` at its first `c` gives back `a` when `a` has no `c`. */
  lemma {:induction false} BeforeFirstOfJoin(a: string, c: char, b: string)
    requires c !in a
    ensures BeforeFirst(a + [c] + b, c) == a
  {
    if a != [] {
      assert (a + [c] + b)[1..] == a[1..] + [c] + b;
      BeforeFirstOfJoin(a[1..], c, b);
    }
  }

  // ---------------------------------------------------------------------------
  // `${n}` for an integer n
  // ---------------------------------------------------------------------------

  predicate IsDigit(c: char) {
    '0' <= c <= '9'
  }

  function DigitChar(d: nat): (c: char)
    requires d < 10
    ensures IsDigit(c) && c as int - '0' as int == d
  {
    (d + '0' as int) as char
  }

  /** `s` is a canonical string of decimal digits: non-empty, digits only,
      and no leading zero unless it is `"0"` itself. */
  predicate IsCanonicalDigits(s: string) {
    && |s| >= 1
    && (forall i :: 0 <= i < |s| ==> IsDigit(s[i]))
    && (s[0] == '0' ==> |s| == 1)
  }

  /** The decimal digits of `n` with no leading zero. */
  function NatDecimal(n: nat): (r: string)
    ensures IsCanonicalDigits(r)
    ensures r[0] == '0' <==> n == 0
  {
    if n < 10 then [DigitChar(n)]
    else
      var r := NatDecimal(n / 10) + [DigitChar(n % 10)];
      assert r[0] == NatDecimal(n / 10)[0];
      r
  }

  /** The value of a string of decimal digits. */
  function DigitsValue(s: string): nat
    requires forall i :: 0 <= i < |s| ==> IsDigit(s[i])
  {
    if |s| == 0 then 0
    else
      assert IsDigit(s[|s| - 1]);
      DigitsValue(s[..|s| - 1]) * 10 + (s[|s| - 1] as int - '0' as int)
  }

  /** Reading back the digits of `n` gives `n`. */
  lemma {:induction false} NatDecimalRoundTrip(n: nat)
    ensures DigitsValue(NatDecimal(n)) == n
  {
    if n >= 10 {
      var r := NatDecimal(n);
      NatDecimalRoundTrip(n / 10);
      assert r[..|r| - 1] == NatDecimal(n / 10);
    }
  }

  /** Digits that do not start with `0` have a positive value. */
  lemma {:induction false} LeadingDigitMakesPositive(s: string)
    requires |s| >= 1 && (forall i :: 0 <= i < |s| ==> IsDigit(s[i])) && s[0] != '0'
    ensures DigitsValue(s) >= 1
  {
    if |s| > 1 {
      var p := s[..|s| - 1];
      assert p[0] == s[0];
      LeadingDigitMakesPositive(p);
    }
  }

  /** Canonical digits are the rendering of their own value. */
  lemma {:induction false} CanonicalDigitsRoundTrip(s: string)
    requires IsCanonicalDigits(s)
    ensures NatDecimal(DigitsValue(s)) == s
  {
    if |s| > 1 {
      var p := s[..|s| - 1];
      var d := s[|s| - 1] as int - '0' as int;
      assert p[0] == s[0];
      LeadingDigitMakesPositive(p);
      CanonicalDigitsRoundTrip(p);
      var v := DigitsValue(s);
      assert v == DigitsValue(p) * 10 + d;
      assert v / 10 == DigitsValue(p) && v % 10 == d;
      assert DigitChar(d) == s[|s| - 1];
      assert s == p + [s[|s| - 1]];
    } else {
      assert IsDigit(s[0]) && s[..0] == [];
      assert DigitsValue(s) == s[0] as int - '0' as int;
    }
  }

  /** How a JavaScript template literal renders an integer: an optional minus
      sign followed by the decimal digits of its magnitude. */
  function IntDecimal(n: int): (r: string)
    ensures IsNumeral(r)
    ensures n < 0 <==> r[0] == '-'
  {
    if n < 0 then
      var r := "-" + NatDecimal(-n);
      assert r[1..] == NatDecimal(-n);
      r
    else NatDecimal(n)
  }

  /** `s` has the shape of a rendered integer: canonical digits, possibly
      after a minus sign when the digits are not `"0"`. */
  predicate IsNumeral(s: string) {
    || IsCanonicalDigits(s)
    || (|s| >= 2 && s[0] == '-' && IsCanonicalDigits(s[1..]) && s[1] != '0')
  }

  /** The value of a rendered integer. */
  function DecimalValue(s: string): int
    requires IsNumeral(s)
  {
    if s[0] == '-' then 0 - DigitsValue(s[1..]) as int else DigitsValue(s)
  }

  /** Rendering an integer loses nothing: it can be read back. */
  lemma IntDecimalRoundTrip(n: int)
    ensures DecimalValue(IntDecimal(n)) == n
  {
    if n < 0 {
      NatDecimalRoundTrip(-n);
      assert IntDecimal(n)[1..] == NatDecimal(-n);
    } else {
      NatDecimalRoundTrip(n);
    }
  }

  /** Every numeral is the rendering of its value: rendering integers is a
      bijection onto numerals, so no other spelling of a number (`"05"`,
      `"-0"`) is ever produced. */
  lemma NumeralRoundTrip(s: string)
    requires IsNumeral(s)
    ensures IntDecimal(DecimalValue(s)) == s
  {
    if s[0] == '-' {
      var t := s[1..];
      LeadingDigitMakesPositive(t);
      CanonicalDigitsRoundTrip(t);
      assert s == "-" + t;
    } else {
      CanonicalDigitsRoundTrip(s);
    }
  }
}
