/**
 * The few string primitives of JavaScript the storefront relies on:
 * `toLowerCase`, `includes`, turning an integer into its decimal text
 * (template literals, `String(n)`), and `parseInt` without a radix.
 */
module Text {
  import opened Common

  // ---------------------------------------------------------------------------
  // Lower-casing

  /** Lower-cases one character; only the ASCII letters A-Z have a lower-case form here. */
  function LowerChar(c: char): (r: char)
    ensures 'A' <= c <= 'Z' ==> 'a' <= r <= 'z' && r as int - c as int == 32
    ensures !('A' <= c <= 'Z') ==> r == c
  {
    if 'A' <= c <= 'Z' then (c as int + 32) as char else c
  }

  /** `s.toLowerCase()`, character by character. */
  function ToLower(s: string): (r: string)
    ensures |r| == |s|
    ensures forall i :: 0 <= i < |s| ==> r[i] == LowerChar(s[i])
  {
    if s == [] then [] else [LowerChar(s[0])] + ToLower(s[1..])
  }

  /** Lower-casing twice is lower-casing once. */
  lemma ToLowerIdempotent(s: string)
    ensures ToLower(ToLower(s)) == ToLower(s)
  {
    var once := ToLower(s);
    var twice := ToLower(once);
    forall i | 0 <= i < |s|
      ensures twice[i] == once[i]
    {
      assert once[i] == LowerChar(s[i]);
    }
  }

  // ---------------------------------------------------------------------------
  // Substring search

  predicate StartsWith(s: string, t: string) {
    |t| <= |s| && s[..|t|] == t
  }

  /** `s.includes(t)`: scans the start positions of `s` from left to right. */
  function Includes(s: string, t: string): bool
    decreases |s|
  {
    StartsWith(s, t) || (|s| > 0 && Includes(s[1..], t))
  }

  /** `t` occurs in `s` starting at position `i`. */
  ghost predicate OccursAt(s: string, t: string, i: int) {
    0 <= i && i + |t| <= |s| && s[i..i + |t|] == t
  }

  /** The scan agrees with the positional definition of a substring, in both directions. */
  lemma {:induction false} IncludesIff(s: string, t: string)
    ensures Includes(s, t) <==> exists i :: OccursAt(s, t, i)
    decreases |s|
  {
    if |s| > 0 {
      IncludesIff(s[1..], t);
    }
    if Includes(s, t) {
      if StartsWith(s, t) {
        assert OccursAt(s, t, 0);
      } else {
        var j :| OccursAt(s[1..], t, j);
        assert s[1..][j..j + |t|] == s[j + 1..j + 1 + |t|];
        assert OccursAt(s, t, j + 1);
      }
    }
    if i :| OccursAt(s, t, i) {
      if i > 0 {
        assert s[1..][i - 1..i - 1 + |t|] == s[i..i + |t|];
        assert OccursAt(s[1..], t, i - 1);
      }
    }
  }

  /** Every string includes the empty string. */
  lemma IncludesEmpty(s: string)
    ensures Includes(s, [])
  {
    assert StartsWith(s, []);
  }

  // ---------------------------------------------------------------------------
  // Decimal text of an integer

  predicate IsDigit(c: char) { '0' <= c <= '9' }

  predicate AllDigits(s: string) { forall i :: 0 <= i < |s| ==> IsDigit(s[i]) }

  function DigitChar(d: nat): (c: char)
    requires d < 10
    ensures IsDigit(c) && c as int - '0' as int == d
  {
    (d + '0' as int) as char
  }

  function DigitValue(c: char): (d: nat)
    requires IsDigit(c)
    ensures d < 10
  {
    c as int - '0' as int
  }

  /** The decimal numeral of `n`, most significant digit first, without leading zeros. */
  function NatToString(n: nat): (s: string)
    ensures |s| >= 1 && AllDigits(s)
    ensures |s| > 1 ==> s[0] != '0'
    ensures s[0] == '0' <==> n == 0
  {
    if n < 10 then [DigitChar(n)] else NatToString(n / 10) + [DigitChar(n % 10)]
  }

  /** `String(n)` for an integer: a minus sign, then the numeral of the magnitude. */
  function IntToString(n: int): (s: string)
    ensures |s| >= 1 && (s[0] == '-' || IsDigit(s[0]))
  {
    if n < 0 then "-" + NatToString(-n) else NatToString(n)
  }

  // ---------------------------------------------------------------------------
  // parseInt(s) with no radix argument

  /** The white space `parseInt` skips before the number (the common subset of JavaScript's). */
  predicate IsWhiteSpace(c: char) {
    c == ' ' || c == '\t' || c == '\n' || c == '\r' || c == '\U{000B}' || c == '\U{000C}'
    || c == '\U{00A0}' || c == '\U{FEFF}' || c == '\U{2028}' || c == '\U{2029}'
  }

  function TrimStart(s: string): (r: string)
    ensures |r| <= |s| && r == s[|s| - |r|..]
    ensures r == [] || !IsWhiteSpace(r[0])
    ensures forall i :: 0 <= i < |s| - |r| ==> IsWhiteSpace(s[i])
  {
    if s != [] && IsWhiteSpace(s[0]) then TrimStart(s[1..]) else s
  }

  /** The longest prefix of `s` made of decimal digits. */
  function DigitRun(s: string): (r: string)
    ensures |r| <= |s| && r == s[..|r|] && AllDigits(r)
    ensures |r| == |s| || !IsDigit(s[|r|])
  {
    if s != [] && IsDigit(s[0]) then [s[0]] + DigitRun(s[1..]) else []
  }

  predicate IsHexDigit(c: char) {
    IsDigit(c) || 'a' <= c <= 'f' || 'A' <= c <= 'F'
  }

  function HexDigitValue(c: char): (d: nat)
    requires IsHexDigit(c)
    ensures d < 16
  {
    if IsDigit(c) then DigitValue(c)
    else if 'a' <= c <= 'f' then c as int - 'a' as int + 10
    else c as int - 'A' as int + 10
  }

  /** The longest prefix of `s` made of hexadecimal digits. */
  function HexRun(s: string): (r: string)
    ensures |r| <= |s| && r == s[..|r|]
    ensures forall i :: 0 <= i < |r| ==> IsHexDigit(r[i])
    ensures |r| == |s| || !IsHexDigit(s[|r|])
  {
    if s != [] && IsHexDigit(s[0]) then [s[0]] + HexRun(s[1..]) else []
  }

  /** The value of a decimal numeral, read left to right. */
  function DecimalValue(ds: string): nat
    requires AllDigits(ds)
  {
    if ds == [] then 0 else DecimalValue(ds[..|ds| - 1]) * 10 + DigitValue(ds[|ds| - 1])
  }

  function HexadecimalValue(ds: string): nat
    requires forall i :: 0 <= i < |ds| ==> IsHexDigit(ds[i])
  {
    if ds == [] then 0 else HexadecimalValue(ds[..|ds| - 1]) * 16 + HexDigitValue(ds[|ds| - 1])
  }

  /**
   * The digits after the sign: a `0x`/`0X` prefix and hexadecimal digits, or
   * else decimal digits, as many as there are; characters after them are
   * ignored. With no digit there is no number.
   */
  function ParseMagnitude(u: string): (r: Option<nat>)
    ensures r.Some? ==> u != [] && IsDigit(u[0])
    ensures u != [] && IsDigit(u[0]) && !(|u| >= 2 && u[0] == '0' && (u[1] == 'x' || u[1] == 'X')) ==> r.Some?
  {
    if |u| >= 2 && u[0] == '0' && (u[1] == 'x' || u[1] == 'X') then
      var h := HexRun(u[2..]);
      if h == [] then None else Some(HexadecimalValue(h))
    else
      var d := DigitRun(u);
      if d == [] then None else Some(DecimalValue(d))
  }

  /**
   * The number at the start of `t`, the text after the white space: an
   * optional sign, then the magnitude. With no digit the result is `NaN`,
   * modelled as `None`.
   */
  function ParseSigned(t: string): (r: Option<int>)
    ensures r.Some? ==> exists i :: 0 <= i < |t| && IsDigit(t[i])
  {
    var negative := |t| > 0 && t[0] == '-';
    var u := if |t| > 0 && (t[0] == '-' || t[0] == '+') then t[1..] else t;
    match ParseMagnitude(u)
    case None => None
    case Some(m) =>
      assert u[0] == t[|t| - |u|];
      var n: int := if negative then -(m as int) else m;
      Some(n)
  }

  /**
   * `parseInt(s)`: skip leading white space, then read the signed number
   * there. It yields a number only when the text holds a digit.
   */
  function ParseInt(s: string): (r: Option<int>)
    ensures r.Some? ==> exists i :: 0 <= i < |s| && IsDigit(s[i])
  {
    var t := TrimStart(s);
    var r := ParseSigned(t);
    assert r.Some? ==> exists i :: 0 <= i < |s| && IsDigit(s[i]) by {
      if r.Some? {
        var i :| 0 <= i < |t| && IsDigit(t[i]);
        assert t[i] == s[|s| - |t| + i];
      }
    }
    r
  }

  /** Reading back the numeral of `n` gives `n`. */
  lemma {:induction false} DecimalValueOfNatToString(n: nat)
    ensures DecimalValue(NatToString(n)) == n
  {
    var s := NatToString(n);
    if n >= 10 {
      var prefix := NatToString(n / 10);
      assert s[..|s| - 1] == prefix;
      DecimalValueOfNatToString(n / 10);
    }
  }

  lemma ParseMagnitudeOfNatToString(n: nat)
    ensures ParseMagnitude(NatToString(n)) == Some(n)
  {
    var digits := NatToString(n);
    DecimalValueOfNatToString(n);
    assert DigitRun(digits) == digits;
    if |digits| >= 2 {
      assert IsDigit(digits[1]);
    }
  }

  /** White space in front of a text that does not start with white space is skipped entirely. */
  lemma {:induction false} TrimStartSkipsWhiteSpace(w: string, x: string)
    requires forall i :: 0 <= i < |w| ==> IsWhiteSpace(w[i])
    requires x == [] || !IsWhiteSpace(x[0])
    ensures TrimStart(w + x) == x
  {
    if w != [] {
      assert (w + x)[1..] == w[1..] + x;
      TrimStartSkipsWhiteSpace(w[1..], x);
    } else {
      assert w + x == x;
    }
  }

  /** The digit run of a numeral followed by a non-digit is the numeral. */
  lemma {:induction false} DigitRunStopsAfterNumeral(d: string, t: string)
    requires AllDigits(d)
    requires t == [] || !IsDigit(t[0])
    ensures DigitRun(d + t) == d
  {
    if d != [] {
      assert (d + t)[1..] == d[1..] + t;
      DigitRunStopsAfterNumeral(d[1..], t);
    } else {
      assert d + t == t;
    }
  }

  /**
   * A numeral followed by text that does not start with a digit (nor with
   * `x`/`X` after a lone `0`) reads as the numeral's value: the rest is ignored.
   */
  lemma ParseMagnitudeOfNumeralAndRest(m: nat, t: string)
    requires t == [] || !IsDigit(t[0])
    requires m == 0 ==> t == [] || (t[0] != 'x' && t[0] != 'X')
    ensures ParseMagnitude(NatToString(m) + t) == Some(m)
  {
    var d := NatToString(m);
    var u := d + t;
    DigitRunStopsAfterNumeral(d, t);
    DecimalValueOfNatToString(m);
    if |d| >= 2 {
      assert u[1] == d[1] && IsDigit(d[1]);
    } else if |u| >= 2 {
      assert u[1] == t[0];
    }
  }

  /** With no sign, the signed reader gives the magnitude. */
  lemma ParseSignedUnsigned(t: string, m: nat)
    requires t != [] && IsDigit(t[0])
    requires ParseMagnitude(t) == Some(m)
    ensures ParseSigned(t) == Some(m)
  {
  }

  /** With a minus sign, the signed reader negates the magnitude after it. */
  lemma ParseSignedNegative(t: string, m: nat)
    requires t != [] && t[0] == '-'
    requires ParseMagnitude(t[1..]) == Some(m)
    ensures ParseSigned(t) == Some(-(m as int))
  {
  }

  /** `parseInt` skips the white space in front of the number and reads from there. */
  lemma ParseIntAfterWhiteSpace(w: string, x: string)
    requires forall i :: 0 <= i < |w| ==> IsWhiteSpace(w[i])
    requires x == [] || !IsWhiteSpace(x[0])
    ensures ParseInt(w + x) == ParseSigned(x)
  {
    TrimStartSkipsWhiteSpace(w, x);
  }

  /** A number's text followed by text that does not extend the numeral reads as that number. */
  lemma ParseSignedOfNumeralAndRest(n: int, t: string)
    requires t == [] || !IsDigit(t[0])
    requires n == 0 ==> t == [] || (t[0] != 'x' && t[0] != 'X')
    ensures ParseSigned(IntToString(n) + t) == Some(n)
  {
    var x := IntToString(n) + t;
    if n < 0 {
      var m: nat := -n;
      assert x[0] == '-' && x[1..] == NatToString(m) + t;
      ParseMagnitudeOfNumeralAndRest(m, t);
      ParseSignedNegative(x, m);
    } else {
      assert x == NatToString(n) + t;
      assert x[0] == NatToString(n)[0];
      ParseMagnitudeOfNumeralAndRest(n, t);
      ParseSignedUnsigned(x, n);
    }
  }

  /**
   * `parseInt` of a number's text with leading white space and trailing
   * characters (that do not extend the numeral) is that number: `" 7"`,
   * `"7 units"` and `"7.5"` all read as 7.
   */
  lemma ParseIntOfPaddedNumeral(w: string, n: int, t: string)
    requires forall i :: 0 <= i < |w| ==> IsWhiteSpace(w[i])
    requires t == [] || !IsDigit(t[0])
    requires n == 0 ==> t == [] || (t[0] != 'x' && t[0] != 'X')
    ensures ParseInt(w + IntToString(n) + t) == Some(n)
  {
    var x := IntToString(n) + t;
    assert w + IntToString(n) + t == w + x;
    assert x[0] == IntToString(n)[0];
    ParseIntAfterWhiteSpace(w, x);
    ParseSignedOfNumeralAndRest(n, t);
  }

  /** Zeros in front of a numeral are read as decimal digits of no weight. */
  lemma ParseMagnitudeOfZerosAndNumeral(k: nat, n: nat)
    ensures ParseMagnitude(seq(k, _ => '0') + NatToString(n)) == Some(n)
  {
    var u := seq(k, _ => '0') + NatToString(n);
    var d := NatToString(n);
    DecimalValueOfZerosAndNumeral(k, n);
    DigitRunStopsAfterNumeral(u, []);
    assert u + [] == u;
    if |u| >= 2 {
      assert IsDigit(u[1]);
    }
  }

  /** `parseInt` ignores leading zeros: `"007"` reads as 7. */
  lemma ParseIntIgnoresLeadingZeros(k: nat, n: nat)
    ensures ParseInt(seq(k, _ => '0') + NatToString(n)) == Some(n)
  {
    var u := seq(k, _ => '0') + NatToString(n);
    DecimalValueOfZerosAndNumeral(k, n);
    assert IsDigit(u[0]) && [] + u == u;
    ParseIntAfterWhiteSpace([], u);
    ParseMagnitudeOfZerosAndNumeral(k, n);
    ParseSignedUnsigned(u, n);
  }

  lemma {:induction false} DecimalValueOfZerosAndNumeral(k: nat, n: nat)
    ensures AllDigits(seq(k, _ => '0') + NatToString(n))
    ensures DecimalValue(seq(k, _ => '0') + NatToString(n)) == n
  {
    if k == 0 {
      assert seq(k, _ => '0') + NatToString(n) == NatToString(n);
      DecimalValueOfNatToString(n);
    } else {
      DecimalValueOfZerosAndNumeral(k - 1, n);
      var s := seq(k, _ => '0') + NatToString(n);
      assert s == ['0'] + (seq(k - 1, _ => '0') + NatToString(n));
      DecimalValueLeadingZero(seq(k - 1, _ => '0') + NatToString(n));
    }
  }

  /** A leading zero does not change the value of a numeral. */
  lemma {:induction false} DecimalValueLeadingZero(ds: string)
    requires AllDigits(ds)
    ensures AllDigits(['0'] + ds) && DecimalValue(['0'] + ds) == DecimalValue(ds)
    decreases |ds|
  {
    if ds != [] {
      var s := ['0'] + ds;
      assert s[..|s| - 1] == ['0'] + ds[..|ds| - 1];
      DecimalValueLeadingZero(ds[..|ds| - 1]);
    }
  }

  /** `parseInt(String(n)) == n` for every integer `n`. */
  lemma ParseIntOfIntToString(n: int)
    ensures ParseInt(IntToString(n)) == Some(n)
  {
    var s := IntToString(n);
    assert [] + s == s && s + [] == s;
    ParseIntAfterWhiteSpace([], s);
    ParseSignedOfNumeralAndRest(n, []);
  }
}
