/** Decimal text as JavaScript produces and reads it: `String(n)`, `padStart` and
    `parseInt(s, 10)`. */
module Text {
  import opened Common

  predicate IsDigit(c: char) {
    '0' <= c <= '9'
  }

  predicate AllDigits(s: string) {
    forall i :: 0 <= i < |s| ==> IsDigit(s[i])
  }

  function DigitChar(d: nat): (c: char)
    requires d < 10
    ensures IsDigit(c) && (c as int) - ('0' as int) == d
  {
    ((d + '0' as int) as char)
  }

  function DigitValue(c: char): nat
    requires IsDigit(c)
  {
    (c as int) - ('0' as int)
  }

  /** `String(n)` for a non-negative integer: no leading zeros, at least one digit. */
  function NatToString(n: nat): (s: string)
    ensures 1 <= |s| && AllDigits(s)
    ensures n < 10 <==> |s| == 1
    ensures |s| > 1 ==> s[0] != '0'
  {
    if n < 10 then [DigitChar(n)] else NatToString(n / 10) + [DigitChar(n % 10)]
  }

  /** `String(i)` for any integer: a minus sign exactly when `i` is negative, and
      digits everywhere else. */
  function IntToString(i: int): (r: string)
    ensures r != [] && (r[0] == '-' <==> i < 0)
    ensures forall k :: (if i < 0 then 1 else 0) <= k < |r| ==> IsDigit(r[k])
  {
    if i < 0 then "-" + NatToString(-i) else NatToString(i)
  }

  /** The number a string of decimal digits denotes. */
  function DigitsValue(s: string): nat
    requires AllDigits(s)
  {
    if s == [] then 0 else DigitsValue(s[..|s| - 1]) * 10 + DigitValue(s[|s| - 1])
  }

  lemma {:induction false} DigitsValueOfNatToString(n: nat)
    ensures DigitsValue(NatToString(n)) == n
  {
    if n >= 10 {
      var s := NatToString(n);
      assert s[..|s| - 1] == NatToString(n / 10);
      DigitsValueOfNatToString(n / 10);
    }
  }

  /** Decimal rendering is injective. */
  lemma NatToStringInjective(a: nat, b: nat)
    requires NatToString(a) == NatToString(b)
    ensures a == b
  {
    DigitsValueOfNatToString(a);
    DigitsValueOfNatToString(b);
  }

  function Repeat(c: char, k: nat): (r: string)
    ensures |r| == k && forall i :: 0 <= i < k ==> r[i] == c
  {
    if k == 0 then [] else [c] + Repeat(c, k - 1)
  }

  /** `s.padStart(width, fill)` with a one-character fill. */
  function PadStart(s: string, width: nat, fill: char): (r: string)
    ensures |r| == if |s| >= width then |s| else width
    ensures r[|r| - |s|..] == s
    ensures forall i :: 0 <= i < |r| - |s| ==> r[i] == fill
  {
    if |s| >= width then s else Repeat(fill, width - |s|) + s
  }

  lemma {:induction false} LeadingZerosIgnored(k: nat, s: string)
    requires AllDigits(s)
    ensures AllDigits(Repeat('0', k) + s)
    ensures DigitsValue(Repeat('0', k) + s) == DigitsValue(s)
    decreases |s|, k
  {
    var z := Repeat('0', k);
    if s == [] {
      assert z + s == z;
      if k > 0 {
        assert z[..|z| - 1] == Repeat('0', k - 1) + [];
        LeadingZerosIgnored(k - 1, []);
      }
    } else {
      var t := z + s;
      assert t[..|t| - 1] == z + s[..|s| - 1];
      LeadingZerosIgnored(k, s[..|s| - 1]);
    }
  }

  /** Zero padding changes neither the digits nor their value. */
  lemma PaddedDigits(s: string, width: nat)
    requires AllDigits(s)
    ensures AllDigits(PadStart(s, width, '0'))
    ensures DigitsValue(PadStart(s, width, '0')) == DigitsValue(s)
  {
    if |s| < width {
      LeadingZerosIgnored(width - |s|, s);
    }
  }

  /** A zero-padded decimal reads back as the number it renders. */
  lemma PaddedDecimalRoundTrip(n: nat, width: nat)
    ensures AllDigits(PadStart(NatToString(n), width, '0'))
    ensures DigitsValue(PadStart(NatToString(n), width, '0')) == n
    ensures |PadStart(NatToString(n), width, '0')| >= width
  {
    DigitsValueOfNatToString(n);
    PaddedDigits(NatToString(n), width);
  }

  /** The characters `parseInt` and `Number` skip around the number: ECMAScript's
      WhiteSpace (tab, vertical tab, form feed, the byte-order mark and every Unicode
      space separator) and its LineTerminators. */
  predicate IsSpace(c: char) {
    || c == '\t' || c == '\U{000B}' || c == '\U{000C}' || c == '\U{FEFF}'
    || c == '\n' || c == '\r' || c == '\U{2028}' || c == '\U{2029}'
    || c == ' ' || c == '\U{00A0}' || c == '\U{1680}' || ('\U{2000}' <= c <= '\U{200A}')
    || c == '\U{202F}' || c == '\U{205F}' || c == '\U{3000}'
  }

  function TrimStart(s: string): (r: string)
    ensures |r| <= |s| && r == s[|s| - |r|..]
    ensures r != [] ==> !IsSpace(r[0])
    ensures forall i :: 0 <= i < |s| - |r| ==> IsSpace(s[i])
  {
    if s != [] && IsSpace(s[0]) then TrimStart(s[1..]) else s
  }

  /** The length of the run of digits that starts `s`. */
  function DigitRun(s: string): (k: nat)
    ensures k <= |s| && AllDigits(s[..k])
    ensures k < |s| ==> !IsDigit(s[k])
  {
    if s == [] || !IsDigit(s[0]) then 0
    else
      var k := 1 + DigitRun(s[1..]);
      assert s[..k] == [s[0]] + s[1..][..k - 1];
      k
  }

  /** `parseInt(s, 10)`: leading white space, an optional sign, then the longest run of
      digits; `NaN` (here `None`) when there is no digit. */
  function ParseInt(s: string): (r: Option<int>)
    ensures var t := TrimStart(s);
      var body := if t != [] && (t[0] == '-' || t[0] == '+') then t[1..] else t;
      r.Some? <==> body != [] && IsDigit(body[0])
    ensures r.Some? && r.value < 0 ==> TrimStart(s)[0] == '-'
  {
    var t := TrimStart(s);
    if t != [] && t[0] == '-' then Negate(ParseDigits(t[1..]))
    else if t != [] && t[0] == '+' then ParseDigits(t[1..])
    else ParseDigits(t)
  }

  /** The value of the digit run that starts `s`, if there is one. */
  function ParseDigits(s: string): Option<int> {
    var k := DigitRun(s);
    if k == 0 then None else Some(DigitsValue(s[..k]))
  }

  function Negate(o: Option<int>): Option<int> {
    if o.Some? then Some(-o.value) else None
  }

  lemma {:induction false} ParseDigitsOfDigits(digits: string, rest: string)
    requires digits != [] && AllDigits(digits)
    requires rest == [] || !IsDigit(rest[0])
    ensures ParseDigits(digits + rest) == Some(DigitsValue(digits))
  {
    DigitRunSplit(digits, rest);
    assert (digits + rest)[..|digits|] == digits;
  }

  lemma {:induction false} TrimStartNoSpace(s: string)
    requires s != [] && !IsSpace(s[0])
    ensures TrimStart(s) == s
  {
  }

  /** What `parseInt` reads back from `String(i)` is `i`. */
  lemma {:induction false} ParseIntOfIntToString(i: int)
    ensures ParseInt(IntToString(i)) == Some(i)
  {
    var m: nat := if i < 0 then -i else i;
    var digits := NatToString(m);
    DigitsValueOfNatToString(m);
    ParseDigitsOfDigits(digits, []);
    assert digits + [] == digits;
    if i < 0 {
      var s := "-" + digits;
      TrimStartNoSpace(s);
      assert s[1..] == digits;
    } else {
      TrimStartNoSpace(digits);
    }
  }

  /** `parseInt` stops at the first character that is not a digit. */
  lemma {:induction false} ParseIntStopsAtNonDigit(digits: string, rest: string)
    requires digits != [] && AllDigits(digits)
    requires rest == [] || !IsDigit(rest[0])
    ensures ParseInt(digits + rest) == Some(DigitsValue(digits))
  {
    var s := digits + rest;
    assert s[0] == digits[0];
    TrimStartNoSpace(s);
    ParseDigitsOfDigits(digits, rest);
  }

  lemma {:induction false} DigitRunOfDigits(s: string)
    requires AllDigits(s)
    ensures DigitRun(s) == |s|
  {
    if s != [] {
      DigitRunOfDigits(s[1..]);
    }
  }

  lemma {:induction false} DigitRunSplit(digits: string, rest: string)
    requires AllDigits(digits)
    requires rest == [] || !IsDigit(rest[0])
    ensures DigitRun(digits + rest) == |digits|
  {
    if digits == [] {
      assert digits + rest == rest;
    } else {
      assert (digits + rest)[1..] == digits[1..] + rest;
      DigitRunSplit(digits[1..], rest);
    }
  }

  function TrimEnd(s: string): (r: string)
    ensures |r| <= |s| && r == s[..|r|]
    ensures r != [] ==> !IsSpace(r[|r| - 1])
    ensures forall i :: |r| <= i < |s| ==> IsSpace(s[i])
  {
    if s != [] && IsSpace(s[|s| - 1]) then TrimEnd(s[..|s| - 1]) else s
  }

  lemma {:induction false} TrimEndNoSpace(s: string)
    requires s != [] && !IsSpace(s[|s| - 1])
    ensures TrimEnd(s) == s
  {
  }

  /** `Number(s)` for a string, on the integer numerals: surrounding white space is
      ignored, a blank string is 0, an optional sign followed only by digits is that
      integer, and everything else is `NaN` (here `None`). */
  function StringToNumber(s: string): (r: Option<int>)
    ensures TrimEnd(TrimStart(s)) == [] ==> r == Some(0)
    ensures s != [] && AllDigits(s) ==> r == Some(DigitsValue(s))
  {
    DigitsNeedNoTrim(s);
    NumeralValue(TrimEnd(TrimStart(s)))
  }

  lemma DigitsNeedNoTrim(s: string)
    ensures s != [] && AllDigits(s) ==> TrimEnd(TrimStart(s)) == s
  {
    if s != [] && AllDigits(s) {
      NotSpace(s[0]);
      NotSpace(s[|s| - 1]);
      TrimStartNoSpace(s);
      TrimEndNoSpace(s);
    }
  }

  function NumeralValue(t: string): Option<int> {
    if t == [] then Some(0)
    else
      var body := if t[0] == '-' || t[0] == '+' then t[1..] else t;
      if body != [] && AllDigits(body) then
        var v: int := DigitsValue(body);
        Some(if t[0] == '-' then -v else v)
      else None
  }

  /** `Number(String(i)) == i` */
  lemma StringToNumberOfIntToString(i: int)
    ensures StringToNumber(IntToString(i)) == Some(i)
  {
    var m: nat := if i < 0 then -i else i;
    var digits := NatToString(m);
    DigitsValueOfNatToString(m);
    var s := IntToString(i);
    if i < 0 {
      assert s == "-" + digits;
      assert s[0] == '-';
    } else {
      assert s == digits;
      NotSpace(s[0]);
    }
    assert s[|s| - 1] == digits[|digits| - 1];
    NotSpace(s[|s| - 1]);
    TrimStartNoSpace(s);
    TrimEndNoSpace(s);
    NumeralOfSigned(i < 0, digits);
  }

  lemma NotSpace(c: char)
    requires IsDigit(c)
    ensures !IsSpace(c)
  {
  }

  lemma NumeralOfSigned(neg: bool, digits: string)
    requires digits != [] && AllDigits(digits)
    ensures var v: int := DigitsValue(digits);
      NumeralValue(if neg then "-" + digits else digits) == Some(if neg then -v else v)
  {
    if neg {
      assert ("-" + digits)[1..] == digits;
    } else {
      assert IsDigit(digits[0]);
    }
  }

  /** The literals the query validators default to read as the numbers they spell. */
  lemma DefaultLiterals()
    ensures ParseInt("1") == Some(1) && ParseInt("10") == Some(10)
    ensures StringToNumber("1") == Some(1) && StringToNumber("10") == Some(10)
  {
    assert IntToString(1) == "1";
    assert IntToString(10) == "10";
    assert ParseInt("1") == Some(1) by {
      ParseIntOfIntToString(1);
    }
    assert ParseInt("10") == Some(10) by {
      ParseIntOfIntToString(10);
    }
    assert StringToNumber("1") == Some(1) by {
      StringToNumberOfIntToString(1);
    }
    assert StringToNumber("10") == Some(10) by {
      StringToNumberOfIntToString(10);
    }
  }

  /** A blank string converts to 0, and text with a letter in it to `NaN`. */
  lemma StringToNumberExamples()
    ensures StringToNumber("") == Some(0)
    ensures StringToNumber(" 12 ") == Some(12)
    ensures StringToNumber("12a") == None
    ensures StringToNumber("\U{3000}5") == Some(5)
  {
    var padded := " 12 ";
    assert padded[1..] == "12 ";
    TrimStartNoSpace("12 ");
    assert TrimStart(padded) == "12 ";
    assert "12 "[..2] == "12";
    TrimEndNoSpace("12");
    assert TrimEnd("12 ") == "12";
    assert DigitsValue("12") == 12 by {
      assert "12"[..1] == "1";
      assert "1"[..0] == "";
    }
    TrimStartNoSpace("12a");
    TrimEndNoSpace("12a");
    assert !IsDigit("12a"[2]);
    var wide := "\U{3000}5";
    assert wide[1..] == "5";
    TrimStartNoSpace("5");
    TrimEndNoSpace("5");
    assert DigitsValue("5") == 5 by {
      assert "5"[..0] == "";
    }
  }

  predicate IsPrefix(p: string, s: string) {
    |p| <= |s| && s[..|p|] == p
  }

  /** The query language's `contains`: `sub` occurs somewhere in `s`, compared code
      unit by code unit. */
  predicate Contains(s: string, sub: string)
    decreases |s|
  {
    IsPrefix(sub, s) || (s != [] && Contains(s[1..], sub))
  }
}
