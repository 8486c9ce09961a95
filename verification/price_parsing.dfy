/**
  Reading a fee string such as "₹2,999" as an integer: the page deletes the
  first rupee sign and the first comma with `String.prototype.replace` and
  hands the rest to the global `parseInt` with no radix.
 */
module PriceParsing {
  import opened Wrappers

  /** The rupee sign U+20B9. */
  const Rupee: char := '\U{20B9}'

  /**
    The white space and line terminators `parseInt` skips first
    (sections 12.2 and 12.3 of ECMAScript 2021: tab, vertical tab, form feed, the
    byte order mark, the space separators and the four line terminators).
   */
  predicate IsWhiteSpace(c: char)
  {
    || c == '\t' || c == '\U{000B}' || c == '\U{000C}' || c == '\U{FEFF}'
    || c == ' ' || c == '\U{00A0}' || c == '\U{1680}'
    || ('\U{2000}' <= c <= '\U{200A}') || c == '\U{202F}' || c == '\U{205F}' || c == '\U{3000}'
    || c == '\n' || c == '\r' || c == '\U{2028}' || c == '\U{2029}'
  }

  predicate IsDigit(c: char, radix: int)
  {
    || ('0' <= c <= '9')
    || (radix == 16 && (('a' <= c <= 'f') || ('A' <= c <= 'F')))
  }

  function DigitValue(c: char): (v: nat)
    requires IsDigit(c, 16)
    ensures v < 16
    ensures '0' <= c <= '9' ==> v < 10
  {
    if '0' <= c <= '9' then c as int - '0' as int
    else if 'a' <= c <= 'f' then c as int - 'a' as int + 10
    else c as int - 'A' as int + 10
  }

  ghost predicate AllDigits(s: string, radix: int)
  {
    forall i :: 0 <= i < |s| ==> IsDigit(s[i], radix)
  }

  /** The number a string of digits denotes, most significant digit first. */
  function ValueOf(ds: string, radix: int): nat
    requires radix == 10 || radix == 16
    requires AllDigits(ds, radix)
    decreases |ds|
  {
    if |ds| == 0 then 0
    else ValueOf(ds[..|ds| - 1], radix) * radix + DigitValue(ds[|ds| - 1])
  }

  /** `s.indexOf(c)`: the first position of `c`, or -1. */
  function IndexOf(s: string, c: char): (i: int)
    ensures -1 <= i < |s|
    ensures i == -1 <==> c !in s
    ensures 0 <= i ==> s[i] == c && c !in s[..i]
    decreases |s|
  {
    if |s| == 0 then -1
    else if s[0] == c then 0
    else
      var j := IndexOf(s[1..], c);
      if j == -1 then -1
      else
        assert s[..j + 1] == [s[0]] + s[1..][..j];
        j + 1
  }

  /** `s.replace(c, '')`: deletes the first occurrence of `c` only. */
  function RemoveFirst(s: string, c: char): (r: string)
    ensures c !in s ==> r == s
    ensures c in s ==> |r| == |s| - 1
  {
    var i := IndexOf(s, c);
    if i < 0 then s else s[..i] + s[i + 1..]
  }

  /** The leading white space `parseInt` skips. */
  function TrimStart(s: string): (r: string)
    ensures |r| <= |s| && r == s[|s| - |r|..]
    ensures forall i :: 0 <= i < |s| - |r| ==> IsWhiteSpace(s[i])
    ensures |r| == 0 || !IsWhiteSpace(r[0])
    decreases |s|
  {
    if |s| > 0 && IsWhiteSpace(s[0]) then
      var r := TrimStart(s[1..]);
      assert forall i :: 1 <= i < |s| - |r| ==> s[i] == s[1..][i - 1];
      r
    else s
  }

  /** The longest prefix of `s` made of digits of the radix. */
  function DigitPrefix(s: string, radix: int): (r: string)
    ensures r <= s
    ensures AllDigits(r, radix)
    ensures |r| < |s| ==> !IsDigit(s[|r|], radix)
    decreases |s|
  {
    if |s| == 0 || !IsDigit(s[0], radix) then []
    else [s[0]] + DigitPrefix(s[1..], radix)
  }

  /**
    `parseInt(s)` with no radix, per section 19.2.5 of ECMAScript 2021: skip
    white space, take one sign, switch to base 16 after "0x" or "0X", then read
    the longest run of digits; no digits at all gives NaN, modelled as `None`.
   */
  function ParseInt(s: string): (r: Option<int>)
    ensures TrimStart(s) == [] ==> r == None
    ensures var t := TrimStart(s);
      |t| > 0 && !IsDigit(t[0], 10) && t[0] != '-' && t[0] != '+' ==> r == None
    ensures var t := TrimStart(s);
      |t| > 0 && t[0] == '-' && r.Some? ==> r.value <= 0
    ensures var t := TrimStart(s);
      |t| > 0 && t[0] != '-' && r.Some? ==> r.value >= 0
  {
    ParseSigned(TrimStart(s))
  }

  /** `parseInt` after the white space: one optional sign, then the magnitude. */
  function ParseSigned(t: string): (r: Option<int>)
    ensures |t| == 0 ==> r == None
    ensures |t| > 0 && !IsDigit(t[0], 10) && t[0] != '-' && t[0] != '+' ==> r == None
    ensures |t| > 0 && t[0] == '-' && r.Some? ==> r.value <= 0
    ensures (|t| == 0 || t[0] != '-') && r.Some? ==> r.value >= 0
  {
    if |t| == 0 then None
    else if t[0] == '-' then Negate(ReadMagnitude(t[1..]))
    else if t[0] == '+' then Widen(ReadMagnitude(t[1..]))
    else Widen(ReadMagnitude(t))
  }

  function Widen(m: Option<nat>): Option<int>
  {
    match m
    case None => None
    case Some(v) => Some(v)
  }

  function Negate(m: Option<nat>): Option<int>
  {
    match m
    case None => None
    case Some(v) => Some(-(v as int))
  }

  /** The unsigned part of `parseInt`: an optional "0x"/"0X" prefix, then the longest digit run. */
  function ReadMagnitude(u: string): (m: Option<nat>)
    ensures |u| == 0 || !IsDigit(u[0], 10) ==> m == None
  {
    var hex := |u| >= 2 && u[0] == '0' && (u[1] == 'x' || u[1] == 'X');
    var radix := if hex then 16 else 10;
    var z := DigitPrefix(if hex then u[2..] else u, radix);
    if |z| == 0 then None else Some(ValueOf(z, radix))
  }

  /** `parseInt(fee.replace('₹', '').replace(',', ''))` */
  function ParseFee(fee: string): (r: Option<int>)
    ensures Rupee !in fee && ',' !in fee ==> r == ParseInt(fee)
    ensures fee == [] ==> r == None
  {
    ParseInt(RemoveFirst(RemoveFirst(fee, Rupee), ','))
  }

  // ---------------------------------------------------------------------------
  // Reference rendering and the properties that tie the parser to it

  function DigitChar(d: nat): (c: char)
    requires d < 10
    ensures IsDigit(c, 10) && DigitValue(c) == d
  {
    ('0' as int + d) as char
  }

  /** The decimal numeral of `n`, without leading zeros. */
  function Decimal(n: nat): (s: string)
    ensures |s| > 0 && AllDigits(s, 10)
    ensures s[0] == '0' ==> n == 0 && |s| == 1
    decreases n
  {
    if n < 10 then [DigitChar(n)] else Decimal(n / 10) + [DigitChar(n % 10)]
  }

  lemma {:induction false} ValueOfDecimal(n: nat)
    ensures ValueOf(Decimal(n), 10) == n
    decreases n
  {
    if n >= 10 {
      var s := Decimal(n);
      assert s[..|s| - 1] == Decimal(n / 10);
      ValueOfDecimal(n / 10);
    }
  }

  /** Deleting the first `c` from `a + [c] + b`, where `a` holds no `c`, gives `a + b`. */
  lemma RemoveFirstSplits(a: string, c: char, b: string)
    requires c !in a
    ensures RemoveFirst(a + [c] + b, c) == a + b
  {
    var s := a + [c] + b;
    var i := IndexOf(s, c);
    assert s[|a|] == c;
    assert s[..i] == a && s[i + 1..] == b;
  }

  /** A digit is neither white space nor a sign. */
  lemma DigitIsNotSign(c: char)
    requires IsDigit(c, 10)
    ensures !IsWhiteSpace(c) && c != '-' && c != '+'
  {
  }

  /** A run of digits followed by a character that cannot continue it is the prefix read. */
  lemma {:induction false} DigitPrefixStops(ds: string, rest: string, radix: int)
    requires AllDigits(ds, radix)
    requires rest == [] || !IsDigit(rest[0], radix)
    ensures DigitPrefix(ds + rest, radix) == ds
    decreases |ds|
  {
    if |ds| == 0 {
      assert ds + rest == rest;
    } else {
      var s := ds + rest;
      assert s[0] == ds[0] && s[1..] == ds[1..] + rest;
      DigitPrefixStops(ds[1..], rest, radix);
    }
  }

  /**
    A decimal numeral followed by anything that is not a digit (and, after a
    lone "0", not an "x") parses to the numeral's value.
   */
  lemma ParseDigitsThenStop(ds: string, rest: string)
    requires |ds| > 0 && AllDigits(ds, 10)
    requires rest == [] || !IsDigit(rest[0], 10)
    requires rest == [] || (rest[0] != 'x' && rest[0] != 'X')
    ensures ParseInt(ds + rest) == Some(ValueOf(ds, 10))
  {
    var s := ds + rest;
    assert s[0] == ds[0];
    DigitIsNotSign(s[0]);
    assert TrimStart(s) == s;
    assert ParseInt(s) == Widen(ReadMagnitude(s));
    assert !(|s| >= 2 && s[0] == '0' && (s[1] == 'x' || s[1] == 'X')) by {
      if |s| >= 2 {
        assert s[1] == if |ds| >= 2 then ds[1] else rest[0];
      }
    }
    DigitPrefixStops(ds, rest, 10);
    assert ReadMagnitude(s) == Some(ValueOf(ds, 10));
  }

  /** Round trip: `parseInt` reads back every decimal numeral. */
  lemma ParseDecimal(n: nat)
    ensures ParseInt(Decimal(n)) == Some(n)
  {
    ParseDigitsThenStop(Decimal(n), []);
    assert Decimal(n) + [] == Decimal(n);
    ValueOfDecimal(n);
  }

  lemma AllDigitsConcat(a: string, b: string, radix: int)
    requires AllDigits(a, radix) && AllDigits(b, radix)
    ensures AllDigits(a + b, radix)
  {
  }

  lemma ConcatAssoc(a: string, b: string, c: string)
    ensures a + (b + c) == (a + b) + c
  {
  }

  /** Digits contain neither a comma nor a rupee sign. */
  lemma DigitsHaveNoSeparators(a: string)
    requires AllDigits(a, 10)
    ensures ',' !in a && Rupee !in a
  {
  }

  /** Deleting the leading rupee sign and then the first comma of `[Rupee] + a + [','] + t`. */
  lemma StripFee(a: string, t: string)
    requires AllDigits(a, 10)
    ensures RemoveFirst(RemoveFirst([Rupee] + a + [','] + t, Rupee), ',') == a + t
  {
    var s1 := a + [','] + t;
    assert [Rupee] + a + [','] + t == [] + [Rupee] + s1;
    RemoveFirstSplits([], Rupee, s1);
    assert [] + s1 == s1;
    DigitsHaveNoSeparators(a);
    RemoveFirstSplits(a, ',', t);
  }

  /**
    A fee "₹" + a + "," + b + rest, where a and b are digits and rest cannot
    continue a number, is read as the digits a + b.
   */
  lemma ParseFeeDigits(a: string, b: string, rest: string)
    requires |a| > 0 && AllDigits(a, 10) && AllDigits(b, 10)
    requires rest == [] || (!IsDigit(rest[0], 10) && rest[0] != 'x' && rest[0] != 'X')
    ensures AllDigits(a + b, 10)
    ensures ParseFee([Rupee] + a + [','] + (b + rest)) == Some(ValueOf(a + b, 10))
  {
    AllDigitsConcat(a, b, 10);
    var t := b + rest;
    var fee := [Rupee] + a + [','] + t;
    StripFee(a, t);
    var stripped := RemoveFirst(RemoveFirst(fee, Rupee), ',');
    assert stripped == a + t;
    ConcatAssoc(a, b, rest);
    ParseDigitsThenStop(a + b, rest);
    assert ParseFee(fee) == ParseInt(stripped);
  }

  /** A fee with one thousands comma, "₹" + a + "," + b, is read as the digits a + b. */
  lemma ParseFeeOneComma(a: string, b: string)
    requires |a| > 0 && AllDigits(a, 10) && AllDigits(b, 10)
    ensures AllDigits(a + b, 10)
    ensures ParseFee([Rupee] + a + [','] + b) == Some(ValueOf(a + b, 10))
  {
    ParseFeeDigits(a, b, []);
    assert b + [] == b;
  }

  /**
    Only the first comma is deleted: with a second grouping comma, as in the
    Indian "₹1,00,000", reading stops there and the digits after it are lost.
   */
  lemma ParseFeeTwoCommas(a: string, b: string, c: string)
    requires |a| > 0 && AllDigits(a, 10) && AllDigits(b, 10)
    ensures AllDigits(a + b, 10)
    ensures ParseFee([Rupee] + a + [','] + b + [','] + c) == Some(ValueOf(a + b, 10))
  {
    ParseFeeDigits(a, b, [','] + c);
    var p := [Rupee] + a + [','];
    ConcatAssoc(p + b, [','], c);
    ConcatAssoc(p, b, [','] + c);
  }

  lemma FeeSpelling(fee: string, a: string, b: string)
    requires (fee, a, b) == ("\U{20B9}2,999", "2", "999") || (fee, a, b) == ("\U{20B9}29,990", "29", "990")
    ensures fee == [Rupee] + a + [','] + b
  {
  }

  lemma LakhSpelling(fee: string, a: string, b: string, c: string)
    requires fee == "\U{20B9}1,00,000" && a == "1" && b == "00" && c == "000"
    ensures fee == [Rupee] + a + [','] + b + [','] + c
  {
  }

  lemma Value2999(a: string, b: string)
    requires a == "2" && b == "999"
    ensures AllDigits(a + b, 10) && ValueOf(a + b, 10) == 2999
  {
    assert a + b == "2999";
    assert "2999"[..3] == "299" && "299"[..2] == "29" && "29"[..1] == "2" && "2"[..0] == "";
  }

  lemma Value29990(a: string, b: string)
    requires a == "29" && b == "990"
    ensures AllDigits(a + b, 10) && ValueOf(a + b, 10) == 29990
  {
    assert a + b == "29990";
    assert "29990"[..4] == "2999" && "2999"[..3] == "299" && "299"[..2] == "29";
    assert "29"[..1] == "2";
    assert "2"[..0] == "";
  }

  lemma Value100(a: string, b: string)
    requires a == "1" && b == "00"
    ensures AllDigits(a + b, 10) && ValueOf(a + b, 10) == 100
  {
    assert a + b == "100";
    assert "100"[..2] == "10" && "10"[..1] == "1" && "1"[..0] == "";
  }

  /** "₹2,999" reads as 2999. */
  lemma ExampleMonthlyFee(fee: string)
    requires fee == "\U{20B9}2,999"
    ensures ParseFee(fee) == Some(2999)
  {
    var a: string, b: string :| a == "2" && b == "999";
    FeeSpelling(fee, a, b);
    ParseFeeOneComma(a, b);
    Value2999(a, b);
  }

  /** "₹29,990" reads as 29990. */
  lemma ExampleAnnualFee(fee: string)
    requires fee == "\U{20B9}29,990"
    ensures ParseFee(fee) == Some(29990)
  {
    var a: string, b: string :| a == "29" && b == "990";
    FeeSpelling(fee, a, b);
    ParseFeeOneComma(a, b);
    Value29990(a, b);
  }

  /** "₹1,00,000" reads as 100, not 100000. */
  lemma ExampleLakhFee(fee: string)
    requires fee == "\U{20B9}1,00,000"
    ensures ParseFee(fee) == Some(100)
  {
    var a: string, b: string, c: string :| a == "1" && b == "00" && c == "000";
    LakhSpelling(fee, a, b, c);
    ParseFeeTwoCommas(a, b, c);
    Value100(a, b);
  }
}
