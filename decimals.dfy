/** The text form of Python numbers used for `total_value`: `str` of an int and
    of a Decimal with two decimal places, and a parser that reads either back. */
module Decimals {

  datatype Option<T> = None | Some(value: T)

  /** A Python number that a sum of prices can be: the int it starts from, or
      a Decimal with two decimal places, held as hundredths. */
  datatype Number = Int(i: int) | Dec(hundredths: int)

  /** The exact value of `n`, in hundredths. */
  function Hundredths(n: Number): (h: int)
  {
    match n
    case Int(i) => i * 100
    case Dec(h) => h
  }

  /** `n + price` in Python: an int plus a Decimal is a Decimal, exactly. */
  function Plus(n: Number, price: int): (r: Number)
    ensures r.Dec? && Hundredths(r) == Hundredths(n) + price
  {
    Dec(Hundredths(n) + price)
  }

  predicate IsDigit(c: char)
  {
    '0' <= c <= '9'
  }

  function Digit(d: nat): (c: char)
    requires d < 10
    ensures IsDigit(c)
  {
    ('0' as int + d) as char
  }

  function DigitValue(c: char): (d: nat)
    requires IsDigit(c)
    ensures d < 10 && Digit(d) == c
  {
    c as int - '0' as int
  }

  /** No character of `s` is a decimal point. */
  predicate NoPoint(s: string)
  {
    forall i :: 0 <= i < |s| ==> s[i] != '.'
  }

  /** The shape of a two-place Decimal's text: a point three from the end,
      two digits after it and no other point. */
  predicate TwoPlaceText(s: string)
  {
    && |s| >= 4
    && s[|s| - 3] == '.'
    && IsDigit(s[|s| - 2]) && IsDigit(s[|s| - 1])
    && NoPoint(s[..|s| - 3])
  }

  /** A numeral as `str` prints it: decimal digits without leading zeros. */
  predicate Numeral(d: string)
  {
    && |d| > 0
    && (forall i :: 0 <= i < |d| ==> IsDigit(d[i]))
    && (|d| == 1 || d[0] != '0')
  }

  /** `s` without its leading minus sign, if it has one. */
  function Magnitude(s: string): (m: string)
    ensures |s| > 0 && s[0] == '-' ==> m == s[1..]
    ensures (|s| == 0 || s[0] != '-') ==> m == s
  {
    if |s| > 0 && s[0] == '-' then s[1..] else s
  }

  /** Decimal digits of `n`, most significant first, without leading zeros. */
  function NatToString(n: nat): (s: string)
    ensures |s| > 0
    ensures forall i :: 0 <= i < |s| ==> IsDigit(s[i])
    ensures s[0] == '0' ==> n == 0
    ensures Numeral(s)
  {
    if n < 10 then [Digit(n)] else NatToString(n / 10) + [Digit(n % 10)]
  }

  /** Python's `str` of an int. */
  function IntToString(i: int): (s: string)
    ensures NoPoint(s)
    ensures |s| > 0 && (s[0] == '-' <==> i < 0)
    ensures Numeral(Magnitude(s))
  {
    if i < 0 then "-" + NatToString(-i) else NatToString(i)
  }

  /** Python's `str` of a Decimal with two decimal places: an optional sign,
      the integral digits, a point and exactly two fractional digits. */
  function HundredthsToString(h: int): (s: string)
    ensures TwoPlaceText(s)
    ensures s[0] == '-' <==> h < 0
    ensures var m := Magnitude(s); |m| >= 4 && Numeral(m[..|m| - 3])
  {
    var a := if h < 0 then -h else h;
    var f := a % 100;
    (if h < 0 then "-" else "") + NatToString(a / 100) + "." + [Digit(f / 10), Digit(f % 10)]
  }

  /** Python's `str(n)`. */
  function Str(n: Number): (s: string)
    ensures n.Dec? ==> TwoPlaceText(s)
    ensures n.Int? ==> NoPoint(s)
    ensures |s| > 0 && (s[0] == '-' <==> Hundredths(n) < 0)
    ensures n.Int? ==> Numeral(Magnitude(s))
    ensures n.Dec? ==> var m := Magnitude(s); |m| >= 4 && Numeral(m[..|m| - 3])
  {
    match n
    case Int(i) => IntToString(i)
    case Dec(h) => HundredthsToString(h)
  }

  /** The value of a non-empty string of decimal digits. */
  function ParseNat(s: string): (r: Option<nat>)
  {
    if s == [] || !IsDigit(s[|s| - 1]) then None
    else if |s| == 1 then Some(DigitValue(s[0]))
    else match ParseNat(s[..|s| - 1])
      case None => None
      case Some(m) => Some(m * 10 + DigitValue(s[|s| - 1]))
  }

  /** Reads an unsigned integer or an unsigned number with two fractional
      digits, in hundredths. */
  function ParseUnsigned(s: string): (r: Option<nat>)
  {
    if |s| >= 3 && s[|s| - 3] == '.' then
      match (ParseNat(s[..|s| - 3]), ParseNat(s[|s| - 2..]))
      case (Some(w), Some(f)) => Some(w * 100 + f)
      case _ => None
    else
      match ParseNat(s)
      case Some(w) => Some(w * 100)
      case None => None
  }

  /** Reads the text of an int or of a two-place Decimal back, in hundredths. */
  function ParseDecimal(s: string): (r: Option<int>)
  {
    if |s| > 0 && s[0] == '-' then
      match ParseUnsigned(s[1..])
      case Some(u) => Some(-(u as int))
      case None => None
    else
      match ParseUnsigned(s)
      case Some(u) => Some(u)
      case None => None
  }

  lemma {:induction false} ParseNatRoundTrip(n: nat)
    ensures ParseNat(NatToString(n)) == Some(n)
  {
    if n >= 10 {
      var s := NatToString(n);
      ParseNatRoundTrip(n / 10);
      assert s[..|s| - 1] == NatToString(n / 10);
    }
  }

  lemma TwoDigits(x: nat, y: nat)
    requires x < 10 && y < 10
    ensures ParseNat([Digit(x), Digit(y)]) == Some(x * 10 + y)
  {
  }

  /** The text of an unsigned integer reads back as its value. */
  lemma UnsignedIntRoundTrip(a: nat)
    ensures ParseUnsigned(NatToString(a)) == Some(a * 100)
  {
    var s := NatToString(a);
    ParseNatRoundTrip(a);
    if |s| >= 3 {
      assert IsDigit(s[|s| - 3]);
    }
  }

  /** The text of an unsigned two-place number reads back as its value. */
  lemma UnsignedPointRoundTrip(w: nat, x: nat, y: nat)
    requires x < 10 && y < 10
    ensures ParseUnsigned(NatToString(w) + "." + [Digit(x), Digit(y)]) == Some(w * 100 + x * 10 + y)
  {
    var s := NatToString(w);
    var u := s + "." + [Digit(x), Digit(y)];
    ParseNatRoundTrip(w);
    assert u[..|u| - 3] == s;
    assert u[|u| - 2..] == [Digit(x), Digit(y)];
    TwoDigits(x, y);
  }

  /** `str` of an int loses nothing: it reads back as its exact value. */
  lemma IntStrRoundTrip(i: int)
    ensures ParseDecimal(IntToString(i)) == Some(i * 100)
  {
    var a := if i < 0 then -i else i;
    UnsignedIntRoundTrip(a);
    var s := NatToString(a);
    assert IsDigit(s[0]);
    if i < 0 {
      assert IntToString(i)[1..] == s;
    }
  }

  /** `str` of a two-place Decimal loses nothing: it reads back as its exact value. */
  lemma DecStrRoundTrip(h: int)
    ensures ParseDecimal(HundredthsToString(h)) == Some(h)
  {
    var a := if h < 0 then -h else h;
    var f := a % 100;
    var w := NatToString(a / 100);
    var u := w + "." + [Digit(f / 10), Digit(f % 10)];
    UnsignedPointRoundTrip(a / 100, f / 10, f % 10);
    assert a / 100 * 100 + f / 10 * 10 + f % 10 == a;
    assert IsDigit(w[0]) && u[0] == w[0];
    if h < 0 {
      assert HundredthsToString(h) == "-" + u;
      assert HundredthsToString(h)[1..] == u;
    } else {
      assert HundredthsToString(h) == u;
    }
  }

  /** `str` loses nothing: the text of a number reads back as its exact value. */
  lemma StrRoundTrip(n: Number)
    ensures ParseDecimal(Str(n)) == Some(Hundredths(n))
  {
    match n
    case Int(i) => IntStrRoundTrip(i);
    case Dec(h) => DecStrRoundTrip(h);
  }
}
