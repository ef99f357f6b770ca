/**
 Money in a payload (eta-formats.ts:28-34, local-validator.ts:79-85): an amount is written as a JSON number and read
 back from its text. A number text is what JavaScript writes for a number with at most two decimals: no trailing
 zeros, no decimal point for whole amounts, no exponent.
 */
module MoneyText {
  import opened Wrappers
  import opened Decimals
  import opened Json
  import opened Money

  // Hundredths after the point, without trailing zeros.
  function Fraction(hundredths: nat): (s: string)
    requires hundredths < 100
    ensures IsDigits(s) && |s| <= 2
  {
    if hundredths == 0 then ""
    else if hundredths % 10 == 0 then [Digit(hundredths / 10)]
    else [Digit(hundredths / 10), Digit(hundredths % 10)]
  }

  function Magnitude(n: nat): string {
    Digits(n / 100) + if n % 100 == 0 then "" else "." + Fraction(n % 100)
  }

  function AmountText(piasters: int): string {
    if piasters < 0 then "-" + Magnitude(-piasters) else Magnitude(piasters)
  }

  // ----- reading -----

  function Power(n: nat): (p: nat)
    ensures p >= 1
  {
    if n == 0 then 1 else 10 * Power(n - 1)
  }

  // The position of the decimal point, or the length.
  function Point(s: string): (k: nat)
    ensures k <= |s| && '.' !in s[..k] && (k < |s| ==> s[k] == '.')
  {
    if s == "" then 0
    else if s[0] == '.' then 0
    else
      var k := Point(s[1..]);
      assert s[..k + 1] == [s[0]] + s[1..][..k];
      k + 1
  }

  // Digits, a point and digits, or digits alone.
  function ParseMagnitude(s: string): Option<real> {
    var k := Point(s);
    var whole, fraction := s[..k], if k < |s| then s[k + 1..] else "";
    if whole == "" || !IsDigits(whole) || !IsDigits(fraction) || (k < |s| && fraction == "") then None
    else Some(ParseDigits(whole) as real + ParseDigits(fraction) as real / Power(|fraction|) as real)
  }

  // A decimal number in plain notation.
  function ParseDecimal(s: string): Option<real> {
    if s != "" && s[0] == '-' then
      match ParseMagnitude(s[1..])
      case Some(x) => Some(-x)
      case None => None
    else ParseMagnitude(s)
  }

  // The amount a number stands for.
  function ReadAmount(s: string): Option<int> {
    match ParseDecimal(s)
    case Some(x) => Some(FormatMoney(x))
    case None => None
  }

  // ----- the round trip -----

  lemma ParseOfFraction(h: nat)
    requires 0 < h < 100
    ensures Fraction(h) != "" && ParseDigits(Fraction(h)) as real / Power(|Fraction(h)|) as real == h as real / 100.0
  {
    var s := Fraction(h);
    if h % 10 == 0 {
      assert s[..0] == "" && Power(1) == 10 * Power(0);
      assert ParseDigits(s) == h / 10;
    } else {
      assert s[..1] == [Digit(h / 10)] && s[..1][..0] == "";
      assert Power(2) == 10 * Power(1) && Power(1) == 10 * Power(0);
      assert ParseDigits(s[..1]) == h / 10;
      assert ParseDigits(s) == h;
    }
  }

  lemma {:induction false} PointAfterDigits(s: string, t: string)
    requires IsDigits(s) && (t == "" || t[0] == '.')
    ensures Point(s + t) == |s|
    decreases |s|
  {
    if s == "" {
      assert s + t == t;
    } else {
      assert (s + t)[0] == s[0] && (s + t)[1..] == s[1..] + t;
      PointAfterDigits(s[1..], t);
    }
  }

  lemma ParseOfMagnitude(n: nat)
    ensures ParseMagnitude(Magnitude(n)) == Some(ToPounds(n))
  {
    hide Digits, Fraction, Point, ParseDigits, Power;
    var s, h := Digits(n / 100), n % 100;
    ParseOfDigits(n / 100);
    var m := Magnitude(n);
    if h == 0 {
      PointAfterDigits(s, "");
      assert m == s + "" == s && m[..|s|] == s;
      EmptyFraction();
      assert n == 100 * (n / 100);
    } else {
      var t := "." + Fraction(h);
      PointAfterDigits(s, t);
      assert m == s + t && m[..|s|] == s && m[|s| + 1..] == Fraction(h);
      ParseOfFraction(h);
      assert n == 100 * (n / 100) + h;
    }
  }

  lemma EmptyFraction()
    ensures ParseDigits("") as real / Power(0) as real == 0.0
  {
  }

  lemma MagnitudeHead(n: nat)
    ensures Magnitude(n) != "" && Magnitude(n)[0] != '-'
  {
    hide Fraction;
    assert Magnitude(n)[0] == Digits(n / 100)[0];
  }

  /** Every amount reads back from its text. */
  lemma AmountRoundTrip(piasters: int)
    ensures ReadAmount(AmountText(piasters)) == Some(piasters)
  {
    hide Magnitude, ParseMagnitude, FormatMoney;
    var n: nat := if piasters < 0 then -piasters else piasters;
    ParseOfMagnitude(n);
    MagnitudeHead(n);
    FormatMoneyStable(piasters);
    if piasters < 0 {
      assert AmountText(piasters)[1..] == Magnitude(n);
      assert -ToPounds(n) == ToPounds(piasters);
    }
  }

  lemma DigitIsNumberChar(c: char)
    requires '0' <= c <= '9'
    ensures c in "0123456789+-.eE"
  {
    assert "0123456789+-.eE"[c as int - '0' as int] == c;
  }

  lemma AmountIsNumberText(piasters: int)
    ensures forall c <- AmountText(piasters) :: c in "0123456789+-.eE"
  {
    hide Digits, Fraction;
    forall c | c in AmountText(piasters) ensures c in "0123456789+-.eE" {
      if '0' <= c <= '9' {
        DigitIsNumberChar(c);
      } else {
        assert c == '-' || c == '.';
        assert "0123456789+-.eE"[11] == '-' && "0123456789+-.eE"[12] == '.';
      }
    }
  }

  // The JSON number of an amount.
  function AmountNumber(piasters: int): NumText {
    AmountIsNumberText(piasters);
    AmountText(piasters)
  }
}
