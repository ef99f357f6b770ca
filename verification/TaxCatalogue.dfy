/**
 The catalogue of tax types by their texts (tax-modes.ts): codes T1 to T20 and nothing else, whatever the case and the
 white space around; which of them are fixed amounts, fees and withheld.
 */
module TaxCatalogue {
  import opened Text
  import opened Decimals
  import opened TaxModes

  // A tax type as it is compared.
  function Plain(taxType: string): string {
    ToUpper(Trim(taxType))
  }

  lemma DigitsOfSmall(n: nat)
    requires 1 <= n <= 20
    ensures n < 10 ==> Digits(n) == [Digit(n)]
    ensures n >= 10 ==> Digits(n) == [Digit(n / 10), Digit(n % 10)]
  {
    if n >= 10 { assert Digits(n / 10) == [Digit(n / 10)]; }
  }

  /** A tax type has the number n exactly when its text is T followed by the digits of n. */
  lemma NumberedExactly(taxType: string, n: nat)
    requires 1 <= n <= 20
    ensures CodeOf(taxType) == T(n) <==> Plain(taxType) == "T" + Digits(n)
  {
    hide Digits, Trim;
    DigitsOfSmall(n);
    var code, text := Plain(taxType), "T" + Digits(n);
    assert text[0] == 'T' && text[1..] == Digits(n);
    if CodeOf(taxType) == T(n) {
      assert code == text;
    }
    if code == text {
      assert |code| == 1 + |Digits(n)|;
      assert n < 10 ==> code[1] == Digits(n)[0];
      assert n >= 10 ==> code[1] == Digits(n)[0] && code[2] == Digits(n)[1];
    }
  }

  /** Fixed amounts are T3 and T6, taxable fees T5 to T12, other fees T13 to T20; T4 alone is taken off. */
  lemma ClassesByText(taxType: string)
    ensures IsFixedAmount(CodeOf(taxType)) <==> Plain(taxType) == "T3" || Plain(taxType) == "T6"
    ensures IsDeductible(CodeOf(taxType)) <==> Plain(taxType) == "T4"
    ensures IsTaxableFee(CodeOf(taxType)) <==> exists n :: 5 <= n <= 12 && Plain(taxType) == "T" + Digits(n)
    ensures IsNonTaxableFee(CodeOf(taxType)) <==> exists n :: 13 <= n <= 20 && Plain(taxType) == "T" + Digits(n)
  {
    hide CodeOf, Digits, Plain;
    forall n | 1 <= n <= 20 ensures CodeOf(taxType) == T(n) <==> Plain(taxType) == "T" + Digits(n) {
      NumberedExactly(taxType, n);
    }
    DigitsOfSmall(3);
    DigitsOfSmall(4);
    DigitsOfSmall(6);
    assert "T" + [Digit(3)] == "T3" && "T" + [Digit(4)] == "T4" && "T" + [Digit(6)] == "T6";
    Between(taxType, 5, 12);
    Between(taxType, 13, 20);
  }

  lemma Between(taxType: string, low: nat, high: nat)
    requires 1 <= low <= high <= 20
    ensures (CodeOf(taxType).T? && low <= CodeOf(taxType).n <= high)
       <==> exists n :: low <= n <= high && Plain(taxType) == "T" + Digits(n)
  {
    hide CodeOf, Digits, Plain;
    if CodeOf(taxType).T? && low <= CodeOf(taxType).n <= high { NumberedExactly(taxType, CodeOf(taxType).n); }
    if n :| low <= n <= high && Plain(taxType) == "T" + Digits(n) { NumberedExactly(taxType, n); }
  }
}
