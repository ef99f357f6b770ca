/** Tax type classes and directions (tax-modes.ts), and the uniqueness check made before a line is computed. */
module TaxModes {
  import opened Text

  // A normalized code: T(n) stands for the text "Tn" of the catalogue, n from 1 to 20.
  datatype TaxCode = T(n: nat) | Unlisted(text: string)

  function Normalize(taxType: string): string {
    ToUpper(Trim(taxType))
  }

  function CodeOf(taxType: string): TaxCode {
    var code := Normalize(taxType);
    if CatalogueNumber(code) == 0 then Unlisted(code) else T(CatalogueNumber(code))
  }

  function CatalogueNumber(code: string): (n: nat)
    ensures n <= 20
  {
    if |code| == 2 && code[0] == 'T' && '1' <= code[1] <= '9' then code[1] as int - '0' as int
    else if |code| == 3 && code[0] == 'T' && code[1] == '1' && '0' <= code[2] <= '9' then 10 + (code[2] as int - '0' as int)
    else if code == "T20" then 20
    else 0
  }

  predicate IsFixedAmount(c: TaxCode) { c == T(3) || c == T(6) }

  predicate IsTaxableFee(c: TaxCode) { c.T? && 5 <= c.n <= 12 }

  predicate IsNonTaxableFee(c: TaxCode) { c.T? && 13 <= c.n <= 20 }

  predicate IsDeductible(c: TaxCode) { c == T(4) }

  // Codes stand for normalized texts one to one.
  lemma CodeOfIsFaithful(a: string, b: string)
    ensures CodeOf(a) == CodeOf(b) <==> Normalize(a) == Normalize(b)
  {
    var x, y := Normalize(a), Normalize(b);
    if CodeOf(a) == CodeOf(b) && CatalogueNumber(x) != 0 {
      assert |x| == |y| && forall i :: 0 <= i < |x| ==> x[i] == y[i];
    }
  }

  lemma NormalizeIdempotent(s: string)
    ensures Normalize(Normalize(s)) == Normalize(s)
  {
    var t := Trim(s);
    TrimStartDone(s);
    TrimEndDone(TrimStart(s));
    var u := ToUpper(t);
    if u != "" {
      assert !IsSpace(t[0]) && !IsSpace(t[|t| - 1]);
      assert !IsSpace(u[0]) && !IsSpace(u[|u| - 1]);
      TrimStartDone(u);
      TrimEndDone(u);
      assert Trim(u) == u;
    }
    assert ToUpper(u) == u;
  }
}
