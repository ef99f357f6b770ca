/** One invoice line (calculate-totals.ts) and the duplicate check in front of it (tax-modes.ts). */
module InvoiceLines {
  import opened Wrappers
  import opened Sums
  import opened Sequences
  import opened Text
  import opened Money
  import opened TaxModes
  import opened TaxEngine
  import opened TaxProperties
  import opened TaxOrder
  import opened TaxRounding

  datatype LineInput = LineInput(
    quantity: real,
    unitPrice: real,
    discountAmount: Option<real>,
    discountRate: Option<real>,
    taxes: seq<TaxInput>,
    itemsDiscount: Option<real>,
    valueDifference: Option<real>)

  datatype LineComputed = LineComputed(
    salesTotal: int,
    discount: int,
    netTotal: int,
    taxAmounts: seq<TaxComputed>,
    additiveTaxTotal: int,
    deductibleTaxTotal: int,
    total: int,
    itemsDiscount: int,
    valueDifference: int,
    totalTaxableFees: int)

  // ----- duplicate tax types -----

  function Keys(taxes: seq<TaxInput>): (ks: seq<string>)
    ensures |ks| == |taxes| && forall i :: 0 <= i < |ks| ==> ks[i] == Trim(taxes[i].taxType)
  {
    seq(|taxes|, i requires 0 <= i < |taxes| => Trim(taxes[i].taxType))
  }

  // Non-blank keys that occur again, in the order in which their second occurrence appears.
  function Repeated(keys: seq<string>): seq<string> {
    if keys == [] then []
    else
      var n := |keys| - 1;
      var before := Repeated(keys[..n]);
      if keys[n] != "" && keys[n] in keys[..n] && keys[n] !in before then before + [keys[n]] else before
  }

  lemma {:induction false} RepeatedMeaning(keys: seq<string>, k: string)
    ensures k in Repeated(keys) <==> k != "" && exists i, j :: 0 <= i < j < |keys| && keys[i] == keys[j] == k
  {
    if keys != [] {
      var n := |keys| - 1;
      RepeatedMeaning(keys[..n], k);
      if k != "" && exists i, j :: 0 <= i < j < |keys| && keys[i] == keys[j] == k {
        var i, j :| 0 <= i < j < |keys| && keys[i] == keys[j] == k;
        if j == n {
          assert keys[..n][i] == k;
        } else {
          assert keys[..n][i] == keys[..n][j] == k;
        }
      }
      if keys[n] != "" && keys[n] in keys[..n] {
        var i :| 0 <= i < n && keys[..n][i] == keys[n];
        assert keys[i] == keys[n];
      }
    }
  }

  method FindDuplicateTaxTypes(taxes: seq<TaxInput>) returns (dupes: seq<string>)
    ensures dupes == Repeated(Keys(taxes))
  {
    var keys := Keys(taxes);
    var seen: set<string> := {};
    dupes := [];
    for i := 0 to |taxes|
      invariant dupes == Repeated(keys[..i])
      invariant forall k :: k in seen <==> k != "" && k in keys[..i]
    {
      var key := Trim(taxes[i].taxType);
      TakeNext(keys, i);
      assert keys[..i + 1][..i] == keys[..i];
      if key == "" { continue; }
      if key in seen {
        if key !in dupes { dupes := dupes + [key]; }
      } else {
        seen := seen + {key};
      }
    }
    assert keys[..|taxes|] == keys;
  }

  // The check compares trimmed texts, the engine trimmed and upper-cased ones, and blanks pass.
  lemma UniqueCodesPassCheck(taxes: seq<TaxInput>)
    requires UniqueCodes(taxes)
    ensures Repeated(Keys(taxes)) == []
  {
    DuplicateCheckGap(taxes);
  }

  lemma DuplicateCheckGap(taxes: seq<TaxInput>)
    ensures UniqueCodes(taxes) ==> Repeated(Keys(taxes)) == []
    ensures
      (forall i :: 0 <= i < |taxes| ==> Keys(taxes)[i] != "" && ToUpper(Keys(taxes)[i]) == Keys(taxes)[i])
      ==> (Repeated(Keys(taxes)) == [] <==> UniqueCodes(taxes))
  {
    var keys := Keys(taxes);
    if Repeated(keys) != [] {
      var k := Repeated(keys)[0];
      RepeatedMeaning(keys, k);
      var i, j :| 0 <= i < j < |keys| && keys[i] == keys[j] == k;
      assert Code(taxes[i]) == Code(taxes[j]);
    } else if forall i :: 0 <= i < |taxes| ==> keys[i] != "" && ToUpper(keys[i]) == keys[i] {
      forall i, j | 0 <= i < j < |taxes| ensures Code(taxes[i]) != Code(taxes[j]) {
        RepeatedMeaning(keys, keys[i]);
        CodeOfIsFaithful(taxes[i].taxType, taxes[j].taxType);
        assert keys[i] != keys[j];
      }
    }
  }

  // Over these texts the check passes exactly the lists with unique codes.
  ghost predicate CheckIsExactOver(types: iset<string>) {
    forall taxes: seq<TaxInput> :: (forall i :: 0 <= i < |taxes| ==> taxes[i].taxType in types) ==>
      (Repeated(Keys(taxes)) == [] <==> UniqueCodes(taxes))
  }

  // No blank text, and no two texts that differ in case only.
  ghost predicate OneSpelling(types: iset<string>) {
    && (forall t :: t in types ==> Trim(t) != "")
    && (forall t, u :: t in types && u in types && Normalize(t) == Normalize(u) ==> Trim(t) == Trim(u))
  }

  lemma SpelledOnce(types: iset<string>, taxes: seq<TaxInput>)
    requires OneSpelling(types) && forall i :: 0 <= i < |taxes| ==> taxes[i].taxType in types
    ensures Repeated(Keys(taxes)) == [] ==> UniqueCodes(taxes)
  {
    hide CodeOf, Repeated, Normalize, Trim;
    var keys := Keys(taxes);
    if Repeated(keys) == [] {
      forall i, j | 0 <= i < j < |taxes| ensures Code(taxes[i]) != Code(taxes[j]) {
        RepeatedMeaning(keys, keys[i]);
        CodeOfIsFaithful(taxes[i].taxType, taxes[j].taxType);
        assert keys[i] != keys[j];
      }
    }
  }

  function Plain(taxType: string): TaxInput { TaxInput(taxType, "", Rate(0.0, false), None) }

  lemma PairIsChecked(t: string, u: string)
    requires Repeated(Keys([Plain(t), Plain(u)])) == [] <==> UniqueCodes([Plain(t), Plain(u)])
    ensures Normalize(t) == Normalize(u) ==> Trim(t) == Trim(u) && Trim(t) != ""
  {
    hide CodeOf, Repeated, Normalize, Trim;
    var taxes := [Plain(t), Plain(u)];
    var keys := Keys(taxes);
    CodeOfIsFaithful(t, u);
    if Normalize(t) == Normalize(u) {
      assert Code(taxes[0]) == Code(taxes[1]);
      var k := Repeated(keys)[0];
      RepeatedMeaning(keys, k);
      var i, j :| 0 <= i < j < |keys| && keys[i] == keys[j] == k;
      assert i == 0 && j == 1;
    }
  }

  /** The duplicate check is exact for a vocabulary exactly when it has one spelling per code and no blank text. */
  lemma DuplicateCheckExactlyOver(types: iset<string>)
    ensures CheckIsExactOver(types) <==> OneSpelling(types)
  {
    hide CodeOf, Repeated, Normalize, Trim, UniqueCodes;
    if OneSpelling(types) {
      forall taxes: seq<TaxInput> | forall i :: 0 <= i < |taxes| ==> taxes[i].taxType in types
        ensures Repeated(Keys(taxes)) == [] <==> UniqueCodes(taxes)
      {
        SpelledOnce(types, taxes);
        DuplicateCheckGap(taxes);
      }
    }
    if CheckIsExactOver(types) {
      forall t, u | t in types && u in types
        ensures Normalize(t) == Normalize(u) ==> Trim(t) == Trim(u) && Trim(t) != ""
      {
        var taxes := [Plain(t), Plain(u)];
        assert forall i :: 0 <= i < |taxes| ==> taxes[i].taxType in types;
        PairIsChecked(t, u);
      }
    }
  }

  lemma DuplicateCheckMissesCase()
    ensures var vat := TaxInput("T1", "V009", Rate(14.0, false), None);
            var zero := TaxInput("t1", "V001", Rate(0.0, false), None);
            Repeated(Keys([vat, zero])) == [] && !UniqueCodes([vat, zero])
  {
    var vat := TaxInput("T1", "V009", Rate(14.0, false), None);
    var zero := TaxInput("t1", "V001", Rate(0.0, false), None);
    var keys := Keys([vat, zero]);
    NormalizedT1();
    assert Trim("T1") == "T1" && Trim("t1") == "t1";
    assert keys[0] == "T1" && keys[1] == "t1" && keys[0][0] != keys[1][0];
    if Repeated(keys) != [] {
      var k := Repeated(keys)[0];
      RepeatedMeaning(keys, k);
      assert false;
    }
    assert Code([vat, zero][0]) == Code([vat, zero][1]);
  }

  // ----- the item total -----

  datatype TaxAmount = TaxAmount(taxType: string, amount: int)

  datatype Breakdown = Breakdown(netTotal: int, itemsDiscount: int, additiveTaxTotal: int, deductibleTaxTotal: int,
      total: int)

  function AdditivePart(t: TaxAmount): int {
    if IsDeductible(CodeOf(t.taxType)) then 0 else t.amount
  }

  function DeductiblePart(t: TaxAmount): int {
    if IsDeductible(CodeOf(t.taxType)) then t.amount else 0
  }

  function Estimate(netTotal: int, itemsDiscount: int, taxes: seq<TaxAmount>): Breakdown {
    var additive, deductible := Sum(taxes, AdditivePart), Sum(taxes, DeductiblePart);
    Breakdown(netTotal, itemsDiscount, additive, deductible, netTotal + additive - deductible - itemsDiscount)
  }

  method EstimateEtaItemTotal(netTotal: int, itemsDiscount: int, taxes: seq<TaxAmount>) returns (b: Breakdown)
    ensures b == Estimate(netTotal, itemsDiscount, taxes)
  {
    var additiveTaxTotal, deductibleTaxTotal := 0, 0;
    for i := 0 to |taxes|
      invariant additiveTaxTotal == Sum(taxes[..i], AdditivePart)
      invariant deductibleTaxTotal == Sum(taxes[..i], DeductiblePart)
    {
      TakeNext(taxes, i);
      SumSnoc(taxes[..i], taxes[i], AdditivePart);
      SumSnoc(taxes[..i], taxes[i], DeductiblePart);
      if IsDeductible(CodeOf(taxes[i].taxType)) {
        deductibleTaxTotal := deductibleTaxTotal + taxes[i].amount;
      } else {
        additiveTaxTotal := additiveTaxTotal + taxes[i].amount;
      }
    }
    assert taxes[..|taxes|] == taxes;
    b := Breakdown(netTotal, itemsDiscount, additiveTaxTotal, deductibleTaxTotal,
                   netTotal + additiveTaxTotal - deductibleTaxTotal - itemsDiscount);
  }

  function Amounts(charged: seq<TaxComputed>): (ts: seq<TaxAmount>)
    ensures |ts| == |charged|
    ensures forall i :: 0 <= i < |ts| ==> ts[i] == TaxAmount(charged[i].taxType, charged[i].amount)
  {
    seq(|charged|, i requires 0 <= i < |charged| => TaxAmount(charged[i].taxType, charged[i].amount))
  }

  // ----- the line -----

  function LineDiscount(input: LineInput, salesTotal: int): int {
    if input.discountAmount.Some? then FormatMoney(input.discountAmount.value)
    else if input.discountRate.Some? then Percent(salesTotal, input.discountRate.value)
    else 0
  }

  function MoneyOr(amount: Option<real>): int {
    if amount.Some? then FormatMoney(amount.value) else 0
  }

  function SalesTotal(input: LineInput): int {
    FormatMoney(input.quantity * input.unitPrice)
  }

  function NetTotal(input: LineInput): int {
    SalesTotal(input) - LineDiscount(input, SalesTotal(input))
  }

  function LineContext(input: LineInput): Context {
    Context(NetTotal(input), MoneyOr(input.itemsDiscount), MoneyOr(input.valueDifference))
  }

  function Calculated(input: LineInput): Result<LineComputed, LineError> {
    var dupes := Repeated(Keys(input.taxes));
    if dupes != [] then Err(DuplicateTaxTypes(dupes))
    else if FirstMissing(input.taxes).Some? then Err(FixedAmountMissing(FirstMissing(input.taxes).value.taxType))
    else
      var ctx := LineContext(input);
      Ok(LineFrom(SalesTotal(input), LineDiscount(input, SalesTotal(input)), ctx,
                  ComputedAll(input.taxes, ctx), TotalFees(input.taxes, ctx.net)))
  }

  function LineFrom(salesTotal: int, discount: int, ctx: Context, charged: seq<TaxComputed>, fees: int): LineComputed {
    var b := Estimate(ctx.net, ctx.itemsDiscount, Amounts(charged));
    LineComputed(salesTotal, discount, ctx.net, charged, b.additiveTaxTotal, b.deductibleTaxTotal,
                 b.total, ctx.itemsDiscount, ctx.valueDifference, fees)
  }

  method CalculateLine(input: LineInput) returns (r: Result<LineComputed, LineError>)
    ensures r == Calculated(input)
  {
    hide CodeOf, Repeated, FirstMissing, TotalFees, Estimate, SalesTotal, LineDiscount, MoneyOr;
    var dupes := FindDuplicateTaxTypes(input.taxes);
    if dupes != [] {
      return Err(DuplicateTaxTypes(dupes));
    }
    var salesTotal := SalesTotal(input);
    var discount := LineDiscount(input, salesTotal);
    var itemsDiscount := MoneyOr(input.itemsDiscount);
    var valueDifference := MoneyOr(input.valueDifference);
    var netTotal := salesTotal - discount;
    var taxes := ComputeTaxAmounts(input.taxes, Context(netTotal, itemsDiscount, valueDifference));
    if taxes.Err? {
      return Err(taxes.error);
    }
    var (taxAmounts, totalTaxableFees) := taxes.value;
    var breakdown := EstimateEtaItemTotal(netTotal, itemsDiscount, Amounts(taxAmounts));
    assert LineContext(input) == Context(netTotal, itemsDiscount, valueDifference);
    return Ok(LineComputed(salesTotal, discount, netTotal, taxAmounts, breakdown.additiveTaxTotal,
                           breakdown.deductibleTaxTotal, breakdown.total, itemsDiscount, valueDifference, totalTaxableFees));
  }

  // ----- properties of a computed line -----

  // The line total is the net after items discount plus the signed taxes.
  lemma {:induction false} EffectOfCharges(taxes: seq<TaxInput>, ctx: Context, k: nat)
    requires k <= |taxes|
    ensures var ts := Amounts(ComputedAll(taxes, ctx))[..k];
            Sum(ts, AdditivePart) - Sum(ts, DeductiblePart) == Sum(taxes[..k], t => Sign(t) * Amount(taxes, ctx, Code(t)))
  {
    hide CodeOf, Amount;
    if k > 0 {
      var ts := Amounts(ComputedAll(taxes, ctx));
      EffectOfCharges(taxes, ctx, k - 1);
      assert ts[..k][..k - 1] == ts[..k - 1] && taxes[..k][..k - 1] == taxes[..k - 1];
    }
  }

  lemma LineTotalEquation(input: LineInput)
    requires Calculated(input).Ok?
    ensures Calculated(input).value.total
         == NetTotal(input) + TaxEffect(input.taxes, LineContext(input)) - MoneyOr(input.itemsDiscount)
  {
    hide CodeOf, Amount;
    var ctx := LineContext(input);
    EffectOfCharges(input.taxes, ctx, |input.taxes|);
    assert input.taxes[..|input.taxes|] == input.taxes;
    var ts := Amounts(ComputedAll(input.taxes, ctx));
    assert ts[..|ts|] == ts;
  }

  // Re-ordering the taxes of a line re-orders its charges and changes nothing else.
  lemma LineTotalIgnoresTaxOrder(input: LineInput, taxes: seq<TaxInput>)
    requires UniqueCodes(input.taxes) && Complete(input.taxes) && multiset(taxes) == multiset(input.taxes)
    ensures var a, b := Calculated(input), Calculated(input.(taxes := taxes));
            && a.Ok? && b.Ok?
            && a.value.taxAmounts == ComputedAll(input.taxes, LineContext(input))
            && b == Ok(a.value.(taxAmounts := ComputedAll(taxes, LineContext(input))))
  {
    hide CodeOf, Amount, TotalFees, Repeated, FirstMissing, SalesTotal, LineDiscount, MoneyOr, Keys, UniqueCodes,
        Estimate, ComputedAll;
    var ctx := LineContext(input);
    PermutedUnique(input.taxes, taxes);
    PermutedComplete(input.taxes, taxes);
    UniqueCodesPassCheck(input.taxes);
    UniqueCodesPassCheck(taxes);
    OrderDoesNotMatter(input.taxes, taxes, ctx, T(1));
    EstimateIgnoresOrder(input.taxes, taxes, ctx);
    TaxesDoNotChangeBases(input, taxes);
  }

  lemma TaxesDoNotChangeBases(input: LineInput, taxes: seq<TaxInput>)
    ensures SalesTotal(input.(taxes := taxes)) == SalesTotal(input)
    ensures LineContext(input.(taxes := taxes)) == LineContext(input)
    ensures forall s :: LineDiscount(input.(taxes := taxes), s) == LineDiscount(input, s)
  {
    var other := input.(taxes := taxes);
    assert other.quantity == input.quantity && other.unitPrice == input.unitPrice;
    assert other.quantity * other.unitPrice == input.quantity * input.unitPrice;
  }

  lemma ChargeIgnoresOrder(a: seq<TaxInput>, b: seq<TaxInput>, ctx: Context, t: TaxInput)
    requires UniqueCodes(a) && multiset(a) == multiset(b)
    ensures Computed(a, ctx, t) == Computed(b, ctx, t)
  {
    hide CodeOf, Amount;
    OrderDoesNotMatter(a, b, ctx, Code(t));
  }

  lemma EstimateIgnoresOrder(a: seq<TaxInput>, b: seq<TaxInput>, ctx: Context)
    requires UniqueCodes(a) && multiset(a) == multiset(b)
    ensures Estimate(ctx.net, ctx.itemsDiscount, Amounts(ComputedAll(a, ctx)))
         == Estimate(ctx.net, ctx.itemsDiscount, Amounts(ComputedAll(b, ctx)))
  {
    hide CodeOf, Amount, UniqueCodes, Amounts, ComputedAll, Sum;
    forall t: TaxInput ensures Amount(b, ctx, Code(t)) == Amount(a, ctx, Code(t)) {
      OrderDoesNotMatter(a, b, ctx, Code(t));
    }
    PermutedCharges(a, b, ctx, AdditivePart);
    PermutedCharges(a, b, ctx, DeductiblePart);
  }

  lemma PermutedCharges(a: seq<TaxInput>, b: seq<TaxInput>, ctx: Context, part: TaxAmount -> int)
    requires multiset(a) == multiset(b)
    requires forall t: TaxInput :: Amount(b, ctx, Code(t)) == Amount(a, ctx, Code(t))
    ensures Sum(Amounts(ComputedAll(a, ctx)), part) == Sum(Amounts(ComputedAll(b, ctx)), part)
  {
    hide CodeOf, Amount;
    var f := (t: TaxInput) => part(TaxAmount(t.taxType, Amount(a, ctx, Code(t))));
    ChargesAsSum(a, ctx, |a|, part, f);
    ChargesAsSum(b, ctx, |b|, part, f);
    assert a[..|a|] == a && b[..|b|] == b;
    var x, y := Amounts(ComputedAll(a, ctx)), Amounts(ComputedAll(b, ctx));
    assert x[..|a|] == x && y[..|b|] == y;
    SumPermutation(a, b, f);
  }

  lemma {:induction false} ChargesAsSum(taxes: seq<TaxInput>, ctx: Context, k: nat, part: TaxAmount -> int,
      f: TaxInput -> int)
    requires k <= |taxes|
    requires forall t :: f(t) == part(TaxAmount(t.taxType, Amount(taxes, ctx, Code(t))))
    ensures Sum(Amounts(ComputedAll(taxes, ctx))[..k], part) == Sum(taxes[..k], f)
  {
    hide CodeOf, Amount;
    if k > 0 {
      var ts := Amounts(ComputedAll(taxes, ctx));
      ChargesAsSum(taxes, ctx, k - 1, part, f);
      assert ts[..k][..k - 1] == ts[..k - 1] && taxes[..k][..k - 1] == taxes[..k - 1];
    }
  }

  // A catalogue line's total is within 20 piasters of the unrounded equation on its net total.
  lemma LineTotalStaysClose(input: LineInput)
    requires Regular(input.taxes) && Calculated(input).Ok?
    ensures var exact := NetTotal(input) as real + ExactTaxEffect(input.taxes, ExactOf(LineContext(input)))
                         - MoneyOr(input.itemsDiscount) as real;
            -20.0 <= Calculated(input).value.total as real - exact <= 20.0
  {
    hide CodeOf, Amount, Calculated, TaxEffect, ExactTaxEffect, NetTotal;
    LineTotalEquation(input);
    StagedRoundingStaysClose(input.taxes, LineContext(input));
  }
}
