/**
 Distance between the staged rounding of the engine and the same equations in exact arithmetic. Amounts
 are in piasters, so ETA's tolerance of 0.5 pounds is 50.
 */
module TaxRounding {
  import opened Sums
  import opened Money
  import opened TaxModes
  import opened TaxEngine
  import opened TaxProperties

  // ----- the equations without rounding -----

  function ExactPercent(base: real, percent: real): real {
    base * percent / 100.0
  }

  function ExactFixed(t: TaxInput): real {
    if t.amount.Some? then t.amount.value * 100.0 else 0.0
  }

  // What a line's taxes are charged on, before any rounding.
  datatype ExactContext = ExactContext(net: real, itemsDiscount: real, valueDifference: real)

  function ExactOf(ctx: Context): ExactContext {
    ExactContext(ctx.net as real, ctx.itemsDiscount as real, ctx.valueDifference as real)
  }

  function ExactFeeTerm(net: real, t: TaxInput): real {
    if !IsTaxableFee(Code(t)) then 0.0
    else if IsFixedAmount(Code(t)) then ExactFixed(t)
    else ExactPercent(net, t.rate.percent)
  }

  function ExactFeeBase(taxes: seq<TaxInput>, x: ExactContext): real {
    x.net + SumReal(taxes, t => ExactFeeTerm(x.net, t)) + x.valueDifference
  }

  function ExactTableFixed(taxes: seq<TaxInput>): real {
    SumReal(taxes, t => if Code(t) == T(3) then ExactFixed(t) else 0.0)
  }

  function ExactTableBase(taxes: seq<TaxInput>, x: ExactContext): real {
    ExactFeeBase(taxes, x) + ExactTableFixed(taxes)
  }

  function ExactVatBase(taxes: seq<TaxInput>, x: ExactContext): real {
    ExactTableBase(taxes, x)
    + SumReal(taxes, t => if Code(t) == T(2) then ExactPercent(ExactTableBase(taxes, x), t.rate.percent) else 0.0)
  }

  function ExactAmount(taxes: seq<TaxInput>, x: ExactContext, t: TaxInput): real {
    match Code(t)
    case Unlisted(_) => ExactPercent(ExactFeeBase(taxes, x), t.rate.percent)
    case T(n) =>
      if n == 3 || n == 6 then ExactFixed(t)
      else if n == 1 then ExactPercent(ExactVatBase(taxes, x), t.rate.percent)
      else if n == 2 then ExactPercent(ExactTableBase(taxes, x), t.rate.percent)
      else if n == 4 then ExactPercent(x.net - x.itemsDiscount, t.rate.percent)
      else ExactPercent(x.net, t.rate.percent)
  }

  function Sign(t: TaxInput): int {
    if IsDeductible(Code(t)) then -1 else 1
  }

  // What the taxes add to a line, as the engine rounds it and exactly.
  function TaxEffect(taxes: seq<TaxInput>, ctx: Context): int {
    Sum(taxes, t => Sign(t) * Amount(taxes, ctx, Code(t)))
  }

  function ExactTaxEffect(taxes: seq<TaxInput>, x: ExactContext): real {
    SumReal(taxes, t => Sign(t) as real * ExactAmount(taxes, x, t))
  }

  // ----- bounds, in half piasters -----

  // Fees round once; T2 adds its own rounding to seven fees', T1 to those and T2's.
  function Weight(n: nat): int {
    if n == 1 then 16
    else if n == 2 then 8
    else if n == 3 || n == 6 || n > 20 then 0
    else 1
  }

  function FeeWeight(n: nat): int {
    if 5 <= n <= 12 && n != 6 then 1 else 0
  }

  function Number(t: TaxInput): nat {
    if Code(t).T? then Code(t).n else 21
  }

  predicate InCatalogue(taxes: seq<TaxInput>) {
    forall i :: 0 <= i < |taxes| ==> Code(taxes[i]).T?
  }

  predicate Percentages(taxes: seq<TaxInput>) {
    forall i :: 0 <= i < |taxes| ==> 0.0 <= taxes[i].rate.percent <= 100.0
  }

  predicate TwoDecimalAmounts(taxes: seq<TaxInput>) {
    forall i :: 0 <= i < |taxes| && taxes[i].amount.Some? ==>
      FormatMoney(taxes[i].amount.value) as real == taxes[i].amount.value * 100.0
  }

  function Numbers(taxes: seq<TaxInput>): (ns: seq<nat>)
    ensures |ns| == |taxes| && forall i :: 0 <= i < |ns| ==> ns[i] == Number(taxes[i])
  {
    seq(|taxes|, i requires 0 <= i < |taxes| => Number(taxes[i]))
  }

  lemma {:induction false} SumOverNumbers(taxes: seq<TaxInput>, w: nat -> int)
    ensures Sum(taxes, t => w(Number(t))) == Sum(Numbers(taxes), w)
  {
    hide CodeOf;
    if taxes != [] {
      var n := |taxes| - 1;
      SumOverNumbers(taxes[..n], w);
      assert Numbers(taxes)[..n] == Numbers(taxes[..n]);
    }
  }

  lemma CodeNumberRange(t: TaxInput)
    ensures Code(t).T? ==> 1 <= Code(t).n <= 20
  {
  }

  // The taxes of a line weigh at most as much as the whole catalogue.
  lemma WeightBound(taxes: seq<TaxInput>, w: nat -> int)
    requires UniqueCodes(taxes) && InCatalogue(taxes) && forall k: nat :: w(k) >= 0
    ensures Sum(taxes, t => w(Number(t))) <= SumTo(20, w)
  {
    var ns := Numbers(taxes);
    forall i | 0 <= i < |ns| ensures 1 <= ns[i] <= 20 { CodeNumberRange(taxes[i]); }
    hide CodeOf;
    SumOverNumbers(taxes, w);
    DistinctWeights(ns, 20, w);
  }

  lemma WeightTotals()
    ensures SumTo(20, Weight) == 40 && SumTo(20, FeeWeight) == 7
  {
    assert SumTo(5, Weight) == 26 && SumTo(5, FeeWeight) == 1;
    assert SumTo(10, Weight) == 30 && SumTo(10, FeeWeight) == 5;
    assert SumTo(15, Weight) == 35 && SumTo(15, FeeWeight) == 7;
  }

  lemma NonNegativeProduct(a: real, b: real)
    requires a >= 0.0 && b >= 0.0
    ensures a * b >= 0.0
  {
  }

  lemma Scaled(d: real, r: real, e: real)
    requires 0.0 <= r <= 1.0 && -e <= d <= e
    ensures -e <= d * r <= e
  {
    var m := if d >= 0.0 then d else -d;
    NonNegativeProduct(m, r);
    NonNegativeProduct(m, 1.0 - r);
    assert m * (1.0 - r) == m - m * r;
    assert d * r == if d >= 0.0 then m * r else -(m * r);
  }

  // Rounding a percentage of an inexact base adds half a piaster to the error of the base.
  lemma PercentError(base: int, exact: real, percent: real, e: real)
    requires 0.0 <= percent <= 100.0 && -e <= base as real - exact <= e
    ensures -(e + 0.5) <= Percent(base, percent) as real - ExactPercent(exact, percent) <= e + 0.5
  {
    var d, r := base as real - exact, percent / 100.0;
    Scaled(d, r, e);
    assert base as real * percent / 100.0 - exact * percent / 100.0 == d * r;
  }

  // The preconditions of the bound: what a line built from the catalogue carries.
  predicate Regular(taxes: seq<TaxInput>) {
    && UniqueCodes(taxes) && InCatalogue(taxes) && Complete(taxes)
    && Percentages(taxes) && TwoDecimalAmounts(taxes)
  }

  lemma FeeTermError(taxes: seq<TaxInput>, net: int, i: nat)
    requires Regular(taxes) && i < |taxes|
    ensures var e := FeeWeight(Number(taxes[i])) as real / 2.0;
            -e <= FeeTerm(taxes, net, taxes[i]) as real - ExactFeeTerm(net as real, taxes[i]) <= e
  {
    var t := taxes[i];
    CodeNumberRange(t);
    hide CodeOf, Percent, FormatMoney, ExactPercent;
    UniqueLookup(taxes, i);
    CompleteAt(taxes, i);
    assert t.amount.Some? ==> FormatMoney(t.amount.value) as real == t.amount.value * 100.0;
    assert net as real - net as real == 0.0;
    PercentError(net, net as real, t.rate.percent, 0.0);
  }

  lemma FeesError(taxes: seq<TaxInput>, ctx: Context)
    requires Regular(taxes)
    ensures -3.5 <= FeeBase(taxes, ctx) as real - ExactFeeBase(taxes, ExactOf(ctx)) <= 3.5
  {
    hide CodeOf, Percent, FormatMoney, ExactPercent;
    var w: nat -> int := FeeWeight;
    var bound := (t: TaxInput) => w(Number(t));
    var exact := (t: TaxInput) => ExactFeeTerm(ctx.net as real, t);
    var rounded := (t: TaxInput) => FeeTerm(taxes, ctx.net, t);
    forall i | 0 <= i < |taxes|
      ensures -(bound(taxes[i]) as real) / 2.0 <= rounded(taxes[i]) as real - exact(taxes[i]) <= bound(taxes[i]) as real / 2.0
    {
      FeeTermError(taxes, ctx.net, i);
    }
    SumRealError(taxes, exact, rounded, bound);
    WeightBound(taxes, w);
    WeightTotals();
  }

  // Sum of one code's amount over a list in which the code occurs at most once.
  lemma {:induction false} SumOfCode(taxes: seq<TaxInput>, k: nat, c: TaxCode, amount: int)
    requires UniqueCodes(taxes) && k <= |taxes|
    ensures Sum(taxes[..k], t => if Code(t) == c then amount else 0) == if Has(taxes[..k], c) then amount else 0
  {
    hide CodeOf;
    if k > 0 {
      SumOfCode(taxes, k - 1, c, amount);
      assert taxes[..k][..k - 1] == taxes[..k - 1];
      if Code(taxes[k - 1]) == c && Has(taxes[..k - 1], c) {
        var i := HasIndex(taxes[..k - 1], c);
        assert false;
      }
    }
  }

  // `error` halves bound what one code contributes, exactly and rounded.
  lemma CodeError(taxes: seq<TaxInput>, c: TaxCode, amount: int, exact: TaxInput -> real, error: nat)
    requires UniqueCodes(taxes)
    requires forall i :: 0 <= i < |taxes| && Code(taxes[i]) == c ==>
               -(error as real) / 2.0 <= amount as real - exact(taxes[i]) <= error as real / 2.0
    ensures var sum := SumReal(taxes, t => if Code(t) == c then exact(t) else 0.0);
            var charged := if Has(taxes, c) then amount else 0;
            -(error as real) / 2.0 <= charged as real - sum <= error as real / 2.0
  {
    hide CodeOf;
    var bound := (t: TaxInput) => if Code(t) == c then error else 0;
    var rounded := (t: TaxInput) => if Code(t) == c then amount else 0;
    SumRealError(taxes, t => if Code(t) == c then exact(t) else 0.0, rounded, bound);
    SumOfCode(taxes, |taxes|, c, amount);
    SumOfCode(taxes, |taxes|, c, error);
    assert taxes[..|taxes|] == taxes;
  }

  lemma TableBaseError(taxes: seq<TaxInput>, ctx: Context)
    requires Regular(taxes)
    ensures -3.5 <= (FeeBase(taxes, ctx) + FixedAmount(taxes, T(3))) as real - ExactTableBase(taxes, ExactOf(ctx)) <= 3.5
  {
    hide CodeOf, FeeBase, ExactFeeBase, FormatMoney;
    FeesError(taxes, ctx);
    var exact := (t: TaxInput) => ExactFixed(t);
    forall i | 0 <= i < |taxes| && Code(taxes[i]) == T(3)
      ensures FixedAmount(taxes, T(3)) as real == exact(taxes[i])
    {
      UniqueLookup(taxes, i);
      CompleteAt(taxes, i);
    }
    CodeError(taxes, T(3), FixedAmount(taxes, T(3)), exact, 0);
    ExactTableFixedIs(taxes, exact);
  }

  lemma {:induction false} ExactTableFixedIs(taxes: seq<TaxInput>, exact: TaxInput -> real)
    requires forall t :: exact(t) == ExactFixed(t)
    ensures ExactTableFixed(taxes) == SumReal(taxes, t => if Code(t) == T(3) then exact(t) else 0.0)
  {
    hide CodeOf;
    if taxes != [] { ExactTableFixedIs(taxes[..|taxes| - 1], exact); }
  }

  lemma VatBaseError(taxes: seq<TaxInput>, ctx: Context)
    requires Regular(taxes)
    ensures -7.5 <= (FeeBase(taxes, ctx) + FixedAmount(taxes, T(3)) + TableTax(taxes, ctx)) as real - ExactVatBase(taxes, ExactOf(ctx)) <= 7.5
  {
    hide CodeOf, FeeBase, ExactTableBase, Percent, ExactPercent;
    TableBaseError(taxes, ctx);
    var base, exactBase := FeeBase(taxes, ctx) + FixedAmount(taxes, T(3)), ExactTableBase(taxes, ExactOf(ctx));
    var exact := (t: TaxInput) => ExactPercent(exactBase, t.rate.percent);
    var table := TableTax(taxes, ctx);
    forall i | 0 <= i < |taxes| && Code(taxes[i]) == T(2)
      ensures -4.0 <= table as real - exact(taxes[i]) <= 4.0
    {
      UniqueLookup(taxes, i);
      PercentError(base, exactBase, taxes[i].rate.percent, 3.5);
    }
    CodeError(taxes, T(2), table, exact, 8);
    ExactTableTaxIs(taxes, exactBase, exact);
  }

  lemma {:induction false} ExactTableTaxIs(taxes: seq<TaxInput>, base: real, exact: TaxInput -> real)
    requires forall t :: exact(t) == ExactPercent(base, t.rate.percent)
    ensures SumReal(taxes, t => if Code(t) == T(2) then ExactPercent(base, t.rate.percent) else 0.0)
         == SumReal(taxes, t => if Code(t) == T(2) then exact(t) else 0.0)
  {
    hide CodeOf, ExactPercent;
    if taxes != [] { ExactTableTaxIs(taxes[..|taxes| - 1], base, exact); }
  }

  ghost predicate WithinWeight(taxes: seq<TaxInput>, ctx: Context, t: TaxInput) {
    var e := Weight(Number(t)) as real / 2.0;
    -e <= Amount(taxes, ctx, Code(t)) as real - ExactAmount(taxes, ExactOf(ctx), t) <= e
  }

  lemma VatError(taxes: seq<TaxInput>, ctx: Context, i: nat)
    requires Regular(taxes) && i < |taxes| && Code(taxes[i]) == T(1)
    ensures WithinWeight(taxes, ctx, taxes[i])
  {
    hide CodeOf, Percent, ExactPercent, FeeBase, ExactVatBase, TableTax, FixedAmount;
    UniqueLookup(taxes, i);
    VatBaseError(taxes, ctx);
    PercentError(FeeBase(taxes, ctx) + FixedAmount(taxes, T(3)) + TableTax(taxes, ctx),
                 ExactVatBase(taxes, ExactOf(ctx)), taxes[i].rate.percent, 7.5);
  }

  lemma TableError(taxes: seq<TaxInput>, ctx: Context, i: nat)
    requires Regular(taxes) && i < |taxes| && Code(taxes[i]) == T(2)
    ensures WithinWeight(taxes, ctx, taxes[i])
  {
    hide CodeOf, Percent, ExactPercent, FeeBase, ExactTableBase, FixedAmount;
    UniqueLookup(taxes, i);
    TableBaseError(taxes, ctx);
    PercentError(FeeBase(taxes, ctx) + FixedAmount(taxes, T(3)), ExactTableBase(taxes, ExactOf(ctx)), taxes[i].rate.percent, 3.5);
  }

  lemma AmountError(taxes: seq<TaxInput>, ctx: Context, i: nat)
    requires Regular(taxes) && i < |taxes|
    ensures WithinWeight(taxes, ctx, taxes[i])
  {
    var t := taxes[i];
    CodeNumberRange(t);
    hide CodeOf, Percent, FormatMoney, ExactPercent, FeeBase, ExactFeeBase, ExactTableBase, ExactVatBase, TableTax;
    if Code(t) == T(1) {
      VatError(taxes, ctx, i);
    } else if Code(t) == T(2) {
      TableError(taxes, ctx, i);
    } else {
      UniqueLookup(taxes, i);
      CompleteAt(taxes, i);
      var base := if Code(t) == T(4) then ctx.net - ctx.itemsDiscount else ctx.net;
      PercentError(base, base as real, t.rate.percent, 0.0);
    }
  }

  // Main result: for any subset of T1..T20 the taxes are within 20 piasters of exact arithmetic.
  lemma StagedRoundingStaysClose(taxes: seq<TaxInput>, ctx: Context)
    requires Regular(taxes)
    ensures -20.0 <= TaxEffect(taxes, ctx) as real - ExactTaxEffect(taxes, ExactOf(ctx)) <= 20.0
  {
    hide CodeOf, Amount, ExactAmount;
    var w: nat -> int := Weight;
    var bound := (t: TaxInput) => w(Number(t));
    var exact := (t: TaxInput) => Sign(t) as real * ExactAmount(taxes, ExactOf(ctx), t);
    var rounded := (t: TaxInput) => Sign(t) * Amount(taxes, ctx, Code(t));
    forall i | 0 <= i < |taxes|
      ensures -(bound(taxes[i]) as real) / 2.0 <= rounded(taxes[i]) as real - exact(taxes[i]) <= bound(taxes[i]) as real / 2.0
    {
      AmountError(taxes, ctx, i);
      assert WithinWeight(taxes, ctx, taxes[i]);
    }
    SumRealError(taxes, exact, rounded, bound);
    WeightBound(taxes, w);
    WeightTotals();
  }
}
