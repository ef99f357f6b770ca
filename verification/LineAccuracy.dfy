/**
 A computed line against the numbers it was computed from (calculate-totals.ts:190-256): what each column is the rounding
 of, and how far the line's total can be from ETA's equations over quantity, price and discount without any rounding.
 Amounts are in piasters, prices and discounts in pounds.
 */
module LineAccuracy {
  import opened Wrappers
  import opened Sums
  import opened Money
  import opened TaxModes
  import opened TaxEngine
  import opened TaxRounding
  import opened InvoiceLines

  // The nearest whole piaster, halves away from zero.
  predicate Nearest(r: int, x: real) {
    && -0.5 <= r as real - x <= 0.5
    && (r as real - x == 0.5 ==> x > 0.0)
    && (r as real - x == -0.5 ==> x < 0.0)
  }

  function Given(amount: Option<real>): real {
    if amount.Some? then amount.value * 100.0 else 0.0
  }

  // A discount that is given as an amount counts as that, otherwise as a percentage of the sales total.
  predicate DiscountOf(input: LineInput, salesTotal: int, discount: int) {
    if input.discountAmount.Some? then Nearest(discount, input.discountAmount.value * 100.0)
    else if input.discountRate.Some? then Nearest(discount, ExactPercent(salesTotal as real, input.discountRate.value))
    else discount == 0
  }

  /** Every column of a computed line from its quantity, price and discounts. */
  lemma ColumnsOfLine(input: LineInput)
    requires Calculated(input).Ok?
    ensures var c := Calculated(input).value;
            && Nearest(c.salesTotal, 100.0 * input.quantity * input.unitPrice)
            && DiscountOf(input, c.salesTotal, c.discount)
            && c.netTotal == c.salesTotal - c.discount
            && Nearest(c.itemsDiscount, Given(input.itemsDiscount))
            && Nearest(c.valueDifference, Given(input.valueDifference))
            && |c.taxAmounts| == |input.taxes|
  {
    hide CodeOf, ComputedAll, TotalFees, Estimate, Repeated, FirstMissing, Nearest, DiscountOf, SalesTotal, LineDiscount,
         MoneyOr, Given;
    SalesRound(input);
    DiscountRounds(input, SalesTotal(input));
    GivenRounds(input.itemsDiscount);
    GivenRounds(input.valueDifference);
  }

  lemma SalesRound(input: LineInput)
    ensures Nearest(SalesTotal(input), 100.0 * input.quantity * input.unitPrice)
  {
    hide Nearest, Round;
    var product := input.quantity * input.unitPrice;
    assert 100.0 * input.quantity * input.unitPrice == product * 100.0;
    Rounds(product * 100.0);
    assert SalesTotal(input) == FormatMoney(product) == Round(product * 100.0);
  }

  lemma PercentRounds(base: int, percent: real)
    ensures Nearest(Percent(base, percent), ExactPercent(base as real, percent))
  {
    hide Nearest, Round;
    Rounds(base as real * percent / 100.0);
  }

  lemma DiscountRounds(input: LineInput, salesTotal: int)
    ensures DiscountOf(input, salesTotal, LineDiscount(input, salesTotal))
  {
    hide Nearest, Round, Percent, ExactPercent;
    if input.discountAmount.Some? {
      Rounds(input.discountAmount.value * 100.0);
    } else if input.discountRate.Some? {
      PercentRounds(salesTotal, input.discountRate.value);
    }
  }

  lemma GivenRounds(amount: Option<real>)
    ensures Nearest(MoneyOr(amount), Given(amount))
  {
    hide Nearest, Round;
    if amount.Some? { Rounds(amount.value * 100.0); } else { NothingIsNearest(); }
  }

  lemma Rounds(x: real)
    ensures Nearest(Round(x), x)
  {
  }

  lemma NothingIsNearest()
    ensures Nearest(0, 0.0)
  {
  }

  // ----- without rounding -----

  function ExactSales(input: LineInput): real {
    100.0 * input.quantity * input.unitPrice
  }

  function ExactDiscount(input: LineInput): real {
    if input.discountAmount.Some? then input.discountAmount.value * 100.0
    else if input.discountRate.Some? then ExactPercent(ExactSales(input), input.discountRate.value)
    else 0.0
  }

  function ExactInputs(input: LineInput): ExactContext {
    ExactContext(ExactSales(input) - ExactDiscount(input), Given(input.itemsDiscount), Given(input.valueDifference))
  }

  // The line's total as ETA's equations define it.
  function ExactTotal(input: LineInput): real {
    var x := ExactInputs(input);
    x.net + ExactTaxEffect(input.taxes, x) - x.itemsDiscount
  }

  predicate DiscountIsPercentage(input: LineInput) {
    input.discountAmount.None? && input.discountRate.Some? ==> 0.0 <= input.discountRate.value <= 100.0
  }

  lemma PercentMoves(a: real, b: real, percent: real, e: real)
    requires 0.0 <= percent <= 100.0 && -e <= a - b <= e
    ensures -e <= ExactPercent(a, percent) - ExactPercent(b, percent) <= e
  {
    var d, r := a - b, percent / 100.0;
    Scaled(d, r, e);
    assert a * percent / 100.0 - b * percent / 100.0 == d * r;
  }

  // A percentage taken off an inexact amount leaves no more than the larger of the two errors, and half a piaster.
  lemma RestAfterPercent(s: int, x: real, percent: real)
    requires 0.0 <= percent <= 100.0 && -0.5 <= s as real - x <= 0.5
    ensures -1.0 <= (s - Percent(s, percent)) as real - (x - ExactPercent(x, percent)) <= 1.0
  {
    var d, r := s as real - x, 1.0 - percent / 100.0;
    Scaled(d, r, 0.5);
    assert ExactPercent(s as real, percent) - ExactPercent(x, percent) == d * (percent / 100.0);
    assert d - d * (percent / 100.0) == d * r;
  }

  lemma NetIsClose(input: LineInput)
    requires Calculated(input).Ok? && DiscountIsPercentage(input)
    ensures -1.0 <= NetTotal(input) as real - ExactInputs(input).net <= 1.0
  {
    hide CodeOf, ComputedAll, TotalFees, Estimate, Repeated, FirstMissing, Percent, ExactPercent;
    assert input.quantity * input.unitPrice * 100.0 == ExactSales(input);
    if input.discountAmount.None? && input.discountRate.Some? {
      RestAfterPercent(SalesTotal(input), ExactSales(input), input.discountRate.value);
    }
  }

  // ----- how far inexact bases move the taxes, in half piasters -----

  // A piaster of net, half a piaster of items discount and half a piaster of value difference.
  predicate Near(x: ExactContext, y: ExactContext) {
    && -1.0 <= x.net - y.net <= 1.0
    && -0.5 <= x.itemsDiscount - y.itemsDiscount <= 0.5
    && -0.5 <= x.valueDifference - y.valueDifference <= 0.5
  }

  function Drift(n: nat): int {
    if n == 1 then 34
    else if n == 2 then 17
    else if n == 4 then 3
    else if n == 3 || n == 6 || n > 20 then 0
    else 2
  }

  function FeeDrift(n: nat): int {
    if 5 <= n <= 12 && n != 6 then 2 else 0
  }

  lemma DriftTotal()
    ensures SumTo(20, Drift) == 84
  {
    assert SumTo(2, Drift) == 51;
    assert SumTo(4, Drift) == 54;
    assert SumTo(6, Drift) == 56;
    assert SumTo(8, Drift) == 60;
    assert SumTo(10, Drift) == 64;
    assert SumTo(12, Drift) == 68;
    assert SumTo(14, Drift) == 72;
    assert SumTo(16, Drift) == 76;
    assert SumTo(18, Drift) == 80;
  }

  lemma FeeDriftTotal()
    ensures SumTo(20, FeeDrift) == 14
  {
    assert SumTo(2, FeeDrift) == 0;
    assert SumTo(4, FeeDrift) == 0;
    assert SumTo(6, FeeDrift) == 2;
    assert SumTo(8, FeeDrift) == 6;
    assert SumTo(10, FeeDrift) == 10;
    assert SumTo(12, FeeDrift) == 14;
    assert SumTo(14, FeeDrift) == 14;
    assert SumTo(16, FeeDrift) == 14;
    assert SumTo(18, FeeDrift) == 14;
  }

  // Terms within half their weight of each other have sums within half the sum of weights.
  lemma {:induction false} SumsMove<T>(s: seq<T>, f: T -> real, g: T -> real, weight: T -> int)
    requires forall i :: 0 <= i < |s| ==> -(weight(s[i]) as real) / 2.0 <= f(s[i]) - g(s[i]) <= weight(s[i]) as real / 2.0
    ensures -(Sum(s, weight) as real) / 2.0 <= SumReal(s, f) - SumReal(s, g) <= Sum(s, weight) as real / 2.0
    decreases |s|
  {
    if s != [] { SumsMove(s[..|s| - 1], f, g, weight); }
  }

  lemma FeeTermMoves(taxes: seq<TaxInput>, x: ExactContext, y: ExactContext, i: nat)
    requires Regular(taxes) && Near(x, y) && i < |taxes|
    ensures var e := FeeDrift(Number(taxes[i])) as real / 2.0;
            -e <= ExactFeeTerm(x.net, taxes[i]) - ExactFeeTerm(y.net, taxes[i]) <= e
  {
    hide ExactPercent, CodeOf;
    PercentMoves(x.net, y.net, taxes[i].rate.percent, 1.0);
  }

  lemma FeeBaseMoves(taxes: seq<TaxInput>, x: ExactContext, y: ExactContext)
    requires Regular(taxes) && Near(x, y)
    ensures -8.5 <= ExactFeeBase(taxes, x) - ExactFeeBase(taxes, y) <= 8.5
  {
    hide CodeOf, ExactFeeTerm;
    var w: nat -> int := FeeDrift;
    var weight := (t: TaxInput) => w(Number(t));
    var f, g := (t: TaxInput) => ExactFeeTerm(x.net, t), (t: TaxInput) => ExactFeeTerm(y.net, t);
    forall i | 0 <= i < |taxes|
      ensures -(weight(taxes[i]) as real) / 2.0 <= f(taxes[i]) - g(taxes[i]) <= weight(taxes[i]) as real / 2.0
    {
      FeeTermMoves(taxes, x, y, i);
    }
    SumsMove(taxes, f, g, weight);
    WeightBound(taxes, w);
    FeeDriftTotal();
    FeeSums(taxes, x.net, f);
    FeeSums(taxes, y.net, g);
  }

  lemma {:induction false} FeeSums(taxes: seq<TaxInput>, net: real, f: TaxInput -> real)
    requires forall t :: f(t) == ExactFeeTerm(net, t)
    ensures SumReal(taxes, t => ExactFeeTerm(net, t)) == SumReal(taxes, f)
  {
    hide ExactFeeTerm;
    if taxes != [] { FeeSums(taxes[..|taxes| - 1], net, f); }
  }

  // What T2 adds to the base of T1.
  function TableTerm(base: real, t: TaxInput): real {
    if Code(t) == T(2) then ExactPercent(base, t.rate.percent) else 0.0
  }

  lemma {:induction false} TableSums(taxes: seq<TaxInput>, base: real, f: TaxInput -> real)
    requires forall t :: f(t) == TableTerm(base, t)
    ensures SumReal(taxes, t => if Code(t) == T(2) then ExactPercent(base, t.rate.percent) else 0.0) == SumReal(taxes, f)
  {
    hide CodeOf, ExactPercent;
    if taxes != [] { TableSums(taxes[..|taxes| - 1], base, f); }
  }

  lemma TableTermMoves(a: real, b: real, t: TaxInput)
    requires 0.0 <= t.rate.percent <= 100.0 && -8.5 <= a - b <= 8.5
    ensures var e := (if Code(t) == T(2) then 17 else 0) as real / 2.0; -e <= TableTerm(a, t) - TableTerm(b, t) <= e
  {
    hide CodeOf, ExactPercent;
    PercentMoves(a, b, t.rate.percent, 8.5);
  }

  lemma VatBaseMoves(taxes: seq<TaxInput>, x: ExactContext, y: ExactContext)
    requires Regular(taxes) && Near(x, y)
    ensures -17.0 <= ExactVatBase(taxes, x) - ExactVatBase(taxes, y) <= 17.0
    ensures -8.5 <= ExactTableBase(taxes, x) - ExactTableBase(taxes, y) <= 8.5
  {
    hide CodeOf, ExactFeeBase, ExactTableFixed, TableTerm;
    FeeBaseMoves(taxes, x, y);
    var a, b := ExactTableBase(taxes, x), ExactTableBase(taxes, y);
    var weight := (t: TaxInput) => if Code(t) == T(2) then 17 else 0;
    var f, g := (t: TaxInput) => TableTerm(a, t), (t: TaxInput) => TableTerm(b, t);
    forall i | 0 <= i < |taxes|
      ensures -(weight(taxes[i]) as real) / 2.0 <= f(taxes[i]) - g(taxes[i]) <= weight(taxes[i]) as real / 2.0
    {
      TableTermMoves(a, b, taxes[i]);
    }
    SumsMove(taxes, f, g, weight);
    SumOfCode(taxes, |taxes|, T(2), 17);
    assert taxes[..|taxes|] == taxes;
    TableSums(taxes, a, f);
    TableSums(taxes, b, g);
  }

  lemma AmountMoves(taxes: seq<TaxInput>, x: ExactContext, y: ExactContext, i: nat)
    requires Regular(taxes) && Near(x, y) && i < |taxes|
    ensures var e := Drift(Number(taxes[i])) as real / 2.0;
            -e <= ExactAmount(taxes, x, taxes[i]) - ExactAmount(taxes, y, taxes[i]) <= e
  {
    hide CodeOf, ExactPercent, ExactVatBase, ExactTableBase, ExactFeeBase;
    VatBaseMoves(taxes, x, y);
    var p, n := taxes[i].rate.percent, Number(taxes[i]);
    CodeNumberRange(taxes[i]);
    if n == 1 {
      PercentMoves(ExactVatBase(taxes, x), ExactVatBase(taxes, y), p, 17.0);
    } else if n == 2 {
      PercentMoves(ExactTableBase(taxes, x), ExactTableBase(taxes, y), p, 8.5);
    } else if n == 4 {
      PercentMoves(x.net - x.itemsDiscount, y.net - y.itemsDiscount, p, 1.5);
    } else {
      PercentMoves(x.net, y.net, p, 1.0);
    }
  }

  lemma SignMoves(sign: int, a: real, b: real, w: int)
    requires (sign == 1 || sign == -1) && -(w as real) / 2.0 <= a - b <= w as real / 2.0
    ensures -(w as real) / 2.0 <= sign as real * a - sign as real * b <= w as real / 2.0
  {
  }

  lemma EffectMoves(taxes: seq<TaxInput>, x: ExactContext, y: ExactContext)
    requires Regular(taxes) && Near(x, y)
    ensures -42.0 <= ExactTaxEffect(taxes, x) - ExactTaxEffect(taxes, y) <= 42.0
  {
    hide CodeOf, ExactAmount;
    var w: nat -> int := Drift;
    var weight := (t: TaxInput) => w(Number(t));
    var f := (t: TaxInput) => Sign(t) as real * ExactAmount(taxes, x, t);
    var g := (t: TaxInput) => Sign(t) as real * ExactAmount(taxes, y, t);
    forall i | 0 <= i < |taxes|
      ensures -(weight(taxes[i]) as real) / 2.0 <= f(taxes[i]) - g(taxes[i]) <= weight(taxes[i]) as real / 2.0
    {
      AmountMoves(taxes, x, y, i);
      SignMoves(Sign(taxes[i]), ExactAmount(taxes, x, taxes[i]), ExactAmount(taxes, y, taxes[i]), Drift(Number(taxes[i])));
    }
    SumsMove(taxes, f, g, weight);
    WeightBound(taxes, w);
    DriftTotal();
  }

  /**
   The total of a line with any subset of T1 to T20 is within 63.5 piasters of ETA's equations over its quantity, price
   and discounts without any rounding.
   */
  lemma LineTotalFromInputs(input: LineInput)
    requires Regular(input.taxes) && Calculated(input).Ok? && DiscountIsPercentage(input)
    ensures -63.5 <= Calculated(input).value.total as real - ExactTotal(input) <= 63.5
  {
    hide CodeOf, Calculated, ExactTaxEffect, NetTotal, Regular;
    LineTotalStaysClose(input);
    NetIsClose(input);
    GivenIsClose(input.itemsDiscount);
    GivenIsClose(input.valueDifference);
    EffectMoves(input.taxes, ExactOf(LineContext(input)), ExactInputs(input));
  }

  lemma GivenIsClose(amount: Option<real>)
    ensures -0.5 <= MoneyOr(amount) as real - Given(amount) <= 0.5
  {
  }
}
