/**
 What the tax engine promises: the ETA equations in dependency order, independence of the order in which
 taxes are listed, and the distance of the staged rounding from exact arithmetic.
 */
module TaxProperties {
  import opened Sums
  import opened Money
  import opened TaxModes
  import opened TaxEngine

  predicate UniqueCodes(taxes: seq<TaxInput>) {
    forall i, j :: 0 <= i < j < |taxes| ==> Code(taxes[i]) != Code(taxes[j])
  }

  predicate Complete(taxes: seq<TaxInput>) {
    FirstMissing(taxes).None?
  }

  lemma UniqueLookup(taxes: seq<TaxInput>, i: nat)
    requires UniqueCodes(taxes) && i < |taxes|
    ensures Has(taxes, Code(taxes[i]))
    ensures First(taxes, Code(taxes[i])) == taxes[i] == Last(taxes, Code(taxes[i]))
  {
    hide CodeOf;
    HasMember(taxes, i);
  }

  lemma {:induction false} HasIndex(taxes: seq<TaxInput>, c: TaxCode) returns (i: nat)
    requires Has(taxes, c)
    ensures i < |taxes| && Code(taxes[i]) == c
  {
    hide CodeOf;
    var n := |taxes| - 1;
    if Code(taxes[n]) == c { i := n; } else { i := HasIndex(taxes[..n], c); }
  }

  // ----- the ETA equations -----

  function CodeAmount(c: TaxComputed, code: TaxCode): int {
    if CodeOf(c.taxType) == code then c.amount else 0
  }

  // What a list of computed taxes charges under one code.
  function ChargedUnder(charged: seq<TaxComputed>, code: TaxCode): int {
    Sum(charged, c => CodeAmount(c, code))
  }

  function TaxableFeePart(c: TaxComputed): int {
    if IsTaxableFee(CodeOf(c.taxType)) then c.amount else 0
  }

  // Each amount as ETA's "Main Calculations" define it, from the other charged amounts only.
  ghost predicate EtaEquations(taxes: seq<TaxInput>, ctx: Context, charged: seq<TaxComputed>, fees: int) {
    && |charged| == |taxes|
    && fees == Sum(charged, TaxableFeePart)
    && (forall i :: 0 <= i < |taxes| ==> charged[i].taxType == taxes[i].taxType)
    && (forall i :: 0 <= i < |taxes| ==> EtaEquation(taxes[i], ctx, charged, fees, charged[i].amount))
  }

  ghost predicate EtaEquation(t: TaxInput, ctx: Context, charged: seq<TaxComputed>, fees: int, amount: int) {
    var feeBase := ctx.net + fees + ctx.valueDifference;
    var rate := t.rate.percent;
    match Code(t)
    case Unlisted(_) => amount == Percent(feeBase, rate)
    case T(n) =>
      if n == 3 || n == 6 then t.amount.Some? && amount == FormatMoney(t.amount.value)
      else if n == 1 then amount == Percent(feeBase + ChargedUnder(charged, T(3)) + ChargedUnder(charged, T(2)), rate)
      else if n == 2 then amount == Percent(feeBase + ChargedUnder(charged, T(3)), rate)
      else if n == 4 then amount == Percent(ctx.net - ctx.itemsDiscount, rate)
      else if 5 <= n <= 20 then amount == Percent(ctx.net, rate)
      else amount == Percent(feeBase, rate)
  }

  lemma {:induction false} ChargedUnderIsAmount(taxes: seq<TaxInput>, ctx: Context, k: nat, code: TaxCode)
    requires UniqueCodes(taxes) && k <= |taxes|
    ensures ChargedUnder(ComputedAll(taxes, ctx)[..k], code) == if Has(taxes[..k], code) then Amount(taxes, ctx, code) else 0
  {
    hide CodeOf, Amount;
    if k > 0 {
      var charged := ComputedAll(taxes, ctx);
      ChargedUnderIsAmount(taxes, ctx, k - 1, code);
      assert charged[..k][..k - 1] == charged[..k - 1] && taxes[..k][..k - 1] == taxes[..k - 1];
      if Code(taxes[k - 1]) == code && Has(taxes[..k - 1], code) {
        var i := HasIndex(taxes[..k - 1], code);
        assert false;
      }
    }
  }

  lemma {:induction false} FeePartsAreFees(taxes: seq<TaxInput>, ctx: Context, k: nat)
    requires k <= |taxes|
    ensures Sum(ComputedAll(taxes, ctx)[..k], TaxableFeePart) == Sum(taxes[..k], t => FeeTerm(taxes, ctx.net, t))
  {
    hide CodeOf;
    if k > 0 {
      FeePartsAreFees(taxes, ctx, k - 1);
      assert ComputedAll(taxes, ctx)[..k][..k - 1] == ComputedAll(taxes, ctx)[..k - 1];
      assert taxes[..k][..k - 1] == taxes[..k - 1];
    }
  }

  lemma {:induction false} CompleteAt(taxes: seq<TaxInput>, i: nat)
    requires Complete(taxes) && i < |taxes|
    ensures !MissesAmount(taxes[i])
  {
  }

  lemma EngineMeetsEquation(taxes: seq<TaxInput>, ctx: Context, i: nat)
    requires UniqueCodes(taxes) && i < |taxes| && !MissesAmount(taxes[i])
    requires ChargedUnder(ComputedAll(taxes, ctx), T(2)) == TableTax(taxes, ctx)
    requires ChargedUnder(ComputedAll(taxes, ctx), T(3)) == FixedAmount(taxes, T(3))
    ensures EtaEquation(taxes[i], ctx, ComputedAll(taxes, ctx), TotalFees(taxes, ctx.net), Amount(taxes, ctx, Code(taxes[i])))
  {
    hide CodeOf, Percent, FormatMoney, ChargedUnder, TotalFees, Has, First, Last;
    UniqueLookup(taxes, i);
  }

  // With one entry per code the engine's amounts satisfy the equations.
  lemma EngineMeetsEquations(taxes: seq<TaxInput>, ctx: Context)
    requires UniqueCodes(taxes) && Complete(taxes)
    ensures EtaEquations(taxes, ctx, ComputedAll(taxes, ctx), TotalFees(taxes, ctx.net))
  {
    hide CodeOf, EtaEquation, Percent, FormatMoney;
    var charged, fees := ComputedAll(taxes, ctx), TotalFees(taxes, ctx.net);
    FeePartsAreFees(taxes, ctx, |taxes|);
    assert charged[..|taxes|] == charged && taxes[..|taxes|] == taxes;
    ChargedUnderIsAmount(taxes, ctx, |taxes|, T(2));
    ChargedUnderIsAmount(taxes, ctx, |taxes|, T(3));
    forall i | 0 <= i < |taxes| ensures EtaEquation(taxes[i], ctx, charged, fees, charged[i].amount) {
      CompleteAt(taxes, i);
      EngineMeetsEquation(taxes, ctx, i);
    }
  }

  lemma {:induction false} AgreeUnder(a: seq<TaxComputed>, b: seq<TaxComputed>, code: TaxCode)
    requires |a| == |b| && forall i :: 0 <= i < |a| ==> a[i].taxType == b[i].taxType
    requires forall i :: 0 <= i < |a| && CodeOf(a[i].taxType) == code ==> a[i].amount == b[i].amount
    ensures ChargedUnder(a, code) == ChargedUnder(b, code)
  {
    hide CodeOf;
    if a != [] { AgreeUnder(a[..|a| - 1], b[..|b| - 1], code); }
  }

  lemma {:induction false} AgreeOnFees(a: seq<TaxComputed>, b: seq<TaxComputed>)
    requires |a| == |b| && forall i :: 0 <= i < |a| ==> a[i].taxType == b[i].taxType
    requires forall i :: 0 <= i < |a| && IsTaxableFee(CodeOf(a[i].taxType)) ==> a[i].amount == b[i].amount
    ensures Sum(a, TaxableFeePart) == Sum(b, TaxableFeePart)
  {
    hide CodeOf;
    if a != [] { AgreeOnFees(a[..|a| - 1], b[..|b| - 1]); }
  }

  // The equations leave no freedom, whatever codes are listed: two solutions charge the same amounts.
  lemma EquationsDetermineAmounts(taxes: seq<TaxInput>, ctx: Context,
                                  a: seq<TaxComputed>, feesA: int, b: seq<TaxComputed>, feesB: int)
    requires EtaEquations(taxes, ctx, a, feesA) && EtaEquations(taxes, ctx, b, feesB)
    ensures feesA == feesB && forall i :: 0 <= i < |taxes| ==> a[i].amount == b[i].amount
  {
    hide CodeOf, Percent, FormatMoney, ChargedUnder;
    forall i | 0 <= i < |taxes|
      ensures EtaEquation(taxes[i], ctx, a, feesA, a[i].amount) && EtaEquation(taxes[i], ctx, b, feesB, b[i].amount)
      ensures CodeOf(a[i].taxType) == Code(taxes[i])
    {}
    AgreeOnFees(a, b);
    AgreeUnder(a, b, T(3));
    AgreeUnder(a, b, T(2));
  }
}
