/**
 Line tax computation (calculate-totals.ts).

 `Amount` says what each code is charged for every list of taxes, repeated codes included: the last entry
 wins for fixed amounts, T2 and T1, the first entry wins for fees, T4 and unlisted codes. The method runs
 the service's four passes over a map of amounts and is proved against it.
 */
module TaxEngine {
  import opened Wrappers
  import opened Sums
  import opened Money
  import opened TaxModes

  // A percentage as written; `dotted` when its text has a decimal point.
  datatype Rate = Rate(percent: real, dotted: bool)

  datatype TaxInput = TaxInput(taxType: string, subType: string, rate: Rate, amount: Option<real>)

  datatype TaxComputed = TaxComputed(taxType: string, subType: string, rate: Rate, amount: int, deductible: bool)

  datatype Context = Context(net: int, itemsDiscount: int, valueDifference: int)

  datatype LineError = DuplicateTaxTypes(types: seq<string>) | FixedAmountMissing(taxType: string)

  function DisplayRate(rate: Rate): Rate {
    if rate.dotted then Rate(ToPounds(FormatMoney(rate.percent)), true) else rate
  }

  function Code(t: TaxInput): TaxCode {
    CodeOf(t.taxType)
  }

  predicate Has(taxes: seq<TaxInput>, code: TaxCode) {
    taxes != [] && (Code(taxes[|taxes| - 1]) == code || Has(taxes[..|taxes| - 1], code))
  }

  function First(taxes: seq<TaxInput>, code: TaxCode): (t: TaxInput)
    requires Has(taxes, code)
    ensures t in taxes && Code(t) == code
  {
    var n := |taxes| - 1;
    if Has(taxes[..n], code) then First(taxes[..n], code) else taxes[n]
  }

  function Last(taxes: seq<TaxInput>, code: TaxCode): (t: TaxInput)
    requires Has(taxes, code)
    ensures t in taxes && Code(t) == code
  {
    var n := |taxes| - 1;
    if Code(taxes[n]) == code then taxes[n] else Last(taxes[..n], code)
  }

  // An explicit amount wins for fixed-amount types; otherwise the rate is applied to a base.
  function TaxAmountFrom(t: TaxInput, base: int): int {
    if IsFixedAmount(Code(t)) && t.amount.Some? then FormatMoney(t.amount.value)
    else Percent(base, t.rate.percent)
  }

  // ----- what each code is charged -----

  function FixedAmount(taxes: seq<TaxInput>, code: TaxCode): int {
    if Has(taxes, code) && Last(taxes, code).amount.Some? then FormatMoney(Last(taxes, code).amount.value) else 0
  }

  function FeeAmount(taxes: seq<TaxInput>, net: int, code: TaxCode): int {
    if IsFixedAmount(code) then FixedAmount(taxes, code)
    else if Has(taxes, code) then Percent(net, First(taxes, code).rate.percent)
    else 0
  }

  function FeeTerm(taxes: seq<TaxInput>, net: int, t: TaxInput): int {
    if IsTaxableFee(Code(t)) then FeeAmount(taxes, net, Code(t)) else 0
  }

  function TotalFees(taxes: seq<TaxInput>, net: int): int {
    Sum(taxes, t => FeeTerm(taxes, net, t))
  }

  function FeeBase(taxes: seq<TaxInput>, ctx: Context): int {
    ctx.net + TotalFees(taxes, ctx.net) + ctx.valueDifference
  }

  function TableTax(taxes: seq<TaxInput>, ctx: Context): int {
    if Has(taxes, T(2))
    then Percent(FeeBase(taxes, ctx) + FixedAmount(taxes, T(3)), Last(taxes, T(2)).rate.percent)
    else 0
  }

  function ValueAddedTax(taxes: seq<TaxInput>, ctx: Context): int {
    if Has(taxes, T(1))
    then Percent(FeeBase(taxes, ctx) + FixedAmount(taxes, T(3)) + TableTax(taxes, ctx), Last(taxes, T(1)).rate.percent)
    else 0
  }

  function Amount(taxes: seq<TaxInput>, ctx: Context, code: TaxCode): int {
    if IsFixedAmount(code) || IsTaxableFee(code) || IsNonTaxableFee(code) then FeeAmount(taxes, ctx.net, code)
    else if code == T(2) then TableTax(taxes, ctx)
    else if code == T(1) then ValueAddedTax(taxes, ctx)
    else if !Has(taxes, code) then 0
    else Percent(if code == T(4) then ctx.net - ctx.itemsDiscount else FeeBase(taxes, ctx), First(taxes, code).rate.percent)
  }

  predicate MissesAmount(t: TaxInput) {
    IsFixedAmount(Code(t)) && t.amount.None?
  }

  function FirstMissing(taxes: seq<TaxInput>): (t: Option<TaxInput>)
    ensures t.None? <==> forall i :: 0 <= i < |taxes| ==> !MissesAmount(taxes[i])
  {
    if taxes == [] then None
    else if FirstMissing(taxes[..|taxes| - 1]).Some? then FirstMissing(taxes[..|taxes| - 1])
    else if MissesAmount(taxes[|taxes| - 1]) then Some(taxes[|taxes| - 1])
    else None
  }

  lemma {:induction false} FirstMissingStable(taxes: seq<TaxInput>, i: nat)
    requires i <= |taxes| && FirstMissing(taxes[..i]).Some?
    ensures FirstMissing(taxes) == FirstMissing(taxes[..i])
  {
    hide CodeOf;
    if i == |taxes| {
      assert taxes[..i] == taxes;
    } else {
      var n := |taxes| - 1;
      assert taxes[..n][..i] == taxes[..i];
      FirstMissingStable(taxes[..n], i);
    }
  }

  function Computed(taxes: seq<TaxInput>, ctx: Context, t: TaxInput): TaxComputed {
    TaxComputed(t.taxType, t.subType, DisplayRate(t.rate), Amount(taxes, ctx, Code(t)), IsDeductible(Code(t)))
  }

  function ComputedAll(taxes: seq<TaxInput>, ctx: Context): (r: seq<TaxComputed>)
    ensures |r| == |taxes|
    ensures forall i :: 0 <= i < |r| ==> r[i] == Computed(taxes, ctx, taxes[i])
  {
    seq(|taxes|, i requires 0 <= i < |taxes| => Computed(taxes, ctx, taxes[i]))
  }

  lemma {:induction false} FirstStable(taxes: seq<TaxInput>, i: nat, code: TaxCode)
    requires i <= |taxes| && Has(taxes[..i], code)
    ensures Has(taxes, code) && First(taxes, code) == First(taxes[..i], code)
  {
    if i == |taxes| {
      assert taxes[..i] == taxes;
    } else {
      var n := |taxes| - 1;
      assert taxes[..n][..i] == taxes[..i];
      FirstStable(taxes[..n], i, code);
    }
  }

  lemma {:induction false} HasMember(taxes: seq<TaxInput>, i: nat)
    requires i < |taxes|
    ensures Has(taxes, Code(taxes[i]))
  {
    var n := |taxes| - 1;
    if i < n { HasMember(taxes[..n], i); }
  }

  // ----- the four passes over the map of amounts -----

  // Codes charged before the last pass.
  predicate Early(c: TaxCode) {
    IsFixedAmount(c) || IsTaxableFee(c) || IsNonTaxableFee(c) || c == T(1) || c == T(2)
  }

  method ChargeFixedAmounts(taxes: seq<TaxInput>) returns (r: Result<map<TaxCode, int>, LineError>)
    ensures r.Err? <==> FirstMissing(taxes).Some?
    ensures r.Err? ==> r.error == FixedAmountMissing(FirstMissing(taxes).value.taxType)
    ensures r.Ok? ==> forall c :: c in r.value <==> IsFixedAmount(c) && Has(taxes, c)
    ensures r.Ok? ==> forall c <- r.value :: r.value[c] == FixedAmount(taxes, c)
  {
    hide CodeOf;
    var amounts: map<TaxCode, int> := map[];
    for i := 0 to |taxes|
      invariant FirstMissing(taxes[..i]).None?
      invariant forall c {:trigger c in amounts} :: c in amounts <==> IsFixedAmount(c) && Has(taxes[..i], c)
      invariant forall c {:trigger amounts[c]} | c in amounts :: amounts[c] == FixedAmount(taxes[..i], c)
    {
      var t := taxes[i];
      assert taxes[..i + 1][..i] == taxes[..i];
      if IsFixedAmount(Code(t)) {
        if t.amount.None? {
          FirstMissingStable(taxes, i + 1);
          return Err(FixedAmountMissing(t.taxType));
        }
        amounts := amounts[Code(t) := FormatMoney(t.amount.value)];
      }
    }
    assert taxes[..|taxes|] == taxes;
    return Ok(amounts);
  }

  method ChargeFees(taxes: seq<TaxInput>, net: int, fixed: map<TaxCode, int>)
    returns (amounts: map<TaxCode, int>, totalTaxableFees: int)
    requires forall c {:trigger c in fixed} :: c in fixed <==> IsFixedAmount(c) && Has(taxes, c)
    requires forall c {:trigger fixed[c]} | c in fixed :: fixed[c] == FixedAmount(taxes, c)
    ensures forall c {:trigger c in amounts} ::
              c in amounts <==> (IsFixedAmount(c) || IsTaxableFee(c) || IsNonTaxableFee(c)) && Has(taxes, c)
    ensures forall c {:trigger amounts[c]} | c in amounts :: amounts[c] == FeeAmount(taxes, net, c)
    ensures totalTaxableFees == TotalFees(taxes, net)
  {
    hide CodeOf;
    amounts := fixed;
    totalTaxableFees := 0;
    for i := 0 to |taxes|
      invariant forall c {:trigger c in amounts} :: c in amounts <==>
                  (IsFixedAmount(c) && Has(taxes, c)) || ((IsTaxableFee(c) || IsNonTaxableFee(c)) && Has(taxes[..i], c))
      invariant forall c {:trigger amounts[c]} | c in amounts :: amounts[c] == FeeAmount(taxes, net, c)
      invariant totalTaxableFees == Sum(taxes[..i], t => FeeTerm(taxes, net, t))
    {
      var t := taxes[i];
      var code := Code(t);
      HasMember(taxes, i);
      assert taxes[..i + 1][..i] == taxes[..i];
      FirstStable(taxes, i + 1, code);
      forall c | Has(taxes[..i], c) ensures Has(taxes, c) { FirstStable(taxes, i, c); }
      if code !in amounts && (IsTaxableFee(code) || IsNonTaxableFee(code)) {
        amounts := amounts[code := TaxAmountFrom(t, net)];
      }
      if IsTaxableFee(code) {
        totalTaxableFees := totalTaxableFees + if code in amounts then amounts[code] else 0;
      }
    }
    assert taxes[..|taxes|] == taxes;
  }

  method IndexByCode(taxes: seq<TaxInput>) returns (byCode: map<TaxCode, TaxInput>)
    ensures forall c {:trigger c in byCode} :: c in byCode <==> Has(taxes, c)
    ensures forall c {:trigger byCode[c]} | c in byCode :: byCode[c] == Last(taxes, c)
  {
    hide CodeOf;
    byCode := map[];
    for i := 0 to |taxes|
      invariant forall c {:trigger c in byCode} :: c in byCode <==> Has(taxes[..i], c)
      invariant forall c {:trigger byCode[c]} | c in byCode :: byCode[c] == Last(taxes[..i], c)
    {
      assert taxes[..i + 1][..i] == taxes[..i];
      byCode := byCode[Code(taxes[i]) := taxes[i]];
    }
    assert taxes[..|taxes|] == taxes;
  }

  method ChargeTableAndValueAdded(taxes: seq<TaxInput>, ctx: Context, feeBase: int, fees: map<TaxCode, int>)
    returns (amounts: map<TaxCode, int>)
    requires feeBase == FeeBase(taxes, ctx)
    requires forall c {:trigger c in fees} ::
              c in fees <==> (IsFixedAmount(c) || IsTaxableFee(c) || IsNonTaxableFee(c)) && Has(taxes, c)
    requires forall c {:trigger fees[c]} | c in fees :: fees[c] == FeeAmount(taxes, ctx.net, c)
    ensures forall c {:trigger c in amounts} :: c in amounts <==> Early(c) && Has(taxes, c)
    ensures forall c {:trigger amounts[c]} | c in amounts :: amounts[c] == Amount(taxes, ctx, c)
  {
    hide CodeOf;
    amounts := fees;
    var byCode := IndexByCode(taxes);
    var t3 := if T(3) in amounts then amounts[T(3)] else 0;
    assert t3 == FixedAmount(taxes, T(3));
    if T(2) in byCode && T(2) !in amounts {
      amounts := amounts[T(2) := TaxAmountFrom(byCode[T(2)], feeBase + t3)];
      assert amounts[T(2)] == TableTax(taxes, ctx);
    }
    var t2 := if T(2) in amounts then amounts[T(2)] else 0;
    assert t2 == TableTax(taxes, ctx);
    if T(1) in byCode && T(1) !in amounts {
      amounts := amounts[T(1) := TaxAmountFrom(byCode[T(1)], feeBase + t3 + t2)];
      assert amounts[T(1)] == ValueAddedTax(taxes, ctx);
    }
  }

  method ChargeRemaining(taxes: seq<TaxInput>, ctx: Context, feeBase: int, early: map<TaxCode, int>)
    returns (amounts: map<TaxCode, int>)
    requires feeBase == FeeBase(taxes, ctx)
    requires forall c {:trigger c in early} :: c in early <==> Early(c) && Has(taxes, c)
    requires forall c {:trigger early[c]} | c in early :: early[c] == Amount(taxes, ctx, c)
    ensures forall c {:trigger c in amounts} :: c in amounts <==> Has(taxes, c)
    ensures forall c {:trigger amounts[c]} | c in amounts :: amounts[c] == Amount(taxes, ctx, c)
  {
    hide CodeOf;
    amounts := early;
    for i := 0 to |taxes|
      invariant forall c {:trigger c in amounts} :: c in amounts <==> Has(taxes[..i], c) || (Has(taxes, c) && Early(c))
      invariant forall c {:trigger amounts[c]} | c in amounts :: amounts[c] == Amount(taxes, ctx, c)
    {
      var t := taxes[i];
      var code := Code(t);
      HasMember(taxes, i);
      assert taxes[..i + 1][..i] == taxes[..i];
      FirstStable(taxes, i + 1, code);
      if code in amounts { continue; }
      var base := if code == T(4) then ctx.net - ctx.itemsDiscount else feeBase;
      amounts := amounts[code := TaxAmountFrom(t, base)];
    }
    assert taxes[..|taxes|] == taxes;
  }

  method ComputeTaxAmounts(taxes: seq<TaxInput>, ctx: Context)
    returns (r: Result<(seq<TaxComputed>, int), LineError>)
    ensures r.Err? <==> FirstMissing(taxes).Some?
    ensures r.Err? ==> r.error == FixedAmountMissing(FirstMissing(taxes).value.taxType)
    ensures r.Ok? ==> r.value == (ComputedAll(taxes, ctx), TotalFees(taxes, ctx.net))
  {
    hide CodeOf;
    var fixed := ChargeFixedAmounts(taxes);
    if fixed.Err? {
      return Err(fixed.error);
    }
    var fees, totalTaxableFees := ChargeFees(taxes, ctx.net, fixed.value);
    var feeBase := ctx.net + totalTaxableFees + ctx.valueDifference;
    var early := ChargeTableAndValueAdded(taxes, ctx, feeBase, fees);
    var amounts := ChargeRemaining(taxes, ctx, feeBase, early);
    var taxAmounts := [];
    for i := 0 to |taxes|
      invariant |taxAmounts| == i
      invariant forall j :: 0 <= j < i ==> taxAmounts[j] == Computed(taxes, ctx, taxes[j])
    {
      var t := taxes[i];
      HasMember(taxes, i);
      taxAmounts := taxAmounts + [TaxComputed(t.taxType, t.subType, DisplayRate(t.rate),
                                              if Code(t) in amounts then amounts[Code(t)] else 0,
                                              IsDeductible(Code(t)))];
    }
    assert taxAmounts == ComputedAll(taxes, ctx);
    return Ok((taxAmounts, totalTaxableFees));
  }
}
