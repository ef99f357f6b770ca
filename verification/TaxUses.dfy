/**
 Exactly when the order of a line's taxes matters. Of all entries with one code the engine uses one amount or one
 rate: the last entry's for fixed amounts, T2 and T1, the first entry's otherwise. Two lists with the same codes
 charge alike in every context exactly when they use the same, except that a T2 of -100 percent leaves nothing for
 T1 to be charged on.
 */
module TaxUses {
  import opened Sums
  import opened Money
  import opened TaxModes
  import opened TaxEngine
  import opened TaxProperties

  datatype Use = Unused | AtAmount(piasters: int) | AtRate(percent: real)

  function EntryUse(t: TaxInput): Use {
    if IsFixedAmount(Code(t)) then AtAmount(if t.amount.Some? then FormatMoney(t.amount.value) else 0)
    else AtRate(t.rate.percent)
  }

  predicate UsesLast(c: TaxCode) {
    IsFixedAmount(c) || c == T(1) || c == T(2)
  }

  function UseOf(taxes: seq<TaxInput>, c: TaxCode): Use {
    if !Has(taxes, c) then Unused
    else EntryUse(if UsesLast(c) then Last(taxes, c) else First(taxes, c))
  }

  function Codes(taxes: seq<TaxInput>): (cs: seq<TaxCode>)
    ensures |cs| == |taxes| && forall i :: 0 <= i < |cs| ==> cs[i] == Code(taxes[i])
  {
    seq(|taxes|, i requires 0 <= i < |taxes| => Code(taxes[i]))
  }

  // T2 takes back the whole base of T1.
  predicate TableCancels(taxes: seq<TaxInput>) {
    UseOf(taxes, T(2)) == AtRate(-100.0)
  }

  ghost predicate SameUses(a: seq<TaxInput>, b: seq<TaxInput>) {
    forall c :: UseOf(a, c) == UseOf(b, c) || (c == T(1) && TableCancels(a))
  }

  ghost predicate ChargeAlike(a: seq<TaxInput>, b: seq<TaxInput>) {
    forall ctx, c :: Amount(a, ctx, c) == Amount(b, ctx, c)
  }

  // ----- the fee total by codes -----

  function CodeFee(taxes: seq<TaxInput>, net: int, c: TaxCode): int {
    if IsTaxableFee(c) then FeeAmount(taxes, net, c) else 0
  }

  lemma {:induction false} FeesByCode(taxes: seq<TaxInput>, net: int, k: nat)
    requires k <= |taxes|
    ensures Sum(taxes[..k], t => FeeTerm(taxes, net, t)) == Sum(Codes(taxes)[..k], c => CodeFee(taxes, net, c))
    decreases k
  {
    hide CodeOf, FeeAmount;
    if k > 0 {
      FeesByCode(taxes, net, k - 1);
      assert taxes[..k][..k - 1] == taxes[..k - 1] && Codes(taxes)[..k][..k - 1] == Codes(taxes)[..k - 1];
    }
  }

  lemma SameFees(a: seq<TaxInput>, b: seq<TaxInput>, net: int)
    requires multiset(Codes(a)) == multiset(Codes(b))
    requires forall c :: IsTaxableFee(c) ==> FeeAmount(a, net, c) == FeeAmount(b, net, c)
    ensures TotalFees(a, net) == TotalFees(b, net)
  {
    hide CodeOf, FeeAmount;
    FeesByCode(a, net, |a|);
    FeesByCode(b, net, |b|);
    assert a[..|a|] == a && b[..|b|] == b && Codes(a)[..|a|] == Codes(a) && Codes(b)[..|b|] == Codes(b);
    SumPermutation(Codes(a), Codes(b), c => CodeFee(a, net, c));
    SumCongruence(Codes(b), c => CodeFee(a, net, c), c => CodeFee(b, net, c));
  }

  // ----- the same uses charge alike -----

  lemma UseDecidesFee(a: seq<TaxInput>, b: seq<TaxInput>, net: int, c: TaxCode)
    requires UseOf(a, c) == UseOf(b, c) && c != T(1) && c != T(2)
    ensures FeeAmount(a, net, c) == FeeAmount(b, net, c)
    ensures FixedAmount(a, T(3)) == FixedAmount(b, T(3)) || c != T(3)
  {
    hide CodeOf, FormatMoney, Percent;
  }

  lemma UsesDecideBases(a: seq<TaxInput>, b: seq<TaxInput>, ctx: Context)
    requires multiset(Codes(a)) == multiset(Codes(b)) && SameUses(a, b)
    ensures TotalFees(a, ctx.net) == TotalFees(b, ctx.net)
    ensures FixedAmount(a, T(3)) == FixedAmount(b, T(3))
    ensures TableTax(a, ctx) == TableTax(b, ctx)
  {
    hide CodeOf, Percent, FormatMoney, FeeAmount, FixedAmount, TotalFees, Has, First, Last;
    forall c: TaxCode | IsTaxableFee(c) ensures FeeAmount(a, ctx.net, c) == FeeAmount(b, ctx.net, c) {
      assert UseOf(a, c) == UseOf(b, c);
      UseDecidesFee(a, b, ctx.net, c);
    }
    SameFees(a, b, ctx.net);
    assert UseOf(a, T(3)) == UseOf(b, T(3));
    UseDecidesFee(a, b, ctx.net, T(3));
    assert UseOf(a, T(2)) == UseOf(b, T(2));
  }

  lemma NothingOfCancelled(x: int, rate: real)
    ensures x + Percent(x, -100.0) == 0 && Percent(0, rate) == 0
  {
    assert x as real * -100.0 / 100.0 == (-x) as real;
    RoundInteger(-x);
    assert 0 as real * rate / 100.0 == 0.0;
  }

  lemma CancelledValueAdded(taxes: seq<TaxInput>, ctx: Context)
    requires TableCancels(taxes)
    ensures ValueAddedTax(taxes, ctx) == 0
  {
    hide CodeOf, Percent, FeeBase, FixedAmount, First;
    NothingOfCancelled(FeeBase(taxes, ctx) + FixedAmount(taxes, T(3)),
                       if Has(taxes, T(1)) then Last(taxes, T(1)).rate.percent else 0.0);
  }

  lemma UsesDecideCharges(a: seq<TaxInput>, b: seq<TaxInput>, ctx: Context, c: TaxCode)
    requires multiset(Codes(a)) == multiset(Codes(b)) && SameUses(a, b)
    ensures Amount(a, ctx, c) == Amount(b, ctx, c)
  {
    hide CodeOf, Percent, FormatMoney, FeeAmount, FixedAmount, TotalFees, TableTax;
    UsesDecideBases(a, b, ctx);
    assert UseOf(a, T(2)) == UseOf(b, T(2));
    if c == T(1) && TableCancels(a) {
      CancelledValueAdded(a, ctx);
      CancelledValueAdded(b, ctx);
    } else {
      assert UseOf(a, c) == UseOf(b, c);
      if c != T(1) && c != T(2) { UseDecidesFee(a, b, ctx.net, c); }
    }
  }

  // ----- different uses charge apart -----

  lemma Scale(x: real, d: real, y: real)
    requires d > 0.0 && x >= y / d
    ensures x * d >= y
  {
    assert (x - y / d) * d >= 0.0;
    assert y / d * d == y;
  }

  predicate Far(base: int, bound: int) { base >= bound || base <= -bound }

  // Any base far enough from zero tells two rates apart.
  lemma RatesApart(p: real, q: real) returns (bound: int)
    requires p != q
    ensures bound > 0 && forall base: int :: Far(base, bound) ==> Percent(base, p) != Percent(base, q)
  {
    var d := if p > q then p - q else q - p;
    bound := (200.0 / d).Floor + 1;
    assert 200.0 / d >= 0.0 by { Quotient(200.0, d); }
    forall base: int | Far(base, bound) ensures Percent(base, p) != Percent(base, q) {
      FarApart(base, p, q, d, bound);
    }
  }

  lemma Quotient(y: real, d: real)
    requires d > 0.0 && y >= 0.0
    ensures y / d >= 0.0
  {
  }

  lemma FarApart(base: int, p: real, q: real, d: real, bound: int)
    requires d > 0.0 && (p == q + d || q == p + d) && bound as real >= 200.0 / d && Far(base, bound)
    ensures Percent(base, p) != Percent(base, q)
  {
    var x := base as real;
    assert x * (q + d) == x * q + x * d && x * (p + d) == x * p + x * d;
    if base >= bound {
      Scale(x, d, 200.0);
    } else {
      Scale(-x, d, 200.0);
      assert -x * d == -(x * d);
    }
  }

  // The base left for T1 when T2 is charged on x.
  function LeftForT1(x: int, table: Use): int {
    if table.AtRate? then x + Percent(x, table.percent) else x
  }

  // Unless T2 takes everything back, that base can be as large as one likes.
  lemma LargeLeft(table: Use, bound: int) returns (x: int)
    requires table != AtRate(-100.0) && bound > 0
    ensures Far(LeftForT1(x, table), bound)
  {
    if table.AtRate? {
      var f := 1.0 + table.percent / 100.0;
      var d := if f > 0.0 then f else -f;
      x := ((bound as real + 1.0) / d).Floor + 1;
      Scale(x as real, d, bound as real + 1.0);
      assert x as real * f == x as real + x as real * table.percent / 100.0;
      assert f > 0.0 || x as real * f == -(x as real * d);
    } else {
      x := bound;
    }
  }

  // A context in which everything is charged on nothing but a value difference.
  function OnlyDifference(v: int): Context { Context(0, 0, v) }

  lemma CodesDecideHas(a: seq<TaxInput>, b: seq<TaxInput>, c: TaxCode)
    requires multiset(Codes(a)) == multiset(Codes(b))
    ensures Has(a, c) <==> Has(b, c)
  {
    hide CodeOf;
    HasIsListed(a, c);
    HasIsListed(b, c);
    assert c in multiset(Codes(a)) <==> c in multiset(Codes(b));
  }

  lemma HasIsListed(a: seq<TaxInput>, c: TaxCode)
    ensures Has(a, c) <==> c in Codes(a)
  {
    hide CodeOf;
    if Has(a, c) {
      var i := HasIndex(a, c);
      assert Codes(a)[i] == c;
    }
    if c in Codes(a) {
      var i :| 0 <= i < |a| && Codes(a)[i] == c;
      HasMember(a, i);
    }
  }

  lemma AlikeFees(a: seq<TaxInput>, b: seq<TaxInput>, net: int)
    requires multiset(Codes(a)) == multiset(Codes(b)) && ChargeAlike(a, b)
    ensures TotalFees(a, net) == TotalFees(b, net)
  {
    hide CodeOf, FeeAmount;
    forall c: TaxCode | IsTaxableFee(c) ensures FeeAmount(a, net, c) == FeeAmount(b, net, c) {
      assert Amount(a, Context(net, 0, 0), c) == Amount(b, Context(net, 0, 0), c);
    }
    SameFees(a, b, net);
  }

  // The difference that makes the fee base x.
  function FeeBaseOf(taxes: seq<TaxInput>, x: int): Context {
    OnlyDifference(x - TotalFees(taxes, 0))
  }

  // What a code other than a fixed one, T1 and T2 is charged on.
  function ContextFor(taxes: seq<TaxInput>, c: TaxCode, base: int): Context {
    if IsTaxableFee(c) || IsNonTaxableFee(c) || c == T(4) then Context(base, 0, 0) else FeeBaseOf(taxes, base)
  }

  lemma ChargedOn(taxes: seq<TaxInput>, c: TaxCode, base: int)
    requires Has(taxes, c) && !UsesLast(c)
    ensures Amount(taxes, ContextFor(taxes, c, base), c) == Percent(base, First(taxes, c).rate.percent)
  {
    hide CodeOf, Percent, TotalFees, FormatMoney;
  }

  lemma AlikeUse(a: seq<TaxInput>, b: seq<TaxInput>, c: TaxCode)
    requires multiset(Codes(a)) == multiset(Codes(b)) && ChargeAlike(a, b) && c != T(1) && c != T(2)
    ensures UseOf(a, c) == UseOf(b, c)
  {
    hide CodeOf, Percent, FormatMoney, TotalFees, Amount, First, Last;
    CodesDecideHas(a, b, c);
    if Has(a, c) {
      if IsFixedAmount(c) {
        FixedIsCharged(a, c);
        FixedIsCharged(b, c);
        assert Amount(a, OnlyDifference(0), c) == Amount(b, OnlyDifference(0), c);
      } else {
        var p, q := First(a, c).rate.percent, First(b, c).rate.percent;
        if p != q {
          var base := RatesApart(p, q);
          AlikeFees(a, b, 0);
          ChargedOn(a, c, base);
          ChargedOn(b, c, base);
          assert false;
        }
      }
    }
  }

  lemma FixedIsCharged(taxes: seq<TaxInput>, c: TaxCode)
    requires IsFixedAmount(c) && Has(taxes, c)
    ensures UseOf(taxes, c) == AtAmount(Amount(taxes, OnlyDifference(0), c))
  {
    hide CodeOf, FormatMoney;
  }

  // T2 is charged on the fee base with T3, and T1 on that with T2.
  function TableContext(taxes: seq<TaxInput>, x: int): Context {
    FeeBaseOf(taxes, x - FixedAmount(taxes, T(3)))
  }

  lemma TableChargedOn(taxes: seq<TaxInput>, x: int)
    ensures var ctx := TableContext(taxes, x);
            && (Has(taxes, T(2)) ==> Amount(taxes, ctx, T(2)) == Percent(x, Last(taxes, T(2)).rate.percent))
            && (Has(taxes, T(1)) ==>
                  Amount(taxes, ctx, T(1)) == Percent(LeftForT1(x, UseOf(taxes, T(2))), Last(taxes, T(1)).rate.percent))
  {
    hide CodeOf, Percent, TotalFees, FixedAmount;
  }

  lemma AlikeTableContext(a: seq<TaxInput>, b: seq<TaxInput>, x: int)
    requires multiset(Codes(a)) == multiset(Codes(b)) && ChargeAlike(a, b)
    ensures TableContext(a, x) == TableContext(b, x)
  {
    hide CodeOf, FormatMoney, TotalFees, Amount, First, Last, Percent;
    AlikeFees(a, b, 0);
    AlikeUse(a, b, T(3));
  }

  lemma AlikeTable(a: seq<TaxInput>, b: seq<TaxInput>)
    requires multiset(Codes(a)) == multiset(Codes(b)) && ChargeAlike(a, b)
    ensures UseOf(a, T(2)) == UseOf(b, T(2))
  {
    hide CodeOf, Percent, TableContext, Amount, First, Last;
    CodesDecideHas(a, b, T(2));
    if Has(a, T(2)) {
      var p, q := Last(a, T(2)).rate.percent, Last(b, T(2)).rate.percent;
      if p != q {
        var x := RatesApart(p, q);
        AlikeTableContext(a, b, x);
        TableChargedOn(a, x);
        TableChargedOn(b, x);
        assert false;
      }
    }
  }

  lemma AlikeValueAdded(a: seq<TaxInput>, b: seq<TaxInput>)
    requires multiset(Codes(a)) == multiset(Codes(b)) && ChargeAlike(a, b)
    ensures UseOf(a, T(1)) == UseOf(b, T(1)) || TableCancels(a)
  {
    hide CodeOf, Percent, TableContext, Amount, First, Last;
    CodesDecideHas(a, b, T(1));
    AlikeTable(a, b);
    if Has(a, T(1)) && !TableCancels(a) {
      var p, q := Last(a, T(1)).rate.percent, Last(b, T(1)).rate.percent;
      if p != q {
        var bound := RatesApart(p, q);
        var x := LargeLeft(UseOf(a, T(2)), bound);
        AlikeTableContext(a, b, x);
        TableChargedOn(a, x);
        TableChargedOn(b, x);
        assert false;
      }
    }
  }

  // Lists of the same codes charge alike in every context exactly when they use the same.
  lemma ChargeAlikeExactly(a: seq<TaxInput>, b: seq<TaxInput>)
    requires multiset(Codes(a)) == multiset(Codes(b))
    ensures ChargeAlike(a, b) <==> SameUses(a, b)
  {
    hide CodeOf, UseOf, Amount, TableCancels;
    if SameUses(a, b) {
      forall ctx, c ensures Amount(a, ctx, c) == Amount(b, ctx, c) {
        UsesDecideCharges(a, b, ctx, c);
      }
    }
    if ChargeAlike(a, b) {
      forall c ensures UseOf(a, c) == UseOf(b, c) || (c == T(1) && TableCancels(a)) {
        if c == T(1) {
          AlikeValueAdded(a, b);
        } else if c == T(2) {
          AlikeTable(a, b);
        } else {
          AlikeUse(a, b, c);
        }
      }
    }
  }

  // ----- permutations -----

  lemma PermutedCodes(a: seq<TaxInput>, b: seq<TaxInput>)
    requires multiset(a) == multiset(b)
    ensures multiset(Codes(a)) == multiset(Codes(b))
  {
    hide CodeOf;
    PermutedMap(a, b, Code);
    assert Codes(a) == Map(a, Code) && Codes(b) == Map(b, Code);
  }

  // The list with entry i taken to the end that its code uses.
  function Prefer(taxes: seq<TaxInput>, i: nat): seq<TaxInput>
    requires i < |taxes|
  {
    if UsesLast(Code(taxes[i])) then Without(taxes, i) + [taxes[i]] else [taxes[i]] + Without(taxes, i)
  }

  lemma PreferPermutes(taxes: seq<TaxInput>, i: nat)
    requires i < |taxes|
    ensures multiset(Prefer(taxes, i)) == multiset(taxes)
  {
    hide CodeOf;
    WithoutMultiset(taxes, i);
    assert taxes[i] in taxes;
  }

  lemma PreferIsUsed(taxes: seq<TaxInput>, i: nat)
    requires i < |taxes|
    ensures UseOf(Prefer(taxes, i), Code(taxes[i])) == EntryUse(taxes[i])
  {
    hide CodeOf, EntryUse, Without;
    var p, c := Prefer(taxes, i), Code(taxes[i]);
    if UsesLast(c) {
      assert p[|p| - 1] == taxes[i];
    } else {
      assert p[..1] == [taxes[i]] && [taxes[i]][..0] == [];
      FirstStable(p, 1, c);
    }
  }

  lemma UseOfSome(taxes: seq<TaxInput>, c: TaxCode)
    requires Has(taxes, c)
    ensures exists t :: t in taxes && Code(t) == c && UseOf(taxes, c) == EntryUse(t)
  {
    hide CodeOf, EntryUse;
    var t := if UsesLast(c) then Last(taxes, c) else First(taxes, c);
    assert t in taxes && Code(t) == c && UseOf(taxes, c) == EntryUse(t);
  }

  // Entries of one code agree in the rate or amount that is used, unless they are T1 entries with nothing left to tax.
  predicate Agreeing(taxes: seq<TaxInput>) {
    forall i, j :: 0 <= i < |taxes| && 0 <= j < |taxes| && Code(taxes[i]) == Code(taxes[j]) ==>
      EntryUse(taxes[i]) == EntryUse(taxes[j]) || (Code(taxes[i]) == T(1) && TableCancels(taxes))
  }

  lemma AgreeingUse(taxes: seq<TaxInput>, b: seq<TaxInput>, c: TaxCode)
    requires Agreeing(taxes) && multiset(taxes) == multiset(b)
    ensures UseOf(taxes, c) == UseOf(b, c) || (c == T(1) && TableCancels(taxes))
  {
    hide CodeOf, EntryUse, TableCancels;
    PermutedCodes(taxes, b);
    CodesDecideHas(taxes, b, c);
    if Has(taxes, c) {
      UseOfSome(taxes, c);
      UseOfSome(b, c);
      var t :| t in taxes && Code(t) == c && UseOf(taxes, c) == EntryUse(t);
      var u :| u in b && Code(u) == c && UseOf(b, c) == EntryUse(u);
      assert u in multiset(taxes);
      var i :| 0 <= i < |taxes| && taxes[i] == t;
      var j :| 0 <= j < |taxes| && taxes[j] == u;
    }
  }

  /** The order of a list never matters, in any context, exactly when the entries of every code agree. */
  lemma OrderNeverMattersExactly(taxes: seq<TaxInput>)
    ensures (forall b :: multiset(b) == multiset(taxes) ==> ChargeAlike(taxes, b)) <==> Agreeing(taxes)
  {
    hide CodeOf, EntryUse, UseOf, ChargeAlike, TableCancels;
    if Agreeing(taxes) {
      forall b | multiset(b) == multiset(taxes) ensures ChargeAlike(taxes, b) {
        PermutedCodes(taxes, b);
        forall c ensures UseOf(taxes, c) == UseOf(b, c) || (c == T(1) && TableCancels(taxes)) {
          AgreeingUse(taxes, b, c);
        }
        ChargeAlikeExactly(taxes, b);
      }
    }
    if forall b :: multiset(b) == multiset(taxes) ==> ChargeAlike(taxes, b) {
      forall i, j | 0 <= i < |taxes| && 0 <= j < |taxes| && Code(taxes[i]) == Code(taxes[j])
        ensures EntryUse(taxes[i]) == EntryUse(taxes[j]) || (Code(taxes[i]) == T(1) && TableCancels(taxes))
      {
        PreferredAgrees(taxes, i);
        PreferredAgrees(taxes, j);
      }
    }
  }

  lemma PreferredAgrees(taxes: seq<TaxInput>, i: nat)
    requires i < |taxes| && forall b :: multiset(b) == multiset(taxes) ==> ChargeAlike(taxes, b)
    ensures UseOf(taxes, Code(taxes[i])) == EntryUse(taxes[i]) || (Code(taxes[i]) == T(1) && TableCancels(taxes))
  {
    hide CodeOf, EntryUse, UseOf, ChargeAlike, TableCancels, Prefer;
    PreferPermutes(taxes, i);
    PreferIsUsed(taxes, i);
    PermutedCodes(taxes, Prefer(taxes, i));
    ChargeAlikeExactly(taxes, Prefer(taxes, i));
    assert UseOf(taxes, Code(taxes[i])) == UseOf(Prefer(taxes, i), Code(taxes[i]))
           || (Code(taxes[i]) == T(1) && TableCancels(taxes));
  }
}
