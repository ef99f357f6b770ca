/**
 Storing a computed line and recalculating it from its stored columns (documents.service.ts). Money is
 stored rounded, a dotted rate is stored as displayed, fixed-amount taxes come back with rate 0 and their
 amount, and the tax rows come back in no particular order.
 */
module Recalculation {
  import opened Wrappers
  import opened Sums
  import Text
  import opened Money
  import opened TaxModes
  import opened TaxEngine
  import opened TaxProperties
  import opened TaxOrder
  import opened TaxUses
  import opened InvoiceLines

  datatype StoredTax = StoredTax(taxType: string, subType: string, rate: Rate, amount: int)

  datatype StoredLine = StoredLine(
    quantity: real,
    unitPrice: real,
    discountRate: Option<real>,
    discountAmount: int,
    salesTotal: int,
    netTotal: int,
    total: int,
    valueDifference: int,
    totalTaxableFees: int,
    itemsDiscount: int,
    taxes: seq<StoredTax>)

  function StoreTaxes(charged: seq<TaxComputed>): (ts: seq<StoredTax>)
    ensures |ts| == |charged|
    ensures forall i :: 0 <= i < |ts| ==>
              ts[i] == StoredTax(charged[i].taxType, charged[i].subType, charged[i].rate, charged[i].amount)
  {
    seq(|charged|, i requires 0 <= i < |charged| =>
      StoredTax(charged[i].taxType, charged[i].subType, charged[i].rate, charged[i].amount))
  }

  function Store(input: LineInput, c: LineComputed): StoredLine {
    StoredLine(input.quantity, input.unitPrice, input.discountRate, c.discount, c.salesTotal, c.netTotal, c.total,
               c.valueDifference, c.totalTaxableFees, c.itemsDiscount, StoreTaxes(c.taxAmounts))
  }

  function LoadTax(t: StoredTax): TaxInput {
    if IsFixedAmount(CodeOf(t.taxType))
    then TaxInput(t.taxType, t.subType, Rate(0.0, false), Some(ToPounds(t.amount)))
    else TaxInput(t.taxType, t.subType, t.rate, None)
  }

  function LoadTaxes(taxes: seq<StoredTax>): (ts: seq<TaxInput>)
    ensures |ts| == |taxes| && forall i :: 0 <= i < |ts| ==> ts[i] == LoadTax(taxes[i])
  {
    seq(|taxes|, i requires 0 <= i < |taxes| => LoadTax(taxes[i]))
  }

  function Load(s: StoredLine): LineInput {
    LineInput(s.quantity, s.unitPrice, Some(ToPounds(s.discountAmount)), s.discountRate, LoadTaxes(s.taxes),
              Some(ToPounds(s.itemsDiscount)), Some(ToPounds(s.valueDifference)))
  }

  function Recalculated(s: StoredLine): Result<LineComputed, LineError> {
    Calculated(Load(s))
  }

  // What a query may return for a stored line: its tax rows in any order.
  predicate ReadBack(stored: StoredLine, read: StoredLine) {
    read == stored.(taxes := read.taxes) && multiset(read.taxes) == multiset(stored.taxes)
  }

  // ----- what a reloaded list uses -----

  function Stored(taxes: seq<TaxInput>, ctx: Context): seq<StoredTax> {
    StoreTaxes(ComputedAll(taxes, ctx))
  }

  // A row of a stored list, and what its entry uses once loaded.
  lemma RowOf(taxes: seq<TaxInput>, ctx: Context, rows: seq<StoredTax>, k: nat) returns (i: nat)
    requires multiset(rows) == multiset(Stored(taxes, ctx)) && k < |rows|
    ensures i < |taxes| && rows[k] == Stored(taxes, ctx)[i] && Code(LoadTaxes(rows)[k]) == Code(taxes[i])
  {
    hide CodeOf, ComputedAll, LoadTax;
    i := Member(rows, Stored(taxes, ctx), k);
    LoadKeepsType(rows[k]);
    ComputedType(taxes, ctx, i);
  }

  lemma LoadKeepsType(row: StoredTax)
    ensures LoadTax(row).taxType == row.taxType
  {
  }

  lemma ComputedType(taxes: seq<TaxInput>, ctx: Context, i: nat)
    requires i < |taxes|
    ensures Stored(taxes, ctx)[i].taxType == taxes[i].taxType
  {
  }

  // What storing and loading makes of an entry's use.
  function ReloadedUse(taxes: seq<TaxInput>, t: TaxInput): Use {
    if IsFixedAmount(Code(t)) then AtAmount(FixedAmount(taxes, Code(t))) else AtRate(DisplayRate(t.rate).percent)
  }

  lemma LoadedUse(taxes: seq<TaxInput>, ctx: Context, i: nat)
    requires i < |taxes|
    ensures EntryUse(LoadTax(Stored(taxes, ctx)[i])) == ReloadedUse(taxes, taxes[i])
    ensures Code(LoadTax(Stored(taxes, ctx)[i])) == Code(taxes[i])
  {
    hide CodeOf, FixedAmount, FormatMoney, DisplayRate;
    assert ComputedAll(taxes, ctx)[i] == Computed(taxes, ctx, taxes[i]);
    FormatMoneyStable(Amount(taxes, ctx, Code(taxes[i])));
  }

  // The stored rows in stored order have the codes of the list, so every order has.
  lemma LoadedCodes(taxes: seq<TaxInput>, ctx: Context, rows: seq<StoredTax>)
    requires multiset(rows) == multiset(Stored(taxes, ctx))
    ensures multiset(Codes(LoadTaxes(rows))) == multiset(Codes(taxes))
  {
    hide CodeOf, ComputedAll, LoadTax;
    var code := (row: StoredTax) => CodeOf(row.taxType);
    PermutedMap(rows, Stored(taxes, ctx), code);
    forall k | 0 <= k < |rows| ensures Codes(LoadTaxes(rows))[k] == Map(rows, code)[k] { LoadKeepsType(rows[k]); }
    assert Codes(LoadTaxes(rows)) == Map(rows, code);
    forall i | 0 <= i < |taxes| ensures Codes(taxes)[i] == Map(Stored(taxes, ctx), code)[i] { ComputedType(taxes, ctx, i); }
    assert Codes(taxes) == Map(Stored(taxes, ctx), code);
  }

  // Every entry is stored with the rate that its code used.
  predicate KeepsUses(taxes: seq<TaxInput>) {
    forall i :: 0 <= i < |taxes| ==>
      ReloadedUse(taxes, taxes[i]) == UseOf(taxes, Code(taxes[i])) || (Code(taxes[i]) == T(1) && TableCancels(taxes))
  }

  lemma ReadUse(taxes: seq<TaxInput>, ctx: Context, rows: seq<StoredTax>, c: TaxCode)
    requires multiset(rows) == multiset(Stored(taxes, ctx)) && Has(taxes, c)
    ensures exists i :: 0 <= i < |taxes| && Code(taxes[i]) == c && UseOf(LoadTaxes(rows), c) == ReloadedUse(taxes, taxes[i])
  {
    hide CodeOf, EntryUse, UseOf, ComputedAll, LoadTax, ReloadedUse;
    var loaded := LoadTaxes(rows);
    LoadedCodes(taxes, ctx, rows);
    CodesDecideHas(taxes, loaded, c);
    UseOfSome(loaded, c);
    var t :| t in loaded && Code(t) == c && UseOf(loaded, c) == EntryUse(t);
    var k :| 0 <= k < |loaded| && loaded[k] == t;
    var i := RowOf(taxes, ctx, rows, k);
    LoadedUse(taxes, ctx, i);
  }

  lemma KeptUses(taxes: seq<TaxInput>, ctx: Context, rows: seq<StoredTax>)
    requires multiset(rows) == multiset(Stored(taxes, ctx)) && KeepsUses(taxes)
    ensures SameUses(taxes, LoadTaxes(rows)) && multiset(Codes(LoadTaxes(rows))) == multiset(Codes(taxes))
  {
    hide CodeOf, UseOf, TableCancels, ReloadedUse, ComputedAll, LoadTax, LoadTaxes, Codes;
    LoadedCodes(taxes, ctx, rows);
    forall c ensures UseOf(taxes, c) == UseOf(LoadTaxes(rows), c) || (c == T(1) && TableCancels(taxes)) {
      CodesDecideHas(taxes, LoadTaxes(rows), c);
      if Has(taxes, c) {
        ReadUse(taxes, ctx, rows, c);
      } else {
        UnusedWithout(taxes, c);
        UnusedWithout(LoadTaxes(rows), c);
      }
    }
  }

  lemma UnusedWithout(taxes: seq<TaxInput>, c: TaxCode)
    requires !Has(taxes, c)
    ensures UseOf(taxes, c) == Unused
  {
  }

  // ----- exactly which lists survive -----

  // The rows with row i at the end that its code uses.
  function PreferRow(rows: seq<StoredTax>, i: nat): seq<StoredTax>
    requires i < |rows|
  {
    if UsesLast(CodeOf(rows[i].taxType)) then Without(rows, i) + [rows[i]] else [rows[i]] + Without(rows, i)
  }

  lemma LoadSplit(a: seq<StoredTax>, b: seq<StoredTax>)
    ensures LoadTaxes(a + b) == LoadTaxes(a) + LoadTaxes(b)
  {
    hide LoadTax;
  }

  lemma LoadOne(row: StoredTax)
    ensures LoadTaxes([row]) == [LoadTax(row)]
  {
  }

  lemma LoadWithout(rows: seq<StoredTax>, i: nat)
    requires i < |rows|
    ensures LoadTaxes(Without(rows, i)) == Without(LoadTaxes(rows), i)
  {
    hide LoadTax;
  }

  lemma PreferRowPermutes(rows: seq<StoredTax>, i: nat)
    requires i < |rows|
    ensures multiset(PreferRow(rows, i)) == multiset(rows)
  {
    hide CodeOf;
    WithoutMultiset(rows, i);
    assert rows[i] in rows;
  }

  lemma PreferRowLoads(taxes: seq<TaxInput>, ctx: Context, i: nat)
    requires i < |taxes|
    ensures var rows := PreferRow(Stored(taxes, ctx), i);
            && multiset(rows) == multiset(Stored(taxes, ctx))
            && LoadTaxes(rows) == Prefer(LoadTaxes(Stored(taxes, ctx)), i)
  {
    hide CodeOf, ComputedAll, LoadTax, LoadTaxes, Without;
    var stored := Stored(taxes, ctx);
    PreferRowPermutes(stored, i);
    LoadKeepsType(stored[i]);
    LoadWithout(stored, i);
    LoadOne(stored[i]);
    LoadSplit(Without(stored, i), [stored[i]]);
    LoadSplit([stored[i]], Without(stored, i));
  }

  // Loading forgets the context: only fixed amounts are read back, and they do not depend on it.
  lemma LoadingForgetsContext(taxes: seq<TaxInput>, ctx: Context, other: Context)
    ensures LoadTaxes(Stored(taxes, ctx)) == LoadTaxes(Stored(taxes, other))
  {
    hide CodeOf, FixedAmount, DisplayRate;
    forall i | 0 <= i < |taxes| ensures LoadTax(Stored(taxes, ctx)[i]) == LoadTax(Stored(taxes, other)[i]) {
      assert ComputedAll(taxes, ctx)[i] == Computed(taxes, ctx, taxes[i]);
      assert ComputedAll(taxes, other)[i] == Computed(taxes, other, taxes[i]);
    }
  }

  // Recalculation charges the same whatever the line's amounts and the order in which its rows come back.
  ghost predicate SurvivesStorage(taxes: seq<TaxInput>) {
    forall ctx, rows, c :: multiset(rows) == multiset(Stored(taxes, ctx)) ==>
      Amount(LoadTaxes(rows), ctx, c) == Amount(taxes, ctx, c)
  }

  /** A list of taxes survives storage in every order exactly when every entry is stored with the rate its code used. */
  lemma SurvivesExactly(taxes: seq<TaxInput>)
    ensures SurvivesStorage(taxes) <==> KeepsUses(taxes)
  {
    hide CodeOf, UseOf, TableCancels, ReloadedUse, ComputedAll, LoadTax, LoadTaxes, Amount, Stored;
    if KeepsUses(taxes) {
      forall ctx, rows, c | multiset(rows) == multiset(Stored(taxes, ctx))
        ensures Amount(LoadTaxes(rows), ctx, c) == Amount(taxes, ctx, c)
      {
        KeptUses(taxes, ctx, rows);
        UsesDecideCharges(taxes, LoadTaxes(rows), ctx, c);
      }
    }
    if SurvivesStorage(taxes) {
      forall i | 0 <= i < |taxes|
        ensures ReloadedUse(taxes, taxes[i]) == UseOf(taxes, Code(taxes[i])) || (Code(taxes[i]) == T(1) && TableCancels(taxes))
      {
        SurvivorKeeps(taxes, i);
      }
    }
  }

  lemma SurvivorKeeps(taxes: seq<TaxInput>, i: nat)
    requires SurvivesStorage(taxes) && i < |taxes|
    ensures ReloadedUse(taxes, taxes[i]) == UseOf(taxes, Code(taxes[i])) || (Code(taxes[i]) == T(1) && TableCancels(taxes))
  {
    hide CodeOf, UseOf, TableCancels, ReloadedUse, ComputedAll, LoadTax, LoadTaxes, Amount, Stored, Prefer, PreferRow, EntryUse;
    var base := Context(0, 0, 0);
    var list := LoadTaxes(Stored(taxes, base));
    LoadedLength(taxes, base);
    var read := Prefer(list, i);
    forall ctx, c ensures Amount(taxes, ctx, c) == Amount(read, ctx, c) {
      LoadedLength(taxes, ctx);
      PreferRowLoads(taxes, ctx, i);
      LoadingForgetsContext(taxes, ctx, base);
      assert multiset(PreferRow(Stored(taxes, ctx), i)) == multiset(Stored(taxes, ctx));
    }
    LoadedCodes(taxes, base, Stored(taxes, base));
    PreferPermutes(list, i);
    PermutedCodes(read, list);
    ChargeAlikeExactly(taxes, read);
    LoadedUse(taxes, base, i);
    LoadedAt(taxes, base, i);
    PreferIsUsed(list, i);
  }

  lemma LoadedLength(taxes: seq<TaxInput>, ctx: Context)
    ensures |Stored(taxes, ctx)| == |taxes| == |LoadTaxes(Stored(taxes, ctx))|
  {
  }

  lemma LoadedAt(taxes: seq<TaxInput>, ctx: Context, i: nat)
    requires i < |taxes|
    ensures LoadTaxes(Stored(taxes, ctx))[i] == LoadTax(Stored(taxes, ctx)[i])
  {
  }

  // No rate that is used changes when it is displayed.
  predicate RatesStable(taxes: seq<TaxInput>) {
    forall i :: 0 <= i < |taxes| && !IsFixedAmount(Code(taxes[i])) ==>
      DisplayRate(taxes[i].rate).percent == taxes[i].rate.percent
  }

  // One entry per code and rates of at most two decimals are enough.
  lemma UniqueStableSurvive(taxes: seq<TaxInput>)
    requires UniqueCodes(taxes) && RatesStable(taxes)
    ensures KeepsUses(taxes)
  {
    hide CodeOf, FormatMoney, DisplayRate, Has, First, Last;
    forall i | 0 <= i < |taxes| ensures ReloadedUse(taxes, taxes[i]) == UseOf(taxes, Code(taxes[i])) {
      UniqueLookup(taxes, i);
    }
  }

  /**
   A list that passes the duplicate check and does not survive: T1 with t1. Both are charged at the last one's rate,
   nothing; read back the other way round both are charged 14 percent.
   */
  lemma RowOrderChangesTax()
    ensures var vat := TaxInput("T1", "V009", Rate(14.0, false), None);
            var zero := TaxInput("t1", "V001", Rate(0.0, false), None);
            var ctx := Context(10000, 0, 0);
            var rows := Stored([vat, zero], ctx);
            && Repeated(Keys([vat, zero])) == []
            && rows[0].amount == rows[1].amount == 0
            && Amount(LoadTaxes([rows[1], rows[0]]), ctx, T(1)) == 1400
  {
    hide CodeOf, Percent, ComputedAll, Repeated, Amount;
    var vat := TaxInput("T1", "V009", Rate(14.0, false), None);
    var zero := TaxInput("t1", "V001", Rate(0.0, false), None);
    var ctx := Context(10000, 0, 0);
    DuplicateCheckMissesCase();
    RepeatedCodesDependOnOrder();
    NormalizedT1();
    assert ComputedAll([vat, zero], ctx)[0] == Computed([vat, zero], ctx, vat);
    assert ComputedAll([vat, zero], ctx)[1] == Computed([vat, zero], ctx, zero);
    var rows := Stored([vat, zero], ctx);
    assert LoadTaxes([rows[1], rows[0]]) == [zero, vat];
  }

  // ----- a whole line -----

  // Equal in every amount, with the same charges listed in any order.
  predicate SameMoney(a: LineComputed, b: LineComputed) {
    && a.salesTotal == b.salesTotal && a.discount == b.discount && a.netTotal == b.netTotal
    && a.additiveTaxTotal == b.additiveTaxTotal && a.deductibleTaxTotal == b.deductibleTaxTotal
    && a.total == b.total && a.itemsDiscount == b.itemsDiscount && a.valueDifference == b.valueDifference
    && a.totalTaxableFees == b.totalTaxableFees
    && multiset(a.taxAmounts) == multiset(b.taxAmounts)
  }

  // What storage makes of a charge: a fixed type comes back with rate 0.
  function ZeroFixedRate(c: TaxComputed): TaxComputed {
    if IsFixedAmount(CodeOf(c.taxType)) then c.(rate := Rate(0.0, false)) else c
  }

  function ZeroFixedRates(charged: seq<TaxComputed>): (cs: seq<TaxComputed>)
    ensures |cs| == |charged|
    ensures forall i :: 0 <= i < |cs| ==> cs[i] == ZeroFixedRate(charged[i])
  {
    seq(|charged|, i requires 0 <= i < |charged| => ZeroFixedRate(charged[i]))
  }

  lemma DisplayIsStable(rate: Rate)
    ensures DisplayRate(DisplayRate(rate)) == DisplayRate(rate)
  {
    FormatMoneyStable(FormatMoney(rate.percent));
  }

  lemma ZeroRateIsDisplayed()
    ensures DisplayRate(Rate(0.0, false)) == Rate(0.0, false)
  {
  }

  // The charge a stored row comes back as when its amount is charged again.
  function RowCharge(row: StoredTax): TaxComputed {
    TaxComputed(row.taxType, row.subType, DisplayRate(LoadTax(row).rate), row.amount, IsDeductible(CodeOf(row.taxType)))
  }

  lemma StoredRowCharge(taxes: seq<TaxInput>, ctx: Context, i: nat)
    requires i < |taxes|
    ensures RowCharge(Stored(taxes, ctx)[i]) == ZeroFixedRate(ComputedAll(taxes, ctx)[i])
  {
    hide CodeOf, DisplayRate, Amount;
    assert ComputedAll(taxes, ctx)[i] == Computed(taxes, ctx, taxes[i]);
    DisplayIsStable(taxes[i].rate);
    ZeroRateIsDisplayed();
  }

  lemma LoadedCharge(taxes: seq<TaxInput>, ctx: Context, rows: seq<StoredTax>, k: nat)
    requires multiset(rows) == multiset(Stored(taxes, ctx)) && k < |rows|
    requires forall c :: Amount(LoadTaxes(rows), ctx, c) == Amount(taxes, ctx, c)
    ensures Computed(LoadTaxes(rows), ctx, LoadTaxes(rows)[k]) == RowCharge(rows[k])
  {
    hide CodeOf, DisplayRate, Amount, ComputedAll;
    var i := RowOf(taxes, ctx, rows, k);
    assert ComputedAll(taxes, ctx)[i] == Computed(taxes, ctx, taxes[i]);
  }

  // Charged again in any order, the rows give the same charges in that order.
  lemma LoadedCharges(taxes: seq<TaxInput>, ctx: Context, rows: seq<StoredTax>)
    requires multiset(rows) == multiset(Stored(taxes, ctx)) && KeepsUses(taxes)
    ensures multiset(ComputedAll(LoadTaxes(rows), ctx)) == multiset(ZeroFixedRates(ComputedAll(taxes, ctx)))
    ensures TotalFees(LoadTaxes(rows), ctx.net) == TotalFees(taxes, ctx.net)
  {
    hide CodeOf, KeepsUses, Amount, Computed, RowCharge, ZeroFixedRate, LoadTax, TotalFees, SameUses;
    var loaded := LoadTaxes(rows);
    KeptUses(taxes, ctx, rows);
    UsesDecideBases(taxes, loaded, ctx);
    forall c ensures Amount(loaded, ctx, c) == Amount(taxes, ctx, c) { UsesDecideCharges(taxes, loaded, ctx, c); }
    forall k | 0 <= k < |rows| ensures ComputedAll(loaded, ctx)[k] == Map(rows, RowCharge)[k] {
      LoadedCharge(taxes, ctx, rows, k);
    }
    assert ComputedAll(loaded, ctx) == Map(rows, RowCharge);
    PermutedMap(rows, Stored(taxes, ctx), RowCharge);
    forall i | 0 <= i < |taxes| ensures Map(Stored(taxes, ctx), RowCharge)[i] == ZeroFixedRates(ComputedAll(taxes, ctx))[i] {
      StoredRowCharge(taxes, ctx, i);
    }
    assert Map(Stored(taxes, ctx), RowCharge) == ZeroFixedRates(ComputedAll(taxes, ctx));
  }

  // ----- never refused -----

  lemma OneOfEach(keys: seq<string>)
    ensures Repeated(keys) == [] <==> forall k :: k != "" ==> multiset(keys)[k] <= 1
  {
    forall k | k != "" ensures k in Repeated(keys) <==> multiset(keys)[k] > 1 {
      RepeatedMeaning(keys, k);
      CountsTwice(keys, k);
    }
    if Repeated(keys) != [] {
      RepeatedMeaning(keys, Repeated(keys)[0]);
      assert Repeated(keys)[0] in Repeated(keys);
    }
  }

  lemma {:induction false} CountsTwice<T>(keys: seq<T>, k: T)
    ensures multiset(keys)[k] > 1 <==> exists i, j :: 0 <= i < j < |keys| && keys[i] == keys[j] == k
    ensures multiset(keys)[k] > 0 <==> k in keys
    decreases |keys|
  {
    if keys != [] {
      var n := |keys| - 1;
      CountsTwice(keys[..n], k);
      assert keys == keys[..n] + [keys[n]];
      if multiset(keys)[k] > 1 {
        if multiset(keys[..n])[k] > 1 {
          var i, j :| 0 <= i < j < n && keys[..n][i] == keys[..n][j] == k;
          assert keys[i] == keys[j] == k;
        } else {
          var i :| 0 <= i < n && keys[..n][i] == k;
          assert keys[i] == keys[n] == k;
        }
      }
      if i, j :| 0 <= i < j < |keys| && keys[i] == keys[j] == k {
        assert keys[..n][i] == k;
        if j < n { assert keys[..n][j] == k; }
      }
    }
  }

  lemma LoadedIsAccepted(taxes: seq<TaxInput>, ctx: Context, rows: seq<StoredTax>)
    requires multiset(rows) == multiset(Stored(taxes, ctx)) && Repeated(Keys(taxes)) == []
    ensures Repeated(Keys(LoadTaxes(rows))) == [] && Complete(LoadTaxes(rows))
  {
    hide CodeOf, ComputedAll, LoadTax, Repeated;
    var key := (row: StoredTax) => Text.Trim(row.taxType);
    PermutedMap(rows, Stored(taxes, ctx), key);
    forall k | 0 <= k < |rows| ensures Keys(LoadTaxes(rows))[k] == Map(rows, key)[k] { LoadKeepsType(rows[k]); }
    assert Keys(LoadTaxes(rows)) == Map(rows, key);
    forall i | 0 <= i < |taxes| ensures Keys(taxes)[i] == Map(Stored(taxes, ctx), key)[i] { ComputedType(taxes, ctx, i); }
    assert Keys(taxes) == Map(Stored(taxes, ctx), key);
    OneOfEach(Keys(taxes));
    OneOfEach(Keys(LoadTaxes(rows)));
    forall k | 0 <= k < |rows| ensures !MissesAmount(LoadTaxes(rows)[k]) { LoadedHasAmount(rows[k]); }
  }

  lemma LoadedHasAmount(row: StoredTax)
    ensures !MissesAmount(LoadTax(row))
  {
  }

  // ----- bases -----

  lemma SameSales(a: LineInput, b: LineInput)
    requires a.quantity == b.quantity && a.unitPrice == b.unitPrice
    ensures SalesTotal(a) == SalesTotal(b)
  {
    assert a.quantity * a.unitPrice == b.quantity * b.unitPrice;
  }

  lemma BasesSurvive(input: LineInput, read: StoredLine)
    requires Calculated(input).Ok? && ReadBack(Store(input, Calculated(input).value), read)
    ensures var again := Load(read);
            && SalesTotal(again) == SalesTotal(input)
            && LineDiscount(again, SalesTotal(again)) == LineDiscount(input, SalesTotal(input))
            && LineContext(again) == LineContext(input)
            && again.taxes == LoadTaxes(read.taxes)
            && multiset(read.taxes) == multiset(Stored(input.taxes, LineContext(input)))
  {
    hide CodeOf, ComputedAll, Repeated, FirstMissing, Estimate, TotalFees, FormatMoney, ToPounds, Percent;
    var again := Load(read);
    SameSales(input, again);
    FormatMoneyStable(LineDiscount(input, SalesTotal(input)));
    FormatMoneyStable(MoneyOr(input.itemsDiscount));
    FormatMoneyStable(MoneyOr(input.valueDifference));
  }

  // ----- main results -----

  function ChargedAmount(c: TaxComputed): TaxAmount { TaxAmount(c.taxType, c.amount) }

  lemma PermutedEstimate(a: seq<TaxComputed>, b: seq<TaxComputed>, net: int, itemsDiscount: int)
    requires multiset(a) == multiset(b)
    ensures Estimate(net, itemsDiscount, Amounts(a)) == Estimate(net, itemsDiscount, Amounts(b))
  {
    hide CodeOf;
    PermutedMap(a, b, ChargedAmount);
    assert Amounts(a) == Map(a, ChargedAmount) && Amounts(b) == Map(b, ChargedAmount);
    SumPermutation(Amounts(a), Amounts(b), AdditivePart);
    SumPermutation(Amounts(a), Amounts(b), DeductiblePart);
  }

  lemma EstimateIgnoresRates(charged: seq<TaxComputed>, net: int, itemsDiscount: int)
    ensures Estimate(net, itemsDiscount, Amounts(ZeroFixedRates(charged))) == Estimate(net, itemsDiscount, Amounts(charged))
  {
    hide CodeOf;
    assert Amounts(ZeroFixedRates(charged)) == Amounts(charged);
  }

  // A calculated line from its parts.
  lemma CalculatedFrom(input: LineInput)
    requires Repeated(Keys(input.taxes)) == [] && Complete(input.taxes)
    ensures var ctx := LineContext(input);
            Calculated(input) == Ok(LineFrom(SalesTotal(input), LineDiscount(input, SalesTotal(input)), ctx,
                                             ComputedAll(input.taxes, ctx), TotalFees(input.taxes, ctx.net)))
  {
    hide CodeOf, ComputedAll, TotalFees, Estimate, Repeated, SalesTotal, LineDiscount, LineContext;
  }

  // A stored line is never refused, whatever the order of its rows.
  lemma StoredLineIsAccepted(input: LineInput, read: StoredLine)
    requires Calculated(input).Ok? && ReadBack(Store(input, Calculated(input).value), read)
    ensures Recalculated(read).Ok?
  {
    hide CodeOf, ComputedAll, Estimate, TotalFees, SalesTotal, LineDiscount, LineContext, LoadTaxes;
    BasesSurvive(input, read);
    LoadedIsAccepted(input.taxes, LineContext(input), read.taxes);
  }

  /**
   A stored line recalculates to the same money, and to the same charges in the order of its rows, in every order its
   rows may come back in, when its list of taxes keeps what it uses.
   */
  lemma RecalculationKeepsMoney(input: LineInput, read: StoredLine)
    requires Calculated(input).Ok? && KeepsUses(input.taxes)
    requires ReadBack(Store(input, Calculated(input).value), read)
    ensures var c := Calculated(input).value;
            && Recalculated(read).Ok?
            && SameMoney(Recalculated(read).value, c.(taxAmounts := ZeroFixedRates(c.taxAmounts)))
  {
    hide CodeOf, ComputedAll, Repeated, Estimate, TotalFees, SalesTotal, LineDiscount, LineContext, ZeroFixedRates,
         KeepsUses, LoadTaxes, Complete, Calculated;
    var ctx, again := LineContext(input), Load(read);
    CalculatedParts(input);
    BasesSurvive(input, read);
    LoadedIsAccepted(input.taxes, ctx, read.taxes);
    CalculatedFrom(again);
    LoadedCharges(input.taxes, ctx, read.taxes);
    EstimateIgnoresRates(ComputedAll(input.taxes, ctx), ctx.net, ctx.itemsDiscount);
    PermutedEstimate(ComputedAll(again.taxes, ctx), ZeroFixedRates(ComputedAll(input.taxes, ctx)), ctx.net, ctx.itemsDiscount);
  }

  lemma CalculatedParts(input: LineInput)
    requires Calculated(input).Ok?
    ensures Repeated(Keys(input.taxes)) == [] && Complete(input.taxes)
    ensures var ctx := LineContext(input);
            Calculated(input) == Ok(LineFrom(SalesTotal(input), LineDiscount(input, SalesTotal(input)), ctx,
                                             ComputedAll(input.taxes, ctx), TotalFees(input.taxes, ctx.net)))
  {
    hide CodeOf, ComputedAll, TotalFees, Estimate, Repeated, SalesTotal, LineDiscount, LineContext;
  }

  // Entries of one code are stored with one rate.
  predicate RowsAgree(taxes: seq<TaxInput>) {
    forall i, j :: 0 <= i < |taxes| && 0 <= j < |taxes| && Code(taxes[i]) == Code(taxes[j]) ==>
      ReloadedUse(taxes, taxes[i]) == ReloadedUse(taxes, taxes[j])
  }

  lemma UniqueRowsAgree(taxes: seq<TaxInput>)
    requires UniqueCodes(taxes)
    ensures RowsAgree(taxes)
  {
    hide CodeOf, ReloadedUse;
  }

  // Once stored, such a list keeps what it uses.
  lemma ReloadedKeepsUses(taxes: seq<TaxInput>, ctx: Context, rows: seq<StoredTax>)
    requires multiset(rows) == multiset(Stored(taxes, ctx)) && RowsAgree(taxes)
    ensures KeepsUses(LoadTaxes(rows))
  {
    hide CodeOf, UseOf, EntryUse, ReloadedUse, ComputedAll, LoadTax, TableCancels;
    var loaded := LoadTaxes(rows);
    forall k | 0 <= k < |loaded| ensures ReloadedUse(loaded, loaded[k]) == UseOf(loaded, Code(loaded[k])) {
      var i := RowOf(taxes, ctx, rows, k);
      var c := Code(loaded[k]);
      HasMember(taxes, i);
      ReadUse(taxes, ctx, rows, c);
      var j :| 0 <= j < |taxes| && Code(taxes[j]) == c && UseOf(loaded, c) == ReloadedUse(taxes, taxes[j]);
      LoadedUse(taxes, ctx, i);
      LoadedCodes(taxes, ctx, rows);
      HasMember(loaded, k);
      LoadedRateStable(taxes, ctx, i);
      StableUse(loaded, rows, k);
    }
  }

  lemma LoadedRateStable(taxes: seq<TaxInput>, ctx: Context, i: nat)
    requires i < |taxes|
    ensures var t := LoadTax(Stored(taxes, ctx)[i]); DisplayRate(t.rate) == t.rate
  {
    hide CodeOf, DisplayRate, Amount;
    assert ComputedAll(taxes, ctx)[i] == Computed(taxes, ctx, taxes[i]);
    DisplayIsStable(taxes[i].rate);
    ZeroRateIsDisplayed();
  }

  // A loaded entry is stored again as it was loaded, if its code uses what it says.
  lemma StableUse(loaded: seq<TaxInput>, rows: seq<StoredTax>, k: nat)
    requires loaded == LoadTaxes(rows) && k < |rows| && Has(loaded, Code(loaded[k]))
    requires UseOf(loaded, Code(loaded[k])) == EntryUse(loaded[k])
    requires !IsFixedAmount(Code(loaded[k])) ==> DisplayRate(loaded[k].rate).percent == loaded[k].rate.percent
    ensures ReloadedUse(loaded, loaded[k]) == UseOf(loaded, Code(loaded[k]))
  {
    hide CodeOf, FormatMoney, DisplayRate, Has, First, Last;
  }

  // A list that keeps what it uses does so again each time it is stored and loaded.
  lemma KeptUsesPersist(taxes: seq<TaxInput>, ctx: Context, rows: seq<StoredTax>)
    requires multiset(rows) == multiset(Stored(taxes, ctx)) && KeepsUses(taxes)
    ensures KeepsUses(LoadTaxes(rows))
  {
    hide CodeOf, UseOf, EntryUse, ReloadedUse, ComputedAll, LoadTax;
    var loaded := LoadTaxes(rows);
    KeptUses(taxes, ctx, rows);
    assert UseOf(loaded, T(2)) == UseOf(taxes, T(2));
    forall k | 0 <= k < |loaded|
      ensures ReloadedUse(loaded, loaded[k]) == UseOf(loaded, Code(loaded[k])) || (Code(loaded[k]) == T(1) && TableCancels(loaded))
    {
      if !(Code(loaded[k]) == T(1) && TableCancels(taxes)) {
        var i := RowOf(taxes, ctx, rows, k);
        LoadedUse(taxes, ctx, i);
        HasMember(loaded, k);
        LoadedRateStable(taxes, ctx, i);
        StableUse(loaded, rows, k);
      }
    }
  }

  lemma KeptLinePersists(input: LineInput, read: StoredLine)
    requires Calculated(input).Ok? && KeepsUses(input.taxes)
    requires ReadBack(Store(input, Calculated(input).value), read)
    ensures KeepsUses(Load(read).taxes)
  {
    hide CodeOf, ComputedAll, KeepsUses, LoadTaxes, Calculated, Stored, LineContext, SalesTotal, LineDiscount;
    BasesSurvive(input, read);
    KeptUsesPersist(input.taxes, LineContext(input), read.taxes);
  }

  // A row that storing and loading leaves as it is.
  predicate Settled(row: StoredTax) {
    row.rate == DisplayRate(LoadTax(row).rate)
  }

  lemma LoadedRowsSettle(taxes: seq<TaxInput>, ctx: Context, rows: seq<StoredTax>)
    requires taxes == LoadTaxes(rows)
    ensures forall k :: 0 <= k < |rows| ==> Settled(Stored(taxes, ctx)[k])
    ensures ZeroFixedRates(ComputedAll(taxes, ctx)) == ComputedAll(taxes, ctx)
  {
    hide CodeOf, DisplayRate, Amount;
    ZeroRateIsDisplayed();
    forall k | 0 <= k < |rows|
      ensures Settled(Stored(taxes, ctx)[k]) && ZeroFixedRate(ComputedAll(taxes, ctx)[k]) == ComputedAll(taxes, ctx)[k]
    {
      assert ComputedAll(taxes, ctx)[k] == Computed(taxes, ctx, taxes[k]);
      DisplayIsStable(taxes[k].rate);
    }
  }

  // Rows that were stored by a recalculation are stored again exactly as they are read.
  lemma StoredAsRead(taxes: seq<TaxInput>, ctx: Context, rows: seq<StoredTax>)
    requires multiset(rows) == multiset(Stored(taxes, ctx)) && KeepsUses(taxes)
    requires forall i :: 0 <= i < |taxes| ==> Settled(Stored(taxes, ctx)[i])
    ensures StoreTaxes(ComputedAll(LoadTaxes(rows), ctx)) == rows
  {
    hide CodeOf, KeepsUses, Amount, Computed, LoadTax, SameUses, Settled, Stored, UsesLast;
    var loaded := LoadTaxes(rows);
    KeptUses(taxes, ctx, rows);
    forall c ensures Amount(loaded, ctx, c) == Amount(taxes, ctx, c) { UsesDecideCharges(taxes, loaded, ctx, c); }
    forall k | 0 <= k < |rows| ensures StoreTaxes(ComputedAll(loaded, ctx))[k] == rows[k] {
      LoadedCharge(taxes, ctx, rows, k);
      var i := RowOf(taxes, ctx, rows, k);
      SettledRow(rows[k]);
    }
  }

  lemma SettledRow(row: StoredTax)
    requires Settled(row)
    ensures StoredTax(RowCharge(row).taxType, RowCharge(row).subType, RowCharge(row).rate, RowCharge(row).amount) == row
  {
  }

  // Lists that come from storage: they keep what they use and are stored again as they are.
  ghost predicate FromStorage(taxes: seq<TaxInput>, ctx: Context) {
    && KeepsUses(taxes)
    && (forall i :: 0 <= i < |taxes| ==> Settled(Stored(taxes, ctx)[i]))
    && ZeroFixedRates(ComputedAll(taxes, ctx)) == ComputedAll(taxes, ctx)
  }

  lemma ReadIsFromStorage(input: LineInput, read: StoredLine)
    requires Calculated(input).Ok? && RowsAgree(input.taxes)
    requires ReadBack(Store(input, Calculated(input).value), read)
    ensures FromStorage(Load(read).taxes, LineContext(Load(read)))
  {
    hide CodeOf, ComputedAll, ZeroFixedRates, KeepsUses, LoadTaxes, Calculated, Settled, Stored, RowsAgree, LineContext,
         SalesTotal, LineDiscount;
    BasesSurvive(input, read);
    ReloadedKeepsUses(input.taxes, LineContext(input), read.taxes);
    LoadedRowsSettle(Load(read).taxes, LineContext(Load(read)), read.taxes);
    LoadedLength(Load(read).taxes, LineContext(Load(read)));
  }

  lemma FromStorageMoney(first: LineInput, again: StoredLine)
    requires Calculated(first).Ok? && FromStorage(first.taxes, LineContext(first))
    requires ReadBack(Store(first, Calculated(first).value), again)
    ensures Recalculated(again).Ok? && SameMoney(Recalculated(again).value, Calculated(first).value)
  {
    hide CodeOf, ComputedAll, ZeroFixedRates, KeepsUses, Calculated, Settled, Stored, SameMoney, LineContext, LineFrom,
         SalesTotal, LineDiscount, TotalFees, Repeated, Complete;
    RecalculationKeepsMoney(first, again);
    CalculatedParts(first);
    PartsCharge(first);
    NoRatesToZero(Calculated(first).value, LineContext(first), first.taxes);
  }

  lemma PartsCharge(input: LineInput)
    requires Calculated(input).Ok?
    ensures Calculated(input).value.taxAmounts == ComputedAll(input.taxes, LineContext(input))
  {
    hide CodeOf, ComputedAll, TotalFees, Estimate, Repeated, SalesTotal, LineDiscount, LineContext;
  }

  lemma FromStorageRows(first: LineInput, again: StoredLine)
    requires Calculated(first).Ok? && FromStorage(first.taxes, LineContext(first))
    requires ReadBack(Store(first, Calculated(first).value), again) && Recalculated(again).Ok?
    ensures StoreTaxes(Recalculated(again).value.taxAmounts) == again.taxes
  {
    hide CodeOf, ComputedAll, ZeroFixedRates, KeepsUses, Calculated, Settled, Stored, LineContext, SalesTotal,
         LineDiscount, StoreTaxes, LoadTaxes;
    BasesSurvive(first, again);
    LoadedLength(first.taxes, LineContext(first));
    StoredAsRead(first.taxes, LineContext(first), again.taxes);
    PartsCharge(Load(again));
  }

  /**
   A second recalculation, with the rows in any order both times, charges the same money as the first and stores the
   line exactly as it read it, when entries of one code are stored with one rate.
   */
  lemma SecondRecalculation(input: LineInput, read: StoredLine, again: StoredLine)
    requires Calculated(input).Ok? && RowsAgree(input.taxes)
    requires ReadBack(Store(input, Calculated(input).value), read) && Recalculated(read).Ok?
    requires ReadBack(Store(Load(read), Recalculated(read).value), again)
    ensures Recalculated(again).Ok?
    ensures SameMoney(Recalculated(again).value, Recalculated(read).value)
    ensures Store(Load(again), Recalculated(again).value) == again
  {
    hide Calculated, Load, Store, SameMoney, RowsAgree, FromStorage, StoreTaxes;
    ReadIsFromStorage(input, read);
    FromStorageMoney(Load(read), again);
    FromStorageRows(Load(read), again);
    SameButCharges(Recalculated(again).value, Recalculated(read).value);
    StoresItself(Load(read), again);
  }

  lemma SameButCharges(a: LineComputed, b: LineComputed)
    requires SameMoney(a, b)
    ensures SameMoney(a, b.(taxAmounts := a.taxAmounts))
  {
  }

  lemma NoRatesToZero(c: LineComputed, ctx: Context, taxes: seq<TaxInput>)
    requires c.taxAmounts == ComputedAll(taxes, ctx) && ZeroFixedRates(ComputedAll(taxes, ctx)) == ComputedAll(taxes, ctx)
    ensures c.(taxAmounts := ZeroFixedRates(c.taxAmounts)) == c
  {
  }

  // The columns of a recalculated line are those it was read with.
  lemma StoresItself(first: LineInput, again: StoredLine)
    requires Calculated(first).Ok? && ReadBack(Store(first, Calculated(first).value), again)
    requires Recalculated(again).Ok?
    requires var c := Recalculated(again).value; SameMoney(c, Calculated(first).value.(taxAmounts := c.taxAmounts))
    requires StoreTaxes(Recalculated(again).value.taxAmounts) == again.taxes
    ensures Store(Load(again), Recalculated(again).value) == again
  {
    hide Calculated, StoreTaxes, LoadTaxes;
  }

  // ----- the condition is exact, rate by rate -----

  // Storing a rate as displayed keeps the tax on every base exactly when display keeps the rate.
  lemma DisplayKeepsTaxExactly(rate: Rate)
    ensures (forall base :: Percent(base, DisplayRate(rate).percent) == Percent(base, rate.percent))
       <==> DisplayRate(rate).percent == rate.percent
  {
    hide Percent;
    if DisplayRate(rate).percent != rate.percent {
      var base := RatesApart(DisplayRate(rate).percent, rate.percent);
      assert Far(base, base);
      assert Percent(base, DisplayRate(rate).percent) != Percent(base, rate.percent);
    }
  }

  // A third decimal is lost in storage: 14.005 percent of 10000 pounds recalculates half a pound higher.
  lemma ThirdDecimalIsLost()
    ensures var rate := Rate(14.005, true);
            DisplayRate(rate) == Rate(14.01, true)
            && Percent(1000000, rate.percent) == 140050 && Percent(1000000, DisplayRate(rate).percent) == 140100
  {
    assert FormatMoney(14.005) == 1401;
  }
}
