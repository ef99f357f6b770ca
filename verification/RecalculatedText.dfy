/**
 The text to sign of a recalculated document. A recalculation keeps the text exactly when the tax rows show what they
 showed before, entry by entry; a second one stores the lines exactly as it reads them, so the order in which rows are
 read back is all that can change the text again.
 */
module RecalculatedText {
  import opened Wrappers
  import opened Json
  import opened CanonicalServer
  import opened Sums
  import opened TaxModes
  import TaxProperties
  import TaxOrder
  import opened TaxEngine
  import opened InvoiceLines
  import opened DocumentTotals
  import opened Recalculation
  import opened EtaPayload
  import opened PayloadText
  import opened Documents
  import opened DocumentRuns
  import opened DocumentRecalculation

  // ----- the text to sign -----

  // The tax rows of lines are the charges of computed lines.
  predicate RowsOf(lines: seq<StoredLine>, computed: seq<LineComputed>) {
    |lines| == |computed| && forall i :: 0 <= i < |lines| ==> lines[i].taxes == StoreTaxes(computed[i].taxAmounts)
  }

  lemma RowsStored(lines: seq<StoredLine>, inputs: seq<LineInput>, before: seq<LineComputed>)
    requires StoredFrom(lines, inputs, before)
    ensures RowsOf(lines, before)
  {
    hide Calculated, Store;
    forall i | 0 <= i < |lines| ensures lines[i].taxes == StoreTaxes(before[i].taxAmounts) {
      StoredTaxesOf(inputs[i], before[i]);
    }
  }

  lemma RowsComputed(read: seq<StoredLine>, computed: seq<LineComputed>)
    requires Recomputes(read, computed)
    ensures RowsOf(StoreAll(LoadAll(read), computed), computed)
  {
    hide Load, Store, Recalculated;
    forall i | 0 <= i < |read| ensures StoreAll(LoadAll(read), computed)[i].taxes == StoreTaxes(computed[i].taxAmounts) {
      StoredTaxesOf(Load(read[i]), computed[i]);
    }
  }

  predicate SameCounts(a: seq<LineComputed>, b: seq<LineComputed>) {
    |a| == |b| && forall i :: 0 <= i < |a| ==> |b[i].taxAmounts| == |a[i].taxAmounts|
  }

  lemma SameMoneyCounts(a: seq<LineComputed>, b: seq<LineComputed>)
    requires SameMoneyAll(a, b)
    ensures SameCounts(a, b)
  {
    forall i | 0 <= i < |a| ensures |b[i].taxAmounts| == |a[i].taxAmounts| {
      assert |multiset(b[i].taxAmounts)| == |multiset(ZeroFixedRates(a[i].taxAmounts))|;
    }
  }

  // Rows that show the same are charges of the same types and amounts.
  lemma ShownCharges(layout: Layout, a: seq<TaxComputed>, b: seq<TaxComputed>)
    requires ShowSame(layout, StoreTaxes(a), StoreTaxes(b))
    ensures Amounts(a) == Amounts(b)
  {
    hide Shown;
    assert |a| == |StoreTaxes(a)| == |b|;
    forall i | 0 <= i < |a| ensures Amounts(a)[i] == Amounts(b)[i] {
      ShownAmounts(layout, StoreTaxes(a)[i], StoreTaxes(b)[i]);
    }
  }

  lemma ShownTotals(layout: Layout, rows: seq<StoredLine>, read: seq<StoredLine>, a: seq<LineComputed>, b: seq<LineComputed>)
    requires RowsOf(rows, a) && RowsOf(read, b) && AllShowSame(layout, rows, read, 0)
    ensures TaxTotalsOf(a) == TaxTotalsOf(b)
  {
    hide ShowSame, StoreTaxes, Amounts;
    forall i | 0 <= i < |a| ensures Amounts(a[i].taxAmounts) == Amounts(b[i].taxAmounts) {
      ShownCharges(layout, a[i].taxAmounts, b[i].taxAmounts);
    }
    SameOrderSameTotals(a, b);
  }

  // Two ways to compute a document with the same columns and totals give one text exactly when the rows show the same.
  lemma TextShowsExactly(layout: Layout, header: seq<Field>, settings: seq<Field>, rows: seq<StoredLine>,
                         read: seq<StoredLine>, a: seq<LineComputed>, b: seq<LineComputed>, extraDiscount: int)
    requires RowsOf(rows, a) && RowsOf(read, b) && SameCounts(a, b) && SameColumns(rows, read)
    requires SameTotals(TotalsOf(a, extraDiscount), TotalsOf(b, extraDiscount))
    ensures Canon(Payload(layout, header, settings, rows, TotalsOf(a, extraDiscount)))
         == Canon(Payload(layout, header, settings, read, TotalsOf(b, extraDiscount)))
       <==> AllShowSame(layout, rows, read, 0)
  {
    hide TotalsOf, AllShowSame, Canon, Payload, TaxTotalsOf;
    var t, u := TotalsOf(a, extraDiscount), TotalsOf(b, extraDiscount);
    assert |t.taxTotals| == |multiset(t.taxTotals)| == |multiset(u.taxTotals)| == |u.taxTotals|;
    if AllShowSame(layout, rows, read, 0) {
      ShownTotals(layout, rows, read, a, b);
      SameButTaxTotals(a, b, extraDiscount);
    }
    assert OtherRows(rows, read);
    PayloadsShowExactly(layout, header, settings, rows, read, t, u);
  }

  /** Recalculated under the same settings, such a document keeps its text exactly when its rows show what they showed. */
  lemma RecalculationShowsExactly(s: State, dto: Dto, settings: seq<Field>, read: seq<StoredLine>, layout: Layout)
    requires Builds(s.doc, dto, settings, layout) && s.doc.canonical == Canon(s.doc.payload) && AllKeepUses(dto)
    requires MutationError(s.doc).None? && ReadsAs(s.doc.lines, read)
    ensures var r := Recalculate(s, read, Some(settings), layout);
            r.Ok? && (r.value.doc.canonical == s.doc.canonical <==> AllShowSame(layout, s.doc.lines, r.value.doc.lines, 0))
  {
    hide TotalsOf, StoreAll, LoadAll, SameTotals, SameColumns, Recomputes, AllKeepUses, ReadsAs, StoredFrom, Payload, Canon,
         AllShowSame, CalculateAll, SameMoneyAll;
    var before, after := Recomputing(s.doc, dto, settings, read, layout);
    RebuildsFrom(s.doc, read, after, settings, layout);
    RowsStored(s.doc.lines, dto.lines, before);
    RowsComputed(read, after);
    SameMoneyCounts(before, after);
    TextShowsExactly(layout, s.doc.header, settings, s.doc.lines, StoreAll(LoadAll(read), after), before, after,
                     s.doc.extraDiscount);
  }
  // Recalculated rows have the types of the rows that were read, in their order.
  lemma RecalculatedTypes(read: seq<StoredLine>, computed: seq<LineComputed>, i: nat)
    requires Recomputes(read, computed) && i < |read|
    ensures var rows := StoreAll(LoadAll(read), computed)[i].taxes;
            |rows| == |read[i].taxes| && forall k :: 0 <= k < |rows| ==> rows[k].taxType == read[i].taxes[k].taxType
  {
    hide Calculated, LineContext, LoadTax, ComputedAll, CodeOf;
    assert Recalculated(read[i]) == Ok(computed[i]);
    var input := Load(read[i]);
    PartsCharge(input);
    StoredTaxesOf(input, computed[i]);
    var rows := StoreAll(LoadAll(read), computed)[i].taxes;
    assert rows == Stored(input.taxes, LineContext(input));
    forall k | 0 <= k < |rows| ensures rows[k].taxType == read[i].taxes[k].taxType {
      ComputedType(input.taxes, LineContext(input), k);
      LoadKeepsType(read[i].taxes[k]);
    }
  }

  // A row that is read in the place of one of another type changes the text.
  lemma MovedRowChangesText(s: State, dto: Dto, settings: seq<Field>, read: seq<StoredLine>, layout: Layout, i: nat, k: nat)
    requires Builds(s.doc, dto, settings, layout) && s.doc.canonical == Canon(s.doc.payload) && AllKeepUses(dto)
    requires MutationError(s.doc).None? && ReadsAs(s.doc.lines, read)
    requires i < |read| && k < |read[i].taxes| == |s.doc.lines[i].taxes|
    requires read[i].taxes[k].taxType != s.doc.lines[i].taxes[k].taxType
    ensures var r := Recalculate(s, read, Some(settings), layout);
            r.Ok? && r.value.doc.canonical != s.doc.canonical
  {
    hide TotalsOf, StoreAll, LoadAll, SameTotals, SameColumns, Recomputes, AllKeepUses, ReadsAs, StoredFrom, Payload, Canon,
         CalculateAll, SameMoneyAll, Shown;
    var before, after := Recomputing(s.doc, dto, settings, read, layout);
    RebuildsFrom(s.doc, read, after, settings, layout);
    RecalculationShowsExactly(s, dto, settings, read, layout);
    RecalculatedTypes(read, after, i);
    var rows := Recalculate(s, read, Some(settings), layout).value.doc.lines;
    if AllShowSame(layout, s.doc.lines, rows, 0) {
      assert ShowSame(layout, s.doc.lines[i].taxes, rows[i].taxes);
      ShownAmounts(layout, s.doc.lines[i].taxes[k], rows[i].taxes[k]);
      assert false;
    }
  }

  // Value added tax and withholding tax on one line.
  function TwoTaxes(): seq<TaxInput> {
    [TaxInput("T1", "V009", Rate(14.0, false), None), TaxInput("T4", "W001", Rate(1.0, false), None)]
  }

  function TwoTaxLine(): LineInput {
    LineInput(1.0, 100.0, None, None, TwoTaxes(), None, None)
  }

  lemma TwoTaxesKeepUses()
    ensures KeepsUses(TwoTaxes()) && Repeated(Keys(TwoTaxes())) == [] && TaxProperties.Complete(TwoTaxes())
  {
    hide CodeOf, FirstMissing, Repeated, Keys, KeepsUses;
    TaxOrder.NormalizedT1();
    NormalizedT4();
    assert TaxProperties.UniqueCodes(TwoTaxes());
    UniqueCodesPassCheck(TwoTaxes());
    UniqueStableSurvive(TwoTaxes());
  }

  lemma NormalizedT4()
    ensures CodeOf("T4") == T(4)
  {
    assert Normalize("T4") == "T4";
  }

  /** Reading two tax rows the other way round changes the text of a document, though none of its amounts. */
  lemma SwappedRowsChangeText(header: seq<Field>, settings: seq<Field>, layout: Layout)
    ensures var dto := Dto(header, [TwoTaxLine()], 0);
            var created := Create(dto, Some(settings), layout);
            && created.Ok?
            && |created.value.doc.lines| == 1
            && |created.value.doc.lines[0].taxes| == 2
            && var line := created.value.doc.lines[0];
               var read := [line.(taxes := [line.taxes[1], line.taxes[0]])];
               var r := Recalculate(created.value, read, Some(settings), layout);
               && ReadsAs(created.value.doc.lines, read)
               && r.Ok?
               && SameColumns(created.value.doc.lines, r.value.doc.lines)
               && SameTotals(created.value.doc.totals, r.value.doc.totals)
               && r.value.doc.canonical != created.value.doc.canonical
  {
    hide CodeOf, Payload, Canon, TotalsOf, ComputedAll, KeepsUses, Calculated, Store, SameTotals, SameColumns, Recalculate,
         CalculateAll, TwoTaxes;
    var dto := Dto(header, [TwoTaxLine()], 0);
    var computed := TwoTaxesCompute(header);
    var s := Create(dto, Some(settings), layout).value;
    var line := s.doc.lines[0];
    var read := [line.(taxes := [line.taxes[1], line.taxes[0]])];
    assert line == Store(TwoTaxLine(), computed);
    assert multiset(line.taxes) == multiset{line.taxes[0], line.taxes[1]} by {
      assert line.taxes == [line.taxes[0], line.taxes[1]];
    }
    assert Builds(s.doc, dto, settings, layout);
    RecalculatingKeepsMoney(s, dto, settings, read, settings, layout);
    MovedRowChangesText(s, dto, settings, read, layout, 0, 0);
  }

  lemma TwoTaxesCompute(header: seq<Field>) returns (c: LineComputed)
    ensures AllKeepUses(Dto(header, [TwoTaxLine()], 0)) && CalculateAll([TwoTaxLine()]) == Some([c])
    ensures var rows := Store(TwoTaxLine(), c).taxes; |rows| == 2 && rows[0].taxType == "T1" && rows[1].taxType == "T4"
  {
    hide CodeOf, ComputedAll, KeepsUses, LineContext, SalesTotal, LineDiscount, TotalFees, Repeated, TaxProperties.Complete;
    TwoTaxesKeepUses();
    CalculatedFrom(TwoTaxLine());
    c := Calculated(TwoTaxLine()).value;
    CalculatesEach([TwoTaxLine()]);
    assert CalculateAll([TwoTaxLine()]).value == [c];
    PartsCharge(TwoTaxLine());
    ComputedType(TwoTaxes(), LineContext(TwoTaxLine()), 0);
    ComputedType(TwoTaxes(), LineContext(TwoTaxLine()), 1);
  }

  // ----- recalculating twice -----

  predicate SameRateCode(t: StoredTax, u: StoredTax) {
    CodeOf(t.taxType) == CodeOf(u.taxType) && !IsFixedAmount(CodeOf(t.taxType))
  }

  // Rows of one code on a line have one rate.
  predicate OneRateEach(l: StoredLine) {
    forall i, j :: 0 <= i < |l.taxes| && 0 <= j < |l.taxes| && SameRateCode(l.taxes[i], l.taxes[j]) ==>
      l.taxes[i].rate.percent == l.taxes[j].rate.percent
  }

  lemma OneRateRowsAgree(input: LineInput, c: LineComputed)
    requires Calculated(input) == Ok(c) && OneRateEach(Store(input, c))
    ensures RowsAgree(input.taxes)
  {
    hide CodeOf, FixedAmount, DisplayRate, ComputedAll, Calculated, LineContext;
    PartsCharge(input);
    var rows := Store(input, c).taxes;
    forall i | 0 <= i < |input.taxes|
      ensures rows[i].taxType == input.taxes[i].taxType && rows[i].rate == DisplayRate(input.taxes[i].rate)
    {
      assert ComputedAll(input.taxes, LineContext(input))[i] == Computed(input.taxes, LineContext(input), input.taxes[i]);
    }
    assert |rows| == |input.taxes|;
    forall i, j | 0 <= i < |input.taxes| && 0 <= j < |input.taxes| && Code(input.taxes[i]) == Code(input.taxes[j])
      ensures ReloadedUse(input.taxes, input.taxes[i]) == ReloadedUse(input.taxes, input.taxes[j])
    {
      if !IsFixedAmount(Code(input.taxes[i])) {
        assert SameRateCode(rows[i], rows[j]);
        assert rows[i].rate.percent == rows[j].rate.percent;
      }
    }
  }

  // The charges of the two recalculations are the same money, line by line.
  predicate SameMoneyEach(a: seq<LineComputed>, b: seq<LineComputed>) {
    |a| == |b| && forall i :: 0 <= i < |a| ==> SameMoney(b[i], a[i])
  }

  lemma SameMoneyEachTotals(a: seq<LineComputed>, b: seq<LineComputed>, extraDiscount: int)
    requires SameMoneyEach(a, b)
    ensures SameTotals(TotalsOf(a, extraDiscount), TotalsOf(b, extraDiscount))
  {
    hide Sum, TaxTotalsOf, Amounts;
    forall i | 0 <= i < |a| ensures multiset(Amounts(a[i].taxAmounts)) == multiset(Amounts(b[i].taxAmounts)) {
      PermutedMap(b[i].taxAmounts, a[i].taxAmounts, ChargedAmount);
      AmountsAreMapped(a[i].taxAmounts);
      AmountsAreMapped(b[i].taxAmounts);
    }
    TaxTotalsIgnoreOrder(a, b);
    SumPointwise(a, b, (l: LineComputed) => l.salesTotal);
    SumPointwise(a, b, (l: LineComputed) => l.discount);
    SumPointwise(a, b, (l: LineComputed) => l.netTotal);
    SumPointwise(a, b, (l: LineComputed) => l.total);
    SumPointwise(a, b, (l: LineComputed) => l.itemsDiscount);
  }

  lemma AmountsAreMapped(charged: seq<TaxComputed>)
    ensures Amounts(charged) == Map(charged, ChargedAmount)
  {
  }

  lemma StoredSameAmounts(a: seq<TaxComputed>, b: seq<TaxComputed>)
    requires StoreTaxes(a) == StoreTaxes(b)
    ensures Amounts(a) == Amounts(b)
  {
    assert |a| == |StoreTaxes(a)| == |b|;
    forall i | 0 <= i < |a| ensures Amounts(a)[i] == Amounts(b)[i] {
      assert StoreTaxes(a)[i] == StoreTaxes(b)[i];
    }
  }

  lemma {:induction false} AddAllSame(entries: TaxTotals, a: seq<TaxComputed>, b: seq<TaxComputed>)
    requires Amounts(a) == Amounts(b)
    ensures AddAll(entries, a) == AddAll(entries, b)
    decreases |a|
  {
    assert |a| == |Amounts(a)| == |b|;
    if a != [] {
      var n := |a| - 1;
      assert Amounts(a)[n] == Amounts(b)[n];
      assert Amounts(a[..n]) == Amounts(a)[..n] && Amounts(b[..n]) == Amounts(b)[..n];
      AddAllSame(entries, a[..n], b[..n]);
    }
  }

  lemma {:induction false} SameOrderSameTotals(a: seq<LineComputed>, b: seq<LineComputed>)
    requires |a| == |b| && forall i :: 0 <= i < |a| ==> Amounts(a[i].taxAmounts) == Amounts(b[i].taxAmounts)
    ensures TaxTotalsOf(a) == TaxTotalsOf(b)
    decreases |a|
  {
    hide Amounts, AddAll;
    if a != [] {
      var n := |a| - 1;
      SameOrderSameTotals(a[..n], b[..n]);
      AddAllSame(TaxTotalsOf(a[..n]), a[n].taxAmounts, b[n].taxAmounts);
    }
  }

  lemma SecondLines(lines: seq<StoredLine>, inputs: seq<LineInput>, before: seq<LineComputed>, read: seq<StoredLine>,
                    first: seq<LineComputed>, again: seq<StoredLine>)
    returns (second: seq<LineComputed>)
    requires StoredFrom(lines, inputs, before) && ReadsAs(lines, read) && Recomputes(read, first)
    requires forall i :: 0 <= i < |lines| ==> OneRateEach(lines[i])
    requires ReadsAs(StoreAll(LoadAll(read), first), again)
    ensures Recomputes(again, second) && SameMoneyEach(first, second) && StoreAll(LoadAll(again), second) == again
    ensures again == StoreAll(LoadAll(read), first) ==> TaxTotalsOf(second) == TaxTotalsOf(first)
  {
    hide Calculated, Store, Load, ReadBack, OneRateEach, SameMoney, RowsAgree;
    forall i | 0 <= i < |again|
      ensures Recalculated(again[i]).Ok? && SameMoney(Recalculated(again[i]).value, first[i])
      ensures Store(Load(again[i]), Recalculated(again[i]).value) == again[i]
    {
      OneRateRowsAgree(inputs[i], before[i]);
      assert StoreAll(LoadAll(read), first)[i] == Store(Load(read[i]), first[i]);
      SecondRecalculation(inputs[i], read[i], again[i]);
    }
    second := seq(|again|, i requires 0 <= i < |again| && Recalculated(again[i]).Ok? => Recalculated(again[i]).value);
    assert StoreAll(LoadAll(again), second) == again;
    if again == StoreAll(LoadAll(read), first) {
      forall i | 0 <= i < |again| ensures Amounts(second[i].taxAmounts) == Amounts(first[i].taxAmounts) {
        StoredTaxesOf(Load(again[i]), second[i]);
        StoredTaxesOf(Load(read[i]), first[i]);
        assert StoreAll(LoadAll(again), second)[i] == StoreAll(LoadAll(read), first)[i];
        StoredSameAmounts(second[i].taxAmounts, first[i].taxAmounts);
      }
      SameOrderSameTotals(second, first);
    }
  }

  lemma StoredTaxesOf(input: LineInput, c: LineComputed)
    ensures Store(input, c).taxes == StoreTaxes(c.taxAmounts)
  {
  }

  lemma SameMoneyEachCounts(a: seq<LineComputed>, b: seq<LineComputed>)
    requires SameMoneyEach(a, b)
    ensures SameCounts(a, b)
  {
    forall i | 0 <= i < |a| ensures |b[i].taxAmounts| == |a[i].taxAmounts| {
      assert |multiset(b[i].taxAmounts)| == |multiset(a[i].taxAmounts)|;
    }
  }

  lemma ReadColumns(lines: seq<StoredLine>, read: seq<StoredLine>)
    requires ReadsAs(lines, read)
    ensures SameColumns(lines, read)
  {
  }

  /**
   When rows of one code on a line have one rate, a second recalculation stores the lines exactly as it reads them and
   keeps every total. It keeps the text exactly when the rows, as read, show what they showed; with the rows read as
   they were stored it changes nothing but the version.
   */
  lemma RecalculatingTwice(s: State, read: seq<StoredLine>, again: seq<StoredLine>, settings: seq<Field>, layout: Layout)
    requires Agrees(s.doc, layout) && MutationError(s.doc).None? && ReadsAs(s.doc.lines, read)
    requires forall i :: 0 <= i < |s.doc.lines| ==> OneRateEach(s.doc.lines[i])
    requires Recalculate(s, read, Some(settings), layout).Ok?
    requires ReadsAs(Recalculate(s, read, Some(settings), layout).value.doc.lines, again)
    ensures var first := Recalculate(s, read, Some(settings), layout).value;
            var second := Recalculate(first, again, Some(settings), layout);
            && second.Ok?
            && second.value.doc.lines == again
            && SameTotals(first.doc.totals, second.value.doc.totals)
            && (again == first.doc.lines ==> second.value.doc == first.doc.(version := first.doc.version + 1))
            && (second.value.doc.canonical == first.doc.canonical <==> AllShowSame(layout, first.doc.lines, again, 0))
  {
    hide CalculateAll, TotalsOf, Canon, Recomputes, Payload, OneRateEach, Agrees, StoredFrom, ReadsAs, SameTotals,
         StoreAll, LoadAll, Build, AllShowSame, SameColumns;
    var inputs, before := ContentOf(s.doc, layout);
    var once := ReadLinesRecompute(s.doc.lines, inputs, before, read);
    RebuildsFrom(s.doc, read, once, settings, layout);
    var first := Recalculate(s, read, Some(settings), layout).value;
    var twice := SecondLines(s.doc.lines, inputs, before, read, once, again);
    RebuildsFrom(first.doc, again, twice, settings, layout);
    SameMoneyEachTotals(once, twice, s.doc.extraDiscount);
    RowsComputed(read, once);
    RowsComputed(again, twice);
    SameMoneyEachCounts(once, twice);
    ReadColumns(first.doc.lines, again);
    TextShowsExactly(layout, s.doc.header, settings, first.doc.lines, again, once, twice, s.doc.extraDiscount);
    if again == first.doc.lines { SameButTaxTotals(once, twice, s.doc.extraDiscount); }
  }

  lemma SameButTaxTotals(a: seq<LineComputed>, b: seq<LineComputed>, extraDiscount: int)
    requires SameTotals(TotalsOf(a, extraDiscount), TotalsOf(b, extraDiscount)) && TaxTotalsOf(a) == TaxTotalsOf(b)
    ensures TotalsOf(a, extraDiscount) == TotalsOf(b, extraDiscount)
  {
  }
}
