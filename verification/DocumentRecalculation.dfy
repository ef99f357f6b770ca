/**
 Recalculating a stored document whose tax rows are read back in any order: it never fails on the lines, a document
 keeps the money of its last edit through any number of recalculations when its lists of taxes keep what they use.
 */
module DocumentRecalculation {
  import opened Wrappers
  import opened Json
  import opened CanonicalServer
  import opened Sums
  import opened TaxModes
  import opened InvoiceLines
  import opened DocumentTotals
  import opened Recalculation
  import opened EtaPayload
  import opened Documents
  import opened DocumentRuns
  // What recalculating makes of each line that was read.
  ghost predicate Recomputes(read: seq<StoredLine>, computed: seq<LineComputed>) {
    |read| == |computed| && forall i :: 0 <= i < |read| ==> Recalculated(read[i]) == Ok(computed[i])
  }
  lemma RebuildsFrom(d: Doc, read: seq<StoredLine>, computed: seq<LineComputed>, settings: seq<Field>, layout: Layout)
    requires Recomputes(read, computed)
    ensures var lines, totals := StoreAll(LoadAll(read), computed), TotalsOf(computed, d.extraDiscount);
            Build(FromStored(d, read), Some(settings), layout)
            == Some(Built(lines, totals, Payload(layout, d.header, settings, lines, totals)))
  {
    hide Calculated, Load, Store, TotalsOf, CalculateAll, Payload;
    CalculatesEach(LoadAll(read));
    var r := CalculateAll(LoadAll(read));
    forall i | 0 <= i < |read| ensures Calculated(LoadAll(read)[i]) == Ok(computed[i]) {
      assert Recalculated(read[i]) == Ok(computed[i]);
    }
    assert r.value == computed;
  }
  // Lines as they were computed and stored.
  ghost predicate StoredFrom(lines: seq<StoredLine>, inputs: seq<LineInput>, before: seq<LineComputed>) {
    |lines| == |inputs| == |before|
    && forall i :: 0 <= i < |lines| ==> Calculated(inputs[i]) == Ok(before[i]) && lines[i] == Store(inputs[i], before[i])
  }
  lemma ContentOf(d: Doc, layout: Layout) returns (inputs: seq<LineInput>, before: seq<LineComputed>)
    requires Agrees(d, layout)
    ensures StoredFrom(d.lines, inputs, before) && d.totals == TotalsOf(before, d.extraDiscount)
  {
    hide Calculated, Load, Store, Canon, TotalsOf, CalculateAll, Payload;
    var dto: Dto, settings: seq<Field> :| Builds(d, dto, settings, layout);
    CalculatesEach(dto.lines);
    inputs, before := dto.lines, CalculateAll(dto.lines).value;
  }
  // ----- never refused -----
  lemma ReadLinesRecompute(lines: seq<StoredLine>, inputs: seq<LineInput>, before: seq<LineComputed>, read: seq<StoredLine>)
    returns (computed: seq<LineComputed>)
    requires StoredFrom(lines, inputs, before) && ReadsAs(lines, read)
    ensures Recomputes(read, computed)
  {
    hide Calculated, Store, Recalculated, ReadBack;
    forall i | 0 <= i < |read| ensures Recalculated(read[i]).Ok? {
      StoredLineIsAccepted(inputs[i], read[i]);
    }
    computed := seq(|read|, i requires 0 <= i < |read| && Recalculated(read[i]).Ok? => Recalculated(read[i]).value);
  }
  /** An editable document that agrees with its content can be recalculated, however its rows come back. */
  lemma RecalculationNeverFails(s: State, read: seq<StoredLine>, settings: seq<Field>, layout: Layout)
    requires Agrees(s.doc, layout) && MutationError(s.doc).None? && ReadsAs(s.doc.lines, read)
    ensures Recalculate(s, read, Some(settings), layout).Ok?
  {
    hide Build, Agrees, Recomputes, ReadsAs, StoredFrom, FromStored;
    var inputs, before := ContentOf(s.doc, layout);
    var computed := ReadLinesRecompute(s.doc.lines, inputs, before, read);
    RebuildsFrom(s.doc, read, computed, settings, layout);
  }
  // ----- the money of a saved document -----
  // Equal totals, the tax totals in any order.
  predicate SameTotals(t: Totals, u: Totals) {
    u == t.(taxTotals := u.taxTotals) && multiset(u.taxTotals) == multiset(t.taxTotals)
  }
  // Equal columns; the tax rows are another matter.
  predicate SameColumns(a: seq<StoredLine>, b: seq<StoredLine>) {
    |a| == |b| && forall i :: 0 <= i < |a| ==> b[i] == a[i].(taxes := b[i].taxes)
  }
  predicate SameMoneyAll(a: seq<LineComputed>, b: seq<LineComputed>) {
    |a| == |b| && forall i :: 0 <= i < |a| ==> SameMoney(b[i], a[i].(taxAmounts := ZeroFixedRates(a[i].taxAmounts)))
  }
  lemma SameMoneyCharges(a: LineComputed, b: LineComputed)
    requires SameMoney(b, a.(taxAmounts := ZeroFixedRates(a.taxAmounts)))
    ensures multiset(Amounts(a.taxAmounts)) == multiset(Amounts(b.taxAmounts))
  {
    hide CodeOf;
    PermutedMap(b.taxAmounts, ZeroFixedRates(a.taxAmounts), ChargedAmount);
    assert Amounts(b.taxAmounts) == Map(b.taxAmounts, ChargedAmount);
    assert Amounts(a.taxAmounts) == Map(ZeroFixedRates(a.taxAmounts), ChargedAmount);
  }
  lemma SameMoneySameTotals(a: seq<LineComputed>, b: seq<LineComputed>, extraDiscount: int)
    requires SameMoneyAll(a, b)
    ensures SameTotals(TotalsOf(a, extraDiscount), TotalsOf(b, extraDiscount))
  {
    hide Sum, TaxTotalsOf, Amounts, ZeroFixedRates;
    forall i | 0 <= i < |a| ensures multiset(Amounts(a[i].taxAmounts)) == multiset(Amounts(b[i].taxAmounts)) {
      SameMoneyCharges(a[i], b[i]);
    }
    TaxTotalsIgnoreOrder(a, b);
    SumPointwise(a, b, (l: LineComputed) => l.salesTotal);
    SumPointwise(a, b, (l: LineComputed) => l.discount);
    SumPointwise(a, b, (l: LineComputed) => l.netTotal);
    SumPointwise(a, b, (l: LineComputed) => l.total);
    SumPointwise(a, b, (l: LineComputed) => l.itemsDiscount);
  }
  // Every list of taxes keeps what it uses in storage.
  predicate AllKeepUses(dto: Dto) {
    forall i :: 0 <= i < |dto.lines| ==> KeepsUses(dto.lines[i].taxes)
  }
  lemma StoresTheSame(input: LineInput, c: LineComputed, read: StoredLine, d: LineComputed)
    requires ReadBack(Store(input, c), read) && SameMoney(d, c.(taxAmounts := ZeroFixedRates(c.taxAmounts)))
    ensures Store(Load(read), d) == Store(input, c).(taxes := StoreTaxes(d.taxAmounts))
  {
    hide StoreTaxes, ZeroFixedRates, LoadTaxes;
  }
  // A document's lines and what they are computed to, as its content had them and as recalculated.
  lemma Recomputing(d: Doc, dto: Dto, settings: seq<Field>, read: seq<StoredLine>, layout: Layout)
    returns (before: seq<LineComputed>, after: seq<LineComputed>)
    requires Builds(d, dto, settings, layout) && AllKeepUses(dto) && ReadsAs(d.lines, read)
    ensures StoredFrom(d.lines, dto.lines, before) && d.totals == TotalsOf(before, d.extraDiscount)
    ensures Recomputes(read, after) && SameMoneyAll(before, after)
    ensures SameTotals(d.totals, TotalsOf(after, d.extraDiscount)) && SameColumns(d.lines, StoreAll(LoadAll(read), after))
  {
    hide Calculated, Load, Store, Canon, TotalsOf, CalculateAll, KeepsUses, SameMoney, ZeroFixedRates, Payload, ReadBack,
         SameTotals, Recomputes;
    CalculatesEach(dto.lines);
    before := CalculateAll(dto.lines).value;
    assert StoredFrom(d.lines, dto.lines, before);
    after := ReadLinesRecompute(d.lines, dto.lines, before, read);
    RecomputesAll(dto.lines, before, read, after);
    SameMoneySameTotals(before, after, dto.extraDiscount);
    forall i | 0 <= i < |read|
      ensures StoreAll(LoadAll(read), after)[i] == d.lines[i].(taxes := StoreAll(LoadAll(read), after)[i].taxes)
    {
      StoresTheSame(dto.lines[i], before[i], read[i], after[i]);
      TaxesOf(dto.lines[i], before[i], StoreTaxes(after[i].taxAmounts));
    }
  }
  /**
   A document whose lists of taxes keep what they use recalculates to the same columns and totals, whatever the order of
   its rows; only the order of charges and tax totals follows the rows.
   */
  lemma RecalculatingKeepsMoney(s: State, dto: Dto, settings: seq<Field>, read: seq<StoredLine>, now: seq<Field>,
                                layout: Layout)
    requires Builds(s.doc, dto, settings, layout) && AllKeepUses(dto)
    requires MutationError(s.doc).None? && ReadsAs(s.doc.lines, read)
    ensures var r := Recalculate(s, read, Some(now), layout);
            r.Ok? && SameTotals(s.doc.totals, r.value.doc.totals) && SameColumns(s.doc.lines, r.value.doc.lines)
  {
    hide Builds, Build, TotalsOf, StoreAll, LoadAll, SameTotals, SameColumns, Recomputes, AllKeepUses, ReadsAs, StoredFrom,
         Payload, Canon;
    var before, after := Recomputing(s.doc, dto, settings, read, layout);
    RebuildsFrom(s.doc, read, after, now, layout);
  }
  // The content a recalculation is built from keeps what it uses as well.
  lemma KeepUsesPersists(d: Doc, dto: Dto, settings: seq<Field>, read: seq<StoredLine>, layout: Layout)
    requires Builds(d, dto, settings, layout) && AllKeepUses(dto) && ReadsAs(d.lines, read)
    ensures AllKeepUses(FromStored(d, read))
  {
    hide Calculated, Load, Store, TotalsOf, CalculateAll, KeepsUses, Payload, ReadBack;
    CalculatesEach(dto.lines);
    forall i | 0 <= i < |read| ensures KeepsUses(Load(read[i]).taxes) {
      KeptLinePersists(dto.lines[i], read[i]);
    }
  }
  lemma TaxesOf(input: LineInput, c: LineComputed, taxes: seq<StoredTax>)
    ensures Store(input, c).(taxes := taxes).taxes == taxes
  {
  }
  lemma RecomputesAll(inputs: seq<LineInput>, before: seq<LineComputed>, read: seq<StoredLine>, after: seq<LineComputed>)
    requires |inputs| == |before| == |read| && Recomputes(read, after)
    requires forall i :: 0 <= i < |inputs| ==>
               Calculated(inputs[i]) == Ok(before[i]) && KeepsUses(inputs[i].taxes)
               && ReadBack(Store(inputs[i], before[i]), read[i])
    ensures SameMoneyAll(before, after)
  {
    hide Calculated, Store, KeepsUses, SameMoney, ZeroFixedRates, ReadBack, Recalculated;
    forall i | 0 <= i < |inputs|
      ensures SameMoney(after[i], before[i].(taxAmounts := ZeroFixedRates(before[i].taxAmounts)))
    {
      RecalculationKeepsMoney(inputs[i], read[i]);
    }
  }
  // ----- whole runs -----
  // What a user last saved, and the row as it stood then.
  datatype Edition = Edition(content: Dto, row: Doc)
  function LastEdition(dto: Dto, s: State, es: seq<Event>, layout: Layout): Edition {
    if es == [] then Edition(dto, s.doc)
    else
      var init, e := es[..|es| - 1], es[|es| - 1];
      var before := Run(s, init, layout);
      if e.Edit? && Changes(before, e, layout) then Edition(e.dto, Step(before, e, layout).doc)
      else LastEdition(dto, s, init, layout)
  }
  // The row is built from a content that keeps what it uses, with the columns and totals of another row.
  ghost predicate KeepsMoneyOf(d: Doc, row: Doc, layout: Layout) {
    && SameTotals(row.totals, d.totals)
    && SameColumns(row.lines, d.lines)
    && exists dto: Dto, settings: seq<Field> :: Builds(d, dto, settings, layout) && AllKeepUses(dto)
  }
  lemma SavedKeeps(origin: Origin, version: nat, dto: Dto, settings: seq<Field>, layout: Layout)
    requires Build(dto, Some(settings), layout).Some? && AllKeepUses(dto)
    ensures var d := Saved(origin, version, dto, Build(dto, Some(settings), layout).value); KeepsMoneyOf(d, d, layout)
  {
    hide Build, AllKeepUses;
    var b := Build(dto, Some(settings), layout).value;
    assert Builds(Saved(origin, version, dto, b), dto, settings, layout);
  }
  lemma OtherStatusKeeps(d: Doc, t: Doc, row: Doc, layout: Layout)
    requires KeepsMoneyOf(d, row, layout) && t.(status := d.status, signature := d.signature) == d
    ensures KeepsMoneyOf(t, row, layout)
  {
    hide Build, AllKeepUses;
    var dto: Dto, settings: seq<Field> :| Builds(d, dto, settings, layout) && AllKeepUses(dto);
    assert Builds(t, dto, settings, layout);
  }
  lemma SameMoneyChains(a: Doc, b: Doc, c: Doc)
    requires SameTotals(a.totals, b.totals) && SameTotals(b.totals, c.totals)
    requires SameColumns(a.lines, b.lines) && SameColumns(b.lines, c.lines)
    ensures SameTotals(a.totals, c.totals) && SameColumns(a.lines, c.lines)
  {
    forall i | 0 <= i < |a.lines| ensures c.lines[i] == a.lines[i].(taxes := c.lines[i].taxes) {
      assert b.lines[i] == a.lines[i].(taxes := b.lines[i].taxes);
    }
  }
  lemma RecomputeKeeps(s: State, row: Doc, read: seq<StoredLine>, settings: Option<seq<Field>>, layout: Layout)
    requires KeepsMoneyOf(s.doc, row, layout) && ReadsAs(s.doc.lines, read) && Recalculate(s, read, settings, layout).Ok?
    ensures KeepsMoneyOf(Recalculate(s, read, settings, layout).value.doc, row, layout)
  {
    hide Build, AllKeepUses, ReadsAs, SameTotals, SameColumns, FromStored, Builds;
    var dto: Dto, was: seq<Field> :| Builds(s.doc, dto, was, layout) && AllKeepUses(dto);
    BuildNeedsSettings(FromStored(s.doc, read), settings, layout);
    RecalculatingKeepsMoney(s, dto, was, read, settings.value, layout);
    KeepUsesPersists(s.doc, dto, was, read, layout);
    var after := Recalculate(s, read, settings, layout).value.doc;
    SameMoneyChains(row, s.doc, after);
    SavedKeeps(s.doc.origin, s.doc.version + 1, FromStored(s.doc, read), settings.value, layout);
  }
  lemma StepKeepsMoney(s: State, e: Event, row: Doc, layout: Layout)
    requires KeepsMoneyOf(s.doc, row, layout) && !(e.Edit? && Changes(s, e, layout))
    ensures KeepsMoneyOf(Step(s, e, layout).doc, row, layout)
  {
    hide Update, Recalculate, KeepsMoneyOf, ReadsAs, Enqueue, MoveJob, HandOut, Complete, MarkReady;
    if Changes(s, e, layout) {
      RecomputeKeeps(s, row, e.read, e.settings, layout);
    } else {
      var dto, settings := ContentStep(s, e, layout);
      OtherStatusKeeps(s.doc, Step(s, e, layout).doc, row, layout);
    }
  }
  lemma EditKeeps(s: State, e: Event, layout: Layout)
    requires e.Edit? && Changes(s, e, layout) && AllKeepUses(e.dto)
    ensures var d := Step(s, e, layout).doc; KeepsMoneyOf(d, d, layout)
  {
    hide Build, AllKeepUses, KeepsMoneyOf, CancelOpen, Saved;
    BuildNeedsSettings(e.dto, e.settings, layout);
    SavedKeeps(s.doc.origin, s.doc.version + 1, e.dto, e.settings.value, layout);
  }
  /**
   Through any number of recalculations and other requests a document keeps the columns and totals of its last edit, when
   the lists of taxes that were edited keep what they use.
   */
  lemma {:induction false} RunKeepsEditedMoney(dto: Dto, settings: Option<seq<Field>>, es: seq<Event>, layout: Layout)
    requires Create(dto, settings, layout).Ok?
    requires AllKeepUses(LastEdition(dto, Create(dto, settings, layout).value, es, layout).content)
    ensures var s := Create(dto, settings, layout).value;
            KeepsMoneyOf(Run(s, es, layout).doc, LastEdition(dto, s, es, layout).row, layout)
    decreases |es|
  {
    hide Step, Changes, AllKeepUses, KeepsMoneyOf, Build, Saved;
    var s := Create(dto, settings, layout).value;
    if es == [] {
      BuildNeedsSettings(dto, settings, layout);
      SavedKeeps(Local, 1, dto, settings.value, layout);
    } else {
      var init, e := es[..|es| - 1], es[|es| - 1];
      var before := Run(s, init, layout);
      if e.Edit? && Changes(before, e, layout) {
        EditKeeps(before, e, layout);
      } else {
        RunKeepsEditedMoney(dto, settings, init, layout);
        StepKeepsMoney(before, e, LastEdition(dto, s, es, layout).row, layout);
      }
    }
  }
  /** So in every such state one more recalculation, if the document may change, keeps the money of the last edit. */
  lemma ReachableMoney(dto: Dto, settings: Option<seq<Field>>, es: seq<Event>, read: seq<StoredLine>, now: seq<Field>,
                       layout: Layout)
    requires Create(dto, settings, layout).Ok?
    requires var s := Create(dto, settings, layout).value;
             && AllKeepUses(LastEdition(dto, s, es, layout).content)
             && MutationError(Run(s, es, layout).doc).None? && ReadsAs(Run(s, es, layout).doc.lines, read)
    ensures var s := Create(dto, settings, layout).value;
            var row, r := LastEdition(dto, s, es, layout).row, Recalculate(Run(s, es, layout), read, Some(now), layout);
            r.Ok? && SameTotals(row.totals, r.value.doc.totals) && SameColumns(row.lines, r.value.doc.lines)
  {
    hide Run, Create, LastEdition, Recalculate, MutationError, ReadsAs, AllKeepUses, SameTotals, SameColumns, Builds;
    RunKeepsEditedMoney(dto, settings, es, layout);
    ReachableRecalculation(dto, settings, es, read, now, layout);
    var s := Create(dto, settings, layout).value;
    RecomputeKeeps(Run(s, es, layout), LastEdition(dto, s, es, layout).row, read, Some(now), layout);
  }
  /** In every reachable state that may change, recalculating succeeds, however the rows come back. */
  lemma ReachableRecalculation(dto: Dto, settings: Option<seq<Field>>, es: seq<Event>, read: seq<StoredLine>,
                               now: seq<Field>, layout: Layout)
    requires Create(dto, settings, layout).Ok?
    requires var d := Run(Create(dto, settings, layout).value, es, layout).doc;
             MutationError(d).None? && ReadsAs(d.lines, read)
    ensures Recalculate(Run(Create(dto, settings, layout).value, es, layout), read, Some(now), layout).Ok?
  {
    hide Run, Create, Agrees, SigningMatches, JobsMatch, Recalculate, MutationError, ReadsAs;
    RunKeepsInv(dto, settings, es, layout);
    RecalculationNeverFails(Run(Create(dto, settings, layout).value, es, layout), read, now, layout);
  }
}
