/**
 The local check of declared totals against ETA's equations (local-validator.ts). Amounts are in piasters;
 `None` is a value that is absent or not a finite number.
 */
module Validator {
  import opened Wrappers
  import opened Sums
  import opened TaxModes
  import opened InvoiceLines
  import opened DocumentTotals

  const TOLERANCE := 50

  datatype DeclaredTax = NotAnObject | DeclaredTax(taxType: string, amount: Option<int>)

  datatype DeclaredLine =
    | NotALine
    | DeclaredLine(netTotal: Option<int>, total: Option<int>, itemsDiscount: Option<int>, taxableItems: seq<DeclaredTax>)

  datatype Declared = Declared(
    invoiceLines: seq<DeclaredLine>,
    netAmount: Option<int>,
    totalAmount: Option<int>,
    extraDiscountAmount: Option<int>)

  datatype Issue =
    | ItemTotalMismatch(line: nat, expected: int, actual: int)
    | NetAmountMismatch(expected: int, actual: int)
    | TotalAmountMismatch(expected: int, actual: int)

  function Or(amount: Option<int>, default: int): int {
    if amount.Some? then amount.value else default
  }

  // The signed difference when it is beyond the tolerance.
  function BeyondTolerance(expected: int, actual: int): Option<int> {
    var difference := actual - expected;
    if difference > TOLERANCE || difference < -TOLERANCE then Some(difference) else None
  }

  // ----- what a declared document says -----

  predicate CompleteTax(t: DeclaredTax) {
    t.DeclaredTax? && t.amount.Some?
  }

  predicate HasTotals(l: DeclaredLine) {
    l.DeclaredLine? && l.netTotal.Some? && l.total.Some?
  }

  predicate CompleteLine(l: DeclaredLine) {
    HasTotals(l) && forall i :: 0 <= i < |l.taxableItems| ==> CompleteTax(l.taxableItems[i])
  }

  // Taxes that can be read; the others make the document incomplete.
  function ReadableTaxes(items: seq<DeclaredTax>): seq<TaxAmount> {
    if items == [] then []
    else
      var n := |items| - 1;
      ReadableTaxes(items[..n]) +
      if CompleteTax(items[n]) then [TaxAmount(items[n].taxType, items[n].amount.value)] else []
  }

  function ExpectedTotal(l: DeclaredLine): int
    requires HasTotals(l)
  {
    Estimate(l.netTotal.value, Or(l.itemsDiscount, 0), ReadableTaxes(l.taxableItems)).total
  }

  function LineIssues(lines: seq<DeclaredLine>): seq<Issue> {
    if lines == [] then []
    else
      var n := |lines| - 1;
      var l := lines[n];
      LineIssues(lines[..n]) +
      if HasTotals(l) && BeyondTolerance(ExpectedTotal(l), l.total.value).Some?
      then [ItemTotalMismatch(n, ExpectedTotal(l), l.total.value)] else []
  }

  function NetPart(l: DeclaredLine): int {
    if HasTotals(l) then l.netTotal.value else 0
  }

  function TotalPart(l: DeclaredLine): int {
    if HasTotals(l) then l.total.value else 0
  }

  predicate Incomplete(lines: seq<DeclaredLine>) {
    exists i :: 0 <= i < |lines| && !CompleteLine(lines[i])
  }

  function DocumentIssues(d: Declared): seq<Issue> {
    var net, total := Sum(d.invoiceLines, NetPart), Sum(d.invoiceLines, TotalPart) - Or(d.extraDiscountAmount, 0);
    (if d.netAmount.Some? && BeyondTolerance(net, d.netAmount.value).Some?
     then [NetAmountMismatch(net, d.netAmount.value)] else []) +
    (if d.totalAmount.Some? && BeyondTolerance(total, d.totalAmount.value).Some?
     then [TotalAmountMismatch(total, d.totalAmount.value)] else [])
  }

  function Issues(d: Declared): seq<Issue> {
    LineIssues(d.invoiceLines) + if Incomplete(d.invoiceLines) then [] else DocumentIssues(d)
  }

  method ReadTaxes(items: seq<DeclaredTax>) returns (taxes: seq<TaxAmount>, readable: bool)
    ensures taxes == ReadableTaxes(items)
    ensures readable <==> forall i :: 0 <= i < |items| ==> CompleteTax(items[i])
  {
    taxes, readable := [], true;
    for i := 0 to |items|
      invariant taxes == ReadableTaxes(items[..i])
      invariant readable <==> forall j :: 0 <= j < i ==> CompleteTax(items[j])
    {
      assert items[..i + 1][..i] == items[..i];
      var t := items[i];
      if t.NotAnObject? || t.amount.None? {
        readable := false;
        continue;
      }
      taxes := taxes + [TaxAmount(t.taxType, t.amount.value)];
    }
    assert items[..|items|] == items;
  }

  lemma NothingChecked(lines: seq<DeclaredLine>)
    ensures LineIssues(lines[..0]) == [] && Sum(lines[..0], NetPart) == Sum(lines[..0], TotalPart) == 0
    ensures !Incomplete(lines[..0])
  {
  }

  // What one more line adds.
  lemma NextLine(lines: seq<DeclaredLine>, i: nat)
    requires i < |lines|
    ensures var l := lines[i];
            && LineIssues(lines[..i + 1]) == LineIssues(lines[..i]) +
               (if HasTotals(l) && BeyondTolerance(ExpectedTotal(l), l.total.value).Some?
                then [ItemTotalMismatch(i, ExpectedTotal(l), l.total.value)] else [])
            && Sum(lines[..i + 1], NetPart) == Sum(lines[..i], NetPart) + NetPart(l)
            && Sum(lines[..i + 1], TotalPart) == Sum(lines[..i], TotalPart) + TotalPart(l)
            && (Incomplete(lines[..i + 1]) <==> Incomplete(lines[..i]) || !CompleteLine(l))
  {
    hide ExpectedTotal, BeyondTolerance, NetPart, TotalPart, CompleteLine;
    assert lines[..i + 1][..i] == lines[..i] && lines[..i + 1][i] == lines[i];
    if Incomplete(lines[..i]) {
      var j :| 0 <= j < i && !CompleteLine(lines[..i][j]);
      assert lines[..i + 1][j] == lines[..i][j];
    }
    if Incomplete(lines[..i + 1]) {
      var j :| 0 <= j < i + 1 && !CompleteLine(lines[..i + 1][j]);
      if j < i { assert lines[..i][j] == lines[..i + 1][j]; }
    }
  }

  method CheckEtaTotals(d: Declared) returns (issues: seq<Issue>)
    ensures issues == Issues(d)
  {
    hide ReadableTaxes, Estimate, LineIssues, Sum, Incomplete;
    NothingChecked(d.invoiceLines);
    issues := [];
    var sumLineTotals, sumNetTotals, incomplete := 0, 0, false;
    var lines := d.invoiceLines;
    for i := 0 to |lines|
      invariant issues == LineIssues(lines[..i])
      invariant sumNetTotals == Sum(lines[..i], NetPart) && sumLineTotals == Sum(lines[..i], TotalPart)
      invariant incomplete <==> Incomplete(lines[..i])
    {
      NextLine(lines, i);
      var l := lines[i];
      if l.NotALine? {
        incomplete := true;
        continue;
      }
      if l.netTotal.None? || l.total.None? {
        incomplete := true;
        continue;
      }
      var taxes, readable := ReadTaxes(l.taxableItems);
      incomplete := incomplete || !readable;
      var estimate := EstimateEtaItemTotal(l.netTotal.value, Or(l.itemsDiscount, 0), taxes);
      var difference := BeyondTolerance(estimate.total, l.total.value);
      if difference.Some? {
        issues := issues + [ItemTotalMismatch(i, estimate.total, l.total.value)];
      }
      sumLineTotals := sumLineTotals + l.total.value;
      sumNetTotals := sumNetTotals + l.netTotal.value;
    }
    assert lines[..|lines|] == lines;
    if incomplete {
      return issues;
    }
    if d.netAmount.Some? {
      var difference := BeyondTolerance(sumNetTotals, d.netAmount.value);
      if difference.Some? {
        issues := issues + [NetAmountMismatch(sumNetTotals, d.netAmount.value)];
      }
    }
    if d.totalAmount.Some? {
      var expected := sumLineTotals - Or(d.extraDiscountAmount, 0);
      var difference := BeyondTolerance(expected, d.totalAmount.value);
      if difference.Some? {
        issues := issues + [TotalAmountMismatch(expected, d.totalAmount.value)];
      }
    }
  }

  // ----- what an accepted document guarantees -----

  function ExpectedPart(l: DeclaredLine): int {
    if HasTotals(l) then ExpectedTotal(l) else 0
  }

  lemma {:induction false} NoLineIssue(lines: seq<DeclaredLine>)
    requires LineIssues(lines) == []
    ensures forall i :: 0 <= i < |lines| && HasTotals(lines[i]) ==>
              -TOLERANCE <= lines[i].total.value - ExpectedTotal(lines[i]) <= TOLERANCE
    ensures -TOLERANCE * |lines| <= Sum(lines, TotalPart) - Sum(lines, ExpectedPart) <= TOLERANCE * |lines|
  {
    hide ExpectedTotal;
    if lines != [] {
      var n := |lines| - 1;
      assert LineIssues(lines[..n]) == [];
      NoLineIssue(lines[..n]);
      assert forall i :: 0 <= i < n ==> lines[..n][i] == lines[i];
    }
  }

  // Main result: a complete document that raises no issue declares a net amount within 0.5 of its lines'
  // and a total within 0.5 per line, plus 0.5, of ETA's equation summed from net totals and taxes.
  lemma AcceptedTotalsAreClose(d: Declared)
    requires !Incomplete(d.invoiceLines) && Issues(d) == []
    ensures d.netAmount.Some? ==> -TOLERANCE <= d.netAmount.value - Sum(d.invoiceLines, NetPart) <= TOLERANCE
    ensures d.totalAmount.Some? ==>
              var drift := d.totalAmount.value - (Sum(d.invoiceLines, ExpectedPart) - Or(d.extraDiscountAmount, 0));
              -TOLERANCE * (|d.invoiceLines| + 1) <= drift <= TOLERANCE * (|d.invoiceLines| + 1)
  {
    hide ExpectedTotal, Sum;
    assert LineIssues(d.invoiceLines) == [] && DocumentIssues(d) == [];
    NoLineIssue(d.invoiceLines);
  }

  // A line 0.5 over its equation.
  function Overstated(): DeclaredLine {
    DeclaredLine(Some(0), Some(TOLERANCE), None, [])
  }

  lemma {:induction false} OverstatedLines(n: nat)
    ensures var lines := seq(n, i => Overstated());
            && LineIssues(lines) == [] && Sum(lines, TotalPart) == TOLERANCE * n
            && Sum(lines, ExpectedPart) == 0 && Sum(lines, NetPart) == 0
  {
    if n > 0 {
      var lines := seq(n, i => Overstated());
      OverstatedLines(n - 1);
      assert lines[..n - 1] == seq(n - 1, i => Overstated());
      assert lines[n - 1] == Overstated();
    }
  }

  // The bound is sharp: for every number of lines some accepted complete document drifts that far.
  lemma DriftIsAttained(n: nat)
    ensures exists d: Declared ::
              && |d.invoiceLines| == n && !Incomplete(d.invoiceLines) && Issues(d) == []
              && d.totalAmount.Some?
              && d.totalAmount.value - (Sum(d.invoiceLines, ExpectedPart) - Or(d.extraDiscountAmount, 0)) == TOLERANCE * (n + 1)
  {
    var lines := seq(n, i => Overstated());
    OverstatedLines(n);
    var d := Declared(lines, Some(0), Some(TOLERANCE * (n + 1)), None);
    assert !Incomplete(d.invoiceLines);
    assert DocumentIssues(d) == [];
    assert Issues(d) == [];
  }

  // ----- the engine's own documents -----

  function DeclareTaxes(ts: seq<TaxAmount>): (items: seq<DeclaredTax>)
    ensures |items| == |ts| && forall i :: 0 <= i < |items| ==> items[i] == DeclaredTax(ts[i].taxType, Some(ts[i].amount))
  {
    seq(|ts|, i requires 0 <= i < |ts| => DeclaredTax(ts[i].taxType, Some(ts[i].amount)))
  }

  function DeclareLine(l: LineComputed): DeclaredLine {
    DeclaredLine(Some(l.netTotal), Some(l.total), Some(l.itemsDiscount), DeclareTaxes(Amounts(l.taxAmounts)))
  }

  function DeclareLines(lines: seq<LineComputed>): (ds: seq<DeclaredLine>)
    ensures |ds| == |lines| && forall i :: 0 <= i < |ds| ==> ds[i] == DeclareLine(lines[i])
  {
    seq(|lines|, i requires 0 <= i < |lines| => DeclareLine(lines[i]))
  }

  // The payload's totals as the engine writes them.
  function Declare(lines: seq<LineComputed>, t: Totals): Declared {
    Declared(DeclareLines(lines), Some(t.netAmount), Some(t.totalAmount), Some(t.extraDiscountAmount))
  }

  lemma {:induction false} DeclaredTaxesAreReadable(ts: seq<TaxAmount>)
    ensures ReadableTaxes(DeclareTaxes(ts)) == ts
  {
    if ts != [] {
      var n := |ts| - 1;
      DeclaredTaxesAreReadable(ts[..n]);
      assert DeclareTaxes(ts)[..n] == DeclareTaxes(ts[..n]);
      assert ts == ts[..n] + [ts[n]];
    }
  }

  lemma DeclaredLineIsExact(l: LineComputed)
    requires Balanced(l)
    ensures CompleteLine(DeclareLine(l)) && ExpectedTotal(DeclareLine(l)) == l.total
  {
    hide CodeOf, ReadableTaxes, Sum, Amounts;
    DeclaredTaxesAreReadable(Amounts(l.taxAmounts));
    DirectionIsAdditiveMinusDeductible(Amounts(l.taxAmounts));
  }

  lemma {:induction false} DeclaredLinesAreExact(lines: seq<LineComputed>)
    requires forall i :: 0 <= i < |lines| ==> Balanced(lines[i])
    ensures var ds := DeclareLines(lines);
            && LineIssues(ds) == [] && !Incomplete(ds)
            && Sum(ds, NetPart) == Sum(lines, (l: LineComputed) => l.netTotal)
            && Sum(ds, TotalPart) == Sum(ds, ExpectedPart) == Sum(lines, (l: LineComputed) => l.total)
  {
    hide ExpectedTotal, Balanced, CompleteLine;
    forall i | 0 <= i < |lines| ensures CompleteLine(DeclareLines(lines)[i]) { DeclaredLineIsExact(lines[i]); }
    if lines != [] {
      var n := |lines| - 1;
      DeclaredLinesAreExact(lines[..n]);
      DeclaredLineIsExact(lines[n]);
      assert DeclareLines(lines)[..n] == DeclareLines(lines[..n]);
    }
  }

  // Main result: what the engine computes is what the validator expects, with every difference zero.
  lemma EngineDocumentsPass(lines: seq<LineComputed>, extraDiscount: int)
    requires forall i :: 0 <= i < |lines| ==> Balanced(lines[i])
    ensures var d := Declare(lines, TotalsOf(lines, extraDiscount));
            && Issues(d) == []
            && d.netAmount == Some(Sum(d.invoiceLines, NetPart))
            && d.totalAmount == Some(Sum(d.invoiceLines, ExpectedPart) - Or(d.extraDiscountAmount, 0))
            && forall i :: 0 <= i < |lines| ==> d.invoiceLines[i].total == Some(ExpectedTotal(d.invoiceLines[i]))
  {
    hide ExpectedTotal, Balanced, Sum;
    DeclaredLinesAreExact(lines);
    forall i | 0 <= i < |lines| ensures ExpectedTotal(DeclareLine(lines[i])) == lines[i].total { DeclaredLineIsExact(lines[i]); }
  }
}
