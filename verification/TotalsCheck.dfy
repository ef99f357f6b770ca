/**
 Exactly which declared totals the local check accepts (local-validator.ts): those within half a pound, either way, of
 what ETA's equations make of the declared parts. Amounts are in piasters.
 */
module TotalsCheck {
  import opened Sums
  import opened Text
  import opened TaxModes
  import TaxCatalogue
  import opened InvoiceLines
  import opened Validator

  // What a declared tax adds to a line: withheld T4 takes its amount off, an unreadable entry adds nothing.
  function TaxPart(t: DeclaredTax): int {
    if t.NotAnObject? || t.amount.None? then 0
    else if ToUpper(Trim(t.taxType)) == "T4" then -t.amount.value
    else t.amount.value
  }

  function ItemsDiscountOf(l: DeclaredLine): int
    requires l.DeclaredLine?
  {
    if l.itemsDiscount.Some? then l.itemsDiscount.value else 0
  }

  predicate WithinHalfAPound(x: int, y: int) {
    -50 <= x - y <= 50
  }

  // A line with a net total and a total agrees with its own equation.
  predicate LineAgrees(l: DeclaredLine) {
    l.DeclaredLine? && l.netTotal.Some? && l.total.Some? ==>
      WithinHalfAPound(l.total.value, l.netTotal.value + Sum(l.taxableItems, TaxPart) - ItemsDiscountOf(l))
  }

  // Every number that the document's totals are checked against can be read.
  predicate Readable(lines: seq<DeclaredLine>) {
    forall i :: 0 <= i < |lines| ==>
      && lines[i].DeclaredLine? && lines[i].netTotal.Some? && lines[i].total.Some?
      && forall k :: 0 <= k < |lines[i].taxableItems| ==>
           lines[i].taxableItems[k].DeclaredTax? && lines[i].taxableItems[k].amount.Some?
  }

  function NetOf(l: DeclaredLine): int {
    if l.DeclaredLine? && l.netTotal.Some? then l.netTotal.value else 0
  }

  function TotalOf(l: DeclaredLine): int {
    if l.DeclaredLine? && l.total.Some? then l.total.value else 0
  }

  // Net amount and total, where declared, agree with the sums over the lines.
  predicate DocumentAgrees(d: Declared) {
    && (d.netAmount.Some? ==> WithinHalfAPound(d.netAmount.value, Sum(d.invoiceLines, NetOf)))
    && (d.totalAmount.Some? ==>
          WithinHalfAPound(d.totalAmount.value,
                           Sum(d.invoiceLines, TotalOf)
                           - (if d.extraDiscountAmount.Some? then d.extraDiscountAmount.value else 0)))
  }

  lemma {:induction false} ReadTaxesAdd(items: seq<DeclaredTax>)
    ensures Sum(ReadableTaxes(items), AdditivePart) - Sum(ReadableTaxes(items), DeductiblePart) == Sum(items, TaxPart)
    decreases |items|
  {
    hide CodeOf, ToUpper, Trim;
    if items != [] {
      var n := |items| - 1;
      ReadTaxesAdd(items[..n]);
      if CompleteTax(items[n]) {
        var before, t := ReadableTaxes(items[..n]), TaxAmount(items[n].taxType, items[n].amount.value);
        SumSnoc(before, t, AdditivePart);
        SumSnoc(before, t, DeductiblePart);
        TaxCatalogue.ClassesByText(items[n].taxType);
      } else {
        assert ReadableTaxes(items) == ReadableTaxes(items[..n]);
      }
    }
  }

  lemma LineAgreesExactly(l: DeclaredLine)
    requires HasTotals(l)
    ensures BeyondTolerance(ExpectedTotal(l), l.total.value).None? <==> LineAgrees(l)
  {
    hide AdditivePart, DeductiblePart, ReadableTaxes, TaxPart, Sum;
    ReadTaxesAdd(l.taxableItems);
  }

  lemma {:induction false} LinesAgreeExactly(lines: seq<DeclaredLine>)
    ensures LineIssues(lines) == [] <==> forall i :: 0 <= i < |lines| ==> LineAgrees(lines[i])
    decreases |lines|
  {
    hide ExpectedTotal, LineAgrees, BeyondTolerance;
    if lines != [] {
      var n := |lines| - 1;
      LinesAgreeExactly(lines[..n]);
      if HasTotals(lines[n]) { LineAgreesExactly(lines[n]); } else { WithoutTotals(lines[n]); }
      assert forall i :: 0 <= i < n ==> lines[..n][i] == lines[i];
    }
  }

  lemma WithoutTotals(l: DeclaredLine)
    requires !HasTotals(l)
    ensures LineAgrees(l)
  {
  }

  lemma {:induction false} SameSums(lines: seq<DeclaredLine>)
    requires Readable(lines)
    ensures Sum(lines, NetPart) == Sum(lines, NetOf) && Sum(lines, TotalPart) == Sum(lines, TotalOf)
    decreases |lines|
  {
    if lines != [] {
      var n := |lines| - 1;
      assert Readable(lines[..n]) by { forall i | 0 <= i < n ensures lines[..n][i] == lines[i] {} }
      SameSums(lines[..n]);
    }
  }

  /**
   No issue is raised exactly when every line agrees with its equation and, if all of the document can be read, its
   totals agree with its lines.
   */
  lemma AcceptsExactly(d: Declared)
    ensures Issues(d) == []
       <==> (forall i :: 0 <= i < |d.invoiceLines| ==> LineAgrees(d.invoiceLines[i]))
            && (Readable(d.invoiceLines) ==> DocumentAgrees(d))
  {
    hide LineIssues, LineAgrees, Sum, NetOf, TotalOf;
    LinesAgreeExactly(d.invoiceLines);
    assert Incomplete(d.invoiceLines) <==> !Readable(d.invoiceLines);
    if Readable(d.invoiceLines) { SameSums(d.invoiceLines); }
  }
}
