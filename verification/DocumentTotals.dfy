/** Document totals (calculate-totals.ts) and the conservation of money between lines and document. */
module DocumentTotals {
  import opened Sums
  import opened TaxModes
  import opened TaxEngine
  import opened InvoiceLines

  // Entries of an insertion-ordered map from tax type to amount.
  type TaxTotals = seq<TaxAmount>

  datatype Totals = Totals(
    totalSalesAmount: int,
    totalDiscountAmount: int,
    netAmount: int,
    totalAmount: int,
    totalItemsDiscountAmount: int,
    extraDiscountAmount: int,
    taxTotals: TaxTotals)

  // Adds to the entry of a tax type, or appends a new entry.
  function AddTo(entries: TaxTotals, taxType: string, amount: int): TaxTotals {
    if entries == [] then [TaxAmount(taxType, amount)]
    else if entries[0].taxType == taxType then [TaxAmount(taxType, entries[0].amount + amount)] + entries[1..]
    else [entries[0]] + AddTo(entries[1..], taxType, amount)
  }

  function AddAll(entries: TaxTotals, taxes: seq<TaxComputed>): TaxTotals {
    if taxes == [] then entries
    else
      var n := |taxes| - 1;
      AddTo(AddAll(entries, taxes[..n]), taxes[n].taxType, taxes[n].amount)
  }

  function TaxTotalsOf(lines: seq<LineComputed>): TaxTotals {
    if lines == [] then [] else AddAll(TaxTotalsOf(lines[..|lines| - 1]), lines[|lines| - 1].taxAmounts)
  }

  function TotalsOf(lines: seq<LineComputed>, extraDiscount: int): Totals {
    Totals(
      Sum(lines, (l: LineComputed) => l.salesTotal),
      Sum(lines, (l: LineComputed) => l.discount),
      Sum(lines, (l: LineComputed) => l.netTotal),
      Sum(lines, (l: LineComputed) => l.total) - extraDiscount,
      Sum(lines, (l: LineComputed) => l.itemsDiscount),
      extraDiscount,
      TaxTotalsOf(lines))
  }

  method CalculateDocumentTotals(lines: seq<LineComputed>, extraDiscount: int) returns (t: Totals)
    ensures t == TotalsOf(lines, extraDiscount)
  {
    var totalSalesAmount, totalDiscountAmount, totalItemsDiscountAmount, netAmount, lineTotals := 0, 0, 0, 0, 0;
    var taxMap: TaxTotals := [];
    for i := 0 to |lines|
      invariant totalSalesAmount == Sum(lines[..i], (l: LineComputed) => l.salesTotal)
      invariant totalDiscountAmount == Sum(lines[..i], (l: LineComputed) => l.discount)
      invariant totalItemsDiscountAmount == Sum(lines[..i], (l: LineComputed) => l.itemsDiscount)
      invariant netAmount == Sum(lines[..i], (l: LineComputed) => l.netTotal)
      invariant lineTotals == Sum(lines[..i], (l: LineComputed) => l.total)
      invariant taxMap == TaxTotalsOf(lines[..i])
    {
      var line := lines[i];
      assert lines[..i + 1][..i] == lines[..i];
      totalSalesAmount := totalSalesAmount + line.salesTotal;
      totalDiscountAmount := totalDiscountAmount + line.discount;
      totalItemsDiscountAmount := totalItemsDiscountAmount + line.itemsDiscount;
      netAmount := netAmount + line.netTotal;
      lineTotals := lineTotals + line.total;
      for j := 0 to |line.taxAmounts|
        invariant taxMap == AddAll(TaxTotalsOf(lines[..i]), line.taxAmounts[..j])
      {
        assert line.taxAmounts[..j + 1][..j] == line.taxAmounts[..j];
        taxMap := AddTo(taxMap, line.taxAmounts[j].taxType, line.taxAmounts[j].amount);
      }
      assert line.taxAmounts[..|line.taxAmounts|] == line.taxAmounts;
    }
    assert lines[..|lines|] == lines;
    t := Totals(totalSalesAmount, totalDiscountAmount, netAmount, lineTotals - extraDiscount,
                totalItemsDiscountAmount, extraDiscount, taxMap);
  }

  // ----- what the tax map holds -----

  function Weighted(t: TaxAmount, weight: string -> int): int {
    weight(t.taxType) * t.amount
  }

  function LineWeight(l: LineComputed, weight: string -> int): int {
    Sum(Amounts(l.taxAmounts), t => Weighted(t, weight))
  }

  lemma {:induction false} SumCons(x: TaxAmount, rest: TaxTotals, f: TaxAmount -> int)
    ensures Sum([x] + rest, f) == f(x) + Sum(rest, f)
  {
    SumAppend([x], rest, f);
    assert Sum([x], f) == Sum([x][..0], f) + f(x);
  }

  lemma {:induction false} AddToWeight(entries: TaxTotals, taxType: string, amount: int, weight: string -> int)
    ensures Sum(AddTo(entries, taxType, amount), t => Weighted(t, weight))
         == Sum(entries, t => Weighted(t, weight)) + weight(taxType) * amount
  {
    var f := (t: TaxAmount) => Weighted(t, weight);
    if entries == [] {
      SumCons(TaxAmount(taxType, amount), [], f);
      assert [TaxAmount(taxType, amount)] + [] == [TaxAmount(taxType, amount)];
    } else {
      var head, rest := entries[0], entries[1..];
      assert entries == [head] + rest;
      SumCons(head, rest, f);
      if head.taxType == taxType {
        SumCons(TaxAmount(taxType, head.amount + amount), rest, f);
        assert weight(taxType) * (head.amount + amount) == weight(taxType) * head.amount + weight(taxType) * amount;
      } else {
        AddToWeight(rest, taxType, amount, weight);
        SumCons(head, AddTo(rest, taxType, amount), f);
      }
    }
  }

  lemma {:induction false} AddAllWeight(entries: TaxTotals, taxes: seq<TaxComputed>, weight: string -> int)
    ensures Sum(AddAll(entries, taxes), t => Weighted(t, weight))
         == Sum(entries, t => Weighted(t, weight)) + Sum(Amounts(taxes), t => Weighted(t, weight))
  {
    if taxes != [] {
      var n := |taxes| - 1;
      AddAllWeight(entries, taxes[..n], weight);
      AddToWeight(AddAll(entries, taxes[..n]), taxes[n].taxType, taxes[n].amount, weight);
      assert Amounts(taxes)[..n] == Amounts(taxes[..n]);
    }
  }

  // Every weighting by tax type gives the same sum over the document's tax totals and over all line taxes.
  lemma {:induction false} TaxTotalsConserve(lines: seq<LineComputed>, weight: string -> int)
    ensures Sum(TaxTotalsOf(lines), t => Weighted(t, weight)) == Sum(lines, l => LineWeight(l, weight))
  {
    if lines != [] {
      var n := |lines| - 1;
      TaxTotalsConserve(lines[..n], weight);
      AddAllWeight(TaxTotalsOf(lines[..n]), lines[n].taxAmounts, weight);
    }
  }

  predicate Lists(entries: TaxTotals, taxType: string) {
    entries != [] && (entries[0].taxType == taxType || Lists(entries[1..], taxType))
  }

  predicate OnePerType(entries: TaxTotals) {
    entries == [] || (!Lists(entries[1..], entries[0].taxType) && OnePerType(entries[1..]))
  }

  lemma {:induction false} AddToListing(entries: TaxTotals, taxType: string, amount: int, s: string)
    ensures Lists(AddTo(entries, taxType, amount), s) <==> s == taxType || Lists(entries, s)
  {
    if entries != [] {
      AddToListing(entries[1..], taxType, amount, s);
    }
  }

  lemma {:induction false} AddToKeepsOnePerType(entries: TaxTotals, taxType: string, amount: int)
    requires OnePerType(entries)
    ensures OnePerType(AddTo(entries, taxType, amount))
  {
    if entries != [] {
      AddToKeepsOnePerType(entries[1..], taxType, amount);
      AddToListing(entries[1..], taxType, amount, entries[0].taxType);
      if entries[0].taxType != taxType {
        assert AddTo(entries, taxType, amount)[1..] == AddTo(entries[1..], taxType, amount);
      }
    }
  }

  lemma {:induction false} AddAllKeepsOnePerType(entries: TaxTotals, taxes: seq<TaxComputed>)
    requires OnePerType(entries)
    ensures OnePerType(AddAll(entries, taxes))
  {
    if taxes != [] {
      var n := |taxes| - 1;
      AddAllKeepsOnePerType(entries, taxes[..n]);
      AddToKeepsOnePerType(AddAll(entries, taxes[..n]), taxes[n].taxType, taxes[n].amount);
    }
  }

  lemma {:induction false} TaxTotalsOnePerType(lines: seq<LineComputed>)
    ensures OnePerType(TaxTotalsOf(lines))
  {
    if lines != [] {
      var n := |lines| - 1;
      TaxTotalsOnePerType(lines[..n]);
      AddAllKeepsOnePerType(TaxTotalsOf(lines[..n]), lines[n].taxAmounts);
    }
  }

  lemma {:induction false} ListedAt(entries: TaxTotals, j: nat)
    requires j < |entries|
    ensures Lists(entries, entries[j].taxType)
  {
    if j > 0 { ListedAt(entries[1..], j - 1); }
  }

  lemma {:induction false} DifferentTypes(entries: TaxTotals, i: nat, j: nat)
    requires OnePerType(entries) && i < j < |entries|
    ensures entries[i].taxType != entries[j].taxType
  {
    if i == 0 { ListedAt(entries[1..], j - 1); } else { DifferentTypes(entries[1..], i - 1, j - 1); }
  }

  lemma {:induction false} OnlyEntry(entries: TaxTotals, k: nat, f: TaxAmount -> int)
    requires k < |entries| && forall i :: 0 <= i < |entries| && i != k ==> f(entries[i]) == 0
    ensures Sum(entries, f) == f(entries[k])
  {
    SumWithout(entries, k, f);
    SumCongruence(Without(entries, k), f, (t: TaxAmount) => 0);
    SumZero(Without(entries, k));
  }

  lemma {:induction false} SumZero(entries: TaxTotals)
    ensures Sum(entries, (t: TaxAmount) => 0) == 0
  {
    if entries != [] { SumZero(entries[..|entries| - 1]); }
  }

  // Each document tax total is exactly the sum of the line taxes of its type.
  lemma TaxTotalIsSumOfLines(lines: seq<LineComputed>, k: nat)
    requires k < |TaxTotalsOf(lines)|
    ensures var e := TaxTotalsOf(lines)[k];
            e.amount == Sum(lines, l => LineWeight(l, s => if s == e.taxType then 1 else 0))
  {
    var entries := TaxTotalsOf(lines);
    var e := entries[k];
    var weight := (s: string) => if s == e.taxType then 1 else 0;
    var f := (t: TaxAmount) => Weighted(t, weight);
    TaxTotalsConserve(lines, weight);
    TaxTotalsOnePerType(lines);
    forall i | 0 <= i < |entries| && i != k ensures f(entries[i]) == 0 {
      if i < k { DifferentTypes(entries, i, k); } else { DifferentTypes(entries, k, i); }
    }
    OnlyEntry(entries, k, f);
  }

  // ----- the order of a line's taxes -----

  predicate Charges(l: LineComputed, taxType: string) {
    exists j :: 0 <= j < |l.taxAmounts| && l.taxAmounts[j].taxType == taxType
  }

  lemma {:induction false} AddAllListing(entries: TaxTotals, taxes: seq<TaxComputed>, s: string)
    ensures Lists(AddAll(entries, taxes), s) <==> Lists(entries, s) || exists j :: 0 <= j < |taxes| && taxes[j].taxType == s
    decreases |taxes|
  {
    if taxes != [] {
      var n := |taxes| - 1;
      AddAllListing(entries, taxes[..n], s);
      AddToListing(AddAll(entries, taxes[..n]), taxes[n].taxType, taxes[n].amount, s);
      assert forall j :: 0 <= j < n ==> taxes[..n][j] == taxes[j];
    }
  }

  // The listed types are those charged on some line.
  lemma {:induction false} ListedIsCharged(lines: seq<LineComputed>, s: string)
    ensures Lists(TaxTotalsOf(lines), s) <==> exists i :: 0 <= i < |lines| && Charges(lines[i], s)
    decreases |lines|
  {
    hide Lists, AddAll;
    if lines == [] {
      NothingListed(s);
    } else {
      var n := |lines| - 1;
      ListedIsCharged(lines[..n], s);
      AddAllListing(TaxTotalsOf(lines[..n]), lines[n].taxAmounts, s);
      assert forall i :: 0 <= i < n ==> lines[..n][i] == lines[i];
    }
  }

  lemma NothingListed(s: string)
    ensures !Lists([], s)
  {
  }

  lemma {:induction false} ListsMeans(entries: TaxTotals, s: string)
    ensures Lists(entries, s) <==> exists k :: 0 <= k < |entries| && entries[k].taxType == s
    decreases |entries|
  {
    if entries != [] {
      ListsMeans(entries[1..], s);
      if k :| 0 <= k < |entries| && entries[k].taxType == s {
        if k > 0 { assert entries[1..][k - 1].taxType == s; }
      }
      if k :| 0 <= k < |entries[1..]| && entries[1..][k].taxType == s {
        assert entries[k + 1].taxType == s;
      }
    }
  }

  function TypeTotal(lines: seq<LineComputed>, taxType: string): int {
    Sum(lines, l => LineWeight(l, s => if s == taxType then 1 else 0))
  }

  // The tax totals hold every charged type with its sum, and nothing else.
  lemma TaxTotalsMembers(lines: seq<LineComputed>, e: TaxAmount)
    ensures e in TaxTotalsOf(lines) <==>
              e.amount == TypeTotal(lines, e.taxType) && exists i :: 0 <= i < |lines| && Charges(lines[i], e.taxType)
  {
    hide TaxTotalsOf, LineWeight, Lists;
    var entries := TaxTotalsOf(lines);
    ListedIsCharged(lines, e.taxType);
    ListsMeans(entries, e.taxType);
    if k :| 0 <= k < |entries| && entries[k].taxType == e.taxType {
      TaxTotalIsSumOfLines(lines, k);
      assert entries[k] in entries;
      if e in entries {
        var m :| 0 <= m < |entries| && entries[m] == e;
        TaxTotalIsSumOfLines(lines, m);
      }
    }
  }

  lemma TaxTotalsDistinct(lines: seq<LineComputed>)
    ensures Distinct(TaxTotalsOf(lines))
  {
    hide TaxTotalsOf, OnePerType;
    TaxTotalsOnePerType(lines);
    forall i, j | 0 <= i < j < |TaxTotalsOf(lines)| ensures TaxTotalsOf(lines)[i] != TaxTotalsOf(lines)[j] {
      DifferentTypes(TaxTotalsOf(lines), i, j);
    }
  }

  // Equal lines up to the order of their charges.
  predicate SameCharges(a: seq<LineComputed>, b: seq<LineComputed>) {
    |a| == |b| && forall i :: 0 <= i < |a| ==> multiset(Amounts(a[i].taxAmounts)) == multiset(Amounts(b[i].taxAmounts))
  }

  lemma SameChargesMembers(a: seq<LineComputed>, b: seq<LineComputed>, s: string)
    requires SameCharges(a, b)
    ensures TypeTotal(a, s) == TypeTotal(b, s)
    ensures (exists i :: 0 <= i < |a| && Charges(a[i], s)) ==> exists i :: 0 <= i < |b| && Charges(b[i], s)
  {
    hide Charges, Amounts;
    var weight := (t: string) => if t == s then 1 else 0;
    forall i | 0 <= i < |a| ensures LineWeight(a[i], weight) == LineWeight(b[i], weight) {
      SumPermutation(Amounts(a[i].taxAmounts), Amounts(b[i].taxAmounts), t => Weighted(t, weight));
    }
    SumPointwise(a, b, l => LineWeight(l, weight));
    if i :| 0 <= i < |a| && Charges(a[i], s) {
      ChargesKept(a[i], b[i], s);
    }
  }

  lemma {:induction false} SumPointwise(a: seq<LineComputed>, b: seq<LineComputed>, f: LineComputed -> int)
    requires |a| == |b| && forall i :: 0 <= i < |a| ==> f(a[i]) == f(b[i])
    ensures Sum(a, f) == Sum(b, f)
    decreases |a|
  {
    if a != [] { SumPointwise(a[..|a| - 1], b[..|b| - 1], f); }
  }

  lemma ChargesKept(a: LineComputed, b: LineComputed, s: string)
    requires multiset(Amounts(a.taxAmounts)) == multiset(Amounts(b.taxAmounts)) && Charges(a, s)
    ensures Charges(b, s)
  {
    var j :| 0 <= j < |a.taxAmounts| && a.taxAmounts[j].taxType == s;
    var k := Member(Amounts(a.taxAmounts), Amounts(b.taxAmounts), j);
    assert b.taxAmounts[k].taxType == s;
  }

  /** Reordering the taxes of lines leaves the tax totals the same but for their order. */
  lemma TaxTotalsIgnoreOrder(a: seq<LineComputed>, b: seq<LineComputed>)
    requires SameCharges(a, b)
    ensures multiset(TaxTotalsOf(a)) == multiset(TaxTotalsOf(b))
  {
    hide TaxTotalsOf, TypeTotal, Charges;
    TaxTotalsDistinct(a);
    TaxTotalsDistinct(b);
    assert SameCharges(b, a);
    forall e ensures e in TaxTotalsOf(a) <==> e in TaxTotalsOf(b) {
      TaxTotalsMembers(a, e);
      TaxTotalsMembers(b, e);
      SameChargesMembers(a, b, e.taxType);
      SameChargesMembers(b, a, e.taxType);
    }
    DistinctSameMembers(TaxTotalsOf(a), TaxTotalsOf(b));
  }

  // ----- conservation -----

  function Direction(taxType: string): int {
    if IsDeductible(CodeOf(taxType)) then -1 else 1
  }

  // What `CalculateLine` guarantees of a line.
  predicate Balanced(l: LineComputed) {
    && l.netTotal == l.salesTotal - l.discount
    && l.total == l.netTotal + LineWeight(l, Direction) - l.itemsDiscount
  }

  lemma {:induction false} DirectionIsAdditiveMinusDeductible(ts: seq<TaxAmount>)
    ensures Sum(ts, AdditivePart) - Sum(ts, DeductiblePart) == Sum(ts, t => Weighted(t, Direction))
  {
    hide CodeOf;
    if ts != [] { DirectionIsAdditiveMinusDeductible(ts[..|ts| - 1]); }
  }

  lemma CalculatedIsBalanced(input: LineInput)
    requires Calculated(input).Ok?
    ensures Balanced(Calculated(input).value)
  {
    hide CodeOf, ComputedAll, SalesTotal, LineDiscount, MoneyOr, TotalFees, Repeated, FirstMissing;
    DirectionIsAdditiveMinusDeductible(Amounts(Calculated(input).value.taxAmounts));
  }

  lemma {:induction false} BalancedSums(lines: seq<LineComputed>)
    requires forall i :: 0 <= i < |lines| ==> Balanced(lines[i])
    ensures Sum(lines, (l: LineComputed) => l.netTotal)
         == Sum(lines, (l: LineComputed) => l.salesTotal) - Sum(lines, (l: LineComputed) => l.discount)
    ensures Sum(lines, (l: LineComputed) => l.total)
         == Sum(lines, (l: LineComputed) => l.netTotal) + Sum(lines, l => LineWeight(l, Direction))
            - Sum(lines, (l: LineComputed) => l.itemsDiscount)
  {
    hide LineWeight;
    if lines != [] { BalancedSums(lines[..|lines| - 1]); }
  }

  // Main result: the document neither creates nor loses money, for any number of lines.
  lemma DocumentConservesMoney(lines: seq<LineComputed>, extraDiscount: int)
    requires forall i :: 0 <= i < |lines| ==> Balanced(lines[i])
    ensures var t := TotalsOf(lines, extraDiscount);
            && t.netAmount == t.totalSalesAmount - t.totalDiscountAmount
            && t.totalAmount == t.netAmount + Sum(t.taxTotals, AdditivePart) - Sum(t.taxTotals, DeductiblePart)
                                - t.totalItemsDiscountAmount - t.extraDiscountAmount
  {
    hide LineWeight, CodeOf, Balanced;
    BalancedSums(lines);
    TaxTotalsConserve(lines, Direction);
    DirectionIsAdditiveMinusDeductible(TaxTotalsOf(lines));
  }
}
