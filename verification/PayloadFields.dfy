/**
 The money of a payload, field by field and in the order in which it is signed (builders/document.ts:71-197).
 */
module PayloadFields {
  import opened Json
  import opened MoneyText
  import opened InvoiceLines
  import opened DocumentTotals
  import opened Recalculation
  import opened EtaPayload

  predicate KeysAre(fields: seq<Field>, keys: seq<string>) {
    |fields| == |keys| && forall i :: 0 <= i < |keys| ==> fields[i].key == keys[i]
  }

  lemma KeyedKeys(keys: seq<string>, values: seq<Value>)
    requires |keys| == |values|
    ensures KeysAre(Keyed(keys, values), keys)
  {
  }

  /** The totals of a document, in order, after what comes before them. */
  lemma TotalsInOrder(l: Layout, header: seq<Field>, settings: seq<Field>, rows: seq<StoredLine>, t: Totals)
    ensures var front, p := l.front(header, settings), Payload(l, header, settings, rows, t);
            && |p| == |front| + 8 && p[..|front|] == front && p[|front|..] == TotalFields(LinePayloads(l, header, rows), t)
            && KeysAre(p[|front|..], ["invoiceLines", "totalDiscountAmount", "totalSalesAmount", "netAmount", "taxTotals",
                                      "totalAmount", "extraDiscountAmount", "totalItemsDiscountAmount"])
  {
    hide Keyed, TotalValues, LinePayloads, KeysAre;
    var front, lines := l.front(header, settings), LinePayloads(l, header, rows);
    KeyedKeys(TOTAL_KEYS, TotalValues(lines, t));
    var p := Payload(l, header, settings, rows, t);
    assert p == front + TotalFields(lines, t);
    assert p[|front|..] == TotalFields(lines, t);
  }

  // The values, in the same order.
  lemma TotalsShow(lines: seq<Value>, t: Totals)
    ensures var a := TotalFields(lines, t);
            && |a| == 8
            && a[0].value == Arr(lines)
            && a[1].value == Amount(t.totalDiscountAmount) && a[2].value == Amount(t.totalSalesAmount)
            && a[3].value == Amount(t.netAmount) && a[4].value == Arr(TaxTotalItems(t.taxTotals))
            && a[5].value == Amount(t.totalAmount) && a[6].value == Amount(t.extraDiscountAmount)
            && a[7].value == Amount(t.totalItemsDiscountAmount)
  {
    hide Amount, TaxTotalItems, Keyed, TotalValues;
    KeyedValues(TOTAL_KEYS, TotalValues(lines, t));
    TotalValuesAre(lines, t);
  }

  lemma TotalValuesAre(lines: seq<Value>, t: Totals)
    ensures var v := TotalValues(lines, t);
            && v[0] == Arr(lines)
            && v[1] == Amount(t.totalDiscountAmount) && v[2] == Amount(t.totalSalesAmount)
            && v[3] == Amount(t.netAmount) && v[4] == Arr(TaxTotalItems(t.taxTotals))
            && v[5] == Amount(t.totalAmount) && v[6] == Amount(t.extraDiscountAmount)
            && v[7] == Amount(t.totalItemsDiscountAmount)
  {
    hide Amount, TaxTotalItems;
    Eight(Arr(lines), Amount(t.totalDiscountAmount), Amount(t.totalSalesAmount), Amount(t.netAmount),
          Arr(TaxTotalItems(t.taxTotals)), Amount(t.totalAmount), Amount(t.extraDiscountAmount),
          Amount(t.totalItemsDiscountAmount));
  }

  // A tax total has its type and its amount.
  lemma TaxTotalShows(totals: TaxTotals, i: nat)
    requires i < |totals|
    ensures TaxTotalItems(totals)[i]
         == Obj([Field("taxType", Str(totals[i].taxType)), Field("amount", Amount(totals[i].amount))])
  {
    hide Amount;
  }

  /** The amounts of a line, in order, between its head and its tail. */
  lemma LineInOrder(l: Layout, header: seq<Field>, row: StoredLine, i: nat)
    ensures var head, tail := l.lineHead(header, row.quantity, row.unitPrice, i), l.lineTail(header, i);
            && LinePayload(l, header, row, i).Obj?
            && var fields := LinePayload(l, header, row, i).fields;
               && |fields| == |head| + 8 + |tail| && fields[..|head|] == head && fields[|head| + 8..] == tail
               && KeysAre(fields[|head|..|head| + 8],
                          ["salesTotal", "total", "valueDifference", "totalTaxableFees", "netTotal", "itemsDiscount",
                           "discount", "taxableItems"])
  {
    hide Keyed, LineValues, KeysAre;
    var head, amounts, tail := l.lineHead(header, row.quantity, row.unitPrice, i), LineAmounts(l, row), l.lineTail(header, i);
    KeyedKeys(LINE_KEYS, LineValues(l, row));
    var fields := LinePayload(l, header, row, i).fields;
    assert fields == head + amounts + tail;
    assert fields[|head|..|head| + 8] == amounts && fields[|head| + 8..] == tail;
  }

  lemma LineShows(l: Layout, row: StoredLine)
    ensures var a := LineAmounts(l, row);
            && |a| == 8
            && a[0].value == Amount(row.salesTotal) && a[1].value == Amount(row.total)
            && a[2].value == Amount(row.valueDifference) && a[3].value == Amount(row.totalTaxableFees)
            && a[4].value == Amount(row.netTotal) && a[5].value == Amount(row.itemsDiscount)
            && a[6].value == Discount(l, row) && a[7].value == Arr(TaxableItems(l, row.taxes))
  {
    hide Amount, TaxableItems, Keyed, Discount, LineValues;
    KeyedValues(LINE_KEYS, LineValues(l, row));
    LineValuesAre(l, row);
  }

  lemma Eight<T>(a: T, b: T, c: T, d: T, e: T, f: T, g: T, h: T)
    ensures var s := [a, b, c, d, e, f, g, h];
            && s[0] == a && s[1] == b && s[2] == c && s[3] == d && s[4] == e && s[5] == f && s[6] == g && s[7] == h
  {
  }

  lemma LineValuesAre(l: Layout, row: StoredLine)
    ensures var v := LineValues(l, row);
            && v[0] == Amount(row.salesTotal) && v[1] == Amount(row.total)
            && v[2] == Amount(row.valueDifference) && v[3] == Amount(row.totalTaxableFees)
            && v[4] == Amount(row.netTotal) && v[5] == Amount(row.itemsDiscount)
            && v[6] == Discount(l, row) && v[7] == Arr(TaxableItems(l, row.taxes))
  {
    hide Amount, TaxableItems, Discount;
    Eight(Amount(row.salesTotal), Amount(row.total), Amount(row.valueDifference), Amount(row.totalTaxableFees),
          Amount(row.netTotal), Amount(row.itemsDiscount), Discount(l, row), Arr(TaxableItems(l, row.taxes)));
  }

  lemma DiscountShows(l: Layout, row: StoredLine)
    ensures var rate := if row.discountRate.Some? then row.discountRate.value else 0.0;
            Discount(l, row) == Obj([Field("rate", Num(l.number(rate))), Field("amount", Amount(row.discountAmount))])
  {
    hide Amount;
  }

  /** A tax row: its type, its amount, its subtype and its rate. */
  lemma TaxInOrder(l: Layout, t: StoredTax)
    ensures TaxableItem(l, t).Obj?
    ensures var fields := TaxableItem(l, t).fields;
            && KeysAre(fields, ["taxType", "amount", "subType", "rate"])
            && fields[0].value == Str(t.taxType) && fields[1].value == Amount(t.amount)
            && fields[2].value == Str(t.subType) && fields[3].value == Num(l.number(t.rate.percent))
  {
    hide Amount, Keyed, KeysAre;
    var values := [Str(t.taxType), Amount(t.amount), Str(t.subType), Num(l.number(t.rate.percent))];
    KeyedKeys(TAX_KEYS, values);
    assert TaxableItem(l, t).fields == Keyed(TAX_KEYS, values);
    KeyedValues(TAX_KEYS, values);
  }

  lemma KeyedValues(keys: seq<string>, values: seq<Value>)
    requires |keys| == |values|
    ensures |Keyed(keys, values)| == |keys|
    ensures forall i :: 0 <= i < |keys| ==> Keyed(keys, values)[i].value == values[i]
  {
  }

  /** Stored columns are the computed ones, taxes and all; quantity, price and rate of discount are as given. */
  lemma StoredColumns(input: LineInput, c: LineComputed)
    ensures var row := Store(input, c);
            && row.quantity == input.quantity && row.unitPrice == input.unitPrice && row.discountRate == input.discountRate
            && row.discountAmount == c.discount && row.salesTotal == c.salesTotal && row.netTotal == c.netTotal
            && row.total == c.total && row.valueDifference == c.valueDifference
            && row.totalTaxableFees == c.totalTaxableFees && row.itemsDiscount == c.itemsDiscount
            && |row.taxes| == |c.taxAmounts|
            && forall i :: 0 <= i < |row.taxes| ==>
                 row.taxes[i] == StoredTax(c.taxAmounts[i].taxType, c.taxAmounts[i].subType, c.taxAmounts[i].rate,
                                           c.taxAmounts[i].amount)
  {
  }

  /** An amount is written as its pounds, a point and what is left, without trailing zeros: 12.5, -0.07, 100. */
  lemma AmountsAsWritten()
    ensures AmountText(1250) == "12.5" && AmountText(-7) == "-0.07" && AmountText(10000) == "100" && AmountText(0) == "0"
  {
  }
}
