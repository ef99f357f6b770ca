/**
 What the tax rows of the lines do to the text that is signed: two payloads that differ in no more than their rows, and
 in the tax totals that follow from them, have the same canonical string exactly when the rows show the same, entry by
 entry.
 */
module PayloadText {
  import opened Sequences
  import opened Json
  import opened CanonicalServer
  import opened CanonicalLeaves
  import opened MoneyText
  import opened InvoiceLines
  import opened DocumentTotals
  import opened Recalculation
  import opened EtaPayload

  // ----- shapes and leaves of parts -----

  lemma {:induction false} SameShapeSelf(a: seq<Field>)
    ensures SameShape(a, a)
    decreases a
  {
    if a != [] {
      SameShapeSelfValue(a[0].value);
      SameShapeSelf(a[1..]);
    }
  }

  lemma {:induction false} SameShapeSelfValue(v: Value)
    ensures SameShapeValue(v, v)
    decreases v
  {
    match v
    case Arr(items) => SameShapeSelfItems(items);
    case Obj(fields) => SameShapeSelf(fields);
    case _ =>
  }

  lemma {:induction false} SameShapeSelfItems(items: seq<Value>)
    ensures SameShapeItems(items, items)
    decreases items
  {
    if items != [] {
      SameShapeSelfValue(items[0]);
      SameShapeSelfItems(items[1..]);
    }
  }

  lemma {:induction false} SameShapeAppend(a: seq<Field>, b: seq<Field>, x: seq<Field>, y: seq<Field>)
    requires SameShape(a, b) && SameShape(x, y)
    ensures SameShape(a + x, b + y)
    decreases |a|
  {
    if a == [] {
      assert a + x == x && b + y == y;
    } else {
      HeadTail(a, x);
      HeadTail(b, y);
      SameShapeAppend(a[1..], b[1..], x, y);
    }
  }

  lemma {:induction false} LeavesAppend(a: seq<Field>, b: seq<Field>)
    ensures Leaves(a + b, false) == Leaves(a, false) + Leaves(b, false)
    decreases |a|
  {
    if a == [] {
      assert a + b == b;
    } else {
      HeadTail(a, b);
      LeavesAppend(a[1..], b);
      Assoc(ValueLeaves(a[0].value, false), Leaves(a[1..], false), Leaves(b, false));
    }
  }

  lemma LeavesOne(f: Field)
    ensures Leaves([f], false) == ValueLeaves(f.value, false)
  {
    assert [f][1..] == [];
    assert Leaves([f][1..], false) == [];
  }

  lemma ShapeOfOne(f: Field, g: Field)
    requires f.key == g.key && SameShapeValue(f.value, g.value)
    ensures SameShape([f], [g])
  {
    assert [f][1..] == [] && [g][1..] == [];
  }

  // ----- a tax row -----

  // The four texts that a row shows.
  function Shown(l: Layout, t: StoredTax): (texts: seq<string>)
    ensures |texts| == 4
  {
    [t.taxType, AmountText(t.amount), t.subType, l.number(t.rate.percent)]
  }

  predicate AllScalars(fields: seq<Field>) {
    forall i :: 0 <= i < |fields| ==> IsScalar(fields[i].value)
  }

  function Texts(fields: seq<Field>): (texts: seq<string>)
    requires AllScalars(fields)
    ensures |texts| == |fields| && forall i :: 0 <= i < |texts| ==> texts[i] == LeafText(fields[i].value)
  {
    seq(|fields|, i requires 0 <= i < |fields| => LeafText(fields[i].value))
  }

  lemma ScalarLeaf(v: Value)
    requires IsScalar(v)
    ensures ValueLeaves(v, false) == [LeafText(v)]
  {
  }

  lemma {:induction false} ScalarsShow(fields: seq<Field>)
    requires AllScalars(fields)
    ensures Leaves(fields, false) == Texts(fields)
    decreases |fields|
  {
    hide LeafText, ValueLeaves;
    if fields != [] {
      ScalarsShow(fields[1..]);
      ScalarLeaf(fields[0].value);
      assert Texts(fields) == [LeafText(fields[0].value)] + Texts(fields[1..]);
    }
  }

  lemma {:induction false} ScalarsShape(a: seq<Field>, b: seq<Field>)
    requires |a| == |b| && AllScalars(a) && AllScalars(b) && forall i :: 0 <= i < |a| ==> a[i].key == b[i].key
    ensures SameShape(a, b)
    decreases |a|
  {
    if a != [] { ScalarsShape(a[1..], b[1..]); }
  }

  lemma AmountShows(piasters: int)
    ensures IsScalar(Amount(piasters)) && LeafText(Amount(piasters)) == AmountText(piasters)
  {
    hide AmountText;
  }

  lemma TextShows(s: string)
    ensures IsScalar(Str(s)) && LeafText(Str(s)) == s
  {
  }

  lemma NumberShows(t: NumText)
    ensures IsScalar(Num(t)) && LeafText(Num(t)) == t
  {
  }

  // The values of a tax row and what they show.
  function TaxValues(l: Layout, t: StoredTax): (vs: seq<Value>)
    ensures |vs| == 4
  {
    [Str(t.taxType), Amount(t.amount), Str(t.subType), Num(l.number(t.rate.percent))]
  }

  lemma TaxValuesShow(l: Layout, t: StoredTax, i: nat)
    requires i < 4
    ensures IsScalar(TaxValues(l, t)[i]) && LeafText(TaxValues(l, t)[i]) == Shown(l, t)[i]
  {
    hide AmountText, Amount, IsScalar, LeafText;
    if i == 0 {
      TextShows(t.taxType);
    } else if i == 1 {
      AmountShows(t.amount);
    } else if i == 2 {
      TextShows(t.subType);
    } else {
      NumberShows(l.number(t.rate.percent));
    }
  }

  lemma ItemFields(l: Layout, t: StoredTax)
    ensures TaxableItem(l, t).Obj?
    ensures var fields := TaxableItem(l, t).fields;
            && |fields| == |TAX_KEYS|
            && AllScalars(fields)
            && Texts(fields) == Shown(l, t)
            && forall i :: 0 <= i < |fields| ==> fields[i].key == TAX_KEYS[i]
  {
    hide AmountText, Amount, Keyed, Shown, LeafText, IsScalar;
    assert TaxableItem(l, t) == Obj(Keyed(TAX_KEYS, TaxValues(l, t)));
    forall i | 0 <= i < 4 ensures IsScalar(TaxValues(l, t)[i]) && LeafText(TaxValues(l, t)[i]) == Shown(l, t)[i] {
      TaxValuesShow(l, t, i);
    }
  }

  lemma ItemShows(l: Layout, t: StoredTax)
    ensures NonArrayLeaves(TaxableItem(l, t), false) == Shown(l, t)
  {
    hide TaxableItem, Texts, AllScalars, Leaves, Shown;
    ItemFields(l, t);
    ScalarsShow(TaxableItem(l, t).fields);
  }

  lemma ItemsHaveOneShape(l: Layout, t: StoredTax, u: StoredTax)
    ensures SameShapeValue(TaxableItem(l, t), TaxableItem(l, u))
  {
    hide TaxableItem, Texts, AllScalars, SameShape, Shown;
    ItemFields(l, t);
    ItemFields(l, u);
    ScalarsShape(TaxableItem(l, t).fields, TaxableItem(l, u).fields);
  }

  // ----- the rows of a line -----

  predicate ShowSame(l: Layout, a: seq<StoredTax>, b: seq<StoredTax>) {
    |a| == |b| && forall i :: 0 <= i < |a| ==> Shown(l, a[i]) == Shown(l, b[i])
  }

  lemma {:induction false} RowsShape(l: Layout, a: seq<StoredTax>, b: seq<StoredTax>)
    requires |a| == |b|
    ensures SameShapeItems(TaxableItems(l, a), TaxableItems(l, b))
    decreases |a|
  {
    hide TaxableItem;
    if a != [] {
      ItemsHaveOneShape(l, a[0], b[0]);
      RowsShape(l, a[1..], b[1..]);
      assert TaxableItems(l, a)[1..] == TaxableItems(l, a[1..]) && TaxableItems(l, b)[1..] == TaxableItems(l, b[1..]);
    }
  }

  lemma {:induction false} RowsShow(l: Layout, a: seq<StoredTax>, b: seq<StoredTax>)
    requires |a| == |b|
    ensures ItemLeaves(TaxableItems(l, a), false) == ItemLeaves(TaxableItems(l, b), false) <==> ShowSame(l, a, b)
    ensures |ItemLeaves(TaxableItems(l, a), false)| == |ItemLeaves(TaxableItems(l, b), false)|
    decreases |a|
  {
    hide TaxableItem, Shown;
    if a != [] {
      var x, y := TaxableItems(l, a), TaxableItems(l, b);
      assert x[1..] == TaxableItems(l, a[1..]) && y[1..] == TaxableItems(l, b[1..]);
      RowsShow(l, a[1..], b[1..]);
      ItemShows(l, a[0]);
      ItemShows(l, b[0]);
      var p, q := ItemLeaves(x[1..], false), ItemLeaves(y[1..], false);
      if Shown(l, a[0]) + p == Shown(l, b[0]) + q { SplitEqual(Shown(l, a[0]), p, Shown(l, b[0]), q); }
      HeadAndRest(l, a, b);
    }
  }

  lemma HeadAndRest(l: Layout, a: seq<StoredTax>, b: seq<StoredTax>)
    requires |a| == |b| && a != []
    ensures ShowSame(l, a, b) <==> Shown(l, a[0]) == Shown(l, b[0]) && ShowSame(l, a[1..], b[1..])
  {
    hide Shown;
    if Shown(l, a[0]) == Shown(l, b[0]) && ShowSame(l, a[1..], b[1..]) {
      forall i | 0 <= i < |a| ensures Shown(l, a[i]) == Shown(l, b[i]) {
        if i > 0 { assert a[i] == a[1..][i - 1] && b[i] == b[1..][i - 1]; }
      }
    }
    if ShowSame(l, a, b) {
      forall i | 0 <= i < |a[1..]| ensures Shown(l, a[1..][i]) == Shown(l, b[1..][i]) {
        assert a[i + 1] == a[1..][i] && b[i + 1] == b[1..][i];
      }
    }
  }

  // ----- a line -----

  function RowsField(l: Layout, taxes: seq<StoredTax>): Field {
    Field(LINE_KEYS[7], Arr(TaxableItems(l, taxes)))
  }

  // What comes before the tax rows in a line.
  function BeforeRows(l: Layout, header: seq<Field>, row: StoredLine, i: nat): seq<Field> {
    l.lineHead(header, row.quantity, row.unitPrice, i) + LineAmounts(l, row)[..7]
  }

  lemma LineParts(l: Layout, header: seq<Field>, row: StoredLine, i: nat)
    ensures LinePayload(l, header, row, i)
         == Obj(BeforeRows(l, header, row, i) + ([RowsField(l, row.taxes)] + l.lineTail(header, i)))
  {
    hide LineAmounts;
    var head, amounts, tail := l.lineHead(header, row.quantity, row.unitPrice, i), LineAmounts(l, row), l.lineTail(header, i);
    LastAmount(l, row);
    assert amounts == amounts[..7] + [amounts[7]];
    Assoc(head, amounts[..7], [amounts[7]]);
    Assoc(head + amounts[..7], [amounts[7]], tail);
  }

  lemma LastAmount(l: Layout, row: StoredLine)
    ensures |LineAmounts(l, row)| == 8 && LineAmounts(l, row)[7] == RowsField(l, row.taxes)
  {
    hide Amount, TaxableItems;
  }

  lemma SameBefore(l: Layout, header: seq<Field>, row: StoredLine, taxes: seq<StoredTax>, i: nat)
    ensures BeforeRows(l, header, row.(taxes := taxes), i) == BeforeRows(l, header, row, i)
  {
    hide Amount, TaxableItems;
    assert LineAmounts(l, row.(taxes := taxes))[..7] == LineAmounts(l, row)[..7];
  }

  // A line with other rows has the same shape, and shows the same exactly when the rows do.
  lemma LineShows(l: Layout, header: seq<Field>, row: StoredLine, taxes: seq<StoredTax>, i: nat)
    requires |taxes| == |row.taxes|
    ensures var a, b := LinePayload(l, header, row, i), LinePayload(l, header, row.(taxes := taxes), i);
            && a.Obj? && b.Obj?
            && SameShape(a.fields, b.fields)
            && |Leaves(a.fields, false)| == |Leaves(b.fields, false)|
            && (Leaves(a.fields, false) == Leaves(b.fields, false) <==> ShowSame(l, row.taxes, taxes))
  {
    hide LinePayload, TaxableItems, BeforeRows, ShowSame, Leaves, ItemLeaves, SameShape, SameShapeItems;
    var before, tail := BeforeRows(l, header, row, i), l.lineTail(header, i);
    var f, g := RowsField(l, row.taxes), RowsField(l, taxes);
    LineParts(l, header, row, i);
    LineParts(l, header, row.(taxes := taxes), i);
    SameBefore(l, header, row, taxes, i);
    RowsShape(l, row.taxes, taxes);
    RowsShow(l, row.taxes, taxes);
    ShapeOfOne(f, g);
    SameShapeSelf(before);
    SameShapeSelf(tail);
    SameShapeAppend([f], [g], tail, tail);
    SameShapeAppend(before, before, [f] + tail, [g] + tail);
    LeavesAppend([f], tail);
    LeavesAppend([g], tail);
    LeavesAppend(before, [f] + tail);
    LeavesAppend(before, [g] + tail);
    LeavesOne(f);
    LeavesOne(g);
    Inside(Leaves(before, false), ItemLeaves(TaxableItems(l, row.taxes), false), Leaves(tail, false),
           ItemLeaves(TaxableItems(l, taxes), false), Leaves(tail, false));
  }

  // ----- the lines of a document -----

  // The same lines with other tax rows, as many to each line.
  predicate OtherRows(rows: seq<StoredLine>, read: seq<StoredLine>) {
    |rows| == |read|
    && forall i :: 0 <= i < |rows| ==> read[i] == rows[i].(taxes := read[i].taxes) && |read[i].taxes| == |rows[i].taxes|
  }

  predicate AllShowSame(l: Layout, rows: seq<StoredLine>, read: seq<StoredLine>, from: nat) {
    |rows| == |read| && forall i :: from <= i < |rows| ==> ShowSame(l, rows[i].taxes, read[i].taxes)
  }

  lemma {:induction false} LinesShow(l: Layout, header: seq<Field>, rows: seq<StoredLine>, read: seq<StoredLine>, k: nat)
    requires OtherRows(rows, read) && k <= |rows|
    ensures var a, b := LinePayloads(l, header, rows)[k..], LinePayloads(l, header, read)[k..];
            && SameShapeItems(a, b)
            && |ItemLeaves(a, false)| == |ItemLeaves(b, false)|
            && (ItemLeaves(a, false) == ItemLeaves(b, false) <==> AllShowSame(l, rows, read, k))
    decreases |rows| - k
  {
    hide LinePayload, ShowSame, Leaves, SameShape;
    if k < |rows| {
      var a, b := LinePayloads(l, header, rows), LinePayloads(l, header, read);
      LinesShow(l, header, rows, read, k + 1);
      LineShows(l, header, rows[k], read[k].taxes, k);
      assert a[k..][1..] == a[k + 1..] && b[k..][1..] == b[k + 1..];
      var x, y := Leaves(a[k].fields, false), Leaves(b[k].fields, false);
      var p, q := ItemLeaves(a[k + 1..], false), ItemLeaves(b[k + 1..], false);
      if x + p == y + q { SplitEqual(x, p, y, q); }
    }
  }

  // ----- the totals of a document -----

  lemma {:induction false} FieldsShape(a: seq<Field>, b: seq<Field>)
    requires |a| == |b|
    requires forall i :: 0 <= i < |a| ==> a[i].key == b[i].key && SameShapeValue(a[i].value, b[i].value)
    ensures SameShape(a, b)
    decreases |a|
  {
    hide SameShapeValue;
    if a != [] { FieldsShape(a[1..], b[1..]); }
  }

  lemma {:induction false} TaxTotalsShape(t: TaxTotals, u: TaxTotals, k: nat)
    requires |t| == |u| && k <= |t|
    ensures SameShapeItems(TaxTotalItems(t)[k..], TaxTotalItems(u)[k..])
    decreases |t| - k
  {
    hide Amount;
    if k < |t| {
      var a, b := TaxTotalItems(t), TaxTotalItems(u);
      TaxTotalsShape(t, u, k + 1);
      TaxTotalShape(t[k], u[k]);
      assert a[k..][1..] == a[k + 1..] && b[k..][1..] == b[k + 1..];
    }
  }

  lemma TaxTotalShape(t: TaxAmount, u: TaxAmount)
    ensures SameShape([Field("taxType", Str(t.taxType)), Field("amount", Amount(t.amount))],
                      [Field("taxType", Str(u.taxType)), Field("amount", Amount(u.amount))])
  {
    hide SameShape, Amount;
    var f, g := Field("taxType", Str(t.taxType)), Field("taxType", Str(u.taxType));
    var x, y := Field("amount", Amount(t.amount)), Field("amount", Amount(u.amount));
    AmountShape(t.amount, u.amount);
    ShapeOfOne(f, g);
    ShapeOfOne(x, y);
    SameShapeAppend([f], [g], [x], [y]);
    assert [f, x] == [f] + [x] && [g, y] == [g] + [y];
  }

  lemma AmountShape(a: int, b: int)
    ensures SameShapeValue(Amount(a), Amount(b))
  {
    hide AmountNumber;
  }

  // Totals with as many tax totals have one shape.
  lemma TotalsShape(lines: seq<Value>, t: Totals, u: Totals)
    requires |t.taxTotals| == |u.taxTotals|
    ensures SameShape(TotalFields(lines, t)[1..], TotalFields(lines, u)[1..])
  {
    hide Amount, SameShape, SameShapeItems, Keyed, TaxTotalItems;
    var a, b := TotalValues(lines, t), TotalValues(lines, u);
    TaxTotalsShape(t.taxTotals, u.taxTotals, 0);
    assert TaxTotalItems(t.taxTotals)[0..] == TaxTotalItems(t.taxTotals);
    assert TaxTotalItems(u.taxTotals)[0..] == TaxTotalItems(u.taxTotals);
    forall i | 0 < i < 8 ensures SameShapeValue(a[i], b[i]) {
      AmountsShape(t, u);
    }
    FieldsShape(TotalFields(lines, t)[1..], TotalFields(lines, u)[1..]);
  }

  lemma AmountsShape(t: Totals, u: Totals)
    ensures SameShapeValue(Amount(t.totalDiscountAmount), Amount(u.totalDiscountAmount))
    ensures SameShapeValue(Amount(t.totalSalesAmount), Amount(u.totalSalesAmount))
    ensures SameShapeValue(Amount(t.netAmount), Amount(u.netAmount))
    ensures SameShapeValue(Amount(t.totalAmount), Amount(u.totalAmount))
    ensures SameShapeValue(Amount(t.extraDiscountAmount), Amount(u.extraDiscountAmount))
    ensures SameShapeValue(Amount(t.totalItemsDiscountAmount), Amount(u.totalItemsDiscountAmount))
  {
    hide Amount, SameShapeValue;
    AmountShape(t.totalDiscountAmount, u.totalDiscountAmount);
    AmountShape(t.totalSalesAmount, u.totalSalesAmount);
    AmountShape(t.netAmount, u.netAmount);
    AmountShape(t.totalAmount, u.totalAmount);
    AmountShape(t.extraDiscountAmount, u.extraDiscountAmount);
    AmountShape(t.totalItemsDiscountAmount, u.totalItemsDiscountAmount);
  }

  /**
   Two payloads that differ in the tax rows of their lines, and in nothing of the totals when the rows show the same,
   have one canonical string exactly when the rows show the same.
   */
  lemma PayloadsShowExactly(l: Layout, header: seq<Field>, settings: seq<Field>, rows: seq<StoredLine>,
                            read: seq<StoredLine>, t: Totals, u: Totals)
    requires OtherRows(rows, read) && |u.taxTotals| == |t.taxTotals|
    requires AllShowSame(l, rows, read, 0) ==> u == t
    ensures Canon(Payload(l, header, settings, rows, t)) == Canon(Payload(l, header, settings, read, u))
       <==> AllShowSame(l, rows, read, 0)
  {
    hide LinePayloads, AllShowSame, Leaves, ItemLeaves, SameShape, SameShapeItems, Canon, Amount;
    var a, b := LinePayloads(l, header, rows), LinePayloads(l, header, read);
    LinesShow(l, header, rows, read, 0);
    assert a[0..] == a && b[0..] == b;
    var f, g := Field("invoiceLines", Arr(a)), Field("invoiceLines", Arr(b));
    var front, rest, other := l.front(header, settings), TotalFields(a, t)[1..], TotalFields(b, u)[1..];
    PayloadParts(l, header, settings, rows, t);
    PayloadParts(l, header, settings, read, u);
    RestIsSame(a, b, u);
    TotalsShape(a, t, u);
    ShapeOfOne(f, g);
    SameShapeSelf(front);
    SameShapeAppend([f], [g], rest, other);
    SameShapeAppend(front, front, [f] + rest, [g] + other);
    LeavesAppend([f], rest);
    LeavesAppend([g], other);
    LeavesAppend(front, [f] + rest);
    LeavesAppend(front, [g] + other);
    LeavesOne(f);
    LeavesOne(g);
    Inside(Leaves(front, false), ItemLeaves(a, false), Leaves(rest, false), ItemLeaves(b, false), Leaves(other, false));
    CanonicalDeterminesEmittedLeaves(Payload(l, header, settings, rows, t), Payload(l, header, settings, read, u));
  }

  lemma Inside<T>(a: seq<T>, x: seq<T>, p: seq<T>, y: seq<T>, q: seq<T>)
    requires |x| == |y|
    ensures a + (x + p) == a + (y + q) <==> x == y && p == q
  {
    if a + (x + p) == a + (y + q) {
      SplitEqual(a, x + p, a, y + q);
      SplitEqual(x, p, y, q);
    }
  }

  lemma PayloadParts(l: Layout, header: seq<Field>, settings: seq<Field>, rows: seq<StoredLine>, t: Totals)
    ensures var lines := LinePayloads(l, header, rows);
            Payload(l, header, settings, rows, t)
            == l.front(header, settings) + ([Field("invoiceLines", Arr(lines))] + TotalFields(lines, t)[1..])
  {
    hide Amount, LinePayloads;
    var lines := LinePayloads(l, header, rows);
    assert TotalFields(lines, t) == [Field("invoiceLines", Arr(lines))] + TotalFields(lines, t)[1..];
  }

  lemma RestIsSame(a: seq<Value>, b: seq<Value>, t: Totals)
    ensures TotalFields(a, t)[1..] == TotalFields(b, t)[1..]
  {
    hide Amount;
  }

  // Amounts are shown faithfully, so rows of different type or amount show differently.
  lemma ShownAmounts(l: Layout, t: StoredTax, u: StoredTax)
    requires Shown(l, t) == Shown(l, u)
    ensures t.taxType == u.taxType && t.subType == u.subType && t.amount == u.amount
  {
    hide AmountText, ReadAmount;
    AmountRoundTrip(t.amount);
    AmountRoundTrip(u.amount);
    assert Shown(l, t)[0] == Shown(l, u)[0] && Shown(l, t)[1] == Shown(l, u)[1] && Shown(l, t)[2] == Shown(l, u)[2];
  }
}
