/**
 The payload of a document (builders/document.ts:71-197) as far as money goes, and what the local check reads from it
 (local-validator.ts:98-132). Everything that is not money is a parameter; it comes before and after the amounts and
 does not use their keys.
 */
module EtaPayload {
  import opened Wrappers
  import Sums
  import opened Json
  import opened MoneyText
  import opened InvoiceLines
  import opened DocumentTotals
  import opened Recalculation
  import opened Validator

  const TOTAL_KEYS: seq<string> := [
    "invoiceLines", "totalDiscountAmount", "totalSalesAmount", "netAmount", "taxTotals", "totalAmount",
    "extraDiscountAmount", "totalItemsDiscountAmount"
  ]

  const LINE_KEYS: seq<string> := [
    "salesTotal", "total", "valueDifference", "totalTaxableFees", "netTotal", "itemsDiscount", "discount", "taxableItems"
  ]

  const TAX_KEYS: seq<string> := ["taxType", "amount", "subType", "rate"]

  // Fields in the order of their keys.
  function Keyed(keys: seq<string>, values: seq<Value>): (fields: seq<Field>)
    requires |keys| == |values|
    ensures |fields| == |keys| && forall i :: 0 <= i < |keys| ==> fields[i] == Field(keys[i], values[i])
  {
    seq(|keys|, i requires 0 <= i < |keys| => Field(keys[i], values[i]))
  }

  predicate Without(fields: seq<Field>, keys: seq<string>) {
    forall i, k :: 0 <= i < |fields| && 0 <= k < |keys| ==> fields[i].key != keys[k]
  }

  type Front = fields: seq<Field> | Without(fields, TOTAL_KEYS)

  type LinePart = fields: seq<Field> | Without(fields, LINE_KEYS)

  // Issuer, receiver and the rest from header and settings; description, quantity and unit value of a line from its
  // header, quantity, price and number; the optional fields at its end; and the text of a number that is not money.
  datatype Layout = Layout(
    front: (seq<Field>, seq<Field>) -> Front,
    lineHead: (seq<Field>, real, real, nat) -> LinePart,
    lineTail: (seq<Field>, nat) -> LinePart,
    number: real -> NumText
  )

  function Amount(piasters: int): Value { Num(AmountNumber(piasters)) }

  function TaxableItem(l: Layout, t: StoredTax): Value {
    Obj(Keyed(TAX_KEYS, [Str(t.taxType), Amount(t.amount), Str(t.subType), Num(l.number(t.rate.percent))]))
  }

  function TaxableItems(l: Layout, taxes: seq<StoredTax>): (items: seq<Value>)
    ensures |items| == |taxes| && forall i :: 0 <= i < |items| ==> items[i] == TaxableItem(l, taxes[i])
  {
    seq(|taxes|, i requires 0 <= i < |taxes| => TaxableItem(l, taxes[i]))
  }

  function Discount(l: Layout, row: StoredLine): Value {
    Obj([
      Field("rate", Num(l.number(if row.discountRate.Some? then row.discountRate.value else 0.0))),
      Field("amount", Amount(row.discountAmount))
    ])
  }

  function LineValues(l: Layout, row: StoredLine): (values: seq<Value>)
    ensures |values| == 8
  {
    [
      Amount(row.salesTotal),
      Amount(row.total),
      Amount(row.valueDifference),
      Amount(row.totalTaxableFees),
      Amount(row.netTotal),
      Amount(row.itemsDiscount),
      Discount(l, row),
      Arr(TaxableItems(l, row.taxes))
    ]
  }

  function LineAmounts(l: Layout, row: StoredLine): seq<Field> {
    Keyed(LINE_KEYS, LineValues(l, row))
  }

  function LinePayload(l: Layout, header: seq<Field>, row: StoredLine, i: nat): Value {
    Obj(l.lineHead(header, row.quantity, row.unitPrice, i) + LineAmounts(l, row) + l.lineTail(header, i))
  }

  function LinePayloads(l: Layout, header: seq<Field>, rows: seq<StoredLine>): (items: seq<Value>)
    ensures |items| == |rows| && forall i :: 0 <= i < |items| ==> items[i] == LinePayload(l, header, rows[i], i)
  {
    seq(|rows|, i requires 0 <= i < |rows| => LinePayload(l, header, rows[i], i))
  }

  function TaxTotalItems(totals: TaxTotals): (items: seq<Value>)
    ensures |items| == |totals|
  {
    seq(|totals|, i requires 0 <= i < |totals| =>
      Obj([Field("taxType", Str(totals[i].taxType)), Field("amount", Amount(totals[i].amount))]))
  }

  function TotalValues(lines: seq<Value>, t: DocumentTotals.Totals): (values: seq<Value>)
    ensures |values| == 8
  {
    [
      Arr(lines),
      Amount(t.totalDiscountAmount),
      Amount(t.totalSalesAmount),
      Amount(t.netAmount),
      Arr(TaxTotalItems(t.taxTotals)),
      Amount(t.totalAmount),
      Amount(t.extraDiscountAmount),
      Amount(t.totalItemsDiscountAmount)
    ]
  }

  function TotalFields(lines: seq<Value>, t: DocumentTotals.Totals): seq<Field> {
    Keyed(TOTAL_KEYS, TotalValues(lines, t))
  }

  function Payload(l: Layout, header: seq<Field>, settings: seq<Field>, rows: seq<StoredLine>,
                   t: DocumentTotals.Totals): seq<Field> {
    l.front(header, settings) + TotalFields(LinePayloads(l, header, rows), t)
  }

  // ----- reading it back -----

  function Get(fields: seq<Field>, key: string): Option<Value> {
    if fields == [] then None else if fields[0].key == key then Some(fields[0].value) else Get(fields[1..], key)
  }

  // A finite number, or a text that is one.
  function ToAmount(v: Option<Value>): Option<int> {
    match v
    case Some(Num(text)) => ReadAmount(text)
    case Some(Str(s)) => ReadAmount(s)
    case _ => None
  }

  function TypeText(v: Option<Value>): string {
    match v
    case Some(Str(s)) => s
    case Some(Num(text)) => text
    case _ => ""
  }

  function ReadTax(v: Value): DeclaredTax {
    match v
    case Obj(fields) => DeclaredTax(TypeText(Get(fields, "taxType")), ToAmount(Get(fields, "amount")))
    case _ => NotAnObject
  }

  function Items(v: Option<Value>): seq<Value> {
    match v
    case Some(Arr(items)) => items
    case _ => []
  }

  function ReadTaxes(items: seq<Value>): (ts: seq<DeclaredTax>)
    ensures |ts| == |items| && forall i :: 0 <= i < |ts| ==> ts[i] == ReadTax(items[i])
  {
    seq(|items|, i requires 0 <= i < |items| => ReadTax(items[i]))
  }

  function ReadLine(v: Value): DeclaredLine {
    match v
    case Obj(fields) =>
      DeclaredLine(ToAmount(Get(fields, "netTotal")), ToAmount(Get(fields, "total")),
                   ToAmount(Get(fields, "itemsDiscount")), ReadTaxes(Items(Get(fields, "taxableItems"))))
    case _ => NotALine
  }

  function ReadLines(items: seq<Value>): (ls: seq<DeclaredLine>)
    ensures |ls| == |items| && forall i :: 0 <= i < |ls| ==> ls[i] == ReadLine(items[i])
  {
    seq(|items|, i requires 0 <= i < |items| => ReadLine(items[i]))
  }

  // What the check reads of a document; nothing when it has no list of lines.
  function ReadPayload(document: seq<Field>): Option<Declared> {
    match Get(document, "invoiceLines")
    case Some(Arr(items)) =>
      Some(Declared(ReadLines(items), ToAmount(Get(document, "netAmount")), ToAmount(Get(document, "totalAmount")),
                    ToAmount(Get(document, "extraDiscountAmount"))))
    case _ => None
  }

  function PayloadIssues(document: seq<Field>): seq<Issue> {
    match ReadPayload(document)
    case Some(d) => Issues(d)
    case None => []
  }

  // ----- the round trip -----

  lemma {:induction false} GetAt(fields: seq<Field>, k: nat, key: string)
    requires k < |fields| && fields[k].key == key && forall i :: 0 <= i < k ==> fields[i].key != key
    ensures Get(fields, key) == Some(fields[k].value)
    decreases k
  {
    if k > 0 { GetAt(fields[1..], k - 1, key); }
  }

  lemma {:induction false} GetAfter(before: seq<Field>, fields: seq<Field>, key: string)
    requires forall i :: 0 <= i < |before| ==> before[i].key != key
    ensures Get(before + fields, key) == Get(fields, key)
    decreases |before|
  {
    if before == [] {
      assert before + fields == fields;
    } else {
      assert (before + fields)[1..] == before[1..] + fields;
      GetAfter(before[1..], fields, key);
    }
  }

  lemma ReadsAmount(piasters: int)
    ensures ToAmount(Some(Amount(piasters))) == Some(piasters)
  {
    hide AmountText, ReadAmount;
    AmountRoundTrip(piasters);
  }

  // Keys of different length, or with different letters at one place, are different.
  lemma DifferAt(a: string, b: string, k: nat)
    requires |a| != |b| || (k < |a| && a[k] != b[k])
    ensures a != b
  {
  }

  lemma TaxKeysDiffer()
    ensures Sums.Distinct(TAX_KEYS)
  {
    DifferAt("taxType", "subType", 0);
  }

  lemma LineKeysDiffer()
    ensures Sums.Distinct(LINE_KEYS)
  {
    DifferAt("netTotal", "discount", 0);
  }

  lemma TotalKeysDiffer()
    ensures Sums.Distinct(TOTAL_KEYS)
  {
    DifferAt("totalDiscountAmount", "extraDiscountAmount", 0);
  }

  // Looking a key up between parts that do not use it.
  lemma GetKeyed(before: seq<Field>, keys: seq<string>, values: seq<Value>, after: seq<Field>, k: nat)
    requires |keys| == |values| && Sums.Distinct(keys) && Without(before, keys) && k < |keys|
    ensures Get(before + Keyed(keys, values) + after, keys[k]) == Some(values[k])
  {
    hide Get;
    var fields := Keyed(keys, values);
    assert before + fields + after == before + (fields + after);
    GetAfter(before, fields + after, keys[k]);
    GetAt(fields + after, k, keys[k]);
  }

  lemma TaxFields(l: Layout, t: StoredTax)
    ensures TaxableItem(l, t).Obj?
    ensures Get(TaxableItem(l, t).fields, TAX_KEYS[0]) == Some(Str(t.taxType))
    ensures Get(TaxableItem(l, t).fields, TAX_KEYS[1]) == Some(Amount(t.amount))
  {
    hide Get, Amount, Keyed, Sums.Distinct;
    TaxKeysDiffer();
    var values := [Str(t.taxType), Amount(t.amount), Str(t.subType), Num(l.number(t.rate.percent))];
    GetKeyed([], TAX_KEYS, values, [], 0);
    GetKeyed([], TAX_KEYS, values, [], 1);
    assert [] + Keyed(TAX_KEYS, values) + [] == Keyed(TAX_KEYS, values);
  }

  lemma ReadsTax(l: Layout, t: StoredTax)
    ensures ReadTax(TaxableItem(l, t)) == DeclaredTax(t.taxType, Some(t.amount))
  {
    hide Get, ToAmount, Amount, TaxableItem;
    TaxFields(l, t);
    ReadsAmount(t.amount);
  }

  // The line as the check sees it.
  function DeclaredRow(row: StoredLine): DeclaredLine {
    DeclaredLine(Some(row.netTotal), Some(row.total), Some(row.itemsDiscount),
                 seq(|row.taxes|, i requires 0 <= i < |row.taxes| => DeclaredTax(row.taxes[i].taxType, Some(row.taxes[i].amount))))
  }

  function DeclaredRows(rows: seq<StoredLine>): (ds: seq<DeclaredLine>)
    ensures |ds| == |rows| && forall i :: 0 <= i < |ds| ==> ds[i] == DeclaredRow(rows[i])
  {
    seq(|rows|, i requires 0 <= i < |rows| => DeclaredRow(rows[i]))
  }

  lemma LineField(l: Layout, header: seq<Field>, row: StoredLine, i: nat, k: nat)
    requires k < 8
    ensures LinePayload(l, header, row, i).Obj?
    ensures Get(LinePayload(l, header, row, i).fields, LINE_KEYS[k]) == Some(LineValues(l, row)[k])
  {
    hide Get, Keyed, Sums.Distinct, Without, LineValues;
    LineKeysDiffer();
    GetKeyed(l.lineHead(header, row.quantity, row.unitPrice, i), LINE_KEYS, LineValues(l, row), l.lineTail(header, i), k);
  }

  lemma ReadsTaxes(l: Layout, taxes: seq<StoredTax>)
    ensures |ReadTaxes(TaxableItems(l, taxes))| == |taxes|
    ensures forall k :: 0 <= k < |taxes| ==>
              ReadTaxes(TaxableItems(l, taxes))[k] == DeclaredTax(taxes[k].taxType, Some(taxes[k].amount))
  {
    hide ReadTax, TaxableItem;
    forall k | 0 <= k < |taxes|
      ensures ReadTaxes(TaxableItems(l, taxes))[k] == DeclaredTax(taxes[k].taxType, Some(taxes[k].amount))
    {
      ReadsTax(l, taxes[k]);
    }
  }

  lemma LineFields(l: Layout, header: seq<Field>, row: StoredLine, i: nat)
    ensures LinePayload(l, header, row, i).Obj?
    ensures var fields := LinePayload(l, header, row, i).fields;
            && Get(fields, LINE_KEYS[1]) == Some(Amount(row.total))
            && Get(fields, LINE_KEYS[4]) == Some(Amount(row.netTotal))
            && Get(fields, LINE_KEYS[5]) == Some(Amount(row.itemsDiscount))
            && Get(fields, LINE_KEYS[7]) == Some(Arr(TaxableItems(l, row.taxes)))
  {
    hide Get, Amount, TaxableItems, LinePayload, Discount;
    LineField(l, header, row, i, 1);
    LineField(l, header, row, i, 4);
    LineField(l, header, row, i, 5);
    LineField(l, header, row, i, 7);
  }

  lemma ReadsLine(l: Layout, header: seq<Field>, row: StoredLine, i: nat)
    ensures ReadLine(LinePayload(l, header, row, i)) == DeclaredRow(row)
  {
    hide Get, Amount, ToAmount, LinePayload, ReadTaxes, TaxableItems;
    LineFields(l, header, row, i);
    ReadsAmount(row.total);
    ReadsAmount(row.netTotal);
    ReadsAmount(row.itemsDiscount);
    ReadsTaxes(l, row.taxes);
    assert ReadTaxes(TaxableItems(l, row.taxes)) == DeclaredRow(row).taxableItems;
  }

  lemma TotalField(l: Layout, header: seq<Field>, settings: seq<Field>, rows: seq<StoredLine>,
                   t: DocumentTotals.Totals, k: nat)
    requires k < 8
    ensures Get(Payload(l, header, settings, rows, t), TOTAL_KEYS[k])
         == Some(TotalValues(LinePayloads(l, header, rows), t)[k])
  {
    hide Get, Keyed, Sums.Distinct, Without, TotalValues;
    TotalKeysDiffer();
    var front, totals := l.front(header, settings), TotalFields(LinePayloads(l, header, rows), t);
    GetKeyed(front, TOTAL_KEYS, TotalValues(LinePayloads(l, header, rows), t), [], k);
    assert front + totals + [] == front + totals;
  }

  /** The check reads from a payload exactly the stored rows and totals it was built from. */
  lemma ReadsPayload(l: Layout, header: seq<Field>, settings: seq<Field>, rows: seq<StoredLine>, t: DocumentTotals.Totals)
    ensures ReadPayload(Payload(l, header, settings, rows, t))
         == Some(Declared(DeclaredRows(rows), Some(t.netAmount), Some(t.totalAmount), Some(t.extraDiscountAmount)))
  {
    hide Get, Amount, ToAmount, Payload, LinePayload, ReadLine, DeclaredRow;
    TotalField(l, header, settings, rows, t, 0);
    TotalField(l, header, settings, rows, t, 3);
    TotalField(l, header, settings, rows, t, 5);
    TotalField(l, header, settings, rows, t, 6);
    ReadsAmount(t.netAmount);
    ReadsAmount(t.totalAmount);
    ReadsAmount(t.extraDiscountAmount);
    forall i | 0 <= i < |rows| ensures ReadLine(LinePayload(l, header, rows[i], i)) == DeclaredRow(rows[i]) {
      ReadsLine(l, header, rows[i], i);
    }
    assert ReadLines(LinePayloads(l, header, rows)) == DeclaredRows(rows);
  }

  // A stored line is declared as it was computed.
  lemma StoredIsDeclared(input: LineInput, c: LineComputed)
    ensures DeclaredRow(Store(input, c)) == DeclareLine(c)
  {
  }

  /** A payload built from the engine's lines and totals raises no issue. */
  lemma BuiltPayloadsPass(l: Layout, header: seq<Field>, settings: seq<Field>, rows: seq<StoredLine>,
                          inputs: seq<LineInput>, computed: seq<LineComputed>, extraDiscount: int)
    requires |inputs| == |computed| == |rows|
    requires forall i :: 0 <= i < |rows| ==>
               Calculated(inputs[i]) == Ok(computed[i]) && rows[i] == Store(inputs[i], computed[i])
    ensures var p := Payload(l, header, settings, rows, TotalsOf(computed, extraDiscount));
            && PayloadIssues(p) == []
            && ReadPayload(p) == Some(Declare(computed, TotalsOf(computed, extraDiscount)))
  {
    hide Payload, ReadPayload, Calculated, Store, TotalsOf, DeclaredRow, DeclareLine, Issues, Balanced;
    var t := TotalsOf(computed, extraDiscount);
    ReadsPayload(l, header, settings, rows, t);
    forall i | 0 <= i < |rows| ensures DeclaredRow(rows[i]) == DeclareLine(computed[i]) {
      StoredIsDeclared(inputs[i], computed[i]);
    }
    assert DeclareLines(computed) == DeclaredRows(rows);
    forall i | 0 <= i < |computed| ensures Balanced(computed[i]) { CalculatedIsBalanced(inputs[i]); }
    EngineDocumentsPass(computed, extraDiscount);
  }
}
