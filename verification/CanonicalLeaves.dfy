/**
 What the canonical string determines. For two documents of one shape the strings agree exactly when
 every emitted scalar has the same text, and the emitted scalars are all of them exactly when no scalar
 sits inside an array that is itself an array item.
 */
module CanonicalLeaves {
  import opened Sequences
  import opened Json
  import opened Text
  import opened CanonicalServer

  // Same keys in order, same array lengths, same positions of null, scalars, objects and arrays.
  predicate SameShape(a: seq<Field>, b: seq<Field>)
    decreases a
  {
    && |a| == |b|
    && (a == [] || (a[0].key == b[0].key && SameShapeValue(a[0].value, b[0].value) && SameShape(a[1..], b[1..])))
  }

  predicate SameShapeValue(v: Value, w: Value)
    decreases v
  {
    match v
    case Null => w.Null?
    case Arr(items) => w.Arr? && SameShapeItems(items, w.items)
    case Obj(fields) => w.Obj? && SameShape(fields, w.fields)
    case _ => IsScalar(w)
  }

  predicate SameShapeItems(a: seq<Value>, b: seq<Value>)
    decreases a
  {
    && |a| == |b|
    && (a == [] || (SameShapeValue(a[0], b[0]) && SameShapeItems(a[1..], b[1..])))
  }

  function LeafText(v: Value): string
    requires IsScalar(v)
  {
    match v
    case Str(s) => s
    case Num(t) => t
    case Bool(b) => BoolText(b)
  }

  // Texts of the scalars in document order; `hidden` also includes those in arrays inside arrays.
  function Leaves(fields: seq<Field>, hidden: bool): seq<string>
    decreases fields
  {
    if fields == [] then [] else ValueLeaves(fields[0].value, hidden) + Leaves(fields[1..], hidden)
  }

  function ValueLeaves(v: Value, hidden: bool): seq<string>
    decreases v, 1
  {
    match v
    case Arr(items) => ItemLeaves(items, hidden)
    case _ => NonArrayLeaves(v, hidden)
  }

  function NonArrayLeaves(v: Value, hidden: bool): seq<string>
    decreases v, 0
  {
    match v
    case Null => []
    case Arr(_) => []
    case Obj(fields) => Leaves(fields, hidden)
    case _ => [LeafText(v)]
  }

  function ItemLeaves(items: seq<Value>, hidden: bool): seq<string>
    decreases items
  {
    if items == [] then []
    else (if hidden then ValueLeaves(items[0], true) else NonArrayLeaves(items[0], false)) + ItemLeaves(items[1..], hidden)
  }

  // ----- the string determines the emitted leaves -----

  lemma NumberIsPlain(t: NumText)
    ensures forall i :: 0 <= i < |t| ==> t[i] != '"' && t[i] != '\\' && t[i] as int >= 0x20
  {
    forall i | 0 <= i < |t| ensures t[i] != '"' && t[i] != '\\' && t[i] as int >= 0x20 {
      assert t[i] in t;
    }
  }

  lemma ScalarIsQuotedLeaf(v: Value)
    requires IsScalar(v)
    ensures Scalar(v) == Quote(LeafText(v))
  {
    hide Escape;
    match v
    case Str(_) =>
    case Num(t) =>
      NumberIsPlain(t);
      EscapePlain(t);
    case Bool(b) => EscapePlain(BoolText(b));
  }

  lemma {:induction false} FieldsDetermined(a: seq<Field>, b: seq<Field>, x: string, y: string)
    requires SameShape(a, b) && Canon(a) + x == Canon(b) + y
    ensures Leaves(a, false) == Leaves(b, false) && x == y
    decreases a
  {
    if a == [] {
      assert "" + x == x && "" + y == y;
    } else {
      var f, g := a[0], b[0];
      var restA, restB := Canon(a[1..]) + x, Canon(b[1..]) + y;
      Assoc(CanonField(f), Canon(a[1..]), x);
      Assoc(CanonField(g), Canon(b[1..]), y);
      Assoc(Name(f.key), CanonValue(f.key, f.value), restA);
      Assoc(Name(g.key), CanonValue(g.key, g.value), restB);
      SplitEqual(Name(f.key), CanonValue(f.key, f.value) + restA, Name(g.key), CanonValue(g.key, g.value) + restB);
      ValueDetermined(f.key, f.value, g.value, restA, restB);
      FieldsDetermined(a[1..], b[1..], x, y);
    }
  }

  lemma {:induction false} ValueDetermined(key: string, v: Value, w: Value, x: string, y: string)
    requires SameShapeValue(v, w) && CanonValue(key, v) + x == CanonValue(key, w) + y
    ensures ValueLeaves(v, false) == ValueLeaves(w, false) && x == y
    decreases v, 1
  {
    match v
    case Arr(items) => ItemsDetermined(key, items, w.items, x, y);
    case _ => NonArrayDetermined(v, w, x, y);
  }

  lemma {:induction false} NonArrayDetermined(v: Value, w: Value, x: string, y: string)
    requires SameShapeValue(v, w) && CanonItem(v) + x == CanonItem(w) + y
    ensures NonArrayLeaves(v, false) == NonArrayLeaves(w, false) && x == y
    decreases v, 0
  {
    match v
    case Null => assert "" + x == x && "" + y == y;
    case Arr(_) => assert "" + x == x && "" + y == y;
    case Obj(fields) => FieldsDetermined(fields, w.fields, x, y);
    case _ =>
      ScalarIsQuotedLeaf(v);
      ScalarIsQuotedLeaf(w);
      QuotePrefixFree(LeafText(v), LeafText(w), x, y);
  }

  lemma {:induction false} ItemsDetermined(key: string, a: seq<Value>, b: seq<Value>, x: string, y: string)
    requires SameShapeItems(a, b) && CanonItems(key, a) + x == CanonItems(key, b) + y
    ensures ItemLeaves(a, false) == ItemLeaves(b, false) && x == y
    decreases a
  {
    if a == [] {
      assert "" + x == x && "" + y == y;
    } else {
      var restA, restB := CanonItems(key, a[1..]) + x, CanonItems(key, b[1..]) + y;
      Assoc(Name(key) + CanonItem(a[0]), CanonItems(key, a[1..]), x);
      Assoc(Name(key) + CanonItem(b[0]), CanonItems(key, b[1..]), y);
      Assoc(Name(key), CanonItem(a[0]), restA);
      Assoc(Name(key), CanonItem(b[0]), restB);
      SplitEqual(Name(key), CanonItem(a[0]) + restA, Name(key), CanonItem(b[0]) + restB);
      NonArrayDetermined(a[0], b[0], restA, restB);
      ItemsDetermined(key, a[1..], b[1..], x, y);
    }
  }

  // ----- the emitted leaves determine the string -----

  lemma {:induction false} FieldsFromLeaves(a: seq<Field>, b: seq<Field>)
    requires SameShape(a, b)
    ensures |Leaves(a, false)| == |Leaves(b, false)|
    ensures Leaves(a, false) == Leaves(b, false) ==> Canon(a) == Canon(b)
    decreases a
  {
    if a != [] {
      ValueFromLeaves(a[0].key, a[0].value, b[0].value);
      FieldsFromLeaves(a[1..], b[1..]);
      if Leaves(a, false) == Leaves(b, false) {
        SplitEqual(ValueLeaves(a[0].value, false), Leaves(a[1..], false),
                    ValueLeaves(b[0].value, false), Leaves(b[1..], false));
      }
    }
  }

  lemma {:induction false} ValueFromLeaves(key: string, v: Value, w: Value)
    requires SameShapeValue(v, w)
    ensures |ValueLeaves(v, false)| == |ValueLeaves(w, false)|
    ensures ValueLeaves(v, false) == ValueLeaves(w, false) ==> CanonValue(key, v) == CanonValue(key, w)
    decreases v, 1
  {
    match v
    case Arr(items) => ItemsFromLeaves(key, items, w.items);
    case _ => NonArrayFromLeaves(v, w);
  }

  lemma {:induction false} NonArrayFromLeaves(v: Value, w: Value)
    requires SameShapeValue(v, w)
    ensures |NonArrayLeaves(v, false)| == |NonArrayLeaves(w, false)|
    ensures NonArrayLeaves(v, false) == NonArrayLeaves(w, false) ==> CanonItem(v) == CanonItem(w)
    decreases v, 0
  {
    match v
    case Null =>
    case Arr(_) =>
    case Obj(fields) => FieldsFromLeaves(fields, w.fields);
    case _ =>
      ScalarIsQuotedLeaf(v);
      ScalarIsQuotedLeaf(w);
      assert NonArrayLeaves(v, false)[0] == LeafText(v) && NonArrayLeaves(w, false)[0] == LeafText(w);
  }

  lemma {:induction false} ItemsFromLeaves(key: string, a: seq<Value>, b: seq<Value>)
    requires SameShapeItems(a, b)
    ensures |ItemLeaves(a, false)| == |ItemLeaves(b, false)|
    ensures ItemLeaves(a, false) == ItemLeaves(b, false) ==> CanonItems(key, a) == CanonItems(key, b)
    decreases a
  {
    if a != [] {
      NonArrayFromLeaves(a[0], b[0]);
      ItemsFromLeaves(key, a[1..], b[1..]);
      if ItemLeaves(a, false) == ItemLeaves(b, false) {
        SplitEqual(NonArrayLeaves(a[0], false), ItemLeaves(a[1..], false),
                    NonArrayLeaves(b[0], false), ItemLeaves(b[1..], false));
      }
    }
  }

  // Main result: within one shape, the canonical string and the emitted leaf texts determine each other.
  lemma CanonicalDeterminesEmittedLeaves(a: seq<Field>, b: seq<Field>)
    requires SameShape(a, b)
    ensures Canon(a) == Canon(b) <==> Leaves(a, false) == Leaves(b, false)
  {
    FieldsFromLeaves(a, b);
    if Canon(a) == Canon(b) {
      FieldsDetermined(a, b, "", "");
    }
  }

  // Without a common shape the strings collide: nesting leaves no mark.
  lemma ShapeIsNeeded()
    ensures var a, b := [Field("a", Str("B"))], [Field("a", Obj([Field("b", Null)]))];
            Canon(a) == Canon(b) && !SameShape(a, b)
  {
    var a, b := [Field("a", Str("B"))], [Field("a", Obj([Field("b", Null)]))];
    assert Canon(a) == Name("a") + Quote("B") by {
      assert Canon(a[1..]) == "";
    }
    assert Canon([Field("b", Null)]) == Name("b");
    assert Canon(b) == Name("a") + Name("b");
    assert ToUpper("b") == "B" == Escape("B");
  }

  // ----- hidden leaves -----

  function HiddenLeaves(fields: seq<Field>): nat
    decreases fields
  {
    if fields == [] then 0 else HiddenInValue(fields[0].value) + HiddenLeaves(fields[1..])
  }

  function HiddenInValue(v: Value): nat
    decreases v
  {
    match v
    case Arr(items) => HiddenInItems(items)
    case Obj(fields) => HiddenLeaves(fields)
    case _ => 0
  }

  // Everything below an array item that is an array is hidden.
  function HiddenInItems(items: seq<Value>): nat
    decreases items
  {
    if items == [] then 0
    else (if items[0].Arr? then |ItemLeaves(items[0].items, true)| else HiddenInValue(items[0])) + HiddenInItems(items[1..])
  }

  lemma {:induction false} NothingHiddenFields(fields: seq<Field>)
    requires HiddenLeaves(fields) == 0
    ensures Leaves(fields, true) == Leaves(fields, false)
    decreases fields
  {
    if fields != [] {
      NothingHiddenValue(fields[0].value);
      NothingHiddenFields(fields[1..]);
    }
  }

  lemma {:induction false} NothingHiddenValue(v: Value)
    requires HiddenInValue(v) == 0
    ensures ValueLeaves(v, true) == ValueLeaves(v, false)
    decreases v
  {
    match v
    case Arr(items) => NothingHiddenItems(items);
    case Obj(fields) => NothingHiddenFields(fields);
    case _ =>
  }

  lemma {:induction false} NothingHiddenItems(items: seq<Value>)
    requires HiddenInItems(items) == 0
    ensures ItemLeaves(items, true) == ItemLeaves(items, false)
    decreases items
  {
    if items != [] {
      if !items[0].Arr? { NothingHiddenValue(items[0]); }
      NothingHiddenItems(items[1..]);
    }
  }

  lemma {:induction false} ShapeKeepsHidden(a: seq<Field>, b: seq<Field>)
    requires SameShape(a, b)
    ensures HiddenLeaves(a) == HiddenLeaves(b) && |Leaves(a, true)| == |Leaves(b, true)|
    decreases a
  {
    if a != [] {
      ShapeKeepsHiddenValue(a[0].value, b[0].value);
      ShapeKeepsHidden(a[1..], b[1..]);
    }
  }

  lemma {:induction false} ShapeKeepsHiddenValue(v: Value, w: Value)
    requires SameShapeValue(v, w)
    ensures HiddenInValue(v) == HiddenInValue(w) && |ValueLeaves(v, true)| == |ValueLeaves(w, true)|
    decreases v
  {
    match v
    case Arr(items) => ShapeKeepsHiddenItems(items, w.items);
    case Obj(fields) => ShapeKeepsHidden(fields, w.fields);
    case _ =>
  }

  lemma {:induction false} ShapeKeepsHiddenItems(a: seq<Value>, b: seq<Value>)
    requires SameShapeItems(a, b)
    ensures HiddenInItems(a) == HiddenInItems(b) && |ItemLeaves(a, true)| == |ItemLeaves(b, true)|
    decreases a
  {
    if a != [] {
      ShapeKeepsHiddenValue(a[0], b[0]);
      ShapeKeepsHiddenItems(a[1..], b[1..]);
    }
  }

  // ----- a witness for every document with a hidden leaf -----

  // The same document with every hidden scalar replaced by a longer text (all scalars when `deep`).
  function Alter(fields: seq<Field>, deep: bool): seq<Field>
    decreases fields
  {
    if fields == [] then []
    else [Field(fields[0].key, AlterValue(fields[0].value, deep))] + Alter(fields[1..], deep)
  }

  function AlterValue(v: Value, deep: bool): Value
    decreases v
  {
    match v
    case Null => Null
    case Arr(items) => Arr(AlterItems(items, deep))
    case Obj(fields) => Obj(Alter(fields, deep))
    case _ => if deep then Str(LeafText(v) + "?") else v
  }

  function AlterItems(items: seq<Value>, deep: bool): seq<Value>
    decreases items
  {
    if items == [] then []
    else [AlterValue(items[0], deep || items[0].Arr?)] + AlterItems(items[1..], deep)
  }

  // Altered leaves are pairwise longer when they are hidden and equal otherwise.
  function TotalLength(texts: seq<string>): nat {
    if texts == [] then 0 else |texts[0]| + TotalLength(texts[1..])
  }

  lemma {:induction false} TotalLengthAppend(a: seq<string>, b: seq<string>)
    ensures TotalLength(a + b) == TotalLength(a) + TotalLength(b)
  {
    if a == [] {
      assert a + b == b;
    } else {
      TotalLengthAppend(a[1..], b);
      assert (a + b)[1..] == a[1..] + b;
    }
  }

  lemma {:induction false} AlterFields(fields: seq<Field>, deep: bool)
    ensures SameShape(fields, Alter(fields, deep))
    ensures !deep ==> Leaves(Alter(fields, deep), false) == Leaves(fields, false)
    ensures TotalLength(Leaves(Alter(fields, deep), true))
         == TotalLength(Leaves(fields, true)) + if deep then |Leaves(fields, true)| else HiddenLeaves(fields)
    decreases fields
  {
    if fields != [] {
      var altered := Alter(fields, deep);
      AlterOneValue(fields[0].value, deep);
      AlterFields(fields[1..], deep);
      assert altered[1..] == Alter(fields[1..], deep);
      TotalLengthAppend(ValueLeaves(fields[0].value, true), Leaves(fields[1..], true));
      TotalLengthAppend(ValueLeaves(altered[0].value, true), Leaves(altered[1..], true));
    }
  }

  lemma {:induction false} AlterOneValue(v: Value, deep: bool)
    ensures SameShapeValue(v, AlterValue(v, deep))
    ensures !deep ==> ValueLeaves(AlterValue(v, deep), false) == ValueLeaves(v, false)
    ensures !deep ==> NonArrayLeaves(AlterValue(v, deep), false) == NonArrayLeaves(v, false)
    ensures TotalLength(ValueLeaves(AlterValue(v, deep), true))
         == TotalLength(ValueLeaves(v, true)) + if deep then |ValueLeaves(v, true)| else HiddenInValue(v)
    decreases v
  {
    match v
    case Arr(items) => AlterAllItems(items, deep);
    case Obj(fields) => AlterFields(fields, deep);
    case _ =>
  }

  lemma {:induction false} AlterAllItems(items: seq<Value>, deep: bool)
    ensures SameShapeItems(items, AlterItems(items, deep))
    ensures !deep ==> ItemLeaves(AlterItems(items, deep), false) == ItemLeaves(items, false)
    ensures TotalLength(ItemLeaves(AlterItems(items, deep), true))
         == TotalLength(ItemLeaves(items, true)) + if deep then |ItemLeaves(items, true)| else HiddenInItems(items)
    decreases items
  {
    if items != [] {
      var altered := AlterItems(items, deep);
      AlterOneValue(items[0], deep || items[0].Arr?);
      AlterAllItems(items[1..], deep);
      assert altered[1..] == AlterItems(items[1..], deep);
      TotalLengthAppend(ValueLeaves(items[0], true), ItemLeaves(items[1..], true));
      TotalLengthAppend(ValueLeaves(altered[0], true), ItemLeaves(altered[1..], true));
    }
  }

  // The string determines every scalar of a document exactly when the document hides none.
  lemma CanonicalDeterminesAllLeavesExactly(a: seq<Field>)
    ensures (forall b :: SameShape(a, b) && Canon(a) == Canon(b) ==> Leaves(a, true) == Leaves(b, true))
       <==> HiddenLeaves(a) == 0
  {
    if HiddenLeaves(a) == 0 {
      forall b | SameShape(a, b) && Canon(a) == Canon(b) ensures Leaves(a, true) == Leaves(b, true) {
        CanonicalDeterminesEmittedLeaves(a, b);
        ShapeKeepsHidden(a, b);
        NothingHiddenFields(a);
        NothingHiddenFields(b);
      }
    } else {
      var b := Alter(a, false);
      AlterFields(a, false);
      CanonicalDeterminesEmittedLeaves(a, b);
      assert SameShape(a, b) && Canon(a) == Canon(b) && Leaves(a, true) != Leaves(b, true);
    }
  }
}
