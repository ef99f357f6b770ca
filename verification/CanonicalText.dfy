/**
 What the canonical string is, said without its definition: the laws that name, scalar, object and array fields obey,
 on the server and on the agent, and that nothing else obeys them. Names are compared without regard to case.
 */
module CanonicalText {
  import opened Wrappers
  import opened Json
  import opened Text
  import opened CanonicalServer
  import CanonicalAgent

  predicate Letter(c: char, u: char) {
    if 'a' <= c <= 'z' then u as int == c as int - 32 else u == c
  }

  // A quote, every letter of the name in upper case, a quote.
  predicate NamedInUpperCase(key: string, t: string) {
    && |t| == |key| + 2
    && t[0] == t[|key| + 1] == '"'
    && forall i :: 0 <= i < |key| ==> Letter(key[i], t[i + 1])
  }

  // ----- the laws -----

  // An array's items as fields of its name; an item that is an array shows nothing but that name.
  function AsFields(key: string, items: seq<Value>): (fields: seq<Field>)
    ensures |fields| == |items|
    ensures forall i :: 0 <= i < |items| ==> fields[i] == Field(key, if items[i].Arr? then Null else items[i])
  {
    seq(|items|, i requires 0 <= i < |items| => Field(key, if items[i].Arr? then Null else items[i]))
  }

  // What one field shows: its name in upper case between quotes, then its string as a literal, its number or boolean
  // between quotes, its object's fields, or its items one by one as fields of the same name.
  predicate Shows(f: seq<Field> -> string, key: string, v: Value) {
    var shown, name := f([Field(key, v)]), f([Field(key, Null)]);
    match v
    case Null => NamedInUpperCase(key, shown)
    case Str(s) => shown == name + Quote(s)
    case Num(t) => shown == name + ("\"" + t + "\"")
    case Bool(b) => shown == name + (if b then "\"true\"" else "\"false\"")
    case Obj(fields) => shown == name + f(fields)
    case Arr(items) => shown == name + f(AsFields(key, items))
  }

  // Fields follow one another without anything between them.
  ghost predicate Follow(f: seq<Field> -> string) {
    forall a, b :: f(a + b) == f(a) + f(b)
  }

  ghost predicate Laws(f: seq<Field> -> string) {
    Follow(f) && forall key, v :: Shows(f, key, v)
  }

  lemma OneField(key: string, v: Value)
    ensures Canon([Field(key, v)]) == Name(key) + CanonValue(key, v)
  {
    hide CanonValue, Name;
    var f := Field(key, v);
    assert [f][1..] == [];
    assert Canon([f]) == CanonField(f) + Canon([f][1..]) == CanonField(f);
  }

  lemma {:induction false} ItemsShowAsFields(key: string, items: seq<Value>)
    ensures Canon(AsFields(key, items)) == CanonItems(key, items)
    decreases |items|
  {
    hide Name;
    if items != [] {
      ItemsShowAsFields(key, items[1..]);
      var fields := AsFields(key, items);
      assert fields[1..] == AsFields(key, items[1..]);
      assert CanonField(fields[0]) == Name(key) + CanonItem(items[0]);
    }
  }

  lemma NameShows(key: string)
    ensures NamedInUpperCase(key, Name(key))
  {
    hide Letter;
    var u := ToUpper(key);
    forall i | 0 <= i < |key| ensures Name(key)[i + 1] == u[i] && Letter(key[i], u[i]) {
      LetterIs(key, i);
    }
  }

  lemma LetterIs(key: string, i: nat)
    requires i < |key|
    ensures Letter(key[i], ToUpper(key)[i])
  {
  }

  lemma FieldShows(key: string, v: Value)
    ensures Shows(Canon, key, v)
  {
    hide Canon, Name, NamedInUpperCase, CanonItems;
    OneField(key, v);
    OneField(key, Null);
    NameShows(key);
    assert Name(key) + "" == Name(key);
    match v
    case Arr(items) => ItemsShowAsFields(key, items);
    case _ =>
  }

  /** The server's string obeys the laws. */
  lemma CanonObeys()
    ensures Laws(Canon)
  {
    hide Shows;
    forall a, b ensures Canon(a + b) == Canon(a) + Canon(b) { CanonAppend(a, b); }
    forall key, v ensures Shows(Canon, key, v) { FieldShows(key, v); }
  }

  // ----- nothing else does -----

  lemma NamesDetermined(key: string, s: string, t: string)
    requires NamedInUpperCase(key, s) && NamedInUpperCase(key, t)
    ensures s == t
  {
    forall i | 0 <= i < |s| ensures s[i] == t[i] {
      if 0 < i <= |key| { assert Letter(key[i - 1], s[i - 1 + 1]) && Letter(key[i - 1], t[i - 1 + 1]); }
    }
  }

  // A measure of nesting under which an array's items, as fields, are smaller than the array.
  function Size(fields: seq<Field>): nat
    decreases fields, 0
  {
    if fields == [] then 0 else 1 + SizeOf(fields[0].value) + Size(fields[1..])
  }

  function SizeOf(v: Value): nat
    decreases v, 1
  {
    match v
    case Obj(fields) => 1 + Size(fields)
    case Arr(items) => 1 + SizeAll(items)
    case _ => 0
  }

  function SizeAll(items: seq<Value>): nat
    decreases items, 0
  {
    if items == [] then 0 else 1 + SizeOf(items[0]) + SizeAll(items[1..])
  }

  lemma {:induction false} AsFieldsSize(key: string, items: seq<Value>)
    ensures Size(AsFields(key, items)) <= SizeAll(items)
    decreases |items|
  {
    if items != [] {
      AsFieldsSize(key, items[1..]);
      assert AsFields(key, items)[1..] == AsFields(key, items[1..]);
    }
  }

  lemma Nothing(f: seq<Field> -> string)
    requires Follow(f)
    ensures f([]) == ""
  {
    var none: seq<Field> := [];
    assert none + none == none;
    assert |f(none + none)| == |f(none)| + |f(none)|;
  }

  lemma {:induction false} LawsDetermine(f: seq<Field> -> string, fields: seq<Field>)
    requires Laws(f)
    ensures f(fields) == Canon(fields)
    decreases Size(fields), 1
  {
    hide Shows;
    if fields == [] {
      Nothing(f);
    } else {
      var key, v := fields[0].key, fields[0].value;
      assert fields == [Field(key, v)] + fields[1..];
      LawsDetermineOne(f, key, v, fields);
      LawsDetermine(f, fields[1..]);
      CanonAppend([Field(key, v)], fields[1..]);
    }
  }

  lemma {:induction false} LawsDetermineOne(f: seq<Field> -> string, key: string, v: Value, fields: seq<Field>)
    requires Laws(f) && fields != [] && fields[0].value == v
    ensures f([Field(key, v)]) == Canon([Field(key, v)])
    decreases Size(fields), 0
  {
    hide Canon, NamedInUpperCase;
    assert Shows(f, key, v) && Shows(f, key, Null);
    FieldShows(key, v);
    FieldShows(key, Null);
    NamesDetermined(key, f([Field(key, Null)]), Canon([Field(key, Null)]));
    match v
    case Arr(items) =>
      AsFieldsSize(key, items);
      assert SizeOf(v) == 1 + SizeAll(items);
      LawsDetermine(f, AsFields(key, items));
    case Obj(inner) =>
      assert SizeOf(v) == 1 + Size(inner);
      LawsDetermine(f, inner);
    case _ =>
  }

  /** A function from documents to texts obeys the laws exactly when it is the canonical string. */
  lemma CanonIsTheOnlyOne(f: seq<Field> -> string)
    ensures Laws(f) <==> forall fields :: f(fields) == Canon(fields)
  {
    hide Canon, Laws;
    if Laws(f) {
      forall fields ensures f(fields) == Canon(fields) { LawsDetermine(f, fields); }
    }
    if forall fields :: f(fields) == Canon(fields) {
      CanonObeys();
      SameObeys(f, Canon);
    }
  }

  lemma SameObeys(f: seq<Field> -> string, g: seq<Field> -> string)
    requires (forall fields :: f(fields) == g(fields)) && Laws(g)
    ensures Laws(f)
  {
    hide NamedInUpperCase;
    forall key, v ensures Shows(f, key, v) { assert Shows(g, key, v); }
  }

  // ----- the case of names -----

  predicate SameLetter(c: char, d: char) {
    c == d || ('a' <= c <= 'z' && d as int == c as int - 32) || ('a' <= d <= 'z' && c as int == d as int - 32)
  }

  predicate SameName(a: string, b: string) {
    |a| == |b| && forall i :: 0 <= i < |a| ==> SameLetter(a[i], b[i])
  }

  // Equal but for the case of field names, at every depth.
  predicate SameButCase(a: seq<Field>, b: seq<Field>)
    decreases a
  {
    && |a| == |b|
    && (a == [] || (SameName(a[0].key, b[0].key) && SameValue(a[0].value, b[0].value) && SameButCase(a[1..], b[1..])))
  }

  predicate SameValue(v: Value, w: Value)
    decreases v
  {
    match v
    case Obj(fields) => w.Obj? && SameButCase(fields, w.fields)
    case Arr(items) => w.Arr? && SameItems(items, w.items)
    case _ => w == v
  }

  predicate SameItems(a: seq<Value>, b: seq<Value>)
    decreases a
  {
    |a| == |b| && (a == [] || (SameValue(a[0], b[0]) && SameItems(a[1..], b[1..])))
  }

  lemma SameNameShowsSame(a: string, b: string)
    requires SameName(a, b)
    ensures Name(a) == Name(b)
  {
    forall i | 0 <= i < |a| ensures ToUpper(a)[i] == ToUpper(b)[i] {
      assert SameLetter(a[i], b[i]);
    }
  }

  /** The case of field names does not show. */
  lemma {:induction false} CaseDoesNotShow(a: seq<Field>, b: seq<Field>)
    requires SameButCase(a, b)
    ensures Canon(a) == Canon(b)
    decreases a
  {
    hide Name;
    if a != [] {
      SameNameShowsSame(a[0].key, b[0].key);
      CaseOfValue(a[0].key, b[0].key, a[0].value, b[0].value);
      CaseDoesNotShow(a[1..], b[1..]);
    }
  }

  lemma {:induction false} CaseOfValue(k: string, l: string, v: Value, w: Value)
    requires Name(k) == Name(l) && SameValue(v, w)
    ensures CanonValue(k, v) == CanonValue(l, w)
    ensures CanonItem(v) == CanonItem(w)
    decreases v
  {
    hide Name;
    match v
    case Obj(fields) => CaseDoesNotShow(fields, w.fields);
    case Arr(items) => CaseOfItems(k, l, items, w.items);
    case _ =>
  }

  lemma {:induction false} CaseOfItems(k: string, l: string, a: seq<Value>, b: seq<Value>)
    requires Name(k) == Name(l) && SameItems(a, b)
    ensures CanonItems(k, a) == CanonItems(l, b)
    decreases a
  {
    hide Name;
    if a != [] {
      CaseOfValue(k, l, a[0], b[0]);
      CaseOfItems(k, l, a[1..], b[1..]);
    }
  }

  // ----- the agent -----

  // One field as the agent writes it.
  function AgentField(key: string, v: Value): Result<string, CanonicalAgent.Failure> {
    CanonicalAgent.Serialized([Field(key, v)])
  }

  lemma AgentOne(key: string, v: Value)
    ensures AgentField(key, v)
         == Ok(CanonicalAgent.PropertyName(key) + CanonicalAgent.WalkValue(key, CanonicalAgent.Parse(v)))
  {
    hide CanonicalAgent.PropertyName;
    var fields := [Field(key, v)];
    assert fields[1..] == [];
    var ts := CanonicalAgent.ParseFields(fields);
    assert CanonicalAgent.ParseFields(fields[1..]) == [];
    assert ts == [CanonicalAgent.TProperty(key, CanonicalAgent.Parse(v))];
    assert ts[1..] == [];
    assert CanonicalAgent.WalkChildren(ts[1..]) == "";
    var shown := CanonicalAgent.WalkChild(ts[0]);
    assert CanonicalAgent.WalkChildren(ts) == shown + "" == shown;
    assert shown == CanonicalAgent.Walk(ts[0]);
    assert ts[0] == CanonicalAgent.TProperty(key, CanonicalAgent.Parse(v));
    assert AgentField(key, v) == Ok(CanonicalAgent.WalkChildren(CanonicalAgent.ParseFields(fields)));
  }

  /** The agent names fields in upper case as well, by its own means, and writes booleans with a capital letter. */
  lemma AgentShows(key: string)
    ensures var name := AgentField(key, Null);
            && name.Ok? && NamedInUpperCase(key, name.value)
            && AgentField(key, Bool(true)) == Ok(name.value + "\"True\"")
            && AgentField(key, Bool(false)) == Ok(name.value + "\"False\"")
  {
    hide AgentField, NamedInUpperCase, CanonicalAgent.PropertyName;
    CanonicalAgent.NamesAgree(key);
    NameShows(key);
    AgentOne(key, Null);
    AgentOne(key, Bool(true));
    AgentOne(key, Bool(false));
    AgentBooleans(key);
    var name := CanonicalAgent.PropertyName(key);
    assert name + "" == name;
  }

  lemma AgentBooleans(key: string)
    ensures CanonicalAgent.WalkValue(key, CanonicalAgent.Parse(Bool(true))) == "\"True\""
    ensures CanonicalAgent.WalkValue(key, CanonicalAgent.Parse(Bool(false))) == "\"False\""
  {
    assert "\"" + "True" + "\"" == "\"True\"" && "\"" + "False" + "\"" == "\"False\"";
  }
}
