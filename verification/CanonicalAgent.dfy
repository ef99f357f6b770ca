/**
 The desktop agent's token walk (CanonicalSerialize.cs) and its exact agreement with the server.

 The agent walks a token tree in which properties are tokens of their own. The root test only looks at
 the parent link; its recursive result is discarded, but it dereferences the first child, so an empty
 root object fails. Inside arrays the walk emits text for strings and objects only.
 */
module CanonicalAgent {
  import opened Wrappers
  import opened Sequences
  import opened Json
  import opened Text
  import CanonicalServer

  datatype Token =
    | TNull
    | TBoolean(b: bool)
    | TNumber(text: NumText)
    | TString(s: string)
    | TArray(items: seq<Token>)
    | TObject(children: seq<Token>)
    | TProperty(name: string, value: Token)

  datatype Failure = NullReference

  function Parse(v: Value): Token {
    match v
    case Null => TNull
    case Bool(b) => TBoolean(b)
    case Num(t) => TNumber(t)
    case Str(s) => TString(s)
    case Arr(items) => TArray(ParseItems(items))
    case Obj(fields) => TObject(ParseFields(fields))
  }

  function ParseItems(items: seq<Value>): (ts: seq<Token>)
    ensures |ts| == |items|
  {
    if items == [] then [] else [Parse(items[0])] + ParseItems(items[1..])
  }

  function ParseFields(fields: seq<Field>): (ts: seq<Token>)
    ensures |ts| == |fields|
    ensures forall t <- ts :: t.TProperty?
  {
    if fields == [] then [] else [TProperty(fields[0].key, Parse(fields[0].value))] + ParseFields(fields[1..])
  }

  // Newtonsoft converts a boolean token to text with a capital letter.
  function BooleanText(b: bool): string {
    if b then "True" else "False"
  }

  // `Name.ToUpper()`, letter by letter.
  function UpperLetter(c: char): char {
    if 'a' <= c <= 'z' then c - 'a' + 'A' else c
  }

  function PropertyName(name: string): string {
    "\"" + seq(|name|, i requires 0 <= i < |name| => UpperLetter(name[i])) + "\""
  }

  // What the walk returns for a token that has a parent.
  function Walk(t: Token): string
    decreases t, 0
  {
    match t
    case TProperty(name, value) => PropertyName(name) + WalkValue(name, value)
    case TString(s) => Quote(s)
    case TObject(children) => WalkChildren(children)
    case _ => ""
  }

  function WalkValue(name: string, value: Token): string
    decreases value, 1
  {
    match value
    case TObject(_) => Walk(value)
    case TBoolean(b) => "\"" + BooleanText(b) + "\""
    case TNumber(t) => "\"" + t + "\""
    case TString(s) => Quote(s)
    case TArray(items) => WalkItems(name, items)
    case _ => ""
  }

  function WalkItems(name: string, items: seq<Token>): string
    decreases items
  {
    if items == [] then "" else PropertyName(name) + Walk(items[0]) + WalkItems(name, items[1..])
  }

  function WalkChildren(children: seq<Token>): string
    decreases children
  {
    if children == [] then ""
    else WalkChild(children[0]) + WalkChildren(children[1..])
  }

  function WalkChild(t: Token): string
    decreases t, 1
  {
    if t.TObject? || t.TProperty? then Walk(t) else ""
  }

  lemma {:induction false} WalkItemsAppend(name: string, a: seq<Token>, b: seq<Token>)
    ensures WalkItems(name, a + b) == WalkItems(name, a) + WalkItems(name, b)
  {
    if a == [] {
      assert a + b == b;
    } else {
      WalkItemsAppend(name, a[1..], b);
      HeadTail(a, b);
      Assoc(PropertyName(name) + Walk(a[0]), WalkItems(name, a[1..]), WalkItems(name, b));
    }
  }

  lemma WalkItemsOne(name: string, t: Token)
    ensures WalkItems(name, [t]) == PropertyName(name) + Walk(t)
  {
    assert [t][1..] == [];
  }

  lemma WalkItemsStep(name: string, items: seq<Token>, i: nat, start: string)
    requires i < |items|
    ensures start + WalkItems(name, items[..i]) + PropertyName(name) + Walk(items[i])
         == start + WalkItems(name, items[..i + 1])
  {
    TakeNext(items, i);
    WalkItemsAppend(name, items[..i], [items[i]]);
    WalkItemsOne(name, items[i]);
    Assoc(start, WalkItems(name, items[..i]), PropertyName(name) + Walk(items[i]));
    Assoc(start + WalkItems(name, items[..i]), PropertyName(name), Walk(items[i]));
  }

  lemma {:induction false} WalkChildrenAppend(a: seq<Token>, b: seq<Token>)
    ensures WalkChildren(a + b) == WalkChildren(a) + WalkChildren(b)
  {
    if a == [] {
      assert a + b == b;
    } else {
      WalkChildrenAppend(a[1..], b);
      HeadTail(a, b);
      Assoc(WalkChild(a[0]), WalkChildren(a[1..]), WalkChildren(b));
    }
  }

  lemma WalkChildrenStep(children: seq<Token>, i: nat)
    requires i < |children|
    ensures WalkChildren(children[..i + 1]) == WalkChildren(children[..i]) + WalkChild(children[i])
  {
    TakeNext(children, i);
    WalkChildrenAppend(children[..i], [children[i]]);
  }

  // `hasParent` is `request.Parent is not null`: false for the document object only.
  method SerializeToken(request: Token, hasParent: bool) returns (r: Result<string, Failure>)
    requires hasParent || request.TObject?
    ensures r.Err? <==> !hasParent && request.children == []
    ensures r.Ok? ==> r.value == Walk(request)
    decreases request, 1
  {
    var serialized := "";
    if !hasParent {
      if request.children == [] {
        return Err(NullReference);
      }
      var _ := SerializeToken(request.children[0], true);
    } else {
      if request.TProperty? {
        serialized := SerializeProperty(request.name, request.value);
      }
      if request.TString? {
        serialized := serialized + Quote(request.s);
      }
    }
    if request.TObject? {
      for i := 0 to |request.children|
        invariant serialized == WalkChildren(request.children[..i])
      {
        var property := request.children[i];
        WalkChildrenStep(request.children, i);
        if property.TObject? || property.TProperty? {
          var inner := SerializeToken(property, true);
          serialized := serialized + inner.value;
        }
      }
      assert request.children[..|request.children|] == request.children;
    }
    return Ok(serialized);
  }

  // The property branch of the walk, on the property's single value.
  method SerializeProperty(name: string, property: Token) returns (serialized: string)
    ensures serialized == PropertyName(name) + WalkValue(name, property)
    decreases property, 2
  {
    serialized := PropertyName(name);
    ghost var start := serialized;
    if property.TObject? {
      var inner := SerializeToken(property, true);
      serialized := serialized + inner.value;
    }
    if property.TBoolean? {
      serialized := serialized + ("\"" + BooleanText(property.b) + "\"");
    }
    if property.TNumber? {
      serialized := serialized + ("\"" + property.text + "\"");
    }
    if property.TString? {
      serialized := serialized + Quote(property.s);
    }
    if property.TArray? {
      for i := 0 to |property.items|
        invariant serialized == start + WalkItems(name, property.items[..i])
      {
        serialized := serialized + PropertyName(name);
        var item := SerializeToken(property.items[i], true);
        serialized := serialized + item.value;
        WalkItemsStep(name, property.items, i, start);
      }
      assert property.items[..|property.items|] == property.items;
    }
  }

  method Serialize(document: seq<Field>) returns (r: Result<string, Failure>)
    ensures r == Serialized(document)
  {
    r := SerializeToken(TObject(ParseFields(document)), false);
    assert r.Err? ==> r.error == NullReference;
  }

  function Serialized(document: seq<Field>): Result<string, Failure> {
    if document == [] then Err(NullReference) else Ok(WalkChildren(ParseFields(document)))
  }

  // ----- agreement with the server -----

  // Both write field names alike.
  lemma NamesAgree(name: string)
    ensures PropertyName(name) == CanonicalServer.Name(name)
  {
    forall i | 0 <= i < |name| ensures UpperLetter(name[i]) == ToUpper(name)[i] {
      LettersAgree(name[i]);
    }
  }

  lemma LettersAgree(c: char)
    ensures UpperLetter(c) == if 'a' <= c <= 'z' then (c as int - 32) as char else c
  {
  }

  // No boolean is emitted, and no number or boolean stands directly in an array that is emitted.
  predicate Portable(fields: seq<Field>) {
    fields == [] || (PortableValue(fields[0].value) && Portable(fields[1..]))
  }

  predicate PortableValue(v: Value) {
    match v
    case Bool(_) => false
    case Arr(items) => PortableItems(items)
    case Obj(fields) => Portable(fields)
    case _ => true
  }

  predicate PortableItems(items: seq<Value>) {
    items == [] || (PortableItem(items[0]) && PortableItems(items[1..]))
  }

  predicate PortableItem(v: Value) {
    match v
    case Bool(_) => false
    case Num(_) => false
    case Obj(fields) => Portable(fields)
    case _ => true
  }

  // Two shorter-or-equal pieces make equal wholes only when each piece is equal.
  lemma PiecesEqual(a: string, b: string, x: string, y: string)
    requires |a| <= |x| && |b| <= |y|
    ensures a + b == x + y <==> a == x && b == y
  {
    if a + b == x + y {
      assert |a + b| == |a| + |b| && |x + y| == |x| + |y|;
      assert a == (a + b)[..|a|] && x == (x + y)[..|x|];
      assert b == (a + b)[|a|..] && y == (x + y)[|x|..];
    }
  }

  lemma {:induction false} FieldsAgree(fields: seq<Field>)
    ensures |WalkChildren(ParseFields(fields))| <= |CanonicalServer.Canon(fields)|
    ensures WalkChildren(ParseFields(fields)) == CanonicalServer.Canon(fields) <==> Portable(fields)
    decreases fields
  {
    if fields != [] {
      var f := fields[0];
      ValueAgrees(f.key, f.value);
      FieldsAgree(fields[1..]);
      var name := CanonicalServer.Name(f.key);
      NamesAgree(f.key);
      PiecesEqual(name, WalkValue(f.key, Parse(f.value)), name, CanonicalServer.CanonValue(f.key, f.value));
      PiecesEqual(Walk(ParseFields(fields)[0]), WalkChildren(ParseFields(fields[1..])),
                  CanonicalServer.CanonField(f), CanonicalServer.Canon(fields[1..]));
    }
  }

  lemma {:induction false} ValueAgrees(key: string, v: Value)
    ensures |WalkValue(key, Parse(v))| <= |CanonicalServer.CanonValue(key, v)|
    ensures WalkValue(key, Parse(v)) == CanonicalServer.CanonValue(key, v) <==> PortableValue(v)
    decreases v
  {
    match v
    case Obj(fields) => FieldsAgree(fields);
    case Arr(items) => ItemsAgree(key, items);
    case Bool(b) =>
      assert WalkValue(key, Parse(v))[1] == (if b then 'T' else 'F');
      assert CanonicalServer.CanonValue(key, v)[1] == (if b then 't' else 'f');
    case _ =>
  }

  lemma {:induction false} ItemsAgree(key: string, items: seq<Value>)
    ensures |WalkItems(key, ParseItems(items))| <= |CanonicalServer.CanonItems(key, items)|
    ensures WalkItems(key, ParseItems(items)) == CanonicalServer.CanonItems(key, items) <==> PortableItems(items)
    decreases items
  {
    if items != [] {
      var v := items[0];
      if v.Obj? { FieldsAgree(v.fields); }
      ItemsAgree(key, items[1..]);
      var name := CanonicalServer.Name(key);
      NamesAgree(key);
      PiecesEqual(name, Walk(Parse(v)), name, CanonicalServer.CanonItem(v));
      PiecesEqual(name + Walk(Parse(v)), WalkItems(key, ParseItems(items[1..])),
                  name + CanonicalServer.CanonItem(v), CanonicalServer.CanonItems(key, items[1..]));
    }
  }

  // The agent produces the server's string exactly on the non-empty portable documents.
  lemma AgentAgreesExactlyOnPortable(document: seq<Field>)
    ensures Serialized(document) == Ok(CanonicalServer.Canon(document)) <==> document != [] && Portable(document)
  {
    FieldsAgree(document);
  }

  // What the agent signs for a document that already carries signatures is what the server hashes.
  lemma AgentSignsServerString(document: seq<Field>, rounds: seq<seq<Value>>)
    requires CanonicalServer.WithoutSignatures(document) != [] && Portable(CanonicalServer.WithoutSignatures(document))
    ensures var signed := CanonicalServer.AttachAll(document, rounds);
            Serialized(CanonicalServer.WithoutSignatures(signed)) == Ok(CanonicalServer.CanonicalWithoutSignatures(document))
  {
    CanonicalServer.SigningKeepsSignedString(document, rounds);
    AgentAgreesExactlyOnPortable(CanonicalServer.WithoutSignatures(document));
  }
}
