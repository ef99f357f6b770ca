/**
 The server's canonical serializer (canonical-serialize.ts) and signature handling (eta-payload.ts).

 `Canon` is the string the loops of `SerializeObject` build. A field emits its upper-cased name, an
 array repeats that name before every item, and null or an array inside an array emits nothing more.
 */
module CanonicalServer {
  import opened Sequences
  import opened Json
  import opened Text

  function Name(key: string): string {
    "\"" + ToUpper(key) + "\""
  }

  function BoolText(b: bool): string {
    if b then "true" else "false"
  }

  // Strings are escaped; numbers and booleans are put between quotes as they are.
  function Scalar(v: Value): string
    requires IsScalar(v)
  {
    match v
    case Str(s) => Quote(s)
    case Bool(b) => "\"" + BoolText(b) + "\""
    case Num(t) => "\"" + t + "\""
  }

  function Canon(fields: seq<Field>): string {
    if fields == [] then "" else CanonField(fields[0]) + Canon(fields[1..])
  }

  function CanonField(f: Field): string {
    Name(f.key) + CanonValue(f.key, f.value)
  }

  function CanonValue(key: string, v: Value): string
    decreases v
  {
    match v
    case Null => ""
    case Arr(items) => CanonItems(key, items)
    case Obj(fields) => Canon(fields)
    case _ => Scalar(v)
  }

  function CanonItems(key: string, items: seq<Value>): string
    decreases items
  {
    if items == [] then "" else Name(key) + CanonItem(items[0]) + CanonItems(key, items[1..])
  }

  function CanonItem(v: Value): string {
    match v
    case Obj(fields) => Canon(fields)
    case Null => ""
    case Arr(_) => ""
    case _ => Scalar(v)
  }

  lemma {:induction false} CanonAppend(a: seq<Field>, b: seq<Field>)
    ensures Canon(a + b) == Canon(a) + Canon(b)
  {
    if a == [] {
      assert a + b == b;
    } else {
      CanonAppend(a[1..], b);
      HeadTail(a, b);
      Assoc(CanonField(a[0]), Canon(a[1..]), Canon(b));
    }
  }

  lemma {:induction false} CanonItemsAppend(key: string, a: seq<Value>, b: seq<Value>)
    ensures CanonItems(key, a + b) == CanonItems(key, a) + CanonItems(key, b)
  {
    if a == [] {
      assert a + b == b;
    } else {
      CanonItemsAppend(key, a[1..], b);
      HeadTail(a, b);
      Assoc(Name(key) + CanonItem(a[0]), CanonItems(key, a[1..]), CanonItems(key, b));
    }
  }

  method SerializeObject(fields: seq<Field>) returns (out: string)
    ensures out == Canon(fields)
    decreases fields
  {
    out := "";
    for i := 0 to |fields|
      invariant out == Canon(fields[..i])
    {
      var key, value := fields[i].key, fields[i].value;
      ghost var before := out;
      out := out + Name(key);
      if value.Arr? {
        ghost var start := out;
        for j := 0 to |value.items|
          invariant out == start + CanonItems(key, value.items[..j])
        {
          var item := value.items[j];
          out := out + Name(key);
          ghost var named := out;
          if item.Str? {
            out := out + Quote(item.s);
          } else if item.Obj? {
            var inner := SerializeObject(item.fields);
            out := out + inner;
          } else if item.Bool? || item.Num? {
            out := out + Scalar(item);
          }
          assert out == named + CanonItem(item);
          CanonItemsStep(key, value.items, j, start);
        }
        assert value.items[..|value.items|] == value.items;
      } else if value.Obj? {
        var inner := SerializeObject(value.fields);
        out := out + inner;
      } else if !value.Null? {
        out := out + Scalar(value);
      }
      assert out == before + Name(key) + CanonValue(key, value);
      CanonStep(fields, i);
    }
    assert fields[..|fields|] == fields;
  }

  lemma CanonStep(fields: seq<Field>, i: nat)
    requires i < |fields|
    ensures Canon(fields[..i + 1]) == Canon(fields[..i]) + Name(fields[i].key) + CanonValue(fields[i].key, fields[i].value)
  {
    TakeNext(fields, i);
    CanonAppend(fields[..i], [fields[i]]);
    assert Canon([fields[i]]) == CanonField(fields[i]);
    Assoc(Canon(fields[..i]), Name(fields[i].key), CanonValue(fields[i].key, fields[i].value));
  }

  lemma CanonItemsOne(key: string, v: Value)
    ensures CanonItems(key, [v]) == Name(key) + CanonItem(v)
  {
    assert [v][1..] == [];
  }

  lemma CanonItemsStep(key: string, items: seq<Value>, j: nat, start: string)
    requires j < |items|
    ensures start + CanonItems(key, items[..j]) + Name(key) + CanonItem(items[j])
         == start + CanonItems(key, items[..j + 1])
  {
    TakeNext(items, j);
    CanonItemsAppend(key, items[..j], [items[j]]);
    CanonItemsOne(key, items[j]);
    Assoc(start, CanonItems(key, items[..j]), Name(key) + CanonItem(items[j]));
    Assoc(start + CanonItems(key, items[..j]), Name(key), CanonItem(items[j]));
  }

  // ----- signatures -----

  const SIGNATURES := "signatures"

  function WithoutSignatures(fields: seq<Field>): seq<Field> {
    if fields == [] then []
    else Kept(fields[0]) + WithoutSignatures(fields[1..])
  }

  function Kept(f: Field): seq<Field> {
    if f.key == SIGNATURES then [] else [f]
  }

  lemma {:induction false} WithoutSignaturesAppend(a: seq<Field>, b: seq<Field>)
    ensures WithoutSignatures(a + b) == WithoutSignatures(a) + WithoutSignatures(b)
  {
    if a == [] {
      assert a + b == b;
    } else {
      WithoutSignaturesAppend(a[1..], b);
      HeadTail(a, b);
      Assoc(Kept(a[0]), WithoutSignatures(a[1..]), WithoutSignatures(b));
    }
  }

  lemma {:induction false} WithoutSignaturesIdempotent(fields: seq<Field>)
    ensures WithoutSignatures(WithoutSignatures(fields)) == WithoutSignatures(fields)
  {
    if fields != [] {
      var head := Kept(fields[0]);
      WithoutSignaturesIdempotent(fields[1..]);
      WithoutSignaturesAppend(head, WithoutSignatures(fields[1..]));
      assert WithoutSignatures(head) == head;
    }
  }

  /** Exactly the fields named "signatures" go; attached ones come last, under that name. */
  lemma {:induction false} OnlySignaturesGo(fields: seq<Field>, signatures: seq<Value>)
    ensures forall f :: f in WithoutSignatures(fields) <==> f in fields && f.key != "signatures"
    ensures var signed := AttachSignatures(fields, signatures);
            signed != [] && signed[|signed| - 1] == Field("signatures", Arr(signatures))
    decreases fields
  {
    if fields != [] {
      OnlySignaturesGo(fields[1..], signatures);
      assert forall f :: f in fields <==> f == fields[0] || f in fields[1..];
    }
  }

  method StripSignatures(fields: seq<Field>) returns (out: seq<Field>)
    ensures out == WithoutSignatures(fields)
  {
    out := [];
    for i := 0 to |fields|
      invariant out == WithoutSignatures(fields[..i])
    {
      TakeNext(fields, i);
      WithoutSignaturesAppend(fields[..i], [fields[i]]);
      if fields[i].key == SIGNATURES { continue; }
      out := out + [fields[i]];
    }
    assert fields[..|fields|] == fields;
  }

  function AttachSignatures(fields: seq<Field>, signatures: seq<Value>): seq<Field> {
    WithoutSignatures(fields) + [Field(SIGNATURES, Arr(signatures))]
  }

  function AttachAll(fields: seq<Field>, rounds: seq<seq<Value>>): seq<Field>
    decreases rounds
  {
    if rounds == [] then fields else AttachAll(AttachSignatures(fields, rounds[0]), rounds[1..])
  }

  // The exact string that is hashed for the signature.
  function CanonicalWithoutSignatures(fields: seq<Field>): string {
    Canon(WithoutSignatures(fields))
  }

  lemma AttachOverwrites(fields: seq<Field>, first: seq<Value>, second: seq<Value>)
    ensures WithoutSignatures(AttachSignatures(fields, first)) == WithoutSignatures(fields)
    ensures AttachSignatures(AttachSignatures(fields, first), second) == AttachSignatures(fields, second)
  {
    WithoutSignaturesAppend(WithoutSignatures(fields), [Field(SIGNATURES, Arr(first))]);
    WithoutSignaturesIdempotent(fields);
  }

  // Signing, re-signing and counter-signing never change the bytes that are signed.
  lemma {:induction false} SigningKeepsSignedString(fields: seq<Field>, rounds: seq<seq<Value>>)
    ensures WithoutSignatures(AttachAll(fields, rounds)) == WithoutSignatures(fields)
    ensures CanonicalWithoutSignatures(AttachAll(fields, rounds)) == CanonicalWithoutSignatures(fields)
    decreases rounds
  {
    if rounds != [] {
      AttachOverwrites(fields, rounds[0], []);
      SigningKeepsSignedString(AttachSignatures(fields, rounds[0]), rounds[1..]);
    }
  }
}
