/**
 JSON trees, RFC 8259 section 7 string literals, and the two lemmas every canonical string rests on:
 a quoted literal is self-delimiting and determines its text.
 */
module Json {
  import opened Sequences

  // Text of a JSON number, shared by the server and the agent.
  type NumText = s: string | forall c <- s :: c in "0123456789+-.eE" witness "0"

  datatype Value =
    | Null
    | Bool(b: bool)
    | Num(text: NumText)
    | Str(s: string)
    | Arr(items: seq<Value>)
    | Obj(fields: seq<Field>)

  // Objects are ordered lists of fields: field order is part of what is signed.
  datatype Field = Field(key: string, value: Value)

  predicate IsScalar(v: Value) {
    v.Bool? || v.Num? || v.Str?
  }

  const HEX := "0123456789abcdef"

  function EscapeChar(c: char): string {
    if c == '"' then "\\\""
    else if c == '\\' then "\\\\"
    else if c as int == 8 then "\\b"
    else if c as int == 9 then "\\t"
    else if c as int == 10 then "\\n"
    else if c as int == 12 then "\\f"
    else if c as int == 13 then "\\r"
    else if c as int < 0x20 then "\\u00" + [HEX[c as int / 16], HEX[c as int % 16]]
    else [c]
  }

  function Escape(s: string): string {
    if s == "" then "" else EscapeChar(s[0]) + Escape(s[1..])
  }

  function Quote(s: string): string {
    ['"'] + Escape(s) + ['"']
  }

  lemma EscapeCharPrefixFree(c: char, d: char, x: string, y: string)
    requires EscapeChar(c) + x == EscapeChar(d) + y
    ensures c == d && x == y
  {
    SameEscape(c, d, x, y);
    var l, r := EscapeChar(c) + x, EscapeChar(d) + y;
    assert x == l[|EscapeChar(c)|..] == r[|EscapeChar(d)|..] == y;
  }

  // What a character after a backslash stands for, in an escape of two characters.
  function Unescape(c: char): char {
    if c == 'b' then 8 as char
    else if c == 't' then 9 as char
    else if c == 'n' then 10 as char
    else if c == 'f' then 12 as char
    else if c == 'r' then 13 as char
    else c
  }

  // The three forms of an escape, told apart by their first characters.
  lemma EscapeForms(c: char)
    ensures var e := EscapeChar(c);
            && |e| in {1, 2, 6}
            && (|e| == 1 ==> e[0] == c != '\\')
            && (|e| > 1 ==> e[0] == '\\' && (e[1] == 'u' <==> |e| == 6))
            && (|e| == 2 ==> c == Unescape(e[1]))
  {
  }

  lemma SameEscape(c: char, d: char, x: string, y: string)
    requires EscapeChar(c) + x == EscapeChar(d) + y
    ensures c == d
  {
    hide EscapeChar, Unescape;
    EscapeForms(c);
    EscapeForms(d);
    var l, r := EscapeChar(c) + x, EscapeChar(d) + y;
    assert l[0] == EscapeChar(c)[0] && r[0] == EscapeChar(d)[0];
    if |EscapeChar(c)| > 1 {
      assert l[1] == EscapeChar(c)[1] && r[1] == EscapeChar(d)[1];
      if |EscapeChar(c)| == 6 {
        assert l[4] == EscapeChar(c)[4] && r[4] == EscapeChar(d)[4];
        assert l[5] == EscapeChar(c)[5] && r[5] == EscapeChar(d)[5];
        SameHex(c, d);
      }
    }
  }

  lemma SameHex(c: char, d: char)
    requires |EscapeChar(c)| == |EscapeChar(d)| == 6
    requires EscapeChar(c)[4] == EscapeChar(d)[4] && EscapeChar(c)[5] == EscapeChar(d)[5]
    ensures c == d
  {
    HexInjective(c as int / 16, d as int / 16);
    HexInjective(c as int % 16, d as int % 16);
  }

  lemma HexInjective(i: nat, j: nat)
    requires i < 16 && j < 16 && HEX[i] == HEX[j]
    ensures i == j
  {
  }

  lemma EscapeHead(s: string, x: string)
    requires s != ""
    ensures Escape(s) + x == EscapeChar(s[0]) + (Escape(s[1..]) + x)
    ensures (Escape(s) + x)[0] != '"'
  {
    Assoc(EscapeChar(s[0]), Escape(s[1..]), x);
    assert (Escape(s) + x)[0] == EscapeChar(s[0])[0];
  }

  lemma EscapeHeadsEqual(s: string, t: string, x: string, y: string)
    requires s != "" && t != "" && Escape(s) + x == Escape(t) + y
    ensures s[0] == t[0] && Escape(s[1..]) + x == Escape(t[1..]) + y
  {
    EscapeHead(s, x);
    EscapeHead(t, y);
    EscapeCharPrefixFree(s[0], t[0], Escape(s[1..]) + x, Escape(t[1..]) + y);
  }

  // `x` and `y` start with the closing quote.
  lemma {:induction false} EscapePrefixFree(s: string, t: string, x: string, y: string)
    requires x != "" && y != "" && x[0] == y[0] == '"'
    requires Escape(s) + x == Escape(t) + y
    ensures s == t && x == y
  {
    assert "" + x == x && "" + y == y;
    if s == "" && t == "" {
    } else if s == "" {
      EscapeHead(t, y);
      assert false;
    } else if t == "" {
      EscapeHead(s, x);
      assert false;
    } else {
      EscapeHeadsEqual(s, t, x, y);
      EscapePrefixFree(s[1..], t[1..], x, y);
      assert s == [s[0]] + s[1..] && t == [t[0]] + t[1..];
    }
  }

  // A quoted literal followed by anything can be read back: the text and the rest are determined.
  lemma QuotePrefixFree(s: string, t: string, x: string, y: string)
    requires Quote(s) + x == Quote(t) + y
    ensures s == t && x == y
  {
    QuoteTail(s, x);
    QuoteTail(t, y);
    EscapePrefixFree(s, t, ['"'] + x, ['"'] + y);
    assert x == (['"'] + x)[1..] && y == (['"'] + y)[1..];
  }

  lemma QuoteTail(s: string, x: string)
    ensures (Quote(s) + x)[1..] == Escape(s) + (['"'] + x)
  {
  }

  // Text without quotes, backslashes and control characters is its own escaped form.
  lemma {:induction false} EscapePlain(s: string)
    requires forall i :: 0 <= i < |s| ==> s[i] != '"' && s[i] != '\\' && s[i] as int >= 0x20
    ensures Escape(s) == s
  {
    if s != "" {
      EscapePlain(s[1..]);
      assert EscapeChar(s[0]) == [s[0]];
      assert s == [s[0]] + s[1..];
    }
  }
}
