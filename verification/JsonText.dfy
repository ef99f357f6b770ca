/**
 Reading a string literal back as RFC 8259 section 7 says, with lower-case hexadecimal digits: `Quote` writes the text
 it is given, and of all literals for that text the one shortest.
 */
module JsonText {
  import opened Wrappers
  import opened Json

  function HexDigit(c: char): Option<nat> {
    if '0' <= c <= '9' then Some(c as nat - '0' as nat)
    else if 'a' <= c <= 'f' then Some(10 + (c as nat - 'a' as nat))
    else None
  }

  // Four hexadecimal digits; halves of a surrogate pair stand for no character alone.
  function HexChar(t: string): Option<char>
    requires |t| == 4
  {
    var a, b, c, d := HexDigit(t[0]), HexDigit(t[1]), HexDigit(t[2]), HexDigit(t[3]);
    if a.None? || b.None? || c.None? || d.None? then None
    else
      var n := 4096 * a.value + 256 * b.value + 16 * c.value + d.value;
      if 0xd800 <= n < 0xe000 then None else Some(n as char)
  }

  // The character after a backslash.
  function ShortEscape(c: char): Option<char> {
    match c
    case '"' => Some('"')
    case '\\' => Some('\\')
    case '/' => Some('/')
    case 'b' => Some(8 as char)
    case 'f' => Some(12 as char)
    case 'n' => Some(10 as char)
    case 'r' => Some(13 as char)
    case 't' => Some(9 as char)
    case _ => None
  }

  // The first character of a text between quotes, and how long its writing is.
  function First(t: string): Option<(char, nat)>
    requires t != ""
    ensures First(t).Some? ==> 1 <= First(t).value.1 <= |t|
  {
    if t[0] == '\\' then
      if |t| >= 6 && t[1] == 'u' then
        (match HexChar(t[2..6])
         case Some(c) => Some((c, 6))
         case None => None)
      else if |t| >= 2 && ShortEscape(t[1]).Some? then Some((ShortEscape(t[1]).value, 2))
      else None
    else if t[0] == '"' || t[0] as int < 0x20 then None
    else Some((t[0], 1))
  }

  function ReadText(t: string): Option<string>
    decreases |t|
  {
    if t == "" then Some("")
    else
      match First(t)
      case Some((c, n)) =>
        (match ReadText(t[n..])
         case Some(rest) => Some([c] + rest)
         case None => None)
      case None => None
  }

  function ReadLiteral(t: string): Option<string> {
    if |t| >= 2 && t[0] == '"' && t[|t| - 1] == '"' then ReadText(t[1..|t| - 1]) else None
  }

  lemma HexOfControl(n: nat)
    requires n < 0x20
    ensures HexDigit(HEX[n / 16]) == Some(n / 16) && HexDigit(HEX[n % 16]) == Some(n % 16)
  {
    HexAt(n / 16);
    HexAt(n % 16);
  }

  lemma HexAt(n: nat)
    requires n < 16
    ensures HexDigit(HEX[n]) == Some(n)
  {
  }

  // Hexadecimal digits are read one way.
  lemma HexIs(c: char, n: nat)
    requires HexDigit(c) == Some(n)
    ensures n < 16 && c == HEX[n]
  {
  }

  lemma FirstOfEscape(c: char, rest: string)
    ensures EscapeChar(c) + rest != "" && First(EscapeChar(c) + rest) == Some((c, |EscapeChar(c)|))
  {
    var t := EscapeChar(c) + rest;
    if |EscapeChar(c)| == 6 {
      HexOfControl(c as nat);
      assert t[2..6] == EscapeChar(c)[2..6];
    }
  }

  /** A literal is read back as the text it was written for. */
  lemma {:induction false} LiteralReadsBack(s: string)
    ensures ReadLiteral(Quote(s)) == Some(s)
  {
    TextReadsBack(s);
    assert Quote(s)[1..|Quote(s)| - 1] == Escape(s);
  }

  lemma {:induction false} TextReadsBack(s: string)
    ensures ReadText(Escape(s)) == Some(s)
    decreases |s|
  {
    hide EscapeChar, First;
    if s != "" {
      FirstOfEscape(s[0], Escape(s[1..]));
      TextReadsBack(s[1..]);
      assert Escape(s)[|EscapeChar(s[0])|..] == Escape(s[1..]);
      assert s == [s[0]] + s[1..];
    }
  }

  lemma SmallNumber(a: nat, b: nat, c: nat, d: nat, n: nat)
    requires a < 16 && b < 16 && c < 16 && d < 16 && n == 4096 * a + 256 * b + 16 * c + d < 0x20
    ensures a == 0 && b == 0 && c == n / 16 && d == n % 16
  {
  }

  lemma Zero(c: char)
    requires HexDigit(c) == Some(0)
    ensures c == '0'
  {
  }

  // Four digits of a control character.
  lemma ControlDigits(u: string)
    requires |u| == 4 && HexChar(u).Some? && HexChar(u).value as nat < 0x20
    ensures var n := HexChar(u).value as nat; u == ['0', '0', HEX[n / 16], HEX[n % 16]]
  {
    hide HexDigit;
    var a, b, c, d := HexDigit(u[0]).value, HexDigit(u[1]).value, HexDigit(u[2]).value, HexDigit(u[3]).value;
    HexIs(u[0], a);
    HexIs(u[1], b);
    HexIs(u[2], c);
    HexIs(u[3], d);
    SmallNumber(a, b, c, d, HexChar(u).value as nat);
    Zero(u[0]);
    Zero(u[1]);
  }

  lemma EscapeLength(c: char)
    ensures |EscapeChar(c)| <= 6
    ensures |EscapeChar(c)| == 6 ==> c as nat < 0x20 && EscapeChar(c) == ['\\', 'u', '0', '0', HEX[c as nat / 16], HEX[c as nat % 16]]
  {
  }

  lemma SixIsShortest(t: string)
    requires |t| >= 6 && t[0] == '\\' && t[1] == 'u' && First(t).Some?
    ensures var c := First(t).value.0; |EscapeChar(c)| <= 6 && (|EscapeChar(c)| == 6 ==> t[..6] == EscapeChar(c))
  {
    hide EscapeChar, HexChar;
    var u, c := t[2..6], First(t).value.0;
    EscapeLength(c);
    if |EscapeChar(c)| == 6 {
      ControlDigits(u);
      assert t[..6] == ['\\', 'u'] + u;
    }
  }

  // The writing of one character is no shorter than its escape, and as short only when it is the escape.
  lemma EscapeIsShortest(t: string)
    requires t != "" && First(t).Some?
    ensures var (c, n) := First(t).value; |EscapeChar(c)| <= n && (|EscapeChar(c)| == n ==> t[..n] == EscapeChar(c))
  {
    var (c, n) := First(t).value;
    if n == 6 {
      SixIsShortest(t);
    } else if n == 2 {
      assert t[..2] == ['\\', t[1]];
    } else {
      assert t[..1] == [t[0]];
    }
  }

  lemma {:induction false} TextIsShortest(t: string)
    requires ReadText(t).Some?
    ensures var s := ReadText(t).value; |Escape(s)| <= |t| && (|Escape(s)| == |t| ==> t == Escape(s))
    decreases |t|
  {
    hide EscapeChar, First;
    if t != "" {
      var (c, n) := First(t).value;
      EscapeIsShortest(t);
      TextIsShortest(t[n..]);
      assert t == t[..n] + t[n..];
      assert ReadText(t).value[0] == c && ReadText(t).value[1..] == ReadText(t[n..]).value;
    }
  }

  /** Every other literal for the same text is longer. */
  lemma QuoteIsShortest(t: string, s: string)
    requires ReadLiteral(t) == Some(s)
    ensures t == Quote(s) || |t| > |Quote(s)|
  {
    hide ReadText, Escape;
    var text := t[1..|t| - 1];
    TextIsShortest(text);
    assert t == ['"'] + text + ['"'];
  }
}
