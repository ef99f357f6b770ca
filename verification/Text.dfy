/** Text operations on ASCII: upper-casing and trimming. */
module Text {
  function ToUpper(s: string): (u: string)
    ensures |u| == |s|
    ensures forall i :: 0 <= i < |s| ==> u[i] == if 'a' <= s[i] <= 'z' then (s[i] as int - 32) as char else s[i]
  {
    seq(|s|, i requires 0 <= i < |s| =>
      if 'a' <= s[i] <= 'z' then (s[i] as int - 32) as char else s[i])
  }

  predicate IsSpace(c: char) {
    c == ' ' || 9 <= c as int <= 13
  }

  function TrimStart(s: string): (t: string) {
    if s != "" && IsSpace(s[0]) then TrimStart(s[1..]) else s
  }

  function TrimEnd(s: string): (t: string) {
    if s != "" && IsSpace(s[|s| - 1]) then TrimEnd(s[..|s| - 1]) else s
  }

  function Trim(s: string): string {
    TrimEnd(TrimStart(s))
  }

  lemma {:induction false} TrimStartDone(s: string)
    ensures TrimStart(s) != "" ==> !IsSpace(TrimStart(s)[0])
    ensures s != "" && !IsSpace(s[0]) ==> TrimStart(s) == s
  {
    if s != "" && IsSpace(s[0]) { TrimStartDone(s[1..]); }
  }

  lemma {:induction false} TrimEndDone(s: string)
    ensures TrimEnd(s) != "" ==> !IsSpace(TrimEnd(s)[|TrimEnd(s)| - 1]) && TrimEnd(s)[0] == s[0]
    ensures s != "" && !IsSpace(s[|s| - 1]) ==> TrimEnd(s) == s
  {
    if s != "" && IsSpace(s[|s| - 1]) { TrimEndDone(s[..|s| - 1]); }
  }

  lemma TrimIdempotent(s: string)
    ensures Trim(Trim(s)) == Trim(s)
  {
    var t := Trim(s);
    TrimStartDone(s);
    TrimEndDone(TrimStart(s));
    if t != "" {
      TrimStartDone(t);
      TrimEndDone(t);
    }
  }

  // A space, or tab, line feed, vertical tab, form feed or carriage return.
  predicate White(c: char) {
    c in " \t\n\U{000B}\U{000C}\r"
  }

  predicate Blank(s: string) {
    forall i :: 0 <= i < |s| ==> White(s[i])
  }

  lemma SpaceIsBlank(c: char)
    ensures IsSpace(c) <==> White(c)
  {
    var spaces := " \t\n\U{000B}\U{000C}\r";
    assert spaces[0] as int == 32 && spaces[1] as int == 9 && spaces[2] as int == 10;
    assert spaces[3] as int == 11 && spaces[4] as int == 12 && spaces[5] as int == 13;
    if IsSpace(c) {
      assert c == spaces[0] || c == spaces[1] || c == spaces[2] || c == spaces[3] || c == spaces[4] || c == spaces[5];
    }
  }

  lemma {:induction false} StartIsBlank(s: string) returns (before: string)
    ensures Blank(before) && s == before + TrimStart(s)
    decreases |s|
  {
    hide White;
    if s != "" && IsSpace(s[0]) {
      var rest := StartIsBlank(s[1..]);
      SpaceIsBlank(s[0]);
      before := [s[0]] + rest;
      assert s == [s[0]] + (rest + TrimStart(s[1..])) == before + TrimStart(s);
    } else {
      before := "";
    }
  }

  lemma {:induction false} EndIsBlank(s: string) returns (after: string)
    ensures Blank(after) && s == TrimEnd(s) + after
    decreases |s|
  {
    hide White;
    if s != "" && IsSpace(s[|s| - 1]) {
      var n := |s| - 1;
      var rest := EndIsBlank(s[..n]);
      SpaceIsBlank(s[n]);
      after := rest + [s[n]];
      assert s == (TrimEnd(s[..n]) + rest) + [s[n]] == TrimEnd(s) + after;
    } else {
      after := "";
    }
  }

  /** Trimming takes white space from both ends and leaves none there. */
  lemma TrimMeans(s: string) returns (before: string, after: string)
    ensures s == before + Trim(s) + after && Blank(before) && Blank(after)
    ensures Trim(s) != "" ==> !Blank(Trim(s)[..1]) && !Blank(Trim(s)[|Trim(s)| - 1..])
  {
    hide White;
    before := StartIsBlank(s);
    after := EndIsBlank(TrimStart(s));
    TrimStartDone(s);
    TrimEndDone(TrimStart(s));
    var t := Trim(s);
    if t != "" {
      SpaceIsBlank(t[0]);
      SpaceIsBlank(t[|t| - 1]);
      assert t[..1][0] == t[0] && t[|t| - 1..][0] == t[|t| - 1];
    }
  }
}
