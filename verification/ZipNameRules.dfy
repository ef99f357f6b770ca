/**
 What the cleaning of names does and leaves alone (zip-store.ts:84-113): good ids and suffixes stand as they are, forbidden
 characters become underscores, and nothing but underscores is ever dropped before the cut at 80 characters.
 */
module ZipNameRules {
  import opened Text
  import opened ZipNames

  // A control character or one of \/:*?"<>|.
  predicate Forbidden(c: char) {
    || c as int < 32
    || c == '\\' || c == '/' || c == ':' || c == '*' || c == '?' || c == '"' || c == '<' || c == '>' || c == '|' || c == '.'
  }

  /** Masking puts an underscore for every forbidden character and keeps the others. */
  lemma MaskExactly(s: string, i: nat)
    requires i < |s|
    ensures Mask(s)[i] == if Forbidden(s[i]) then '_' else s[i]
  {
  }

  function Kept(c: char): string {
    if c == '_' then "" else [c]
  }

  // The characters other than underscores, in order.
  function Letters(s: string): string {
    if s == "" then "" else Kept(s[0]) + Letters(s[1..])
  }

  lemma {:induction false} LettersSnoc(s: string, c: char)
    ensures Letters(s + [c]) == Letters(s) + Kept(c)
    decreases |s|
  {
    var t := s + [c];
    if s == "" {
      assert t[1..] == "";
      assert Letters(t) == Kept(c) + Letters(t[1..]);
    } else {
      assert t[0] == s[0] && t[1..] == s[1..] + [c];
      LettersSnoc(s[1..], c);
      assert Kept(s[0]) + (Letters(s[1..]) + Kept(c)) == (Kept(s[0]) + Letters(s[1..])) + Kept(c);
    }
  }

  lemma {:induction false} CollapseKeeps(s: string)
    ensures Letters(Collapse(s)) == Letters(s)
    decreases |s|
  {
    if |s| > 1 {
      CollapseKeeps(s[1..]);
      if !(s[0] == '_' && s[1] == '_') {
        assert Collapse(s)[0] == s[0] && Collapse(s)[1..] == Collapse(s[1..]);
      }
    }
  }

  lemma {:induction false} StripStartKeeps(s: string)
    ensures Letters(StripStart(s)) == Letters(s)
    decreases |s|
  {
    if s != "" && s[0] == '_' { StripStartKeeps(s[1..]); }
  }

  lemma {:induction false} StripEndKeeps(s: string)
    ensures Letters(StripEnd(s)) == Letters(s)
    decreases |s|
  {
    if s != "" && s[|s| - 1] == '_' {
      var n := |s| - 1;
      StripEndKeeps(s[..n]);
      LettersSnoc(s[..n], '_');
      assert s == s[..n] + ['_'];
    }
  }

  /** Up to the cut only underscores are dropped, at both ends and where they repeat. */
  lemma OnlyUnderscoresGo(s: string)
    ensures var t := StripEnd(StripStart(Collapse(Mask(s))));
            && Letters(t) == Letters(Mask(s))
            && NoDoubleUnderscore(t) && (t != "" ==> t[0] != '_' && t[|t| - 1] != '_')
  {
    var m := Mask(s);
    CollapseKeeps(m);
    StripStartKeeps(Collapse(m));
    StripEndKeeps(StripStart(Collapse(m)));
    StripEndStart(StripStart(Collapse(m)));
  }

  lemma {:induction false} StripEndStart(s: string)
    ensures var t := StripEnd(s); t != "" ==> t[0] == s[0]
    decreases |s|
  {
    if s != "" && s[|s| - 1] == '_' { StripEndStart(s[..|s| - 1]); }
  }

  lemma {:induction false} CollapseStays(s: string)
    requires NoDoubleUnderscore(s)
    ensures Collapse(s) == s
    decreases |s|
  {
    if |s| > 1 {
      assert forall i :: 0 < i < |s[1..]| ==> s[1..][i - 1] == s[i] && s[1..][i] == s[i + 1];
      CollapseStays(s[1..]);
      assert s == [s[0]] + s[1..];
    }
  }

  /** An id that needs no cleaning is kept. */
  lemma GoodIdsStay(s: string)
    requires 0 < |s| <= 80 && (forall i :: 0 <= i < |s| ==> !Forbidden(s[i])) && NoDoubleUnderscore(s)
    requires s[0] != '_' && s[|s| - 1] != '_' && Trim(s) == s
    ensures Cleaned(s) == s
  {
    hide Forbidden, Collapse, Trim, NoDoubleUnderscore;
    MaskStays(s);
    CollapseStays(s);
    assert StripEnd(StripStart(s)) == s;
  }

  lemma MaskStays(s: string)
    requires forall i :: 0 <= i < |s| ==> !Forbidden(s[i])
    ensures Mask(s) == s
  {
    hide Forbidden;
    forall i | 0 <= i < |s| ensures Mask(s)[i] == s[i] { MaskExactly(s, i); }
  }

  // Letters, digits, underscores and hyphens.
  predicate Plainest(s: string) {
    forall i :: 0 <= i < |s| ==>
      'a' <= s[i] <= 'z' || 'A' <= s[i] <= 'Z' || '0' <= s[i] <= '9' || s[i] == '_' || s[i] == '-'
  }

  lemma {:induction false} PlainestStay(s: string)
    requires Plainest(s)
    ensures KeepSuffixChars(s) == s
    decreases |s|
  {
    if s != "" {
      assert s[0] == s[0] && Plainest(s[1..]);
      PlainestStay(s[1..]);
      assert s == [s[0]] + s[1..];
    }
  }

  /** A suffix of letters, digits, underscores and hyphens keeps its first twelve; a blank one is "id". */
  lemma GoodSuffixesStay(s: string)
    requires Plainest(s)
    ensures Suffix(s) == if s == "" then "id" else if |s| <= 12 then s else s[..12]
  {
    PlainestStay(s);
    PlainestStay("id");
  }

  /** Other characters of a suffix are left out. */
  lemma {:induction false} SuffixLeavesOut(a: string, c: char, b: string)
    requires !Plainest([c])
    ensures KeepSuffixChars(a + [c] + b) == KeepSuffixChars(a + b)
    decreases |a|
  {
    assert [c][0] == c && !SuffixChar(c);
    var s := a + [c] + b;
    if a == "" {
      assert s[0] == c && s[1..] == b && a + b == b;
    } else {
      assert s[0] == a[0] && s[1..] == a[1..] + [c] + b;
      assert (a + b)[0] == a[0] && (a + b)[1..] == a[1..] + b;
      SuffixLeavesOut(a[1..], c, b);
    }
  }

  /** A good id and suffix make the obvious name, and nothing makes "invoice-id.pdf". */
  lemma NamesAsExpected(id: string, suffix: string)
    requires Cleaned(id) == id != "" && Suffix(suffix) == suffix != ""
    ensures BaseName(id, suffix) == id + "-" + suffix + ".pdf"
    ensures BaseName("", "") == "invoice-id.pdf"
  {
    hide Cleaned, Suffix;
    Defaults();
    assert "invoice" + "-" + "id" + ".pdf" == "invoice-id.pdf";
  }

  lemma Defaults()
    ensures Cleaned("") == "invoice" && Suffix("") == "id"
  {
    GoodSuffixesStay("");
    var s := "invoice";
    assert forall i :: 0 <= i < |s| ==> !Forbidden(s[i]);
    GoodIdsStay(s);
    assert Cleaned("") == Cleaned(s);
  }
}
