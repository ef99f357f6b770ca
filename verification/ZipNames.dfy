/**
 Names of the invoices inside an exported ZIP (zip-store.ts:84-113, exports.service.ts:941-952): cleaned of
 everything a file system could interpret, and never the same name twice.
 */
module ZipNames {
  import opened Decimals
  import opened Text

  const FORBIDDEN: set<char> := {'\\', '/', ':', '*', '?', '"', '<', '>', '|', '.'}

  predicate Allowed(c: char) {
    c as int >= 32 && c !in FORBIDDEN
  }

  predicate Plain(s: string) {
    forall i :: 0 <= i < |s| ==> Allowed(s[i])
  }

  predicate NoDoubleUnderscore(s: string) {
    forall i :: 0 < i < |s| ==> s[i - 1] != '_' || s[i] != '_'
  }

  // ----- cleaning -----

  function Mask(s: string): (m: string)
    ensures |m| == |s| && Plain(m)
  {
    seq(|s|, i requires 0 <= i < |s| => if Allowed(s[i]) then s[i] else '_')
  }

  // Runs of underscores become one.
  function Collapse(s: string): (r: string)
    ensures |r| <= |s| && (r == "" <==> s == "") && (s != "" ==> r[0] == s[0])
    ensures Plain(s) ==> Plain(r)
    ensures NoDoubleUnderscore(r)
  {
    if |s| <= 1 then s
    else if s[0] == '_' && s[1] == '_' then Collapse(s[1..])
    else [s[0]] + Collapse(s[1..])
  }

  function StripStart(s: string): (r: string)
    ensures |r| <= |s| && (r != "" ==> r[0] != '_')
    ensures Plain(s) ==> Plain(r)
    ensures NoDoubleUnderscore(s) ==> NoDoubleUnderscore(r)
  {
    if s != "" && s[0] == '_' then StripStart(s[1..]) else s
  }

  function StripEnd(s: string): (r: string)
    ensures |r| <= |s| && (r != "" ==> r[|r| - 1] != '_')
    ensures Plain(s) ==> Plain(r)
    ensures NoDoubleUnderscore(s) ==> NoDoubleUnderscore(r)
  {
    if s != "" && s[|s| - 1] == '_' then StripEnd(s[..|s| - 1]) else s
  }

  function Slice(s: string, n: nat): (r: string)
    ensures |r| <= n && r <= s
  {
    if |s| <= n then s else s[..n]
  }

  function OrElse(s: string, fallback: string): string {
    if s == "" then fallback else s
  }

  function Cleaned(internalId: string): string {
    Trim(Slice(StripEnd(StripStart(Collapse(Mask(OrElse(internalId, "invoice"))))), 80))
  }

  predicate SuffixChar(c: char) {
    'a' <= c <= 'z' || 'A' <= c <= 'Z' || '0' <= c <= '9' || c == '_' || c == '-'
  }

  function KeepSuffixChars(s: string): (r: string)
    ensures forall i :: 0 <= i < |r| ==> SuffixChar(r[i])
  {
    if s == "" then ""
    else if SuffixChar(s[0]) then [s[0]] + KeepSuffixChars(s[1..])
    else KeepSuffixChars(s[1..])
  }

  function Suffix(uniqueSuffix: string): string {
    Slice(KeepSuffixChars(OrElse(uniqueSuffix, "id")), 12)
  }

  lemma {:induction false} TrimStartKeeps(s: string)
    requires Plain(s) && NoDoubleUnderscore(s)
    ensures var t := TrimStart(s); Plain(t) && NoDoubleUnderscore(t) && |t| <= |s|
    decreases |s|
  {
    if s != "" && IsSpace(s[0]) { TrimStartKeeps(s[1..]); }
  }

  lemma {:induction false} TrimEndKeeps(s: string)
    requires Plain(s) && NoDoubleUnderscore(s)
    ensures var t := TrimEnd(s); Plain(t) && NoDoubleUnderscore(t) && |t| <= |s|
    decreases |s|
  {
    if s != "" && IsSpace(s[|s| - 1]) { TrimEndKeeps(s[..|s| - 1]); }
  }

  lemma CleanedIsPlain(internalId: string)
    ensures var c := Cleaned(internalId); Plain(c) && NoDoubleUnderscore(c) && |c| <= 80
  {
    hide Collapse, StripStart, StripEnd;
    var s := Slice(StripEnd(StripStart(Collapse(Mask(OrElse(internalId, "invoice"))))), 80);
    TrimStartKeeps(s);
    TrimEndKeeps(TrimStart(s));
  }

  lemma SuffixIsPlain(uniqueSuffix: string)
    ensures Plain(Suffix(uniqueSuffix)) && |Suffix(uniqueSuffix)| <= 12
  {
  }

  lemma DigitsArePlain(n: nat)
    ensures Plain(Digits(n))
  {
    hide Digits;
    forall i | 0 <= i < |Digits(n)| ensures Allowed(Digits(n)[i]) { DigitIsAllowed(Digits(n)[i]); }
  }

  lemma DigitIsAllowed(c: char)
    requires '0' <= c <= '9'
    ensures Allowed(c)
  {
  }

  // ----- names -----

  function BaseName(internalId: string, uniqueSuffix: string): string {
    OrElse(Cleaned(internalId), "invoice") + "-" + OrElse(Suffix(uniqueSuffix), "id") + ".pdf"
  }

  // The numbered names use the bare suffix, even when it is empty.
  function Stem(internalId: string, uniqueSuffix: string): string {
    OrElse(Cleaned(internalId), "invoice") + "-" + Suffix(uniqueSuffix) + "-"
  }

  function NumberedName(internalId: string, uniqueSuffix: string, n: nat): string {
    Stem(internalId, uniqueSuffix) + Digits(n) + ".pdf"
  }

  // A plain stem before the only dot: no separator, no traversal, no control character.
  predicate SafeName(s: string) {
    |s| > 4 && s[|s| - 4..] == ".pdf" && Plain(s[..|s| - 4])
  }

  lemma DotPdf(stem: string)
    requires stem != "" && Plain(stem)
    ensures SafeName(stem + ".pdf")
  {
    assert (stem + ".pdf")[..|stem|] == stem && (stem + ".pdf")[|stem|..] == ".pdf";
  }

  lemma NamesAreSafe(internalId: string, uniqueSuffix: string, n: nat)
    ensures SafeName(BaseName(internalId, uniqueSuffix)) && SafeName(NumberedName(internalId, uniqueSuffix, n))
  {
    hide Cleaned, Suffix, Digits;
    CleanedIsPlain(internalId);
    SuffixIsPlain(uniqueSuffix);
    DigitsArePlain(n);
    var head := OrElse(Cleaned(internalId), "invoice") + "-";
    var base := head + OrElse(Suffix(uniqueSuffix), "id");
    DotPdf(base);
    DotPdf(Stem(internalId, uniqueSuffix) + Digits(n));
  }

  lemma NumberedInjective(internalId: string, uniqueSuffix: string, m: nat, n: nat)
    requires NumberedName(internalId, uniqueSuffix, m) == NumberedName(internalId, uniqueSuffix, n)
    ensures m == n
  {
    hide Stem, Digits;
    var s := Stem(internalId, uniqueSuffix);
    Between(s, Digits(m), ".pdf");
    Between(s, Digits(n), ".pdf");
    DigitsInjective(m, n);
  }

  lemma Between(a: string, b: string, c: string)
    ensures |a + b + c| == |a| + |b| + |c| && (a + b + c)[|a|..|a + b + c| - |c|] == b
  {
  }

  // The name the search must give: the base name if free, else the first free number from two.
  ghost predicate IsNextName(name: string, internalId: string, uniqueSuffix: string, used: set<string>) {
    var base := BaseName(internalId, uniqueSuffix);
    if base !in used then name == base
    else
      exists n: nat :: n >= 2 && name == NumberedName(internalId, uniqueSuffix, n) && name !in used
        && forall k: nat :: 2 <= k < n ==> NumberedName(internalId, uniqueSuffix, k) in used
  }

  class UsedNames {
    var used: set<string>

    constructor ()
      ensures used == {}
    {
      used := {};
    }

    /** A safe name that was not used before; afterwards it is the one name added to the used ones. */
    method SafeInvoicePdfFilename(internalId: string, uniqueSuffix: string) returns (name: string)
      modifies this
      ensures IsNextName(name, internalId, uniqueSuffix, old(used))
      ensures SafeName(name)
      ensures name !in old(used) && used == old(used) + {name}
    {
      hide Collapse, StripStart, StripEnd, Trim, Suffix, Digits, KeepSuffixChars, SafeName;
      var id := OrElse(internalId, "invoice");
      var cleaned := "";
      for i := 0 to |id|
        invariant cleaned == Mask(id[..i])
      {
        cleaned := cleaned + (if Allowed(id[i]) then [id[i]] else "_");
        assert cleaned == Mask(id[..i + 1]);
      }
      assert id[..|id|] == id;
      cleaned := Trim(Slice(StripEnd(StripStart(Collapse(cleaned))), 80));
      var suffix := Suffix(uniqueSuffix);
      var base := OrElse(cleaned, "invoice") + "-" + OrElse(suffix, "id") + ".pdf";
      NamesAreSafe(internalId, uniqueSuffix, 0);
      if base !in used {
        used := used + {base};
        return base;
      }
      var n := FirstFree(internalId, uniqueSuffix);
      name := OrElse(cleaned, "invoice") + "-" + suffix + "-" + Digits(n) + ".pdf";
      NamesAreSafe(internalId, uniqueSuffix, n);
      used := used + {name};
    }

    // The search ends because every number tried uses up another name of a finite set.
    method FirstFree(internalId: string, uniqueSuffix: string) returns (n: nat)
      ensures n >= 2 && NumberedName(internalId, uniqueSuffix, n) !in used
      ensures forall k: nat :: 2 <= k < n ==> NumberedName(internalId, uniqueSuffix, k) in used
    {
      hide NumberedName;
      n := 2;
      ghost var left := used;
      while NumberedName(internalId, uniqueSuffix, n) in used
        invariant n >= 2
        invariant forall k: nat :: 2 <= k < n ==> NumberedName(internalId, uniqueSuffix, k) in used
        invariant forall k: nat :: k >= n && NumberedName(internalId, uniqueSuffix, k) in used
                                   ==> NumberedName(internalId, uniqueSuffix, k) in left
        decreases left
      {
        var tried := NumberedName(internalId, uniqueSuffix, n);
        forall k: nat | k > n ensures NumberedName(internalId, uniqueSuffix, k) != tried {
          if NumberedName(internalId, uniqueSuffix, k) == tried { NumberedInjective(internalId, uniqueSuffix, k, n); }
        }
        left := left - {tried};
        n := n + 1;
      }
    }
  }

  // One archive's names, in order: the suffix is the entry's number.
  method NameEntries(ids: seq<string>) returns (names: seq<string>)
    ensures |names| == |ids|
    ensures forall i :: 0 <= i < |names| ==> SafeName(names[i])
    ensures forall i, j :: 0 <= i < j < |names| ==> names[i] != names[j]
  {
    hide SafeName, Digits;
    var used := new UsedNames();
    names := [];
    for i := 0 to |ids|
      invariant |names| == i
      invariant forall k :: 0 <= k < i ==> SafeName(names[k]) && names[k] in used.used
      invariant forall k, l :: 0 <= k < l < i ==> names[k] != names[l]
    {
      var name := used.SafeInvoicePdfFilename(ids[i], Digits(|names| + 1));
      names := names + [name];
    }
  }
}
