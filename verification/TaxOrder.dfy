/** The tax engine does not depend on the order of a line's taxes, as long as each code is listed once. */
module TaxOrder {
  import opened Wrappers
  import opened Sums
  import opened Money
  import opened TaxModes
  import opened TaxEngine
  import opened TaxProperties

  lemma CountTwo(s: seq<TaxInput>, i: nat, j: nat)
    requires i < j < |s| && s[i] == s[j]
    ensures multiset(s)[s[i]] >= 2
  {
    assert s == s[..j] + s[j..];
    assert s[i] in s[..j] && s[j] in s[j..];
  }

  lemma UniqueIsDistinct(taxes: seq<TaxInput>)
    requires UniqueCodes(taxes)
    ensures Distinct(taxes)
  {
    hide CodeOf;
  }

  lemma PermutedUnique(a: seq<TaxInput>, b: seq<TaxInput>)
    requires UniqueCodes(a) && multiset(a) == multiset(b)
    ensures UniqueCodes(b)
  {
    hide CodeOf;
    forall i, j | 0 <= i < j < |b| ensures Code(b[i]) != Code(b[j]) {
      if Code(b[i]) == Code(b[j]) {
        assert b[i] in multiset(a) && b[j] in multiset(a);
        assert b[i] == b[j];
        CountTwo(b, i, j);
        UniqueIsDistinct(a);
        DistinctCount(a, b[i]);
      }
    }
  }

  // The entry found for a code is the same in both lists.
  lemma PermutedLookup(a: seq<TaxInput>, b: seq<TaxInput>, c: TaxCode)
    requires UniqueCodes(a) && UniqueCodes(b) && multiset(a) == multiset(b)
    ensures Has(a, c) <==> Has(b, c)
    ensures Has(a, c) ==> First(a, c) == First(b, c) == Last(a, c) == Last(b, c)
  {
    hide CodeOf;
    if Has(a, c) {
      var i := HasIndex(a, c);
      UniqueLookup(a, i);
      assert a[i] in multiset(b);
      var k :| 0 <= k < |b| && b[k] == a[i];
      UniqueLookup(b, k);
    } else if Has(b, c) {
      var k := HasIndex(b, c);
      assert b[k] in multiset(a);
      var i :| 0 <= i < |a| && a[i] == b[k];
      HasMember(a, i);
    }
  }

  lemma PermutedFees(a: seq<TaxInput>, b: seq<TaxInput>, net: int)
    requires UniqueCodes(a) && UniqueCodes(b) && multiset(a) == multiset(b)
    ensures TotalFees(a, net) == TotalFees(b, net)
  {
    hide CodeOf;
    SumPermutation(a, b, t => FeeTerm(a, net, t));
    forall i | 0 <= i < |b| ensures FeeTerm(a, net, b[i]) == FeeTerm(b, net, b[i]) {
      PermutedLookup(a, b, Code(b[i]));
    }
    SumCongruence(b, t => FeeTerm(a, net, t), t => FeeTerm(b, net, t));
  }

  lemma PermutedComplete(a: seq<TaxInput>, b: seq<TaxInput>)
    requires multiset(a) == multiset(b) && Complete(a)
    ensures Complete(b)
  {
    hide CodeOf;
    forall i | 0 <= i < |b| ensures !MissesAmount(b[i]) {
      assert b[i] in multiset(a);
    }
  }

  // Main result: every permutation of the taxes charges every code the same and reports the same fees.
  lemma OrderDoesNotMatter(a: seq<TaxInput>, b: seq<TaxInput>, ctx: Context, c: TaxCode)
    requires UniqueCodes(a) && multiset(a) == multiset(b)
    ensures Amount(a, ctx, c) == Amount(b, ctx, c)
    ensures TotalFees(a, ctx.net) == TotalFees(b, ctx.net)
  {
    hide CodeOf, Has, First, Last, TotalFees;
    PermutedUnique(a, b);
    PermutedFees(a, b, ctx.net);
    PermutedLookup(a, b, c);
    PermutedLookup(a, b, T(1));
    PermutedLookup(a, b, T(2));
    PermutedLookup(a, b, T(3));
  }

  // With a repeated code it does: the last T1 entry wins, so swapping two of them changes the tax.
  lemma RepeatedCodesDependOnOrder()
    ensures var vat := TaxInput("T1", "V009", Rate(14.0, false), None);
            var zero := TaxInput("t1", "V001", Rate(0.0, false), None);
            var ctx := Context(10000, 0, 0);
            Amount([vat, zero], ctx, T(1)) == 0 && Amount([zero, vat], ctx, T(1)) == 1400
  {
    var vat := TaxInput("T1", "V009", Rate(14.0, false), None);
    var zero := TaxInput("t1", "V001", Rate(0.0, false), None);
    NormalizedT1();
    TwoVatEntries(vat, zero);
    TwoVatEntries(zero, vat);
  }

  lemma TwoVatEntries(a: TaxInput, b: TaxInput)
    requires Code(a) == Code(b) == T(1)
    ensures Amount([a, b], Context(10000, 0, 0), T(1)) == Percent(10000, b.rate.percent)
  {
    hide CodeOf, Percent;
    var taxes, ctx := [a, b], Context(10000, 0, 0);
    assert taxes[..1] == [a] && [a][..0] == [];
    assert Last(taxes, T(1)) == b;
    forall c: TaxCode | c != T(1) ensures !Has(taxes, c) {
      assert !Has([a], c);
    }
    assert Sum([a], t => FeeTerm(taxes, 10000, t)) == 0;
    assert FeeBase(taxes, ctx) == 10000;
  }

  lemma NormalizedT1()
    ensures CodeOf("T1") == CodeOf("t1") == T(1)
  {
    assert Normalize("T1") == "T1" && Normalize("t1") == "T1";
  }
}
