/**
 Usage totals as a fold over events (usage-aggregate.ts). Quantities are whole units of the stored
 decimal; instants are milliseconds; an empty filter text is no filter.
 */
module UsageAggregate {
  import opened Wrappers
  import opened Sums

  datatype Meter = Issued | Received | Valid | Invalid | ApiCalls | StorageBytes

  const METERS := [Issued, Received, Valid, Invalid, ApiCalls, StorageBytes]
  const ORG_BRANCH_KEY := "00000000-0000-0000-0000-000000000000"
  const ORG_CURRENCY_KEY := ""

  datatype Reading = Reading(
    meter: Meter, quantity: int, at: int, branchId: Option<string>, currencyCode: Option<string>)

  datatype Filter = Filter(branchId: string, currencyCode: string)

  const NO_FILTER := Filter("", "")

  predicate IsDocumentMeter(m: Meter) {
    m == Issued || m == Received || m == Valid || m == Invalid
  }

  function BranchKeyOf(branchId: Option<string>): string {
    if branchId.Some? && branchId.value != "" then branchId.value else ORG_BRANCH_KEY
  }

  function CurrencyKeyOf(currencyCode: Option<string>): string {
    if currencyCode.Some? && currencyCode.value != "" then currencyCode.value else ORG_CURRENCY_KEY
  }

  // Filters apply to document meters only.
  predicate Passes(r: Reading, f: Filter) {
    IsDocumentMeter(r.meter) ==>
      && (f.branchId != "" ==> r.branchId == Some(f.branchId))
      && (f.currencyCode != "" ==> r.currencyCode == Some(f.currencyCode))
  }

  predicate Counted(r: Reading, m: Meter, f: Filter) {
    r.meter == m && Passes(r, f)
  }

  function CountedQuantity(r: Reading, m: Meter, f: Filter): int {
    if Counted(r, m, f) then r.quantity else 0
  }

  // The last reading among those with the greatest instant.
  function Latest(rs: seq<Reading>, m: Meter, f: Filter): Option<Reading> {
    if rs == [] then None
    else
      var n := |rs| - 1;
      var before := Latest(rs[..n], m, f);
      if Counted(rs[n], m, f) && (before.None? || rs[n].at >= before.value.at) then Some(rs[n]) else before
  }

  function Total(rs: seq<Reading>, m: Meter, f: Filter): int {
    if m == StorageBytes
    then if Latest(rs, m, f).Some? then Latest(rs, m, f).value.quantity else 0
    else Sum(rs, r => CountedQuantity(r, m, f))
  }

  function Selected(rs: seq<Reading>, m: Meter, f: Filter): seq<Reading> {
    if rs == [] then []
    else Selected(rs[..|rs| - 1], m, f) + if Counted(rs[|rs| - 1], m, f) then [rs[|rs| - 1]] else []
  }

  lemma {:induction false} SelectedAreCounted(rs: seq<Reading>, m: Meter, f: Filter)
    ensures forall i :: 0 <= i < |Selected(rs, m, f)| ==> Counted(Selected(rs, m, f)[i], m, f)
  {
    if rs != [] { SelectedAreCounted(rs[..|rs| - 1], m, f); }
  }

  lemma {:induction false} TotalOfSelected(rs: seq<Reading>, m: Meter, f: Filter)
    ensures Total(Selected(rs, m, f), m, f) == Total(rs, m, f)
    ensures Latest(Selected(rs, m, f), m, f) == Latest(rs, m, f)
  {
    hide Counted;
    if rs != [] {
      var n := |rs| - 1;
      TotalOfSelected(rs[..n], m, f);
      var before, all := Selected(rs[..n], m, f), Selected(rs, m, f);
      if Counted(rs[n], m, f) {
        assert all[..|before|] == before && all[|before|] == rs[n] && |all| == |before| + 1;
      } else {
        assert all == before;
      }
    }
  }

  lemma SelectedSnoc(events: seq<Reading>, i: nat, m: Meter, f: Filter)
    requires i < |events|
    ensures Selected(events[..i + 1], m, f)
         == if events[i].meter == m && Passes(events[i], f) then Selected(events[..i], m, f) + [events[i]]
            else Selected(events[..i], m, f)
  {
    hide Passes;
    assert events[..i + 1][..i] == events[..i];
    assert Selected(events[..i], m, f) + [] == Selected(events[..i], m, f);
  }

  method GroupByMeter(events: seq<Reading>, f: Filter) returns (byMeter: map<Meter, seq<Reading>>)
    ensures forall m :: ListOf(byMeter, m) == Selected(events, m, f)
  {
    hide Passes, Selected;
    byMeter := map[];
    assert events[..0] == [];
    forall m ensures Selected([], m, f) == [] { SelectedOfNothing(m, f); }
    for i := 0 to |events|
      invariant forall m :: ListOf(byMeter, m) == Selected(events[..i], m, f)
    {
      var e := events[i];
      forall m: Meter
        ensures Selected(events[..i + 1], m, f)
             == if e.meter == m && Passes(e, f) then Selected(events[..i], m, f) + [e] else Selected(events[..i], m, f)
      {
        SelectedSnoc(events, i, m, f);
      }
      if Passes(e, f) {
        ghost var before := byMeter;
        byMeter := byMeter[e.meter := ListOf(byMeter, e.meter) + [e]];
        forall m: Meter ensures ListOf(byMeter, m) == Selected(events[..i + 1], m, f) {
          assert m != e.meter ==> ListOf(byMeter, m) == ListOf(before, m);
        }
      }
    }
    assert events[..|events|] == events;
  }

  function ListOf(byMeter: map<Meter, seq<Reading>>, m: Meter): seq<Reading> {
    if m in byMeter then byMeter[m] else []
  }

  lemma SelectedOfNothing(m: Meter, f: Filter)
    ensures Selected([], m, f) == []
  {
  }

  lemma MetersAreAll(m: Meter)
    ensures m in METERS
  {
    match m
    case Issued => assert METERS[0] == m;
    case Received => assert METERS[1] == m;
    case Valid => assert METERS[2] == m;
    case Invalid => assert METERS[3] == m;
    case ApiCalls => assert METERS[4] == m;
    case StorageBytes => assert METERS[5] == m;
  }

  // The total of a list that holds the counted readings of one meter.
  method MeterTotal(list: seq<Reading>, meter: Meter, f: Filter) returns (value: int)
    requires forall i :: 0 <= i < |list| ==> Counted(list[i], meter, f)
    ensures value == Total(list, meter, f)
  {
    value := 0;
    if list == [] {
      return;
    }
    if meter == StorageBytes {
      var latest := list[0];
      for j := 0 to |list|
        invariant j == 0 ==> latest == list[0]
        invariant j > 0 ==> Latest(list[..j], meter, f) == Some(latest)
      {
        assert list[..j + 1][..j] == list[..j];
        if list[j].at >= latest.at {
          latest := list[j];
        }
      }
      assert list[..|list|] == list;
      value := latest.quantity;
    } else {
      for j := 0 to |list|
        invariant value == Sum(list[..j], r => CountedQuantity(r, meter, f))
      {
        assert list[..j + 1][..j] == list[..j];
        value := value + list[j].quantity;
      }
      assert list[..|list|] == list;
    }
  }

  method AggregateEventsToTotals(events: seq<Reading>, f: Filter) returns (totals: map<Meter, int>)
    ensures forall m :: m in totals && totals[m] == Total(events, m, f)
  {
    hide Total, Selected, Counted;
    var byMeter := GroupByMeter(events, f);
    totals := map[];
    for i := 0 to |METERS|
      invariant forall j :: 0 <= j < i ==> METERS[j] in totals && totals[METERS[j]] == Total(events, METERS[j], f)
    {
      var meter := METERS[i];
      TotalOfSelected(events, meter, f);
      SelectedAreCounted(events, meter, f);
      var value := MeterTotal(ListOf(byMeter, meter), meter, f);
      totals := totals[meter := value];
    }
    forall m: Meter ensures m in totals && totals[m] == Total(events, m, f) { MetersAreAll(m); }
  }
}
