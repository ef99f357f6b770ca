/**
 The summary read back from the daily rollups and its comparison with the event log
 (usage-rollup.service.ts, analytics.service.ts): when they agree, and by how much they differ otherwise.
 */
module UsageSummary {
  import opened Wrappers
  import opened Sums
  import opened SetSums
  import opened UsageAggregate
  import opened UsageRollup

  // ----- reading the daily table -----

  predicate RowPasses(k: DayKey, f: Filter) {
    if IsDocumentMeter(k.meter)
    then (f.branchId != "" ==> k.branchKey == f.branchId) && (f.currencyCode != "" ==> k.currencyKey == f.currencyCode)
    else k.branchKey == ORG_BRANCH_KEY && k.currencyKey == ORG_CURRENCY_KEY
  }

  function RowReading(k: DayKey, value: int): Reading {
    Reading(k.meter, value, k.day,
            if k.branchKey == ORG_BRANCH_KEY then None else Some(k.branchKey),
            if k.currencyKey == ORG_CURRENCY_KEY then None else Some(k.currencyKey))
  }

  // The rows a summary of one meter counts: the row filter, then the filter of the fold.
  predicate RowCounted(k: DayKey, m: Meter, f: Filter) {
    k.meter == m && RowPasses(k, f) && Passes(RowReading(k, 0), f)
  }

  function CountedRows(daily: map<DayKey, int>, from: int, to: int, m: Meter, f: Filter): set<DayKey> {
    set k | k in daily && from <= k.day <= to && RowCounted(k, m, f)
  }

  function ValueOf(daily: map<DayKey, int>, k: DayKey): int {
    if k in daily then daily[k] else 0
  }

  // What a summary reports for a meter, whatever the order of the rows.
  ghost predicate IsSummary(daily: map<DayKey, int>, from: int, to: int, m: Meter, f: Filter, v: int) {
    var rows := CountedRows(daily, from, to, m, f);
    if m != StorageBytes then v == SumSet(rows, k => ValueOf(daily, k))
    else if rows == {} then v == 0
    else exists k :: k in rows && v == daily[k] && forall x :: x in rows ==> x.day <= k.day
  }

  function RowReadings(daily: map<DayKey, int>, rows: seq<DayKey>, f: Filter): seq<Reading> {
    if rows == [] then []
    else
      var n := |rows| - 1;
      RowReadings(daily, rows[..n], f) +
      if RowPasses(rows[n], f) then [RowReading(rows[n], ValueOf(daily, rows[n]))] else []
  }

  method SummarizeDailyRows(daily: map<DayKey, int>, from: int, to: int, f: Filter) returns (totals: map<Meter, int>)
    ensures forall m :: m in totals && IsSummary(daily, from, to, m, f, totals[m])
  {
    hide *;
    var rows := FindAll(set k | k in daily && from <= k.day <= to);
    var readings: seq<Reading> := [];
    assert rows[..0] == [];
    RowReadingsOfNothing(daily, f);
    for i := 0 to |rows|
      invariant readings == RowReadings(daily, rows[..i], f)
    {
      RowReadingsSnoc(daily, rows, i, f);
      if RowPasses(rows[i], f) {
        readings := readings + [RowReading(rows[i], ValueOf(daily, rows[i]))];
      }
    }
    assert rows[..|rows|] == rows;
    totals := AggregateEventsToTotals(readings, f);
    forall m: Meter ensures m in totals && IsSummary(daily, from, to, m, f, totals[m]) {
      TotalIsSummary(daily, rows, from, to, m, f);
    }
  }

  lemma RowReadingsOfNothing(daily: map<DayKey, int>, f: Filter)
    ensures RowReadings(daily, [], f) == []
  {
  }

  lemma RowReadingsSnoc(daily: map<DayKey, int>, rows: seq<DayKey>, i: nat, f: Filter)
    requires i < |rows|
    ensures RowReadings(daily, rows[..i + 1], f) == RowReadings(daily, rows[..i], f) +
            if RowPasses(rows[i], f) then [RowReading(rows[i], ValueOf(daily, rows[i]))] else []
  {
    assert rows[..i + 1][..i] == rows[..i];
  }

  function CountedValue(daily: map<DayKey, int>, k: DayKey, m: Meter, f: Filter): int {
    if RowCounted(k, m, f) then ValueOf(daily, k) else 0
  }

  lemma {:induction false} ReadingsSum(daily: map<DayKey, int>, rows: seq<DayKey>, m: Meter, f: Filter)
    ensures Sum(RowReadings(daily, rows, f), r => CountedQuantity(r, m, f)) == Sum(rows, k => CountedValue(daily, k, m, f))
  {
    if rows != [] {
      var n := |rows| - 1;
      ReadingsSum(daily, rows[..n], m, f);
      if RowPasses(rows[n], f) {
        var r := RowReading(rows[n], ValueOf(daily, rows[n]));
        SumSnoc(RowReadings(daily, rows[..n], f), r, (r: Reading) => CountedQuantity(r, m, f));
        assert CountedQuantity(r, m, f) == CountedValue(daily, rows[n], m, f);
      } else {
        assert RowReadings(daily, rows, f) == RowReadings(daily, rows[..n], f);
      }
    }
  }

  // The latest reading belongs to a counted row of the last day.
  lemma {:induction false} ReadingsLatest(daily: map<DayKey, int>, rows: seq<DayKey>, m: Meter, f: Filter)
    ensures var latest := Latest(RowReadings(daily, rows, f), m, f);
            if latest.None? then forall i :: 0 <= i < |rows| ==> !RowCounted(rows[i], m, f)
            else exists j :: 0 <= j < |rows| && RowCounted(rows[j], m, f)
                   && latest.value.at == rows[j].day && latest.value.quantity == ValueOf(daily, rows[j])
                   && forall i :: 0 <= i < |rows| && RowCounted(rows[i], m, f) ==> rows[i].day <= rows[j].day
  {
    if rows != [] {
      var n := |rows| - 1;
      var before, all := RowReadings(daily, rows[..n], f), RowReadings(daily, rows, f);
      ReadingsLatest(daily, rows[..n], m, f);
      assert forall i :: 0 <= i < n ==> rows[..n][i] == rows[i];
      if RowPasses(rows[n], f) {
        assert all[..|before|] == before && all[|before|] == RowReading(rows[n], ValueOf(daily, rows[n]));
        assert Counted(all[|before|], m, f) <==> RowCounted(rows[n], m, f);
      } else {
        assert all == before;
      }
      var latest := Latest(all, m, f);
      if latest.Some? && latest != Latest(before, m, f) {
        assert RowCounted(rows[n], m, f) && latest.value.at == rows[n].day;
      }
    }
  }

  lemma TotalIsSummary(daily: map<DayKey, int>, rows: seq<DayKey>, from: int, to: int, m: Meter, f: Filter)
    requires Enumerates(rows, set k | k in daily && from <= k.day <= to)
    ensures IsSummary(daily, from, to, m, f, Total(RowReadings(daily, rows, f), m, f))
  {
    hide RowCounted, RowReadings;
    var all := set k | k in daily && from <= k.day <= to;
    var counted := CountedRows(daily, from, to, m, f);
    if m != StorageBytes {
      ReadingsSum(daily, rows, m, f);
      var g := (k: DayKey) => CountedValue(daily, k, m, f);
      SumOfEnumeration(rows, all, g);
      assert all == counted + (all - counted);
      SumSetUnion(counted, all - counted, g);
      SumSetZero(all - counted, g);
      SumSetCongruence(counted, g, k => ValueOf(daily, k));
    } else {
      ReadingsLatest(daily, rows, m, f);
      forall k ensures k in counted <==> exists i :: 0 <= i < |rows| && rows[i] == k && RowCounted(k, m, f) {
        assert k in all <==> k in rows;
      }
    }
  }
}
