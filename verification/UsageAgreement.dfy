/**
 When the rollups agree with the event log. A rebuild never removes rows, so the summary counts, besides
 the events in the window, every row left behind by events that are gone.
 */
module UsageAgreement {
  import opened Wrappers
  import opened Sums
  import opened SetSums
  import opened UsageAggregate
  import opened UsageRollup
  import opened UsageSummary

  // ----- queries and windows -----

  lemma {:induction false} FilteredTwice(events: seq<Event>, p: Event -> bool, q: Event -> bool)
    requires forall e :: q(e) ==> p(e)
    ensures Filtered(Filtered(events, p), q) == Filtered(events, q)
  {
    if events != [] {
      var n := |events| - 1;
      FilteredTwice(events[..n], p, q);
      if p(events[n]) {
        var kept := Filtered(events[..n], p);
        assert (kept + [events[n]])[..|kept|] == kept;
      } else {
        assert Filtered(events, p) == Filtered(events[..n], p);
      }
    }
  }

  // The padding of 36 hours before and a day after loses no event of the window.
  lemma PaddingSuffices(c: Calendar, events: seq<Event>, from: int, to: int)
    requires IsTimeZone(c)
    ensures Window(c, Filtered(events, e => Queried(e, from, to)), from, to) == Window(c, events, from, to)
  {
    forall e: Event ensures OnDays(c, e, from, to) ==> Queried(e, from, to) {
      var d := c.dayOf(e.occurredAt);
      assert d * DAY - 36 * HOUR <= e.occurredAt < (d + 2) * DAY;
      if from <= d <= to {
        assert from * DAY <= d * DAY && (d + 2) * DAY <= (to + 2) * DAY;
      }
    }
    FilteredTwice(events, e => Queried(e, from, to), e => OnDays(c, e, from, to));
  }

  lemma {:induction false} FilteredMultiset(events: seq<Event>, p: Event -> bool, e: Event)
    ensures multiset(Filtered(events, p))[e] == if p(e) then multiset(events)[e] else 0
  {
    if events != [] {
      var n := |events| - 1;
      FilteredMultiset(events[..n], p, e);
      assert events == events[..n] + [events[n]];
    }
  }

  lemma PermutedWindow(c: Calendar, a: seq<Event>, b: seq<Event>, from: int, to: int)
    requires multiset(a) == multiset(b)
    ensures multiset(Window(c, a, from, to)) == multiset(Window(c, b, from, to))
  {
    forall e ensures multiset(Window(c, a, from, to))[e] == multiset(Window(c, b, from, to))[e] {
      FilteredMultiset(a, x => OnDays(c, x, from, to), e);
      FilteredMultiset(b, x => OnDays(c, x, from, to), e);
    }
  }

  // What a rebuild sees, in any query order, is a permutation of the log's window.
  lemma RebuildSeesWindow(c: Calendar, log: seq<Event>, fetched: seq<Event>, from: int, to: int)
    requires IsTimeZone(c)
    requires multiset(fetched) == multiset(Filtered(log, e => Queried(e, from, to)))
    ensures multiset(Window(c, fetched, from, to)) == multiset(Window(c, log, from, to))
  {
    PermutedWindow(c, fetched, Filtered(log, e => Queried(e, from, to)), from, to);
    PaddingSuffices(c, log, from, to);
  }

  lemma {:induction false} FilteredFrom(events: seq<Event>, p: Event -> bool, i: nat)
    requires i < |Filtered(events, p)|
    ensures Filtered(events, p)[i] in events && p(Filtered(events, p)[i])
  {
    var n := |events| - 1;
    if i < |Filtered(events[..n], p)| { FilteredFrom(events[..n], p, i); }
  }

  lemma WindowMembers(c: Calendar, events: seq<Event>, from: int, to: int)
    ensures forall i :: 0 <= i < |Window(c, events, from, to)| ==> OnDays(c, Window(c, events, from, to)[i], from, to)
  {
    forall i | 0 <= i < |Window(c, events, from, to)| ensures OnDays(c, Window(c, events, from, to)[i], from, to) {
      FilteredFrom(events, e => OnDays(c, e, from, to), i);
    }
  }

  // ----- counters -----

  function QuantityUnder(c: Calendar, e: Event, k: DayKey): int {
    if KeyOf(c, e) == k then e.quantity else 0
  }

  function QuantityIn(c: Calendar, e: Event, keys: set<DayKey>): int {
    if KeyOf(c, e) in keys then e.quantity else 0
  }

  lemma {:induction false} GroupTotal(c: Calendar, events: seq<Event>, k: DayKey)
    requires k.meter != StorageBytes
    ensures DailyValue(c, events, k) == Sum(events, e => QuantityUnder(c, e, k))
  {
    if events != [] {
      var n := |events| - 1;
      GroupTotal(c, events[..n], k);
      var before, all := Group(c, events[..n], k), Group(c, events, k);
      if KeyOf(c, events[n]) == k {
        assert Readings(all)[..|before|] == Readings(before);
        assert Readings(all)[|before|] == ReadingOf(events[n]);
      } else {
        assert all == before;
      }
    }
  }

  // Summing by bucket and then over buckets is summing over events.
  lemma {:induction false} SumOverBuckets(c: Calendar, events: seq<Event>, keys: set<DayKey>)
    ensures SumSet(keys, k => Sum(events, e => QuantityUnder(c, e, k))) == Sum(events, e => QuantityIn(c, e, keys))
  {
    hide KeyOf;
    if events == [] {
      SumSetZero(keys, k => Sum(events, e => QuantityUnder(c, e, k)));
    } else {
      var n := |events| - 1;
      var rest, last := events[..n], events[n];
      var f := (k: DayKey) => Sum(rest, e => QuantityUnder(c, e, k));
      var g := (k: DayKey) => Sum(events, e => QuantityUnder(c, e, k));
      SumOverBuckets(c, rest, keys);
      assert forall k :: g(k) == f(k) + QuantityUnder(c, last, k);
      if KeyOf(c, last) in keys {
        SumSetBump(keys, KeyOf(c, last), f, g, last.quantity);
      } else {
        SumSetCongruence(keys, f, g);
      }
    }
  }

  // Rows of the window that no event of the window stands behind.
  function StaleRows(c: Calendar, daily: map<DayKey, int>, window: seq<Event>, from: int, to: int, m: Meter,
      f: Filter): set<DayKey> {
    set k | k in CountedRows(daily, from, to, m, f) && k !in KeysOf(c, window)
  }

  function LiveRows(c: Calendar, window: seq<Event>, m: Meter, f: Filter): set<DayKey> {
    set k | k in KeysOf(c, window) && RowCounted(k, m, f)
  }

  // Which events a counter should count: by the filter, and at organization level for api calls.
  predicate EventCounted(c: Calendar, e: Event, m: Meter, f: Filter) {
    RowCounted(KeyOf(c, e), m, f)
  }

  lemma RowsSplit(c: Calendar, daily: map<DayKey, int>, window: seq<Event>, from: int, to: int, m: Meter, f: Filter)
    requires forall i :: 0 <= i < |window| ==> OnDays(c, window[i], from, to)
    ensures CountedRows(DailyAfter(c, daily, window), from, to, m, f)
         == LiveRows(c, window, m, f) + StaleRows(c, daily, window, from, to, m, f)
    ensures LiveRows(c, window, m, f) !! StaleRows(c, daily, window, from, to, m, f)
  {
    hide RowCounted;
    forall k | k in KeysOf(c, window) ensures from <= k.day <= to {
      var i :| 0 <= i < |window| && KeyOf(c, window[i]) == k;
    }
  }

  // Main result for counters: the summary is the sum over counted events plus the stale rows, exactly.
  lemma CounterSummaryIsEventsPlusStale(c: Calendar, daily: map<DayKey, int>, window: seq<Event>, from: int, to: int,
                                        m: Meter, f: Filter, v: int)
    requires m != StorageBytes
    requires forall i :: 0 <= i < |window| ==> OnDays(c, window[i], from, to)
    requires IsSummary(DailyAfter(c, daily, window), from, to, m, f, v)
    ensures v == Sum(window, e => if EventCounted(c, e, m, f) then e.quantity else 0)
               + SumSet(StaleRows(c, daily, window, from, to, m, f), k => ValueOf(daily, k))
  {
    hide *;
    SummaryIsSum(DailyAfter(c, daily, window), from, to, m, f, v);
    var after := DailyAfter(c, daily, window);
    var live, stale := LiveRows(c, window, m, f), StaleRows(c, daily, window, from, to, m, f);
    var value := (k: DayKey) => ValueOf(after, k);
    var bucket := (k: DayKey) => Sum(window, e => QuantityUnder(c, e, k));
    RowsSplit(c, daily, window, from, to, m, f);
    SumSetUnion(live, stale, value);
    forall k | k in stale ensures value(k) == ValueOf(daily, k) { StaleRow(c, daily, window, from, to, m, f, k); }
    SumSetCongruence(stale, value, k => ValueOf(daily, k));
    forall k | k in live ensures value(k) == bucket(k) { LiveRow(c, daily, window, m, f, k); }
    SumSetCongruence(live, value, bucket);
    SumOverBuckets(c, window, live);
    LiveQuantities(c, window, live, m, f, |window|);
    assert window[..|window|] == window;
  }

  lemma SummaryIsSum(daily: map<DayKey, int>, from: int, to: int, m: Meter, f: Filter, v: int)
    requires m != StorageBytes && IsSummary(daily, from, to, m, f, v)
    ensures v == SumSet(CountedRows(daily, from, to, m, f), k => ValueOf(daily, k))
  {
  }

  lemma StaleRow(c: Calendar, daily: map<DayKey, int>, window: seq<Event>, from: int, to: int, m: Meter, f: Filter,
      k: DayKey)
    requires k in StaleRows(c, daily, window, from, to, m, f)
    ensures ValueOf(DailyAfter(c, daily, window), k) == ValueOf(daily, k)
  {
  }

  lemma LiveRow(c: Calendar, daily: map<DayKey, int>, window: seq<Event>, m: Meter, f: Filter, k: DayKey)
    requires m != StorageBytes && k in LiveRows(c, window, m, f)
    ensures ValueOf(DailyAfter(c, daily, window), k) == Sum(window, e => QuantityUnder(c, e, k))
  {
    hide DailyValue;
    GroupTotal(c, window, k);
  }

  lemma {:induction false} LiveQuantities(c: Calendar, window: seq<Event>, live: set<DayKey>, m: Meter, f: Filter,
      n: nat)
    requires n <= |window| && live == LiveRows(c, window, m, f)
    ensures Sum(window[..n], e => QuantityIn(c, e, live)) == Sum(window[..n], e => if EventCounted(c, e, m, f) then e.quantity else 0)
  {
    hide RowCounted, KeyOf;
    if n > 0 {
      LiveQuantities(c, window, live, m, f, n - 1);
      assert window[..n][..n - 1] == window[..n - 1];
      assert KeyOf(c, window[n - 1]) in KeysOf(c, window);
    }
  }

  // ----- the fold over events counts the same events -----

  // api_calls and storage_bytes carry no branch and no currency.
  predicate OrgLevel(e: Event) {
    !IsDocumentMeter(e.meter) ==> BranchKeyOf(e.branchId) == ORG_BRANCH_KEY && CurrencyKeyOf(e.currencyCode) == ORG_CURRENCY_KEY
  }

  // Events carry no placeholder branch, or the filter does not ask for it.
  predicate FilterFits(e: Event, f: Filter) {
    f.branchId == ORG_BRANCH_KEY ==> e.branchId != Some(ORG_BRANCH_KEY)
  }

  lemma EventCountedIsFold(c: Calendar, e: Event, m: Meter, f: Filter)
    requires OrgLevel(e) && FilterFits(e, f)
    ensures EventCounted(c, e, m, f) <==> Counted(ReadingOf(e), m, f)
  {
  }

  lemma {:induction false} FoldCountsEvents(c: Calendar, events: seq<Event>, m: Meter, f: Filter)
    requires m != StorageBytes
    requires forall i :: 0 <= i < |events| ==> OrgLevel(events[i]) && FilterFits(events[i], f)
    ensures Total(Readings(events), m, f) == Sum(events, e => if EventCounted(c, e, m, f) then e.quantity else 0)
  {
    hide OrgLevel, EventCounted, Counted, FilterFits;
    if events != [] {
      var n := |events| - 1;
      FoldCountsEvents(c, events[..n], m, f);
      EventCountedIsFold(c, events[n], m, f);
      assert Readings(events)[..n] == Readings(events[..n]);
    }
  }

  // After a rebuild a counter differs from the log by exactly its stale rows.
  lemma CounterDifference(c: Calendar, log: seq<Event>, fetched: seq<Event>, daily: map<DayKey, int>,
                          from: int, to: int, m: Meter, f: Filter, v: int)
    requires IsTimeZone(c) && m != StorageBytes
    requires multiset(fetched) == multiset(Filtered(log, e => Queried(e, from, to)))
    requires forall i :: 0 <= i < |log| ==> OrgLevel(log[i]) && FilterFits(log[i], f)
    requires IsSummary(DailyAfter(c, daily, Window(c, fetched, from, to)), from, to, m, f, v)
    ensures v - Total(Readings(Window(c, log, from, to)), m, f)
         == SumSet(StaleRows(c, daily, Window(c, fetched, from, to), from, to, m, f), k => ValueOf(daily, k))
  {
    hide Total, EventCounted, OrgLevel, FilterFits, StaleRows, DailyAfter, IsSummary, SumSet;
    var seen, window := Window(c, fetched, from, to), Window(c, log, from, to);
    WindowMembers(c, fetched, from, to);
    RebuildSeesWindow(c, log, fetched, from, to);
    CounterSummaryIsEventsPlusStale(c, daily, seen, from, to, m, f, v);
    SumPermutation(seen, window, e => if EventCounted(c, e, m, f) then e.quantity else 0);
    forall i | 0 <= i < |window| ensures OrgLevel(window[i]) && FilterFits(window[i], f) {
      FilteredFrom(log, e => OnDays(c, e, from, to), i);
    }
    FoldCountsEvents(c, window, m, f);
  }

  // With positive quantities stored a counter agrees with the log exactly when no counted row is stale.
  lemma CounterMatchesExactly(c: Calendar, log: seq<Event>, fetched: seq<Event>, daily: map<DayKey, int>,
                              from: int, to: int, m: Meter, f: Filter, v: int)
    requires IsTimeZone(c) && m != StorageBytes
    requires multiset(fetched) == multiset(Filtered(log, e => Queried(e, from, to)))
    requires forall i :: 0 <= i < |log| ==> OrgLevel(log[i]) && FilterFits(log[i], f)
    requires forall k :: k in daily && k.meter == m ==> daily[k] > 0
    requires IsSummary(DailyAfter(c, daily, Window(c, fetched, from, to)), from, to, m, f, v)
    ensures v == Total(Readings(Window(c, log, from, to)), m, f)
       <==> StaleRows(c, daily, Window(c, fetched, from, to), from, to, m, f) == {}
  {
    hide *;
    var stale := StaleRows(c, daily, Window(c, fetched, from, to), from, to, m, f);
    CounterDifference(c, log, fetched, daily, from, to, m, f, v);
    forall k | k in stale ensures ValueOf(daily, k) > 0 {
      StaleIsStored(c, daily, Window(c, fetched, from, to), from, to, m, f, k);
    }
    SumSetPositive(stale, k => ValueOf(daily, k));
  }

  lemma StaleIsStored(c: Calendar, daily: map<DayKey, int>, window: seq<Event>, from: int, to: int, m: Meter,
      f: Filter, k: DayKey)
    requires k in StaleRows(c, daily, window, from, to, m, f)
    ensures k in daily && k.meter == m && ValueOf(daily, k) == daily[k]
  {
  }

  // The nil branch is stored for events without one, but no summary finds them under it.
  lemma NilBranchFilterFindsNothing(daily: map<DayKey, int>, from: int, to: int, m: Meter, f: Filter, v: int)
    requires IsDocumentMeter(m) && f.branchId == ORG_BRANCH_KEY && IsSummary(daily, from, to, m, f, v)
    ensures v == 0
  {
    assert f.branchId != "" by { assert |ORG_BRANCH_KEY| == 36; }
    assert CountedRows(daily, from, to, m, f) == {};
  }
}
