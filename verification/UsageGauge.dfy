/** The storage gauge: the summary is the latest reading of the log unless a stale row lies on a later day. */
module UsageGauge {
  import opened SetSums
  import opened UsageAggregate
  import opened UsageRollup
  import opened UsageSummary
  import opened UsageAgreement

  lemma {:induction false} LatestIsGreatest(rs: seq<Reading>, m: Meter, f: Filter)
    ensures var latest := Latest(rs, m, f);
            && (latest.None? ==> forall i :: 0 <= i < |rs| ==> !Counted(rs[i], m, f))
            && (latest.Some? ==>
                  && latest.value in rs && Counted(latest.value, m, f)
                  && forall i :: 0 <= i < |rs| && Counted(rs[i], m, f) ==> rs[i].at <= latest.value.at)
  {
    hide Counted;
    if rs != [] { LatestIsGreatest(rs[..|rs| - 1], m, f); }
  }

  lemma {:induction false} FilteredMember(events: seq<Event>, p: Event -> bool, e: Event)
    ensures e in Filtered(events, p) <==> e in events && p(e)
  {
    if events != [] {
      var n := |events| - 1;
      FilteredMember(events[..n], p, e);
      assert events == events[..n] + [events[n]];
    }
  }

  predicate Gauge(e: Event) {
    e.meter == StorageBytes
  }

  // The row of a day with gauge events holds the value of one with the greatest instant of that day.
  lemma GaugeValue(c: Calendar, events: seq<Event>, k: DayKey) returns (e: Event)
    requires k.meter == StorageBytes && k in KeysOf(c, events)
    ensures e in events && KeyOf(c, e) == k && DailyValue(c, events, k) == e.quantity
    ensures forall x :: x in events && KeyOf(c, x) == k ==> x.occurredAt <= e.occurredAt
  {
    var group := Group(c, events, k);
    var p := (x: Event) => KeyOf(c, x) == k;
    var rs := Readings(group);
    var i :| 0 <= i < |events| && KeyOf(c, events[i]) == k;
    FilteredMember(events, p, events[i]);
    var g :| 0 <= g < |group| && group[g] == events[i];
    LatestIsGreatest(rs, StorageBytes, NO_FILTER);
    assert Counted(rs[g], StorageBytes, NO_FILTER);
    var j :| 0 <= j < |rs| && rs[j] == Latest(rs, StorageBytes, NO_FILTER).value;
    e := group[j];
    FilteredMember(events, p, e);
    forall x | x in events && KeyOf(c, x) == k ensures x.occurredAt <= e.occurredAt {
      FilteredMember(events, p, x);
      var h :| 0 <= h < |group| && group[h] == x;
      assert Counted(rs[h], StorageBytes, NO_FILTER) && rs[h].at == x.occurredAt;
    }
  }

  predicate SameInstant(a: Event, b: Event) {
    Gauge(a) && Gauge(b) && a.occurredAt == b.occurredAt
  }

  // Gauge events of one instant carry one value.
  predicate DistinctInstants(events: seq<Event>) {
    forall i, j :: 0 <= i < |events| && 0 <= j < |events| && SameInstant(events[i], events[j]) ==>
      events[i].quantity == events[j].quantity
  }

  // The direct fold reports the value of any gauge event with the greatest instant.
  lemma DirectGauge(window: seq<Event>, f: Filter, e: Event)
    requires DistinctInstants(window) && e in window && Gauge(e)
    requires forall x :: x in window && Gauge(x) ==> x.occurredAt <= e.occurredAt
    ensures Total(Readings(window), StorageBytes, f) == e.quantity
  {
    var rs := Readings(window);
    LatestIsGreatest(rs, StorageBytes, f);
    var i :| 0 <= i < |window| && window[i] == e;
    assert Counted(rs[i], StorageBytes, f) && rs[i].at == e.occurredAt;
    var j :| 0 <= j < |rs| && rs[j] == Latest(rs, StorageBytes, f).value;
    assert Gauge(window[j]) && window[j] in window;
  }

  lemma NoGauge(window: seq<Event>, f: Filter)
    requires forall x :: x in window ==> !Gauge(x)
    ensures Total(Readings(window), StorageBytes, f) == 0
  {
    var rs := Readings(window);
    LatestIsGreatest(rs, StorageBytes, f);
    if Latest(rs, StorageBytes, f).Some? {
      var j :| 0 <= j < |rs| && rs[j] == Latest(rs, StorageBytes, f).value;
      assert Gauge(window[j]);
      assert false;
    }
  }

  // Every stale gauge row lies on or before the day of some gauge event of the window.
  ghost predicate StaleNotLater(c: Calendar, window: seq<Event>, stale: set<DayKey>) {
    forall k :: k in stale ==> exists e :: e in window && Gauge(e) && k.day <= c.dayOf(e.occurredAt)
  }

  lemma GaugeRow(c: Calendar, e: Event, f: Filter)
    requires Gauge(e) && OrgLevel(e)
    ensures RowCounted(KeyOf(c, e), StorageBytes, f)
  {
  }

  lemma GaugeRowsOfOneDay(k: DayKey, x: DayKey, f: Filter)
    requires RowCounted(k, StorageBytes, f) && RowCounted(x, StorageBytes, f) && k.day == x.day
    ensures k == x
  {
  }

  // A row of the last day of some rows; for the gauge a day has one.
  predicate LastOf(k: DayKey, rows: set<DayKey>) {
    k in rows && forall x :: x in rows ==> x.day <= k.day
  }

  lemma LastOfMeans(k: DayKey, rows: set<DayKey>)
    requires k in rows && forall x :: x in rows ==> x.day <= k.day
    ensures LastOf(k, rows)
  {
  }

  // Main result for the gauge, for every order in which the rebuild saw the events.
  lemma GaugeSummary(c: Calendar, daily: map<DayKey, int>, seen: seq<Event>, window: seq<Event>,
                     from: int, to: int, f: Filter, v: int)
    requires IsTimeZone(c) && multiset(seen) == multiset(window) && DistinctInstants(window)
    requires forall i :: 0 <= i < |seen| ==> OnDays(c, seen[i], from, to) && OrgLevel(seen[i])
    requires IsSummary(DailyAfter(c, daily, seen), from, to, StorageBytes, f, v)
    ensures var stale := StaleRows(c, daily, seen, from, to, StorageBytes, f);
            if StaleNotLater(c, seen, stale) then v == Total(Readings(window), StorageBytes, f)
            else exists k :: LastOf(k, stale) && v == ValueOf(daily, k)
  {
    hide *;
    var after := DailyAfter(c, daily, seen);
    var stale := StaleRows(c, daily, seen, from, to, StorageBytes, f);
    var live := LiveRows(c, seen, StorageBytes, f);
    SeenDays(c, seen, from, to);
    RowsSplit(c, daily, seen, from, to, StorageBytes, f);
    forall e | e in seen && Gauge(e) ensures KeyOf(c, e) in live { SeenGauge(c, seen, e, f); }
    SameMembers(seen, window);
    if live + stale == {} {
      forall x | x in window ensures !Gauge(x) {
        if Gauge(x) { assert false; }
      }
      NoGauge(window, f);
      SummaryOfNothing(after, from, to, f, v);
      assert StaleNotLater(c, seen, stale) by { StaleNoneNotLater(c, seen, stale); }
    } else {
      var k := SummaryRow(after, from, to, f, v);
      if k in live {
        LiveGaugeWins(c, seen, window, f, k);
        LiveGaugeRow(c, daily, seen, f, k);
        LiveCoversStale(c, seen, live, stale, k, f);
      } else {
        StaleRow(c, daily, seen, from, to, StorageBytes, f, k);
        StaleWins(c, daily, seen, from, to, f, k);
        LastOfMeans(k, stale);
      }
    }
  }

  lemma SeenDays(c: Calendar, seen: seq<Event>, from: int, to: int)
    requires forall i :: 0 <= i < |seen| ==> OnDays(c, seen[i], from, to) && OrgLevel(seen[i])
    ensures forall i :: 0 <= i < |seen| ==> OnDays(c, seen[i], from, to)
    ensures forall i :: 0 <= i < |seen| ==> OrgLevel(seen[i])
  {
  }

  lemma SameMembers(seen: seq<Event>, window: seq<Event>)
    requires multiset(seen) == multiset(window)
    ensures forall e :: e in window <==> e in seen
  {
    forall e ensures e in window <==> e in seen { assert e in multiset(window) <==> e in multiset(seen); }
  }

  lemma SummaryOfNothing(daily: map<DayKey, int>, from: int, to: int, f: Filter, v: int)
    requires IsSummary(daily, from, to, StorageBytes, f, v) && CountedRows(daily, from, to, StorageBytes, f) == {}
    ensures v == 0
  {
  }

  lemma SummaryRow(daily: map<DayKey, int>, from: int, to: int, f: Filter, v: int) returns (k: DayKey)
    requires IsSummary(daily, from, to, StorageBytes, f, v) && CountedRows(daily, from, to, StorageBytes, f) != {}
    ensures k in CountedRows(daily, from, to, StorageBytes, f) && v == ValueOf(daily, k)
    ensures forall x :: x in CountedRows(daily, from, to, StorageBytes, f) ==> x.day <= k.day
  {
    k :| k in CountedRows(daily, from, to, StorageBytes, f) && v == daily[k]
         && forall x: DayKey :: x in CountedRows(daily, from, to, StorageBytes, f) ==> x.day <= k.day;
  }

  lemma StaleNoneNotLater(c: Calendar, seen: seq<Event>, stale: set<DayKey>)
    requires stale == {}
    ensures StaleNotLater(c, seen, stale)
  {
  }

  lemma LiveGaugeRow(c: Calendar, daily: map<DayKey, int>, seen: seq<Event>, f: Filter, k: DayKey)
    requires k in LiveRows(c, seen, StorageBytes, f)
    ensures ValueOf(DailyAfter(c, daily, seen), k) == DailyValue(c, seen, k)
  {
    hide RowCounted, DailyValue, KeysOf;
  }

  lemma LiveCoversStale(c: Calendar, seen: seq<Event>, live: set<DayKey>, stale: set<DayKey>, k: DayKey, f: Filter)
    requires live == LiveRows(c, seen, StorageBytes, f) && k in live
    requires forall x :: x in live + stale ==> x.day <= k.day
    ensures StaleNotLater(c, seen, stale)
  {
    hide DailyValue;
    RowOfMeter(k, f);
    var e := GaugeValue(c, seen, k);
  }

  // A stale row of the last day is later than every gauge event.
  lemma StaleWins(c: Calendar, daily: map<DayKey, int>, seen: seq<Event>, from: int, to: int, f: Filter, k: DayKey)
    requires k in StaleRows(c, daily, seen, from, to, StorageBytes, f)
    requires forall i :: 0 <= i < |seen| ==> OrgLevel(seen[i])
    requires forall x :: x in LiveRows(c, seen, StorageBytes, f) + StaleRows(c, daily, seen, from, to, StorageBytes, f)
                         ==> x.day <= k.day
    ensures !StaleNotLater(c, seen, StaleRows(c, daily, seen, from, to, StorageBytes, f))
    ensures k in daily && ValueOf(daily, k) == daily[k]
  {
    hide RowCounted, OrgLevel;
    forall e | e in seen && Gauge(e) && k.day <= c.dayOf(e.occurredAt) ensures false {
      SeenGauge(c, seen, e, f);
      GaugeRowsOfOneDay(k, KeyOf(c, e), f);
    }
  }

  lemma SeenGauge(c: Calendar, seen: seq<Event>, e: Event, f: Filter)
    requires e in seen && Gauge(e) && forall i :: 0 <= i < |seen| ==> OrgLevel(seen[i])
    ensures KeyOf(c, e) in LiveRows(c, seen, StorageBytes, f) && OrgLevel(e)
  {
    hide OrgLevel, RowCounted, KeyOf;
    var i :| 0 <= i < |seen| && seen[i] == e;
    GaugeRow(c, e, f);
  }

  // The live row of the last day holds the latest reading of the whole window.
  lemma LiveGaugeWins(c: Calendar, seen: seq<Event>, window: seq<Event>, f: Filter, k: DayKey)
    requires IsTimeZone(c) && DistinctInstants(window) && k in LiveRows(c, seen, StorageBytes, f)
    requires forall e :: e in window <==> e in seen
    requires forall e :: e in seen && Gauge(e) ==> KeyOf(c, e) in LiveRows(c, seen, StorageBytes, f)
    requires forall x :: x in LiveRows(c, seen, StorageBytes, f) ==> x.day <= k.day
    ensures DailyValue(c, seen, k) == Total(Readings(window), StorageBytes, f)
  {
    hide RowCounted, Total, DailyValue;
    assert k.meter == StorageBytes by { RowOfMeter(k, f); }
    var e := GaugeValue(c, seen, k);
    forall x | x in window && Gauge(x) ensures x.occurredAt <= e.occurredAt {
      var key := KeyOf(c, x);
      assert key in LiveRows(c, seen, StorageBytes, f);
      if key.day == k.day {
        GaugeRowsOfOneDay(k, key, f);
      } else if e.occurredAt <= x.occurredAt {
        assert false;
      }
    }
    DirectGauge(window, f, e);
  }

  lemma RowOfMeter(k: DayKey, f: Filter)
    requires RowCounted(k, StorageBytes, f)
    ensures k.meter == StorageBytes
  {
  }

  // ----- the accuracy gate -----

  // No row of the window is left without an event, for any meter.
  predicate NothingStale(c: Calendar, daily: map<DayKey, int>, seen: seq<Event>, from: int, to: int) {
    forall k :: k in daily && from <= k.day <= to ==> k in KeysOf(c, seen)
  }

  // Main result: with nothing stale every meter of the summary equals the fold over the log's window.
  lemma AccuracyCompareMatches(c: Calendar, log: seq<Event>, fetched: seq<Event>, daily: map<DayKey, int>,
                               from: int, to: int, m: Meter, f: Filter, v: int)
    requires IsTimeZone(c)
    requires multiset(fetched) == multiset(Filtered(log, e => Queried(e, from, to)))
    requires DistinctInstants(Window(c, log, from, to))
    requires forall i :: 0 <= i < |log| ==> OrgLevel(log[i]) && FilterFits(log[i], f)
    requires NothingStale(c, daily, Window(c, fetched, from, to), from, to)
    requires IsSummary(DailyAfter(c, daily, Window(c, fetched, from, to)), from, to, m, f, v)
    ensures v == Total(Readings(Window(c, log, from, to)), m, f)
  {
    hide *;
    var seen := Window(c, fetched, from, to);
    var stale := StaleRows(c, daily, seen, from, to, m, f);
    NothingStaleMeansNone(c, daily, seen, from, to, m, f);
    if m != StorageBytes {
      CounterDifference(c, log, fetched, daily, from, to, m, f, v);
      SumSetZero(stale, k => ValueOf(daily, k));
    } else {
      RebuiltGauge(c, log, fetched, daily, from, to, f, v);
      StaleNoneNotLater(c, seen, stale);
    }
  }

  // The gauge after a rebuild of the log's window.
  lemma RebuiltGauge(c: Calendar, log: seq<Event>, fetched: seq<Event>, daily: map<DayKey, int>,
                     from: int, to: int, f: Filter, v: int)
    requires IsTimeZone(c)
    requires multiset(fetched) == multiset(Filtered(log, e => Queried(e, from, to)))
    requires DistinctInstants(Window(c, log, from, to))
    requires forall i :: 0 <= i < |log| ==> OrgLevel(log[i])
    requires IsSummary(DailyAfter(c, daily, Window(c, fetched, from, to)), from, to, StorageBytes, f, v)
    ensures var seen := Window(c, fetched, from, to);
            var stale := StaleRows(c, daily, seen, from, to, StorageBytes, f);
            if StaleNotLater(c, seen, stale) then v == Total(Readings(Window(c, log, from, to)), StorageBytes, f)
            else exists k :: LastOf(k, stale) && v == ValueOf(daily, k)
  {
    hide *;
    var seen, window := Window(c, fetched, from, to), Window(c, log, from, to);
    var stale := StaleRows(c, daily, seen, from, to, StorageBytes, f);
    RebuildSeesWindow(c, log, fetched, from, to);
    WindowMembers(c, fetched, from, to);
    SameMembers(seen, window);
    WindowIsOrgLevel(c, log, from, to);
    forall i | 0 <= i < |seen| ensures OrgLevel(seen[i]) {
      assert seen[i] in window;
    }
    GaugeSummary(c, daily, seen, window, from, to, f, v);
  }

  lemma OneLastRow(c: Calendar, daily: map<DayKey, int>, seen: seq<Event>, from: int, to: int, f: Filter, k: DayKey, x: DayKey)
    requires var stale := StaleRows(c, daily, seen, from, to, StorageBytes, f); LastOf(k, stale) && LastOf(x, stale)
    ensures k == x
  {
    hide RowCounted;
    GaugeRowsOfOneDay(k, x, f);
  }

  // The gauge is not disturbed by stale rows: they are not later than the log, or the last one says what the log says.
  ghost predicate GaugeUndisturbed(c: Calendar, daily: map<DayKey, int>, seen: seq<Event>, window: seq<Event>,
                                   from: int, to: int, f: Filter)
  {
    var stale := StaleRows(c, daily, seen, from, to, StorageBytes, f);
    || StaleNotLater(c, seen, stale)
    || forall k :: LastOf(k, stale) ==> ValueOf(daily, k) == Total(Readings(window), StorageBytes, f)
  }

  lemma GaugeMatchesExactly(c: Calendar, log: seq<Event>, fetched: seq<Event>, daily: map<DayKey, int>,
                            from: int, to: int, f: Filter, v: int)
    requires IsTimeZone(c)
    requires multiset(fetched) == multiset(Filtered(log, e => Queried(e, from, to)))
    requires DistinctInstants(Window(c, log, from, to))
    requires forall i :: 0 <= i < |log| ==> OrgLevel(log[i])
    requires IsSummary(DailyAfter(c, daily, Window(c, fetched, from, to)), from, to, StorageBytes, f, v)
    ensures v == Total(Readings(Window(c, log, from, to)), StorageBytes, f)
       <==> GaugeUndisturbed(c, daily, Window(c, fetched, from, to), Window(c, log, from, to), from, to, f)
  {
    hide *;
    RebuiltGauge(c, log, fetched, daily, from, to, f, v);
    var seen := Window(c, fetched, from, to);
    var stale := StaleRows(c, daily, seen, from, to, StorageBytes, f);
    if !StaleNotLater(c, seen, stale) {
      var k :| LastOf(k, stale) && v == ValueOf(daily, k);
      forall x | LastOf(x, stale) ensures x == k { OneLastRow(c, daily, seen, from, to, f, x, k); }
      DisturbedBy(c, daily, seen, Window(c, log, from, to), from, to, f, k);
    } else {
      Undisturbed(c, daily, seen, Window(c, log, from, to), from, to, f);
    }
  }

  lemma DisturbedBy(c: Calendar, daily: map<DayKey, int>, seen: seq<Event>, window: seq<Event>, from: int, to: int,
                    f: Filter, k: DayKey)
    requires var stale := StaleRows(c, daily, seen, from, to, StorageBytes, f);
             !StaleNotLater(c, seen, stale) && LastOf(k, stale) && forall x :: LastOf(x, stale) ==> x == k
    ensures GaugeUndisturbed(c, daily, seen, window, from, to, f)
       <==> ValueOf(daily, k) == Total(Readings(window), StorageBytes, f)
  {
    hide StaleNotLater, StaleRows, LastOf, Total;
  }

  lemma Undisturbed(c: Calendar, daily: map<DayKey, int>, seen: seq<Event>, window: seq<Event>, from: int, to: int, f: Filter)
    requires StaleNotLater(c, seen, StaleRows(c, daily, seen, from, to, StorageBytes, f))
    ensures GaugeUndisturbed(c, daily, seen, window, from, to, f)
  {
    hide StaleNotLater, StaleRows, LastOf, Total;
  }

  // No counter of a summary counts a stale row.
  ghost predicate NoCounterStale(c: Calendar, daily: map<DayKey, int>, seen: seq<Event>, from: int, to: int, f: Filter) {
    forall m: Meter :: m != StorageBytes ==> StaleRows(c, daily, seen, from, to, m, f) == {}
  }

  /**
   The accuracy gate passes, all meters together, exactly when no counter counts a stale row and the gauge is not
   disturbed by one.
   */
  lemma AccuracyMatchesExactly(c: Calendar, log: seq<Event>, fetched: seq<Event>, daily: map<DayKey, int>,
                               from: int, to: int, f: Filter, totals: map<Meter, int>)
    requires IsTimeZone(c)
    requires multiset(fetched) == multiset(Filtered(log, e => Queried(e, from, to)))
    requires DistinctInstants(Window(c, log, from, to))
    requires forall i :: 0 <= i < |log| ==> OrgLevel(log[i]) && FilterFits(log[i], f)
    requires forall k :: k in daily && k.meter != StorageBytes ==> daily[k] > 0
    requires forall m :: m in totals && IsSummary(DailyAfter(c, daily, Window(c, fetched, from, to)), from, to, m, f, totals[m])
    ensures (forall m :: m in totals && totals[m] == Total(Readings(Window(c, log, from, to)), m, f))
       <==> NoCounterStale(c, daily, Window(c, fetched, from, to), from, to, f)
            && GaugeUndisturbed(c, daily, Window(c, fetched, from, to), Window(c, log, from, to), from, to, f)
  {
    hide OrgLevel, FilterFits, GaugeUndisturbed, StaleRows, Total, IsSummary, DailyAfter, IsTimeZone, Window, DistinctInstants,
         Readings;
    forall m: Meter | m != StorageBytes
      ensures totals[m] == Total(Readings(Window(c, log, from, to)), m, f)
         <==> StaleRows(c, daily, Window(c, fetched, from, to), from, to, m, f) == {}
    {
      CounterMatchesExactly(c, log, fetched, daily, from, to, m, f, totals[m]);
    }
    GaugeMatchesExactly(c, log, fetched, daily, from, to, f, totals[StorageBytes]);
  }

  lemma NothingStaleMeansNone(c: Calendar, daily: map<DayKey, int>, seen: seq<Event>, from: int, to: int, m: Meter,
      f: Filter)
    requires NothingStale(c, daily, seen, from, to)
    ensures StaleRows(c, daily, seen, from, to, m, f) == {}
  {
    hide RowCounted, KeysOf;
  }

  lemma WindowIsOrgLevel(c: Calendar, log: seq<Event>, from: int, to: int)
    requires forall i :: 0 <= i < |log| ==> OrgLevel(log[i])
    ensures forall e :: e in Window(c, log, from, to) ==> OrgLevel(e)
  {
    hide OrgLevel, OnDays;
    forall e | e in Window(c, log, from, to) ensures OrgLevel(e) {
      FilteredMember(log, x => OnDays(c, x, from, to), e);
    }
  }
}
