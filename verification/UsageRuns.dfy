/** The rollup tables over whole runs: monthly against daily, repeated rebuilds, and where stale rows come from. */
module UsageRuns {
  import opened Wrappers
  import opened Sums
  import opened SetSums
  import opened UsageAggregate
  import opened UsageRollup
  import opened UsageSummary
  import opened UsageAgreement
  import opened UsageGauge

  datatype Tables = Tables(events: seq<Event>, daily: map<DayKey, int>, monthly: map<MonthKey, int>)

  const EMPTY := Tables([], map[], map[])

  // ----- monthly rows follow daily rows -----

  // A monthly row exists exactly when a daily row of its month and key does, and has their value.
  ghost predicate MonthlyFollowsDaily(c: Calendar, daily: map<DayKey, int>, monthly: map<MonthKey, int>) {
    && (forall m :: m in monthly <==> m in MonthKeysOf(c, daily))
    && (forall m :: m in monthly ==> IsMonthlyValue(c, daily, m, monthly[m]))
  }

  lemma MonthlyValueIsUnique(c: Calendar, daily: map<DayKey, int>, m: MonthKey, v: int, w: int)
    requires IsMonthlyValue(c, daily, m, v) && IsMonthlyValue(c, daily, m, w)
    ensures v == w
  {
    if m.meter == StorageBytes {
      var rows := RowsOfMonth(c, daily, m);
      var j :| j in rows && v == daily[j] && forall x: DayKey :: x in rows ==> x.day <= j.day;
      var k :| k in rows && w == daily[k] && forall x: DayKey :: x in rows ==> x.day <= k.day;
      assert j == k;
    }
  }

  lemma UntouchedMonth(c: Calendar, daily: map<DayKey, int>, window: seq<Event>, m: MonthKey)
    requires m.month !in MonthsOf(c, window)
    ensures RowsOfMonth(c, DailyAfter(c, daily, window), m) == RowsOfMonth(c, daily, m)
    ensures forall k :: k in RowsOfMonth(c, daily, m) ==> DailyAfter(c, daily, window)[k] == daily[k]
    ensures m in MonthKeysOf(c, DailyAfter(c, daily, window)) <==> m in MonthKeysOf(c, daily)
  {
    hide DailyValue;
    var after := DailyAfter(c, daily, window);
    forall k | k in KeysOf(c, window) ensures MonthKeyOf(c, k) != m {
      var i :| 0 <= i < |window| && KeyOf(c, window[i]) == k;
      assert c.monthOf(c.dayOf(window[i].occurredAt)) in MonthsOf(c, window);
    }
    if m in MonthKeysOf(c, after) {
      var k :| k in after && MonthKeyOf(c, k) == m;
      assert k in daily;
    }
    if m in MonthKeysOf(c, daily) {
      var k :| k in daily && MonthKeyOf(c, k) == m;
      assert k in after;
    }
  }

  lemma UntouchedValue(c: Calendar, daily: map<DayKey, int>, window: seq<Event>, m: MonthKey, v: int)
    requires m.month !in MonthsOf(c, window) && IsMonthlyValue(c, daily, m, v)
    ensures IsMonthlyValue(c, DailyAfter(c, daily, window), m, v)
  {
    hide DailyAfter, MonthKeysOf, MonthsOf, MonthKeyOf;
    var after, rows := DailyAfter(c, daily, window), RowsOfMonth(c, daily, m);
    UntouchedMonth(c, daily, window, m);
    if m.meter != StorageBytes {
      SumSetCongruence(rows, k => if k in daily then daily[k] else 0, k => if k in after then after[k] else 0);
    } else {
      var k :| k in rows && v == daily[k] && forall x: DayKey :: x in rows ==> x.day <= k.day;
      assert after[k] == v;
    }
  }

  lemma RebuildKeepsMonthly(c: Calendar, daily: map<DayKey, int>, monthly: map<MonthKey, int>, window: seq<Event>,
                            after: map<MonthKey, int>)
    requires MonthlyFollowsDaily(c, daily, monthly)
    requires IsMonthlyAfter(c, monthly, DailyAfter(c, daily, window), MonthsOf(c, window), after)
    ensures MonthlyFollowsDaily(c, DailyAfter(c, daily, window), after)
  {
    hide DailyAfter, MonthKeysOf, MonthsOf, IsMonthlyValue;
    var newDaily := DailyAfter(c, daily, window);
    forall m ensures m in after <==> m in MonthKeysOf(c, newDaily) {
      MonthKeysGrow(c, daily, window, m);
      if m.month !in MonthsOf(c, window) { UntouchedMonth(c, daily, window, m); }
    }
    forall m | m in after ensures IsMonthlyValue(c, newDaily, m, after[m]) {
      if m.month !in MonthsOf(c, window) { UntouchedValue(c, daily, window, m, monthly[m]); }
    }
  }

  lemma MonthKeysGrow(c: Calendar, daily: map<DayKey, int>, window: seq<Event>, m: MonthKey)
    ensures m in MonthKeysOf(c, daily) ==> m in MonthKeysOf(c, DailyAfter(c, daily, window))
  {
    hide DailyValue;
    if m in MonthKeysOf(c, daily) {
      var k :| k in daily && MonthKeyOf(c, k) == m;
      assert k in DailyAfter(c, daily, window);
    }
  }

  // A step changes the log in any way, or rebuilds some range from it, seeing its events in any order.
  ghost predicate RebuildStep(c: Calendar, s: Tables, from: int, to: int, fetched: seq<Event>, t: Tables) {
    var window := Window(c, fetched, from, to);
    && multiset(fetched) == multiset(Filtered(s.events, e => Queried(e, from, to)))
    && t.events == s.events
    && t.daily == DailyAfter(c, s.daily, window)
    && IsMonthlyAfter(c, s.monthly, t.daily, MonthsOf(c, window), t.monthly)
  }

  ghost predicate Step(c: Calendar, s: Tables, t: Tables) {
    || (t.daily == s.daily && t.monthly == s.monthly)
    || exists from, to, fetched :: RebuildStep(c, s, from, to, fetched, t)
  }

  ghost predicate Run(c: Calendar, states: seq<Tables>) {
    && states != [] && states[0] == EMPTY
    && forall i :: 0 <= i < |states| - 1 ==> Step(c, states[i], states[i + 1])
  }

  // Main result: in every state of every run from empty tables the monthly rows follow the daily rows.
  lemma {:induction false} RunsKeepMonthly(c: Calendar, states: seq<Tables>, i: nat)
    requires Run(c, states) && i < |states|
    ensures MonthlyFollowsDaily(c, states[i].daily, states[i].monthly)
  {
    if i == 0 {
      assert MonthKeysOf(c, map[]) == {};
    } else {
      hide MonthlyFollowsDaily, IsMonthlyAfter, DailyAfter;
      RunsKeepMonthly(c, states, i - 1);
      var s, t := states[i - 1], states[i];
      assert Step(c, s, t);
      if !(t.daily == s.daily && t.monthly == s.monthly) {
        var from, to, fetched :| RebuildStep(c, s, from, to, fetched, t);
        RebuildKeepsMonthly(c, s.daily, s.monthly, Window(c, fetched, from, to), t.monthly);
      }
    }
  }

  // ----- rebuilding again -----

  lemma DailyValueIgnoresOrder(c: Calendar, a: seq<Event>, b: seq<Event>, k: DayKey)
    requires multiset(a) == multiset(b) && DistinctInstants(a)
    requires k in KeysOf(c, a) && k in KeysOf(c, b)
    ensures DailyValue(c, a, k) == DailyValue(c, b, k)
  {
    hide KeyOf, DailyValue;
    if k.meter != StorageBytes {
      GroupTotal(c, a, k);
      GroupTotal(c, b, k);
      SumPermutation(a, b, e => QuantityUnder(c, e, k));
    } else {
      var x := GaugeValue(c, a, k);
      var y := GaugeValue(c, b, k);
      SameMembers(a, b);
      GaugeOfKey(c, x, k);
      GaugeOfKey(c, y, k);
      var i :| 0 <= i < |a| && a[i] == x;
      var j :| 0 <= j < |a| && a[j] == y;
      assert SameInstant(a[i], a[j]);
    }
  }

  lemma GaugeOfKey(c: Calendar, e: Event, k: DayKey)
    requires KeyOf(c, e) == k && k.meter == StorageBytes
    ensures Gauge(e)
  {
  }

  lemma KeysIgnoreOrder(c: Calendar, a: seq<Event>, b: seq<Event>)
    requires multiset(a) == multiset(b)
    ensures KeysOf(c, a) == KeysOf(c, b) && MonthsOf(c, a) == MonthsOf(c, b)
  {
    SameMembers(a, b);
    forall k ensures k in KeysOf(c, a) <==> k in KeysOf(c, b) {
      if k in KeysOf(c, a) {
        var i :| 0 <= i < |a| && KeyOf(c, a[i]) == k;
        assert a[i] in b;
        var j :| 0 <= j < |b| && b[j] == a[i];
      }
      if k in KeysOf(c, b) {
        var i :| 0 <= i < |b| && KeyOf(c, b[i]) == k;
        assert b[i] in a;
        var j :| 0 <= j < |a| && a[j] == b[i];
      }
    }
    MonthsOfKeys(c, a);
    MonthsOfKeys(c, b);
  }

  lemma DailyAfterTwice(c: Calendar, daily: map<DayKey, int>, a: seq<Event>, b: seq<Event>)
    requires multiset(a) == multiset(b) && DistinctInstants(a)
    ensures DailyAfter(c, DailyAfter(c, daily, a), b) == DailyAfter(c, daily, a)
  {
    hide KeysOf, DailyValue, DistinctInstants;
    KeysIgnoreOrder(c, a, b);
    forall k | k in KeysOf(c, a) ensures DailyValue(c, a, k) == DailyValue(c, b, k) {
      DailyValueIgnoresOrder(c, a, b, k);
    }
  }

  // Main result: rebuilding the same range again from the same log changes nothing, in any query order.
  lemma RebuildIsIdempotent(c: Calendar, s: Tables, from: int, to: int, first: seq<Event>, t: Tables,
      second: seq<Event>, u: Tables)
    requires RebuildStep(c, s, from, to, first, t) && RebuildStep(c, t, from, to, second, u)
    requires DistinctInstants(Window(c, first, from, to))
    ensures u == t
  {
    hide Window, DailyAfter, MonthsOf, MonthKeysOf, IsMonthlyValue, Filtered, DistinctInstants;
    var a, b := Window(c, first, from, to), Window(c, second, from, to);
    PermutedWindow(c, first, second, from, to);
    DailyAfterTwice(c, s.daily, a, b);
    KeysIgnoreOrder(c, a, b);
    assert u.daily == t.daily;
    forall m ensures m in u.monthly <==> m in t.monthly {}
    forall m | m in t.monthly ensures u.monthly[m] == t.monthly[m] {
      if m in MonthKeysOf(c, t.daily) && m.month in MonthsOf(c, a) {
        MonthlyValueIsUnique(c, t.daily, m, u.monthly[m], t.monthly[m]);
      }
    }
    assert u.monthly == t.monthly;
  }

  // ----- positive counters -----

  predicate PositiveEvents(events: seq<Event>, m: Meter) {
    forall i :: 0 <= i < |events| && events[i].meter == m ==> events[i].quantity > 0
  }

  predicate PositiveRows(daily: map<DayKey, int>, m: Meter) {
    forall k :: k in daily && k.meter == m ==> daily[k] > 0
  }

  lemma {:induction false} PositiveSum(rs: seq<Reading>, m: Meter)
    requires m != StorageBytes && forall i :: 0 <= i < |rs| ==> rs[i].meter == m && rs[i].quantity > 0
    ensures Total(rs, m, NO_FILTER) >= |rs|
    decreases |rs|
  {
    if rs != [] {
      PositiveSum(rs[..|rs| - 1], m);
      assert Counted(rs[|rs| - 1], m, NO_FILTER);
    }
  }

  lemma GroupIsPositive(c: Calendar, window: seq<Event>, k: DayKey)
    requires k.meter != StorageBytes && k in KeysOf(c, window) && PositiveEvents(window, k.meter)
    ensures DailyValue(c, window, k) > 0
  {
    var p := (e: Event) => KeyOf(c, e) == k;
    var group := Group(c, window, k);
    var i :| 0 <= i < |window| && KeyOf(c, window[i]) == k;
    FilteredMember(window, p, window[i]);
    assert group != [];
    forall j | 0 <= j < |group| ensures Readings(group)[j].meter == k.meter && Readings(group)[j].quantity > 0 {
      FilteredMember(window, p, group[j]);
      var n :| 0 <= n < |window| && window[n] == group[j];
    }
    PositiveSum(Readings(group), k.meter);
  }

  lemma WindowIsPositive(c: Calendar, events: seq<Event>, from: int, to: int, fetched: seq<Event>, m: Meter)
    requires PositiveEvents(events, m) && multiset(fetched) == multiset(Filtered(events, e => Queried(e, from, to)))
    ensures PositiveEvents(Window(c, fetched, from, to), m)
  {
    var window := Window(c, fetched, from, to);
    forall i | 0 <= i < |window| && window[i].meter == m ensures window[i].quantity > 0 {
      var queried := Filtered(events, e => Queried(e, from, to));
      FilteredMember(fetched, e => OnDays(c, e, from, to), window[i]);
      assert window[i] in multiset(queried);
      FilteredMember(events, e => Queried(e, from, to), window[i]);
      var j :| 0 <= j < |events| && events[j] == window[i];
    }
  }

  lemma RebuildKeepsPositive(c: Calendar, s: Tables, from: int, to: int, fetched: seq<Event>, t: Tables, m: Meter)
    requires m != StorageBytes && RebuildStep(c, s, from, to, fetched, t)
    requires PositiveRows(s.daily, m) && PositiveEvents(s.events, m)
    ensures PositiveRows(t.daily, m)
  {
    hide DailyValue, IsMonthlyAfter, PositiveEvents;
    var window := Window(c, fetched, from, to);
    WindowIsPositive(c, s.events, from, to, fetched, m);
    forall k | k in t.daily && k.meter == m ensures t.daily[k] > 0 {
      if k in KeysOf(c, window) { GroupIsPositive(c, window, k); }
    }
  }

  // In every run whose logs hold positive quantities of a counter, so do its daily rows.
  lemma {:induction false} RunsKeepPositive(c: Calendar, states: seq<Tables>, i: nat, m: Meter)
    requires m != StorageBytes && Run(c, states) && i < |states|
    requires forall j :: 0 <= j < |states| ==> PositiveEvents(states[j].events, m)
    ensures PositiveRows(states[i].daily, m)
    decreases i
  {
    if i > 0 {
      hide DailyAfter, PositiveEvents, PositiveRows, IsMonthlyAfter;
      RunsKeepPositive(c, states, i - 1, m);
      var s, t := states[i - 1], states[i];
      assert Step(c, s, t);
      if !(t.daily == s.daily && t.monthly == s.monthly) {
        var from, to, fetched :| RebuildStep(c, s, from, to, fetched, t);
        RebuildKeepsPositive(c, s, from, to, fetched, t, m);
      }
    }
  }

  /** In every run on positive quantities a rebuilt counter agrees with the log exactly when no counted row is stale. */
  lemma RunsMatchExactly(c: Calendar, states: seq<Tables>, i: nat, fetched: seq<Event>, from: int, to: int,
                         m: Meter, f: Filter, v: int)
    requires IsTimeZone(c) && m != StorageBytes && Run(c, states) && i < |states|
    requires forall j :: 0 <= j < |states| ==> PositiveEvents(states[j].events, m)
    requires multiset(fetched) == multiset(Filtered(states[i].events, e => Queried(e, from, to)))
    requires forall j :: 0 <= j < |states[i].events| ==> OrgLevel(states[i].events[j]) && FilterFits(states[i].events[j], f)
    requires IsSummary(DailyAfter(c, states[i].daily, Window(c, fetched, from, to)), from, to, m, f, v)
    ensures v == Total(Readings(Window(c, states[i].events, from, to)), m, f)
       <==> StaleRows(c, states[i].daily, Window(c, fetched, from, to), from, to, m, f) == {}
  {
    hide Run, PositiveEvents, OrgLevel, FilterFits, IsSummary, DailyAfter, StaleRows, Total, IsTimeZone, Queried;
    RunsKeepPositive(c, states, i, m);
    CounterMatchesExactly(c, states[i].events, fetched, states[i].daily, from, to, m, f, v);
  }

  // ----- the log -----

  // No two events of a meter have one idempotency key.
  predicate KeysUnique(events: seq<Event>) {
    forall i, j :: 0 <= i < j < |events| && events[i].meter == events[j].meter ==>
      events[i].idempotencyKey != events[j].idempotencyKey
  }

  /** Appending keeps idempotency keys unique, stores the event unless its key is used, and is idempotent. */
  lemma AppendIsIdempotent(events: seq<Event>, e: Event)
    ensures KeysUnique(events) ==> KeysUnique(Appended(events, e))
    ensures Uses(Appended(events, e), e.meter, e.idempotencyKey)
    ensures Appended(Appended(events, e), e) == Appended(events, e)
    ensures events <= Appended(events, e)
  {
    var after := Appended(events, e);
    if !Uses(events, e.meter, e.idempotencyKey) {
      assert after[|events|] == e;
    }
  }

  // ----- where stale rows come from -----

  // Every daily row has an event in the log.
  predicate Backed(c: Calendar, events: seq<Event>, daily: map<DayKey, int>) {
    daily.Keys <= KeysOf(c, events)
  }

  lemma RebuildKeepsBacked(c: Calendar, s: Tables, from: int, to: int, fetched: seq<Event>, t: Tables)
    requires RebuildStep(c, s, from, to, fetched, t) && Backed(c, s.events, s.daily)
    ensures Backed(c, t.events, t.daily)
  {
    hide DailyValue, IsMonthlyAfter;
    var window := Window(c, fetched, from, to);
    forall k | k in KeysOf(c, window) ensures k in KeysOf(c, s.events) {
      var i :| 0 <= i < |window| && KeyOf(c, window[i]) == k;
      var queried := Filtered(s.events, e => Queried(e, from, to));
      FilteredMember(fetched, e => OnDays(c, e, from, to), window[i]);
      assert window[i] in multiset(queried);
      FilteredMember(s.events, e => Queried(e, from, to), window[i]);
      var j :| 0 <= j < |s.events| && s.events[j] == window[i];
    }
  }

  lemma AppendKeepsBacked(c: Calendar, events: seq<Event>, e: Event, daily: map<DayKey, int>)
    requires Backed(c, events, daily)
    ensures Backed(c, Appended(events, e), daily)
  {
    hide KeyOf;
    KeysSnoc(c, events, e);
  }

  // A bucket that still has an event when the document's outcome is replaced: the new one, or one of another document.
  ghost predicate StaysFilled(c: Calendar, events: seq<Event>, documentId: string, replacement: Event, k: DayKey) {
    KeyOf(c, replacement) == k
    || exists j :: 0 <= j < |events| && !IsOutcomeOf(events[j], documentId) && KeyOf(c, events[j]) == k
  }

  // The replacement's idempotency key is taken, so the request is rolled back.
  predicate RolledBack(events: seq<Event>, documentId: string, outcome: Meter) {
    exists j :: 0 <= j < |events| && !IsOutcomeOf(events[j], documentId) && events[j].meter == outcome
      && events[j].idempotencyKey == "outcome:" + documentId
  }

  lemma KeptUses(events: seq<Event>, documentId: string, outcome: Meter)
    ensures Uses(Filtered(events, e => !IsOutcomeOf(e, documentId)), outcome, "outcome:" + documentId)
       <==> RolledBack(events, documentId, outcome)
  {
    var p := (e: Event) => !IsOutcomeOf(e, documentId);
    var kept, key := Filtered(events, p), "outcome:" + documentId;
    if i :| 0 <= i < |kept| && kept[i].meter == outcome && kept[i].idempotencyKey == key {
      FilteredMember(events, p, kept[i]);
      var j :| 0 <= j < |events| && events[j] == kept[i];
    }
    if j :| 0 <= j < |events| && p(events[j]) && events[j].meter == outcome && events[j].idempotencyKey == key {
      FilteredMember(events, p, events[j]);
      var i :| 0 <= i < |kept| && kept[i] == events[j];
    }
  }

  lemma KeptKeys(c: Calendar, events: seq<Event>, documentId: string, replacement: Event, k: DayKey)
    ensures k in KeysOf(c, Filtered(events, e => !IsOutcomeOf(e, documentId)) + [replacement])
       <==> StaysFilled(c, events, documentId, replacement, k)
  {
    hide KeyOf;
    var p := (e: Event) => !IsOutcomeOf(e, documentId);
    var kept := Filtered(events, p);
    KeysSnoc(c, kept, replacement);
    if k in KeysOf(c, kept) {
      var i :| 0 <= i < |kept| && KeyOf(c, kept[i]) == k;
      FilteredMember(events, p, kept[i]);
      var j :| 0 <= j < |events| && events[j] == kept[i];
    }
    if j :| 0 <= j < |events| && p(events[j]) && KeyOf(c, events[j]) == k {
      FilteredMember(events, p, events[j]);
      var i :| 0 <= i < |kept| && kept[i] == events[j];
    }
  }

  // Replacing an outcome leaves every row backed exactly when it is rolled back, or every stored bucket of an old
  // outcome of the document holds the new one or another document's event.
  lemma OutcomeKeepsBackedExactly(c: Calendar, events: seq<Event>, daily: map<DayKey, int>, documentId: string,
                                  outcome: Meter, at: int, branchId: Option<string>, currencyCode: Option<string>)
    requires Backed(c, events, daily)
    ensures var replacement := Event(outcome, 1, at, branchId, currencyCode, Some(documentId), "outcome:" + documentId);
            Backed(c, WithOutcome(events, documentId, outcome, at, branchId, currencyCode), daily) <==>
            (RolledBack(events, documentId, outcome)
             || forall i :: 0 <= i < |events| && IsOutcomeOf(events[i], documentId) && KeyOf(c, events[i]) in daily ==>
                  StaysFilled(c, events, documentId, replacement, KeyOf(c, events[i])))
  {
    hide KeyOf, StaysFilled, RolledBack;
    var replacement := Event(outcome, 1, at, branchId, currencyCode, Some(documentId), "outcome:" + documentId);
    var after := Filtered(events, e => !IsOutcomeOf(e, documentId)) + [replacement];
    KeptUses(events, documentId, outcome);
    if !RolledBack(events, documentId, outcome) {
      assert WithOutcome(events, documentId, outcome, at, branchId, currencyCode) == after;
      forall k ensures k in KeysOf(c, after) <==> StaysFilled(c, events, documentId, replacement, k) {
        KeptKeys(c, events, documentId, replacement, k);
      }
      forall i | 0 <= i < |events| && !IsOutcomeOf(events[i], documentId)
        ensures StaysFilled(c, events, documentId, replacement, KeyOf(c, events[i]))
      {
        OtherStaysFilled(c, events, documentId, replacement, i);
      }
    }
  }

  lemma OtherStaysFilled(c: Calendar, events: seq<Event>, documentId: string, replacement: Event, i: nat)
    requires i < |events| && !IsOutcomeOf(events[i], documentId)
    ensures StaysFilled(c, events, documentId, replacement, KeyOf(c, events[i]))
  {
    hide KeyOf;
  }

  // A document that turns invalid on a later day leaves its valid row behind: the rollups count it, the log does not.
  lemma SupersededOutcomeStaysCounted(c: Calendar, d: string, first: int, later: int)
    requires c.dayOf(first) != c.dayOf(later)
    ensures var valid := Event(Valid, 1, first, None, None, Some(d), "outcome:" + d);
            var invalid := Event(Invalid, 1, later, None, None, Some(d), "outcome:" + d);
            var daily := DailyAfter(c, map[], [valid]);
            var log := WithOutcome([valid], d, Invalid, later, None, None);
            && log == [invalid]
            && Total(Readings(log), Valid, NO_FILTER) == 0
            && KeyOf(c, valid) in DailyAfter(c, daily, log) && DailyAfter(c, daily, log)[KeyOf(c, valid)] == 1
  {
    hide KeysOf, DailyValue, Total, WithOutcome;
    var valid := Event(Valid, 1, first, None, None, Some(d), "outcome:" + d);
    var invalid := Event(Invalid, 1, later, None, None, Some(d), "outcome:" + d);
    OneEvent(c, valid);
    OneEvent(c, invalid);
    OutcomeReplaced(d, first, later);
    var daily := DailyAfter(c, map[], [valid]);
    assert daily[KeyOf(c, valid)] == 1;
  }

  lemma OutcomeReplaced(d: string, first: int, later: int)
    ensures var valid := Event(Valid, 1, first, None, None, Some(d), "outcome:" + d);
            var invalid := Event(Invalid, 1, later, None, None, Some(d), "outcome:" + d);
            WithOutcome([valid], d, Invalid, later, None, None) == [invalid] && Total(Readings([invalid]), Valid, NO_FILTER) == 0
  {
    var valid := Event(Valid, 1, first, None, None, Some(d), "outcome:" + d);
    var invalid := Event(Invalid, 1, later, None, None, Some(d), "outcome:" + d);
    var p := (e: Event) => !IsOutcomeOf(e, d);
    var kept := Filtered([valid], p);
    assert [valid][..0] == [] && [valid][0] == valid && !p(valid);
    assert kept == Filtered([], p) + [];
    assert kept == [];
    assert !Uses(kept, Invalid, "outcome:" + d);
    assert WithOutcome([valid], d, Invalid, later, None, None) == kept + [invalid];
    assert kept + [invalid] == [invalid];
    var rs := Readings([invalid]);
    assert rs[..0] == [] && |rs| == 1 && CountedQuantity(rs[0], Valid, NO_FILTER) == 0;
    assert Total(rs, Valid, NO_FILTER) == Sum(rs[..0], r => CountedQuantity(r, Valid, NO_FILTER));
  }

  lemma OneEvent(c: Calendar, e: Event)
    requires e.meter != StorageBytes
    ensures KeysOf(c, [e]) == {KeyOf(c, e)} && DailyValue(c, [e], KeyOf(c, e)) == e.quantity
  {
    assert [e][0] == e && [e][..0] == [];
    GroupTotal(c, [e], KeyOf(c, e));
  }
}
