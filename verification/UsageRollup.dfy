/**
 Daily and monthly rollups rebuilt from the event log (usage-rollup.service.ts), the log itself
 (usage-event.service.ts) and the summary read back from the rollups.

 The metering time zone is a function from instants to local days; query results come in any order.
 A rebuild only upserts: it never removes a row whose events are gone.
 */
module UsageRollup {
  import opened Wrappers
  import opened Sums
  import opened SetSums
  import opened UsageAggregate

  const HOUR := 3600000
  const DAY := 24 * HOUR

  datatype Event = Event(
    meter: Meter, quantity: int, occurredAt: int, branchId: Option<string>, currencyCode: Option<string>,
    documentId: Option<string>, idempotencyKey: string)

  datatype DayKey = DayKey(day: int, meter: Meter, branchKey: string, currencyKey: string)

  // A calendar month, by its first day.
  datatype Month = Month(firstDay: int)

  datatype MonthKey = MonthKey(month: Month, meter: Meter, branchKey: string, currencyKey: string)

  // Local days of the metering zone and the months they belong to.
  datatype Calendar = Calendar(dayOf: int -> int, monthOf: int -> Month)

  // Later instants are not on earlier days, and a zone is less than 24 hours behind or 36 ahead of UTC.
  ghost predicate IsTimeZone(c: Calendar) {
    && (forall s, t :: s <= t ==> c.dayOf(s) <= c.dayOf(t))
    && (forall t :: c.dayOf(t) * DAY - 36 * HOUR <= t < (c.dayOf(t) + 2) * DAY)
  }

  function ReadingOf(e: Event): Reading {
    Reading(e.meter, e.quantity, e.occurredAt, e.branchId, e.currencyCode)
  }

  function Readings(events: seq<Event>): (rs: seq<Reading>)
    ensures |rs| == |events| && forall i :: 0 <= i < |rs| ==> rs[i] == ReadingOf(events[i])
  {
    seq(|events|, i requires 0 <= i < |events| => ReadingOf(events[i]))
  }

  function KeyOf(c: Calendar, e: Event): DayKey {
    DayKey(c.dayOf(e.occurredAt), e.meter, BranchKeyOf(e.branchId), CurrencyKeyOf(e.currencyCode))
  }

  function MonthKeyOf(c: Calendar, k: DayKey): MonthKey {
    MonthKey(c.monthOf(k.day), k.meter, k.branchKey, k.currencyKey)
  }

  // The padded range a rebuild and a comparison query.
  predicate Queried(e: Event, from: int, to: int) {
    from * DAY - 36 * HOUR <= e.occurredAt < (to + 2) * DAY
  }

  predicate OnDays(c: Calendar, e: Event, from: int, to: int) {
    from <= c.dayOf(e.occurredAt) <= to
  }

  function Filtered(events: seq<Event>, p: Event -> bool): seq<Event> {
    if events == [] then []
    else Filtered(events[..|events| - 1], p) + if p(events[|events| - 1]) then [events[|events| - 1]] else []
  }

  function Window(c: Calendar, events: seq<Event>, from: int, to: int): seq<Event> {
    Filtered(events, e => OnDays(c, e, from, to))
  }

  function Group(c: Calendar, events: seq<Event>, k: DayKey): seq<Event> {
    Filtered(events, e => KeyOf(c, e) == k)
  }

  function KeysOf(c: Calendar, events: seq<Event>): set<DayKey> {
    set i | 0 <= i < |events| :: KeyOf(c, events[i])
  }

  function DailyValue(c: Calendar, events: seq<Event>, k: DayKey): int {
    Total(Readings(Group(c, events, k)), k.meter, NO_FILTER)
  }

  // The daily table after a rebuild that saw `window`.
  function DailyAfter(c: Calendar, daily: map<DayKey, int>, window: seq<Event>): map<DayKey, int> {
    map k | k in daily.Keys + KeysOf(c, window) ::
      if k in KeysOf(c, window) then DailyValue(c, window, k) else daily[k]
  }

  function RowsOfMonth(c: Calendar, daily: map<DayKey, int>, m: MonthKey): set<DayKey> {
    set k | k in daily && MonthKeyOf(c, k) == m
  }

  // Counters add up; a gauge keeps the value of its last day.
  ghost predicate IsMonthlyValue(c: Calendar, daily: map<DayKey, int>, m: MonthKey, v: int) {
    if m.meter == StorageBytes
    then exists k :: k in RowsOfMonth(c, daily, m) && v == daily[k] && forall x :: x in RowsOfMonth(c, daily, m) ==> x.day <= k.day
    else v == SumSet(RowsOfMonth(c, daily, m), k => if k in daily then daily[k] else 0)
  }

  function MonthKeysOf(c: Calendar, daily: map<DayKey, int>): set<MonthKey> {
    set k | k in daily :: MonthKeyOf(c, k)
  }

  function MonthsOf(c: Calendar, window: seq<Event>): set<Month> {
    set i | 0 <= i < |window| :: c.monthOf(c.dayOf(window[i].occurredAt))
  }

  // The monthly table after a rebuild: every group of every touched month is recomputed from the daily table.
  ghost predicate IsMonthlyAfter(c: Calendar, monthly: map<MonthKey, int>, daily: map<DayKey, int>,
                                 months: set<Month>, after: map<MonthKey, int>)
  {
    && (forall m :: m in after <==> m in monthly || (m in MonthKeysOf(c, daily) && m.month in months))
    && (forall m :: m in after ==>
          if m in MonthKeysOf(c, daily) && m.month in months then IsMonthlyValue(c, daily, m, after[m])
          else m in monthly && after[m] == monthly[m])
  }

  // ----- the tables -----

  class UsageTables {
    const calendar: Calendar
    var events: seq<Event>
    var daily: map<DayKey, int>
    var monthly: map<MonthKey, int>

    constructor (calendar: Calendar)
      ensures this.calendar == calendar && events == [] && daily == map[] && monthly == map[]
    {
      this.calendar := calendar;
      events, daily, monthly := [], map[], map[];
    }

    // Appending under a used idempotency key leaves the log as it is.
    method Append(e: Event)
      modifies this`events
      ensures events == Appended(old(events), e)
    {
      if !Uses(events, e.meter, e.idempotencyKey) {
        events := events + [e];
      }
    }

    // Replaces the outcome of a document; a clash of idempotency keys rolls everything back.
    method SetDocumentOutcome(documentId: string, outcome: Meter, occurredAt: int,
                              branchId: Option<string>, currencyCode: Option<string>)
      requires outcome == Valid || outcome == Invalid
      modifies this`events
      ensures events == WithOutcome(old(events), documentId, outcome, occurredAt, branchId, currencyCode)
    {
      var kept := [];
      for i := 0 to |events|
        invariant kept == Filtered(events[..i], e => !IsOutcomeOf(e, documentId))
      {
        assert events[..i + 1][..i] == events[..i];
        if !IsOutcomeOf(events[i], documentId) {
          kept := kept + [events[i]];
        }
      }
      assert events[..|events|] == events;
      var key := "outcome:" + documentId;
      if !Uses(kept, outcome, key) {
        events := kept + [Event(outcome, 1, occurredAt, branchId, currencyCode, Some(documentId), key)];
      }
    }

    method RebuildRange(from: int, to: int, fetched: seq<Event>) returns (days: nat)
      requires multiset(fetched) == multiset(Filtered(events, e => Queried(e, from, to)))
      modifies this`daily, this`monthly
      ensures var window := Window(calendar, fetched, from, to);
              && daily == DailyAfter(calendar, old(daily), window)
              && IsMonthlyAfter(calendar, old(monthly), daily, MonthsOf(calendar, window), monthly)
              && days == |KeysOf(calendar, window)|
    {
      hide *;
      var groups := GroupByDay(calendar, fetched, from, to);
      var months;
      daily, months := UpsertDays(calendar, daily, groups, Window(calendar, fetched, from, to));
      RebuildMonths(months);
      days := |groups|;
    }

    method RebuildMonths(months: set<Month>)
      modifies this`monthly
      ensures IsMonthlyAfter(calendar, old(monthly), daily, months, monthly)
    {
      var list := FindAll(months);
      ghost var before, done := monthly, {};
      for i := 0 to |list|
        invariant forall m :: m in done <==> m in list[..i]
        invariant IsMonthlyAfter(calendar, before, daily, done, monthly)
      {
        ghost var sofar := monthly;
        RebuildMonth(list[i]);
        MonthlyAfterStep(calendar, before, daily, done, sofar, list[i], monthly);
        done := done + {list[i]};
        assert list[..i + 1] == list[..i] + [list[i]];
      }
      assert list[..|list|] == list && done == months;
    }

    method RebuildMonth(month: Month)
      modifies this`monthly
      ensures IsMonthlyAfter(calendar, old(monthly), daily, {month}, monthly)
    {
      var rows := FindAll(set k | k in daily && calendar.monthOf(k.day) == month);
      var groups := GroupByMonth(calendar, rows);
      GroupsAreMonths(calendar, daily, month, rows, groups);
      monthly := UpsertMonth(calendar, monthly, daily, month, groups);
    }
  }

  // ----- the log -----

  predicate Uses(events: seq<Event>, m: Meter, key: string) {
    exists i :: 0 <= i < |events| && events[i].meter == m && events[i].idempotencyKey == key
  }

  function Appended(events: seq<Event>, e: Event): seq<Event> {
    if Uses(events, e.meter, e.idempotencyKey) then events else events + [e]
  }

  predicate IsOutcomeOf(e: Event, documentId: string) {
    e.documentId == Some(documentId) && (e.meter == Valid || e.meter == Invalid)
  }

  function WithOutcome(events: seq<Event>, documentId: string, outcome: Meter, occurredAt: int,
                       branchId: Option<string>, currencyCode: Option<string>): seq<Event> {
    var kept := Filtered(events, e => !IsOutcomeOf(e, documentId));
    var key := "outcome:" + documentId;
    if Uses(kept, outcome, key) then events
    else kept + [Event(outcome, 1, occurredAt, branchId, currencyCode, Some(documentId), key)]
  }

  // ----- loops of the rebuild -----

  lemma WindowSnoc(c: Calendar, fetched: seq<Event>, i: nat, from: int, to: int)
    requires i < |fetched|
    ensures Window(c, fetched[..i + 1], from, to)
         == if OnDays(c, fetched[i], from, to) then Window(c, fetched[..i], from, to) + [fetched[i]]
            else Window(c, fetched[..i], from, to)
  {
    assert fetched[..i + 1][..i] == fetched[..i];
  }

  method GroupByDay(c: Calendar, fetched: seq<Event>, from: int, to: int) returns (groups: map<DayKey, seq<Event>>)
    ensures groups.Keys == KeysOf(c, Window(c, fetched, from, to))
    ensures forall k {:trigger groups[k]} :: k in groups ==> groups[k] == Group(c, Window(c, fetched, from, to), k)
  {
    hide Window, KeysOf, Group, KeyOf, OnDays;
    groups := map[];
    assert fetched[..0] == [];
    assert Window(c, [], from, to) == [] && KeysOf(c, []) == {} by { WindowOfNothing(c, from, to); }
    for i := 0 to |fetched|
      invariant groups.Keys == KeysOf(c, Window(c, fetched[..i], from, to))
      invariant forall k {:trigger groups[k]} :: k in groups ==> groups[k] == Group(c, Window(c, fetched[..i], from, to), k)
    {
      var e := fetched[i];
      ghost var seen := Window(c, fetched[..i], from, to);
      WindowSnoc(c, fetched, i, from, to);
      if !OnDays(c, e, from, to) { continue; }
      KeysSnoc(c, seen, e);
      var key := KeyOf(c, e);
      if key !in groups { NoneInGroup(c, seen, key); }
      ghost var before := groups;
      groups := groups[key := (if key in groups then groups[key] else []) + [e]];
      forall k | k in groups ensures groups[k] == Group(c, seen + [e], k) {
        GroupSnoc(c, seen, e, k);
        assert k != key ==> groups[k] == before[k];
      }
    }
    assert fetched[..|fetched|] == fetched;
  }

  lemma WindowOfNothing(c: Calendar, from: int, to: int)
    ensures Window(c, [], from, to) == [] && KeysOf(c, []) == {}
  {
  }

  // Upserts one daily row per group and collects the months of the rows.
  method UpsertDays(c: Calendar, before: map<DayKey, int>, groups: map<DayKey, seq<Event>>, ghost window: seq<Event>)
    returns (daily: map<DayKey, int>, months: set<Month>)
    requires groups.Keys == KeysOf(c, window)
    requires forall k {:trigger groups[k]} :: k in groups ==> groups[k] == Group(c, window, k)
    ensures daily == DailyAfter(c, before, window) && months == MonthsOf(c, window)
    ensures |groups| == |KeysOf(c, window)|
  {
    hide *;
    daily, months := before, {};
    MonthsInNothing(c);
    var todo := groups.Keys;
    ghost var done: set<DayKey> := {};
    while todo != {}
      invariant forall k :: k in groups <==> k in todo || k in done
      invariant forall k :: k in daily <==> k in before || k in done
      invariant forall k {:trigger daily[k]} :: k in daily ==> daily[k] == if k in done then DailyValue(c, window, k) else before[k]
      invariant months == MonthsIn(c, done)
      decreases |todo|
    {
      var k :| k in todo;
      todo := todo - {k};
      MonthsInAdd(c, done, k);
      done := done + {k};
      var value := RowValue(groups[k], k.meter);
      DailyValueIs(c, window, k);
      daily := daily[k := value];
      months := months + {c.monthOf(k.day)};
    }
    assert done == groups.Keys;
    DailyAfterIs(c, before, window, daily);
    MonthsOfKeys(c, window);
    assert |groups| == |groups.Keys|;
  }

  function MonthsIn(c: Calendar, keys: set<DayKey>): set<Month> {
    set k | k in keys :: c.monthOf(k.day)
  }

  lemma MonthsInNothing(c: Calendar)
    ensures MonthsIn(c, {}) == {}
  {
  }

  lemma MonthsInAdd(c: Calendar, keys: set<DayKey>, k: DayKey)
    ensures MonthsIn(c, keys + {k}) == MonthsIn(c, keys) + {c.monthOf(k.day)}
  {
  }

  lemma DailyValueIs(c: Calendar, window: seq<Event>, k: DayKey)
    ensures DailyValue(c, window, k) == Total(Readings(Group(c, window, k)), k.meter, NO_FILTER)
  {
  }

  lemma DailyAfterIs(c: Calendar, before: map<DayKey, int>, window: seq<Event>, daily: map<DayKey, int>)
    requires forall k :: k in daily <==> k in before || k in KeysOf(c, window)
    requires forall k {:trigger daily[k]} :: k in daily ==>
               daily[k] == if k in KeysOf(c, window) then DailyValue(c, window, k) else before[k]
    ensures daily == DailyAfter(c, before, window)
  {
    hide KeysOf, DailyValue;
  }

  method GroupByMonth(c: Calendar, rows: seq<DayKey>) returns (groups: map<MonthKey, seq<DayKey>>)
    ensures forall m :: m in groups <==> exists j :: 0 <= j < |rows| && MonthKeyOf(c, rows[j]) == m
    ensures forall m {:trigger groups[m]} :: m in groups ==> groups[m] == OfMonth(c, rows, m)
  {
    hide MonthKeyOf, OfMonth;
    groups := map[];
    for i := 0 to |rows|
      invariant forall m :: m in groups <==> exists j :: 0 <= j < i && MonthKeyOf(c, rows[j]) == m
      invariant forall m {:trigger groups[m]} :: m in groups ==> groups[m] == OfMonth(c, rows[..i], m)
    {
      assert rows[..i + 1][..i] == rows[..i];
      var m := MonthKeyOf(c, rows[i]);
      if m !in groups { NoneOfMonth(c, rows[..i], m); }
      ghost var before := groups;
      groups := groups[m := (if m in groups then groups[m] else []) + [rows[i]]];
      forall x | x in groups ensures groups[x] == OfMonth(c, rows[..i + 1], x) {
        OfMonthSnoc(c, rows, i, x);
        if x != m { assert groups[x] == before[x]; }
      }
    }
    assert rows[..|rows|] == rows;
  }

  // Upserts one monthly row per group.
  method UpsertMonth(c: Calendar, before: map<MonthKey, int>, daily: map<DayKey, int>, month: Month,
                     groups: map<MonthKey, seq<DayKey>>) returns (monthly: map<MonthKey, int>)
    requires forall m :: m in groups <==> m in MonthKeysOf(c, daily) && m.month == month
    requires forall m {:trigger groups[m]} :: m in groups ==> Enumerates(groups[m], RowsOfMonth(c, daily, m))
    ensures IsMonthlyAfter(c, before, daily, {month}, monthly)
  {
    hide *;
    monthly := before;
    var todo := groups.Keys;
    ghost var done: set<MonthKey> := {};
    while todo != {}
      invariant forall m :: m in groups <==> m in todo || m in done
      invariant forall m :: m in monthly <==> m in before || m in done
      invariant forall m {:trigger monthly[m]} :: m in monthly ==>
                  if m in done then IsMonthlyValue(c, daily, m, monthly[m]) else monthly[m] == before[m]
      decreases |todo|
    {
      var m :| m in todo;
      todo := todo - {m};
      done := done + {m};
      RowsExist(c, daily, m, groups[m]);
      var value := MonthValue(daily, groups[m], m.meter);
      MonthValueIs(c, daily, m, groups[m], value);
      monthly := monthly[m := value];
    }
    MonthlyAfterIs(c, before, daily, month, groups.Keys, monthly);
  }

  lemma MonthlyAfterIs(c: Calendar, before: map<MonthKey, int>, daily: map<DayKey, int>, month: Month,
                       groups: set<MonthKey>, monthly: map<MonthKey, int>)
    requires forall m :: m in groups <==> m in MonthKeysOf(c, daily) && m.month == month
    requires forall m :: m in monthly <==> m in before || m in groups
    requires forall m {:trigger monthly[m]} :: m in monthly ==>
               if m in groups then IsMonthlyValue(c, daily, m, monthly[m]) else monthly[m] == before[m]
    ensures IsMonthlyAfter(c, before, daily, {month}, monthly)
  {
    hide MonthKeysOf, IsMonthlyValue;
  }

  lemma RowsExist(c: Calendar, daily: map<DayKey, int>, m: MonthKey, rows: seq<DayKey>)
    requires m in MonthKeysOf(c, daily) && Enumerates(rows, RowsOfMonth(c, daily, m))
    ensures rows != [] && forall k :: k in rows ==> k in daily
  {
    var k :| k in daily && MonthKeyOf(c, k) == m;
    assert k in rows;
  }

  lemma KeysSnoc(c: Calendar, events: seq<Event>, e: Event)
    ensures KeysOf(c, events + [e]) == KeysOf(c, events) + {KeyOf(c, e)}
  {
    forall k ensures k in KeysOf(c, events + [e]) <==> k in KeysOf(c, events) + {KeyOf(c, e)} {
      if k in KeysOf(c, events) {
        var i :| 0 <= i < |events| && KeyOf(c, events[i]) == k;
        assert (events + [e])[i] == events[i];
      }
      assert (events + [e])[|events|] == e;
    }
  }

  lemma GroupSnoc(c: Calendar, events: seq<Event>, e: Event, k: DayKey)
    ensures Group(c, events + [e], k) == Group(c, events, k) + if KeyOf(c, e) == k then [e] else []
  {
    assert (events + [e])[..|events|] == events;
  }

  lemma {:induction false} NoneInGroup(c: Calendar, events: seq<Event>, k: DayKey)
    requires k !in KeysOf(c, events)
    ensures Group(c, events, k) == []
  {
    if events != [] {
      var n := |events| - 1;
      assert events == events[..n] + [events[n]];
      KeysSnoc(c, events[..n], events[n]);
      NoneInGroup(c, events[..n], k);
    }
  }

  method RowValue(group: seq<Event>, meter: Meter) returns (value: int)
    ensures value == Total(Readings(group), meter, NO_FILTER)
  {
    var totals := AggregateEventsToTotals(Readings(group), NO_FILTER);
    value := totals[meter];
  }

  function OfMonth(c: Calendar, rows: seq<DayKey>, m: MonthKey): seq<DayKey> {
    if rows == [] then []
    else OfMonth(c, rows[..|rows| - 1], m) + if MonthKeyOf(c, rows[|rows| - 1]) == m then [rows[|rows| - 1]] else []
  }

  lemma OfMonthSnoc(c: Calendar, rows: seq<DayKey>, i: nat, m: MonthKey)
    requires i < |rows|
    ensures OfMonth(c, rows[..i + 1], m) == OfMonth(c, rows[..i], m) + if MonthKeyOf(c, rows[i]) == m then [rows[i]] else []
  {
    assert rows[..i + 1][..i] == rows[..i];
  }

  lemma {:induction false} NoneOfMonth(c: Calendar, rows: seq<DayKey>, m: MonthKey)
    requires forall i :: 0 <= i < |rows| ==> MonthKeyOf(c, rows[i]) != m
    ensures OfMonth(c, rows, m) == []
  {
    if rows != [] { NoneOfMonth(c, rows[..|rows| - 1], m); }
  }

  lemma {:induction false} OfMonthMembers(c: Calendar, rows: seq<DayKey>, m: MonthKey)
    requires Distinct(rows)
    ensures Distinct(OfMonth(c, rows, m))
    ensures forall k :: k in OfMonth(c, rows, m) <==> k in rows && MonthKeyOf(c, k) == m
  {
    if rows != [] {
      var n := |rows| - 1;
      OfMonthMembers(c, rows[..n], m);
      forall k ensures k in rows <==> k in rows[..n] || k == rows[n] {
        if k in rows {
          var i :| 0 <= i < |rows| && rows[i] == k;
          if i < n { assert rows[..n][i] == k; }
        }
      }
      assert rows[n] !in rows[..n];
    }
  }

  lemma GroupsAreMonths(c: Calendar, daily: map<DayKey, int>, month: Month, rows: seq<DayKey>, groups: map<MonthKey, seq<DayKey>>)
    requires Enumerates(rows, set k | k in daily && c.monthOf(k.day) == month)
    requires forall m :: m in groups <==> exists j :: 0 <= j < |rows| && MonthKeyOf(c, rows[j]) == m
    requires forall m :: m in groups ==> groups[m] == OfMonth(c, rows, m)
    ensures forall m :: m in groups <==> m in MonthKeysOf(c, daily) && m.month == month
    ensures forall m :: m in groups ==> Enumerates(groups[m], RowsOfMonth(c, daily, m))
  {
    forall m ensures m in groups <==> m in MonthKeysOf(c, daily) && m.month == month {
      if m in groups {
        var j :| 0 <= j < |rows| && MonthKeyOf(c, rows[j]) == m;
        assert rows[j] in rows;
      }
      if m in MonthKeysOf(c, daily) && m.month == month {
        var k :| k in daily && MonthKeyOf(c, k) == m;
        assert k in rows;
        var j :| 0 <= j < |rows| && rows[j] == k;
      }
    }
    forall m | m in groups ensures Enumerates(groups[m], RowsOfMonth(c, daily, m)) {
      OfMonthMembers(c, rows, m);
    }
  }

  // The sum of a group's rows, or the value of its last day for the gauge.
  method MonthValue(daily: map<DayKey, int>, rows: seq<DayKey>, meter: Meter) returns (value: int)
    requires rows != [] && forall k :: k in rows ==> k in daily
    ensures meter != StorageBytes ==> value == Sum(rows, k => if k in daily then daily[k] else 0)
    ensures meter == StorageBytes ==>
              exists k :: k in rows && value == daily[k] && forall x :: x in rows ==> x.day <= k.day
  {
    if meter == StorageBytes {
      var last := rows[0];
      for i := 1 to |rows|
        invariant last in rows && forall j :: 0 <= j < i ==> rows[j].day <= last.day
      {
        if rows[i].day >= last.day { last := rows[i]; }
      }
      value := daily[last];
    } else {
      value := 0;
      for i := 0 to |rows|
        invariant value == Sum(rows[..i], k => if k in daily then daily[k] else 0)
      {
        assert rows[..i + 1][..i] == rows[..i];
        assert rows[i] in rows;
        value := value + daily[rows[i]];
      }
      assert rows[..|rows|] == rows;
    }
  }

  lemma MonthValueIs(c: Calendar, daily: map<DayKey, int>, m: MonthKey, rows: seq<DayKey>, v: int)
    requires Enumerates(rows, RowsOfMonth(c, daily, m))
    requires m.meter != StorageBytes ==> v == Sum(rows, k => if k in daily then daily[k] else 0)
    requires m.meter == StorageBytes ==>
               exists k :: k in rows && k in daily && v == daily[k] && forall x :: x in rows ==> x.day <= k.day
    ensures IsMonthlyValue(c, daily, m, v)
  {
    if m.meter != StorageBytes {
      SumOfEnumeration(rows, RowsOfMonth(c, daily, m), k => if k in daily then daily[k] else 0);
    }
  }

  lemma MonthlyAfterStep(c: Calendar, before: map<MonthKey, int>, daily: map<DayKey, int>, seen: set<Month>,
                         sofar: map<MonthKey, int>, month: Month, after: map<MonthKey, int>)
    requires IsMonthlyAfter(c, before, daily, seen, sofar) && IsMonthlyAfter(c, sofar, daily, {month}, after)
    ensures IsMonthlyAfter(c, before, daily, seen + {month}, after)
  {
  }

  lemma MonthsOfKeys(c: Calendar, window: seq<Event>)
    ensures MonthsIn(c, KeysOf(c, window)) == MonthsOf(c, window)
  {
    forall m ensures m in MonthsIn(c, KeysOf(c, window)) <==> m in MonthsOf(c, window) {
      if m in MonthsIn(c, KeysOf(c, window)) {
        var k :| k in KeysOf(c, window) && c.monthOf(k.day) == m;
        var i :| 0 <= i < |window| && KeyOf(c, window[i]) == k;
      }
      if m in MonthsOf(c, window) {
        var i :| 0 <= i < |window| && c.monthOf(c.dayOf(window[i].occurredAt)) == m;
        assert KeyOf(c, window[i]) in KeysOf(c, window);
      }
    }
  }
}
