/**
 Which events and daily rows a rollup row stands for, spelled out: a daily row for the events of one local day, meter,
 branch and currency, a monthly row for the daily rows of one month and the same meter, branch and currency. And the
 range of instants that a rebuild queries is just what the zones of the world need.
 */
module UsageRows {
  import opened Wrappers
  import opened Sums
  import opened SetSums
  import opened UsageAggregate
  import opened UsageRollup
  import opened UsageSummary
  import opened UsageAgreement
  import opened UsageGauge
  import opened UsageRuns

  // ----- monthly rows -----

  // The daily rows of one month, meter, branch and currency.
  function DailyRows(c: Calendar, daily: map<DayKey, int>, month: Month, meter: Meter, branch: string, currency: string)
    : set<DayKey>
  {
    set k | k in daily && c.monthOf(k.day) == month && k.meter == meter && k.branchKey == branch && k.currencyKey == currency
  }

  lemma RowsAreThose(c: Calendar, daily: map<DayKey, int>, month: Month, meter: Meter, branch: string, currency: string)
    ensures var m := MonthKey(month, meter, branch, currency);
            && RowsOfMonth(c, daily, m) == DailyRows(c, daily, month, meter, branch, currency)
            && (m in MonthKeysOf(c, daily) <==> DailyRows(c, daily, month, meter, branch, currency) != {})
  {
    var m, rows := MonthKey(month, meter, branch, currency), DailyRows(c, daily, month, meter, branch, currency);
    assert forall k :: k in daily && MonthKeyOf(c, k) == m <==> k in rows;
    if rows != {} {
      var k :| k in rows;
      assert MonthKeyOf(c, k) == m;
    }
  }

  /**
   In every state of every run a monthly row exists exactly when its month has a daily row of the same meter, branch and
   currency; a counter's is the sum over those rows, the gauge's the value of the last of them.
   */
  lemma MonthlyRowsExactly(c: Calendar, states: seq<Tables>, i: nat, month: Month, meter: Meter, branch: string,
                           currency: string)
    requires Run(c, states) && i < |states|
    ensures var t, m := states[i], MonthKey(month, meter, branch, currency);
            var rows := DailyRows(c, t.daily, month, meter, branch, currency);
            && (m in t.monthly <==> rows != {})
            && (m in t.monthly && meter != StorageBytes ==>
                  t.monthly[m] == SumSet(rows, k => if k in t.daily then t.daily[k] else 0))
            && (m in t.monthly && meter == StorageBytes ==>
                  exists k :: k in rows && t.monthly[m] == t.daily[k] && forall x :: x in rows ==> x.day <= k.day)
  {
    hide Run, RowsOfMonth, MonthKeysOf, DailyRows, SumSet;
    RunsKeepMonthly(c, states, i);
    RowsAreThose(c, states[i].daily, month, meter, branch, currency);
    var t, m := states[i], MonthKey(month, meter, branch, currency);
    if m in t.monthly { assert IsMonthlyValue(c, t.daily, m, t.monthly[m]); }
  }

  // ----- daily rows -----

  // A document's branch, or the placeholder when there is none.
  predicate OfBranch(e: Event, branch: string) {
    if e.branchId.Some? && e.branchId.value != "" then e.branchId.value == branch
    else branch == "00000000-0000-0000-0000-000000000000"
  }

  predicate OfCurrency(e: Event, currency: string) {
    if e.currencyCode.Some? && e.currencyCode.value != "" then e.currencyCode.value == currency else currency == ""
  }

  predicate EventOf(c: Calendar, e: Event, k: DayKey) {
    c.dayOf(e.occurredAt) == k.day && e.meter == k.meter && OfBranch(e, k.branchKey) && OfCurrency(e, k.currencyKey)
  }

  lemma EventKey(c: Calendar, e: Event, k: DayKey)
    ensures EventOf(c, e, k) <==> KeyOf(c, e) == k
  {
  }

  /**
   A rebuild writes a daily row exactly for every day, meter, branch and currency with an event in its window: for a
   counter the sum of their quantities, for the gauge the quantity of one with the greatest instant.
   */
  lemma DailyRowsExactly(c: Calendar, daily: map<DayKey, int>, window: seq<Event>, k: DayKey)
    ensures var after := DailyAfter(c, daily, window);
            var written := exists e :: e in window && EventOf(c, e, k);
            && (k in after <==> k in daily || written)
            && (k in after && !written ==> after[k] == daily[k])
            && (k in after && written && k.meter != StorageBytes ==>
                  after[k] == Sum(window, e => if EventOf(c, e, k) then e.quantity else 0))
            && (k in after && written && k.meter == StorageBytes ==>
                  exists e :: e in window && EventOf(c, e, k) && after[k] == e.quantity
                              && forall x :: x in window && EventOf(c, x, k) ==> x.occurredAt <= e.occurredAt)
  {
    hide DailyValue, KeyOf, EventOf;
    forall e ensures EventOf(c, e, k) <==> KeyOf(c, e) == k { EventKey(c, e, k); }
    if k in KeysOf(c, window) {
      var i :| 0 <= i < |window| && KeyOf(c, window[i]) == k;
      assert window[i] in window && EventOf(c, window[i], k);
      if k.meter == StorageBytes {
        var e := GaugeValue(c, window, k);
        assert EventOf(c, e, k);
      } else {
        GroupTotal(c, window, k);
        SumCongruence(window, e => QuantityUnder(c, e, k), e => if EventOf(c, e, k) then e.quantity else 0);
      }
    }
  }

  // ----- what replacing an outcome keeps -----

  /**
   Replacing a document's outcome drops exactly its valid and invalid events and adds the new one; a used key keeps all.
   */
  lemma {:induction false} KeptEvents(events: seq<Event>, documentId: string, e: Event)
    ensures e in Filtered(events, x => !IsOutcomeOf(x, documentId))
       <==> e in events && !(e.documentId == Some(documentId) && (e.meter == Valid || e.meter == Invalid))
  {
    FilteredMember(events, x => !IsOutcomeOf(x, documentId), e);
  }

  /** An event is appended exactly when no event of its meter has its key; other meters may use the same key. */
  lemma AppendsExactly(events: seq<Event>, e: Event)
    ensures Appended(events, e)
         == if exists i :: 0 <= i < |events| && events[i].meter == e.meter && events[i].idempotencyKey == e.idempotencyKey
            then events else events + [e]
  {
  }

  // ----- which daily rows a summary counts -----

  /**
   A summary of documents counts the rows of the branch and currency that are asked for, but none of the placeholder
   branch; calls and storage count the rows of no branch and no currency, whatever is asked.
   */
  lemma SummaryCounts(k: DayKey, m: Meter, f: Filter)
    ensures RowCounted(k, m, f)
       <==> && k.meter == m
            && (m == Issued || m == Received || m == Valid || m == Invalid ==>
                  && (f.branchId == "" || (k.branchKey == f.branchId && f.branchId != "00000000-0000-0000-0000-000000000000"))
                  && (f.currencyCode == "" || k.currencyKey == f.currencyCode))
            && (m == ApiCalls || m == StorageBytes ==>
                  k.branchKey == "00000000-0000-0000-0000-000000000000" && k.currencyKey == "")
  {
    assert ORG_BRANCH_KEY == "00000000-0000-0000-0000-000000000000" && ORG_CURRENCY_KEY == "";
  }

  // ----- the query -----

  // A zone in which days start a fixed time after midnight UTC.
  function Zone(start: int): Calendar {
    Calendar((t: int) => (t - start) / 86400000, (day: int) => Month(day))
  }

  lemma ZoneIsOne(start: int)
    requires -129600000 <= start <= 86400000
    ensures IsTimeZone(Zone(start))
  {
    var c := Zone(start);
    forall s, t | s <= t ensures c.dayOf(s) <= c.dayOf(t) { Ordered(s - start, t - start); }
    forall t: int ensures c.dayOf(t) * DAY - 36 * HOUR <= t < (c.dayOf(t) + 2) * DAY {
      var x := t - start;
      assert x == x / 86400000 * 86400000 + x % 86400000;
    }
  }

  lemma Ordered(x: int, y: int)
    requires x <= y
    ensures x / 86400000 <= y / 86400000
  {
  }

  /**
   The rebuild queries an event exactly when some zone puts it on a day of the range: from 36 hours before the first day
   to a day after the last.
   */
  lemma QueryIsExact(e: Event, from: int, to: int)
    requires from <= to
    ensures Queried(e, from, to) <==> exists c :: IsTimeZone(c) && OnDays(c, e, from, to)
    ensures Queried(e, from, to) <==> from * 86400000 - 129600000 <= e.occurredAt < (to + 2) * 86400000
  {
    var at := e.occurredAt;
    if Queried(e, from, to) {
      var start := if at < from * DAY then at - from * DAY else if at >= (to + 1) * DAY then at - (to + 1) * DAY + 1 else 0;
      ZoneIsOne(start);
      Bounds(at - start, from, to);
      assert OnDays(Zone(start), e, from, to);
    }
    if c :| IsTimeZone(c) && OnDays(c, e, from, to) {
      var d := c.dayOf(at);
      assert from * DAY <= d * DAY && (d + 2) * DAY <= (to + 2) * DAY;
      assert d * DAY - 36 * HOUR <= at < (d + 2) * DAY;
    }
  }

  lemma Bounds(x: int, from: int, to: int)
    requires from * 86400000 <= x < (to + 1) * 86400000
    ensures from <= x / 86400000 <= to
  {
  }
}
