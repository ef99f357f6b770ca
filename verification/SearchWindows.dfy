/**
 Splitting a time range for ETA's document search (eta-documents-search.client.ts:207-228), and what is left of it
 when each end is written in whole seconds (eta-formats.ts:11-18). Times are milliseconds since the epoch; a date
 made from a fraction of a millisecond drops the fraction, and one too far from the epoch is invalid.
 */
module SearchWindows {
  import opened Wrappers

  datatype Window = Window(from: int, to: int)

  datatype Error = InvalidRange

  const DAY_MS := 86400000.0

  const MAX_DATE := 8640000000000000

  // A date out of range has no time: it compares with nothing, and nothing added to it makes it valid.
  predicate Valid(t: int) {
    -MAX_DATE <= t <= MAX_DATE
  }

  // A hundred million days either side of the epoch (section 21.4.1.1 of ECMA-262).
  lemma DatesOfCalendar(t: int)
    ensures Valid(t) <==> -100000000 * (24 * 60 * 60 * 1000) <= t <= 100000000 * (24 * 60 * 60 * 1000)
  {
  }

  function Following(t: int): int {
    if Valid(t) then t + 1 else t
  }

  // A number turned into a date: the fraction goes, towards zero, unless that would bring it into range.
  function ToDate(x: real): (t: int)
    ensures -MAX_DATE as real <= x <= MAX_DATE as real <==> Valid(t)
    ensures Valid(t) && x >= 0.0 ==> t >= 0 && t as real <= x < t as real + 1.0
    ensures Valid(t) && x < 0.0 ==> t <= 0 && t as real - 1.0 < x <= t as real
    ensures !Valid(t) && x < 0.0 ==> t as real <= x < t as real + 1.0
  {
    if x < -MAX_DATE as real || 0.0 <= x <= MAX_DATE as real then x.Floor else -((-x).Floor)
  }

  // The end of the window that starts at the cursor.
  function WindowEnd(cursor: int, end: int, ms: real): int {
    var full := cursor as real + ms - 1.0;
    ToDate(if full < end as real then full else end as real)
  }

  predicate Within(w: Window, t: int) {
    w.from <= t <= w.to
  }

  // The windows tile a range: in order, without gap or overlap, each as long as it may be.
  predicate Tile(ws: seq<Window>, start: int, end: int, limit: int, ms: real) {
    && |ws| > 0
    && ws[0].from == start
    && ws[|ws| - 1].to == end
    && (forall i :: 0 <= i < |ws| ==> ws[i].from <= ws[i].to && ws[i].to == WindowEnd(ws[i].from, limit, ms))
    && (forall i, j :: 0 <= i && j == i + 1 < |ws| ==> ws[j].from == ws[i].to + 1)
  }

  function Earlier(a: int, b: int): int { if a <= b then a else b }

  function Later(a: int, b: int): int { if a <= b then b else a }

  // ----- when the loop ends -----

  // The loop goes on from a valid cursor that is not past the end.
  predicate Inside(cursor: int, end: int) {
    Valid(cursor) && cursor <= end
  }

  function NextCursor(cursor: int, end: int, ms: real): int {
    Following(WindowEnd(cursor, end, ms))
  }

  // The cursor after n rounds.
  function CursorAfter(start: int, end: int, ms: real, n: nat): int {
    if n == 0 then start
    else
      var cursor := CursorAfter(start, end, ms, n - 1);
      if Inside(cursor, end) then NextCursor(cursor, end, ms) else cursor
  }

  // The loop advances from a cursor within the range exactly for steps of a millisecond or more, except that up to the
  // epoch, but not from the first date of all, any positive step will do, because fractions are dropped towards it.
  predicate StepAdvances(cursor: int, ms: real) {
    ms >= 1.0 || (ms > 0.0 && -MAX_DATE < cursor <= 0)
  }

  lemma AdvancesExactly(cursor: int, end: int, ms: real)
    requires Inside(cursor, end) && Valid(end)
    ensures NextCursor(cursor, end, ms) > cursor <==> StepAdvances(cursor, ms)
    ensures StepAdvances(cursor, ms) ==> Valid(WindowEnd(cursor, end, ms)) && NextCursor(cursor, end, ms) <= end + 1
  {
  }

  // It moves back at every step of minus a millisecond or less, until the date is invalid, and at any step that lands
  // before the first date of all.
  predicate StepReturns(cursor: int, ms: real) {
    ms <= -1.0 || cursor as real + ms - 1.0 < -MAX_DATE as real
  }

  lemma MovesBack(cursor: int, end: int, ms: real)
    requires Inside(cursor, end) && StepReturns(cursor, ms)
    ensures WindowEnd(cursor, end, ms) < cursor && NextCursor(cursor, end, ms) < cursor
    ensures ms > -1.0 ==> !Valid(NextCursor(cursor, end, ms))
  {
  }

  // Where smaller steps leave the cursor: it never passes the first instant after the epoch.
  predicate Caught(start: int, cursor: int, ms: real) {
    if ms > 0.0 then start <= cursor <= Later(start, 1) else Earlier(start, 1) <= cursor <= start
  }

  lemma StaysCaught(start: int, cursor: int, end: int, ms: real)
    requires Valid(start) && !StepReturns(start, ms) && Caught(start, cursor, ms) && cursor <= end && ms < 1.0
    ensures Caught(start, NextCursor(cursor, end, ms), ms)
  {
  }

  lemma {:induction false} CaughtForEver(start: int, end: int, ms: real, n: nat)
    requires Inside(start, end) && !StepReturns(start, ms) && ms < 1.0 && (ms > 0.0 ==> end >= 1)
    ensures Caught(start, CursorAfter(start, end, ms, n), ms) && Inside(CursorAfter(start, end, ms, n), end)
    decreases n
  {
    hide NextCursor;
    if n > 0 {
      CaughtForEver(start, end, ms, n - 1);
      StaysCaught(start, CursorAfter(start, end, ms, n - 1), end, ms);
    }
  }

  // The limits for which the loop ends.
  predicate LoopEnds(start: int, end: int, ms: real) {
    ms >= 1.0 || (ms > 0.0 && end <= 0) || StepReturns(start, ms)
  }

  // Where the cursor of a loop that ends can be.
  predicate OnTheWay(start: int, cursor: int, ms: real) {
    if StepReturns(start, ms) then ms <= -1.0 || cursor == start || !Valid(cursor) else start <= cursor
  }

  function Remaining(start: int, cursor: int, end: int, ms: real): nat {
    if !Inside(cursor, end) then 0 else if StepReturns(start, ms) then cursor + MAX_DATE + 1 else end + 1 - cursor
  }

  lemma RoundEnds(start: int, cursor: int, end: int, ms: real)
    requires Inside(cursor, end) && Inside(start, end) && Valid(end)
    requires LoopEnds(start, end, ms) && OnTheWay(start, cursor, ms)
    ensures OnTheWay(start, NextCursor(cursor, end, ms), ms)
    ensures Remaining(start, NextCursor(cursor, end, ms), end, ms) < Remaining(start, cursor, end, ms)
  {
    hide NextCursor;
    if StepReturns(start, ms) {
      MovesBack(cursor, end, ms);
    } else {
      AdvancesExactly(cursor, end, ms);
    }
  }

  lemma {:induction false} RoundsLeft(start: int, end: int, ms: real, n: nat)
    requires Inside(start, end) && Valid(end) && LoopEnds(start, end, ms)
    ensures var cursor := CursorAfter(start, end, ms, n);
            && OnTheWay(start, cursor, ms)
            && (Inside(cursor, end) ==> Remaining(start, cursor, end, ms) + n <= Remaining(start, start, end, ms))
    decreases n
  {
    hide NextCursor, Remaining, LoopEnds, OnTheWay;
    if n == 0 {
      AtTheStart(start, ms);
    } else {
      RoundsLeft(start, end, ms, n - 1);
      var cursor := CursorAfter(start, end, ms, n - 1);
      if Inside(cursor, end) { RoundEnds(start, cursor, end, ms); }
    }
  }

  lemma AtTheStart(start: int, ms: real)
    ensures OnTheWay(start, start, ms)
  {
  }

  /**
   The loop over a range ends exactly for limits of at least a millisecond either way, or of less forwards when the range
   ends by the epoch or the first step lands before the first date of all.
   */
  lemma EndsExactly(start: int, end: int, ms: real)
    requires Valid(start) && Valid(end) && start <= end
    ensures (exists n :: !Inside(CursorAfter(start, end, ms, n), end)) <==> LoopEnds(start, end, ms)
  {
    if LoopEnds(start, end, ms) {
      var n := Remaining(start, start, end, ms);
      RoundsLeft(start, end, ms, n);
      assert !Inside(CursorAfter(start, end, ms, n), end);
    } else {
      forall n ensures Inside(CursorAfter(start, end, ms, n), end) { CaughtForEver(start, end, ms, n); }
    }
  }

  // ----- splitting -----

  // Windows that each end before they start.
  predicate Returning(ws: seq<Window>, start: int, end: int, ms: real)
    requires |ws| > 0
  {
    && ws[0].from == start
    && (forall i :: 0 <= i < |ws| ==> ws[i].to < ws[i].from && ws[i].to == WindowEnd(ws[i].from, end, ms))
    && (forall i :: 0 <= i < |ws| - 1 ==> Valid(ws[i].to))
    && (forall i, j :: 0 <= i && j == i + 1 < |ws| ==> ws[j].from == ws[i].to + 1)
  }

  // The windows of a negative limit: the last one ends at no date.
  predicate Backwards(ws: seq<Window>, start: int, end: int, ms: real) {
    |ws| > 0 && Returning(ws, start, end, ms) && !Valid(ws[|ws| - 1].to)
  }

  // Such windows so far, and the cursor after them.
  predicate SoFar(ws: seq<Window>, start: int, end: int, ms: real, cursor: int) {
    if ws == [] then cursor == start else Returning(ws, start, end, ms) && cursor == Following(ws[|ws| - 1].to)
  }

  lemma NextBackwards(ws: seq<Window>, start: int, end: int, ms: real, cursor: int)
    requires SoFar(ws, start, end, ms, cursor) && Inside(cursor, end) && StepReturns(cursor, ms)
    ensures var to := WindowEnd(cursor, end, ms); SoFar(ws + [Window(cursor, to)], start, end, ms, Following(to))
  {
    hide WindowEnd;
    MovesBack(cursor, end, ms);
    var to := WindowEnd(cursor, end, ms);
    var more := ws + [Window(cursor, to)];
    assert more[|ws|] == Window(cursor, to);
    assert more[0].from == start;
    forall i, j | 0 <= i && j == i + 1 < |more| ensures more[j].from == more[i].to + 1 {
      assert more[i] == ws[i];
      if j < |ws| { assert more[j] == ws[j]; }
    }
  }

  lemma OneWindow(w: Window, limit: int, ms: real)
    requires w.from <= w.to == WindowEnd(w.from, limit, ms)
    ensures Tile([w], w.from, w.to, limit, ms)
  {
  }

  lemma NextWindow(ws: seq<Window>, start: int, limit: int, w: Window, ms: real)
    requires Tile(ws, start, w.from - 1, limit, ms)
    requires w.from <= w.to == WindowEnd(w.from, limit, ms)
    ensures Tile(ws + [w], start, w.to, limit, ms)
  {
    hide WindowEnd;
  }

  // The limits excluded are exactly those for which the loop would not end.
  method BuildEtaSearchWindows(from: int, to: int, maxDays: real) returns (r: Result<seq<Window>, Error>)
    requires Valid(from) && Valid(to) ==> LoopEnds(Earlier(from, to), Later(from, to), maxDays * DAY_MS)
    ensures r.Err? <==> !Valid(from) || !Valid(to)
    ensures r.Ok? ==>
      var start, end, ms := Earlier(from, to), Later(from, to), maxDays * DAY_MS;
      if StepReturns(start, ms) then Backwards(r.value, start, end, ms) else Tile(r.value, start, end, end, ms)
  {
    hide Tile, WindowEnd, SoFar, NextCursor, OnTheWay, StepReturns, LoopEnds, Remaining, Backwards;
    if !Valid(from) || !Valid(to) { return Err(InvalidRange); }
    var start := if from <= to then from else to;
    var end := if from <= to then to else from;
    var ms := maxDays * DAY_MS;
    var windows: seq<Window> := [];
    var cursor := start;
    NothingYet(start, end, ms);
    AtTheStart(start, ms);
    while Valid(cursor) && cursor <= end
      invariant windows == [] ==> cursor == start
      invariant OnTheWay(start, cursor, ms)
      invariant StepReturns(start, ms) ==> cursor <= end && SoFar(windows, start, end, ms, cursor)
      invariant !StepReturns(start, ms) ==> cursor <= end + 1
      invariant !StepReturns(start, ms) && windows != [] ==> Tile(windows, start, cursor - 1, end, ms)
      decreases Remaining(start, cursor, end, ms)
    {
      RoundEnds(start, cursor, end, ms);
      var windowEnd := WindowEnd(cursor, end, ms);
      var w := Window(cursor, windowEnd);
      NextCursorIs(cursor, end, ms);
      if StepReturns(start, ms) {
        MoreBackwards(windows, start, end, ms, cursor);
      } else {
        MoreWindows(windows, start, end, w, ms);
      }
      windows := windows + [w];
      cursor := Following(windowEnd);
    }
    if StepReturns(start, ms) {
      BackwardsAtLast(windows, start, end, ms, cursor);
    } else {
      TiledAtLast(start, cursor, end, ms);
    }
    return Ok(if |windows| > 0 then windows else [Window(start, end)]);
  }

  lemma MoreBackwards(ws: seq<Window>, start: int, end: int, ms: real, cursor: int)
    requires SoFar(ws, start, end, ms, cursor) && Inside(cursor, end) && StepReturns(start, ms) && OnTheWay(start, cursor, ms)
    ensures var to := WindowEnd(cursor, end, ms);
            SoFar(ws + [Window(cursor, to)], start, end, ms, Following(to)) && Following(to) <= end
  {
    hide WindowEnd, SoFar;
    NextBackwards(ws, start, end, ms, cursor);
    MovesBack(cursor, end, ms);
    NextCursorIs(cursor, end, ms);
  }

  lemma TiledAtLast(start: int, cursor: int, end: int, ms: real)
    requires Valid(start) && Valid(end) && !StepReturns(start, ms) && OnTheWay(start, cursor, ms)
    requires !Inside(cursor, end) && cursor <= end + 1
    ensures cursor == end + 1
  {
  }

  lemma NothingYet(start: int, end: int, ms: real)
    ensures SoFar([], start, end, ms, start)
  {
  }

  lemma NextCursorIs(cursor: int, end: int, ms: real)
    ensures NextCursor(cursor, end, ms) == Following(WindowEnd(cursor, end, ms))
  {
  }

  // One more window of a positive limit.
  lemma MoreWindows(ws: seq<Window>, start: int, end: int, w: Window, ms: real)
    requires Inside(w.from, end) && Inside(start, end) && Valid(end) && LoopEnds(start, end, ms) && !StepReturns(start, ms)
    requires OnTheWay(start, w.from, ms) && w.to == WindowEnd(w.from, end, ms)
    requires if ws == [] then w.from == start else Tile(ws, start, w.from - 1, end, ms)
    ensures w.from <= w.to <= end && Valid(w.to) && Tile(ws + [w], start, w.to, end, ms)
  {
    hide WindowEnd, Tile;
    AdvancesExactly(w.from, end, ms);
    NextCursorIs(w.from, end, ms);
    if ws == [] {
      OneWindow(w, end, ms);
      assert ws + [w] == [w];
    } else {
      NextWindow(ws, start, end, w, ms);
    }
  }

  lemma BackwardsAtLast(ws: seq<Window>, start: int, end: int, ms: real, cursor: int)
    requires SoFar(ws, start, end, ms, cursor) && ws != [] && !Valid(cursor) && cursor <= end && Valid(end)
    ensures Backwards(ws, start, end, ms)
  {
    hide WindowEnd;
  }

  // The windows of a negative limit hold no instant.
  lemma BackwardsFindNothing(ws: seq<Window>, start: int, end: int, ms: real, i: nat, t: int)
    requires Backwards(ws, start, end, ms) && i < |ws|
    ensures !Within(ws[i], t)
  {
    hide WindowEnd;
  }

  /** No window is longer than the limit: the milliseconds from its first to its last are fewer than the step. */
  lemma WithinLimit(ws: seq<Window>, start: int, end: int, ms: real, i: nat)
    requires Tile(ws, start, end, end, ms) && i < |ws| && ms > 0.0
    ensures (ws[i].to - ws[i].from) as real < ms
  {
  }

  /** In days: no window of a range split by days is longer than so many days, and all but the last are as long. */
  lemma DaysPerWindow(ws: seq<Window>, start: int, end: int, days: nat, i: nat)
    requires days >= 1 && Tile(ws, start, end, end, days as real * DAY_MS) && i < |ws|
    ensures var length := ws[i].to + 1 - ws[i].from;
            length <= days * (24 * 60 * 60 * 1000) && (i < |ws| - 1 ==> length == days * (24 * 60 * 60 * 1000))
  {
    hide Tile;
    var ms := days * (24 * 60 * 60 * 1000);
    assert days as real * DAY_MS == ms as real;
    StepsPerWindow(ws, start, end, ms, i);
  }

  lemma StepsPerWindow(ws: seq<Window>, start: int, end: int, ms: nat, i: nat)
    requires ms >= 1 && Tile(ws, start, end, end, ms as real) && i < |ws|
    ensures ws[i].to + 1 - ws[i].from <= ms && (i < |ws| - 1 ==> ws[i].to + 1 - ws[i].from == ms)
  {
    hide WindowEnd;
    Ordered(ws, start, end, ms as real, i, |ws| - 1);
    WholeWindowEnd(ws[i].from, end, ms);
  }

  // Later windows start after earlier ones end.
  lemma {:induction false} Ordered(ws: seq<Window>, start: int, end: int, ms: real, i: nat, j: nat)
    requires Tile(ws, start, end, end, ms) && i < |ws| && j < |ws|
    ensures i < j ==> ws[i].to < ws[j].from
    decreases j
  {
    hide WindowEnd;
    if i < j {
      assert ws[j].from == ws[j - 1].to + 1;
      Ordered(ws, start, end, ms, i, j - 1);
    }
  }

  /** Every instant of the range is in exactly one window, and no other instant is in any. */
  lemma EveryInstantOnce(ws: seq<Window>, start: int, end: int, ms: real, t: int)
    requires Tile(ws, start, end, end, ms)
    ensures start <= t <= end <==> exists i :: 0 <= i < |ws| && Within(ws[i], t)
    ensures forall i, j :: 0 <= i < |ws| && 0 <= j < |ws| && Within(ws[i], t) && Within(ws[j], t) ==> i == j
  {
    hide WindowEnd;
    if start <= t <= end {
      var i := FindWindow(ws, start, end, ms, t, |ws| - 1);
    }
    forall i | 0 <= i < |ws| && Within(ws[i], t) ensures start <= t <= end {
      Ordered(ws, start, end, ms, 0, i);
      Ordered(ws, start, end, ms, i, |ws| - 1);
    }
    forall i, j | 0 <= i < |ws| && 0 <= j < |ws| && Within(ws[i], t) && Within(ws[j], t) ensures i == j {
      Ordered(ws, start, end, ms, i, j);
      Ordered(ws, start, end, ms, j, i);
    }
  }

  lemma {:induction false} FindWindow(ws: seq<Window>, start: int, end: int, ms: real, t: int, k: nat) returns (i: nat)
    requires Tile(ws, start, end, end, ms) && k < |ws| && start <= t <= ws[k].to
    ensures i <= k && Within(ws[i], t)
    decreases k
  {
    hide WindowEnd;
    if ws[k].from <= t {
      i := k;
    } else {
      assert k > 0;
      assert ws[k].from == ws[k - 1].to + 1;
      i := FindWindow(ws, start, end, ms, t, k - 1);
    }
  }

  // ----- steps of whole milliseconds -----

  lemma WholeWindowEnd(cursor: int, end: int, ms: nat)
    requires cursor <= end
    ensures WindowEnd(cursor, end, ms as real) == if cursor + ms - 1 < end then cursor + ms - 1 else end
  {
  }

  // The windows before the k-th are full.
  lemma {:induction false} FullWindows(ws: seq<Window>, start: int, end: int, ms: nat, k: nat)
    requires ms >= 1 && Tile(ws, start, end, end, ms as real) && k < |ws|
    ensures ws[k].from == start + k * ms
    decreases k
  {
    hide WindowEnd;
    if k > 0 {
      FullWindows(ws, start, end, ms, k - 1);
      assert ws[k].from == ws[k - 1].to + 1;
      Ordered(ws, start, end, ms as real, k, |ws| - 1);
      WholeWindowEnd(ws[k - 1].from, end, ms);
      assert k * ms == (k - 1) * ms + ms;
    }
  }

  // How many windows there are.
  lemma WindowCount(ws: seq<Window>, start: int, end: int, ms: nat)
    requires ms >= 1 && Tile(ws, start, end, end, ms as real)
    ensures |ws| == (end - start) / ms + 1
  {
    hide WindowEnd;
    var k := |ws| - 1;
    FullWindows(ws, start, end, ms, k);
    WithinLimit(ws, start, end, ms as real, k);
    Quotient(end - start, ms, k);
  }

  lemma Quotient(d: int, ms: int, k: nat)
    requires ms >= 1 && k * ms <= d <= k * ms + ms - 1
    ensures d / ms == k
  {
    var q, r := d / ms, d % ms;
    assert d == q * ms + r;
    if q < k {
      Multiples(ms, q, k);
    } else if q > k {
      Multiples(ms, k, q);
    }
  }

  lemma Multiples(ms: int, i: int, j: int)
    requires ms >= 1 && i < j
    ensures i * ms + ms <= j * ms
  {
    Grows(ms, j - i);
    assert j * ms == i * ms + (j - i) * ms;
  }

  lemma Grows(ms: int, n: int)
    requires ms >= 1 && n >= 1
    ensures n * ms >= ms
  {
  }

  // ----- whole seconds -----

  // toISOString with the milliseconds cut off.
  function Seconds(t: int): int { t / 1000 * 1000 }

  function Cut(w: Window): Window { Window(Seconds(w.from), Seconds(w.to)) }

  /** No whole second of the range is lost when the window ends are cut to whole seconds. */
  lemma NoSecondIsLost(ws: seq<Window>, start: int, end: int, ms: real, t: int)
    requires Tile(ws, start, end, end, ms) && start <= t <= end && t % 1000 == 0
    ensures exists i :: 0 <= i < |ws| && Within(Cut(ws[i]), t)
  {
    hide Tile, WindowEnd;
    TileEnds(ws, start, end, ms);
    var i := FindWindow(ws, start, end, ms, t, |ws| - 1);
    assert Within(Cut(ws[i]), t);
  }

  lemma TileEnds(ws: seq<Window>, start: int, end: int, ms: real)
    requires Tile(ws, start, end, end, ms)
    ensures |ws| > 0 && ws[|ws| - 1].to == end
  {
  }

  // Cut windows meet without sharing a second exactly when the later one starts on a whole second.
  lemma SharedSeconds(ws: seq<Window>, start: int, end: int, ms: real, i: nat)
    requires Tile(ws, start, end, end, ms) && i + 1 < |ws|
    ensures var a, b := Cut(ws[i]), Cut(ws[i + 1]);
            b.from == if ws[i + 1].from % 1000 == 0 then a.to + 1000 else a.to
  {
    hide WindowEnd;
    assert ws[i + 1].from == ws[i].to + 1;
    SecondsAround(ws[i + 1].from);
  }

  // With a step of whole seconds, as of whole days, that is when the range starts on a whole second.
  lemma WholeSecondSteps(ws: seq<Window>, start: int, end: int, seconds: nat, i: nat)
    requires seconds >= 1 && Tile(ws, start, end, end, (1000 * seconds) as real) && i < |ws|
    ensures ws[i].from % 1000 == start % 1000
  {
    hide WindowEnd;
    FullWindows(ws, start, end, 1000 * seconds, i);
    assert i * (1000 * seconds) == 1000 * (i * seconds);
    Thousands(start, i * seconds);
  }

  lemma Thousands(start: int, q: int)
    ensures (start + 1000 * q) % 1000 == start % 1000
  {
  }

  lemma SecondsAround(t: int)
    ensures Seconds(t) == if t % 1000 == 0 then Seconds(t - 1) + 1000 else Seconds(t - 1)
  {
  }
}
