/**
 Retrying a request (eta-http.ts:63-112) and spacing request starts (eta-rate-limit.ts:93-107).
 The server is any sequence of answers; the clock and the timers are any schedule.
 */
module EtaHttp {
  import opened Wrappers

  datatype Answer = Response(status: int) | Failure(error: string, timeout: bool)

  const MAX_RATE_RETRIES := 6
  const SERVER_BACKOFF: seq<nat> := [200, 800, 2000]
  const MAX_ATTEMPTS := MAX_RATE_RETRIES + |SERVER_BACKOFF| + 1

  // How one request ended, after how many calls, and the fixed waits it spent on the way.
  datatype Ending = Ending(result: Result<int, string>, calls: nat, waits: seq<nat>)

  datatype Decision = Stop(result: Result<int, string>) | SpendRate | SpendServer

  // What to do with an answer, given how much of the two allowances is spent.
  function Decide(answer: Answer, rate: nat, server: nat): Decision {
    match answer
    case Response(status) =>
      if status == 429 then (if rate >= MAX_RATE_RETRIES then Stop(Ok(status)) else SpendRate)
      else if status >= 500 && server < |SERVER_BACKOFF| then SpendServer
      else Stop(Ok(status))
    case Failure(error, timeout) =>
      if timeout || server >= |SERVER_BACKOFF| then Stop(Err(error)) else SpendServer
  }

  /**
   Retrying by its two allowances alone, with no bound on the number of calls: a 429 spends one of six,
   a server or network failure one of three, and everything else ends the request with the last answer.
   */
  function Retry(answers: nat -> Answer, calls: nat, rate: nat, server: nat): (e: Ending)
    requires rate <= MAX_RATE_RETRIES && server <= |SERVER_BACKOFF|
    ensures calls < e.calls <= calls + (MAX_RATE_RETRIES - rate) + (|SERVER_BACKOFF| - server) + 1
    ensures match answers(e.calls - 1)
            case Response(status) => e.result == Ok(status)
            case Failure(error, _) => e.result == Err(error)
    ensures |e.waits| >= server && e.waits <= SERVER_BACKOFF
    decreases MAX_RATE_RETRIES - rate + |SERVER_BACKOFF| - server
  {
    match Decide(answers(calls), rate, server)
    case Stop(result) => Ending(result, calls + 1, SERVER_BACKOFF[..server])
    case SpendRate => Retry(answers, calls + 1, rate + 1, server)
    case SpendServer => Retry(answers, calls + 1, rate, server + 1)
  }

  lemma RetryOnce(answers: nat -> Answer, calls: nat, rate: nat, server: nat)
    requires rate <= MAX_RATE_RETRIES && server <= |SERVER_BACKOFF|
    ensures match Decide(answers(calls), rate, server)
            case Stop(result) =>
              Retry(answers, calls, rate, server) == Ending(result, calls + 1, SERVER_BACKOFF[..server])
            case SpendRate =>
              rate < MAX_RATE_RETRIES
              && Retry(answers, calls, rate, server) == Retry(answers, calls + 1, rate + 1, server)
            case SpendServer =>
              server < |SERVER_BACKOFF|
              && Retry(answers, calls, rate, server) == Retry(answers, calls + 1, rate, server + 1)
  {
  }

  // The loop counts attempts as well; it ends as the two allowances say, so never by running out of attempts.
  method EtaFetch(answers: nat -> Answer) returns (e: Ending)
    ensures e == Retry(answers, 0, 0, 0)
    ensures 1 <= e.calls <= 10
  {
    hide Retry;
    var lastError := "ETA request failed after retries";
    var rateAttempts, serverAttempts := 0, 0;
    var waits: seq<nat> := [];
    var attempt := 0;
    while attempt < MAX_ATTEMPTS
      invariant rateAttempts <= MAX_RATE_RETRIES && serverAttempts <= |SERVER_BACKOFF|
      invariant attempt == rateAttempts + serverAttempts
      invariant waits == SERVER_BACKOFF[..serverAttempts]
      invariant Retry(answers, attempt, rateAttempts, serverAttempts) == Retry(answers, 0, 0, 0)
    {
      RetryOnce(answers, attempt, rateAttempts, serverAttempts);
      match answers(attempt) {
        case Response(status) =>
          if status == 429 {
            if rateAttempts >= MAX_RATE_RETRIES { return Ending(Ok(status), attempt + 1, waits); }
            rateAttempts := rateAttempts + 1;
          } else if status >= 500 && serverAttempts < |SERVER_BACKOFF| {
            waits := waits + [SERVER_BACKOFF[serverAttempts]];
            serverAttempts := serverAttempts + 1;
          } else {
            return Ending(Ok(status), attempt + 1, waits);
          }
        case Failure(error, timeout) =>
          lastError := error;
          if timeout || serverAttempts >= |SERVER_BACKOFF| { return Ending(Err(lastError), attempt + 1, waits); }
          waits := waits + [SERVER_BACKOFF[serverAttempts]];
          serverAttempts := serverAttempts + 1;
      }
      attempt := attempt + 1;
    }
  }

  function Answers(n: nat): Answer {
    Response(if n < 6 then 429 else 503)
  }

  // Ten calls can happen: six answers of 429 and three of 503, then one more.
  lemma TenCallsAttained()
    ensures Retry(Answers, 0, 0, 0) == Ending(Ok(503), 10, SERVER_BACKOFF)
  {
    RateLimited(0);
    ServerFails(0);
  }

  lemma {:induction false} RateLimited(k: nat)
    requires k <= 6
    ensures Retry(Answers, k, k, 0) == Retry(Answers, 6, 6, 0)
    decreases 6 - k
  {
    if k < 6 { RateLimited(k + 1); }
  }

  lemma {:induction false} ServerFails(k: nat)
    requires k <= 3
    ensures Retry(Answers, 6 + k, 6, k) == Ending(Ok(503), 10, SERVER_BACKOFF)
    decreases 3 - k
  {
    if k < 3 { ServerFails(k + 1); }
  }

  // ----- spacing request starts -----

  /**
   One turn in the queue: when it began, how much later than asked its timer fired, and the delay read for the next
   turn (none when reading it throws).
   */
  datatype Turn = Turn(begins: int, late: nat, delay: Option<nat>)

  function StartOf(nextAllowed: int, turn: Turn): int {
    if nextAllowed > turn.begins then nextAllowed + turn.late else turn.begins
  }

  class RequestStartPacer {
    var nextAllowed: int

    constructor ()
      ensures nextAllowed == 0
    {
      nextAllowed := 0;
    }

    // A turn that throws leaves the time unchanged; the chain goes on.
    method Take(turn: Turn) returns (start: Option<int>)
      modifies this
      ensures turn.delay.None? ==> start == None && nextAllowed == old(nextAllowed)
      ensures turn.delay.Some? ==> start == Some(StartOf(old(nextAllowed), turn))
                                   && nextAllowed == start.value + turn.delay.value
    {
      var wait := nextAllowed - turn.begins;
      var now := turn.begins;
      if wait > 0 { now := now + wait + turn.late; }
      if turn.delay.None? { return None; }
      nextAllowed := now + turn.delay.value;
      return Some(now);
    }
  }

  // The time allowed after some turns.
  function Allowed(turns: seq<Turn>): int {
    if turns == [] then 0
    else
      var before, last := Allowed(turns[..|turns| - 1]), turns[|turns| - 1];
      if last.delay.None? then before else StartOf(before, last) + last.delay.value
  }

  function Start(turns: seq<Turn>, i: nat): int
    requires i < |turns|
  {
    StartOf(Allowed(turns[..i]), turns[i])
  }

  // Turns are chained: each begins once the one before is over.
  predicate Chained(turns: seq<Turn>) {
    forall i, j :: 0 <= i && j == i + 1 < |turns| ==> Start(turns, i) <= turns[j].begins
  }

  method Pace(turns: seq<Turn>) returns (starts: seq<Option<int>>)
    ensures |starts| == |turns|
    ensures forall i :: 0 <= i < |turns| ==>
              starts[i] == if turns[i].delay.Some? then Some(Start(turns, i)) else None
  {
    var pacer := new RequestStartPacer();
    starts := [];
    for i := 0 to |turns|
      invariant |starts| == i && pacer.nextAllowed == Allowed(turns[..i])
      invariant forall k :: 0 <= k < i ==>
                  starts[k] == if turns[k].delay.Some? then Some(Start(turns, k)) else None
    {
      assert turns[..i + 1][..i] == turns[..i];
      var start := pacer.Take(turns[i]);
      starts := starts + [start];
    }
  }

  lemma {:induction false} AllowedGrows(turns: seq<Turn>, i: nat, j: nat)
    requires i <= j <= |turns|
    ensures Allowed(turns[..i]) <= Allowed(turns[..j])
    decreases j - i
  {
    if i < j {
      AllowedGrows(turns, i, j - 1);
      assert turns[..j][..j - 1] == turns[..j - 1];
    }
  }

  /** Starts come in call order, each at least the earlier one's delay after it, whatever the schedule. */
  lemma StartsAreSpaced(turns: seq<Turn>, i: nat, j: nat)
    requires i < j < |turns| && turns[i].delay.Some?
    ensures Start(turns, j) >= Start(turns, i) + turns[i].delay.value
  {
    assert turns[..i + 1][..i] == turns[..i];
    AllowedGrows(turns, i + 1, j);
  }

  /** Even turns that failed keep their place: chained starts never go back in time. */
  lemma {:induction false} StartsInOrder(turns: seq<Turn>, i: nat, j: nat)
    requires Chained(turns) && i <= j < |turns|
    ensures Start(turns, i) <= Start(turns, j)
    decreases j - i
  {
    if i < j { StartsInOrder(turns, i, j - 1); }
  }
}
