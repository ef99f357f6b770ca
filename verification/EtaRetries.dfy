/**
 Exactly which answers are retried, and how often (eta-http.ts:63-112): 429 up to six times; a status of 500 or more and a
 failure that is not a timeout up to three times, after 200, 800 and 2000 milliseconds; nothing else.
 */
module EtaRetries {
  import opened EtaHttp

  predicate RateLimited(a: Answer) {
    a.Response? && a.status == 429
  }

  predicate ServerFault(a: Answer) {
    if a.Response? then a.status >= 500 else !a.timeout
  }

  // How many of the first n answers were rate limits, and how many server faults.
  function RateLimits(answers: nat -> Answer, n: nat): nat {
    if n == 0 then 0 else RateLimits(answers, n - 1) + if RateLimited(answers(n - 1)) then 1 else 0
  }

  function Faults(answers: nat -> Answer, n: nat): nat {
    if n == 0 then 0 else Faults(answers, n - 1) + if ServerFault(answers(n - 1)) then 1 else 0
  }

  // The answer after which the request is over.
  predicate Final(answers: nat -> Answer, n: nat) {
    && (RateLimited(answers(n)) ==> RateLimits(answers, n) == 6)
    && (ServerFault(answers(n)) ==> Faults(answers, n) == 3)
  }

  lemma DecidesFinal(answers: nat -> Answer, n: nat)
    requires RateLimits(answers, n) <= 6 && Faults(answers, n) <= 3
    ensures var d := Decide(answers(n), RateLimits(answers, n), Faults(answers, n));
            && (d.Stop? <==> Final(answers, n))
            && (d.SpendRate? ==> RateLimits(answers, n + 1) == RateLimits(answers, n) + 1 <= 6
                                 && Faults(answers, n + 1) == Faults(answers, n))
            && (d.SpendServer? ==> RateLimits(answers, n + 1) == RateLimits(answers, n)
                                   && Faults(answers, n + 1) == Faults(answers, n) + 1 <= 3)
  {
  }

  lemma {:induction false} RetriesFrom(answers: nat -> Answer, n: nat)
    requires RateLimits(answers, n) <= 6 && Faults(answers, n) <= 3
    ensures var e := Retry(answers, n, RateLimits(answers, n), Faults(answers, n));
            && Final(answers, e.calls - 1)
            && (forall i :: n <= i < e.calls - 1 ==> !Final(answers, i))
            && Faults(answers, e.calls - 1) <= 3
            && e.waits == [200, 800, 2000][..Faults(answers, e.calls - 1)]
    decreases 9 - RateLimits(answers, n) - Faults(answers, n)
  {
    hide Retry, Decide, Final, RateLimits, Faults;
    RetryOnce(answers, n, RateLimits(answers, n), Faults(answers, n));
    DecidesFinal(answers, n);
    match Decide(answers(n), RateLimits(answers, n), Faults(answers, n))
    case Stop(_) =>
    case _ => RetriesFrom(answers, n + 1);
  }

  /**
   A request ends with the first answer that is final, after a wait for every server fault before it; an answer that is
   neither a rate limit nor a server fault is final at once.
   */
  lemma RetriesExactly(answers: nat -> Answer)
    ensures var e := Retry(answers, 0, 0, 0);
            && Final(answers, e.calls - 1)
            && (forall i :: 0 <= i < e.calls - 1 ==> !Final(answers, i))
            && Faults(answers, e.calls - 1) <= 3
            && e.waits == [200, 800, 2000][..Faults(answers, e.calls - 1)]
  {
    RetriesFrom(answers, 0);
  }
}
