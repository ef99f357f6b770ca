/**
 Where the answers of the token cache come from: a fresh token was read from Redis under the caller's key, or the producer
 returned it and it was written back; an error was thrown by one of these.
 */
module TokenAnswers {
  import opened Wrappers
  import opened TokenCache

  /** A token is due once eight tenths of its lifetime have gone, or all of it. */
  lemma DueExactly(t: Token, now: int)
    ensures var elapsed := (now - t.obtainedAt) as real / 1000.0;
            RefreshDue(t, now) <==> elapsed >= t.expiresIn as real || elapsed >= 0.8 * t.expiresIn as real
  {
  }

  // A writing job leaves its token in Redis under its key.
  lemma StoringWrites(s: State, j: nat)
    requires j < |s.jobs| && s.jobs[j].phase.Storing?
    ensures Step(s, JobStores(j, None)).redis == s.redis[s.jobs[j].key := s.jobs[j].phase.token]
  {
  }

  predicate Happened(es: seq<Event>, e: Event) {
    exists i :: 0 <= i < |es| && es[i] == e
  }

  function After(redis: map<string, Token>, now: int, es: seq<Event>, k: nat): State
    requires k <= |es|
  {
    Run(Start(redis, now), es[..k])
  }

  // At some time of the run Redis had this under the key.
  predicate Found(redis: map<string, Token>, now: int, es: seq<Event>, key: string, found: Option<Token>) {
    exists k: nat :: k <= |es| && Get(After(redis, now, es, k).redis, key) == found
  }

  // At some time of the run the token was not due.
  predicate WasFresh(redis: map<string, Token>, now: int, es: seq<Event>, t: Token) {
    exists k: nat :: k <= |es| && !RefreshDue(t, After(redis, now, es, k).now)
  }

  // Read while fresh.
  predicate ReadFresh(redis: map<string, Token>, now: int, es: seq<Event>, key: string, t: Token) {
    Found(redis, now, es, key, Some(t)) && WasFresh(redis, now, es, t)
  }

  predicate WasProduced(es: seq<Event>, j: nat, t: Token) {
    Happened(es, Produced(j, Ok(t)))
  }

  predicate JobExplained(redis: map<string, Token>, now: int, es: seq<Event>, key: string, phase: JobPhase, j: nat) {
    match phase
    case Rereading => true
    case Reread(found) => Found(redis, now, es, key, found)
    case Producing => true
    case Storing(t) => WasProduced(es, j, t)
    case Stored(t) => WasProduced(es, j, t) && Happened(es, JobStores(j, None))
    case Settled(Ok(t)) =>
      ReadFresh(redis, now, es, key, t) || (WasProduced(es, j, t) && Happened(es, JobStores(j, None)))
    case Settled(Err(f)) =>
      Happened(es, JobReads(j, Some(f))) || Happened(es, Produced(j, Err(f))) || Happened(es, JobStores(j, Some(f)))
  }

  predicate CallerExplained(redis: map<string, Token>, now: int, es: seq<Event>, key: string, phase: CallerPhase, c: nat) {
    match phase
    case Answered(found) => Found(redis, now, es, key, found)
    case Finished(Ok(t), None) => ReadFresh(redis, now, es, key, t)
    case Finished(Err(f), None) => Happened(es, CallerReads(c, Some(f)))
    case _ => true
  }

  ghost predicate Explained(redis: map<string, Token>, now: int, es: seq<Event>) {
    var s := Run(Start(redis, now), es);
    && (forall j :: 0 <= j < |s.jobs| ==> JobExplained(redis, now, es, s.jobs[j].key, s.jobs[j].phase, j))
    && (forall c :: 0 <= c < |s.callers| ==> CallerExplained(redis, now, es, s.callers[c].key, s.callers[c].phase, c))
  }

  // ----- what was explained stays so -----

  lemma Longer(redis: map<string, Token>, now: int, es: seq<Event>, e: Event, k: nat)
    requires k <= |es|
    ensures After(redis, now, es + [e], k) == After(redis, now, es, k)
  {
    assert (es + [e])[..k] == es[..k];
  }

  lemma HappenedStays(es: seq<Event>, e: Event, x: Event)
    ensures Happened(es, x) ==> Happened(es + [e], x)
    ensures Happened(es + [e], e)
  {
    if Happened(es, x) {
      var i :| 0 <= i < |es| && es[i] == x;
      assert (es + [e])[i] == x;
    }
    assert (es + [e])[|es|] == e;
  }

  lemma FoundStays(redis: map<string, Token>, now: int, es: seq<Event>, e: Event, key: string, found: Option<Token>)
    ensures Found(redis, now, es, key, found) ==> Found(redis, now, es + [e], key, found)
  {
    hide After;
    if Found(redis, now, es, key, found) {
      var k: nat :| k <= |es| && Get(After(redis, now, es, k).redis, key) == found;
      Longer(redis, now, es, e, k);
    }
  }

  lemma FreshStays(redis: map<string, Token>, now: int, es: seq<Event>, e: Event, t: Token)
    ensures WasFresh(redis, now, es, t) ==> WasFresh(redis, now, es + [e], t)
  {
    hide After;
    if WasFresh(redis, now, es, t) {
      var k: nat :| k <= |es| && !RefreshDue(t, After(redis, now, es, k).now);
      Longer(redis, now, es, e, k);
    }
  }

  lemma JobStaysExplained(redis: map<string, Token>, now: int, es: seq<Event>, e: Event, key: string, phase: JobPhase, j: nat)
    requires JobExplained(redis, now, es, key, phase, j)
    ensures JobExplained(redis, now, es + [e], key, phase, j)
  {
    hide Found, WasFresh, Happened;
    forall x ensures Happened(es, x) ==> Happened(es + [e], x) { HappenedStays(es, e, x); }
    forall found ensures Found(redis, now, es, key, found) ==> Found(redis, now, es + [e], key, found) {
      FoundStays(redis, now, es, e, key, found);
    }
    forall t ensures WasFresh(redis, now, es, t) ==> WasFresh(redis, now, es + [e], t) { FreshStays(redis, now, es, e, t); }
  }

  lemma CallerStaysExplained(redis: map<string, Token>, now: int, es: seq<Event>, e: Event, key: string,
                             phase: CallerPhase, c: nat)
    requires CallerExplained(redis, now, es, key, phase, c)
    ensures CallerExplained(redis, now, es + [e], key, phase, c)
  {
    hide Found, WasFresh, Happened;
    forall x ensures Happened(es, x) ==> Happened(es + [e], x) { HappenedStays(es, e, x); }
    forall found ensures Found(redis, now, es, key, found) ==> Found(redis, now, es + [e], key, found) {
      FoundStays(redis, now, es, e, key, found);
    }
    forall t ensures WasFresh(redis, now, es, t) ==> WasFresh(redis, now, es + [e], t) { FreshStays(redis, now, es, e, t); }
  }

  // ----- one step -----

  // What Redis and the clock have now, they have at some time of the run.
  lemma Now(redis: map<string, Token>, now: int, es: seq<Event>, e: Event, key: string)
    ensures var s := Run(Start(redis, now), es);
            && Found(redis, now, es + [e], key, Get(s.redis, key))
            && forall t :: !RefreshDue(t, s.now) ==> WasFresh(redis, now, es + [e], t)
  {
    assert (es + [e])[..|es|] == es;
    var s := After(redis, now, es + [e], |es|);
    assert s == Run(Start(redis, now), es);
  }

  lemma JobStepExplained(redis: map<string, Token>, now: int, es: seq<Event>, e: Event, j: nat)
    requires var s := Run(Start(redis, now), es);
             j < |s.jobs| ==> JobExplained(redis, now, es, s.jobs[j].key, s.jobs[j].phase, j)
    requires j < |Step(Run(Start(redis, now), es), e).jobs|
    ensures var t := Step(Run(Start(redis, now), es), e); JobExplained(redis, now, es + [e], t.jobs[j].key, t.jobs[j].phase, j)
  {
    hide Run, Found, WasFresh, Happened, RefreshDue;
    var s := Run(Start(redis, now), es);
    if j < |s.jobs| {
      JobStaysExplained(redis, now, es, e, s.jobs[j].key, s.jobs[j].phase, j);
      Now(redis, now, es, e, s.jobs[j].key);
    }
    HappenedStays(es, e, e);
  }

  lemma CallerStepExplained(redis: map<string, Token>, now: int, es: seq<Event>, e: Event, c: nat)
    requires var s := Run(Start(redis, now), es);
             c < |s.callers| ==> CallerExplained(redis, now, es, s.callers[c].key, s.callers[c].phase, c)
    requires c < |Step(Run(Start(redis, now), es), e).callers|
    ensures var t := Step(Run(Start(redis, now), es), e);
            CallerExplained(redis, now, es + [e], t.callers[c].key, t.callers[c].phase, c)
  {
    hide Run, Found, WasFresh, Happened, RefreshDue;
    var s := Run(Start(redis, now), es);
    if c < |s.callers| {
      CallerStaysExplained(redis, now, es, e, s.callers[c].key, s.callers[c].phase, c);
      Now(redis, now, es, e, s.callers[c].key);
    }
    HappenedStays(es, e, e);
  }

  /** In every run every answer is explained by what was read, produced, written or thrown in it. */
  lemma {:induction false} AnswersAreExplained(redis: map<string, Token>, now: int, es: seq<Event>)
    ensures Explained(redis, now, es)
    decreases |es|
  {
    hide Step, JobExplained, CallerExplained;
    if es != [] {
      var init, e := es[..|es| - 1], es[|es| - 1];
      AnswersAreExplained(redis, now, init);
      assert es == init + [e];
      var t := Step(Run(Start(redis, now), init), e);
      forall j | 0 <= j < |t.jobs| ensures JobExplained(redis, now, es, t.jobs[j].key, t.jobs[j].phase, j) {
        JobStepExplained(redis, now, init, e, j);
      }
      forall c | 0 <= c < |t.callers| ensures CallerExplained(redis, now, es, t.callers[c].key, t.callers[c].phase, c) {
        CallerStepExplained(redis, now, init, e, c);
      }
    }
  }
}
