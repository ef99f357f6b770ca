/**
 The token cache's single flight (eta-token.cache.ts:39-113). Between two awaits the code runs without interruption,
 so a run interleaves these stretches, of any number of callers and refresh jobs, with answers from Redis and the
 token endpoint, writes by other processes, expiry, and the passing of time.
 */
module TokenCache {
  import opened Wrappers

  // Times in milliseconds; the lifetime in seconds.
  datatype Token = Token(accessToken: string, expiresIn: int, obtainedAt: int)

  // Due once 80% of the lifetime has elapsed, or all of it.
  predicate RefreshDue(t: Token, now: int) {
    now - t.obtainedAt >= 1000 * t.expiresIn || 10 * (now - t.obtainedAt) >= 8 * (1000 * t.expiresIn)
  }

  predicate Fresh(found: Option<Token>, now: int) {
    found.Some? && !RefreshDue(found.value, now)
  }

  // The text of a thrown error.
  type Failure = string

  type Answer = Result<Token, Failure>

  datatype CallerPhase =
    | Asking
    | Answered(found: Option<Token>)
    | Waiting(job: nat)
    | Finished(answer: Answer, from: Option<nat>)

  datatype Caller = Caller(key: string, phase: CallerPhase)

  datatype JobPhase =
    | Rereading
    | Reread(found: Option<Token>)
    | Producing
    | Storing(token: Token)
    | Stored(token: Token)
    | Settled(answer: Answer)

  // What a job saw when it decided to call its producer.
  datatype Look = Look(found: Option<Token>, at: int)

  datatype Job = Job(key: string, phase: JobPhase, look: Option<Look>)

  datatype State = State(
    callers: seq<Caller>,
    jobs: seq<Job>,
    inflight: map<string, nat>,
    redis: map<string, Token>,
    now: int
  )

  function Get(redis: map<string, Token>, key: string): Option<Token> {
    if key in redis then Some(redis[key]) else None
  }

  // ----- stretches of getOrRefresh -----

  // After the first read: answer from the cache, join the flight, or start one.
  function ResumeCaller(s: State, c: nat): State
    requires c < |s.callers| && s.callers[c].phase.Answered?
  {
    var caller := s.callers[c];
    if Fresh(caller.phase.found, s.now) then
      s.(callers := s.callers[c := caller.(phase := Finished(Ok(caller.phase.found.value), None))])
    else if caller.key in s.inflight then
      s.(callers := s.callers[c := caller.(phase := Waiting(s.inflight[caller.key]))])
    else
      s.(
        callers := s.callers[c := caller.(phase := Waiting(|s.jobs|))],
        jobs := s.jobs + [Job(caller.key, Rereading, None)],
        inflight := s.inflight[caller.key := |s.jobs|]
      )
  }

  // The `finally` block: the key's entry goes, whatever it is, and the promise settles.
  function Settle(s: State, j: nat, answer: Answer): State
    requires j < |s.jobs|
  {
    s.(
      jobs := s.jobs[j := s.jobs[j].(phase := Settled(answer))],
      inflight := s.inflight - {s.jobs[j].key}
    )
  }

  function Advance(s: State, j: nat, phase: JobPhase): State
    requires j < |s.jobs|
  {
    s.(jobs := s.jobs[j := s.jobs[j].(phase := phase)])
  }

  // After the second read: give back what another worker stored, or call the producer.
  function ResumeJob(s: State, j: nat): State
    requires j < |s.jobs| && s.jobs[j].phase.Reread?
  {
    var found := s.jobs[j].phase.found;
    if Fresh(found, s.now) then Settle(s, j, Ok(found.value))
    else s.(jobs := s.jobs[j := s.jobs[j].(phase := Producing, look := Some(Look(found, s.now)))])
  }

  // ----- runs -----

  datatype Event =
    | Call(key: string)
    | CallerReads(caller: nat, error: Option<Failure>)
    | CallerResumes(caller: nat)
    | CallerJoined(caller: nat)
    | JobReads(job: nat, error: Option<Failure>)
    | JobResumes(job: nat)
    | Produced(job: nat, answer: Answer)
    | JobStores(job: nat, error: Option<Failure>)
    | JobReturns(job: nat)
    | Elsewhere(key: string, token: Option<Token>)   // another process, invalidate, or expiry
    | Tick(ms: nat)

  // An event that is not possible now changes nothing.
  function Step(s: State, e: Event): State {
    match e
    case Call(key) => s.(callers := s.callers + [Caller(key, Asking)])
    case CallerReads(c, error) =>
      if c < |s.callers| && s.callers[c].phase.Asking? then
        var caller := s.callers[c];
        var phase := if error.Some? then Finished(Err(error.value), None) else Answered(Get(s.redis, caller.key));
        s.(callers := s.callers[c := caller.(phase := phase)])
      else s
    case CallerResumes(c) => if c < |s.callers| && s.callers[c].phase.Answered? then ResumeCaller(s, c) else s
    case CallerJoined(c) =>
      if c < |s.callers| && s.callers[c].phase.Waiting? then
        var j := s.callers[c].phase.job;
        if j < |s.jobs| && s.jobs[j].phase.Settled?
        then s.(callers := s.callers[c := s.callers[c].(phase := Finished(s.jobs[j].phase.answer, Some(j)))])
        else s
      else s
    case JobReads(j, error) =>
      if j < |s.jobs| && s.jobs[j].phase.Rereading? then
        if error.Some? then Settle(s, j, Err(error.value)) else Advance(s, j, Reread(Get(s.redis, s.jobs[j].key)))
      else s
    case JobResumes(j) => if j < |s.jobs| && s.jobs[j].phase.Reread? then ResumeJob(s, j) else s
    case Produced(j, answer) =>
      if j < |s.jobs| && s.jobs[j].phase.Producing? then
        if answer.Err? then Settle(s, j, answer) else Advance(s, j, Storing(answer.value))
      else s
    case JobStores(j, error) =>
      if j < |s.jobs| && s.jobs[j].phase.Storing? then
        if error.Some? then Settle(s, j, Err(error.value))
        else
          var token := s.jobs[j].phase.token;
          Advance(s, j, Stored(token)).(redis := s.redis[s.jobs[j].key := token])
      else s
    case JobReturns(j) =>
      if j < |s.jobs| && s.jobs[j].phase.Stored? then Settle(s, j, Ok(s.jobs[j].phase.token)) else s
    case Elsewhere(key, token) =>
      s.(redis := if token.Some? then s.redis[key := token.value] else s.redis - {key})
    case Tick(ms) => s.(now := s.now + ms)
  }

  function Run(s: State, es: seq<Event>): State {
    if es == [] then s else Step(Run(s, es[..|es| - 1]), es[|es| - 1])
  }

  function Start(redis: map<string, Token>, now: int): State {
    State([], [], map[], redis, now)
  }

  // ----- the invariant -----

  predicate Live(j: Job) { !j.phase.Settled? }

  // The map holds exactly the live jobs, each under its own key.
  predicate FlightsMatch(s: State) {
    && (forall key :: key in s.inflight ==>
          s.inflight[key] < |s.jobs| && s.jobs[s.inflight[key]].key == key && Live(s.jobs[s.inflight[key]]))
    && (forall j :: 0 <= j < |s.jobs| && Live(s.jobs[j]) ==>
          s.jobs[j].key in s.inflight && s.inflight[s.jobs[j].key] == j)
  }

  predicate Called(j: Job) { j.phase.Producing? || j.phase.Storing? || j.phase.Stored? }

  // A producer runs only when the second read found nothing fresh.
  predicate LooksMatch(s: State) {
    forall j :: 0 <= j < |s.jobs| ==>
      && (Called(s.jobs[j]) ==> s.jobs[j].look.Some?)
      && (s.jobs[j].look.Some? ==> !Fresh(s.jobs[j].look.value.found, s.jobs[j].look.value.at))
  }

  // A caller waits for, and gets its answer from, a job of its own key; its answer is that job's.
  predicate AnswersMatch(s: State) {
    forall c :: 0 <= c < |s.callers| ==>
      match s.callers[c].phase
      case Waiting(j) => j < |s.jobs| && s.jobs[j].key == s.callers[c].key
      case Finished(answer, Some(j)) =>
        j < |s.jobs| && s.jobs[j].key == s.callers[c].key && s.jobs[j].phase == Settled(answer)
      case _ => true
  }

  predicate Inv(s: State) {
    FlightsMatch(s) && LooksMatch(s) && AnswersMatch(s)
  }

  lemma SettleKeepsFlights(s: State, j: nat, answer: Answer)
    requires FlightsMatch(s) && j < |s.jobs| && Live(s.jobs[j])
    ensures FlightsMatch(Settle(s, j, answer))
  {
  }

  lemma AdvanceKeepsFlights(s: State, j: nat, job: Job)
    requires FlightsMatch(s) && j < |s.jobs| && Live(s.jobs[j]) && Live(job) && job.key == s.jobs[j].key
    ensures FlightsMatch(s.(jobs := s.jobs[j := job]))
  {
  }

  lemma LaunchKeepsFlights(s: State, key: string)
    requires FlightsMatch(s) && key !in s.inflight
    ensures FlightsMatch(s.(jobs := s.jobs + [Job(key, Rereading, None)], inflight := s.inflight[key := |s.jobs|]))
  {
  }

  // Flights depend on the jobs and the map alone.
  lemma OnlyJobsMatter(s: State, t: State)
    requires FlightsMatch(s) && s.jobs == t.jobs && s.inflight == t.inflight
    ensures FlightsMatch(t)
  {
  }

  lemma StepKeepsFlights(s: State, e: Event)
    requires FlightsMatch(s)
    ensures FlightsMatch(Step(s, e))
  {
    hide Fresh, Get, FlightsMatch, Settle;
    var t := Step(s, e);
    match e
    case CallerResumes(c) =>
      if t.jobs != s.jobs {
        var key := s.callers[c].key;
        LaunchKeepsFlights(s, key);
        OnlyJobsMatter(s.(jobs := s.jobs + [Job(key, Rereading, None)], inflight := s.inflight[key := |s.jobs|]), t);
      } else {
        OnlyJobsMatter(s, t);
      }
    case JobReads(j, error) =>
      if j < |s.jobs| && s.jobs[j].phase.Rereading? {
        if error.Some? { SettleKeepsFlights(s, j, Err(error.value)); }
        else { AdvanceKeepsFlights(s, j, t.jobs[j]); }
      }
    case JobResumes(j) =>
      if j < |s.jobs| && s.jobs[j].phase.Reread? {
        var found := s.jobs[j].phase.found;
        if Fresh(found, s.now) {
          FreshIsFound(found, s.now);
          SettleKeepsFlights(s, j, Ok(found.value));
        } else {
          AdvanceKeepsFlights(s, j, t.jobs[j]);
        }
      }
    case Produced(j, answer) =>
      if j < |s.jobs| && s.jobs[j].phase.Producing? {
        if answer.Err? { SettleKeepsFlights(s, j, answer); }
        else { AdvanceKeepsFlights(s, j, t.jobs[j]); }
      }
    case JobStores(j, error) =>
      if j < |s.jobs| && s.jobs[j].phase.Storing? {
        if error.Some? {
          SettleKeepsFlights(s, j, Err(error.value));
        } else {
          AdvanceKeepsFlights(s, j, t.jobs[j]);
          OnlyJobsMatter(s.(jobs := s.jobs[j := t.jobs[j]]), t);
        }
      }
    case JobReturns(j) =>
      if j < |s.jobs| && s.jobs[j].phase.Stored? { SettleKeepsFlights(s, j, Ok(s.jobs[j].phase.token)); }
    case _ => OnlyJobsMatter(s, t);
  }

  lemma FreshIsFound(found: Option<Token>, now: int)
    requires Fresh(found, now)
    ensures found.Some?
  {
  }

  lemma StepKeepsLooks(s: State, e: Event)
    requires LooksMatch(s)
    ensures LooksMatch(Step(s, e))
  {
    hide Fresh, Get;
  }

  lemma ResumeKeepsAnswers(s: State, c: nat)
    requires AnswersMatch(s) && FlightsMatch(s) && c < |s.callers| && s.callers[c].phase.Answered?
    ensures AnswersMatch(ResumeCaller(s, c))
  {
    hide Fresh;
  }

  // Answers stay right while the callers stay as they are, and jobs keep their keys and settled answers.
  lemma JobsKeepAnswers(s: State, t: State)
    requires AnswersMatch(s) && t.callers == s.callers && |t.jobs| >= |s.jobs|
    requires forall j :: 0 <= j < |s.jobs| ==>
               t.jobs[j].key == s.jobs[j].key && (s.jobs[j].phase.Settled? ==> t.jobs[j] == s.jobs[j])
    ensures AnswersMatch(t)
  {
  }

  lemma SettledStays(s: State, e: Event, j: nat)
    requires j < |s.jobs|
    ensures var t := Step(s, e);
            && j < |t.jobs| && t.jobs[j].key == s.jobs[j].key
            && (s.jobs[j].phase.Settled? ==> t.jobs[j] == s.jobs[j])
  {
    hide Fresh, Get;
  }

  lemma CallersKeepAnswers(s: State, e: Event)
    requires AnswersMatch(s) && (e.Call? || e.CallerReads? || e.CallerJoined?)
    ensures AnswersMatch(Step(s, e))
  {
    hide Get;
  }

  lemma OtherCallersStay(s: State, e: Event)
    requires !e.Call? && !e.CallerReads? && !e.CallerJoined? && !e.CallerResumes?
    ensures Step(s, e).callers == s.callers
  {
    hide Fresh, Get;
  }

  lemma StepKeepsAnswers(s: State, e: Event)
    requires AnswersMatch(s) && FlightsMatch(s)
    ensures AnswersMatch(Step(s, e))
  {
    hide AnswersMatch, FlightsMatch, ResumeCaller;
    if e.CallerResumes? {
      if e.caller < |s.callers| && s.callers[e.caller].phase.Answered? { ResumeKeepsAnswers(s, e.caller); }
    } else if e.Call? || e.CallerReads? || e.CallerJoined? {
      CallersKeepAnswers(s, e);
    } else {
      AnswersUnderJobs(s, e);
    }
  }

  lemma AnswersUnderJobs(s: State, e: Event)
    requires AnswersMatch(s) && !e.Call? && !e.CallerReads? && !e.CallerJoined? && !e.CallerResumes?
    ensures AnswersMatch(Step(s, e))
  {
    hide AnswersMatch, Step;
    OtherCallersStay(s, e);
    JobsNeverGo(s, e);
    forall j | 0 <= j < |s.jobs|
      ensures Step(s, e).jobs[j].key == s.jobs[j].key && (s.jobs[j].phase.Settled? ==> Step(s, e).jobs[j] == s.jobs[j])
    {
      SettledStays(s, e, j);
    }
    JobsKeepAnswers(s, Step(s, e));
  }

  lemma JobsNeverGo(s: State, e: Event)
    ensures |Step(s, e).jobs| >= |s.jobs|
  {
    hide Fresh, Get;
  }

  /** In every interleaving the in-flight map holds exactly the live jobs, so no key has two. */
  lemma {:induction false} RunKeepsInv(redis: map<string, Token>, now: int, es: seq<Event>)
    ensures Inv(Run(Start(redis, now), es))
    decreases |es|
  {
    hide Step, FlightsMatch, LooksMatch, AnswersMatch;
    if es == [] {
      StartIsFine(redis, now);
    } else {
      var s := Run(Start(redis, now), es[..|es| - 1]);
      RunKeepsInv(redis, now, es[..|es| - 1]);
      StepKeepsFlights(s, es[|es| - 1]);
      StepKeepsLooks(s, es[|es| - 1]);
      StepKeepsAnswers(s, es[|es| - 1]);
    }
  }

  lemma StartIsFine(redis: map<string, Token>, now: int)
    ensures Inv(Start(redis, now))
  {
  }

  // ----- consequences, in every interleaving -----

  /** At most one refresh per key is ever in progress. */
  lemma OneLiveJobPerKey(redis: map<string, Token>, now: int, es: seq<Event>, i: nat, j: nat)
    requires var jobs := Run(Start(redis, now), es).jobs;
             i < |jobs| && j < |jobs| && jobs[i].key == jobs[j].key && Live(jobs[i]) && Live(jobs[j])
    ensures i == j
  {
    hide LooksMatch, AnswersMatch, Run;
    RunKeepsInv(redis, now, es);
  }

  /** Once every job has settled the in-flight map is empty: no entry is ever left behind. */
  lemma NoEntryIsLeftBehind(redis: map<string, Token>, now: int, es: seq<Event>)
    requires var s := Run(Start(redis, now), es); forall j :: 0 <= j < |s.jobs| ==> !Live(s.jobs[j])
    ensures Run(Start(redis, now), es).inflight == map[]
  {
    hide LooksMatch, AnswersMatch, Run;
    RunKeepsInv(redis, now, es);
  }

  /** The `finally` block deletes by key, yet the entry it deletes is the job's own and no other changes. */
  lemma JobRemovesOnlyItsOwnEntry(redis: map<string, Token>, now: int, es: seq<Event>, j: nat, answer: Answer)
    requires var s := Run(Start(redis, now), es); j < |s.jobs| && Live(s.jobs[j])
    ensures var s := Run(Start(redis, now), es);
            var t := Settle(s, j, answer);
            && s.jobs[j].key in s.inflight && s.inflight[s.jobs[j].key] == j
            && (forall key :: key in t.inflight <==> key in s.inflight && s.inflight[key] != j)
            && (forall key :: key in t.inflight ==> t.inflight[key] == s.inflight[key])
  {
    hide LooksMatch, AnswersMatch, Run;
    RunKeepsInv(redis, now, es);
  }

  /** Callers that joined one job have one answer, and it is the job's. */
  lemma JoinedCallersShareTheAnswer(redis: map<string, Token>, now: int, es: seq<Event>, c: nat, d: nat)
    requires var s := Run(Start(redis, now), es);
             && c < |s.callers| && d < |s.callers|
             && s.callers[c].phase.Finished? && s.callers[d].phase.Finished?
             && s.callers[c].phase.from.Some? && s.callers[c].phase.from == s.callers[d].phase.from
    ensures var s := Run(Start(redis, now), es);
            && s.callers[c].phase.answer == s.callers[d].phase.answer
            && s.callers[c].key == s.callers[d].key
            && s.callers[c].phase.from.value < |s.jobs|
            && s.jobs[s.callers[c].phase.from.value].phase == Settled(s.callers[c].phase.answer)
  {
    hide LooksMatch, FlightsMatch, Run;
    RunKeepsInv(redis, now, es);
  }

  // Whether an event makes job j call its producer.
  predicate CallsProducer(s: State, e: Event, j: nat) {
    j < |s.jobs| && s.jobs[j].phase.Reread? && Step(s, e).jobs[j].phase.Producing?
  }

  function ProducerCalls(s: State, es: seq<Event>, j: nat): nat {
    if es == [] then 0
    else
      var init := es[..|es| - 1];
      ProducerCalls(s, init, j) + if CallsProducer(Run(s, init), es[|es| - 1], j) then 1 else 0
  }

  function Rank(p: JobPhase): nat {
    match p
    case Rereading => 0
    case Reread(_) => 1
    case Producing => 2
    case Storing(_) => 3
    case Stored(_) => 4
    case Settled(_) => 5
  }

  // Jobs keep their keys and only ever move forward.
  lemma StepMovesForward(s: State, e: Event, j: nat)
    requires j < |s.jobs|
    ensures var t := Step(s, e);
            && j < |t.jobs| && t.jobs[j].key == s.jobs[j].key
            && (t.jobs[j] == s.jobs[j] || Rank(t.jobs[j].phase) > Rank(s.jobs[j].phase))
  {
    hide Fresh, Get;
    if e.JobReads? || e.JobResumes? || e.Produced? || e.JobStores? || e.JobReturns? {
      JobMovesForward(s, e, j);
    }
  }

  lemma JobMovesForward(s: State, e: Event, j: nat)
    requires j < |s.jobs| && (e.JobReads? || e.JobResumes? || e.Produced? || e.JobStores? || e.JobReturns?)
    ensures var t := Step(s, e);
            && |t.jobs| == |s.jobs| && t.jobs[j].key == s.jobs[j].key
            && (t.jobs[j] == s.jobs[j] || Rank(t.jobs[j].phase) > Rank(s.jobs[j].phase))
  {
    hide Fresh, Get;
    if e.job != j {
      assert Step(s, e).jobs == s.jobs || (e.job < |s.jobs| && |Step(s, e).jobs| == |s.jobs|);
    }
  }

  // A call of the producer leaves what the job saw.
  lemma StepLeavesTrace(s: State, e: Event, j: nat)
    requires j < |s.jobs| && j < |Step(s, e).jobs|
    ensures Step(s, e).jobs[j].look
         == if CallsProducer(s, e, j) then Some(Look(s.jobs[j].phase.found, s.now)) else s.jobs[j].look
  {
    hide Fresh, Get;
  }

  lemma NewJobsHaveNoLook(s: State, e: Event, j: nat)
    requires |s.jobs| <= j < |Step(s, e).jobs|
    ensures Step(s, e).jobs[j].look == None
  {
    hide Fresh, Get;
  }

  predicate LookedAfter(s: State, j: nat) { j < |s.jobs| && s.jobs[j].look.Some? }

  predicate EarlyPhase(p: JobPhase) { p.Rereading? || p.Reread? }

  predicate EarlyJobsHaveNoLook(s: State) {
    forall j :: 0 <= j < |s.jobs| && EarlyPhase(s.jobs[j].phase) ==> s.jobs[j].look.None?
  }

  lemma StepKeepsEarly(s: State, e: Event)
    requires EarlyJobsHaveNoLook(s)
    ensures EarlyJobsHaveNoLook(Step(s, e))
  {
    hide Fresh, Get;
  }

  /** In every run a job calls its producer at most once, and only after a second read that found nothing fresh. */
  lemma {:induction false} ProducerRunsAtMostOnce(redis: map<string, Token>, now: int, es: seq<Event>, j: nat)
    ensures var s := Run(Start(redis, now), es);
            && EarlyJobsHaveNoLook(s)
            && ProducerCalls(Start(redis, now), es, j) == (if LookedAfter(s, j) then 1 else 0)
            && (LookedAfter(s, j) ==> !Fresh(s.jobs[j].look.value.found, s.jobs[j].look.value.at))
    decreases |es|
  {
    hide Step, Fresh, FlightsMatch, AnswersMatch;
    RunKeepsInv(redis, now, es);
    if es != [] {
      var s, e := Run(Start(redis, now), es[..|es| - 1]), es[|es| - 1];
      ProducerRunsAtMostOnce(redis, now, es[..|es| - 1], j);
      StepKeepsEarly(s, e);
      if j < |s.jobs| {
        StepMovesForward(s, e, j);
        StepLeavesTrace(s, e, j);
      } else if j < |Step(s, e).jobs| {
        NewJobsHaveNoLook(s, e, j);
      }
    }
  }

  // ----- nobody waits for ever -----

  // The event that moves a live job on, when Redis and the producer answer.
  function Move(s: State, j: nat, token: Token): Event
    requires j < |s.jobs|
  {
    match s.jobs[j].phase
    case Rereading => JobReads(j, None)
    case Reread(_) => JobResumes(j)
    case Producing => Produced(j, Ok(token))
    case Storing(_) => JobStores(j, None)
    case Stored(_) => JobReturns(j)
    case Settled(_) => Tick(0)
  }

  lemma MoveAdvances(s: State, j: nat, token: Token)
    requires j < |s.jobs| && Live(s.jobs[j])
    ensures var t := Step(s, Move(s, j, token)); j < |t.jobs| && Rank(t.jobs[j].phase) > Rank(s.jobs[j].phase)
    ensures Step(s, Move(s, j, token)).callers == s.callers
  {
    hide Fresh, Get;
  }

  lemma {:induction false} RunCons(s: State, e: Event, es: seq<Event>)
    ensures Run(s, [e] + es) == Run(Step(s, e), es)
    decreases |es|
  {
    hide Step;
    if es == [] {
      assert ([e] + es)[..0] == [];
    } else {
      RunCons(s, e, es[..|es| - 1]);
      assert ([e] + es)[..|[e] + es| - 1] == [e] + es[..|es| - 1];
    }
  }

  // A live job can settle within five of its own steps.
  lemma {:induction false} JobCanSettle(s: State, j: nat, token: Token) returns (es: seq<Event>)
    requires j < |s.jobs|
    ensures |es| <= 5 - Rank(s.jobs[j].phase) && j < |Run(s, es).jobs| && Run(s, es).jobs[j].phase.Settled?
    ensures Run(s, es).callers == s.callers
    decreases 5 - Rank(s.jobs[j].phase)
  {
    hide Step, Move;
    if s.jobs[j].phase.Settled? {
      es := [];
    } else {
      MoveAdvances(s, j, token);
      var e := Move(s, j, token);
      var rest := JobCanSettle(Step(s, e), j, token);
      RunCons(s, e, rest);
      es := [e] + rest;
    }
  }

  /** In every reachable state a waiting caller can have its answer within six further steps. */
  lemma WaitingCallerCanFinish(redis: map<string, Token>, now: int, es: seq<Event>, c: nat, token: Token)
    returns (more: seq<Event>)
    requires var s := Run(Start(redis, now), es); c < |s.callers| && s.callers[c].phase.Waiting?
    ensures |more| <= 6
    ensures var t := Run(Run(Start(redis, now), es), more); c < |t.callers| && t.callers[c].phase.Finished?
  {
    hide FlightsMatch, LooksMatch, Fresh, Get;
    RunKeepsInv(redis, now, es);
    var s := Run(Start(redis, now), es);
    var moves := JobCanSettle(s, s.callers[c].phase.job, token);
    more := moves + [CallerJoined(c)];
    assert more[..|more| - 1] == moves;
  }

  // ----- the cache object of one process -----

  /**
   The object behind getOrRefresh, with the world it talks to. Each method is one uninterrupted stretch of the code.
   */
  class EtaTokenCache {
    var callers: seq<Caller>
    var jobs: seq<Job>
    var inflight: map<string, nat>
    var redis: map<string, Token>
    var now: int

    function World(): State
      reads this
    {
      State(callers, jobs, inflight, redis, now)
    }

    // After `await this.get(identity)`: lines 92-111.
    method AfterFirstRead(c: nat)
      requires c < |callers| && callers[c].phase.Answered?
      modifies this
      ensures World() == Step(old(World()), CallerResumes(c))
    {
      var key, existing := callers[c].key, callers[c].phase.found;
      if existing.Some? && !RefreshDue(existing.value, now) {
        callers := callers[c := Caller(key, Finished(Ok(existing.value), None))];
        return;
      }
      if key in inflight {
        callers := callers[c := Caller(key, Waiting(inflight[key]))];
        return;
      }
      var job := |jobs|;
      jobs := jobs + [Job(key, Rereading, None)];
      inflight := inflight[key := job];
      callers := callers[c := Caller(key, Waiting(job))];
    }

    // Lines 101-103: the second read has answered.
    method AfterSecondRead(j: nat)
      requires j < |jobs| && jobs[j].phase.Reread?
      modifies this
      ensures World() == Step(old(World()), JobResumes(j))
    {
      var again := jobs[j].phase.found;
      if again.Some? && !RefreshDue(again.value, now) {
        Finally(j, Ok(again.value));
      } else {
        jobs := jobs[j := Job(jobs[j].key, Producing, Some(Look(again, now)))];
      }
    }

    // Line 103: the producer has answered or thrown.
    method AfterProducer(j: nat, produced: Answer)
      requires j < |jobs| && jobs[j].phase.Producing?
      modifies this
      ensures World() == Step(old(World()), Produced(j, produced))
    {
      if produced.Err? {
        Finally(j, produced);
      } else {
        jobs := jobs[j := jobs[j].(phase := Storing(produced.value))];
      }
    }

    // Line 105: the token has been stored.
    method AfterSet(j: nat)
      requires j < |jobs| && jobs[j].phase.Stored?
      modifies this
      ensures World() == Step(old(World()), JobReturns(j))
    {
      Finally(j, Ok(jobs[j].phase.token));
    }

    // Lines 106-108.
    method Finally(j: nat, answer: Answer)
      requires j < |jobs|
      modifies this
      ensures World() == Settle(old(World()), j, answer)
    {
      inflight := inflight - {jobs[j].key};
      jobs := jobs[j := jobs[j].(phase := Settled(answer))];
    }
  }
}
