/**
 What holds in every run of pairing, revoking, unpairing and claiming requests: one row per machine, codes that
 register at most once, exactly which token resolves, jobs that survive an unpairing, and the slot count.
 */
module DeviceRuns {
  import opened Devices
  import opened Wrappers

  datatype Event =
    | NewCode(expiresAt: int)
    | Revoke(code: nat)
    | PairAgent(request: PairRequest)
    | UnpairDevice(device: nat, now: int)
    | NewJob
    | Claim(job: nat, token: Token, until: int)
    | CloseJob(job: nat)
    | ChangePos(pos: seq<Pos>)

  function OrSame(s: State, r: Result<State, Error>): State {
    if r.Ok? then r.value else s
  }

  // The jobs themselves and the tills are changed by other services; a claim needs a token that resolves.
  function Step(s: State, e: Event): State {
    match e
    case NewCode(expiresAt) => CreateCode(s, expiresAt)
    case Revoke(code) => OrSame(s, RevokeCode(s, code))
    case PairAgent(r) => (match Pair(s, r) case Ok((after, _)) => after case Err(_) => s)
    case UnpairDevice(d, now) => OrSame(s, Unpair(s, d, now))
    case NewJob => s.(jobs := s.jobs + [Job(JobPending, None, None)])
    case Claim(j, token, until) =>
      if j < |s.jobs| && s.jobs[j].status == JobPending && Resolve(s, token).Some?
      then s.(jobs := s.jobs[j := Job(JobClaimed, Resolve(s, token), Some(until))]) else s
    case CloseJob(j) => if j < |s.jobs| then s.(jobs := s.jobs[j := s.jobs[j].(status := JobClosed)]) else s
    case ChangePos(pos) => s.(pos := pos)
  }

  const EMPTY := State([], [], [], [], 0)

  function Run(es: seq<Event>): State {
    if es == [] then EMPTY else Step(Run(es[..|es| - 1]), es[|es| - 1])
  }

  // ----- the invariant -----

  predicate OneRowPerMachine(ds: seq<Device>) {
    forall i, j :: 0 <= i < j < |ds| && ds[i].fingerprint.Some? ==> ds[i].fingerprint != ds[j].fingerprint
  }

  // A paired row holds its own, already issued token; a revoked row holds none.
  predicate HashesMatch(s: State) {
    forall d :: 0 <= d < |s.devices| ==>
      if s.devices[d].paired
      then s.devices[d].tokenHash.HashOf? && s.devices[d].tokenHash.token.device == d
           && s.devices[d].tokenHash.token.secret < s.issued
      else s.devices[d].tokenHash == Unusable
  }

  // No code is ever marked expired: the request that would do it is rolled back by its own error.
  predicate CodesMatch(codes: seq<Code>) {
    forall c :: 0 <= c < |codes| ==>
      codes[c].status != CodeExpired && (codes[c].status == CodeConsumed <==> codes[c].consumedBy.Some?)
  }

  predicate ClaimsAreLive(s: State) {
    forall j :: 0 <= j < |s.jobs| && s.jobs[j].status == JobClaimed ==>
      s.jobs[j].claimedBy.Some? && s.jobs[j].claimedBy.value < |s.devices| && s.devices[s.jobs[j].claimedBy.value].paired
  }

  predicate Inv(s: State) {
    OneRowPerMachine(s.devices) && HashesMatch(s) && CodesMatch(s.codes) && ClaimsAreLive(s)
  }

  lemma TargetIsUnclaimed(s: State, r: PairRequest)
    requires OneRowPerMachine(s.devices)
    ensures OneRowPerMachine(Put(s.devices, Target(s, r.fingerprint), PairedRow(s, r)))
  {
    hide FindPaired, FindRevoked;
    var d := Target(s, r.fingerprint);
    if d == |s.devices| && r.fingerprint.Some? {
      forall i | 0 <= i < |s.devices| ensures s.devices[i].fingerprint != r.fingerprint {
        assert !Matches(s.devices[i], r.fingerprint, true) && !Matches(s.devices[i], r.fingerprint, false);
      }
    }
  }

  lemma PairKeepsInv(s: State, r: PairRequest)
    requires Inv(s) && Pair(s, r).Ok?
    ensures Inv(Pair(s, r).value.0)
  {
    hide FindPaired, FindRevoked, OneRowPerMachine, Target;
    TargetIsUnclaimed(s, r);
  }

  lemma UnpairKeepsInv(s: State, d: nat, now: int)
    requires Inv(s) && Unpair(s, d, now).Ok?
    ensures Inv(Unpair(s, d, now).value)
  {
  }

  lemma StepKeepsInv(s: State, e: Event)
    requires Inv(s)
    ensures Inv(Step(s, e))
  {
    hide Pair, Unpair;
    match e
    case PairAgent(r) => if Pair(s, r).Ok? { PairKeepsInv(s, r); }
    case UnpairDevice(d, now) => if Unpair(s, d, now).Ok? { UnpairKeepsInv(s, d, now); }
    case _ =>
  }

  /** In every run: one row per machine, codes consumed once, and no job held by a revoked device. */
  lemma {:induction false} RunKeepsInv(es: seq<Event>)
    ensures Inv(Run(es))
    decreases |es|
  {
    hide Inv, Step;
    if es == [] {
      EmptyIsFine();
    } else {
      RunKeepsInv(es[..|es| - 1]);
      StepKeepsInv(Run(es[..|es| - 1]), es[|es| - 1]);
    }
  }

  lemma EmptyIsFine()
    ensures Inv(EMPTY)
  {
  }

  // ----- which token resolves -----

  // The token a device holds after a run: the one its last pairing issued, unless it was unpaired since.
  function Holds(es: seq<Event>, d: nat): Option<Token> {
    if es == [] then None
    else
      var before := Run(es[..|es| - 1]);
      match es[|es| - 1]
      case PairAgent(r) =>
        (match Pair(before, r)
         case Ok((_, p)) => if p.device == d then Some(p.token) else Holds(es[..|es| - 1], d)
         case Err(_) => Holds(es[..|es| - 1], d))
      case UnpairDevice(e, _) => if e == d then None else Holds(es[..|es| - 1], d)
      case _ => Holds(es[..|es| - 1], d)
  }

  // The token a row would accept.
  function Accepted(s: State, d: nat): Option<Token> {
    if d < |s.devices| && s.devices[d].paired && s.devices[d].tokenHash.HashOf?
    then Some(s.devices[d].tokenHash.token) else None
  }

  lemma PairAccepts(s: State, r: PairRequest, d: nat)
    requires Pair(s, r).Ok?
    ensures var (after, p) := Pair(s, r).value;
            Accepted(after, d) == if d == p.device then Some(p.token) else Accepted(s, d)
  {
    hide FindPaired, FindRevoked, Target;
  }

  lemma OtherStepsAccept(s: State, e: Event, d: nat)
    requires !e.PairAgent?
    ensures Accepted(Step(s, e), d) == if e.UnpairDevice? && e.device == d then None else Accepted(s, d)
  {
  }

  lemma {:induction false} RunAccepts(es: seq<Event>, d: nat)
    ensures Accepted(Run(es), d) == Holds(es, d)
    decreases |es|
  {
    hide Pair, Unpair, Accepted;
    if es == [] {
      NothingAccepted(d);
    } else {
      var init, e := es[..|es| - 1], es[|es| - 1];
      RunAccepts(init, d);
      match e
      case PairAgent(r) => if Pair(Run(init), r).Ok? { PairAccepts(Run(init), r, d); }
      case _ => OtherStepsAccept(Run(init), e, d);
    }
  }

  lemma NothingAccepted(d: nat)
    ensures Accepted(EMPTY, d) == None
  {
  }

  /** A token resolves exactly when it is the last one issued to its device and the device was not unpaired since. */
  lemma {:induction false} OnlyTheLatestTokenResolves(es: seq<Event>, t: Token)
    ensures Resolve(Run(es), t).Some? <==> Holds(es, t.device) == Some(t)
  {
    hide Run, Holds;
    RunAccepts(es, t.device);
  }

  lemma {:induction false} RunSplit(es: seq<Event>, more: seq<Event>)
    ensures |more| > 0 ==> Run(es + more) == Step(Run(es + more[..|more| - 1]), more[|more| - 1])
  {
    hide Step;
    if |more| > 0 {
      assert (es + more)[..|es + more| - 1] == es + more[..|more| - 1];
      assert (es + more)[|es + more| - 1] == more[|more| - 1];
    }
  }

  lemma StepKeepsDead(s: State, e: Event, t: Token)
    requires t.secret < s.issued && Resolve(s, t).None?
    ensures var s' := Step(s, e); s.issued <= s'.issued && Resolve(s', t).None?
  {
    hide FindPaired, FindRevoked, Target;
  }

  /** An issued token that has stopped resolving never resolves again, whatever follows. */
  lemma {:induction false} ReplacedTokensStayDead(es: seq<Event>, more: seq<Event>, t: Token)
    requires t.secret < Run(es).issued && Resolve(Run(es), t).None?
    ensures t.secret < Run(es + more).issued && Resolve(Run(es + more), t).None?
    decreases |more|
  {
    hide Step, Resolve, Run;
    if more == [] {
      assert es + more == es;
    } else {
      var init := more[..|more| - 1];
      ReplacedTokensStayDead(es, init, t);
      RunSplit(es, more);
      StepKeepsDead(Run(es + init), more[|more| - 1], t);
    }
  }

  // ----- pairing codes -----

  predicate Registers(s: State, e: Event, code: nat) {
    e.PairAgent? && e.request.code == Some(code) && Pair(s, e.request).Ok?
  }

  function Registrations(es: seq<Event>, code: nat): nat {
    if es == [] then 0
    else
      var init := es[..|es| - 1];
      Registrations(init, code) + if Registers(Run(init), es[|es| - 1], code) then 1 else 0
  }

  predicate Consumed(s: State, code: nat) {
    code < |s.codes| && s.codes[code].status == CodeConsumed
  }

  lemma StepConsumes(s: State, e: Event, code: nat)
    ensures Registers(s, e, code) ==> !Consumed(s, code)
    ensures Consumed(Step(s, e), code) <==> Consumed(s, code) || Registers(s, e, code)
  {
    hide FindPaired, FindRevoked, Target;
  }

  /** A pairing code registers at most once, and it has registered exactly when it is marked consumed. */
  lemma {:induction false} CodeRegistersAtMostOnce(es: seq<Event>, code: nat)
    ensures Registrations(es, code) == if Consumed(Run(es), code) then 1 else 0
    decreases |es|
  {
    hide Step, Registers, Consumed;
    if es == [] {
      NothingConsumed(code);
    } else {
      CodeRegistersAtMostOnce(es[..|es| - 1], code);
      StepConsumes(Run(es[..|es| - 1]), es[|es| - 1], code);
    }
  }

  lemma NothingConsumed(code: nat)
    ensures !Consumed(EMPTY, code)
  {
  }

  // ----- unpairing and jobs -----

  /** Unpairing releases exactly the jobs its device holds, loses none and leaves none with the device. */
  lemma {:induction false} UnpairReleasesJobs(es: seq<Event>, d: nat, now: int)
    requires d < |Run(es).devices|
    ensures var s := Run(es);
            var r := Unpair(s, d, now);
            && r.Ok?
            && |r.value.jobs| == |s.jobs|
            && forall j :: 0 <= j < |s.jobs| ==>
                 r.value.jobs[j] == (if s.jobs[j].status == JobClaimed && s.jobs[j].claimedBy == Some(d)
                                     then Job(JobPending, None, None) else s.jobs[j])
                 && !(r.value.jobs[j].status == JobClaimed && r.value.jobs[j].claimedBy == Some(d))
  {
    RunKeepsInv(es);
  }

  // ----- device slots -----

  lemma {:induction false} PairedCountPut(ds: seq<Device>, d: nat, row: Device)
    requires d <= |ds|
    ensures PairedCount(Put(ds, d, row))
            == PairedCount(ds) + (if row.paired then 1 else 0) - (if d < |ds| && ds[d].paired then 1 else 0)
    decreases |ds|
  {
    if d == |ds| {
      assert (ds + [row])[..|ds|] == ds;
    } else if d == |ds| - 1 {
      assert ds[d := row][..d] == ds[..d];
    } else {
      PairedCountPut(ds[..|ds| - 1], d, row);
      assert ds[d := row][..|ds| - 1] == ds[..|ds| - 1][d := row];
    }
  }

  // Tills stop counting when their device becomes paired, and count again when it is revoked.
  lemma {:induction false} ExtraPosPut(pos: seq<Pos>, ds: seq<Device>, d: nat, row: Device)
    requires d <= |ds| && row.paired && !(d < |ds| && ds[d].paired)
    ensures ExtraPos(pos, Put(ds, d, row)) == ExtraPos(pos, ds) - Linked(pos, d)
    decreases |pos|
  {
    if pos != [] {
      ExtraPosPut(pos[..|pos| - 1], ds, d, row);
      var p := pos[|pos| - 1];
      assert SharesSlot(p, Put(ds, d, row)) <==> SharesSlot(p, ds) || p.device == Some(d);
    }
  }

  lemma {:induction false} ExtraPosSame(pos: seq<Pos>, ds: seq<Device>, d: nat, row: Device)
    requires d < |ds| && row.paired == ds[d].paired
    ensures ExtraPos(pos, ds[d := row]) == ExtraPos(pos, ds)
    decreases |pos|
  {
    if pos != [] { ExtraPosSame(pos[..|pos| - 1], ds, d, row); }
  }

  /** Pairing a machine that is still paired takes no slot; otherwise it takes one, less its own tills' slots. */
  lemma PairingTakesAtMostOneSlot(s: State, r: PairRequest)
    requires Pair(s, r).Ok?
    ensures var (after, p) := Pair(s, r).value;
            Slots(after) == Slots(s) + if p.resumed then 0 else 1 - Linked(s.pos, p.device)
  {
    hide PairedCount, ExtraPos, Linked, FindPaired, FindRevoked;
    var d, row := Target(s, r.fingerprint), PairedRow(s, r);
    PairedCountPut(s.devices, d, row);
    if FindPaired(s.devices, r.fingerprint).Some? {
      ExtraPosSame(s.pos, s.devices, d, row);
    } else {
      ExtraPosPut(s.pos, s.devices, d, row);
    }
  }

  // ----- the pooled quota -----

  // The slots of all tenants of an account.
  function AccountSlots(tenants: seq<State>): nat {
    if tenants == [] then 0 else AccountSlots(tenants[..|tenants| - 1]) + Slots(tenants[|tenants| - 1])
  }

  lemma {:induction false} AccountSlotsPut(tenants: seq<State>, i: nat, s: State)
    requires i < |tenants|
    ensures AccountSlots(tenants[i := s]) == AccountSlots(tenants) - Slots(tenants[i]) + Slots(s)
    decreases |tenants|
  {
    hide Slots;
    var n := |tenants| - 1;
    if i < n {
      AccountSlotsPut(tenants[..n], i, s);
      assert tenants[i := s][..n] == tenants[..n][i := s];
    } else {
      assert tenants[i := s][..n] == tenants[..n];
    }
  }

  /** An account within its pooled limit stays within it when a device of any of its tenants is paired. */
  lemma PairingKeepsWithinLimit(tenants: seq<State>, i: nat, r: PairRequest, limit: nat)
    requires i < |tenants| && Pair(tenants[i], r).Ok?
    requires AccountSlots(tenants) <= limit && (r.withinQuota <==> AccountSlots(tenants) < limit)
    ensures AccountSlots(tenants[i := Pair(tenants[i], r).value.0]) <= limit
  {
    hide Slots, AccountSlots, FindRevoked, FindPaired, Target;
    PairingTakesAtMostOneSlot(tenants[i], r);
    AccountSlotsPut(tenants, i, Pair(tenants[i], r).value.0);
  }

  /** Unpairing frees a slot unless tills are linked to the device: each active one then takes its own. */
  lemma UnpairingSlots(s: State, d: nat, now: int)
    requires d < |s.devices| && s.devices[d].paired
    ensures Slots(Unpair(s, d, now).value) == Slots(s) - 1 + Linked(s.pos, d)
  {
    hide PairedCount, ExtraPos, Linked;
    var row := s.devices[d].(paired := false, revokedAt := Some(now), tokenHash := Unusable);
    var after := s.devices[d := row];
    PairedCountPut(s.devices, d, row);
    ExtraPosPut(s.pos, after, d, s.devices[d]);
    assert after[d := s.devices[d]] == s.devices;
  }
}
