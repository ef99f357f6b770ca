/**
 Pairing codes, signing devices and their bearer tokens within one tenant (devices.service.ts, pairing.service.ts),
 the jobs devices claim, and the device slots counted against the quota (quota.service.ts:203-221). Each request is
 one atomic step; a request that throws inside its transaction changes nothing. Rows are numbered in creation order.
 Hashes are injective and issued secrets are fresh, so a code is presented by its number and a token is kept as itself.
 */
module Devices {
  import opened Wrappers

  datatype CodeStatus = CodeActive | CodeConsumed | CodeRevoked | CodeExpired

  datatype Code = Code(status: CodeStatus, expiresAt: int, consumedBy: Option<nat>)

  datatype Token = Token(device: nat, secret: nat)

  datatype Hash = HashOf(token: Token) | Unusable

  // `name` is the device's label.
  datatype Device = Device(
    name: string,
    fingerprint: Option<string>,
    paired: bool,
    tokenHash: Hash,
    pairedAt: int,
    revokedAt: Option<int>,
    lastSeenAt: Option<int>
  )

  datatype JobStatus = JobPending | JobClaimed | JobClosed

  datatype Job = Job(status: JobStatus, claimedBy: Option<nat>, claimExpiresAt: Option<int>)

  datatype Pos = Pos(active: bool, device: Option<nat>)

  // `issued` numbers the device tokens handed out so far.
  datatype State = State(codes: seq<Code>, devices: seq<Device>, jobs: seq<Job>, pos: seq<Pos>, issued: nat)

  datatype Error =
    | InvalidCode | CodeUsed | CodeWasRevoked | CodeHasExpired | CodeNotActive | CodeNotFound
    | NameRequired | NotWritable | QuotaExceeded | DeviceNotFound | Unauthorized

  datatype Pairing = Pairing(device: nat, token: Token, resumed: bool)

  // ----- queries -----

  predicate Matches(d: Device, fingerprint: Option<string>, paired: bool) {
    fingerprint.Some? && d.fingerprint == fingerprint && d.paired == paired
  }

  // The first paired row with this fingerprint.
  function FindPaired(ds: seq<Device>, fingerprint: Option<string>): (r: Option<nat>)
    ensures r.Some? ==> r.value < |ds| && Matches(ds[r.value], fingerprint, true)
    ensures r.None? ==> forall i :: 0 <= i < |ds| ==> !Matches(ds[i], fingerprint, true)
  {
    if ds == [] then None
    else
      var init := FindPaired(ds[..|ds| - 1], fingerprint);
      if init.Some? then init
      else if Matches(ds[|ds| - 1], fingerprint, true) then Some(|ds| - 1)
      else None
  }

  // Ordering by revocation time, then pairing time, both descending; a missing time comes first (PostgreSQL).
  predicate Later(d: Device, e: Device) {
    if d.revokedAt == e.revokedAt then d.pairedAt > e.pairedAt
    else if d.revokedAt.None? || e.revokedAt.None? then d.revokedAt.None?
    else d.revokedAt.value > e.revokedAt.value
  }

  function FindRevoked(ds: seq<Device>, fingerprint: Option<string>): (r: Option<nat>)
    ensures r.Some? ==> r.value < |ds| && Matches(ds[r.value], fingerprint, false)
    ensures r.None? ==> forall i :: 0 <= i < |ds| ==> !Matches(ds[i], fingerprint, false)
  {
    if ds == [] then None
    else
      var last := |ds| - 1;
      var init := FindRevoked(ds[..last], fingerprint);
      if Matches(ds[last], fingerprint, false) && (init.None? || Later(ds[last], ds[init.value])) then Some(last)
      else init
  }

  function PairedCount(ds: seq<Device>): nat {
    if ds == [] then 0 else PairedCount(ds[..|ds| - 1]) + if ds[|ds| - 1].paired then 1 else 0
  }

  predicate SharesSlot(p: Pos, ds: seq<Device>) {
    p.device.Some? && p.device.value < |ds| && ds[p.device.value].paired
  }

  function ExtraPos(pos: seq<Pos>, ds: seq<Device>): nat {
    if pos == [] then 0
    else ExtraPos(pos[..|pos| - 1], ds)
         + if pos[|pos| - 1].active && !SharesSlot(pos[|pos| - 1], ds) then 1 else 0
  }

  // Paired agents, plus active tills that do not share the slot of a paired agent.
  function Slots(s: State): nat {
    PairedCount(s.devices) + ExtraPos(s.pos, s.devices)
  }

  // Active tills linked to one device.
  function Linked(pos: seq<Pos>, d: nat): nat {
    if pos == [] then 0
    else Linked(pos[..|pos| - 1], d)
         + if pos[|pos| - 1].active && pos[|pos| - 1].device == Some(d) then 1 else 0
  }

  // ----- requests -----

  function CreateCode(s: State, expiresAt: int): State {
    s.(codes := s.codes + [Code(CodeActive, expiresAt, None)])
  }

  function RevokeCode(s: State, code: nat): Result<State, Error> {
    if code >= |s.codes| then Err(CodeNotFound)
    else if s.codes[code].status != CodeActive then Err(CodeNotActive)
    else Ok(s.(codes := s.codes[code := s.codes[code].(status := CodeRevoked)]))
  }

  // Why a presented code is refused, in the order it is checked.
  function CodeProblem(s: State, code: nat, now: int): Option<Error> {
    if code >= |s.codes| then Some(InvalidCode)
    else
      match s.codes[code].status
      case CodeConsumed => Some(CodeUsed)
      case CodeRevoked => Some(CodeWasRevoked)
      case CodeExpired => Some(CodeHasExpired)
      case CodeActive => if s.codes[code].expiresAt < now then Some(CodeHasExpired) else None
  }

  datatype PairRequest = PairRequest(
    code: Option<nat>,             // none when the text cannot be parsed
    name: string,
    nameBlank: bool,
    fingerprint: Option<string>,   // already trimmed; none when blank
    writable: bool,
    withinQuota: bool,
    now: int
  )

  function PairProblem(s: State, r: PairRequest): Option<Error> {
    if r.code.None? then Some(InvalidCode)
    else if r.nameBlank then Some(NameRequired)
    else if !r.writable then Some(NotWritable)
    else if FindPaired(s.devices, r.fingerprint).None? && !r.withinQuota then Some(QuotaExceeded)
    else CodeProblem(s, r.code.value, r.now)
  }

  // The row to pair: a paired one, else the last revoked one, else a new one.
  function Target(s: State, fingerprint: Option<string>): (d: nat)
    ensures d <= |s.devices|
  {
    var paired := FindPaired(s.devices, fingerprint);
    var revoked := FindRevoked(s.devices, fingerprint);
    if paired.Some? then paired.value else if revoked.Some? then revoked.value else |s.devices|
  }

  function PairedRow(s: State, r: PairRequest): Device {
    var d := Target(s, r.fingerprint);
    var hash := HashOf(Token(d, s.issued));
    if d == |s.devices| then Device(r.name, r.fingerprint, true, hash, r.now, None, None)
    else
      s.devices[d].(
        name := r.name, fingerprint := r.fingerprint, paired := true, tokenHash := hash, revokedAt := None,
        lastSeenAt := Some(r.now), pairedAt := if s.devices[d].paired then s.devices[d].pairedAt else r.now
      )
  }

  function Put(ds: seq<Device>, d: nat, row: Device): (r: seq<Device>)
    requires d <= |ds|
    ensures d < |r| && r[d] == row && |ds| <= |r| <= |ds| + 1
    ensures forall i :: 0 <= i < |ds| && i != d ==> r[i] == ds[i]
  {
    if d < |ds| then ds[d := row] else ds + [row]
  }

  function Pair(s: State, r: PairRequest): Result<(State, Pairing), Error> {
    var problem := PairProblem(s, r);
    if problem.Some? then Err(problem.value)
    else if r.code.None? || r.code.value >= |s.codes| then Err(InvalidCode)
    else
      var c, d := r.code.value, Target(s, r.fingerprint);
      var after := s.(
        devices := Put(s.devices, d, PairedRow(s, r)),
        codes := s.codes[c := s.codes[c].(status := CodeConsumed, consumedBy := Some(d))],
        issued := s.issued + 1
      );
      Ok((after, Pairing(d, Token(d, s.issued), FindPaired(s.devices, r.fingerprint).Some?)))
  }

  function Release(j: Job, d: nat): Job {
    if j.status == JobClaimed && j.claimedBy == Some(d) then Job(JobPending, None, None) else j
  }

  function Unpair(s: State, d: nat, now: int): Result<State, Error> {
    if d >= |s.devices| then Err(DeviceNotFound)
    else if !s.devices[d].paired then Ok(s)
    else
      Ok(s.(
        devices := s.devices[d := s.devices[d].(paired := false, revokedAt := Some(now), tokenHash := Unusable)],
        jobs := seq(|s.jobs|, i requires 0 <= i < |s.jobs| => Release(s.jobs[i], d))
      ))
  }

  function Resolve(s: State, t: Token): Option<nat> {
    if t.device < |s.devices| && s.devices[t.device].paired && s.devices[t.device].tokenHash == HashOf(t)
    then Some(t.device) else None
  }

  // ----- the service, updating its tables in place -----

  class Registry {
    var codes: seq<Code>
    var devices: seq<Device>
    var jobs: seq<Job>
    var pos: seq<Pos>
    var issued: nat

    function Tables(): State
      reads this
    {
      State(codes, devices, jobs, pos, issued)
    }

    method NewCode(expiresAt: int) returns (code: nat)
      modifies this
      ensures Tables() == CreateCode(old(Tables()), expiresAt) && code == |old(codes)|
    {
      code := |codes|;
      codes := codes + [Code(CodeActive, expiresAt, None)];
    }

    method Revoke(code: nat) returns (r: Result<(), Error>)
      modifies this
      ensures match RevokeCode(old(Tables()), code)
              case Ok(s) => r == Ok(()) && Tables() == s
              case Err(e) => r == Err(e) && Tables() == old(Tables())
    {
      if code >= |codes| { return Err(CodeNotFound); }
      if codes[code].status != CodeActive { return Err(CodeNotActive); }
      codes := codes[code := codes[code].(status := CodeRevoked)];
      return Ok(());
    }

    method PairAgent(r: PairRequest) returns (p: Result<Pairing, Error>)
      modifies this
      ensures match Pair(old(Tables()), r)
              case Ok((s, pairing)) => p == Ok(pairing) && Tables() == s
              case Err(e) => p == Err(e) && Tables() == old(Tables())
    {
      if r.code.None? { return Err(InvalidCode); }
      if r.nameBlank { return Err(NameRequired); }
      if !r.writable { return Err(NotWritable); }
      var existing := FindPaired(devices, r.fingerprint);
      if existing.None? && !r.withinQuota { return Err(QuotaExceeded); }

      var c := r.code.value;
      if c >= |codes| { return Err(InvalidCode); }
      var code := codes[c];
      if code.status == CodeConsumed { return Err(CodeUsed); }
      if code.status == CodeRevoked { return Err(CodeWasRevoked); }
      if code.status == CodeExpired || code.expiresAt < r.now { return Err(CodeHasExpired); }

      var paired := FindPaired(devices, r.fingerprint);
      var revoked := if paired.None? then FindRevoked(devices, r.fingerprint) else None;
      var reuse := if paired.Some? then paired else revoked;
      var id := if reuse.Some? then reuse.value else |devices|;
      var token := Token(id, issued);
      issued := issued + 1;
      if reuse.Some? {
        var row := devices[id].(
          name := r.name, fingerprint := r.fingerprint, paired := true, tokenHash := HashOf(token),
          revokedAt := None, lastSeenAt := Some(r.now)
        );
        if revoked.Some? { row := row.(pairedAt := r.now); }
        devices := devices[id := row];
      } else {
        devices := devices + [Device(r.name, r.fingerprint, true, HashOf(token), r.now, None, None)];
      }
      codes := codes[c := codes[c].(status := CodeConsumed, consumedBy := Some(id))];
      return Ok(Pairing(id, token, paired.Some?));
    }

    method UnpairDevice(d: nat, now: int) returns (r: Result<(), Error>)
      modifies this
      ensures match Unpair(old(Tables()), d, now)
              case Ok(s) => r == Ok(()) && Tables() == s
              case Err(e) => r == Err(e) && Tables() == old(Tables())
    {
      if d >= |devices| { return Err(DeviceNotFound); }
      if !devices[d].paired { return Ok(()); }
      devices := devices[d := devices[d].(paired := false, revokedAt := Some(now), tokenHash := Unusable)];
      var before, released := jobs, [];
      for i := 0 to |before|
        invariant released == seq(i, k requires 0 <= k < i => Release(before[k], d))
        invariant jobs == before && Tables() == old(Tables()).(devices := devices)
      {
        released := released + [Release(before[i], d)];
      }
      jobs := released;
      return Ok(());
    }

    method ResolveByToken(t: Token) returns (r: Result<nat, Error>)
      ensures r == match Resolve(Tables(), t) case Some(d) => Ok(d) case None => Err(Unauthorized)
    {
      if t.device >= |devices| { return Err(Unauthorized); }
      var device := devices[t.device];
      if !device.paired || device.tokenHash != HashOf(t) { return Err(Unauthorized); }
      return Ok(t.device);
    }

    // countTenantDeviceSlots.
    method CountDeviceSlots() returns (n: nat)
      ensures n == Slots(Tables())
    {
      var paired := 0;
      for i := 0 to |devices|
        invariant paired == PairedCount(devices[..i])
      {
        assert devices[..i + 1][..i] == devices[..i];
        if devices[i].paired { paired := paired + 1; }
      }
      assert devices[..|devices|] == devices;
      var extra := 0;
      for i := 0 to |pos|
        invariant extra == ExtraPos(pos[..i], devices)
      {
        assert pos[..i + 1][..i] == pos[..i];
        var p := pos[i];
        if p.active && (p.device.None? || p.device.value >= |devices| || !devices[p.device.value].paired) {
          extra := extra + 1;
        }
      }
      assert pos[..|pos|] == pos;
      n := paired + extra;
    }
  }
}
