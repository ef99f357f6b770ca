/**
 When pairing succeeds, which row it takes and what it changes, spelled out column by column; and the same for
 unpairing (devices.service.ts, pairing.service.ts). A code is good until the instant it expires at.
 */
module DevicePairing {
  import opened Wrappers
  import opened Devices

  // A row of the presented machine; blank fingerprints are nobody's.
  predicate RowOf(d: Device, r: PairRequest) {
    r.fingerprint.Some? && d.fingerprint == r.fingerprint
  }

  predicate StillPaired(s: State, r: PairRequest) {
    exists i :: 0 <= i < |s.devices| && RowOf(s.devices[i], r) && s.devices[i].paired
  }

  predicate GoodCode(s: State, code: nat, now: int) {
    code < |s.codes| && s.codes[code].status == CodeActive && now <= s.codes[code].expiresAt
  }

  /** Pairing succeeds exactly with a good code, a name, a writable tenant, and a slot unless the machine has one. */
  lemma PairsExactly(s: State, r: PairRequest)
    ensures Pair(s, r).Ok?
       <==> r.code.Some? && !r.nameBlank && r.writable && (StillPaired(s, r) || r.withinQuota)
            && GoodCode(s, r.code.value, r.now)
  {
    var found := FindPaired(s.devices, r.fingerprint);
    if found.Some? {
      assert RowOf(s.devices[found.value], r);
    } else {
      forall i | 0 <= i < |s.devices| ensures !(RowOf(s.devices[i], r) && s.devices[i].paired) {
        assert !Matches(s.devices[i], r.fingerprint, true);
      }
    }
  }

  // Why a request is refused: the text, the name, the tenant, the quota, and then the code as it is stored.
  lemma RefusalsInOrder(s: State, r: PairRequest)
    requires Pair(s, r).Err?
    ensures Pair(s, r).error ==
            if r.code.None? then InvalidCode
            else if r.nameBlank then NameRequired
            else if !r.writable then NotWritable
            else if !StillPaired(s, r) && !r.withinQuota then QuotaExceeded
            else if r.code.value >= |s.codes| then InvalidCode
            else if s.codes[r.code.value].status == CodeConsumed then CodeUsed
            else if s.codes[r.code.value].status == CodeRevoked then CodeWasRevoked
            else CodeHasExpired
  {
    hide FindRevoked, Target;
    PairsExactly(s, r);
    var found := FindPaired(s.devices, r.fingerprint);
    if found.Some? { assert RowOf(s.devices[found.value], r); }
    if StillPaired(s, r) {
      var i :| 0 <= i < |s.devices| && RowOf(s.devices[i], r) && s.devices[i].paired;
      assert Matches(s.devices[i], r.fingerprint, true);
    }
  }

  /**
   A pairing issues the next token, takes it into one row and uses up the code; every other row, code, job and till stays
   as it is.
   */
  lemma PairingChanges(s: State, r: PairRequest)
    requires Pair(s, r).Ok?
    ensures var (t, p) := Pair(s, r).value;
            var d, c := p.device, r.code.value;
            && d < |t.devices| && |t.devices| == (if d == |s.devices| then d + 1 else |s.devices|)
            && (forall i :: 0 <= i < |s.devices| && i != d ==> t.devices[i] == s.devices[i])
            && t.devices[d].name == r.name && t.devices[d].fingerprint == r.fingerprint
            && t.devices[d].paired && t.devices[d].revokedAt == None
            && t.devices[d].tokenHash == HashOf(p.token) && p.token == Token(d, s.issued) && t.issued == s.issued + 1
            && t.codes == s.codes[c := Code(CodeConsumed, s.codes[c].expiresAt, Some(d))]
            && t.jobs == s.jobs && t.pos == s.pos
            && (p.resumed <==> StillPaired(s, r))
  {
    hide FindRevoked, FindPaired;
    PairsExactly(s, r);
    var paired, revoked := FindPaired(s.devices, r.fingerprint), FindRevoked(s.devices, r.fingerprint);
    if paired.Some? {
      assert RowOf(s.devices[paired.value], r);
    } else {
      forall i | 0 <= i < |s.devices| ensures !(RowOf(s.devices[i], r) && s.devices[i].paired) {
        assert !Matches(s.devices[i], r.fingerprint, true);
      }
    }
  }

  /** Only a machine that is still paired keeps the time of its pairing; only a new row has never been seen. */
  lemma PairingTimes(s: State, r: PairRequest)
    requires Pair(s, r).Ok?
    ensures var (t, p) := Pair(s, r).value;
            var d := p.device;
            && d < |t.devices|
            && t.devices[d].pairedAt == (if d < |s.devices| && s.devices[d].paired then s.devices[d].pairedAt else r.now)
            && t.devices[d].lastSeenAt == (if d < |s.devices| then Some(r.now) else None)
  {
    hide FindRevoked, FindPaired;
  }

  // One row was revoked at least as late as another, or as late and paired at least as late; no time counts as latest.
  predicate AtLeastAsLate(d: Device, e: Device) {
    || (d.revokedAt.None? && (e.revokedAt.Some? || d.pairedAt >= e.pairedAt))
    || (d.revokedAt.Some? && e.revokedAt.Some?
        && (d.revokedAt.value > e.revokedAt.value
            || (d.revokedAt.value == e.revokedAt.value && d.pairedAt >= e.pairedAt)))
  }

  lemma {:induction false} LastRevoked(ds: seq<Device>, r: PairRequest)
    requires FindRevoked(ds, r.fingerprint).Some?
    ensures var d := FindRevoked(ds, r.fingerprint).value;
            forall i :: 0 <= i < |ds| && RowOf(ds[i], r) && !ds[i].paired ==> AtLeastAsLate(ds[d], ds[i])
    decreases |ds|
  {
    hide AtLeastAsLate, Later;
    var n := |ds| - 1;
    var d := FindRevoked(ds, r.fingerprint).value;
    forall a: Device, b: Device, c: Device ensures AtLeastAsLate(a, a) && (Later(a, b) ==> AtLeastAsLate(a, b))
        && (!Later(a, b) ==> AtLeastAsLate(b, a)) && (AtLeastAsLate(a, b) && AtLeastAsLate(b, c) ==> AtLeastAsLate(a, c))
    {
      LateIsOrder(a, b, c);
    }
    if FindRevoked(ds[..n], r.fingerprint).Some? {
      LastRevoked(ds[..n], r);
      assert forall i :: 0 <= i < n ==> ds[..n][i] == ds[i];
    } else {
      forall i | 0 <= i < n ensures !(RowOf(ds[i], r) && !ds[i].paired) {
        assert ds[..n][i] == ds[i] && !Matches(ds[..n][i], r.fingerprint, false);
      }
    }
  }

  lemma LateIsOrder(a: Device, b: Device, c: Device)
    ensures AtLeastAsLate(a, a)
    ensures Later(a, b) ==> AtLeastAsLate(a, b)
    ensures !Later(a, b) ==> AtLeastAsLate(b, a)
    ensures AtLeastAsLate(a, b) && AtLeastAsLate(b, c) ==> AtLeastAsLate(a, c)
  {
  }

  /** The row that is taken: a paired one of the machine, else the one revoked last, else a new one. */
  lemma RowTaken(s: State, r: PairRequest)
    requires Pair(s, r).Ok?
    ensures var d := Pair(s, r).value.1.device;
            if StillPaired(s, r) then d < |s.devices| && RowOf(s.devices[d], r) && s.devices[d].paired
            else if exists i :: 0 <= i < |s.devices| && RowOf(s.devices[i], r)
            then d < |s.devices| && RowOf(s.devices[d], r) && !s.devices[d].paired
                 && forall i :: 0 <= i < |s.devices| && RowOf(s.devices[i], r) ==> AtLeastAsLate(s.devices[d], s.devices[i])
            else d == |s.devices|
  {
    hide FindRevoked, FindPaired, AtLeastAsLate;
    var paired, revoked := FindPaired(s.devices, r.fingerprint), FindRevoked(s.devices, r.fingerprint);
    if paired.Some? {
      assert RowOf(s.devices[paired.value], r);
    } else {
      forall i | 0 <= i < |s.devices| && RowOf(s.devices[i], r) ensures !s.devices[i].paired {
        assert !Matches(s.devices[i], r.fingerprint, true);
      }
      if revoked.Some? {
        LastRevoked(s.devices, r);
        assert RowOf(s.devices[revoked.value], r);
      } else {
        forall i | 0 <= i < |s.devices| ensures !RowOf(s.devices[i], r) {
          assert !Matches(s.devices[i], r.fingerprint, false) && !Matches(s.devices[i], r.fingerprint, true);
        }
      }
    }
  }

  /** Unpairing revokes the row of a paired device at that time and touches no other row, code or till. */
  lemma UnpairingChanges(s: State, d: nat, now: int)
    ensures var u := Unpair(s, d, now);
            && (u.Ok? <==> d < |s.devices|)
            && (u.Err? ==> u.error == DeviceNotFound)
            && (u.Ok? && !s.devices[d].paired ==> u.value == s)
            && (u.Ok? && s.devices[d].paired ==>
                  && u.value.devices == s.devices[d := s.devices[d].(paired := false, revokedAt := Some(now), tokenHash := Unusable)]
                  && u.value.codes == s.codes && u.value.pos == s.pos && u.value.issued == s.issued)
  {
  }
}
