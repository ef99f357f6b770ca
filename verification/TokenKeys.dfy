/**
 Token cache keys (eta-token.cache.ts:19-37): one slot per tenant, environment, client and third part. Parts are
 joined with colons, so a key tells its slot exactly when its text can be cut into parts at colons in one way only.
 */
module TokenKeys {
  import opened Text
  import opened Wrappers

  datatype Identity = Identity(
    tenantId: string,
    environment: Option<string>,
    clientId: Option<string>,
    onBehalfOf: Option<string>,
    posSerial: Option<string>
  )

  // What the identity means after trimming and defaults; `pos` tells tills from back-office clients.
  datatype Slot = Slot(pos: bool, tenant: string, environment: string, client: string, third: string)

  function TrimOr(s: Option<string>, fallback: string): string {
    if s.Some? && Trim(s.value) != "" then Trim(s.value) else fallback
  }

  function SlotOf(i: Identity): Slot {
    var client, env := TrimOr(i.clientId, "_"), TrimOr(i.environment, "SANDBOX");
    var pos := TrimOr(i.posSerial, "");
    if pos != "" then Slot(true, i.tenantId, env, client, pos)
    else Slot(false, i.tenantId, env, client, TrimOr(i.onBehalfOf, "_"))
  }

  function SlotKey(s: Slot): string {
    Prefix(s.pos) + Parts(s)
  }

  function TokenCacheKey(i: Identity): string {
    SlotKey(SlotOf(i))
  }

  // A part that is given and not blank, without the white space around it; otherwise its default.
  predicate IsPart(given: Option<string>, default: string, part: string) {
    if given.Some? && Trim(given.value) != "" then part == Trim(given.value) else part == default
  }

  /**
   The key of a till starts with "eta:pos-token:" and ends with its serial; every other key starts with "eta:token:" and
   ends with the taxpayer acted for. Tenant, environment and client come between.
   */
  lemma KeySpelled(i: Identity, environment: string, client: string, third: string)
    requires IsPart(i.environment, "SANDBOX", environment) && IsPart(i.clientId, "_", client)
    ensures var between := i.tenantId + ":" + environment + ":" + client + ":";
            && (i.posSerial.Some? && Trim(i.posSerial.value) == third != "" ==>
                  TokenCacheKey(i) == "eta:pos-token:" + between + third)
            && ((i.posSerial.None? || Trim(i.posSerial.value) == "") && IsPart(i.onBehalfOf, "_", third) ==>
                  TokenCacheKey(i) == "eta:token:" + between + third)
  {
    hide Trim;
    var between := i.tenantId + ":" + environment + ":" + client + ":";
    assert between + third == i.tenantId + (":" + (environment + (":" + (client + (":" + third)))));
    assert "eta:pos-token:" + between + third == "eta:pos-token:" + (between + third);
    assert "eta:token:" + between + third == "eta:token:" + (between + third);
  }

  predicate NoColon(s: string) { ':' !in s }

  // No part has a colon.
  predicate Separable(s: Slot) {
    NoColon(s.tenant) && NoColon(s.environment) && NoColon(s.client) && NoColon(s.third)
  }

  // How many colons a text has.
  function Colons(s: string): (n: nat)
    ensures n == 0 <==> NoColon(s)
  {
    if s == "" then 0 else (if s[0] == ':' then 1 else 0) + Colons(s[1..])
  }

  lemma {:induction false} ColonsAdd(a: string, b: string)
    ensures Colons(a + b) == Colons(a) + Colons(b)
    decreases |a|
  {
    if a == "" {
      assert a + b == b;
    } else {
      assert (a + b)[0] == a[0] && (a + b)[1..] == a[1..] + b;
      ColonsAdd(a[1..], b);
    }
  }

  // The parts of a key after its prefix.
  function Parts(s: Slot): string {
    s.tenant + (":" + (s.environment + (":" + (s.client + (":" + s.third)))))
  }

  function Prefix(pos: bool): string {
    if pos then "eta:pos-token:" else "eta:token:"
  }

  lemma ColonsOfParts(s: Slot)
    ensures Colons(Parts(s)) == 3 + Colons(s.tenant) + Colons(s.environment) + Colons(s.client) + Colons(s.third)
  {
    hide Colons;
    ColonsAdd(":", s.third);
    ColonsAdd(s.client, ":" + s.third);
    ColonsAdd(":", s.client + (":" + s.third));
    ColonsAdd(s.environment, ":" + (s.client + (":" + s.third)));
    ColonsAdd(":", s.environment + (":" + (s.client + (":" + s.third))));
    ColonsAdd(s.tenant, ":" + (s.environment + (":" + (s.client + (":" + s.third)))));
    OneColon();
  }

  lemma OneColon()
    ensures Colons(":") == 1
  {
    assert ":"[1..] == "";
  }

  lemma PartsAgree(a: string, x: string, b: string, y: string)
    requires NoColon(a) && NoColon(b) && a + (":" + x) == b + (":" + y)
    ensures a == b && x == y
  {
    var s := a + (":" + x);
    var t := b + (":" + y);
    assert s[|a|] == ':' && t[|b|] == ':';
    assert forall i :: 0 <= i < |a| ==> s[i] == a[i];
    assert forall i :: 0 <= i < |b| ==> t[i] == b[i];
    assert |a| == |b|;
    assert a == s[..|a|] && b == t[..|b|];
    assert x == s[|a| + 1..] && y == t[|b| + 1..];
  }

  lemma PrefixesDiffer(x: string, y: string)
    ensures "eta:pos-token:" + x != "eta:token:" + y
  {
    assert ("eta:pos-token:" + x)[4] == 'p' && ("eta:token:" + y)[4] == 't';
  }

  lemma SamePrefix(p: string, x: string, y: string)
    requires p + x == p + y
    ensures x == y
  {
    assert x == (p + x)[|p|..] && y == (p + y)[|p|..];
  }

  lemma SameParts(s: Slot, t: Slot)
    requires Separable(s) && Separable(t) && Parts(s) == Parts(t)
    ensures s.tenant == t.tenant && s.environment == t.environment && s.client == t.client && s.third == t.third
  {
    hide NoColon;
    var s3, t3 := s.client + (":" + s.third), t.client + (":" + t.third);
    var s2, t2 := s.environment + (":" + s3), t.environment + (":" + t3);
    PartsAgree(s.tenant, s2, t.tenant, t2);
    PartsAgree(s.environment, s3, t.environment, t3);
    PartsAgree(s.client, s.third, t.client, t.third);
  }

  // A key without colons in its parts belongs to one slot only.
  lemma SeparableIsAlone(s: Slot, t: Slot)
    requires Separable(s) && SlotKey(s) == SlotKey(t)
    ensures s == t
  {
    hide Parts, Colons, NoColon;
    PrefixesDiffer(Parts(s), Parts(t));
    PrefixesDiffer(Parts(t), Parts(s));
    SamePrefix(Prefix(s.pos), Parts(s), Parts(t));
    ColonsOfParts(s);
    ColonsOfParts(t);
    NoneOfEach(s, t);
    SameParts(s, t);
  }

  lemma NoneOfEach(s: Slot, t: Slot)
    requires Separable(s)
    requires Colons(s.tenant) + Colons(s.environment) + Colons(s.client) + Colons(s.third)
          == Colons(t.tenant) + Colons(t.environment) + Colons(t.client) + Colons(t.third)
    ensures Separable(t)
  {
  }

  // ----- exactly which keys are unshared -----

  // What is left of a part after trimming and defaults.
  predicate Proper(part: string) {
    part != "" && Trim(part) == part
  }

  predicate ProperSlot(s: Slot) {
    Proper(s.environment) && Proper(s.client) && Proper(s.third)
  }

  // A way to take three colons of a text for the separators of an environment, a client and a third part.
  predicate Cuts(text: string, a: nat, b: nat, c: nat) {
    && a < b < c < |text|
    && text[a] == text[b] == text[c] == ':'
    && Proper(text[a + 1..b]) && Proper(text[b + 1..c]) && Proper(text[c + 1..])
  }

  // No two choices of separators leave proper parts.
  ghost predicate OneCut(text: string) {
    forall a, b, c, x, y, z :: Cuts(text, a, b, c) && Cuts(text, x, y, z) ==> a == x && b == y && c == z
  }

  function SlotAt(pos: bool, text: string, a: nat, b: nat, c: nat): Slot
    requires a < b < c < |text|
  {
    Slot(pos, text[..a], text[a + 1..b], text[b + 1..c], text[c + 1..])
  }

  // Slots of identities are proper, and every proper slot is some identity's.
  lemma SlotIsProper(i: Identity)
    ensures ProperSlot(SlotOf(i))
  {
    hide Trim;
    TrimOrProper(i.clientId, "_");
    TrimOrProper(i.environment, "SANDBOX");
    TrimOrProper(i.onBehalfOf, "_");
    TrimOrProper(i.posSerial, "_");
  }

  lemma TrimOrProper(s: Option<string>, fallback: string)
    requires fallback == "_" || fallback == "SANDBOX"
    ensures Proper(TrimOr(s, fallback))
  {
    if s.Some? { TrimIdempotent(s.value); }
    TrimStartDone(fallback);
    TrimEndDone(fallback);
  }

  function IdentityOf(s: Slot): (i: Identity)
    requires ProperSlot(s)
    ensures SlotOf(i) == s
  {
    Identity(s.tenant, Some(s.environment), Some(s.client), if s.pos then None else Some(s.third),
             if s.pos then Some(s.third) else None)
  }

  lemma OwnCut(s: Slot) returns (a: nat, b: nat, c: nat)
    requires ProperSlot(s)
    ensures a == |s.tenant| && b == a + 1 + |s.environment| && c == b + 1 + |s.client|
    ensures Cuts(Parts(s), a, b, c) && SlotAt(s.pos, Parts(s), a, b, c) == s
  {
    hide Proper, Parts;
    a := |s.tenant|;
    b := a + 1 + |s.environment|;
    c := b + 1 + |s.client|;
    TenantAt(s);
    EnvironmentAt(s);
    ClientAt(s);
  }

  lemma TenantAt(s: Slot)
    ensures var text, a := Parts(s), |s.tenant|;
            && a < |text| && text[..a] == s.tenant && text[a] == ':'
            && text[a + 1..] == s.environment + (":" + (s.client + (":" + s.third)))
  {
    assert Parts(s)[0..] == Parts(s);
    PartAt(Parts(s), 0, s.tenant, s.environment + (":" + (s.client + (":" + s.third))));
  }

  lemma EnvironmentAt(s: Slot)
    ensures var text, b := Parts(s), |s.tenant| + 1 + |s.environment|;
            && b < |text| && text[|s.tenant| + 1..b] == s.environment && text[b] == ':'
            && text[b + 1..] == s.client + (":" + s.third)
  {
    hide Parts;
    TenantAt(s);
    PartAt(Parts(s), |s.tenant| + 1, s.environment, s.client + (":" + s.third));
  }

  lemma ClientAt(s: Slot)
    ensures var text, b := Parts(s), |s.tenant| + 1 + |s.environment|;
            var c := b + 1 + |s.client|;
            && c < |text| && text[b + 1..c] == s.client && text[c] == ':' && text[c + 1..] == s.third
  {
    hide Parts;
    EnvironmentAt(s);
    PartAt(Parts(s), |s.tenant| + 1 + |s.environment| + 1, s.client, s.third);
  }

  // A part that ends in a colon, somewhere in a text.
  lemma PartAt(text: string, at: nat, part: string, rest: string)
    requires at <= |text| && text[at..] == part + (":" + rest)
    ensures var end := at + |part|;
            end < |text| && text[at..end] == part && text[end] == ':' && text[end + 1..] == rest
  {
    var end := at + |part|;
    assert |text[at..]| == |part| + 1 + |rest|;
    assert text[at..end] == text[at..][..|part|];
    assert text[end] == text[at..][|part|];
    assert text[end + 1..] == text[at..][|part| + 1..];
  }

  lemma PartsAt(pos: bool, text: string, a: nat, b: nat, c: nat)
    requires Cuts(text, a, b, c)
    ensures ProperSlot(SlotAt(pos, text, a, b, c)) && Parts(SlotAt(pos, text, a, b, c)) == text
  {
    hide Proper;
    var third, client := text[c + 1..], text[b + 1..c];
    assert text[b + 1..] == client + (":" + third);
    assert text[a + 1..] == text[a + 1..b] + (":" + text[b + 1..]);
    assert text == text[..a] + (":" + text[a + 1..]);
  }

  lemma SameKeySameParts(s: Slot, t: Slot)
    ensures SlotKey(s) == SlotKey(t) <==> s.pos == t.pos && Parts(s) == Parts(t)
  {
    hide Parts;
    PrefixesDiffer(Parts(s), Parts(t));
    PrefixesDiffer(Parts(t), Parts(s));
    if SlotKey(s) == SlotKey(t) { SamePrefix(Prefix(s.pos), Parts(s), Parts(t)); }
  }

  /** An identity shares its entry with no other slot exactly when the text of its parts has no second cut. */
  lemma KeyIsUnsharedExactly(i: Identity)
    ensures (forall j :: TokenCacheKey(j) == TokenCacheKey(i) ==> SlotOf(j) == SlotOf(i)) <==> OneCut(Parts(SlotOf(i)))
  {
    hide SlotOf, SlotKey, Parts, Cuts, ProperSlot;
    var s := SlotOf(i);
    SlotIsProper(i);
    var a, b, c := OwnCut(s);
    if OneCut(Parts(s)) {
      forall j | TokenCacheKey(j) == TokenCacheKey(i) ensures SlotOf(j) == SlotOf(i) {
        SlotIsProper(j);
        SameKeySameParts(SlotOf(j), s);
        var x, y, z := OwnCut(SlotOf(j));
      }
    }
    if forall j :: TokenCacheKey(j) == TokenCacheKey(i) ==> SlotOf(j) == SlotOf(i) {
      forall x, y, z | Cuts(Parts(s), x, y, z) ensures x == a && y == b && z == c {
        OtherCut(i, x, y, z);
      }
    }
  }

  // Every cut is an identity's with the same key.
  lemma OtherCut(i: Identity, x: nat, y: nat, z: nat)
    requires Cuts(Parts(SlotOf(i)), x, y, z)
    requires forall j :: TokenCacheKey(j) == TokenCacheKey(i) ==> SlotOf(j) == SlotOf(i)
    ensures var s := SlotOf(i); x == |s.tenant| && y == x + 1 + |s.environment| && z == y + 1 + |s.client|
  {
    hide SlotOf, SlotKey, Parts, ProperSlot, Proper;
    var s := SlotOf(i);
    PartsAt(s.pos, Parts(s), x, y, z);
    var t := SlotAt(s.pos, Parts(s), x, y, z);
    SameKeySameParts(t, s);
    assert TokenCacheKey(IdentityOf(t)) == TokenCacheKey(i);
  }

  // A colon does not always make a second cut.
  lemma HarmlessColon()
    ensures var i := Identity("t", None, None, Some(":"), None); !Separable(SlotOf(i)) && OneCut(Parts(SlotOf(i)))
  {
    hide Trim;
    var i := Identity("t", None, None, Some(":"), None);
    TrimOne(':');
    assert SlotOf(i) == Slot(false, "t", "SANDBOX", "_", ":");
    var text := Parts(SlotOf(i));
    assert text == "t:SANDBOX:_::";
    forall a, b, c | Cuts(text, a, b, c) ensures a == 1 && b == 9 && c == 11 {
      ColonsOfHarmless(text, a);
      ColonsOfHarmless(text, b);
      ColonsOfHarmless(text, c);
      assert c != 12;
    }
  }

  lemma ColonsOfHarmless(text: string, k: nat)
    requires text == "t:SANDBOX:_::" && k < |text| && text[k] == ':'
    ensures k == 1 || k == 9 || k == 11 || k == 12
  {
  }

  lemma TrimOne(c: char)
    requires !IsSpace(c)
    ensures Trim([c]) == [c]
  {
  }

  // Tenants and environments without colons are told apart, whatever the other parts: sandbox and production never share.
  lemma EnvironmentsNeverShare(i: Identity, j: Identity)
    requires NoColon(i.tenantId) && NoColon(j.tenantId)
    requires NoColon(SlotOf(i).environment) && NoColon(SlotOf(j).environment)
    requires TokenCacheKey(i) == TokenCacheKey(j)
    ensures i.tenantId == j.tenantId && SlotOf(i).environment == SlotOf(j).environment && SlotOf(i).pos == SlotOf(j).pos
  {
    hide NoColon, Trim;
    var s, t := SlotOf(i), SlotOf(j);
    SameKeySameParts(s, t);
    var s3, t3 := s.client + (":" + s.third), t.client + (":" + t.third);
    PartsAgree(s.tenant, s.environment + (":" + s3), t.tenant, t.environment + (":" + t3));
    PartsAgree(s.environment, s3, t.environment, t3);
  }

  // So an identity without colons shares its cache entry only with identities that mean the same slot.
  lemma KeysSeparateSlots(i: Identity, j: Identity)
    requires Separable(SlotOf(i))
    ensures TokenCacheKey(i) == TokenCacheKey(j) <==> SlotOf(i) == SlotOf(j)
  {
    hide SlotOf, SlotKey, Separable;
    if TokenCacheKey(i) == TokenCacheKey(j) { SeparableIsAlone(SlotOf(i), SlotOf(j)); }
  }

  // The condition matters: a colon inside a client id can make two clients share a slot.
  lemma ColonsCanCollide()
    ensures var i := Identity("t", None, Some("a:b"), Some("c"), None);
            var j := Identity("t", None, Some("a"), Some("b:c"), None);
            TokenCacheKey(i) == TokenCacheKey(j) && SlotOf(i) != SlotOf(j)
  {
    var i := Identity("t", None, Some("a:b"), Some("c"), None);
    var j := Identity("t", None, Some("a"), Some("b:c"), None);
    assert SlotOf(i) == Slot(false, "t", "SANDBOX", "a:b", "c");
    assert SlotOf(j) == Slot(false, "t", "SANDBOX", "a", "b:c");
    assert "a:b" + (":" + "c") == "a" + (":" + "b:c");
  }
}
