/**
 The points ledger of one account (points.service.ts): effective costs, charging a batch of documents, adjustments
 and one-off grants. Each transaction is one step; one that throws changes nothing.
 */
module Points {
  import opened Text
  import opened Wrappers

  datatype CostRow = CostRow(kind: string, points: int)

  datatype Reason = DocumentSend | AdminAdjust | TrialGrant | PlanGrant

  datatype Row = Row(delta: int, balanceAfter: int, reason: Reason)

  datatype Account = Account(balance: int, ledger: seq<Row>)

  datatype Error = InsufficientPoints(needed: int, balance: int) | TrialEnded(balance: int)

  datatype Charge = Charge(total: int, balanceAfter: int)

  // ----- costs -----

  const DEFAULT_KINDS: seq<string> := [
    "INVOICE", "CREDIT_NOTE", "DEBIT_NOTE", "EXPORT_INVOICE", "EXPORT_CREDIT_NOTE", "EXPORT_DEBIT_NOTE", "RECEIPT"
  ]

  // The last row for a kind.
  function Last(rows: seq<CostRow>, kind: string): Option<int> {
    if rows == [] then None
    else if rows[|rows| - 1].kind == kind then Some(rows[|rows| - 1].points)
    else Last(rows[..|rows| - 1], kind)
  }

  lemma LastNext(rows: seq<CostRow>, i: nat, kind: string)
    requires i < |rows|
    ensures Last(rows[..i + 1], kind)
            == if rows[i].kind == kind then Some(rows[i].points) else Last(rows[..i], kind)
  {
    var s := rows[..i + 1];
    assert s[|s| - 1] == rows[i] && s[..|s| - 1] == rows[..i];
  }

  function Get(m: map<string, int>, kind: string): Option<int> {
    if kind in m then Some(m[kind]) else None
  }

  lemma GetPut(m: map<string, int>, key: string, value: int, kind: string)
    ensures Get(m[key := value], kind) == if key == kind then Some(value) else Get(m, kind)
  {
    if key == kind { assert m[key := value][kind] == value; }
  }

  function OrElse(p: Option<int>, q: Option<int>): Option<int> {
    if p.Some? then p else q
  }

  // A tenant's own price comes before the platform's.
  function Price(platform: seq<CostRow>, overrides: seq<CostRow>, kind: string): Option<int> {
    OrElse(Last(overrides, kind), Last(platform, kind))
  }

  // `for (const row of rows) map.set(row.documentKind, row.points)`.
  method Overwrite(before: map<string, int>, rows: seq<CostRow>) returns (m: map<string, int>)
    ensures forall kind :: Get(m, kind) == OrElse(Last(rows, kind), Get(before, kind))
  {
    hide Get;
    m := before;
    for i := 0 to |rows|
      invariant forall kind :: Get(m, kind) == OrElse(Last(rows[..i], kind), Get(before, kind))
    {
      var next := m[rows[i].kind := rows[i].points];
      forall kind ensures Get(next, kind) == OrElse(Last(rows[..i + 1], kind), Get(before, kind)) {
        GetPut(m, rows[i].kind, rows[i].points, kind);
        LastNext(rows, i, kind);
      }
      m := next;
    }
    assert rows[..|rows|] == rows;
  }

  method CostMap(platform: seq<CostRow>, overrides: seq<CostRow>) returns (m: map<string, int>)
    ensures forall kind :: Get(m, kind) == Price(platform, overrides, kind)
  {
    m := Overwrite(map[], platform);
    m := Overwrite(m, overrides);
  }

  // What a tenant is quoted: every default kind is listed, at nothing unless it has a price.
  function Quote(platform: seq<CostRow>, overrides: seq<CostRow>, kind: string): Option<int> {
    var p := Price(platform, overrides, kind);
    if p.Some? then p else if kind in DEFAULT_KINDS then Some(0) else None
  }

  method EffectiveCosts(platform: seq<CostRow>, overrides: seq<CostRow>) returns (byKind: map<string, int>)
    ensures forall kind :: Get(byKind, kind) == Quote(platform, overrides, kind)
  {
    byKind := map[];
    for i := 0 to |DEFAULT_KINDS|
      invariant forall kind :: Get(byKind, kind) == if kind in DEFAULT_KINDS[..i] then Some(0) else None
    {
      byKind := byKind[DEFAULT_KINDS[i] := 0];
      assert DEFAULT_KINDS[..i + 1] == DEFAULT_KINDS[..i] + [DEFAULT_KINDS[i]];
    }
    assert DEFAULT_KINDS[..|DEFAULT_KINDS|] == DEFAULT_KINDS;
    byKind := Overwrite(byKind, platform);
    byKind := Overwrite(byKind, overrides);
  }

  function Normalize(kind: string): string { ToUpper(Trim(kind)) }

  // What one document is charged: its kind's price, else its normalized kind's, else nothing.
  function Cost(platform: seq<CostRow>, overrides: seq<CostRow>, kind: string): int {
    var exact, normal := Price(platform, overrides, kind), Price(platform, overrides, Normalize(kind));
    if exact.Some? then exact.value else if normal.Some? then normal.value else 0
  }

  function BatchCost(platform: seq<CostRow>, overrides: seq<CostRow>, kinds: seq<string>): int {
    if kinds == [] then 0
    else BatchCost(platform, overrides, kinds[..|kinds| - 1]) + Cost(platform, overrides, kinds[|kinds| - 1])
  }

  method SumCosts(platform: seq<CostRow>, overrides: seq<CostRow>, kinds: seq<string>) returns (total: int)
    ensures total == BatchCost(platform, overrides, kinds)
  {
    var costMap := CostMap(platform, overrides);
    total := 0;
    for i := 0 to |kinds|
      invariant total == BatchCost(platform, overrides, kinds[..i])
    {
      assert kinds[..i + 1][..i] == kinds[..i];
      var exact, normal := Get(costMap, kinds[i]), Get(costMap, Normalize(kinds[i]));
      total := total + if exact.Some? then exact.value else if normal.Some? then normal.value else 0;
    }
    assert kinds[..|kinds|] == kinds;
  }

  // The quoted price of a kind, read the way a caller would: as listed, else under its normalized name.
  function QuotedCost(platform: seq<CostRow>, overrides: seq<CostRow>, kind: string): int {
    var listed, normal := Quote(platform, overrides, kind), Quote(platform, overrides, Normalize(kind));
    if listed.Some? then listed.value else if normal.Some? then normal.value else 0
  }

  function QuotedTotal(platform: seq<CostRow>, overrides: seq<CostRow>, kinds: seq<string>): int {
    if kinds == [] then 0
    else QuotedTotal(platform, overrides, kinds[..|kinds| - 1]) + QuotedCost(platform, overrides, kinds[|kinds| - 1])
  }

  lemma DefaultKindsAreNormal(kind: string)
    requires kind in DEFAULT_KINDS
    ensures Normalize(kind) == kind
  {
    NoTrim(kind);
    assert |ToUpper(kind)| == |kind|;
    assert forall i :: 0 <= i < |kind| ==> ToUpper(kind)[i] == kind[i];
    assert ToUpper(kind) == kind;
  }

  lemma NoTrim(s: string)
    requires s != "" && !IsSpace(s[0]) && !IsSpace(s[|s| - 1])
    ensures Trim(s) == s
  {
  }

  lemma CostIsQuoted(platform: seq<CostRow>, overrides: seq<CostRow>, kind: string)
    ensures Cost(platform, overrides, kind) == QuotedCost(platform, overrides, kind)
  {
    hide Last, Normalize;
    if kind in DEFAULT_KINDS { DefaultKindsAreNormal(kind); }
  }

  /** A batch is charged exactly the sum of the costs quoted for its kinds. */
  lemma {:induction false} BatchCostsWhatIsQuoted(platform: seq<CostRow>, overrides: seq<CostRow>, kinds: seq<string>)
    ensures BatchCost(platform, overrides, kinds) == QuotedTotal(platform, overrides, kinds)
    decreases |kinds|
  {
    hide Cost, QuotedCost;
    if kinds != [] {
      BatchCostsWhatIsQuoted(platform, overrides, kinds[..|kinds| - 1]);
      CostIsQuoted(platform, overrides, kinds[|kinds| - 1]);
    }
  }

  // ----- transactions -----

  function Post(a: Account, delta: int, reason: Reason): Account {
    Account(a.balance + delta, a.ledger + [Row(delta, a.balance + delta, reason)])
  }

  // A conditional update: a deduction needs the points to be there.
  function ApplyDelta(a: Account, delta: int, reason: Reason): Result<Account, Error> {
    if delta < 0 && a.balance < -delta then Err(InsufficientPoints(-delta, a.balance)) else Ok(Post(a, delta, reason))
  }

  function Consume(a: Account, total: int, trialExpired: bool): Result<(Account, Charge), Error> {
    if trialExpired then Err(TrialEnded(a.balance))
    else if total <= 0 then Ok((a, Charge(0, a.balance)))
    else if a.balance < total then Err(InsufficientPoints(total, a.balance))
    else Ok((Post(a, -total, DocumentSend), Charge(total, a.balance - total)))
  }

  predicate Granted(a: Account, reason: Reason) {
    exists i :: 0 <= i < |a.ledger| && a.ledger[i].reason == reason
  }

  // Trial and plan points are granted once; nothing is granted when there is nothing to give.
  function Grant(a: Account, amount: int, reason: Reason): Account {
    if Granted(a, reason) || amount <= 0 then a else Post(a, amount, reason)
  }

  class PointsService {
    var balance: int
    var ledger: seq<Row>

    function State(): Account
      reads this
    {
      Account(balance, ledger)
    }

    method ConsumeForSend(platform: seq<CostRow>, overrides: seq<CostRow>, kinds: seq<string>, trialExpired: bool)
      returns (r: Result<Charge, Error>)
      modifies this
      ensures match Consume(old(State()), QuotedTotal(platform, overrides, kinds), trialExpired)
              case Ok((a, charge)) => r == Ok(charge) && State() == a
              case Err(e) => r == Err(e) && State() == old(State())
    {
      BatchCostsWhatIsQuoted(platform, overrides, kinds);
      if trialExpired { return Err(TrialEnded(balance)); }
      var total := SumCosts(platform, overrides, kinds);
      if total <= 0 { return Ok(Charge(0, balance)); }
      if balance < total { return Err(InsufficientPoints(total, balance)); }
      balance := balance - total;
      ledger := ledger + [Row(-total, balance, DocumentSend)];
      return Ok(Charge(total, balance));
    }

    method Apply(delta: int, reason: Reason) returns (r: Result<(), Error>)
      modifies this
      ensures match ApplyDelta(old(State()), delta, reason)
              case Ok(a) => r == Ok(()) && State() == a
              case Err(e) => r == Err(e) && State() == old(State())
    {
      if delta < 0 {
        if balance < -delta { return Err(InsufficientPoints(-delta, balance)); }
        balance := balance + delta;
      } else {
        balance := balance + delta;
      }
      ledger := ledger + [Row(delta, balance, reason)];
      return Ok(());
    }

    // grantTrialPointsIfNeeded and grantPlanPointsIfNeeded.
    method GrantIfNeeded(amount: int, reason: Reason)
      modifies this
      ensures State() == Grant(old(State()), amount, reason)
    {
      for i := 0 to |ledger|
        invariant State() == old(State())
        invariant forall j :: 0 <= j < i ==> ledger[j].reason != reason
      {
        if ledger[i].reason == reason { return; }
      }
      if amount <= 0 { return; }
      var r := Apply(amount, reason);
    }
  }

  // ----- runs -----

  datatype Event =
    | Send(total: int, trialExpired: bool)
    | Adjust(delta: int)
    | GrantOnce(amount: int, plan: bool)

  function Step(a: Account, e: Event): Account {
    match e
    case Send(total, expired) => (match Consume(a, total, expired) case Ok((b, _)) => b case Err(_) => a)
    case Adjust(delta) => (match ApplyDelta(a, delta, AdminAdjust) case Ok(b) => b case Err(_) => a)
    case GrantOnce(amount, plan) => Grant(a, amount, if plan then PlanGrant else TrialGrant)
  }

  function Run(start: int, es: seq<Event>): Account {
    if es == [] then Account(start, []) else Step(Run(start, es[..|es| - 1]), es[|es| - 1])
  }

  function Sum(rows: seq<Row>): int {
    if rows == [] then 0 else Sum(rows[..|rows| - 1]) + rows[|rows| - 1].delta
  }

  function Count(rows: seq<Row>, reason: Reason): nat {
    if rows == [] then 0
    else Count(rows[..|rows| - 1], reason) + if rows[|rows| - 1].reason == reason then 1 else 0
  }

  // The ledger explains the balance, row by row.
  predicate Explains(a: Account, start: int) {
    && a.balance == start + Sum(a.ledger)
    && (forall i :: 0 <= i < |a.ledger| ==> a.ledger[i].balanceAfter == start + Sum(a.ledger[..i + 1]))
    && a.balance >= 0
    && (forall i :: 0 <= i < |a.ledger| ==> a.ledger[i].balanceAfter >= 0)
  }

  predicate GrantedOnce(a: Account, reason: Reason) {
    Count(a.ledger, reason) == if Granted(a, reason) then 1 else 0
  }

  lemma PostExplains(a: Account, start: int, delta: int, reason: Reason)
    requires Explains(a, start) && a.balance + delta >= 0
    ensures Explains(Post(a, delta, reason), start)
  {
    var l := Post(a, delta, reason).ledger;
    assert l[..|a.ledger|] == a.ledger;
    forall i | 0 <= i < |l| ensures l[i].balanceAfter == start + Sum(l[..i + 1]) {
      if i < |a.ledger| {
        assert l[..i + 1] == a.ledger[..i + 1];
      } else {
        assert l[..i + 1] == l;
      }
    }
  }

  lemma PostGrants(a: Account, delta: int, posted: Reason, reason: Reason)
    requires GrantedOnce(a, reason) && !(posted == reason && Granted(a, reason))
    ensures GrantedOnce(Post(a, delta, posted), reason)
  {
    var l := Post(a, delta, posted).ledger;
    assert l[..|a.ledger|] == a.ledger;
    if Granted(a, reason) {
      var i :| 0 <= i < |a.ledger| && a.ledger[i].reason == reason;
      assert l[i].reason == reason;
    } else if posted == reason {
      assert l[|a.ledger|].reason == reason;
    }
  }

  lemma StepKeeps(a: Account, start: int, e: Event)
    requires Explains(a, start) && GrantedOnce(a, TrialGrant) && GrantedOnce(a, PlanGrant)
    ensures var b := Step(a, e); Explains(b, start) && GrantedOnce(b, TrialGrant) && GrantedOnce(b, PlanGrant)
  {
    hide GrantedOnce, Granted, Post, Sum;
    var b := Step(a, e);
    if b != a {
      var delta := match e case Send(total, _) => -total case Adjust(d) => d case GrantOnce(amount, _) => amount;
      var reason := match e case Send(_, _) => DocumentSend case Adjust(_) => AdminAdjust
                            case GrantOnce(_, plan) => if plan then PlanGrant else TrialGrant;
      assert b == Post(a, delta, reason);
      PostExplains(a, start, delta, reason);
      PostGrants(a, delta, reason, TrialGrant);
      PostGrants(a, delta, reason, PlanGrant);
    }
  }

  /**
   In every run the balance is the start plus the ledger's deltas, every row carries its prefix sum, the balance is
   never negative, and each kind of grant happens at most once.
   */
  lemma {:induction false} LedgerExplainsBalance(start: nat, es: seq<Event>)
    ensures var a := Run(start, es); Explains(a, start) && GrantedOnce(a, TrialGrant) && GrantedOnce(a, PlanGrant)
    decreases |es|
  {
    hide Explains, GrantedOnce, Step;
    if es == [] {
      EmptyLedger(start);
    } else {
      LedgerExplainsBalance(start, es[..|es| - 1]);
      StepKeeps(Run(start, es[..|es| - 1]), start, es[|es| - 1]);
    }
  }

  lemma EmptyLedger(start: nat)
    ensures var a := Account(start, []); Explains(a, start) && GrantedOnce(a, TrialGrant) && GrantedOnce(a, PlanGrant)
  {
  }
}
