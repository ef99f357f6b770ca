/** What sending, adjusting and granting do to the balance and the ledger, with the quoted prices (points.service.ts). */
module PointsExactly {
  import opened Wrappers
  import opened Text
  import opened Points

  /**
   A batch is sent exactly when the trial goes on and the balance covers the quoted total; then the total comes off the
   balance, under one new row of the ledger, and a total of nothing changes nothing.
   */
  lemma SendsExactly(a: Account, platform: seq<CostRow>, overrides: seq<CostRow>, kinds: seq<string>, trialExpired: bool)
    ensures var total := QuotedTotal(platform, overrides, kinds);
            var r := Consume(a, total, trialExpired);
            && (r.Ok? <==> !trialExpired && (total <= 0 || total <= a.balance))
            && (r.Ok? && total > 0 ==>
                  && r.value.0.balance == a.balance - total
                  && r.value.0.ledger == a.ledger + [Row(-total, a.balance - total, DocumentSend)]
                  && r.value.1 == Charge(total, a.balance - total))
            && (r.Ok? && total <= 0 ==> r.value == (a, Charge(0, a.balance)))
            && (r.Err? ==> r.error == if trialExpired then TrialEnded(a.balance) else InsufficientPoints(total, a.balance))
  {
    hide QuotedTotal;
  }

  /** An adjustment is refused exactly when it takes off more than there is; otherwise it is added and recorded. */
  lemma AdjustsExactly(a: Account, delta: int)
    ensures var r := ApplyDelta(a, delta, AdminAdjust);
            && (r.Ok? <==> delta >= 0 || a.balance + delta >= 0)
            && (r.Ok? ==> r.value == Account(a.balance + delta, a.ledger + [Row(delta, a.balance + delta, AdminAdjust)]))
            && (r.Err? ==> r.error == InsufficientPoints(-delta, a.balance))
  {
  }

  /** Points of one kind are granted exactly once, and only when there is something to grant. */
  lemma GrantsExactly(a: Account, amount: int, reason: Reason)
    ensures Grant(a, amount, reason)
         == if amount > 0 && (forall i :: 0 <= i < |a.ledger| ==> a.ledger[i].reason != reason)
            then Account(a.balance + amount, a.ledger + [Row(amount, a.balance + amount, reason)]) else a
  {
  }

  // A row's price that no later row of its kind replaces.
  predicate IsLast(rows: seq<CostRow>, i: nat, kind: string, price: int) {
    i < |rows| && rows[i] == CostRow(kind, price) && forall j :: i < j < |rows| ==> rows[j].kind != kind
  }

  lemma {:induction false} LastPrice(rows: seq<CostRow>, kind: string)
    ensures var p := Last(rows, kind);
            && (p.None? <==> forall i :: 0 <= i < |rows| ==> rows[i].kind != kind)
            && (p.Some? ==> exists i :: IsLast(rows, i, kind, p.value))
    decreases |rows|
  {
    if rows != [] {
      var n := |rows| - 1;
      var init := rows[..n];
      LastPrice(init, kind);
      assert forall i :: 0 <= i < n ==> init[i] == rows[i];
      if rows[n].kind == kind {
        assert IsLast(rows, n, kind, rows[n].points);
      } else if Last(init, kind).Some? {
        var i :| IsLast(init, i, kind, Last(init, kind).value);
        assert IsLast(rows, i, kind, Last(init, kind).value);
      }
    }
  }

  /** A kind without a price of its own costs what its trimmed name in upper case does, and nothing without that. */
  lemma UnpricedKinds(platform: seq<CostRow>, overrides: seq<CostRow>, kind: string)
    requires forall i :: 0 <= i < |platform| ==> platform[i].kind != kind
    requires forall i :: 0 <= i < |overrides| ==> overrides[i].kind != kind
    ensures var p := Price(platform, overrides, ToUpper(Trim(kind)));
            Cost(platform, overrides, kind) == if p.Some? then p.value else 0
  {
    LastPrice(platform, kind);
    LastPrice(overrides, kind);
  }

  /** The kinds that are quoted without any price are the seven the tariff lists. */
  lemma QuotedByDefault(kind: string)
    ensures Quote([], [], kind)
         == if kind == "INVOICE" || kind == "CREDIT_NOTE" || kind == "DEBIT_NOTE" || kind == "EXPORT_INVOICE"
               || kind == "EXPORT_CREDIT_NOTE" || kind == "EXPORT_DEBIT_NOTE" || kind == "RECEIPT"
            then Some(0) else None
  {
    if kind in DEFAULT_KINDS {
      var i :| 0 <= i < |DEFAULT_KINDS| && DEFAULT_KINDS[i] == kind;
    }
    assert DEFAULT_KINDS[0] == "INVOICE" && DEFAULT_KINDS[1] == "CREDIT_NOTE" && DEFAULT_KINDS[2] == "DEBIT_NOTE";
    assert DEFAULT_KINDS[3] == "EXPORT_INVOICE" && DEFAULT_KINDS[4] == "EXPORT_CREDIT_NOTE";
    assert DEFAULT_KINDS[5] == "EXPORT_DEBIT_NOTE" && DEFAULT_KINDS[6] == "RECEIPT";
  }
}
