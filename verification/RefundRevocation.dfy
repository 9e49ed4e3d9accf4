/**
 When a refund takes paid access away (revokeRefundedSubscription in
 api/entitlements.go): exactly when no manual grant is active and no other Stripe
 subscription of the account keeps it, read off the rows themselves.
 */
module RefundRevocation {
  import opened Finance
  import opened Text
  import opened RefundLedger
  import opened RefundSettlement
  import opened Webhooks
  import opened RefundedAccess

  const DAY := 24 * 3600

  /** A row other than `id`'s is a Stripe subscription that still gives paid access: it runs,
      or ran out less than 14 days into arrears, or is past due with no more arrears than that. */
  ghost predicate RowPays(row: Row, arrearsSince: Option<int>, id: string, now: int) {
    && row.sub.externalID != id && Lower(row.sub.provider) == "stripe" && Lower(row.sub.kind) == "subscription"
    && match Lower(Trim(row.sub.status))
       case "past_due" => arrearsSince.None? || now - arrearsSince.value < 14 * DAY
       case "active" => Runs(row, arrearsSince, now)
       case "trialing" => Runs(row, arrearsSince, now)
       case "canceling" => Runs(row, arrearsSince, now)
       case _ => false
  }

  ghost predicate Runs(row: Row, arrearsSince: Option<int>, now: int) {
    row.expiresAt.None? || now < row.expiresAt.value || (arrearsSince.Some? && now - arrearsSince.value < 14 * DAY)
  }

  /** The account goes on paying for something else. */
  ghost predicate StillPays(rows: seq<Row>, arrearsSince: Option<int>, id: string, env: Env) {
    env.grantActive || exists i :: 0 <= i < |rows| && RowPays(rows[i], arrearsSince, id, env.now)
  }

  /** `b` is the Free account, with one more downgrade logged, or has plan, quota, arrears and log of `a`. */
  ghost predicate Drops(a: Account, b: Account, drops: bool) {
    if drops
    then b.profile == Some("FREE") && b.profileQuota == 5 * 1024 * 1024 * 1024 && b.arrearsSince.None? && b.log == a.log + [Downgraded]
    else b.profile == a.profile && b.profileQuota == a.profileQuota && b.arrearsSince == a.arrearsSince && b.log == a.log
  }

  lemma Literals()
    ensures Lower("stripe") == "stripe" && Lower("subscription") == "subscription"
  {
  }

  lemma RowPaysExactly(row: Row, arrearsSince: Option<int>, id: string, now: int)
    ensures KeepsAccess(arrearsSince, row, id, now) <==> RowPays(row, arrearsSince, id, now)
  {
    Literals();
  }

  lemma {:induction false} AnyPaysExactly(rows: seq<Row>, arrearsSince: Option<int>, id: string, now: int)
    ensures AnyKeepsAccess(rows, arrearsSince, id, now) <==> exists i :: 0 <= i < |rows| && RowPays(rows[i], arrearsSince, id, now)
  {
    if rows != [] {
      RowPaysExactly(rows[0], arrearsSince, id, now);
      AnyPaysExactly(rows[1..], arrearsSince, id, now);
      assert forall i :: 0 <= i < |rows[1..]| ==> rows[1..][i] == rows[i + 1];
      assert forall i :: 1 <= i < |rows| ==> rows[i] == rows[1..][i - 1];
    }
  }

  /** Rows of `id` itself do not count. */
  lemma OthersDecide(rows: seq<Row>, other: seq<Row>, arrearsSince: Option<int>, id: string, env: Env)
    requires |rows| <= |other|
    requires forall i :: 0 <= i < |rows| ==> other[i] == rows[i] || rows[i].sub.externalID == other[i].sub.externalID == id
    requires forall i :: |rows| <= i < |other| ==> other[i].sub.externalID == id
    ensures StillPays(rows, arrearsSince, id, env) <==> StillPays(other, arrearsSince, id, env)
  {
    if i :| 0 <= i < |rows| && RowPays(rows[i], arrearsSince, id, env.now) { assert RowPays(other[i], arrearsSince, id, env.now); }
    if i :| 0 <= i < |other| && RowPays(other[i], arrearsSince, id, env.now) { assert RowPays(rows[i], arrearsSince, id, env.now); }
  }

  /** Revoking a known subscription marks its row, and drops the account to Free exactly when
      it pays for nothing else; for an unknown one nothing happens. */
  lemma RevokeDropsExactly(a: Account, refundedID: string, env: Env)
    ensures var b, id := Revoke(a, refundedID, env), Trim(refundedID);
            var known := exists i :: 0 <= i < |a.rows| && a.rows[i].sub.externalID == id;
            && (!known ==> b == a)
            && (known ==> Drops(a, b, !StillPays(a.rows, a.arrearsSince, id, env)))
            && |b.rows| == |a.rows| && b.user == a.user && b.ledger == a.ledger
  {
    var i, id := RowIndex(a.rows, Trim(refundedID)), Trim(refundedID);
    if i.Some? {
      var marked := MarkRefunded(a, i.value).rows;
      AnyPaysExactly(marked, a.arrearsSince, id, env.now);
      OthersDecide(a.rows, marked, a.arrearsSince, id, env);
    }
  }

  lemma PutDecides(rows: seq<Row>, row: Row, arrearsSince: Option<int>, env: Env)
    ensures StillPays(rows, arrearsSince, row.sub.externalID, env) <==> StillPays(PutRow(rows, row), arrearsSince, row.sub.externalID, env)
  {
    OthersDecide(rows, PutRow(rows, row), arrearsSince, row.sub.externalID, env);
  }

  lemma PutIsKnown(rows: seq<Row>, row: Row)
    ensures exists i :: 0 <= i < |PutRow(rows, row)| && PutRow(rows, row)[i].sub.externalID == row.sub.externalID
  {
    var i := RowIndex(rows, row.sub.externalID);
    assert PutRow(rows, row)[if i.Some? then i.value else |rows|].sub.externalID == row.sub.externalID;
  }

  lemma ChargeIs(a: Account, src: Source, env: Env)
    requires Trim(src.userID) == a.user && !Guard(a.ledger, src)
    ensures Charged(a, src, env) == Revoke(a.(rows := PutRow(a.rows, NewRow(src.(status := "refunded")))), src.id, env)
  {
    RefundedUpsert(a, src.(status := "refunded"), env);
  }

  lemma RefundedUpsert(a: Account, src: Source, env: Env)
    requires Trim(src.userID) == a.user && !Guard(a.ledger, src) && src.status == "refunded"
    ensures Upsert(a, src, env) == a.(rows := PutRow(a.rows, NewRow(src)))
  {
  }

  lemma SeenChargeIs(a: Account, src: Source, env: Env)
    requires src.userID == a.user && Trimmed(a.user) && Guard(a.ledger, src)
    ensures Charged(a, src, env) == Revoke(Revoke(a, src.id, env), src.id, env)
  {
    assert Guard(a.ledger, src.(status := "refunded"));
  }

  /** A fully refunded charge, with its refund not in the ledger yet: the subscription's row is
      stored and marked, and the account drops to Free exactly when it pays for nothing else. */
  lemma ChargeDropsExactly(a: Account, src: Source, env: Env)
    requires Trim(src.userID) == a.user && !Guard(a.ledger, src)
    ensures Drops(a, Handle(a, ChargeRefunded(src, env)), !StillPays(a.rows, a.arrearsSince, Trim(src.id), env))
    ensures Status(Handle(a, ChargeRefunded(src, env)), Trim(src.id)) == Some("refunded")
  {
    ChargedDrops(a, src, env);
    ChargedIsHandled(a, src, env);
  }

  lemma ChargedDrops(a: Account, src: Source, env: Env)
    requires Trim(src.userID) == a.user && !Guard(a.ledger, src)
    ensures Drops(a, Charged(a, src, env), !StillPays(a.rows, a.arrearsSince, Trim(src.id), env))
    ensures Status(Charged(a, src, env), Trim(src.id)) == Some("refunded")
  {
    var row := NewRow(src.(status := "refunded"));
    var b := a.(rows := PutRow(a.rows, row));
    assert row.sub.externalID == Trim(src.id);
    ChargeIs(a, src, env);
    PutDecides(a.rows, row, a.arrearsSince, env);
    PutIsKnown(a.rows, row);
    RevokeDropsExactly(b, src.id, env);
    RevokeStatus(b, src.id, env, Trim(src.id));
  }

  /** With the refund in the ledger already the upsert has revoked the row before: the account
      ends up Free exactly when it pays for nothing else, or was Free already. */
  lemma SeenChargeDropsExactly(a: Account, src: Source, env: Env)
    requires src.userID == a.user && Trimmed(a.user) && Guard(a.ledger, src)
    requires exists i :: 0 <= i < |a.rows| && a.rows[i].sub.externalID == Trim(src.id)
    ensures var b := Handle(a, ChargeRefunded(src, env));
            if StillPays(a.rows, a.arrearsSince, Trim(src.id), env) then Drops(a, b, false)
            else b.profile == Some("FREE") && b.profileQuota == 5 * 1024 * 1024 * 1024 && b.arrearsSince.None?
  {
    SeenChargedDrops(a, src, env);
    ChargedIsHandled(a, src, env);
  }

  lemma SeenChargedDrops(a: Account, src: Source, env: Env)
    requires src.userID == a.user && Trimmed(a.user) && Guard(a.ledger, src)
    requires exists i :: 0 <= i < |a.rows| && a.rows[i].sub.externalID == Trim(src.id)
    ensures var b := Charged(a, src, env);
            if StillPays(a.rows, a.arrearsSince, Trim(src.id), env) then Drops(a, b, false)
            else b.profile == Some("FREE") && b.profileQuota == 5 * 1024 * 1024 * 1024 && b.arrearsSince.None?
  {
    var b := Revoke(a, src.id, env);
    SeenChargeIs(a, src, env);
    RevokeDropsExactly(a, src.id, env);
    RevokeDropsExactly(b, src.id, env);
    SameOthers(a, src.id, env);
  }

  lemma SameOthers(a: Account, refundedID: string, env: Env)
    ensures var b := Revoke(a, refundedID, env);
            forall arrearsSince :: StillPays(a.rows, arrearsSince, Trim(refundedID), env) <==> StillPays(b.rows, arrearsSince, Trim(refundedID), env)
  {
    var b := Revoke(a, refundedID, env);
    forall arrearsSince ensures StillPays(a.rows, arrearsSince, Trim(refundedID), env) <==> StillPays(b.rows, arrearsSince, Trim(refundedID), env) {
      OthersDecide(a.rows, b.rows, arrearsSince, Trim(refundedID), env);
    }
  }

  /** The reported refund is stored, pays its payment back in full, and with it everything the
      subscription in row `k` was ever paid. */
  ghost predicate Settles(a: Account, fact: RefundFact, k: nat) {
    var (l, o) := AddRefund(a.ledger, fact);
    && o in {Stored, Replayed} && k < |a.rows| && HasPayment(l.payments, fact.paymentID)
    && var p := PaymentByID(l.payments, fact.paymentID);
    && p.account == a.user && Refunded(l.refunds, p.id) == p.amount
    && FindInvoice(l.invoices, p.invoiceID).Some?
    && var sub := FindInvoice(l.invoices, p.invoiceID).value.subscription;
    && sub != "" && a.rows[k].sub.id == sub && a.rows[k].sub.provider == "stripe"
    && (forall j :: 0 <= j < k ==> a.rows[j].sub.id != sub || a.rows[j].sub.provider != "stripe")
    && Settled(l.invoices, l.payments, l.refunds, a.user, sub)
  }

  lemma {:induction false} RowOfFirst(rows: seq<Row>, id: string, k: nat)
    requires id != "" && k < |rows| && rows[k].sub.id == id && rows[k].sub.provider == "stripe"
    requires forall j :: 0 <= j < k ==> rows[j].sub.id != id || rows[j].sub.provider != "stripe"
    ensures RowOf(rows, id) == Some(k)
  {
    if k > 0 {
      assert forall j :: 0 <= j < k - 1 ==> rows[1..][j] == rows[j + 1];
      RowOfFirst(rows[1..], id, k - 1);
    }
  }

  lemma {:induction false} RowOfFound(rows: seq<Row>, id: string)
    ensures RowOf(rows, id).Some? ==>
            var k := RowOf(rows, id).value;
            && id != "" && k < |rows| && rows[k].sub.id == id && rows[k].sub.provider == "stripe"
            && forall j :: 0 <= j < k ==> rows[j].sub.id != id || rows[j].sub.provider != "stripe"
  {
    if id != "" && rows != [] && !(rows[0].sub.id == id && rows[0].sub.provider == "stripe") {
      RowOfFound(rows[1..], id);
      if RowOf(rows[1..], id).Some? {
        var k := RowOf(rows[1..], id).value;
        assert forall j :: 1 <= j <= k ==> rows[j] == rows[1..][j - 1];
      }
    }
  }

  lemma ReportIs(a: Account, fact: RefundFact, env: Env, k: nat)
    requires Settles(a, fact, k)
    ensures ReportedRefund(a, fact, env) == Revoke(a.(ledger := AddRefund(a.ledger, fact).0), a.rows[k].sub.externalID, env)
  {
    RowOfFirst(a.rows, a.rows[k].sub.id, k);
  }

  /** A reported refund that settles the subscription of a row drops the account to Free exactly
      when it pays for nothing else; one that settles no row only enters the ledger. */
  lemma ReportDropsExactly(a: Account, fact: RefundFact, env: Env)
    ensures forall k: nat :: Settles(a, fact, k) && Trimmed(a.rows[k].sub.externalID) ==>
                               Drops(a, Handle(a, RefundReported(fact, env)), !StillPays(a.rows, a.arrearsSince, a.rows[k].sub.externalID, env))
                               && IsRefunded(Handle(a, RefundReported(fact, env)), a.rows[k].sub.externalID)
    ensures (forall k: nat :: !Settles(a, fact, k)) ==> Handle(a, RefundReported(fact, env)) == a.(ledger := AddRefund(a.ledger, fact).0)
  {
    var b := a.(ledger := AddRefund(a.ledger, fact).0);
    ReportedIsHandled(a, fact, env);
    forall k: nat | Settles(a, fact, k) && Trimmed(a.rows[k].sub.externalID)
      ensures Drops(a, Handle(a, RefundReported(fact, env)), !StillPays(a.rows, a.arrearsSince, a.rows[k].sub.externalID, env))
              && IsRefunded(Handle(a, RefundReported(fact, env)), a.rows[k].sub.externalID)
    {
      var id := a.rows[k].sub.externalID;
      ReportIs(a, fact, env, k);
      RevokeDropsExactly(b, id, env);
      RevokeStatus(b, id, env, id);
    }
    if forall k: nat :: !Settles(a, fact, k) { UnsettledReport(a, fact, env); }
  }

  lemma UnsettledReport(a: Account, fact: RefundFact, env: Env)
    requires forall k: nat :: !Settles(a, fact, k)
    ensures ReportedRefund(a, fact, env) == a.(ledger := AddRefund(a.ledger, fact).0)
  {
    var (l, o) := AddRefund(a.ledger, fact);
    if o in {Stored, Replayed} && HasPayment(l.payments, fact.paymentID) {
      var invoice := FindInvoice(l.invoices, PaymentByID(l.payments, fact.paymentID).invoiceID);
      if invoice.Some? {
        RowOfFound(a.rows, invoice.value.subscription);
        var k := RowOf(a.rows, invoice.value.subscription);
        if k.Some? { assert !Settles(a, fact, k.value); }
      }
    }
  }
}
