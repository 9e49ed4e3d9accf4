/**
 The webhook handlers as they run: methods that read and rewrite the stored
 account, each equal to the function of the same name in Webhooks.
 */
module WebhookStore {
  import opened Finance
  import opened Text
  import opened RefundLedger
  import W = Webhooks

  class AccountStore {
    const user: string
    var rows: seq<W.Row>
    var profile: Option<string>
    var profileQuota: int
    var arrearsSince: Option<int>
    var ledger: Ledger
    var log: seq<W.Effect>

    ghost function View(): W.Account
      reads this
    {
      W.Account(user, rows, profile, profileQuota, arrearsSince, ledger, log)
    }

    method FindRow(externalID: string) returns (r: Option<nat>)
      ensures r == W.RowIndex(rows, externalID)
    {
      for i := 0 to |rows|
        invariant forall k :: 0 <= k < i ==> rows[k].sub.externalID != externalID
      {
        if rows[i].sub.externalID == externalID {
          FirstRow(rows, externalID, i);
          return Some(i);
        }
      }
      return None;
    }

    /** The subscription loop of revokeRefundedSubscription. */
    method AccessKept(id: string, now: int) returns (kept: bool)
      ensures kept == W.AnyKeepsAccess(rows, arrearsSince, id, now)
    {
      for k := 0 to |rows|
        invariant W.AnyKeepsAccess(rows, arrearsSince, id, now) == W.AnyKeepsAccess(rows[k..], arrearsSince, id, now)
      {
        assert rows[k..][0] == rows[k] && rows[k..][1..] == rows[k + 1..];
        var sub := rows[k].sub;
        if EqualFold(sub.provider, "stripe") && EqualFold(sub.kind, "subscription") && sub.externalID != id {
          var status := Lower(Trim(sub.status));
          var grace := arrearsSince.Some? && now < arrearsSince.value + W.GRACE;
          if status == "past_due" && (arrearsSince.None? || grace) { return true; }
          if status in {"active", "trialing", "canceling"}
             && (rows[k].expiresAt.None? || now < rows[k].expiresAt.value || grace) { return true; }
        }
      }
      kept := false;
    }

    /** revokeRefundedSubscription: mark the row, then drop to Free unless something else keeps access. */
    method RevokeRefundedSubscription(refundedID: string, env: W.Env)
      modifies this
      ensures View() == W.Revoke(old(View()), refundedID, env)
    {
      var id := Trim(refundedID);
      var i := FindRow(id);
      if i.None? { return; }
      rows := rows[i.value := rows[i.value].(sub := rows[i.value].sub.(status := "refunded"))];
      if env.grantActive { return; }
      var kept := AccessKept(id, env.now);
      if kept { return; }
      profile, profileQuota, arrearsSince := Some("FREE"), W.FREE_QUOTA, None;
      log := log + [W.Downgraded];
    }

    /** upsertStripeSubscription; `failed` is its error. */
    method UpsertStripeSubscription(src: W.Source, env: W.Env) returns (failed: bool)
      requires Invoicing(ledger)
      modifies this
      ensures View() == W.Upsert(old(View()), src, env)
      ensures failed <==> W.UpsertFails(old(View()), src, env)
    {
      failed := false;
      var refunded := W.EvaluateGuard(ledger, src);
      if refunded {
        if src.userID == user { RevokeRefundedSubscription(src.id, env); }
        return;
      }
      if Trim(src.userID) != user { return; }
      if src.status == "active" {
        if src.pendingUpdate || Trim(src.latestInvoice) == "" { return; }
        if env.invoice.None? { return true; }
        if env.invoice.value.status != "paid" || env.invoice.value.subscription != src.id { return; }
        if src.scheduled && !env.invoice.value.matchesPhase { return true; }
      }
      var row := W.NewRow(src);
      var i := FindRow(row.sub.externalID);
      rows := if i.Some? then rows[i.value := row.(sub := row.sub.(id := rows[i.value].sub.id))] else rows + [row];
    }

    /** applyPlanEntitlements with the quota change of the branch. */
    method ApplyPlan(src: W.Source, plan: W.Plan, grants: bool, clears: bool)
      modifies this
      ensures View() == W.Grant(old(View()), src, plan, grants, clears)
    {
      profile, profileQuota := Some(plan.id), plan.quota;
      if clears { arrearsSince := None; }
      log := log + [W.PlanApplied(Trim(src.id), plan.id)] + if grants then [W.QuotaGranted(Trim(src.id))] else [];
    }

    /** The part of syncSubscriptionEntitlements that changes plan and quota. */
    method ApplySync(src: W.Source, created: bool, env: W.Env)
      requires env.invoice.Some? && src.plan.Some?
      modifies this
      ensures View() == W.ApplySync(old(View()), src, created, env)
    {
      var plan := src.plan.value;
      var activation := env.invoice.value.billingReason == "subscription_create" && profile == Some("FREE");
      var upgraded := profile.Some? && plan.quota > profileQuota;
      if (activation || (!created && upgraded)) && !env.quotaAccepted { return; }
      ApplyPlan(src, plan, activation || created || upgraded, activation || created);
      if !EqualFold(Trim(plan.kind), "trial") { rows := W.Supersede(rows); }
    }

    /** syncSubscriptionEntitlements. */
    method SyncSubscriptionEntitlements(src: W.Source, created: bool, env: W.Env)
      requires Invoicing(ledger)
      modifies this
      ensures View() == W.Sync(old(View()), src, created, env)
    {
      var refunded := W.EvaluateGuard(ledger, src);
      if refunded {
        if src.userID == user { RevokeRefundedSubscription(src.id, env); }
        return;
      }
      if Trim(src.userID) != user { return; }
      if Lower(Trim(src.status)) != "active" && Lower(Trim(src.status)) != "trialing" { return; }
      if src.pendingUpdate || Trim(src.latestInvoice) == "" || env.invoice.None? { return; }
      if env.invoice.value.status != "paid" || env.invoice.value.subscription != src.id { return; }
      if src.scheduled && !env.invoice.value.matchesPhase { return; }
      if src.plan.None? { return; }
      ApplySync(src, created, env);
    }

    /** The two ledger writes of recordStripePaidInvoice, each kept once it is made. */
    method WriteFacts(bill: W.Bill) returns (failed: bool)
      modifies this`ledger
      ensures (ledger, !failed) == W.RecordFacts(old(ledger), bill)
    {
      var (invoiced, o1) := AddInvoice(ledger, bill.invoice.(provider := "stripe"));
      if o1 != Stored && o1 != Replayed { return true; }
      ledger := invoiced;
      if bill.invoice.amount == 0 { return false; }
      if bill.payment.None? { return true; }
      var (paid, o2) := AddPayment(ledger, bill.payment.value.(provider := "stripe"));
      if o2 != Stored && o2 != Replayed { return true; }
      ledger := paid;
      return false;
    }

    /** recordStripePaidInvoice. */
    method RecordStripePaidInvoice(src: W.Source, bill: W.Bill) returns (failed: bool)
      modifies this`ledger
      ensures (ledger, !failed) == W.RecordPaid(rows, old(ledger), src, bill)
    {
      if Trim(bill.id) == "" || bill.outOfBand { return false; }
      if bill.paidAt <= 0 || Trim(bill.subscription) != Trim(src.id) { return true; }
      var found := false;
      for i := 0 to |rows|
        invariant found <==> exists k :: 0 <= k < i && W.IsLocal(rows[k], src.id)
      {
        if W.IsLocal(rows[i], src.id) {
          found := true;
          break;
        }
      }
      if !found { return true; }
      failed := WriteFacts(bill);
    }

    /** The last part of invoice.paid: look at the guard again, then apply the plan. */
    method SettleInvoice(src: W.Source, bill: W.Bill, env: W.Env)
      requires Invoicing(ledger)
      modifies this
      ensures View() == W.Settle(old(View()), src, bill, env)
    {
      var refunded := W.EvaluateGuard(ledger, src);
      if refunded {
        if src.userID == user { RevokeRefundedSubscription(src.id, env); }
        return;
      }
      if src.pendingUpdate || Trim(src.latestInvoice) != bill.id || src.plan.None? { return; }
      var plan := src.plan.value;
      var activation := bill.billingReason == "subscription_create" && profile == Some("FREE");
      var upgraded := profile.Some? && plan.quota > profileQuota;
      if (activation || upgraded) && !env.quotaAccepted { return; }
      ApplyPlan(src, plan, true, activation || !upgraded);
    }

    /** The invoice.paid branch of handleStripeEvent. */
    method HandlePaidInvoice(src: W.Source, bill: Option<W.Bill>, env: W.Env)
      requires Invoicing(ledger)
      modifies this
      ensures View() == W.PaidInvoice(old(View()), src, bill, env)
    {
      var failed := UpsertStripeSubscription(src, env);
      UpsertLedger(old(View()), src, env);
      if failed || Trim(src.userID) != user || bill.None? { return; }
      RecordKeepsInvoicing(rows, ledger, src, bill.value);
      failed := RecordStripePaidInvoice(src, bill.value);
      if !failed { SettleInvoice(src, bill.value, env); }
    }
  }

  lemma {:induction false} FirstRow(rows: seq<W.Row>, externalID: string, i: nat)
    requires i < |rows| && rows[i].sub.externalID == externalID && forall k :: 0 <= k < i ==> rows[k].sub.externalID != externalID
    ensures W.RowIndex(rows, externalID) == Some(i)
  {
    if i > 0 {
      assert forall k :: 0 <= k < i - 1 ==> rows[1..][k] == rows[k + 1];
      FirstRow(rows[1..], externalID, i - 1);
    }
  }

  lemma UpsertLedger(a: W.Account, src: W.Source, env: W.Env)
    ensures W.Upsert(a, src, env).ledger == a.ledger && W.Upsert(a, src, env).user == a.user
  {
  }

  /** Every payment still has its invoice once a bill is recorded. */
  lemma RecordKeepsInvoicing(rows: seq<W.Row>, l: Ledger, src: W.Source, bill: W.Bill)
    requires Invoicing(l)
    ensures Invoicing(W.RecordPaid(rows, l, src, bill).0)
  {
    var invoice := bill.invoice.(provider := "stripe");
    forall i | 0 <= i < |l.payments| ensures FindInvoice(l.invoices + [invoice], l.payments[i].invoiceID).Some? {
      FindInvoiceStable(l.invoices, invoice, l.payments[i].invoiceID);
    }
  }
}
