/**
 What one webhook handler does to an account, in terms of the Stripe object, the
 answer to fetching its invoice and the stored rows (api/stripe.go,
 reconcileRefundedLatestInvoice in api/stripe_finance.go). The predicates the
 handlers are composed of do not appear here.
 */
module WebhookRules {
  import opened Finance
  import opened Text
  import opened RefundLedger
  import opened Webhooks
  import opened RefundedAccess

  // ----- the refund guard -----------------------------------------------------------------------

  /** A Stripe payment of `user` above zero for a stored invoice of theirs with this provider id. */
  ghost predicate PaidFor(l: Ledger, user: string, inv: string, k: int) {
    && 0 <= k < |l.payments|
    && var p := l.payments[k];
    && p.account == user && p.provider == "stripe" && p.amount > 0
    && var found := FindInvoice(l.invoices, p.invoiceID);
    && found.Some? && found.value.account == user && found.value.providerInvoiceID == inv
  }

  /** The owner named by the object paid for its latest invoice, and got all of it back. */
  ghost predicate PaidBack(l: Ledger, src: Source) {
    var user, inv := src.userID, Trim(src.latestInvoice);
    && user != "" && inv != "" && (exists k :: PaidFor(l, user, inv, k))
    && forall k :: PaidFor(l, user, inv, k) ==> Refunded(l.refunds, l.payments[k].id) == l.payments[k].amount
  }

  lemma GuardExactly(l: Ledger, src: Source)
    ensures Guard(l, src) <==> PaidBack(l, src)
  {
    var user, inv := src.userID, Trim(src.latestInvoice);
    assert forall k :: 0 <= k < |l.payments| ==> (ForInvoice(l, user, inv, l.payments[k]) <==> PaidFor(l, user, inv, k));
  }

  // ----- the row ---------------------------------------------------------------------------------

  /** The fetched invoice is paid, belongs to the subscription and, under a schedule, to its phase. */
  ghost predicate Proof(src: Source, env: Env) {
    && env.invoice.Some? && env.invoice.value.status == "paid" && env.invoice.value.subscription == src.id
    && (src.scheduled ==> env.invoice.value.matchesPhase)
  }

  /** An object that is exactly "active" is believed only with no update pending and with proof. */
  ghost predicate Believed(src: Source, env: Env) {
    src.status != "active" || (!src.pendingUpdate && Trim(src.latestInvoice) != "" && Proof(src, env))
  }

  ghost predicate Mine(a: Account, src: Source) {
    Trim(src.userID) == a.user && !PaidBack(a.ledger, src)
  }

  /** The upsert stores the row exactly of an own object that is not refunded and is believed; an
      own refunded one is revoked; any other leaves the account alone. */
  lemma UpsertExactly(a: Account, src: Source, env: Env)
    ensures Upsert(a, src, env) ==
            if PaidBack(a.ledger, src) then (if src.userID == a.user then Revoke(a, src.id, env) else a)
            else if Mine(a, src) && Believed(src, env) then a.(rows := PutRow(a.rows, NewRow(src)))
            else a
  {
    GuardExactly(a.ledger, src);
  }

  /** It fails exactly for an own active object without a pending update whose latest invoice
      cannot be fetched, or is its paid invoice but of another phase of its schedule. */
  lemma UpsertFailsExactly(a: Account, src: Source, env: Env)
    ensures UpsertFails(a, src, env) <==>
            && Mine(a, src) && src.status == "active" && !src.pendingUpdate && Trim(src.latestInvoice) != ""
            && match env.invoice
               case None => true
               case Some(v) => v.status == "paid" && v.subscription == src.id && src.scheduled && !v.matchesPhase
  {
    GuardExactly(a.ledger, src);
  }

  /** The stored row: trimmed id, Stripe, the kind it names or "subscription", its plan. */
  lemma NewRowExactly(src: Source)
    ensures var row := NewRow(src);
            && row.sub.externalID == Trim(src.id) && row.sub.provider == "stripe" && row.sub.id == "" && row.expiresAt == src.expiresAt
            && row.sub.kind != "" && (Trim(src.kind) != "" ==> row.sub.kind == Trim(src.kind)) && (Trim(src.kind) == "" ==> row.sub.kind == "subscription")
            && (src.plan.Some? ==> row.sub.planID == src.plan.value.id) && (src.plan.None? ==> row.sub.planID == "")
            && row.sub.status == NormalStatus(src)
  {
  }

  /** Its status: a cancellation in Stripe's spelling becomes ours, anything else that is to end
      with its period is "canceling", a blank one counts as active. */
  lemma StatusExactly(src: Source)
    ensures Lower(Trim(src.status)) == "canceled" ==> NormalStatus(src) == "cancelled"
    ensures Trim(src.status) == "cancelled" ==> NormalStatus(src) == "cancelled"
    ensures (Lower(Trim(src.status)) != "canceled" && Trim(src.status) != "cancelled") ==>
              NormalStatus(src) == if src.cancelAtPeriodEnd then "canceling" else if Trim(src.status) == "" then "active" else Trim(src.status)
  {
    assert Lower("canceled") == "canceled" && |"active"| != |"canceled"| && |"cancelled"| != |"canceled"|;
  }

  // ----- plan and quota ----------------------------------------------------------------------------

  /** A new paid plan for an account on Free, or one with more than the account has. */
  ghost predicate FirstPaid(a: Account, billingReason: string) {
    a.profile == Some("FREE") && billingReason == "subscription_create"
  }

  ghost predicate Larger(a: Account, plan: Plan) {
    a.profile.Some? && plan.quota > a.profileQuota
  }

  /** The plan of the subscription now applies: profile, logged effects, arrears. */
  ghost predicate Carries(a: Account, b: Account, src: Source, granted: bool, cleared: bool)
    requires src.plan.Some?
  {
    var plan, id := src.plan.value, Trim(src.id);
    && b.profile == Some(plan.id) && b.profileQuota == plan.quota && b.ledger == a.ledger && b.user == a.user
    && b.log == (if granted then a.log + [PlanApplied(id, plan.id), QuotaGranted(id)] else a.log + [PlanApplied(id, plan.id)])
    && b.arrearsSince == if cleared then None else a.arrearsSince
  }

  /** What remains of the rows: running trials give way to a plan that is not one. */
  ghost predicate TrialsGiveWay(before: seq<Row>, after: seq<Row>, plan: Plan) {
    && |after| == |before|
    && forall i :: 0 <= i < |before| ==>
         after[i] == if Lower(Trim(plan.kind)) != "trial" && Lower(Trim(before[i].sub.kind)) == "trial" && Lower(Trim(before[i].sub.status)) == "active"
                     then before[i].(sub := before[i].sub.(status := "superseded")) else before[i]
  }

  /** A sync has a plan to apply. */
  ghost predicate PlanDue(a: Account, src: Source, env: Env) {
    && Mine(a, src) && Lower(Trim(src.status)) in {"active", "trialing"}
    && !src.pendingUpdate && Trim(src.latestInvoice) != "" && Proof(src, env) && src.plan.Some?
  }

  lemma SyncDueExactly(a: Account, src: Source, env: Env)
    requires !PaidBack(a.ledger, src) && Trim(src.userID) == a.user
    ensures SyncDue(src, env) <==> PlanDue(a, src, env)
  {
  }

  lemma ActivationExactly(a: Account, billingReason: string, plan: Plan)
    ensures Activation(a, billingReason) <==> FirstPaid(a, billingReason)
    ensures Upgraded(a, plan) <==> Larger(a, plan)
  {
  }

  lemma GrantCarries(a: Account, src: Source, granted: bool, cleared: bool)
    requires src.plan.Some?
    ensures Carries(a, Grant(a, src, src.plan.value, granted, cleared), src, granted, cleared)
    ensures Grant(a, src, src.plan.value, granted, cleared).rows == a.rows
  {
    var plan, id := src.plan.value, Trim(src.id);
    assert a.log + [PlanApplied(id, plan.id)] + [QuotaGranted(id)] == a.log + [PlanApplied(id, plan.id), QuotaGranted(id)];
    assert a.log + [PlanApplied(id, plan.id)] + [] == a.log + [PlanApplied(id, plan.id)];
  }

  lemma SupersedeExactly(rows: seq<Row>, plan: Plan)
    ensures TrialsGiveWay(rows, if EqualFold(Trim(plan.kind), "trial") then rows else Supersede(rows), plan)
  {
    assert Lower("trial") == "trial" && Lower("active") == "active";
  }

  /** The quota change has to come first and the store refuses it. */
  ghost predicate Refused(a: Account, src: Source, created: bool, env: Env)
    requires env.invoice.Some? && src.plan.Some?
  {
    !env.quotaAccepted && (FirstPaid(a, env.invoice.value.billingReason) || (!created && Larger(a, src.plan.value)))
  }

  lemma ApplySyncExactly(a: Account, src: Source, created: bool, env: Env)
    requires env.invoice.Some? && src.plan.Some?
    ensures var b, first := ApplySync(a, src, created, env), FirstPaid(a, env.invoice.value.billingReason);
            if Refused(a, src, created, env) then b == a
            else Carries(a, b, src, first || created || Larger(a, src.plan.value), first || created) && TrialsGiveWay(a.rows, b.rows, src.plan.value)
  {
    var plan := src.plan.value;
    ActivationExactly(a, env.invoice.value.billingReason, plan);
    var first := Activation(a, env.invoice.value.billingReason);
    GrantCarries(a, src, first || created || Upgraded(a, plan), first || created);
    SupersedeExactly(a.rows, plan);
  }

  /** syncSubscriptionEntitlements: an own, paid, running object with a plan has it applied, with
      the quota granted for a first paid plan, a new subscription or a larger plan, unless the
      store refuses; an own refunded one is revoked; any other leaves the account alone. */
  lemma SyncExactly(a: Account, src: Source, created: bool, env: Env)
    ensures var b := Sync(a, src, created, env);
            && (PaidBack(a.ledger, src) ==> b == if src.userID == a.user then Revoke(a, src.id, env) else a)
            && (!PaidBack(a.ledger, src) && !PlanDue(a, src, env) ==> b == a)
            && (PlanDue(a, src, env) ==>
                  var first := FirstPaid(a, env.invoice.value.billingReason);
                  if Refused(a, src, created, env) then b == a
                  else Carries(a, b, src, first || created || Larger(a, src.plan.value), first || created)
                       && TrialsGiveWay(a.rows, b.rows, src.plan.value))
  {
    GuardExactly(a.ledger, src);
    if !PaidBack(a.ledger, src) && Trim(src.userID) == a.user {
      SyncDueExactly(a, src, env);
      if PlanDue(a, src, env) { ApplySyncExactly(a, src, created, env); }
    }
  }

  // ----- a paid invoice ------------------------------------------------------------------------------

  /** After its recording, a paid invoice that is the latest of an own object with a plan and no
      update pending has the plan applied and the quota granted, unless the store refuses the
      change of a first paid or larger plan; the guard is read once more before. */
  lemma SettleExactly(c: Account, src: Source, bill: Bill, env: Env)
    requires Trim(src.userID) == c.user
    ensures var d := Settle(c, src, bill, env);
            && (PaidBack(c.ledger, src) ==> d == if src.userID == c.user then Revoke(c, src.id, env) else c)
            && (!PaidBack(c.ledger, src) && (src.pendingUpdate || Trim(src.latestInvoice) != bill.id || src.plan.None?) ==> d == c)
            && (!PaidBack(c.ledger, src) && !src.pendingUpdate && Trim(src.latestInvoice) == bill.id && src.plan.Some? ==>
                  var first, larger := FirstPaid(c, bill.billingReason), Larger(c, src.plan.value);
                  if !env.quotaAccepted && (first || larger) then d == c
                  else Carries(c, d, src, true, first || !larger) && d.rows == c.rows)
  {
    GuardExactly(c.ledger, src);
    if src.plan.Some? {
      ActivationExactly(c, bill.billingReason, src.plan.value);
      GrantCarries(c, src, true, Activation(c, bill.billingReason) || !Upgraded(c, src.plan.value));
    }
  }

  /** Recording needs a time of payment, the invoice of this very subscription and a local Stripe
      row of it, and then makes the two ledger writes, the second only for an amount. A blank or
      out-of-band invoice is not recorded and no error. */
  lemma RecordPaidExactly(rows: seq<Row>, l: Ledger, src: Source, bill: Bill)
    ensures var (after, ok) := RecordPaid(rows, l, src, bill);
            if Trim(bill.id) == "" || bill.outOfBand then after == l && ok
            else if bill.paidAt <= 0 || Trim(bill.subscription) != Trim(src.id)
                    || (forall i :: 0 <= i < |rows| ==> Lower(rows[i].sub.provider) != "stripe" || rows[i].sub.externalID != src.id)
            then after == l && !ok
            else (after, ok) == RecordFacts(l, bill)
  {
    assert Lower("stripe") == "stripe";
    assert forall i :: 0 <= i < |rows| ==> (IsLocal(rows[i], src.id) <==> Lower(rows[i].sub.provider) == "stripe" && rows[i].sub.externalID == src.id);
  }

  lemma RecordFactsExactly(l: Ledger, bill: Bill)
    ensures var (after, ok) := RecordFacts(l, bill);
            var invoiced := AddInvoice(l, bill.invoice.(provider := "stripe"));
            if invoiced.1 !in {Stored, Replayed} then after == l && !ok
            else if bill.invoice.amount == 0 then after == invoiced.0 && ok
            else if bill.payment.None? then after == invoiced.0 && !ok
            else var paid := AddPayment(invoiced.0, bill.payment.value.(provider := "stripe"));
                 if paid.1 in {Stored, Replayed} then after == paid.0 && ok else after == invoiced.0 && !ok
  {
  }

  /** invoice.paid in one: the upsert, and unless it failed, the object is another's or the event
      holds no settled invoice, the recording, and unless that failed, the rest. */
  lemma PaidInvoiceExactly(a: Account, src: Source, bill: Option<Bill>, env: Env)
    ensures var b := Upsert(a, src, env);
            PaidInvoice(a, src, bill, env) ==
            if bill.None? || Trim(src.userID) != a.user || UpsertFails(a, src, env) then b
            else var (l, ok) := RecordPaid(b.rows, b.ledger, src, bill.value);
                 if ok then Settle(b.(ledger := l), src, bill.value, env) else b.(ledger := l)
  {
  }

  // ----- the other events --------------------------------------------------------------------------

  /** A failed payment starts an episode of arrears for the owner, unless one is running or the
      upsert failed, and changes nothing else beyond the upsert. */
  lemma MissedExactly(a: Account, src: Source, env: Env)
    ensures var b, c := Upsert(a, src, env), Missed(a, src, env);
            && c == b.(arrearsSince := c.arrearsSince)
            && (c.arrearsSince != b.arrearsSince <==> b.arrearsSince.None? && Trim(src.userID) == a.user && !UpsertFails(a, src, env))
            && (c.arrearsSince != b.arrearsSince ==> c.arrearsSince == Some(env.now))
  {
  }

  /** A deletion drops its owner to Free exactly when the access reconciliation finds that paid
      access has lapsed, unless the upsert failed. */
  lemma DeletedExactly(a: Account, src: Source, lapsed: bool, env: Env)
    ensures var b, c := Upsert(a, src, env), Deleted(a, src, lapsed, env);
            if lapsed && Trim(src.userID) == a.user && !UpsertFails(a, src, env)
            then c.profile == Some("FREE") && c.profileQuota == 5 * 1024 * 1024 * 1024 && c.arrearsSince.None? && c.log == b.log + [Downgraded]
                 && c.rows == b.rows && c.ledger == b.ledger && c.user == b.user
            else c == b
  {
  }

  /** The refund executor's own ledger writes reach the account's ledger and nothing else. */
  lemma OperationExactly(a: Account, step: Step)
    ensures Handle(a, RefundOperation(step)).ledger == if step.Invoiced? || step.Paid? then a.ledger else Apply(a.ledger, step)
    ensures Handle(a, RefundOperation(step)) == a.(ledger := Handle(a, RefundOperation(step)).ledger)
  {
  }
}
