/**
 The Stripe webhook state machine of one account (handleStripeEvent,
 upsertStripeSubscription, syncSubscriptionEntitlements in api/stripe.go;
 reconcileRefundedLatestInvoice in api/stripe_finance.go;
 revokeRefundedSubscription in api/entitlements.go).

 Payments and refunds are the append-only ledger; subscription rows, the applied
 plan and the quota grants are projections.  `log` records every plan application
 and quota grant together with the subscription that caused it.
 */
module Webhooks {
  import opened Finance
  import opened Text
  import opened RefundLedger
  import opened RefundSettlement

  const GRACE := 14 * 24 * 3600

  datatype Row = Row(sub: Subscription, expiresAt: Option<int>)

  datatype Effect = PlanApplied(subscription: string, plan: string) | QuotaGranted(subscription: string) | Downgraded

  datatype Account = Account(
    user: string, rows: seq<Row>, profile: Option<string>, profileQuota: int,
    arrearsSince: Option<int>, ledger: Ledger, log: seq<Effect>)

  datatype Plan = Plan(id: string, kind: string, quota: int)

  /** A Stripe subscription object; `plan` is what its price or metadata resolves to. */
  datatype Source = Source(
    id: string, userID: string, latestInvoice: string, status: string, pendingUpdate: bool,
    cancelAtPeriodEnd: bool, scheduled: bool, kind: string, plan: Option<Plan>, expiresAt: Option<int>)

  datatype InvoiceView = InvoiceView(status: string, subscription: string, billingReason: string, matchesPhase: bool)

  /** Clock, manual-grant state, the answer to fetching the latest invoice (None when the
      call fails), and whether the store takes the quota change of an activation or upgrade. */
  datatype Env = Env(now: int, grantActive: bool, invoice: Option<InvoiceView>, quotaAccepted: bool)

  /** The settled invoice of an invoice.paid event, with the rows it is to be stored as;
      `payment` is None when it names no payment intent. */
  datatype Bill = Bill(
    id: string, subscription: string, outOfBand: bool, paidAt: int, billingReason: string,
    invoice: Invoice, payment: Option<Payment>)

  // ----- the refunded-invoice guard -------------------------------------------------

  /** A positive Stripe payment of `user` for the provider invoice `inv`. */
  predicate ForInvoice(l: Ledger, user: string, inv: string, p: Payment) {
    && p.account == user && p.provider == "stripe" && p.amount > 0
    && FindInvoice(l.invoices, p.invoiceID).Some?
    && FindInvoice(l.invoices, p.invoiceID).value.account == user
    && FindInvoice(l.invoices, p.invoiceID).value.providerInvoiceID == inv
  }

  /** The invoice was paid and every such payment has been refunded in full. */
  predicate RefundedInvoice(l: Ledger, user: string, inv: string) {
    && (exists i :: 0 <= i < |l.payments| && ForInvoice(l, user, inv, l.payments[i]))
    && (forall i :: 0 <= i < |l.payments| && ForInvoice(l, user, inv, l.payments[i]) ==>
                      Refunded(l.refunds, l.payments[i].id) == l.payments[i].amount)
  }

  /** The guard uses the metadata as it stands: an id with surrounding blanks matches nothing. */
  predicate Guard(l: Ledger, src: Source) {
    src.userID != "" && Trim(src.latestInvoice) != "" && RefundedInvoice(l, src.userID, Trim(src.latestInvoice))
  }

  method PlainTotal(refunds: seq<RefundFact>, paymentID: string) returns (total: int)
    ensures total == Refunded(refunds, paymentID)
  {
    total := 0;
    for j := 0 to |refunds|
      invariant total == Refunded(refunds[..j], paymentID)
    {
      RefundedSnoc(refunds, j, paymentID);
      if refunds[j].paymentID == paymentID { total := total + refunds[j].amount; }
    }
    assert refunds[..|refunds|] == refunds;
  }

  /** reconcileRefundedLatestInvoice's loop. */
  method EvaluateGuard(l: Ledger, src: Source) returns (refunded: bool)
    requires Invoicing(l)
    ensures refunded <==> Guard(l, src)
  {
    var inv := Trim(src.latestInvoice);
    if src.userID == "" || inv == "" { return false; }
    var count := 0;
    for i := 0 to |l.payments|
      invariant count >= 0
      invariant count > 0 <==> exists k :: 0 <= k < i && ForInvoice(l, src.userID, inv, l.payments[k])
      invariant forall k :: 0 <= k < i && ForInvoice(l, src.userID, inv, l.payments[k]) ==>
                              Refunded(l.refunds, l.payments[k].id) == l.payments[k].amount
    {
      var p := l.payments[i];
      if p.account != src.userID || p.provider != "stripe" { continue; }
      var invoice := FindInvoice(l.invoices, p.invoiceID).value;
      if invoice.account != src.userID || invoice.providerInvoiceID != inv || p.amount <= 0 { continue; }
      count := count + 1;
      var total := PlainTotal(l.refunds, p.id);
      if total != p.amount { return false; }
    }
    return count > 0;
  }

  // ----- rows ---------------------------------------------------------------------

  function RowIndex(rows: seq<Row>, externalID: string): (r: Option<nat>)
    ensures r.Some? ==> r.value < |rows| && rows[r.value].sub.externalID == externalID
    ensures r.None? ==> forall i :: 0 <= i < |rows| ==> rows[i].sub.externalID != externalID
  {
    if rows == [] then None
    else if rows[0].sub.externalID == externalID then Some(0)
    else var rest := RowIndex(rows[1..], externalID); if rest.Some? then Some(1 + rest.value) else None
  }

  /** The Stripe row with this local id. */
  function RowOf(rows: seq<Row>, id: string): (r: Option<nat>)
    ensures r.Some? ==> r.value < |rows| && rows[r.value].sub.id == id
  {
    if id == "" || rows == [] then None
    else if rows[0].sub.id == id && rows[0].sub.provider == "stripe" then Some(0)
    else var rest := RowOf(rows[1..], id); if rest.Some? then Some(1 + rest.value) else None
  }

  /** UpsertSubscription: one row per external id. */
  function PutRow(rows: seq<Row>, row: Row): seq<Row> {
    var i := RowIndex(rows, row.sub.externalID);
    if i.Some? then rows[i.value := row.(sub := row.sub.(id := rows[i.value].sub.id))] else rows + [row]
  }

  function Status(a: Account, externalID: string): Option<string> {
    var i := RowIndex(a.rows, externalID);
    if i.Some? then Some(a.rows[i.value].sub.status) else None
  }

  // ----- revocation ------------------------------------------------------------------

  /** Another Stripe subscription that keeps paid access alive. */
  predicate KeepsAccess(arrearsSince: Option<int>, row: Row, refundedID: string, now: int) {
    && EqualFold(row.sub.provider, "stripe") && EqualFold(row.sub.kind, "subscription") && row.sub.externalID != refundedID
    && var status := Lower(Trim(row.sub.status));
       var grace := arrearsSince.Some? && now < arrearsSince.value + GRACE;
    || (status == "past_due" && (arrearsSince.None? || grace))
    || (status in {"active", "trialing", "canceling"} && (row.expiresAt.None? || now < row.expiresAt.value || grace))
  }

  predicate AnyKeepsAccess(rows: seq<Row>, arrearsSince: Option<int>, refundedID: string, now: int) {
    rows != [] && (KeepsAccess(arrearsSince, rows[0], refundedID, now) || AnyKeepsAccess(rows[1..], arrearsSince, refundedID, now))
  }

  function Downgrade(a: Account): Account {
    a.(profile := Some("FREE"), profileQuota := FREE_QUOTA, arrearsSince := None, log := a.log + [Downgraded])
  }

  const FREE_QUOTA := 5 * 1024 * 1024 * 1024

  function MarkRefunded(a: Account, i: nat): Account
    requires i < |a.rows|
  {
    a.(rows := a.rows[i := a.rows[i].(sub := a.rows[i].sub.(status := "refunded"))])
  }

  function Revoke(a: Account, refundedID: string, env: Env): Account {
    var i := RowIndex(a.rows, Trim(refundedID));
    if i.None? then a
    else
      var marked := MarkRefunded(a, i.value);
      if env.grantActive || AnyKeepsAccess(marked.rows, a.arrearsSince, Trim(refundedID), env.now)
      then marked else Downgrade(marked)
  }

  // ----- projections -----------------------------------------------------------------

  function NormalStatus(src: Source): string {
    var status := if Trim(src.status) == "" then "active" else Trim(src.status);
    var spelled := if EqualFold(status, "canceled") then "cancelled" else status;
    if src.cancelAtPeriodEnd && spelled != "cancelled" then "canceling" else spelled
  }

  function NewRow(src: Source): Row {
    Row(Subscription("", Trim(src.id), "stripe", if Trim(src.kind) == "" then "subscription" else Trim(src.kind),
                     if src.plan.Some? then src.plan.value.id else "", NormalStatus(src)), src.expiresAt)
  }

  /** The latest invoice proves payment of the object as it now stands. */
  predicate PaidNow(src: Source, env: Env) {
    && !src.pendingUpdate && Trim(src.latestInvoice) != "" && env.invoice.Some?
    && env.invoice.value.status == "paid" && env.invoice.value.subscription == src.id
    && (src.scheduled ==> env.invoice.value.matchesPhase)
  }

  /** The upsert ends in an error: the invoice of an active object cannot be fetched, or is
      paid but belongs to another phase of the schedule. */
  predicate UpsertFails(a: Account, src: Source, env: Env) {
    && !Guard(a.ledger, src) && Trim(src.userID) == a.user && src.status == "active"
    && !src.pendingUpdate && Trim(src.latestInvoice) != ""
    && (env.invoice.None?
        || (env.invoice.value.status == "paid" && env.invoice.value.subscription == src.id
            && src.scheduled && !env.invoice.value.matchesPhase))
  }

  /** The upsert stores the source's row. */
  predicate UpsertWrites(a: Account, src: Source, env: Env) {
    !Guard(a.ledger, src) && Trim(src.userID) == a.user && (src.status == "active" ==> PaidNow(src, env))
  }

  function Upsert(a: Account, src: Source, env: Env): Account {
    if Guard(a.ledger, src) then (if src.userID == a.user then Revoke(a, src.id, env) else a)
    else if Trim(src.userID) != a.user then a
    else if src.status == "active" && !PaidNow(src, env) then a
    else a.(rows := PutRow(a.rows, NewRow(src)))
  }

  predicate Activation(a: Account, billingReason: string) {
    billingReason == "subscription_create" && a.profile == Some("FREE")
  }

  predicate Upgraded(a: Account, plan: Plan) {
    a.profile.Some? && plan.quota > a.profileQuota
  }

  /** applyPlanEntitlements plus the quota change the branch makes; `clears` when that
      change also ends an episode of arrears. */
  function Grant(a: Account, src: Source, plan: Plan, grants: bool, clears: bool): Account {
    a.(profile := Some(plan.id), profileQuota := plan.quota, arrearsSince := if clears then None else a.arrearsSince,
       log := a.log + [PlanApplied(Trim(src.id), plan.id)] + if grants then [QuotaGranted(Trim(src.id))] else [])
  }

  function Supersede(rows: seq<Row>): seq<Row> {
    seq(|rows|, i requires 0 <= i < |rows| =>
      if EqualFold(Trim(rows[i].sub.kind), "trial") && EqualFold(Trim(rows[i].sub.status), "active")
      then rows[i].(sub := rows[i].sub.(status := "superseded")) else rows[i])
  }

  /** The store refuses the quota change that has to precede the plan. */
  predicate SyncBlocked(a: Account, src: Source, created: bool, env: Env)
    requires env.invoice.Some? && src.plan.Some?
  {
    !env.quotaAccepted && (Activation(a, env.invoice.value.billingReason) || (!created && Upgraded(a, src.plan.value)))
  }

  /** A sync has something to apply: the object is active, paid and has a plan. */
  predicate SyncDue(src: Source, env: Env) {
    Lower(Trim(src.status)) in {"active", "trialing"} && PaidNow(src, env) && src.plan.Some?
  }

  function ApplySync(a: Account, src: Source, created: bool, env: Env): Account
    requires env.invoice.Some? && src.plan.Some?
  {
    if SyncBlocked(a, src, created, env) then a
    else
      var plan := src.plan.value;
      var activation := Activation(a, env.invoice.value.billingReason);
      var granted := Grant(a, src, plan, activation || created || Upgraded(a, plan), activation || created);
      if EqualFold(Trim(plan.kind), "trial") then granted else granted.(rows := Supersede(granted.rows))
  }

  function Sync(a: Account, src: Source, created: bool, env: Env): Account {
    if Guard(a.ledger, src) then (if src.userID == a.user then Revoke(a, src.id, env) else a)
    else if Trim(src.userID) != a.user || !SyncDue(src, env) then a
    else ApplySync(a, src, created, env)
  }

  // ----- events --------------------------------------------------------------------

  datatype Event =
    | CheckoutSubscription(src: Source, env: Env)
    | CheckoutPayment(row: Row)
    | SubscriptionChanged(src: Source, created: bool, env: Env)
    | SubscriptionDeleted(src: Source, lapsed: bool, env: Env)
    | InvoicePaid(src: Source, bill: Option<Bill>, env: Env) // None: not paid, or re-reading it failed
    | InvoiceFailed(src: Source, env: Env)
    | ChargeRefunded(src: Source, env: Env)
    | RefundReported(fact: RefundFact, env: Env)
    | RefundOperation(step: Step)

  /** The local row recordStripePaidInvoice looks for; it compares the object's id as it stands. */
  predicate IsLocal(row: Row, id: string) {
    EqualFold(row.sub.provider, "stripe") && row.sub.externalID == id
  }

  predicate HasLocal(rows: seq<Row>, id: string) {
    exists i :: 0 <= i < |rows| && IsLocal(rows[i], id)
  }

  /** A settled invoice that leaves no payment facts. */
  predicate Unrecorded(bill: Bill) {
    Trim(bill.id) == "" || bill.outOfBand
  }

  /** The two ledger writes; an error after the first leaves the invoice behind. */
  function RecordFacts(l: Ledger, bill: Bill): (Ledger, bool) {
    var (l1, o1) := AddInvoice(l, bill.invoice.(provider := "stripe"));
    if o1 != Stored && o1 != Replayed then (l, false)
    else if bill.invoice.amount == 0 then (l1, true)
    else if bill.payment.None? then (l1, false)
    else var (l2, o2) := AddPayment(l1, bill.payment.value.(provider := "stripe"));
         if o2 != Stored && o2 != Replayed then (l1, false) else (l2, true)
  }

  /** recordStripePaidInvoice: the ledger it leaves, and whether it ends without an error. */
  function RecordPaid(rows: seq<Row>, l: Ledger, src: Source, bill: Bill): (Ledger, bool) {
    if Unrecorded(bill) then (l, true)
    else if bill.paidAt <= 0 || Trim(bill.subscription) != Trim(src.id) || !HasLocal(rows, src.id) then (l, false)
    else RecordFacts(l, bill)
  }

  /** The store refuses the quota change of a paid invoice. */
  predicate BillBlocked(a: Account, src: Source, bill: Bill, env: Env)
    requires src.plan.Some?
  {
    !env.quotaAccepted && (Activation(a, bill.billingReason) || Upgraded(a, src.plan.value))
  }

  /** A recorded invoice has something to apply: it is the latest and there is a plan. */
  predicate BillDue(src: Source, bill: Bill) {
    !src.pendingUpdate && Trim(src.latestInvoice) == bill.id && src.plan.Some?
  }

  function ApplyBill(c: Account, src: Source, bill: Bill, env: Env): Account
    requires src.plan.Some?
  {
    if BillBlocked(c, src, bill, env) then c
    else Grant(c, src, src.plan.value, true, Activation(c, bill.billingReason) || !Upgraded(c, src.plan.value))
  }

  /** What follows once the invoice is recorded. */
  function Settle(c: Account, src: Source, bill: Bill, env: Env): Account {
    if Guard(c.ledger, src) then (if src.userID == c.user then Revoke(c, src.id, env) else c)
    else if BillDue(src, bill) then ApplyBill(c, src, bill, env) else c
  }

  function PaidInvoice(a: Account, src: Source, bill: Option<Bill>, env: Env): Account {
    var b := Upsert(a, src, env);
    if UpsertFails(a, src, env) || Trim(src.userID) != a.user || bill.None? then b
    else
      var (l, recorded) := RecordPaid(b.rows, b.ledger, src, bill.value);
      var c := b.(ledger := l);
      if recorded then Settle(c, src, bill.value, env) else c
  }

  /** recordStripeRefund for a refund without an operation key. */
  function ReportedRefund(a: Account, fact: RefundFact, env: Env): Account {
    var (l, o) := AddRefund(a.ledger, fact);
    var b := a.(ledger := l);
    if (o != Stored && o != Replayed) || !HasPayment(l.payments, fact.paymentID) then b
    else
      var p := PaymentByID(l.payments, fact.paymentID);
      var invoice := FindInvoice(l.invoices, p.invoiceID);
      if Refunded(l.refunds, p.id) != p.amount || invoice.None? || p.account != a.user then b
      else
        var k := RowOf(a.rows, invoice.value.subscription);
        if k.Some? && Settled(l.invoices, l.payments, l.refunds, a.user, invoice.value.subscription)
        then Revoke(b, a.rows[k.value].sub.externalID, env) else b
  }

  /** customer.subscription.deleted; `lapsed` is the answer of the access reconciliation. */
  function Deleted(a: Account, src: Source, lapsed: bool, env: Env): Account {
    var b := Upsert(a, src, env);
    if lapsed && Trim(src.userID) == a.user && !UpsertFails(a, src, env) then Downgrade(b) else b
  }

  /** invoice.payment_failed. */
  function Missed(a: Account, src: Source, env: Env): Account {
    var b := Upsert(a, src, env);
    if Trim(src.userID) == a.user && b.arrearsSince.None? && !UpsertFails(a, src, env) then b.(arrearsSince := Some(env.now)) else b
  }

  /** charge.refunded, for a charge that is refunded in full. */
  function Charged(a: Account, src: Source, env: Env): Account {
    if Trim(src.userID) != a.user then a
    else Revoke(Upsert(a, src.(status := "refunded"), env), src.id, env)
  }

  /** handleStripeEvent. An error of the upsert ends the event; where a sync follows it needs
      no case of its own (FailedUpsertStopsSync). */
  function Handle(a: Account, e: Event): Account {
    match e
    case CheckoutSubscription(src, env) => Sync(Upsert(a, src, env), src, true, env)
    case CheckoutPayment(row) => a.(rows := PutRow(a.rows, row))
    case SubscriptionChanged(src, created, env) => Sync(Upsert(a, src, env), src, created, env)
    case SubscriptionDeleted(src, lapsed, env) => Deleted(a, src, lapsed, env)
    case InvoicePaid(src, bill, env) => PaidInvoice(a, src, bill, env)
    case InvoiceFailed(src, env) => Missed(a, src, env)
    case ChargeRefunded(src, env) => Charged(a, src, env)
    case RefundReported(fact, env) => ReportedRefund(a, fact, env)
    case RefundOperation(step) => if step.Begun? || step.Finished? || step.RefundSettled? then a.(ledger := Apply(a.ledger, step)) else a
  }

  lemma DeletedIsHandled(a: Account, src: Source, lapsed: bool, env: Env)
    ensures Handle(a, SubscriptionDeleted(src, lapsed, env)) == Deleted(a, src, lapsed, env)
  {
  }

  lemma MissedIsHandled(a: Account, src: Source, env: Env)
    ensures Handle(a, InvoiceFailed(src, env)) == Missed(a, src, env)
  {
  }

  lemma ChargedIsHandled(a: Account, src: Source, env: Env)
    ensures Handle(a, ChargeRefunded(src, env)) == Charged(a, src, env)
  {
  }

  lemma ChangedIsHandled(a: Account, src: Source, created: bool, env: Env)
    ensures Handle(a, SubscriptionChanged(src, created, env)) == Sync(Upsert(a, src, env), src, created, env)
  {
  }

  lemma PaidIsHandled(a: Account, src: Source, bill: Option<Bill>, env: Env)
    ensures Handle(a, InvoicePaid(src, bill, env)) == PaidInvoice(a, src, bill, env)
  {
  }

  lemma ReportedIsHandled(a: Account, fact: RefundFact, env: Env)
    ensures Handle(a, RefundReported(fact, env)) == ReportedRefund(a, fact, env)
  {
  }

  lemma FailedUpsertStopsSync(a: Account, src: Source, created: bool, env: Env)
    requires UpsertFails(a, src, env)
    ensures Sync(Upsert(a, src, env), src, created, env) == a
  {
  }

  function HandleAll(a: Account, events: seq<Event>): Account
    decreases |events|
  {
    if events == [] then a else HandleAll(Handle(a, events[0]), events[1..])
  }

  // ----- the guard is stable ----------------------------------------------------------

  /** At most one invoice carries this provider id, and it came from Stripe. */
  ghost predicate InvoiceOnce(l: Ledger, inv: string) {
    && (forall i :: 0 <= i < |l.invoices| && l.invoices[i].providerInvoiceID == inv ==> l.invoices[i].provider == "stripe")
    && (forall i, j :: 0 <= i < j < |l.invoices| ==> !(l.invoices[i].providerInvoiceID == inv && l.invoices[j].providerInvoiceID == inv))
  }

  predicate FromStripe(step: Step) {
    step.Invoiced? ==> step.invoice.provider == "stripe"
  }

  lemma FindInvoiceGrows(l: Ledger, step: Step, id: string)
    requires FindInvoice(l.invoices, id).Some?
    ensures FindInvoice(Apply(l, step).invoices, id) == FindInvoice(l.invoices, id)
  {
    if step.Invoiced? && Apply(l, step).invoices != l.invoices {
      FindInvoiceStable(l.invoices, step.invoice, id);
    }
  }

  lemma SameInvoice(l: Ledger, user: string, inv: string, p: Payment, q: Payment)
    requires InvoiceOnce(l, inv) && ForInvoice(l, user, inv, p) && ForInvoice(l, user, inv, q)
    ensures p.invoiceID == q.invoiceID
  {
    var a, b := FindInvoice(l.invoices, p.invoiceID).value, FindInvoice(l.invoices, q.invoiceID).value;
    var x :| 0 <= x < |l.invoices| && l.invoices[x] == a;
    var y :| 0 <= y < |l.invoices| && l.invoices[y] == b;
    assert x == y;
  }

  /** No new payment can appear for an invoice that already has one. */
  lemma NoSecondPayment(l: Ledger, user: string, inv: string, p: Payment)
    requires InvoiceOnce(l, inv) && RefundedInvoice(l, user, inv) && AddPayment(l, p).1 == Stored
    ensures !ForInvoice(l, user, inv, p)
  {
    var i :| 0 <= i < |l.payments| && ForInvoice(l, user, inv, l.payments[i]);
    if ForInvoice(l, user, inv, p) {
      SameInvoice(l, user, inv, p, l.payments[i]);
    }
  }

  /** An existing payment of the invoice stays one and stays fully refunded. */
  lemma OldPaymentStays(l: Ledger, user: string, inv: string, step: Step, i: nat)
    requires Inv(l) && i < |l.payments|
    ensures var t := Apply(l, step);
            && l.payments <= t.payments
            && (ForInvoice(t, user, inv, l.payments[i]) <==> ForInvoice(l, user, inv, l.payments[i]))
            && (Refunded(l.refunds, l.payments[i].id) == l.payments[i].amount ==> Refunded(t.refunds, l.payments[i].id) == l.payments[i].amount)
  {
    StepOnlyAppends(l, step);
    FindInvoiceGrows(l, step, l.payments[i].invoiceID);
    if Refunded(l.refunds, l.payments[i].id) == l.payments[i].amount {
      assert Run(l, [step]) == Apply(l, step) by { assert [step][1..] == []; }
      FullRefundIsFinal(l, i, [step]);
    }
  }

  lemma NewPaymentIsForeign(l: Ledger, user: string, inv: string, step: Step, i: nat)
    requires InvoiceOnce(l, inv) && RefundedInvoice(l, user, inv)
    requires |l.payments| <= i < |Apply(l, step).payments|
    ensures !ForInvoice(Apply(l, step), user, inv, Apply(l, step).payments[i])
  {
    assert step.Paid? && Apply(l, step).payments[i] == step.payment;
    NoSecondPayment(l, user, inv, step.payment);
  }

  /** A ledger step neither un-refunds the invoice nor adds an unrefunded payment for it. */
  lemma StepKeepsRefunded(l: Ledger, user: string, inv: string, step: Step)
    requires Inv(l) && InvoiceOnce(l, inv) && RefundedInvoice(l, user, inv)
    ensures RefundedInvoice(Apply(l, step), user, inv)
  {
    var t := Apply(l, step);
    var w :| 0 <= w < |l.payments| && ForInvoice(l, user, inv, l.payments[w]);
    OldPaymentStays(l, user, inv, step, w);
    assert ForInvoice(t, user, inv, t.payments[w]);
    forall i | 0 <= i < |t.payments| && ForInvoice(t, user, inv, t.payments[i])
      ensures Refunded(t.refunds, t.payments[i].id) == t.payments[i].amount
    {
      if i < |l.payments| {
        OldPaymentStays(l, user, inv, step, i);
      } else {
        NewPaymentIsForeign(l, user, inv, step, i);
      }
    }
  }

  lemma StepKeepsInvoiceOnce(l: Ledger, inv: string, step: Step)
    requires InvoiceOnce(l, inv) && inv != "" && FromStripe(step)
    ensures InvoiceOnce(Apply(l, step), inv)
  {
  }

  lemma StepKeepsLedger(l: Ledger, step: Step)
    requires Inv(l)
    ensures Inv(Apply(l, step))
  {
    RunKeepsInv(l, [step]);
    assert [step][1..] == [];
    assert Run(l, [step]) == Apply(l, step);
  }

  /** The ledger side of "this invoice is refunded", closed under everything webhooks do. */
  ghost predicate Sealed(l: Ledger, user: string, inv: string) {
    Inv(l) && inv != "" && InvoiceOnce(l, inv) && RefundedInvoice(l, user, inv)
  }

  lemma StepKeepsSeal(l: Ledger, user: string, inv: string, step: Step)
    requires Sealed(l, user, inv) && FromStripe(step)
    ensures Sealed(Apply(l, step), user, inv)
  {
    StepKeepsLedger(l, step);
    StepKeepsInvoiceOnce(l, inv, step);
    StepKeepsRefunded(l, user, inv, step);
  }

  lemma FactsAreSteps(l: Ledger, bill: Bill)
    ensures var invoiced := Apply(l, Invoiced(bill.invoice.(provider := "stripe")));
            var r := RecordFacts(l, bill).0;
            r == l || r == invoiced || (bill.payment.Some? && r == Apply(invoiced, Paid(bill.payment.value.(provider := "stripe"))))
  {
  }

  /** Recording a paid invoice, whether or not it succeeds, keeps the refunded one refunded. */
  lemma RecordPaidKeepsSeal(rows: seq<Row>, l: Ledger, user: string, inv: string, src: Source, bill: Bill)
    requires Sealed(l, user, inv)
    ensures Sealed(RecordPaid(rows, l, src, bill).0, user, inv)
  {
    FactsAreSteps(l, bill);
    SealAfterFacts(l, user, inv, bill.invoice, bill.payment);
  }

  lemma SealAfterFacts(l: Ledger, user: string, inv: string, invoice: Invoice, payment: Option<Payment>)
    requires Sealed(l, user, inv)
    ensures var invoiced := Apply(l, Invoiced(invoice.(provider := "stripe")));
            && Sealed(invoiced, user, inv)
            && (payment.Some? ==> Sealed(Apply(invoiced, Paid(payment.value.(provider := "stripe"))), user, inv))
  {
    var step := Invoiced(invoice.(provider := "stripe"));
    StepKeepsSeal(l, user, inv, step);
    if payment.Some? { StepKeepsSeal(Apply(l, step), user, inv, Paid(payment.value.(provider := "stripe"))); }
  }
}
