/**
 The append-only refund ledger (internal/store/finance_memory.go): invoices,
 payments, settled refunds, and refund operations that reserve part of a payment.

 The conservation law: what has been refunded from a payment plus what is reserved
 for refunds still under way never exceeds what was paid, in every run.
 */
module RefundLedger {
  import opened Finance
  import opened Text

  const REFUND_EXPIRY := 120

  /** A refund operation as the ledger sees it. */
  datatype RefundOp = RefundOp(
    key: string, paymentID: string, provider: string, amount: int, currency: string,
    providerID: string, status: OpStatus, updatedAt: int)

  datatype Ledger = Ledger(
    invoices: seq<Invoice>, payments: seq<Payment>, refunds: seq<RefundFact>, ops: seq<RefundOp>)

  const EMPTY := Ledger([], [], [], [])

  datatype Outcome = Stored | Replayed | Conflict | NotFound | Exceeds | AlreadyPaid | InFlight | Done

  predicate ValidCurrency(c: string) {
    |c| == 3 && forall i :: 0 <= i < 3 ==> 'A' <= c[i] <= 'Z'
  }

  /** financeOperationReservesRefund. */
  predicate Reserves(op: RefundOp) {
    op.status != Failed
  }

  // ----- sums ----------------------------------------------------------------------

  /** Refunds recorded against a payment. */
  function Refunded(refunds: seq<RefundFact>, paymentID: string): int {
    if refunds == [] then 0
    else Refunded(refunds[..|refunds| - 1], paymentID)
         + (if refunds[|refunds| - 1].paymentID == paymentID then refunds[|refunds| - 1].amount else 0)
  }

  /** Amounts reserved for a payment by operations whose key is not in `skip`. */
  function Reserved(ops: seq<RefundOp>, skip: set<string>, paymentID: string): int {
    if ops == [] then 0
    else Reserved(ops[..|ops| - 1], skip, paymentID) + Weight(ops[|ops| - 1], skip, paymentID)
  }

  function Weight(op: RefundOp, skip: set<string>, paymentID: string): int {
    if Reserves(op) && op.paymentID == paymentID && op.key !in skip then op.amount else 0
  }

  function Keys(refunds: seq<RefundFact>): set<string> {
    set r | r in refunds :: r.key
  }

  /** Refunds of a payment other than the one recorded under `key`. */
  function RefundedExcept(refunds: seq<RefundFact>, paymentID: string, key: string): int {
    if refunds == [] then 0
    else RefundedExcept(refunds[..|refunds| - 1], paymentID, key)
         + (if refunds[|refunds| - 1].paymentID == paymentID && refunds[|refunds| - 1].key != key
            then refunds[|refunds| - 1].amount else 0)
  }

  predicate HasOp(ops: seq<RefundOp>, key: string) {
    exists i :: 0 <= i < |ops| && ops[i].key == key
  }

  /** The index of the operation with this key; operation keys are unique. */
  function OpIndex(ops: seq<RefundOp>, key: string): (i: nat)
    requires HasOp(ops, key)
    ensures i < |ops| && ops[i].key == key
  {
    if ops[0].key == key then 0 else
    assert exists k :: 0 <= k < |ops[1..]| && ops[1..][k].key == key by {
      var j :| 0 <= j < |ops| && ops[j].key == key;
      assert ops[1..][j - 1] == ops[j];
    }
    1 + OpIndex(ops[1..], key)
  }

  predicate HasPayment(payments: seq<Payment>, id: string) {
    exists i :: 0 <= i < |payments| && payments[i].id == id
  }

  function PaymentByID(payments: seq<Payment>, id: string): (p: Payment)
    requires HasPayment(payments, id)
    ensures p in payments && p.id == id
  {
    if payments[0].id == id then payments[0] else
    assert exists k :: 0 <= k < |payments[1..]| && payments[1..][k].id == id by {
      var j :| 0 <= j < |payments| && payments[j].id == id;
      assert payments[1..][j - 1] == payments[j];
    }
    PaymentByID(payments[1..], id)
  }

  function FindInvoice(invoices: seq<Invoice>, id: string): (r: Option<Invoice>)
    ensures r.Some? ==> r.value in invoices && r.value.id == id
    ensures r.None? ==> forall i :: 0 <= i < |invoices| ==> invoices[i].id != id
  {
    if invoices == [] then None
    else if invoices[0].id == id then Some(invoices[0])
    else FindInvoice(invoices[1..], id)
  }

  lemma {:induction false} FindInvoiceStable(invoices: seq<Invoice>, more: Invoice, id: string)
    requires FindInvoice(invoices, id).Some?
    ensures FindInvoice(invoices + [more], id) == FindInvoice(invoices, id)
  {
    assert (invoices + [more])[1..] == invoices[1..] + [more];
    if invoices[0].id != id { FindInvoiceStable(invoices[1..], more, id); }
  }

  // ----- operations ------------------------------------------------------------------

  /** CreateFinanceInvoice: replays are idempotent, provider ids are unique. */
  function AddInvoice(l: Ledger, invoice: Invoice): (Ledger, Outcome) {
    if invoice.account == "" || invoice.amount < 0 || !ValidCurrency(invoice.currency) then (l, Conflict)
    else if invoice in l.invoices then (l, Replayed)
    else if exists i :: 0 <= i < |l.invoices| &&
                        (l.invoices[i].id == invoice.id
                         || (invoice.providerInvoiceID != "" && l.invoices[i].provider == invoice.provider
                             && l.invoices[i].providerInvoiceID == invoice.providerInvoiceID))
    then (l, Conflict)
    else (l.(invoices := l.invoices + [invoice]), Stored)
  }

  /** RecordFinancePayment: one payment per invoice, amounts agree, ids unique. */
  function AddPayment(l: Ledger, payment: Payment): (Ledger, Outcome) {
    if payment.amount <= 0 || !ValidCurrency(payment.currency) then (l, Conflict)
    else if payment in l.payments then (l, Replayed)
    else if !exists i :: 0 <= i < |l.invoices| && l.invoices[i].id == payment.invoiceID && l.invoices[i].account == payment.account
                         && l.invoices[i].currency == payment.currency && l.invoices[i].amount == payment.amount
    then (l, Conflict)
    else if exists i :: 0 <= i < |l.payments| && l.payments[i].invoiceID == payment.invoiceID then (l, AlreadyPaid)
    else if exists i :: 0 <= i < |l.payments| &&
                        (l.payments[i].id == payment.id
                         || (payment.providerPaymentID != "" && l.payments[i].provider == payment.provider
                             && l.payments[i].providerPaymentID == payment.providerPaymentID))
    then (l, Conflict)
    else (l.(payments := l.payments + [payment]), Stored)
  }

  /** financeRefundMatchesOperation. */
  predicate MatchesOp(op: RefundOp, r: RefundFact) {
    && Reserves(op) && op.paymentID == r.paymentID && op.provider == r.provider && op.amount == r.amount
    && op.currency == r.currency && r.providerRefundID != "" && (op.providerID == "" || op.providerID == r.providerRefundID)
  }

  predicate TakenByAnotherOp(ops: seq<RefundOp>, r: RefundFact) {
    exists i :: 0 <= i < |ops| && ops[i].key != r.key && ops[i].provider == r.provider && ops[i].providerID == r.providerRefundID
  }

  predicate Duplicate(refunds: seq<RefundFact>, r: RefundFact) {
    r.providerRefundID != "" &&
    exists i :: 0 <= i < |refunds| && refunds[i].provider == r.provider && refunds[i].providerRefundID == r.providerRefundID
  }

  function Bound(ops: seq<RefundOp>, r: RefundFact): seq<RefundOp> {
    if HasOp(ops, r.key) then ops[OpIndex(ops, r.key) := ops[OpIndex(ops, r.key)].(providerID := r.providerRefundID)] else ops
  }

  /** RecordFinanceRefund on a normalized fact. */
  function AddRefund(l: Ledger, r: RefundFact): (Ledger, Outcome) {
    if r.key == "" || r.amount <= 0 || !ValidCurrency(r.currency) then (l, Conflict)
    else if r.key in Keys(l.refunds) then (l, if r in l.refunds then Replayed else Conflict)
    else if HasOp(l.ops, r.key) && (!MatchesOp(l.ops[OpIndex(l.ops, r.key)], r) || TakenByAnotherOp(l.ops, r)) then (l, Conflict)
    else if !HasPayment(l.payments, r.paymentID) || PaymentByID(l.payments, r.paymentID).currency != r.currency then (l, NotFound)
    else if r.amount > PaymentByID(l.payments, r.paymentID).amount
                       - (Refunded(l.refunds, r.paymentID) + Reserved(l.ops, Keys(l.refunds) + {r.key}, r.paymentID))
    then (l, Exceeds)
    else if Duplicate(l.refunds, r) then (l, Conflict)
    else (l.(refunds := l.refunds + [r], ops := Bound(l.ops, r)), Stored)
  }

  predicate SameRequest(a: RefundOp, b: RefundOp) {
    a.paymentID == b.paymentID && a.provider == b.provider && a.amount == b.amount && a.currency == b.currency
  }

  predicate Blocked(op: RefundOp, now: int) {
    op.status == InProgress && now - op.updatedAt <= REFUND_EXPIRY
  }

  /** BeginFinanceOperation for a refund; `op` carries the request. */
  function BeginRefund(l: Ledger, op: RefundOp, now: int): (Ledger, Outcome) {
    if op.key == "" || op.paymentID == "" || op.amount <= 0 || !ValidCurrency(op.currency) then (l, Conflict)
    else
      var known := HasOp(l.ops, op.key);
      if known && !SameRequest(l.ops[OpIndex(l.ops, op.key)], op) then (l, Conflict)
      else if known && Blocked(l.ops[OpIndex(l.ops, op.key)], now) then (l, InFlight)
      else if known && l.ops[OpIndex(l.ops, op.key)].status == Succeeded then (l, Done)
      else if !HasPayment(l.payments, op.paymentID) || PaymentByID(l.payments, op.paymentID).currency != op.currency then (l, NotFound)
      else if op.amount > PaymentByID(l.payments, op.paymentID).amount
                          - (RefundedExcept(l.refunds, op.paymentID, op.key) + Reserved(l.ops, Keys(l.refunds) + {op.key}, op.paymentID))
      then (l, Exceeds)
      else if known then
        var i := OpIndex(l.ops, op.key);
        (l.(ops := l.ops[i := l.ops[i].(status := InProgress, updatedAt := now)]), Stored)
      else (l.(ops := l.ops + [op.(status := InProgress, providerID := "", updatedAt := now)]), Stored)
  }

  /** FinishFinanceOperation; the reference is write-once. */
  function FinishRefund(l: Ledger, key: string, status: OpStatus, providerID: string, now: int): (Ledger, Outcome) {
    if status !in {Succeeded, Failed, ReconcileNeeded} || !HasOp(l.ops, key) then (l, NotFound)
    else
      var i := OpIndex(l.ops, key);
      if l.ops[i].status != InProgress || (l.ops[i].providerID != "" && providerID != "" && providerID != l.ops[i].providerID) then (l, Conflict)
      else (l.(ops := l.ops[i := l.ops[i].(
                 status := status, updatedAt := now,
                 providerID := if l.ops[i].providerID != "" then l.ops[i].providerID else providerID)]), Stored)
  }

  datatype Step =
    | Invoiced(invoice: Invoice)
    | Paid(payment: Payment)
    | RefundSettled(refund: RefundFact)
    | Begun(op: RefundOp, now: int)
    | Finished(key: string, status: OpStatus, providerID: string, now: int)

  function Apply(l: Ledger, step: Step): Ledger {
    match step
    case Invoiced(invoice) => AddInvoice(l, invoice).0
    case Paid(payment) => AddPayment(l, payment).0
    case RefundSettled(refund) => AddRefund(l, refund).0
    case Begun(op, now) => BeginRefund(l, op, now).0
    case Finished(key, status, providerID, now) => FinishRefund(l, key, status, providerID, now).0
  }

  function Run(l: Ledger, steps: seq<Step>): Ledger
    decreases |steps|
  {
    if steps == [] then l else Run(Apply(l, steps[0]), steps[1..])
  }

  // ----- conservation ----------------------------------------------------------------

  ghost predicate OpsDistinct(ops: seq<RefundOp>) {
    && (forall i, j :: 0 <= i < j < |ops| ==> ops[i].key != ops[j].key)
    && (forall i :: 0 <= i < |ops| ==> ops[i].amount > 0)
  }

  ghost predicate PaymentsDistinct(payments: seq<Payment>) {
    && (forall i, j :: 0 <= i < j < |payments| ==> payments[i].id != payments[j].id)
    && (forall i, j :: 0 <= i < j < |payments| ==> payments[i].invoiceID != payments[j].invoiceID)
  }

  ghost predicate Distinct(l: Ledger) {
    OpsDistinct(l.ops) && PaymentsDistinct(l.payments)
  }

  /** Every settled refund is positive and in the currency of an existing payment. */
  ghost predicate RefundsPaid(refunds: seq<RefundFact>, payments: seq<Payment>) {
    forall i :: 0 <= i < |refunds| ==>
                  refunds[i].amount > 0 && HasPayment(payments, refunds[i].paymentID)
                  && PaymentByID(payments, refunds[i].paymentID).currency == refunds[i].currency
  }

  ghost predicate OpsPaid(ops: seq<RefundOp>, payments: seq<Payment>) {
    forall i :: 0 <= i < |ops| ==> HasPayment(payments, ops[i].paymentID)
  }

  ghost predicate WellFormed(l: Ledger) {
    RefundsPaid(l.refunds, l.payments) && OpsPaid(l.ops, l.payments)
  }

  ghost predicate HasInvoices(invoices: seq<Invoice>, payments: seq<Payment>) {
    forall i :: 0 <= i < |payments| ==> FindInvoice(invoices, payments[i].invoiceID).Some?
  }

  /** Every payment belongs to a stored invoice. */
  ghost predicate Invoicing(l: Ledger) {
    HasInvoices(l.invoices, l.payments)
  }

  /** What is refunded and what is reserved for refunds never exceed the payment. */
  ghost predicate Covered(payments: seq<Payment>, refunds: seq<RefundFact>, ops: seq<RefundOp>) {
    forall i :: 0 <= i < |payments| ==>
                  Refunded(refunds, payments[i].id) + Reserved(ops, Keys(refunds), payments[i].id) <= payments[i].amount
  }

  ghost predicate Balanced(l: Ledger) {
    Covered(l.payments, l.refunds, l.ops)
  }

  ghost predicate Inv(l: Ledger) {
    Distinct(l) && WellFormed(l) && Invoicing(l) && Balanced(l)
  }

  lemma {:induction false} ReservedNonNegative(ops: seq<RefundOp>, skip: set<string>, paymentID: string)
    requires forall i :: 0 <= i < |ops| ==> ops[i].amount > 0
    ensures Reserved(ops, skip, paymentID) >= 0
  {
    if ops != [] { ReservedNonNegative(ops[..|ops| - 1], skip, paymentID); }
  }

  lemma {:induction false} RefundedNonNegative(refunds: seq<RefundFact>, paymentID: string)
    requires forall i :: 0 <= i < |refunds| ==> refunds[i].amount > 0
    ensures Refunded(refunds, paymentID) >= 0
  {
    if refunds != [] { RefundedNonNegative(refunds[..|refunds| - 1], paymentID); }
  }

  /** Only the weights decide the reservation. */
  lemma {:induction false} ReservedSame(a: seq<RefundOp>, b: seq<RefundOp>, skip: set<string>, paymentID: string)
    requires |a| == |b| && forall i :: 0 <= i < |a| ==> Weight(a[i], skip, paymentID) == Weight(b[i], skip, paymentID)
    ensures Reserved(a, skip, paymentID) == Reserved(b, skip, paymentID)
  {
    if a != [] { ReservedSame(a[..|a| - 1], b[..|b| - 1], skip, paymentID); }
  }

  /** Replacing one operation changes the reservation by the difference of its weights. */
  lemma {:induction false} ReservedUpdate(ops: seq<RefundOp>, i: nat, op: RefundOp, skip: set<string>, paymentID: string)
    requires i < |ops|
    ensures Reserved(ops[i := op], skip, paymentID)
            == Reserved(ops, skip, paymentID) - Weight(ops[i], skip, paymentID) + Weight(op, skip, paymentID)
  {
    var n := |ops| - 1;
    if i == n {
      assert ops[i := op][..n] == ops[..n];
    } else {
      assert ops[i := op][..n] == ops[..n][i := op];
      ReservedUpdate(ops[..n], i, op, skip, paymentID);
    }
  }

  /** Skipping one more key removes exactly that operation's weight. */
  lemma {:induction false} ReservedSkip(ops: seq<RefundOp>, skip: set<string>, paymentID: string, key: string)
    requires forall i, j :: 0 <= i < j < |ops| ==> ops[i].key != ops[j].key
    ensures Reserved(ops, skip, paymentID) == Reserved(ops, skip + {key}, paymentID)
            + if HasOp(ops, key) then Weight(ops[OpIndex(ops, key)], skip, paymentID) else 0
  {
    if ops != [] {
      var n := |ops| - 1;
      var init := ops[..n];
      ReservedSkip(init, skip, paymentID, key);
      if ops[n].key == key {
        assert !HasOp(init, key);
        assert OpIndex(ops, key) == n;
      } else {
        assert HasOp(ops, key) ==> HasOp(init, key) by {
          if HasOp(ops, key) { var j :| 0 <= j < |ops| && ops[j].key == key; assert init[j].key == key; }
        }
        if HasOp(init, key) { assert ops[OpIndex(init, key)].key == key; }
      }
    }
  }

  lemma {:induction false} ExceptIsAll(refunds: seq<RefundFact>, paymentID: string, key: string)
    requires key !in Keys(refunds)
    ensures RefundedExcept(refunds, paymentID, key) == Refunded(refunds, paymentID)
  {
    if refunds != [] {
      var last := refunds[|refunds| - 1];
      assert last in refunds && last.key in Keys(refunds);
      assert key !in Keys(refunds[..|refunds| - 1]) by {
        assert forall r :: r in refunds[..|refunds| - 1] ==> r in refunds;
      }
      ExceptIsAll(refunds[..|refunds| - 1], paymentID, key);
    }
  }

  lemma PaymentStable(payments: seq<Payment>, more: Payment, id: string)
    requires HasPayment(payments, id)
    ensures HasPayment(payments + [more], id) && PaymentByID(payments + [more], id) == PaymentByID(payments, id)
    decreases payments
  {
    var i :| 0 <= i < |payments| && payments[i].id == id;
    assert (payments + [more])[i].id == id;
    if payments[0].id != id {
      assert payments[1..][i - 1].id == id;
      assert (payments + [more])[1..] == payments[1..] + [more];
      PaymentStable(payments[1..], more, id);
    }
  }

  lemma InvoiceKeeps(l: Ledger, invoice: Invoice)
    requires Inv(l)
    ensures Inv(AddInvoice(l, invoice).0)
  {
    var t := AddInvoice(l, invoice).0;
    if t != l {
      forall i | 0 <= i < |t.payments| ensures FindInvoice(t.invoices, t.payments[i].invoiceID).Some? {
        FindInvoiceStable(l.invoices, invoice, l.payments[i].invoiceID);
      }
    }
  }

  lemma PaymentKeeps(l: Ledger, payment: Payment)
    requires Inv(l)
    ensures Inv(AddPayment(l, payment).0)
  {
    var t := AddPayment(l, payment).0;
    if t != l {
      assert t == l.(payments := l.payments + [payment]);
      NewPaymentKeeps(l, payment);
    }
  }

  lemma NewPaymentKeeps(l: Ledger, payment: Payment)
    requires Inv(l) && !HasPayment(l.payments, payment.id) && payment.amount > 0
    requires forall i :: 0 <= i < |l.payments| ==> l.payments[i].invoiceID != payment.invoiceID
    requires FindInvoice(l.invoices, payment.invoiceID).Some?
    ensures Inv(l.(payments := l.payments + [payment]))
  {
    var t := l.(payments := l.payments + [payment]);
    NothingFor(l, payment.id);
    assert Distinct(t);
    NewPaymentWellFormed(l, payment);
    assert Balanced(t);
  }

  lemma NewPaymentWellFormed(l: Ledger, payment: Payment)
    requires WellFormed(l)
    ensures WellFormed(l.(payments := l.payments + [payment]))
  {
    var t := l.(payments := l.payments + [payment]);
    forall i | 0 <= i < |t.refunds|
      ensures HasPayment(t.payments, t.refunds[i].paymentID)
              && PaymentByID(t.payments, t.refunds[i].paymentID).currency == t.refunds[i].currency
    {
      PaymentStable(l.payments, payment, l.refunds[i].paymentID);
    }
    forall i | 0 <= i < |t.ops| ensures HasPayment(t.payments, t.ops[i].paymentID) {
      PaymentStable(l.payments, payment, l.ops[i].paymentID);
    }
  }

  /** A payment that does not exist has neither refunds nor reservations. */
  lemma NothingFor(l: Ledger, id: string)
    requires WellFormed(l) && !HasPayment(l.payments, id)
    ensures Refunded(l.refunds, id) == 0 && Reserved(l.ops, Keys(l.refunds), id) == 0
  {
    NoRefundsFor(l.refunds, id);
    ReservedSame(l.ops, l.ops, Keys(l.refunds), id);
    NoOpsFor(l.ops, Keys(l.refunds), id);
  }

  lemma {:induction false} NoRefundsFor(refunds: seq<RefundFact>, id: string)
    requires forall i :: 0 <= i < |refunds| ==> refunds[i].paymentID != id
    ensures Refunded(refunds, id) == 0
  {
    if refunds != [] { NoRefundsFor(refunds[..|refunds| - 1], id); }
  }

  lemma {:induction false} NoOpsFor(ops: seq<RefundOp>, skip: set<string>, id: string)
    requires forall i :: 0 <= i < |ops| ==> ops[i].paymentID != id
    ensures Reserved(ops, skip, id) == 0
  {
    if ops != [] { NoOpsFor(ops[..|ops| - 1], skip, id); }
  }

  /** Updating operations in place, without touching what they reserve for, keeps the shape. */
  lemma ShapeKeeps(l: Ledger, ops: seq<RefundOp>)
    requires Distinct(l) && WellFormed(l) && Invoicing(l) && |ops| == |l.ops|
    requires forall i :: 0 <= i < |ops| ==>
               ops[i].key == l.ops[i].key && ops[i].paymentID == l.ops[i].paymentID && ops[i].amount == l.ops[i].amount
    ensures var t := l.(ops := ops); Distinct(t) && WellFormed(t) && Invoicing(t)
  {
  }

  lemma RefundShape(l: Ledger, r: RefundFact)
    requires Distinct(l) && WellFormed(l) && Invoicing(l)
    requires r.amount > 0 && HasPayment(l.payments, r.paymentID) && PaymentByID(l.payments, r.paymentID).currency == r.currency
    ensures var t := l.(refunds := l.refunds + [r]); Distinct(t) && WellFormed(t) && Invoicing(t)
    ensures Keys(l.refunds + [r]) == Keys(l.refunds) + {r.key}
  {
    assert forall x :: x in l.refunds + [r] <==> x in l.refunds || x == r;
  }

  lemma RefundKeeps(l: Ledger, r: RefundFact)
    requires Inv(l)
    ensures Inv(AddRefund(l, r).0)
  {
    if AddRefund(l, r).1 == Stored {
      BoundKeepsOps(l.ops, r);
      NewRefundKeeps(l, r, Bound(l.ops, r));
    }
  }

  lemma BoundKeepsOps(ops: seq<RefundOp>, r: RefundFact)
    ensures |Bound(ops, r)| == |ops|
    ensures forall i :: 0 <= i < |ops| ==> Bound(ops, r)[i] == ops[i].(providerID := Bound(ops, r)[i].providerID)
  {
  }

  lemma NewRefundKeeps(l: Ledger, r: RefundFact, ops: seq<RefundOp>)
    requires Inv(l) && |ops| == |l.ops| && forall i :: 0 <= i < |ops| ==> ops[i] == l.ops[i].(providerID := ops[i].providerID)
    requires r.amount > 0 && HasPayment(l.payments, r.paymentID) && PaymentByID(l.payments, r.paymentID).currency == r.currency
    requires r.amount <= PaymentByID(l.payments, r.paymentID).amount
                         - (Refunded(l.refunds, r.paymentID) + Reserved(l.ops, Keys(l.refunds) + {r.key}, r.paymentID))
    ensures Inv(l.(refunds := l.refunds + [r], ops := ops))
  {
    ShapeKeeps(l, ops);
    RefundShape(l.(ops := ops), r);
    NewRefundCovered(l, r, ops);
  }

  lemma NewRefundCovered(l: Ledger, r: RefundFact, ops: seq<RefundOp>)
    requires Inv(l) && |ops| == |l.ops| && forall i :: 0 <= i < |ops| ==> ops[i] == l.ops[i].(providerID := ops[i].providerID)
    requires HasPayment(l.payments, r.paymentID)
    requires r.amount <= PaymentByID(l.payments, r.paymentID).amount
                         - (Refunded(l.refunds, r.paymentID) + Reserved(l.ops, Keys(l.refunds) + {r.key}, r.paymentID))
    ensures Covered(l.payments, l.refunds + [r], ops)
  {
    assert Keys(l.refunds + [r]) == Keys(l.refunds) + {r.key};
    forall i | 0 <= i < |l.payments|
      ensures Refunded(l.refunds + [r], l.payments[i].id) + Reserved(ops, Keys(l.refunds) + {r.key}, l.payments[i].id) <= l.payments[i].amount
    {
      ReservedSame(l.ops, ops, Keys(l.refunds) + {r.key}, l.payments[i].id);
      RefundBalances(l, r, i);
    }
  }

  /** The guard of RecordFinanceRefund, seen from any payment. */
  lemma RefundBalances(l: Ledger, r: RefundFact, i: nat)
    requires Inv(l) && i < |l.payments| && HasPayment(l.payments, r.paymentID)
    requires r.amount <= PaymentByID(l.payments, r.paymentID).amount
                         - (Refunded(l.refunds, r.paymentID) + Reserved(l.ops, Keys(l.refunds) + {r.key}, r.paymentID))
    ensures Refunded(l.refunds + [r], l.payments[i].id) + Reserved(l.ops, Keys(l.refunds) + {r.key}, l.payments[i].id) <= l.payments[i].amount
  {
    assert (l.refunds + [r])[..|l.refunds|] == l.refunds;
    ReservedSkip(l.ops, Keys(l.refunds), l.payments[i].id, r.key);
    OnePayment(l, i);
  }

  lemma OnePayment(l: Ledger, i: nat)
    requires Distinct(l) && i < |l.payments|
    ensures HasPayment(l.payments, l.payments[i].id) && PaymentByID(l.payments, l.payments[i].id) == l.payments[i]
  {
    assert l.payments[i].id == l.payments[i].id;
    var p := PaymentByID(l.payments, l.payments[i].id);
    var j :| 0 <= j < |l.payments| && l.payments[j] == p;
  }

  lemma BeginKeeps(l: Ledger, op: RefundOp, now: int)
    requires Inv(l)
    ensures Inv(BeginRefund(l, op, now).0)
  {
    var t := BeginRefund(l, op, now).0;
    if t != l {
      if HasOp(l.ops, op.key) {
        RestartKeeps(l, OpIndex(l.ops, op.key), now);
      } else {
        assert t.ops == l.ops + [op.(status := InProgress, providerID := "", updatedAt := now)];
        NewOpKeeps(l, op.(status := InProgress, providerID := "", updatedAt := now));
      }
    }
  }

  /** Room for `amount` beside every other refund and reservation of the payment. */
  predicate HasRoom(l: Ledger, op: RefundOp) {
    && HasPayment(l.payments, op.paymentID)
    && op.amount <= PaymentByID(l.payments, op.paymentID).amount
                    - (RefundedExcept(l.refunds, op.paymentID, op.key) + Reserved(l.ops, Keys(l.refunds) + {op.key}, op.paymentID))
  }

  lemma NewOpKeeps(l: Ledger, op: RefundOp)
    requires Inv(l) && !HasOp(l.ops, op.key) && op.amount > 0 && HasRoom(l, op)
    ensures Inv(l.(ops := l.ops + [op]))
  {
    var t := l.(ops := l.ops + [op]);
    forall i | 0 <= i < |t.payments|
      ensures Refunded(t.refunds, t.payments[i].id) + Reserved(t.ops, Keys(t.refunds), t.payments[i].id) <= t.payments[i].amount
    {
      var id, skip := t.payments[i].id, Keys(l.refunds);
      assert t.ops[..|l.ops|] == l.ops;
      ReservedSkip(l.ops, skip, id, op.key);
      if op.key !in skip { ExceptIsAll(l.refunds, id, op.key); }
      if id == op.paymentID { OnePayment(l, i); }
    }
  }

  lemma RestartKeeps(l: Ledger, k: nat, now: int)
    requires Inv(l) && k < |l.ops| && HasRoom(l, l.ops[k])
    ensures Inv(l.(ops := l.ops[k := l.ops[k].(status := InProgress, updatedAt := now)]))
  {
    var t := l.(ops := l.ops[k := l.ops[k].(status := InProgress, updatedAt := now)]);
    ShapeKeeps(l, t.ops);
    forall i | 0 <= i < |l.payments|
      ensures Refunded(t.refunds, l.payments[i].id) + Reserved(t.ops, Keys(t.refunds), l.payments[i].id) <= l.payments[i].amount
    {
      ReservedUpdate(l.ops, k, t.ops[k], Keys(l.refunds), l.payments[i].id);
      RestartBalances(l, k, i);
    }
  }

  lemma RestartBalances(l: Ledger, k: nat, i: nat)
    requires Inv(l) && k < |l.ops| && HasRoom(l, l.ops[k]) && i < |l.payments|
    ensures var op, id, skip := l.ops[k], l.payments[i].id, Keys(l.refunds);
            Refunded(l.refunds, id) + Reserved(l.ops, skip, id) - Weight(op, skip, id)
            + Weight(op.(status := InProgress), skip, id) <= l.payments[i].amount
  {
    var op, id, skip := l.ops[k], l.payments[i].id, Keys(l.refunds);
    assert HasOp(l.ops, op.key) && OpIndex(l.ops, op.key) == k;
    ReservedSkip(l.ops, skip, id, op.key);
    if op.key !in skip { ExceptIsAll(l.refunds, id, op.key); }
    OnePayment(l, i);
  }

  lemma FinishKeeps(l: Ledger, key: string, status: OpStatus, providerID: string, now: int)
    requires Inv(l)
    ensures Inv(FinishRefund(l, key, status, providerID, now).0)
  {
    var t := FinishRefund(l, key, status, providerID, now).0;
    if t != l {
      var k := OpIndex(l.ops, key);
      forall i | 0 <= i < |t.payments|
        ensures Refunded(t.refunds, t.payments[i].id) + Reserved(t.ops, Keys(t.refunds), t.payments[i].id) <= t.payments[i].amount
      {
        ReservedUpdate(l.ops, k, t.ops[k], Keys(l.refunds), t.payments[i].id);
      }
    }
  }

  lemma {:induction false} RunKeepsInv(l: Ledger, steps: seq<Step>)
    requires Inv(l)
    ensures Inv(Run(l, steps))
    decreases |steps|
  {
    if steps != [] {
      match steps[0] {
        case Invoiced(invoice) => InvoiceKeeps(l, invoice);
        case Paid(payment) => PaymentKeeps(l, payment);
        case RefundSettled(r) => RefundKeeps(l, r);
        case Begun(op, now) => BeginKeeps(l, op, now);
        case Finished(key, status, providerID, now) => FinishKeeps(l, key, status, providerID, now);
      }
      RunKeepsInv(Apply(l, steps[0]), steps[1..]);
    }
  }

  // ----- whole runs ------------------------------------------------------------------

  /** In every run, settled refunds plus live reservations stay within each payment. */
  lemma RefundsNeverExceedPayments(steps: seq<Step>)
    ensures var l := Run(EMPTY, steps);
            forall i :: 0 <= i < |l.payments| ==>
              && 0 <= Refunded(l.refunds, l.payments[i].id) <= l.payments[i].amount
              && Refunded(l.refunds, l.payments[i].id) + Reserved(l.ops, Keys(l.refunds), l.payments[i].id) <= l.payments[i].amount
  {
    RunKeepsInv(EMPTY, steps);
    var l := Run(EMPTY, steps);
    forall i | 0 <= i < |l.payments| ensures 0 <= Refunded(l.refunds, l.payments[i].id) <= l.payments[i].amount {
      RefundedNonNegative(l.refunds, l.payments[i].id);
      ReservedNonNegative(l.ops, Keys(l.refunds), l.payments[i].id);
    }
  }

  /** The ledger is append-only. */
  lemma {:induction false} RunOnlyAppends(l: Ledger, steps: seq<Step>)
    ensures l.invoices <= Run(l, steps).invoices
    ensures l.payments <= Run(l, steps).payments
    ensures l.refunds <= Run(l, steps).refunds
    decreases |steps|
  {
    if steps != [] {
      StepOnlyAppends(l, steps[0]);
      RunOnlyAppends(Apply(l, steps[0]), steps[1..]);
    }
  }

  lemma StepOnlyAppends(l: Ledger, step: Step)
    ensures l.invoices <= Apply(l, step).invoices
    ensures l.payments <= Apply(l, step).payments
    ensures l.refunds <= Apply(l, step).refunds
  {
  }

  lemma {:induction false} RefundedGrows(a: seq<RefundFact>, b: seq<RefundFact>, paymentID: string)
    requires a <= b && forall i :: 0 <= i < |b| ==> b[i].amount > 0
    ensures Refunded(a, paymentID) <= Refunded(b, paymentID)
    decreases |b|
  {
    if |a| < |b| { RefundedGrows(a, b[..|b| - 1], paymentID); } else { assert a == b; }
  }

  /** A payment once fully refunded stays exactly fully refunded, and nothing more can be reserved against it. */
  lemma FullRefundIsFinal(l: Ledger, i: nat, steps: seq<Step>)
    requires Inv(l) && i < |l.payments| && Refunded(l.refunds, l.payments[i].id) == l.payments[i].amount
    ensures var t := Run(l, steps);
            && i < |t.payments| && t.payments[i] == l.payments[i]
            && Refunded(t.refunds, l.payments[i].id) == l.payments[i].amount
            && Reserved(t.ops, Keys(t.refunds), l.payments[i].id) == 0
  {
    RunKeepsInv(l, steps);
    RunOnlyAppends(l, steps);
    var t := Run(l, steps);
    RefundedGrows(l.refunds, t.refunds, l.payments[i].id);
    ReservedNonNegative(t.ops, Keys(t.refunds), l.payments[i].id);
  }

  // ----- the store ---------------------------------------------------------------------

  lemma RefundedSnoc(refunds: seq<RefundFact>, k: nat, paymentID: string)
    requires k < |refunds|
    ensures Refunded(refunds[..k + 1], paymentID)
            == Refunded(refunds[..k], paymentID) + if refunds[k].paymentID == paymentID then refunds[k].amount else 0
  {
    assert refunds[..k + 1][..k] == refunds[..k];
  }

  /** The total RecordFinanceRefund compares with the payment. */
  method CommittedTotal(refunds: seq<RefundFact>, ops: seq<RefundOp>, key: string, paymentID: string) returns (total: int)
    ensures total == Refunded(refunds, paymentID) + Reserved(ops, Keys(refunds) + {key}, paymentID)
  {
    total := 0;
    for i := 0 to |refunds|
      invariant total == Refunded(refunds[..i], paymentID)
    {
      RefundedSnoc(refunds, i, paymentID);
      if refunds[i].paymentID == paymentID {
        total := total + refunds[i].amount;
      }
    }
    assert refunds[..|refunds|] == refunds;
    var settled := Keys(refunds);
    for i := 0 to |ops|
      invariant total == Refunded(refunds, paymentID) + Reserved(ops[..i], settled + {key}, paymentID)
    {
      assert ops[..i + 1][..i] == ops[..i];
      if Reserves(ops[i]) && ops[i].paymentID == paymentID && ops[i].key != key && ops[i].key !in settled {
        total := total + ops[i].amount;
      }
    }
    assert ops[..|ops|] == ops;
  }

  method FindOp(ops: seq<RefundOp>, key: string) returns (r: Option<nat>)
    ensures r.Some? <==> HasOp(ops, key)
    ensures r.Some? ==> r.value == OpIndex(ops, key)
  {
    for i := 0 to |ops|
      invariant forall k :: 0 <= k < i ==> ops[k].key != key
    {
      if ops[i].key == key {
        FirstIndex(ops, key, i);
        return Some(i);
      }
    }
    return None;
  }

  lemma {:induction false} FirstIndex(ops: seq<RefundOp>, key: string, i: nat)
    requires i < |ops| && ops[i].key == key && forall k :: 0 <= k < i ==> ops[k].key != key
    ensures HasOp(ops, key) && OpIndex(ops, key) == i
  {
    if i > 0 {
      assert ops[1..][i - 1].key == key;
      assert forall k :: 0 <= k < i - 1 ==> ops[1..][k].key != key by {
        assert forall k :: 0 <= k < i - 1 ==> ops[1..][k] == ops[k + 1];
      }
      FirstIndex(ops[1..], key, i - 1);
    }
  }

  method FindPayment(payments: seq<Payment>, id: string) returns (r: Option<Payment>)
    ensures r.Some? <==> HasPayment(payments, id)
    ensures r.Some? ==> r.value == PaymentByID(payments, id)
  {
    for i := 0 to |payments|
      invariant forall k :: 0 <= k < i ==> payments[k].id != id
    {
      if payments[i].id == id {
        FirstPayment(payments, id, i);
        return Some(payments[i]);
      }
    }
    return None;
  }

  lemma {:induction false} FirstPayment(payments: seq<Payment>, id: string, i: nat)
    requires i < |payments| && payments[i].id == id && forall k :: 0 <= k < i ==> payments[k].id != id
    ensures HasPayment(payments, id) && PaymentByID(payments, id) == payments[i]
  {
    if i > 0 {
      assert payments[1..][i - 1].id == id;
      assert forall k :: 0 <= k < i - 1 ==> payments[1..][k].id != id by {
        assert forall k :: 0 <= k < i - 1 ==> payments[1..][k] == payments[k + 1];
      }
      FirstPayment(payments[1..], id, i - 1);
    }
  }

  class LedgerStore {
    var invoices: seq<Invoice>
    var payments: seq<Payment>
    var refunds: seq<RefundFact>
    var ops: seq<RefundOp>

    ghost function Contents(): Ledger
      reads this
    {
      Ledger(invoices, payments, refunds, ops)
    }

    constructor ()
      ensures Contents() == EMPTY
    {
      invoices, payments, refunds, ops := [], [], [], [];
    }

    /** RecordFinanceRefund: replays converge, and the fact binds its operation's reference. */
    method RecordRefund(r: RefundFact) returns (outcome: Outcome)
      modifies this
      ensures Contents() == AddRefund(old(Contents()), r).0
      ensures outcome == AddRefund(old(Contents()), r).1
    {
      if r.key == "" || r.amount <= 0 || !ValidCurrency(r.currency) { return Conflict; }
      if r.key in Keys(refunds) { return if r in refunds then Replayed else Conflict; }
      var op := FindOp(ops, r.key);
      if op.Some? && (!MatchesOp(ops[op.value], r) || TakenByAnotherOp(ops, r)) { return Conflict; }
      var payment := FindPayment(payments, r.paymentID);
      if payment.None? || payment.value.currency != r.currency { return NotFound; }
      var total := CommittedTotal(refunds, ops, r.key, r.paymentID);
      if r.amount > payment.value.amount - total { return Exceeds; }
      if Duplicate(refunds, r) { return Conflict; }
      refunds := refunds + [r];
      if op.Some? {
        ops := ops[op.value := ops[op.value].(providerID := r.providerRefundID)];
      }
      return Stored;
    }
  }
}
