/**
 Whether a subscription's payments are fully refunded, derived from the ledger
 (refundReviewSettlement in api/billing_refund_review.go), and the sums the two
 webhook paths of api/stripe_finance.go use for the same decision.
 */
module RefundSettlement {
  import opened Finance
  import opened Text
  import opened RefundLedger

  datatype Settlement = SettlementError | Settlement(settled: bool, partial: bool)

  /** A refund that may be added to the running total of payment `p`. */
  predicate Sound(r: RefundFact, p: Payment) {
    EqualFold(r.currency, p.currency) && r.amount > 0
  }

  /** The guarded running total over the refunds of `p`; None is the conflict error. */
  function Fold(refunds: seq<RefundFact>, p: Payment): Option<int> {
    if refunds == [] then Some(0)
    else
      var before := Fold(refunds[..|refunds| - 1], p);
      var r := refunds[|refunds| - 1];
      if before.None? || r.paymentID != p.id then before
      else if !Sound(r, p) || r.amount > p.amount - before.value then None
      else Some(before.value + r.amount)
  }

  predicate AllSound(refunds: seq<RefundFact>, p: Payment) {
    forall i :: 0 <= i < |refunds| && refunds[i].paymentID == p.id ==> Sound(refunds[i], p)
  }

  lemma {:induction false} SoundSum(refunds: seq<RefundFact>, p: Payment)
    requires AllSound(refunds, p)
    ensures Refunded(refunds, p.id) >= 0
  {
    if refunds != [] { SoundSum(refunds[..|refunds| - 1], p); }
  }

  /** The guarded fold succeeds exactly when the refunds are sound and fit into the
      payment, and then it is the plain sum the webhook computes. */
  lemma {:induction false} FoldIsPlainSum(refunds: seq<RefundFact>, p: Payment)
    requires p.amount > 0
    ensures Fold(refunds, p).Some? <==> AllSound(refunds, p) && Refunded(refunds, p.id) <= p.amount
    ensures Fold(refunds, p).Some? ==> Fold(refunds, p).value == Refunded(refunds, p.id)
  {
    if refunds != [] {
      var init := refunds[..|refunds| - 1];
      FoldIsPlainSum(init, p);
      assert AllSound(refunds, p) ==> AllSound(init, p) by {
        assert forall i :: 0 <= i < |init| ==> init[i] == refunds[i];
      }
      assert forall i :: 0 <= i < |refunds| - 1 ==> refunds[i] == init[i];
      if AllSound(init, p) { SoundSum(init, p); }
    }
  }

  /** Every running total on the way stays between zero and the payment. */
  lemma {:induction false} RunningTotalsStayInRange(refunds: seq<RefundFact>, p: Payment, k: nat)
    requires p.amount > 0 && Fold(refunds, p).Some? && k <= |refunds|
    ensures Fold(refunds[..k], p).Some? && 0 <= Fold(refunds[..k], p).value <= Fold(refunds, p).value <= p.amount
    decreases |refunds|
  {
    if k < |refunds| {
      var init := refunds[..|refunds| - 1];
      assert refunds[..k] == init[..k];
      RunningTotalsStayInRange(init, p, k);
    } else {
      assert refunds[..k] == refunds;
      FoldIsPlainSum(refunds, p);
      SoundSum(refunds, p);
    }
  }

  // ----- the decision ------------------------------------------------------------------

  /** A positive Stripe payment of the subscription. */
  predicate Relevant(invoices: seq<Invoice>, account: string, subscription: string, p: Payment) {
    && p.provider == "stripe" && p.amount > 0
    && FindInvoice(invoices, p.invoiceID).Some?
    && FindInvoice(invoices, p.invoiceID).value.account == account
    && FindInvoice(invoices, p.invoiceID).value.subscription == subscription
  }

  /** This payment makes the review fail: no invoice, or refunds that contradict it. */
  predicate PaymentErrs(invoices: seq<Invoice>, refunds: seq<RefundFact>, account: string, subscription: string, p: Payment) {
    p.provider == "stripe" &&
    (FindInvoice(invoices, p.invoiceID).None? || (Relevant(invoices, account, subscription, p) && Fold(refunds, p).None?))
  }

  predicate Errs(invoices: seq<Invoice>, payments: seq<Payment>, refunds: seq<RefundFact>, account: string, subscription: string) {
    exists i :: 0 <= i < |payments| && PaymentErrs(invoices, refunds, account, subscription, payments[i])
  }

  predicate Settled(invoices: seq<Invoice>, payments: seq<Payment>, refunds: seq<RefundFact>, account: string, subscription: string) {
    && (exists i :: 0 <= i < |payments| && Relevant(invoices, account, subscription, payments[i]))
    && (forall i :: 0 <= i < |payments| && Relevant(invoices, account, subscription, payments[i]) ==>
                      Refunded(refunds, payments[i].id) == payments[i].amount)
  }

  predicate Partial(invoices: seq<Invoice>, payments: seq<Payment>, refunds: seq<RefundFact>, account: string, subscription: string) {
    exists i :: 0 <= i < |payments| && Relevant(invoices, account, subscription, payments[i]) && Refunded(refunds, payments[i].id) > 0
  }

  method RunningTotal(refunds: seq<RefundFact>, p: Payment) returns (total: Option<int>)
    ensures total == Fold(refunds, p)
  {
    var sum := 0;
    for i := 0 to |refunds|
      invariant Fold(refunds[..i], p) == Some(sum)
    {
      assert refunds[..i + 1][..i] == refunds[..i];
      if refunds[i].paymentID == p.id {
        if !EqualFold(refunds[i].currency, p.currency) || refunds[i].amount <= 0 || refunds[i].amount > p.amount - sum {
          FoldStaysNone(refunds, p, i + 1);
          return None;
        }
        sum := sum + refunds[i].amount;
      }
    }
    assert refunds[..|refunds|] == refunds;
    return Some(sum);
  }

  lemma {:induction false} FoldStaysNone(refunds: seq<RefundFact>, p: Payment, k: nat)
    requires k <= |refunds| && Fold(refunds[..k], p).None?
    ensures Fold(refunds, p).None?
    decreases |refunds|
  {
    if k == |refunds| {
      assert refunds[..k] == refunds;
    } else {
      assert refunds[..|refunds| - 1][..k] == refunds[..k];
      FoldStaysNone(refunds[..|refunds| - 1], p, k);
    }
  }

  datatype Judged = Skipped | Contradiction | Total(sum: int)

  /** The body of the payment loop. */
  method JudgePayment(invoices: seq<Invoice>, refunds: seq<RefundFact>, account: string, subscription: string, p: Payment) returns (r: Judged)
    ensures r.Contradiction? <==> PaymentErrs(invoices, refunds, account, subscription, p)
    ensures r.Total? <==> Relevant(invoices, account, subscription, p) && Fold(refunds, p).Some?
    ensures r.Total? ==> r.sum == Refunded(refunds, p.id)
  {
    if p.provider != "stripe" { return Skipped; }
    var invoice := FindInvoice(invoices, p.invoiceID);
    if invoice.None? { return Contradiction; }
    if invoice.value.account != account || invoice.value.subscription != subscription { return Skipped; }
    if p.amount <= 0 { return Skipped; }
    var total := RunningTotal(refunds, p);
    if total.None? { return Contradiction; }
    FoldIsPlainSum(refunds, p);
    r := Total(total.value);
  }

  /** refundReviewSettlement. */
  method RefundReviewSettlement(invoices: seq<Invoice>, payments: seq<Payment>, refunds: seq<RefundFact>,
                                account: string, subscription: string)
    returns (r: Settlement)
    ensures r.SettlementError? <==> Errs(invoices, payments, refunds, account, subscription)
    ensures r.Settlement? ==> (r.settled <==> Settled(invoices, payments, refunds, account, subscription))
    ensures r.Settlement? ==> (r.partial <==> Partial(invoices, payments, refunds, account, subscription))
  {
    var count, complete, partial := 0, true, false;
    for i := 0 to |payments|
      invariant count >= 0
      invariant forall k :: 0 <= k < i ==> !PaymentErrs(invoices, refunds, account, subscription, payments[k])
      invariant count > 0 <==> exists k :: 0 <= k < i && Relevant(invoices, account, subscription, payments[k])
      invariant complete <==> forall k :: 0 <= k < i && Relevant(invoices, account, subscription, payments[k]) ==>
                                            Refunded(refunds, payments[k].id) == payments[k].amount
      invariant partial <==> exists k :: 0 <= k < i && Relevant(invoices, account, subscription, payments[k])
                                         && Refunded(refunds, payments[k].id) > 0
    {
      var judged := JudgePayment(invoices, refunds, account, subscription, payments[i]);
      if judged.Contradiction? { return SettlementError; }
      if judged.Total? {
        count := count + 1;
        partial := partial || judged.sum > 0;
        complete := complete && judged.sum == payments[i].amount;
      }
    }
    return Settlement(count > 0 && complete, partial);
  }

  // ----- order independence -----------------------------------------------------------

  function RemoveAt(refunds: seq<RefundFact>, j: nat): seq<RefundFact>
    requires j < |refunds|
  {
    refunds[..j] + refunds[j + 1..]
  }

  lemma {:induction false} RefundedRemove(refunds: seq<RefundFact>, j: nat, paymentID: string)
    requires j < |refunds|
    ensures Refunded(refunds, paymentID)
            == Refunded(RemoveAt(refunds, j), paymentID) + if refunds[j].paymentID == paymentID then refunds[j].amount else 0
    decreases |refunds|
  {
    var n := |refunds| - 1;
    if j == n {
      assert RemoveAt(refunds, j) == refunds[..n];
    } else {
      RefundedRemove(refunds[..n], j, paymentID);
      RemoveAtSplits(refunds, j);
    }
  }

  lemma RemoveAtSplits(refunds: seq<RefundFact>, j: nat)
    requires j < |refunds| - 1
    ensures var n := |refunds| - 1; var rest := RemoveAt(refunds, j);
            && |rest| == n && rest[..n - 1] == RemoveAt(refunds[..n], j) && rest[n - 1] == refunds[n] && refunds[..n][j] == refunds[j]
  {
  }

  lemma {:induction false} RefundedPermutation(a: seq<RefundFact>, b: seq<RefundFact>, paymentID: string)
    requires multiset(a) == multiset(b)
    ensures Refunded(a, paymentID) == Refunded(b, paymentID)
    decreases |a|
  {
    if a == [] {
      assert |b| == |multiset(b)| == |multiset(a)|;
    } else {
      var n := |a| - 1;
      assert a[n] in multiset(a);
      assert a[n] in b;
      var j :| 0 <= j < |b| && b[j] == a[n];
      assert a == a[..n] + [a[n]];
      assert b == b[..j] + [b[j]] + b[j + 1..];
      assert multiset(a[..n]) == multiset(a) - multiset{a[n]};
      assert multiset(RemoveAt(b, j)) == multiset(b) - multiset{b[j]};
      RefundedPermutation(a[..n], RemoveAt(b, j), paymentID);
      RefundedRemove(b, j, paymentID);
    }
  }

  lemma FoldPermutation(a: seq<RefundFact>, b: seq<RefundFact>, p: Payment)
    requires multiset(a) == multiset(b) && p.amount > 0
    ensures Fold(a, p) == Fold(b, p)
  {
    FoldIsPlainSum(a, p);
    FoldIsPlainSum(b, p);
    RefundedPermutation(a, b, p.id);
    assert forall r :: r in a <==> r in multiset(a);
    assert forall r :: r in b <==> r in multiset(b);
    assert AllSound(a, p) <==> forall r :: r in a && r.paymentID == p.id ==> Sound(r, p);
    assert AllSound(b, p) <==> forall r :: r in b && r.paymentID == p.id ==> Sound(r, p);
  }

  /** Neither success nor the answer depends on the order of payments or refunds. */
  lemma SettlementIgnoresOrder(invoices: seq<Invoice>, p1: seq<Payment>, p2: seq<Payment>,
                               r1: seq<RefundFact>, r2: seq<RefundFact>, account: string, subscription: string)
    requires multiset(p1) == multiset(p2) && multiset(r1) == multiset(r2)
    ensures Errs(invoices, p1, r1, account, subscription) <==> Errs(invoices, p2, r2, account, subscription)
    ensures Settled(invoices, p1, r1, account, subscription) <==> Settled(invoices, p2, r2, account, subscription)
    ensures Partial(invoices, p1, r1, account, subscription) <==> Partial(invoices, p2, r2, account, subscription)
  {
    OrderHalf(invoices, p1, p2, r1, r2, account, subscription);
    OrderHalf(invoices, p2, p1, r2, r1, account, subscription);
  }

  lemma SamePayment(p1: seq<Payment>, p2: seq<Payment>, i: nat) returns (j: nat)
    requires multiset(p1) == multiset(p2) && i < |p1|
    ensures j < |p2| && p2[j] == p1[i]
  {
    assert p1[i] in multiset(p1);
    assert p1[i] in p2;
    j :| 0 <= j < |p2| && p2[j] == p1[i];
  }

  lemma OrderHalf(invoices: seq<Invoice>, p1: seq<Payment>, p2: seq<Payment>,
                  r1: seq<RefundFact>, r2: seq<RefundFact>, account: string, subscription: string)
    requires multiset(p1) == multiset(p2) && multiset(r1) == multiset(r2)
    ensures Errs(invoices, p1, r1, account, subscription) ==> Errs(invoices, p2, r2, account, subscription)
    ensures Settled(invoices, p1, r1, account, subscription) ==> Settled(invoices, p2, r2, account, subscription)
    ensures Partial(invoices, p1, r1, account, subscription) ==> Partial(invoices, p2, r2, account, subscription)
  {
    if Errs(invoices, p1, r1, account, subscription) {
      var i :| 0 <= i < |p1| && PaymentErrs(invoices, r1, account, subscription, p1[i]);
      var j := SamePayment(p1, p2, i);
      if p1[i].amount > 0 { FoldPermutation(r1, r2, p1[i]); }
      assert PaymentErrs(invoices, r2, account, subscription, p2[j]);
    }
    if Settled(invoices, p1, r1, account, subscription) {
      var i :| 0 <= i < |p1| && Relevant(invoices, account, subscription, p1[i]);
      var j := SamePayment(p1, p2, i);
      forall j | 0 <= j < |p2| && Relevant(invoices, account, subscription, p2[j]) ensures Refunded(r2, p2[j].id) == p2[j].amount {
        var i := SamePayment(p2, p1, j);
        RefundedPermutation(r1, r2, p2[j].id);
      }
    }
    if Partial(invoices, p1, r1, account, subscription) {
      var i :| 0 <= i < |p1| && Relevant(invoices, account, subscription, p1[i]) && Refunded(r1, p1[i].id) > 0;
      var j := SamePayment(p1, p2, i);
      RefundedPermutation(r1, r2, p1[i].id);
    }
  }

  // ----- reachable ledgers --------------------------------------------------------------

  /** In every ledger the service can reach, settlement never meets a conflict: the
      guarded fold of every payment succeeds and equals the webhook's plain sum. */
  lemma ReachableLedgersSettle(steps: seq<Step>, account: string, subscription: string)
    ensures var l := Run(EMPTY, steps);
            && !Errs(l.invoices, l.payments, l.refunds, account, subscription)
            && forall i :: 0 <= i < |l.payments| && l.payments[i].amount > 0 ==>
                 Fold(l.refunds, l.payments[i]) == Some(Refunded(l.refunds, l.payments[i].id))
  {
    RunKeepsInv(EMPTY, steps);
    var l := Run(EMPTY, steps);
    forall i | 0 <= i < |l.payments| && l.payments[i].amount > 0
      ensures Fold(l.refunds, l.payments[i]) == Some(Refunded(l.refunds, l.payments[i].id))
    {
      FoldIsPlainSum(l.refunds, l.payments[i]);
      ReservedNonNegative(l.ops, Keys(l.refunds), l.payments[i].id);
      OnePayment(l, i);
    }
  }

  // ----- contradictions in full ------------------------------------------------------------------

  /** A payment contradicts its refunds exactly when it is a Stripe payment without a stored
      invoice, or a positive one of this account and subscription with a refund in another
      currency or of no positive amount, or with more refunded than was paid. */
  lemma ContradictionExactly(invoices: seq<Invoice>, refunds: seq<RefundFact>, account: string, subscription: string, p: Payment)
    ensures PaymentErrs(invoices, refunds, account, subscription, p) <==>
            && p.provider == "stripe"
            && match FindInvoice(invoices, p.invoiceID)
               case None => true
               case Some(v) =>
                 && v.account == account && v.subscription == subscription && p.amount > 0
                 && (Refunded(refunds, p.id) > p.amount
                     || exists i :: 0 <= i < |refunds| && refunds[i].paymentID == p.id
                                    && (refunds[i].amount <= 0 || Lower(refunds[i].currency) != Lower(p.currency)))
  {
    if p.amount > 0 { FoldIsPlainSum(refunds, p); }
  }
}
