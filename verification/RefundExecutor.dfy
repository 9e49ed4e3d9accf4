/**
 The crash-tolerant subscription refund executor
 (api/billing_refund_operations.go) over the fenced operation record of the
 finance store (internal/store/finance_memory.go).

 One refund operation is a durable record plus any number of handlers.  Every
 store call and every provider call is one step.  Handlers interleave freely,
 may crash between any two steps, may lose a provider response, and may fail to
 write their final state.
 */
module RefundExecutor {
  import opened Finance
  import opened Text

  // ----- pinned intent ---------------------------------------------------------

  datatype Intent = Intent(
    paymentID: string, accountID: string, subscriptionID: string, externalID: string,
    paymentIntentID: string, amount: int, currency: string)

  /** The immutable part of the operation; `intent` is None when the request is malformed. */
  datatype Head = Head(
    key: string, operationType: string, targetType: string, targetID: string,
    provider: string, intent: Option<Intent>)

  /** Local rows one validation reads. */
  datatype Facts = Facts(payments: seq<Payment>, invoices: map<string, Invoice>, subscriptions: seq<Subscription>)

  datatype Refund = Refund(
    id: string, status: string, paymentIntent: string, amount: int,
    currency: string, created: int, operationKey: string)

  function RefundKey(subscriptionID: string): string {
    "subscription-refund:" + subscriptionID
  }

  predicate OwnsRefund(head: Head, intent: Intent, s: Subscription) {
    && s.id == intent.subscriptionID && s.externalID == intent.externalID && s.provider == "stripe"
    && s.kind == "subscription" && head.key == RefundKey(s.id)
  }

  /** loadSubscriptionRefundIntent: the chain payment -> invoice -> subscription -> key. */
  predicate IntentHolds(head: Head, facts: Facts) {
    && head.intent.Some?
    && var intent := head.intent.value;
    && head.operationType == "refund" && head.targetType == "payment" && head.provider == "stripe"
    && head.targetID == intent.paymentID && intent.accountID != "" && intent.subscriptionID != "" && intent.amount > 0
    && Trim(intent.paymentIntentID) != ""
    && var found := FindPaymentByProvider(facts.payments, "stripe", Trim(intent.paymentIntentID));
    && found.Some?
    && var payment := found.value;
    && payment.id == head.targetID && payment.provider == head.provider && payment.account == intent.accountID
    && payment.amount == intent.amount && payment.currency == intent.currency
    && payment.invoiceID in facts.invoices
    && var invoice := facts.invoices[payment.invoiceID];
    && invoice.account == intent.accountID && invoice.subscription == intent.subscriptionID
    && invoice.provider == "stripe" && invoice.amount == payment.amount && invoice.currency == payment.currency
    && exists i :: 0 <= i < |facts.subscriptions| && OwnsRefund(head, intent, facts.subscriptions[i])
  }

  /** The provider reference matches the pinned intent and any id already bound. */
  predicate Matches(head: Head, boundID: string, r: Refund) {
    && head.intent.Some?
    && r.operationKey == head.key && HasPrefix(r.id, "re_") && r.created > 0
    && r.amount == head.intent.value.amount && EqualFold(r.currency, head.intent.value.currency)
    && r.paymentIntent == head.intent.value.paymentIntentID
    && (boundID == "" || boundID == r.id)
  }

  /** validateOperationRefund; None stands for a failed database read. */
  predicate Validates(head: Head, boundID: string, facts: Option<Facts>, r: Refund) {
    facts.Some? && IntentHolds(head, facts.value) && Matches(head, boundID, r)
  }

  // ----- what validation means ----------------------------------------------------

  /** The local rows that stand behind an intent: its payment, the first with its provider
      id, that payment's invoice, and the subscription the operation is named after. */
  ghost predicate Backs(head: Head, i: Intent, facts: Facts, k: nat, m: nat) {
    && k < |facts.payments| && m < |facts.subscriptions|
    && var p, sub := facts.payments[k], facts.subscriptions[m];
    && head == Head("subscription-refund:" + i.subscriptionID, "refund", "payment", p.id, "stripe", Some(i))
    && i.accountID != "" && i.subscriptionID != "" && i.amount > 0 && Trim(i.paymentIntentID) != ""
    && p == Payment(i.paymentID, p.invoiceID, i.accountID, "stripe", Trim(i.paymentIntentID), i.amount, i.currency)
    && (forall j :: 0 <= j < k ==> facts.payments[j].provider != "stripe" || facts.payments[j].providerPaymentID != Trim(i.paymentIntentID))
    && p.invoiceID in facts.invoices
    && var v := facts.invoices[p.invoiceID];
    && v == Invoice(v.id, i.accountID, i.subscriptionID, "stripe", v.providerInvoiceID, i.amount, i.currency)
    && sub == Subscription(i.subscriptionID, i.externalID, "stripe", "subscription", sub.planID, sub.status)
  }

  /** The refund is the one that was asked for. */
  ghost predicate Agrees(key: string, i: Intent, r: Refund) {
    && r.amount == i.amount && r.paymentIntent == i.paymentIntentID && Lower(r.currency) == Lower(i.currency)
    && r.operationKey == key && "re_" <= r.id && r.created > 0
  }

  lemma {:induction false} FirstPayment(payments: seq<Payment>, id: string, k: nat)
    requires k < |payments| && payments[k].provider == "stripe" && payments[k].providerPaymentID == id
    requires forall j :: 0 <= j < k ==> payments[j].provider != "stripe" || payments[j].providerPaymentID != id
    ensures FindPaymentByProvider(payments, "stripe", id) == Some(payments[k])
  {
    if k > 0 {
      assert forall j :: 0 <= j < k - 1 ==> payments[1..][j] == payments[j + 1];
      FirstPayment(payments[1..], id, k - 1);
    }
  }

  lemma {:induction false} FoundPayment(payments: seq<Payment>, id: string) returns (k: nat)
    requires FindPaymentByProvider(payments, "stripe", id).Some?
    ensures k < |payments| && FindPaymentByProvider(payments, "stripe", id) == Some(payments[k])
    ensures forall j :: 0 <= j < k ==> payments[j].provider != "stripe" || payments[j].providerPaymentID != id
  {
    if payments[0].provider == "stripe" && payments[0].providerPaymentID == id {
      k := 0;
    } else {
      k := FoundPayment(payments[1..], id);
      assert forall j :: 1 <= j <= k ==> payments[1..][j - 1] == payments[j];
      k := k + 1;
    }
  }

  /** loadSubscriptionRefundIntent succeeds exactly when such rows exist. */
  lemma IntentHoldsExactly(head: Head, facts: Facts)
    ensures IntentHolds(head, facts) <==> head.intent.Some? && exists k: nat, m: nat :: Backs(head, head.intent.value, facts, k, m)
  {
    if IntentHolds(head, facts) {
      var i := head.intent.value;
      var k := FoundPayment(facts.payments, Trim(i.paymentIntentID));
      var m :| 0 <= m < |facts.subscriptions| && OwnsRefund(head, i, facts.subscriptions[m]);
      assert Backs(head, i, facts, k, m);
    }
    if head.intent.Some? {
      var i := head.intent.value;
      if k: nat, m: nat :| Backs(head, i, facts, k, m) {
        FirstPayment(facts.payments, Trim(i.paymentIntentID), k);
        assert OwnsRefund(head, i, facts.subscriptions[m]);
      }
    }
  }

  /** validateOperationRefund passes exactly a refund that agrees with the pinned intent in
      amount, payment intent, currency and operation key, is a settled Stripe refund, is the
      one already bound if there is one, and whose intent local rows back. */
  lemma ValidatesExactly(head: Head, boundID: string, facts: Option<Facts>, r: Refund)
    ensures Validates(head, boundID, facts, r) <==>
            && facts.Some? && head.intent.Some? && Agrees(head.key, head.intent.value, r) && boundID in {"", r.id}
            && exists k: nat, m: nat :: Backs(head, head.intent.value, facts.value, k, m)
  {
    if facts.Some? { IntentHoldsExactly(head, facts.value); }
  }

  // ----- the provider query ----------------------------------------------------

  datatype Page = PageError | Page(data: seq<Refund>, hasMore: bool)
  datatype QueryOutcome = QueryError | QueryNone | QueryFound(refund: Refund)

  const MAX_PAGES := 100

  /** The refunds on pages [0..n). */
  function History(pages: seq<Page>, n: nat): seq<Refund>
    requires n <= |pages|
    requires forall i :: 0 <= i < n ==> pages[i].Page?
  {
    if n == 0 then [] else History(pages, n - 1) + pages[n - 1].data
  }

  /** Page n is the last page of a history whose earlier pages all say "more". */
  predicate CompleteAt(pages: seq<Page>, n: nat) {
    && n < |pages| && n < MAX_PAGES
    && (forall i :: 0 <= i < n ==> pages[i].Page? && pages[i].hasMore && pages[i].data != [])
    && pages[n].Page? && !pages[n].hasMore
  }

  /** What the query may answer. */
  ghost predicate Answers(key: string, boundID: string, pages: seq<Page>, direct: Option<Refund>, outcome: QueryOutcome) {
    if boundID != "" then outcome == if direct.Some? then QueryFound(direct.value) else QueryError
    else
      && (outcome.QueryNone? <==> exists n: nat :: CompleteAt(pages, n) && History(pages, n + 1) == [])
      && (forall r :: outcome == QueryFound(r) <==>
                      exists n: nat :: CompleteAt(pages, n) && History(pages, n + 1) == [r] && r.operationKey == key)
  }

  /**
   Querying all pages answers QueryNone only for a complete empty history and
   QueryFound only for a complete history whose single refund carries the key;
   everything else is an error, never "safe to post".
   */
  method FindOperationRefund(key: string, boundID: string, pages: seq<Page>, direct: Option<Refund>)
    returns (outcome: QueryOutcome)
    requires |pages| >= MAX_PAGES
    ensures Answers(key, boundID, pages, direct, outcome)
  {
    if boundID != "" {
      return if direct.Some? then QueryFound(direct.value) else QueryError;
    }
    var found: Option<Refund> := None;
    var page := 0;
    while page < MAX_PAGES
      invariant 0 <= page <= MAX_PAGES
      invariant forall i :: 0 <= i < page ==> pages[i].Page? && pages[i].hasMore && pages[i].data != []
      invariant History(pages, page) == if found.Some? then [found.value] else []
      invariant found.Some? ==> found.value.operationKey == key
      invariant found.None? <==> page == 0
    {
      if pages[page].PageError? {
        NoCompletion(pages, page);
        return QueryError;
      }
      var data := pages[page].data;
      ghost var before := History(pages, page);
      for i := 0 to |data|
        invariant before + data[..i] == if found.Some? then [found.value] else []
        invariant found.Some? ==> found.value.operationKey == key
      {
        assert data[..i + 1] == data[..i] + [data[i]];
        if data[i].operationKey != key || found.Some? {
          BadHistory(pages, page, key, i);
          return QueryError;
        }
        found := Some(data[i]);
      }
      assert data[..|data|] == data;
      if !pages[page].hasMore {
        assert CompleteAt(pages, page);
        OneCompletion(pages, page);
        return if found.Some? then QueryFound(found.value) else QueryNone;
      }
      if data == [] {
        NoCompletion(pages, page);
        return QueryError;
      }
      page := page + 1;
    }
    NoCompletionBelow(pages);
    return QueryError;
  }

  lemma OneCompletion(pages: seq<Page>, n: nat)
    requires CompleteAt(pages, n)
    ensures forall m: nat :: CompleteAt(pages, m) ==> m == n
  {
  }

  lemma NoCompletion(pages: seq<Page>, n: nat)
    requires n < |pages| && n < MAX_PAGES
    requires forall i :: 0 <= i < n ==> pages[i].Page? && pages[i].hasMore && pages[i].data != []
    requires pages[n].PageError? || (pages[n].hasMore && pages[n].data == [])
    ensures forall m: nat :: !CompleteAt(pages, m)
  {
  }

  lemma NoCompletionBelow(pages: seq<Page>)
    requires |pages| >= MAX_PAGES
    requires forall i :: 0 <= i < MAX_PAGES ==> pages[i].Page? && pages[i].hasMore
    ensures forall m: nat :: !CompleteAt(pages, m)
  {
  }

  lemma {:induction false} HistoryGrows(pages: seq<Page>, n: nat, m: nat)
    requires n <= m <= |pages|
    requires forall i :: 0 <= i < m ==> pages[i].Page?
    ensures History(pages, n) <= History(pages, m)
    decreases m
  {
    if n < m {
      HistoryGrows(pages, n, m - 1);
    }
  }

  /** A foreign refund, or a second one, on page `n` spoils every completion. */
  lemma BadHistory(pages: seq<Page>, n: nat, key: string, i: nat)
    requires n < |pages| && n < MAX_PAGES && pages[n].Page? && i < |pages[n].data|
    requires forall j :: 0 <= j < n ==> pages[j].Page? && pages[j].hasMore && pages[j].data != []
    requires pages[n].data[i].operationKey != key || |History(pages, n)| + i >= 1
    ensures forall m: nat :: CompleteAt(pages, m) ==>
              History(pages, m + 1) != [] && forall r :: History(pages, m + 1) == [r] ==> r.operationKey != key
  {
    forall m: nat | CompleteAt(pages, m)
      ensures History(pages, m + 1) != [] && forall r :: History(pages, m + 1) == [r] ==> r.operationKey != key
    {
      BadHistoryAt(pages, n, key, i, m);
    }
  }

  lemma BadHistoryAt(pages: seq<Page>, n: nat, key: string, i: nat, m: nat)
    requires n < |pages| && pages[n].Page? && i < |pages[n].data| && CompleteAt(pages, m)
    requires forall j :: 0 <= j < n ==> pages[j].Page? && pages[j].hasMore
    requires pages[n].data[i].operationKey != key || |History(pages, n)| + i >= 1
    ensures History(pages, m + 1) != [] && forall r :: History(pages, m + 1) == [r] ==> r.operationKey != key
  {
    HistoryGrows(pages, n + 1, m + 1);
    var upTo, all := History(pages, n + 1), History(pages, m + 1);
    assert upTo[|History(pages, n)| + i] == pages[n].data[i];
    assert all[|History(pages, n)| + i] == pages[n].data[i];
  }
}
