/**
 The sequential code behind the purchase protocol: the local subscription check,
 the outcome decision of reconcileSubscriptionPurchase, and the store that holds
 the account's purchase operations.
 */
module PurchaseService {
  import opened Finance
  import opened Text
  import P = PurchaseProtocol

  // ----- currentPurchaseSubscription ---------------------------------------------

  predicate Ended(s: Subscription) {
    s.kind != "subscription" || s.planID == "FREE"
    || s.status in {"canceled", "cancelled", "incomplete_expired", "expired", "refunded"}
  }

  predicate Proper(s: Subscription) {
    s.status == "active" && s.provider == "stripe" && HasPrefix(s.externalID, "sub_")
  }

  datatype Current = NeedsReconciliation | NoCurrent | Current(subscription: Subscription)

  /** Unended rows, in order. */
  function Unended(subs: seq<Subscription>): seq<Subscription> {
    if subs == [] then []
    else (if Ended(subs[0]) then [] else [subs[0]]) + Unended(subs[1..])
  }

  lemma {:induction false} UnendedSnoc(subs: seq<Subscription>, s: Subscription)
    ensures Unended(subs + [s]) == Unended(subs) + (if Ended(s) then [] else [s])
  {
    if subs == [] {
      assert subs + [s] == [s];
    } else {
      assert (subs + [s])[1..] == subs[1..] + [s];
      UnendedSnoc(subs[1..], s);
    }
  }

  lemma {:induction false} UnendedPrefix(a: seq<Subscription>, b: seq<Subscription>)
    ensures Unended(a + b) == Unended(a) + Unended(b)
  {
    if a == [] {
      assert a + b == b;
    } else {
      assert (a + b)[1..] == a[1..] + b;
      UnendedPrefix(a[1..], b);
    }
  }

  lemma {:induction false} UnendedIsEmptyExactly(subs: seq<Subscription>)
    ensures Unended(subs) == [] <==>
            forall i :: 0 <= i < |subs| ==>
                          || subs[i].kind != "subscription" || subs[i].planID == "FREE"
                          || subs[i].status in {"canceled", "cancelled", "incomplete_expired", "expired", "refunded"}
  {
    if subs != [] {
      assert forall i :: 0 <= i < |subs[1..]| ==> subs[1..][i] == subs[i + 1];
      UnendedIsEmptyExactly(subs[1..]);
      assert subs == [subs[0]] + subs[1..];
    }
  }

  lemma PrefixesDiffer(id: string)
    ensures "in_" <= id ==> !("cs_" <= id)
  {
    if "in_" <= id { assert id[0] == 'i'; }
  }

  /** The account may buy only with no unended row, or exactly one proper Stripe row. */
  method CurrentPurchaseSubscription(subs: seq<Subscription>) returns (r: Current)
    ensures r.NoCurrent? <==> Unended(subs) == []
    ensures r.Current? <==> |Unended(subs)| == 1 && Proper(Unended(subs)[0])
    ensures r.Current? ==> [r.subscription] == Unended(subs)
    ensures r.Current? ==> r.subscription.status == "active" && r.subscription.provider == "stripe" && "sub_" <= r.subscription.externalID
    ensures (|Unended(subs)| == 1 && Unended(subs)[0].status == "active" && Unended(subs)[0].provider == "stripe"
             && "sub_" <= Unended(subs)[0].externalID) ==> r.Current?
  {
    r := NoCurrent;
    for i := 0 to |subs|
      invariant Unended(subs[..i]) == if r.Current? then [r.subscription] else []
      invariant r.NoCurrent? || (r.Current? && Proper(r.subscription))
    {
      assert subs[..i + 1] == subs[..i] + [subs[i]];
      UnendedSnoc(subs[..i], subs[i]);
      assert subs == subs[..i + 1] + subs[i + 1..];
      UnendedPrefix(subs[..i + 1], subs[i + 1..]);
      if !Ended(subs[i]) {
        if !Proper(subs[i]) || r.Current? {
          return NeedsReconciliation;
        }
        r := Current(subs[i]);
      }
    }
    assert subs[..|subs|] == subs;
  }

  // ----- reconcileSubscriptionPurchase --------------------------------------------

  datatype Quote = Quote(userID: string, planID: string, priceID: string, fromPriceID: string, subscriptionID: string)
  datatype Session = Session(id: string, userID: string, planID: string, status: string, paymentStatus: string, subscription: string)
  datatype Remote = Remote(id: string, userID: string, status: string, priceID: string, pendingUpdate: bool)
  datatype InvoiceView = InvoiceView(id: string, subscription: string, status: string)
  datatype Period = Period(start: int, end: int)

  /** Provider answers; None is a failed call. */
  datatype Answers = Answers(session: Option<Session>, remote: Option<Remote>, invoice: Option<InvoiceView>)

  /** The local rows the webhook writes. */
  datatype Local = Local(subs: seq<Subscription>, profileQuota: Option<int>, profileRule: string, quotaPeriod: Option<Period>)
  datatype Plan = Plan(quota: int, period: Period) // `period` is subscriptionQuotaPeriod at this moment

  datatype Decision = Keep | Mismatch | ReleaseExpired | ReleasePaid

  /** The webhook projection of the paid purchase is in place. */
  predicate Projected(q: Quote, providerSub: string, plan: Plan, local: Local) {
    && (exists i :: 0 <= i < |local.subs| && local.subs[i].externalID == providerSub
                    && local.subs[i].planID == q.planID && local.subs[i].status == "active")
    && local.profileQuota == Some(plan.quota) && local.profileRule == "plan:" + q.planID
    && local.quotaPeriod == Some(plan.period)
  }

  /** What a checkout session and its subscription say about the purchase. */
  function SessionState(q: Quote, s: Session, remote: Option<Remote>): P.PurchaseState {
    if s.status == "expired" then P.Expired
    else if s.status == "complete" && s.paymentStatus == "paid" && remote.Some? && remote.value.id == s.subscription
            && remote.value.userID == q.userID && remote.value.status == "active" && remote.value.priceID == q.priceID
            && !remote.value.pendingUpdate
    then P.Paid
    else P.Live
  }

  /** What the upgraded subscription and its invoice say about the purchase. */
  function UpgradeState(q: Quote, remote: Remote, invoice: InvoiceView): P.PurchaseState {
    if remote.pendingUpdate then P.Live
    else if invoice.status == "void" && remote.priceID == q.fromPriceID then P.Expired
    else if invoice.status == "paid" && remote.priceID == q.priceID then P.Paid
    else P.Live
  }

  datatype View = View(state: P.PurchaseState, subscription: string)

  /** The purchase as the provider shows it, once every identity in the answers matches the reservation. */
  function Seen(providerID: string, userID: string, q: Quote, a: Answers): Option<View> {
    if HasPrefix(providerID, "cs_") then
      if a.session.None? || a.session.value.id != providerID || a.session.value.userID != userID || a.session.value.planID != q.planID
      then None
      else Some(View(SessionState(q, a.session.value, a.remote), a.session.value.subscription))
    else if HasPrefix(providerID, "in_") then
      if a.remote.None? || a.invoice.None? || a.remote.value.id != q.subscriptionID || a.remote.value.userID != userID
         || a.invoice.value.id != providerID || a.invoice.value.subscription != q.subscriptionID
      then None
      else Some(View(UpgradeState(q, a.remote.value, a.invoice.value), a.remote.value.id))
    else None
  }

  /** A provider call failed, or an answer belongs to something else than the reservation. */
  predicate Unmatched(providerID: string, userID: string, q: Quote, a: Answers) {
    if HasPrefix(providerID, "cs_") then
      || Seen(providerID, userID, q, a).None?
      || (a.session.value.status == "complete" && a.session.value.paymentStatus == "paid" && a.remote.None?)
    else HasPrefix(providerID, "in_") && Seen(providerID, userID, q, a).None?
  }

  /** A release is decided exactly for an expired or void purchase, and for a paid one whose projection is in place. */
  method ReconcileDecision(providerID: string, userID: string, q: Quote, a: Answers, plan: Plan, local: Local) returns (d: Decision)
    ensures d == ReleaseExpired <==> q.userID == userID && Seen(providerID, userID, q, a).Some?
                                     && Seen(providerID, userID, q, a).value.state == P.Expired
    ensures d == ReleasePaid <==> q.userID == userID && Seen(providerID, userID, q, a).Some?
                                  && Seen(providerID, userID, q, a).value.state == P.Paid
                                  && Projected(q, Seen(providerID, userID, q, a).value.subscription, plan, local)
    ensures d == Mismatch <==> providerID != "" && (q.userID != userID || Unmatched(providerID, userID, q, a))
    // the same over the raw answers: an upgrade by its invoice and its subscription
    ensures "in_" <= providerID ==>
              (d == ReleaseExpired <==>
                 && q.userID == userID && a.remote.Some? && a.invoice.Some?
                 && a.remote.value == Remote(q.subscriptionID, userID, a.remote.value.status, q.fromPriceID, false)
                 && a.invoice.value == InvoiceView(providerID, q.subscriptionID, "void"))
    ensures "in_" <= providerID ==>
              (d == ReleasePaid <==>
                 && q.userID == userID && a.remote.Some? && a.invoice.Some?
                 && a.remote.value == Remote(q.subscriptionID, userID, a.remote.value.status, q.priceID, false)
                 && a.invoice.value == InvoiceView(providerID, q.subscriptionID, "paid")
                 && (exists i :: 0 <= i < |local.subs| && local.subs[i].externalID == q.subscriptionID
                                 && local.subs[i].planID == q.planID && local.subs[i].status == "active")
                 && local.profileQuota == Some(plan.quota) && local.profileRule == "plan:" + q.planID
                 && local.quotaPeriod == Some(plan.period))
    // and a checkout by its session, once paid also by the subscription it opened
    ensures "cs_" <= providerID ==>
              (d == ReleaseExpired <==>
                 && q.userID == userID && a.session.Some?
                 && var s := a.session.value; s == Session(providerID, userID, q.planID, "expired", s.paymentStatus, s.subscription))
    ensures "cs_" <= providerID ==>
              (d == ReleasePaid <==>
                 && q.userID == userID && a.session.Some? && a.remote.Some?
                 && var sub := a.session.value.subscription;
                 && a.session.value == Session(providerID, userID, q.planID, "complete", "paid", sub)
                 && a.remote.value == Remote(sub, userID, "active", q.priceID, false)
                 && (exists i :: 0 <= i < |local.subs| && local.subs[i].externalID == sub
                                 && local.subs[i].planID == q.planID && local.subs[i].status == "active")
                 && local.profileQuota == Some(plan.quota) && local.profileRule == "plan:" + q.planID
                 && local.quotaPeriod == Some(plan.period))
    ensures !("in_" <= providerID) && !("cs_" <= providerID) ==> d == Keep || d == Mismatch
  {
    PrefixesDiffer(providerID);
    if providerID == "" { return Keep; }
    if q.userID != userID { return Mismatch; }
    var providerSub := "";
    var expired, paid := false, false;
    if HasPrefix(providerID, "cs_") {
      if a.session.None? { return Mismatch; }
      var session := a.session.value;
      if session.id != providerID || session.userID != userID || session.planID != q.planID { return Mismatch; }
      expired := session.status == "expired";
      paid := session.status == "complete" && session.paymentStatus == "paid";
      providerSub := session.subscription;
      if paid {
        if a.remote.None? { return Mismatch; }
        var settled := a.remote.value;
        paid := settled.id == providerSub && settled.userID == userID && settled.status == "active"
                && settled.priceID == q.priceID && !settled.pendingUpdate;
      }
    } else if HasPrefix(providerID, "in_") {
      if a.remote.None? { return Mismatch; }
      var sub := a.remote.value;
      if sub.id != q.subscriptionID || sub.userID != userID { return Mismatch; }
      providerSub := sub.id;
      if a.invoice.None? { return Mismatch; }
      var invoice := a.invoice.value;
      if invoice.id != providerID || invoice.subscription != q.subscriptionID { return Mismatch; }
      paid := invoice.status == "paid" && sub.priceID == q.priceID && !sub.pendingUpdate;
      expired := !sub.pendingUpdate && sub.priceID == q.fromPriceID && invoice.status == "void";
    }
    if paid {
      var projected := false;
      for i := 0 to |local.subs|
        invariant projected <==> exists k :: 0 <= k < i && local.subs[k].externalID == providerSub
                                             && local.subs[k].planID == q.planID && local.subs[k].status == "active"
      {
        if local.subs[i].externalID == providerSub && local.subs[i].planID == q.planID && local.subs[i].status == "active" {
          projected := true;
        }
      }
      paid := projected && local.profileQuota == Some(plan.quota) && local.profileRule == "plan:" + q.planID
              && local.quotaPeriod == Some(plan.period);
    }
    if expired { return ReleaseExpired; }
    if paid { return ReleasePaid; }
    return Keep;
  }

  // ----- the store ------------------------------------------------------------------

  class PurchaseStore {
    var ops: seq<P.Op>
    var busy: Option<nat>

    constructor ()
      ensures ops == [] && busy.None?
    {
      ops, busy := [], None;
    }

    ghost function World(rest: P.State): P.State
      reads this
    {
      rest.(ops := ops, busy := busy)
    }

    /** ReserveSubscriptionAction: refuse while the lifecycle gate or any operation is pending. */
    method Reserve(now: int, ghost h: nat, ghost rest: P.State) returns (r: Option<nat>)
      requires h !in rest.handlers
      modifies this
      ensures r.Some? <==> old(busy).None? && forall i :: 0 <= i < |old(ops)| ==> !P.Pending(old(ops)[i])
      ensures r.Some? ==> r.value == |old(ops)|
                          && P.Apply(old(World(rest)), P.Reserve(h, now)) == P.Put(World(rest), h, P.Rechecking(r.value))
      ensures r.None? ==> World(rest) == old(World(rest)) == P.Apply(old(World(rest)), P.Reserve(h, now))
    {
      if busy.Some? { return None; }
      for i := 0 to |ops|
        invariant ops == old(ops) && busy == old(busy)
        invariant forall k :: 0 <= k < i ==> !P.Pending(ops[k])
      {
        if P.Pending(ops[i]) { return None; }
      }
      r := Some(|ops|);
      busy := Some(|ops|);
      ops := ops + [P.Op(InProgress, "", now)];
    }

    /** UpdateSubscriptionPurchase without completion: the reference is write-once. */
    method SaveReference(op: nat, providerID: string)
      requires op < |ops|
      modifies this`ops
      ensures ops == if P.Pending(old(ops)[op]) && old(ops)[op].providerID in {"", providerID}
                     then old(ops)[op := old(ops)[op].(status := ReconcileNeeded, providerID := providerID)] else old(ops)
    {
      if ops[op].providerID != "" && ops[op].providerID != providerID { return; }
      if ops[op].status == Succeeded || ops[op].status == Failed { return; }
      ops := ops[op := ops[op].(status := ReconcileNeeded, providerID := providerID)];
    }

    /** FinishSubscriptionAction; `rest` supplies the parts the store does not hold. */
    method Finish(op: nat, providerID: string, confirmed: bool, ghost rest: P.State) returns (finished: bool)
      requires op < |ops|
      modifies this
      ensures finished <==> P.CanFinish(old(World(rest)), op, providerID)
      ensures World(rest) == if finished then P.Finished(old(World(rest)), op, providerID, confirmed) else old(World(rest))
    {
      finished := false;
      if ops[op].providerID != "" && ops[op].providerID != providerID { return; }
      if ops[op].status == Succeeded || ops[op].status == Failed { return; }
      if busy != Some(op) { return; }
      ops := ops[op := ops[op].(status := if confirmed then Succeeded else Failed, providerID := providerID)];
      busy := None;
      finished := true;
    }
  }
}
