/**
 A refunded subscription stays refunded: no sequence of webhook events, in any
 order and with any replays, turns its old payment back into paid access.
 */
module RefundedAccess {
  import opened Finance
  import opened Text
  import opened RefundLedger
  import opened Webhooks

  /** The subscription object an event processes, if any. */
  function SourceOf(e: Event): Option<Source> {
    match e
    case CheckoutSubscription(src, _) => Some(src)
    case SubscriptionChanged(src, _, _) => Some(src)
    case SubscriptionDeleted(src, _, _) => Some(src)
    case InvoicePaid(src, _, _) => Some(src)
    case InvoiceFailed(src, _) => Some(src)
    case ChargeRefunded(src, _) => Some(src)
    case CheckoutPayment(_) => None
    case RefundReported(_, _) => None
    case RefundOperation(_) => None
  }

  /** Events about the subscription carry its owner and the invoice `inv` as its latest. */
  predicate Speaks(e: Event, user: string, subscription: string, inv: string) {
    && (SourceOf(e).Some? && Trim(SourceOf(e).value.id) == subscription ==>
          SourceOf(e).value.userID == user && Trim(SourceOf(e).value.latestInvoice) == inv)
    && (e.CheckoutPayment? ==> e.row.sub.externalID != subscription)
  }

  predicate About(e: Effect, subscription: string) {
    match e
    case PlanApplied(s, _) => s == subscription
    case QuotaGranted(s) => s == subscription
    case Downgraded => false
  }

  /** `b`'s log extends `a`'s by effects of other subscriptions only. */
  predicate NoNewEffect(a: Account, b: Account, subscription: string) {
    a.log <= b.log && forall i :: |a.log| <= i < |b.log| ==> !About(b.log[i], subscription)
  }

  predicate StaysOut(status: Option<string>) {
    status.None? || status == Some("refunded")
  }

  /** The account projections of the subscription are as they were. */
  predicate Calm(a: Account, b: Account, subscription: string) {
    && b.user == a.user && Status(b, subscription) == Status(a, subscription) && NoNewEffect(a, b, subscription)
  }

  // ----- rows ------------------------------------------------------------------------

  lemma {:induction false} IndexAfterUpdate(rows: seq<Row>, i: nat, row: Row, id: string)
    requires i < |rows| && row.sub.externalID == rows[i].sub.externalID
    ensures RowIndex(rows[i := row], id) == RowIndex(rows, id)
  {
    if rows[0].sub.externalID != id {
      if i == 0 {
        assert rows[i := row][1..] == rows[1..];
      } else {
        assert rows[i := row][1..] == rows[1..][i - 1 := row];
        IndexAfterUpdate(rows[1..], i - 1, row, id);
      }
    }
  }

  lemma {:induction false} IndexAfterAppend(rows: seq<Row>, row: Row, id: string)
    requires row.sub.externalID != id
    ensures RowIndex(rows + [row], id) == RowIndex(rows, id)
  {
    if rows == [] {
      assert rows + [row] == [row];
      assert [row][1..] == [];
    } else {
      assert (rows + [row])[1..] == rows[1..] + [row];
      if rows[0].sub.externalID != id { IndexAfterAppend(rows[1..], row, id); }
    }
  }

  lemma PutRowElsewhere(a: Account, row: Row, id: string)
    requires row.sub.externalID != id
    ensures Status(a.(rows := PutRow(a.rows, row)), id) == Status(a, id)
  {
    var i := RowIndex(a.rows, row.sub.externalID);
    if i.Some? {
      IndexAfterUpdate(a.rows, i.value, row.(sub := row.sub.(id := a.rows[i.value].sub.id)), id);
    } else {
      IndexAfterAppend(a.rows, row, id);
    }
  }

  lemma {:induction false} IndexAfterSupersede(rows: seq<Row>, id: string)
    ensures RowIndex(Supersede(rows), id) == RowIndex(rows, id)
  {
    if rows != [] && rows[0].sub.externalID != id {
      assert Supersede(rows)[1..] == Supersede(rows[1..]);
      IndexAfterSupersede(rows[1..], id);
    }
  }

  /** Superseding trials never rewrites a refunded row. */
  lemma SupersedeKeeps(a: Account, id: string)
    requires StaysOut(Status(a, id))
    ensures Status(a.(rows := Supersede(a.rows)), id) == Status(a, id)
  {
    IndexAfterSupersede(a.rows, id);
    assert Trim("refunded") == "refunded" && |Lower("refunded")| != |Lower("active")|;
  }

  /** Revoking leaves the named row refunded, and any other row's status alone. */
  lemma RevokeStatus(a: Account, refundedID: string, env: Env, id: string)
    ensures Status(Revoke(a, refundedID, env), id)
            == if id == Trim(refundedID) && Status(a, id).Some? then Some("refunded") else Status(a, id)
    ensures Revoke(a, refundedID, env).ledger == a.ledger && Revoke(a, refundedID, env).user == a.user
    ensures NoNewEffect(a, Revoke(a, refundedID, env), id)
  {
    var i := RowIndex(a.rows, Trim(refundedID));
    if i.Some? {
      IndexAfterUpdate(a.rows, i.value, MarkRefunded(a, i.value).rows[i.value], id);
    }
  }

  // ----- one event --------------------------------------------------------------------

  /** The premise every handler step needs: a source naming the subscription passes the guard. */
  predicate Guarded(a: Account, src: Source, subscription: string) {
    Trim(src.id) == subscription ==> src.userID == a.user && Guard(a.ledger, src)
  }

  lemma RevokeCalm(a: Account, refundedID: string, env: Env, subscription: string)
    requires StaysOut(Status(a, subscription))
    ensures Calm(a, Revoke(a, refundedID, env), subscription) && Revoke(a, refundedID, env).ledger == a.ledger
  {
    RevokeStatus(a, refundedID, env, subscription);
  }

  lemma UpsertCalm(a: Account, src: Source, env: Env, subscription: string)
    requires StaysOut(Status(a, subscription)) && Guarded(a, src, subscription)
    ensures Calm(a, Upsert(a, src, env), subscription) && Upsert(a, src, env).ledger == a.ledger
  {
    RevokeCalm(a, src.id, env, subscription);
    if Trim(src.id) != subscription {
      PutRowElsewhere(a, NewRow(src), subscription);
    }
  }

  lemma GrantCalm(a: Account, src: Source, plan: Plan, grants: bool, clears: bool, subscription: string)
    requires Trim(src.id) != subscription
    ensures Calm(a, Grant(a, src, plan, grants, clears), subscription) && Grant(a, src, plan, grants, clears).ledger == a.ledger
  {
  }

  lemma ApplySyncCalm(a: Account, src: Source, created: bool, env: Env, subscription: string)
    requires StaysOut(Status(a, subscription)) && Trim(src.id) != subscription && env.invoice.Some? && src.plan.Some?
    ensures Calm(a, ApplySync(a, src, created, env), subscription) && ApplySync(a, src, created, env).ledger == a.ledger
  {
    var plan, activation := src.plan.value, Activation(a, env.invoice.value.billingReason);
    GrantCalm(a, src, plan, activation || created || Upgraded(a, plan), activation || created, subscription);
    SupersedeKeeps(a, subscription);
  }

  lemma SyncCalm(a: Account, src: Source, created: bool, env: Env, subscription: string)
    requires StaysOut(Status(a, subscription)) && Guarded(a, src, subscription)
    ensures Calm(a, Sync(a, src, created, env), subscription) && Sync(a, src, created, env).ledger == a.ledger
  {
    RevokeCalm(a, src.id, env, subscription);
    if Trim(src.id) != subscription && SyncDue(src, env) { ApplySyncCalm(a, src, created, env, subscription); }
  }

  lemma CalmTransitive(a: Account, b: Account, c: Account, subscription: string)
    requires Calm(a, b, subscription) && Calm(b, c, subscription)
    ensures Calm(a, c, subscription)
  {
  }

  /** The part of a paid invoice after the payment was recorded. */
  lemma SettleCalm(c: Account, src: Source, bill: Bill, env: Env, subscription: string)
    requires StaysOut(Status(c, subscription)) && Guarded(c, src, subscription)
    ensures Calm(c, Settle(c, src, bill, env), subscription) && Settle(c, src, bill, env).ledger == c.ledger
  {
    RevokeCalm(c, src.id, env, subscription);
    if Trim(src.id) != subscription && src.plan.Some? {
      var clears := Activation(c, bill.billingReason) || !Upgraded(c, src.plan.value);
      GrantCalm(c, src, src.plan.value, true, clears, subscription);
    }
  }

  /** The ledger an event leaves when it records a paid invoice. */
  function LedgerAfter(a: Account, e: Event): Ledger {
    if e.InvoicePaid? && e.bill.Some? && Trim(e.src.userID) == a.user && !UpsertFails(a, e.src, e.env)
    then RecordPaid(Upsert(a, e.src, e.env).rows, a.ledger, e.src, e.bill.value).0 else a.ledger
  }

  lemma PaidInvoiceCalm(a: Account, e: Event, subscription: string)
    requires StaysOut(Status(a, subscription)) && e.InvoicePaid? && Guarded(a, e.src, subscription)
    requires Guarded(a.(ledger := LedgerAfter(a, e)), e.src, subscription)
    ensures Calm(a, Handle(a, e), subscription) && Handle(a, e).ledger == LedgerAfter(a, e)
  {
    var b := Upsert(a, e.src, e.env);
    UpsertCalm(a, e.src, e.env, subscription);
    if e.bill.Some? {
      var c := b.(ledger := LedgerAfter(a, e));
      SettleCalm(c, e.src, e.bill.value, e.env, subscription);
      CalmTransitive(a, c, Settle(c, e.src, e.bill.value, e.env), subscription);
    }
  }

  lemma SourceCalm(a: Account, e: Event, subscription: string)
    requires StaysOut(Status(a, subscription)) && SourceOf(e).Some? && !e.InvoicePaid?
    requires Guarded(a, SourceOf(e).value, subscription)
    ensures Calm(a, Handle(a, e), subscription) && Handle(a, e).ledger == a.ledger
  {
    match e {
      case CheckoutSubscription(src, env) =>
        UpsertCalm(a, src, env, subscription);
        SyncCalm(Upsert(a, src, env), src, true, env, subscription);
        CalmTransitive(a, Upsert(a, src, env), Handle(a, e), subscription);
      case SubscriptionChanged(src, created, env) =>
        UpsertCalm(a, src, env, subscription);
        SyncCalm(Upsert(a, src, env), src, created, env, subscription);
        CalmTransitive(a, Upsert(a, src, env), Handle(a, e), subscription);
      case SubscriptionDeleted(src, _, env) => UpsertCalm(a, src, env, subscription);
      case InvoiceFailed(src, env) => UpsertCalm(a, src, env, subscription);
      case ChargeRefunded(src, env) =>
        UpsertCalm(a, src.(status := "refunded"), env, subscription);
        RevokeCalm(Upsert(a, src.(status := "refunded"), env), src.id, env, subscription);
    }
  }

  lemma ReportedRefundCalm(a: Account, e: Event, subscription: string)
    requires StaysOut(Status(a, subscription)) && e.RefundReported?
    ensures Calm(a, Handle(a, e), subscription)
    ensures Handle(a, e).ledger == Apply(a.ledger, RefundSettled(e.fact))
  {
    var b := a.(ledger := AddRefund(a.ledger, e.fact).0);
    forall k | 0 <= k < |a.rows|
      ensures Calm(b, Revoke(b, a.rows[k].sub.externalID, e.env), subscription)
              && Revoke(b, a.rows[k].sub.externalID, e.env).ledger == b.ledger
    {
      RevokeCalm(b, a.rows[k].sub.externalID, e.env, subscription);
    }
  }

  // ----- whole runs ------------------------------------------------------------------

  /** The invoice is refunded in the ledger and the row, if there is one, says so. */
  ghost predicate Quiet(a: Account, subscription: string, inv: string) {
    a.user != "" && Sealed(a.ledger, a.user, inv) && StaysOut(Status(a, subscription))
  }

  lemma SealGuards(a: Account, src: Source, subscription: string, inv: string)
    requires a.user != "" && Sealed(a.ledger, a.user, inv)
    requires Trim(src.id) == subscription ==> src.userID == a.user && Trim(src.latestInvoice) == inv
    ensures Guarded(a, src, subscription)
  {
  }

  lemma LedgerAfterIsSealed(a: Account, e: Event, inv: string)
    requires Sealed(a.ledger, a.user, inv)
    ensures Sealed(LedgerAfter(a, e), a.user, inv)
  {
    if e.InvoicePaid? && e.bill.Some? {
      RecordPaidKeepsSeal(Upsert(a, e.src, e.env).rows, a.ledger, a.user, inv, e.src, e.bill.value);
    }
  }

  lemma EventStaysQuiet(a: Account, e: Event, subscription: string, inv: string)
    requires Quiet(a, subscription, inv) && Speaks(e, a.user, subscription, inv)
    ensures Quiet(Handle(a, e), subscription, inv) && Calm(a, Handle(a, e), subscription)
  {
    if SourceOf(e).Some? {
      var src := SourceOf(e).value;
      SealGuards(a, src, subscription, inv);
      if e.InvoicePaid? {
        LedgerAfterIsSealed(a, e, inv);
        SealGuards(a.(ledger := LedgerAfter(a, e)), e.src, subscription, inv);
        PaidInvoiceCalm(a, e, subscription);
      } else {
        SourceCalm(a, e, subscription);
      }
    } else {
      match e {
        case CheckoutPayment(row) => PutRowElsewhere(a, row, subscription);
        case RefundReported(fact, _) =>
          ReportedRefundCalm(a, e, subscription);
          StepKeepsSeal(a.ledger, a.user, inv, RefundSettled(fact));
        case RefundOperation(step) =>
          if step.Begun? || step.Finished? || step.RefundSettled? { StepKeepsSeal(a.ledger, a.user, inv, step); }
      }
    }
  }

  /** However events are ordered or replayed, the refunded row keeps its status and
      neither its plan nor its quota is applied again. */
  lemma {:induction false} RefundedStaysRefunded(a: Account, events: seq<Event>, subscription: string, inv: string)
    requires Quiet(a, subscription, inv)
    requires forall i :: 0 <= i < |events| ==> Speaks(events[i], a.user, subscription, inv)
    ensures Quiet(HandleAll(a, events), subscription, inv) && Calm(a, HandleAll(a, events), subscription)
    decreases |events|
  {
    if events != [] {
      var b := Handle(a, events[0]);
      EventStaysQuiet(a, events[0], subscription, inv);
      RefundedStaysRefunded(b, events[1..], subscription, inv);
      CalmTransitive(a, b, HandleAll(a, events), subscription);
    }
  }

  lemma GuardedInvoiceRefundsRow(a: Account, e: Event, subscription: string)
    requires e.InvoicePaid? && Trim(e.src.id) == subscription && Trimmed(a.user)
    requires Guarded(a, e.src, subscription) && Guarded(a.(ledger := LedgerAfter(a, e)), e.src, subscription)
    ensures Status(Handle(a, e), subscription) == if Status(a, subscription).Some? then Some("refunded") else None
    ensures NoNewEffect(a, Handle(a, e), subscription)
  {
    var b := Revoke(a, e.src.id, e.env);
    RevokeStatus(a, e.src.id, e.env, subscription);
    assert Upsert(a, e.src, e.env) == b;
    var c := b.(ledger := LedgerAfter(a, e));
    RevokeStatus(c, e.src.id, e.env, subscription);
    assert Handle(a, e) == b || Handle(a, e) == c || Handle(a, e) == Revoke(c, e.src.id, e.env);
  }

  /** Whatever the row said before, one event whose source passes the guard, for a paid
      invoice also after it was recorded, leaves the row refunded. */
  lemma GuardedEventRefundsRow(a: Account, e: Event, subscription: string)
    requires SourceOf(e).Some? && Trim(SourceOf(e).value.id) == subscription && Trimmed(a.user)
    requires Guarded(a, SourceOf(e).value, subscription)
    requires Guarded(a.(ledger := LedgerAfter(a, e)), SourceOf(e).value, subscription)
    ensures Status(Handle(a, e), subscription) == if Status(a, subscription).Some? then Some("refunded") else None
    ensures NoNewEffect(a, Handle(a, e), subscription)
  {
    var src := SourceOf(e).value;
    var env := e.env;
    RevokeStatus(a, src.id, env, subscription);
    var b := Revoke(a, src.id, env);
    RevokeStatus(b, src.id, env, subscription);
    assert b.ledger == a.ledger;
    match e {
      case CheckoutSubscription(_, _) =>
        assert Handle(a, e) == Revoke(b, src.id, env);
      case SubscriptionChanged(_, _, _) =>
        assert Handle(a, e) == Revoke(b, src.id, env);
      case ChargeRefunded(_, _) =>
        assert Guard(a.ledger, src.(status := "refunded"));
        assert Handle(a, e) == Revoke(b, src.id, env);
      case InvoicePaid(_, _, _) => GuardedInvoiceRefundsRow(a, e, subscription);
      case SubscriptionDeleted(_, _, _) =>
      case InvoiceFailed(_, _) =>
    }
  }

  /** While the invoice is refunded in the ledger, any event that carries it marks the row
      refunded, whatever the row said before. */
  lemma SealedEventRefundsRow(a: Account, e: Event, subscription: string, inv: string)
    requires a.user != "" && Trimmed(a.user) && Sealed(a.ledger, a.user, inv) && Speaks(e, a.user, subscription, inv)
    requires SourceOf(e).Some? && Trim(SourceOf(e).value.id) == subscription
    ensures Status(Handle(a, e), subscription) == if Status(a, subscription).Some? then Some("refunded") else None
    ensures NoNewEffect(a, Handle(a, e), subscription)
  {
    var src := SourceOf(e).value;
    SealGuards(a, src, subscription, inv);
    LedgerAfterIsSealed(a, e, inv);
    SealGuards(a.(ledger := LedgerAfter(a, e)), src, subscription, inv);
    GuardedEventRefundsRow(a, e, subscription);
  }

  // ----- exactly when the guard is passed by ------------------------------------------

  /** A refunded row is rewritten exactly when the guard does not see the refund and
      the object is not an unpaid "active" one. */
  lemma UpsertReopensExactly(a: Account, src: Source, env: Env)
    requires Status(a, Trim(src.id)) == Some("refunded") && Trim(src.userID) == a.user
    ensures Status(Upsert(a, src, env), Trim(src.id)) != Some("refunded") <==>
            !Guard(a.ledger, src) && (src.status == "active" ==> PaidNow(src, env)) && NormalStatus(src) != "refunded"
  {
    RevokeStatus(a, src.id, env, Trim(src.id));
    var i := RowIndex(a.rows, Trim(src.id));
    var row := NewRow(src).(sub := NewRow(src).sub.(id := a.rows[i.value].sub.id));
    IndexAfterUpdate(a.rows, i.value, row, Trim(src.id));
  }

  /** An upsert that ends in an error ends the event: nothing at all is changed. */
  lemma FailedUpsertStopsEvent(a: Account, e: Event)
    requires SourceOf(e).Some? && !e.ChargeRefunded? && UpsertFails(a, SourceOf(e).value, e.env)
    ensures Handle(a, e) == a
  {
    match e {
      case CheckoutSubscription(src, env) => FailedUpsertStopsSync(a, src, true, env);
      case SubscriptionChanged(src, created, env) => FailedUpsertStopsSync(a, src, created, env);
      case _ =>
    }
  }

  /** In particular a scheduled plan is not granted by an invoice of another phase, even
      one that is paid, is the latest and has a plan. */
  lemma OtherPhaseGrantsNothing(a: Account, src: Source, bill: Bill, env: Env)
    requires Trim(src.userID) == a.user && src.status == "active" && src.scheduled && !src.pendingUpdate && !Guard(a.ledger, src)
    requires Trim(src.latestInvoice) == bill.id != "" && src.plan.Some?
    requires env.invoice.Some? && env.invoice.value.status == "paid" && env.invoice.value.subscription == src.id && !env.invoice.value.matchesPhase
    ensures Handle(a, InvoicePaid(src, Some(bill), env)) == a
  {
    FailedUpsertStopsEvent(a, InvoicePaid(src, Some(bill), env));
  }

  /** When the sync of a source applies its plan. */
  predicate SyncApplies(a: Account, src: Source, created: bool, env: Env) {
    && !Guard(a.ledger, src) && Lower(Trim(src.status)) in {"active", "trialing"} && PaidNow(src, env) && src.plan.Some?
    && !SyncBlocked(a, src, created, env)
  }

  /** The plan is applied again exactly when the guard does not see the refund, the current
      object is active, paid and resolvable, and the store takes the quota change. */
  lemma SyncAppliesExactly(a: Account, src: Source, created: bool, env: Env)
    requires Trim(src.userID) == a.user
    ensures !NoNewEffect(a, Sync(a, src, created, env), Trim(src.id)) <==> SyncApplies(a, src, created, env)
  {
    SyncShows(a, src, created, env, Trim(src.id));
  }

  /** The local row a paid invoice needs is there, or the upsert before it puts it there. */
  predicate RowAtHand(a: Account, src: Source, env: Env) {
    HasLocal(a.rows, src.id) || (UpsertWrites(a, src, env) && Trim(src.id) == src.id)
  }

  /** When a paid invoice is recorded without an error, and the ledger it then leaves. */
  predicate Recorded(a: Account, src: Source, bill: Bill, env: Env) {
    || Unrecorded(bill)
    || (bill.paidAt > 0 && Trim(bill.subscription) == Trim(src.id) && RowAtHand(a, src, env) && RecordFacts(a.ledger, bill).1)
  }

  function Booked(a: Account, bill: Bill): Ledger {
    if Unrecorded(bill) then a.ledger else RecordFacts(a.ledger, bill).0
  }

  /** When a paid invoice applies the plan of its subscription. */
  predicate InvoiceApplies(a: Account, src: Source, bill: Bill, env: Env) {
    && !UpsertFails(a, src, env) && Recorded(a, src, bill, env) && !Guard(Booked(a, bill), src)
    && !src.pendingUpdate && Trim(src.latestInvoice) == bill.id && src.plan.Some?
    && !BillBlocked(Upsert(a, src, env), src, bill, env)
  }

  lemma StripeIsStripe()
    ensures EqualFold("stripe", "stripe")
  {
  }

  lemma LocalAfterPut(rows: seq<Row>, src: Source)
    ensures HasLocal(PutRow(rows, NewRow(src)), src.id) <==> HasLocal(rows, src.id) || Trim(src.id) == src.id
  {
    StripeIsStripe();
    var after, i := PutRow(rows, NewRow(src)), RowIndex(rows, Trim(src.id));
    if Trim(src.id) == src.id {
      assert IsLocal(after[if i.Some? then i.value else |rows|], src.id);
    } else {
      if HasLocal(rows, src.id) {
        var k :| 0 <= k < |rows| && IsLocal(rows[k], src.id);
        assert IsLocal(after[k], src.id);
      }
      if HasLocal(after, src.id) {
        var k :| 0 <= k < |after| && IsLocal(after[k], src.id);
        assert IsLocal(rows[k], src.id);
      }
    }
  }

  lemma LocalAfterRevoke(a: Account, refundedID: string, env: Env, id: string)
    ensures HasLocal(Revoke(a, refundedID, env).rows, id) <==> HasLocal(a.rows, id)
  {
    var after := Revoke(a, refundedID, env).rows;
    assert |after| == |a.rows| && forall k :: 0 <= k < |after| ==> (IsLocal(after[k], id) <==> IsLocal(a.rows[k], id));
  }

  lemma RowIsAtHand(a: Account, src: Source, env: Env)
    ensures HasLocal(Upsert(a, src, env).rows, src.id) <==> RowAtHand(a, src, env)
  {
    LocalAfterPut(a.rows, src);
    LocalAfterRevoke(a, src.id, env, src.id);
  }

  /** The recording after the upsert, in terms of the account before it. */
  lemma RecordingExactly(a: Account, src: Source, bill: Bill, env: Env)
    ensures var (l, ok) := RecordPaid(Upsert(a, src, env).rows, a.ledger, src, bill);
            (ok <==> Recorded(a, src, bill, env)) && (ok ==> l == Booked(a, bill))
  {
    RowIsAtHand(a, src, env);
  }

  lemma EffectsCompose(a: Account, b: Account, c: Account, subscription: string)
    requires NoNewEffect(a, b, subscription) && b.log <= c.log
    ensures NoNewEffect(a, c, subscription) <==> NoNewEffect(b, c, subscription)
  {
    assert forall i :: 0 <= i < |b.log| ==> b.log[i] == c.log[i];
  }

  /** A granted plan shows as a new effect of its own subscription and no other. */
  lemma GrantShows(a: Account, src: Source, plan: Plan, grants: bool, clears: bool, subscription: string)
    ensures a.log <= Grant(a, src, plan, grants, clears).log
    ensures NoNewEffect(a, Grant(a, src, plan, grants, clears), subscription) <==> Trim(src.id) != subscription
  {
    var b := Grant(a, src, plan, grants, clears);
    assert b.log[|a.log|] == PlanApplied(Trim(src.id), plan.id);
    if Trim(src.id) == subscription { assert About(b.log[|a.log|], subscription); }
  }

  lemma UpsertShows(a: Account, src: Source, env: Env, subscription: string)
    ensures NoNewEffect(a, Upsert(a, src, env), subscription)
    ensures Upsert(a, src, env).ledger == a.ledger && Upsert(a, src, env).user == a.user
    ensures !Guard(a.ledger, src) ==> Upsert(a, src, env).profile == a.profile && Upsert(a, src, env).profileQuota == a.profileQuota
  {
    RevokeStatus(a, src.id, env, subscription);
  }

  lemma SyncShows(a: Account, src: Source, created: bool, env: Env, subscription: string)
    ensures a.log <= Sync(a, src, created, env).log
    ensures !NoNewEffect(a, Sync(a, src, created, env), subscription) <==>
            Trim(src.id) == subscription && Trim(src.userID) == a.user && SyncApplies(a, src, created, env)
  {
    if Trim(src.userID) == a.user && SyncApplies(a, src, created, env) {
      var plan, activation := src.plan.value, Activation(a, env.invoice.value.billingReason);
      GrantShows(a, src, plan, activation || created || Upgraded(a, plan), activation || created, subscription);
    } else {
      RevokeStatus(a, src.id, env, subscription);
    }
  }

  lemma SettleShows(a: Account, c: Account, src: Source, bill: Bill, env: Env, subscription: string)
    requires NoNewEffect(a, c, subscription)
    ensures a.log <= Settle(c, src, bill, env).log
    ensures !NoNewEffect(a, Settle(c, src, bill, env), subscription) <==>
            && Trim(src.id) == subscription && !Guard(c.ledger, src) && !src.pendingUpdate && Trim(src.latestInvoice) == bill.id
            && src.plan.Some? && !BillBlocked(c, src, bill, env)
  {
    var d := Settle(c, src, bill, env);
    RevokeStatus(c, src.id, env, subscription);
    if src.plan.Some? {
      GrantShows(c, src, src.plan.value, true, Activation(c, bill.billingReason) || !Upgraded(c, src.plan.value), subscription);
    }
    EffectsCompose(a, c, d, subscription);
  }

  /** A paid invoice applies the plan exactly when the upsert before it does not fail, it is
      recorded or leaves no facts, the ledger then does not show the latest invoice as
      refunded, no update is pending, it is the latest one, the plan resolves and the store
      takes the quota change. */
  lemma PaidInvoiceAppliesExactly(a: Account, src: Source, bill: Option<Bill>, env: Env, subscription: string)
    ensures a.log <= PaidInvoice(a, src, bill, env).log
    ensures !NoNewEffect(a, PaidInvoice(a, src, bill, env), subscription) <==>
            Trim(src.id) == subscription && Trim(src.userID) == a.user && bill.Some? && InvoiceApplies(a, src, bill.value, env)
  {
    var b := Upsert(a, src, env);
    UpsertShows(a, src, env, subscription);
    if bill.Some? {
      var c := b.(ledger := RecordPaid(b.rows, b.ledger, src, bill.value).0);
      RecordingExactly(a, src, bill.value, env);
      SettleShows(a, c, src, bill.value, env, subscription);
    }
  }

  /** When an event applies the subscription's plan or grants its quota. */
  predicate Applies(a: Account, e: Event, subscription: string) {
    match e
    case CheckoutSubscription(src, env) => Trim(src.id) == subscription && Trim(src.userID) == a.user && SyncApplies(a, src, true, env)
    case SubscriptionChanged(src, created, env) => Trim(src.id) == subscription && Trim(src.userID) == a.user && SyncApplies(a, src, created, env)
    case InvoicePaid(src, bill, env) =>
      Trim(src.id) == subscription && Trim(src.userID) == a.user && bill.Some? && InvoiceApplies(a, src, bill.value, env)
    case _ => false
  }

  lemma SyncedShows(a: Account, src: Source, created: bool, env: Env, subscription: string)
    ensures !NoNewEffect(a, Sync(Upsert(a, src, env), src, created, env), subscription) <==>
            Trim(src.id) == subscription && Trim(src.userID) == a.user && SyncApplies(a, src, created, env)
  {
    UpsertShows(a, src, env, subscription);
    SyncShows(Upsert(a, src, env), src, created, env, subscription);
    EffectsCompose(a, Upsert(a, src, env), Sync(Upsert(a, src, env), src, created, env), subscription);
  }

  lemma ReportShows(a: Account, fact: RefundFact, env: Env, subscription: string)
    ensures NoNewEffect(a, ReportedRefund(a, fact, env), subscription)
  {
    var b := a.(ledger := AddRefund(a.ledger, fact).0);
    forall id ensures NoNewEffect(b, Revoke(b, id, env), subscription) { RevokeStatus(b, id, env, subscription); }
  }

  /** At the level of whole events: a plan or quota effect of the subscription appears
      exactly under these conditions, whatever the event. */
  lemma HandleAppliesExactly(a: Account, e: Event, subscription: string)
    ensures !NoNewEffect(a, Handle(a, e), subscription) <==> Applies(a, e, subscription)
  {
    match e {
      case CheckoutSubscription(src, env) => SyncedShows(a, src, true, env, subscription);
      case SubscriptionChanged(src, created, env) => SyncedShows(a, src, created, env, subscription);
      case InvoicePaid(src, bill, env) => PaidInvoiceAppliesExactly(a, src, bill, env, subscription);
      case SubscriptionDeleted(src, _, env) => UpsertShows(a, src, env, subscription);
      case InvoiceFailed(src, env) => UpsertShows(a, src, env, subscription);
      case ChargeRefunded(src, env) =>
        var b := Upsert(a, src.(status := "refunded"), env);
        UpsertShows(a, src.(status := "refunded"), env, subscription);
        RevokeStatus(b, src.id, env, subscription);
        EffectsCompose(a, b, Revoke(b, src.id, env), subscription);
      case RefundReported(fact, env) => ReportShows(a, fact, env, subscription);
      case CheckoutPayment(_) =>
      case RefundOperation(_) =>
    }
  }

  // ----- exactly when a refunded row moves on ------------------------------------------

  predicate IsRefunded(a: Account, subscription: string) {
    Status(a, subscription) == Some("refunded")
  }

  /** When the upsert of a source moves its refunded row on. */
  predicate UpsertReopens(l: Ledger, src: Source, env: Env) {
    !Guard(l, src) && (src.status == "active" ==> PaidNow(src, env)) && NormalStatus(src) != "refunded"
  }

  lemma UpsertMoves(a: Account, src: Source, env: Env, subscription: string)
    requires IsRefunded(a, subscription)
    ensures !IsRefunded(Upsert(a, src, env), subscription) <==>
            Trim(src.id) == subscription && Trim(src.userID) == a.user && UpsertReopens(a.ledger, src, env)
  {
    if Trim(src.id) == subscription && Trim(src.userID) == a.user {
      UpsertReopensExactly(a, src, env);
    } else {
      RevokeStatus(a, src.id, env, subscription);
      if Trim(src.id) != subscription { PutRowElsewhere(a, NewRow(src), subscription); }
    }
  }

  /** Superseding trials neither makes nor unmakes a refunded row. */
  lemma SupersedeMoves(a: Account, id: string)
    ensures IsRefunded(a.(rows := Supersede(a.rows)), id) <==> IsRefunded(a, id)
  {
    IndexAfterSupersede(a.rows, id);
    if IsRefunded(a, id) { SupersedeKeeps(a, id); }
  }

  /** After a sync that the guard does not stop, the row is as refunded as before. */
  lemma SyncMoves(b: Account, src: Source, created: bool, env: Env, subscription: string)
    requires Guard(b.ledger, src) ==> IsRefunded(b, subscription)
    ensures IsRefunded(Sync(b, src, created, env), subscription) <==> IsRefunded(b, subscription)
  {
    if Guard(b.ledger, src) {
      RevokeStatus(b, src.id, env, subscription);
    } else {
      SupersedeMoves(b, subscription);
    }
  }

  lemma SyncedMoves(a: Account, src: Source, created: bool, env: Env, subscription: string)
    requires IsRefunded(a, subscription)
    ensures !IsRefunded(Sync(Upsert(a, src, env), src, created, env), subscription) <==>
            Trim(src.id) == subscription && Trim(src.userID) == a.user && UpsertReopens(a.ledger, src, env)
  {
    UpsertMoves(a, src, env, subscription);
    UpsertShows(a, src, env, subscription);
    SyncMoves(Upsert(a, src, env), src, created, env, subscription);
  }

  /** After the upsert a paid invoice only ever revokes. */
  lemma SettleStatus(c: Account, src: Source, bill: Bill, env: Env, subscription: string)
    ensures Status(Settle(c, src, bill, env), subscription) ==
            if Guard(c.ledger, src) && src.userID == c.user && Trim(src.id) == subscription && Status(c, subscription).Some?
            then Some("refunded") else Status(c, subscription)
  {
    RevokeStatus(c, src.id, env, subscription);
  }

  /** When a paid invoice moves its refunded row on: the upsert does, and the guard that is
      read again after the recording does not see a refund. */
  predicate InvoiceReopens(a: Account, src: Source, bill: Option<Bill>, env: Env) {
    && UpsertReopens(a.ledger, src, env)
    && !(bill.Some? && Recorded(a, src, bill.value, env) && Guard(Booked(a, bill.value), src) && src.userID == a.user)
  }

  lemma PaidInvoiceMoves(a: Account, src: Source, bill: Option<Bill>, env: Env, subscription: string)
    requires IsRefunded(a, subscription)
    ensures !IsRefunded(PaidInvoice(a, src, bill, env), subscription) <==>
            Trim(src.id) == subscription && Trim(src.userID) == a.user && InvoiceReopens(a, src, bill, env)
  {
    UpsertMoves(a, src, env, subscription);
    UpsertShows(a, src, env, subscription);
    if Trim(src.id) == subscription { RowSurvives(a, src, env, subscription); }
    if bill.Some? {
      var b := Upsert(a, src, env);
      RecordingExactly(a, src, bill.value, env);
      SettleStatus(b.(ledger := RecordPaid(b.rows, b.ledger, src, bill.value).0), src, bill.value, env, subscription);
    }
  }

  /** When an event moves a refunded row on. */
  predicate Reopens(a: Account, e: Event, subscription: string) {
    match e
    case CheckoutSubscription(src, env) => Trim(src.id) == subscription && Trim(src.userID) == a.user && UpsertReopens(a.ledger, src, env)
    case SubscriptionChanged(src, _, env) => Trim(src.id) == subscription && Trim(src.userID) == a.user && UpsertReopens(a.ledger, src, env)
    case SubscriptionDeleted(src, _, env) => Trim(src.id) == subscription && Trim(src.userID) == a.user && UpsertReopens(a.ledger, src, env)
    case InvoiceFailed(src, env) => Trim(src.id) == subscription && Trim(src.userID) == a.user && UpsertReopens(a.ledger, src, env)
    case InvoicePaid(src, bill, env) => Trim(src.id) == subscription && Trim(src.userID) == a.user && InvoiceReopens(a, src, bill, env)
    case CheckoutPayment(row) => row.sub.externalID == subscription && row.sub.status != "refunded"
    case _ => false
  }

  lemma ReportMoves(a: Account, fact: RefundFact, env: Env, subscription: string)
    requires IsRefunded(a, subscription)
    ensures IsRefunded(ReportedRefund(a, fact, env), subscription)
  {
    var b := a.(ledger := AddRefund(a.ledger, fact).0);
    forall id ensures IsRefunded(Revoke(b, id, env), subscription) { RevokeStatus(b, id, env, subscription); }
  }

  lemma PaymentRowMoves(a: Account, row: Row, subscription: string)
    requires IsRefunded(a, subscription)
    ensures !IsRefunded(a.(rows := PutRow(a.rows, row)), subscription) <==> row.sub.externalID == subscription && row.sub.status != "refunded"
  {
    if row.sub.externalID != subscription {
      PutRowElsewhere(a, row, subscription);
    } else {
      var i := RowIndex(a.rows, subscription);
      IndexAfterUpdate(a.rows, i.value, row.(sub := row.sub.(id := a.rows[i.value].sub.id)), subscription);
    }
  }

  /** At the level of whole events: a refunded row moves on exactly under these conditions. */
  lemma HandleReopensExactly(a: Account, e: Event, subscription: string)
    requires IsRefunded(a, subscription)
    ensures !IsRefunded(Handle(a, e), subscription) <==> Reopens(a, e, subscription)
  {
    match e {
      case CheckoutSubscription(src, env) => SyncedMoves(a, src, true, env, subscription);
      case SubscriptionChanged(src, created, env) => SyncedMoves(a, src, created, env, subscription);
      case SubscriptionDeleted(src, _, env) => UpsertMoves(a, src, env, subscription);
      case InvoiceFailed(src, env) => UpsertMoves(a, src, env, subscription);
      case InvoicePaid(src, bill, env) => PaidInvoiceMoves(a, src, bill, env, subscription);
      case ChargeRefunded(src, env) => ChargeMoves(a, src, env, subscription);
      case CheckoutPayment(row) => PaymentRowMoves(a, row, subscription);
      case RefundReported(fact, env) => ReportMoves(a, fact, env, subscription);
      case RefundOperation(_) =>
    }
  }

  lemma ChargeMoves(a: Account, src: Source, env: Env, subscription: string)
    requires IsRefunded(a, subscription)
    ensures IsRefunded(Revoke(Upsert(a, src.(status := "refunded"), env), src.id, env), subscription)
  {
    var marked := src.(status := "refunded");
    UpsertMoves(a, marked, env, subscription);
    var b := Upsert(a, marked, env);
    RevokeStatus(b, src.id, env, subscription);
    if Trim(src.id) == subscription { RowSurvives(a, marked, env, subscription); }
  }

  lemma RowSurvives(a: Account, src: Source, env: Env, subscription: string)
    requires Status(a, subscription).Some? && Trim(src.id) == subscription
    ensures Status(Upsert(a, src, env), subscription).Some?
  {
    RevokeStatus(a, src.id, env, subscription);
    var i := RowIndex(a.rows, subscription);
    IndexAfterUpdate(a.rows, i.value, NewRow(src).(sub := NewRow(src).sub.(id := a.rows[i.value].sub.id)), subscription);
  }

  /** An account whose only payment, for invoice in_1, is refunded in full. */
  function Sample(): Account {
    Account("u", [Row(Subscription("s", "sub_1", "stripe", "subscription", "PLUS", "refunded"), None)], Some("FREE"), FREE_QUOTA, None,
            Ledger([Invoice("i", "u", "s", "stripe", "in_1", 900, "USD")],
                   [Payment("p", "i", "u", "stripe", "pi_1", 900, "USD")],
                   [RefundFact("stripe-refund:re_1", "p", "stripe", "re_1", 900, "USD")], []), [])
  }

  function SampleSource(userID: string, latestInvoice: string, status: string): Source {
    Source("sub_1", userID, latestInvoice, status, false, false, false, "subscription", Some(Plan("PLUS", "subscription", 20)), None)
  }

  lemma SampleIsQuiet()
    ensures Quiet(Sample(), "sub_1", "in_1")
  {
    var l := Sample().ledger;
    assert ForInvoice(l, "u", "in_1", l.payments[0]);
    assert l.refunds[..0] == [];
    assert Refunded(l.refunds, "p") == 900;
    assert HasPayment(l.payments, "p") by { assert l.payments[0].id == "p"; }
  }

  /** A deletion event is processed from its own snapshot: with any other latest invoice,
      such as the final proration of the cancellation itself or an older one, it moves the
      refunded row on to a cancelled status. */
  lemma DeletionWithOtherInvoiceReopens(inv: string, env: Env)
    requires Trim(inv) != "in_1"
    ensures Status(Handle(Sample(), SubscriptionDeleted(SampleSource("u", inv, "canceled"), false, env)), "sub_1") != Some("refunded")
  {
    var a, src := Sample(), SampleSource("u", inv, "canceled");
    SampleTrims();
    SampleStatus();
    NothingForOtherInvoice(src);
    CanceledIsSpelledOut(inv);
    UpsertReopensExactly(a, src, env);
  }

  lemma SampleTrims()
    ensures Trim("sub_1") == "sub_1" && Trim("u") == "u"
  {
    assert Trimmed("sub_1") && Trimmed("u");
  }

  lemma SampleStatus()
    ensures Status(Sample(), "sub_1") == Some("refunded")
  {
  }

  lemma CanceledIsSpelledOut(inv: string)
    ensures NormalStatus(SampleSource("u", inv, "canceled")) == "cancelled"
  {
    assert Trim("canceled") == "canceled" && EqualFold("canceled", "canceled");
  }

  lemma NothingForOtherInvoice(src: Source)
    requires Trim(src.latestInvoice) != "in_1" || src.userID == " u"
    ensures !Guard(Sample().ledger, src)
  {
    var l := Sample().ledger;
    assert forall i :: 0 <= i < |l.payments| ==> l.payments[i] == l.payments[0];
    assert FindInvoice(l.invoices, "i") == Some(l.invoices[0]);
  }

  /** Metadata with a blank before the user id slips past the guard, yet is trimmed
      afterwards: the refunded plan and its quota are granted again. */
  lemma PaddedOwnerReopens(now: int)
    ensures var env := Env(now, false, Some(InvoiceView("paid", "sub_1", "subscription_create", true)), true);
            !NoNewEffect(Sample(), Sync(Sample(), SampleSource(" u", "in_1", "active"), true, env), "sub_1")
  {
    var env := Env(now, false, Some(InvoiceView("paid", "sub_1", "subscription_create", true)), true);
    var src := SampleSource(" u", "in_1", "active");
    NothingForOtherInvoice(src);
    assert Trim(" u") == "u" by { assert " u"[1..] == "u"; }
    assert Trim("sub_1") == "sub_1" && Trim("active") == "active" && Trim("in_1") == "in_1";
    assert Lower("active") == "active";
    SyncAppliesExactly(Sample(), src, true, env);
  }
}
