/**
 A webhook handler step by step (api/stripe.go, reconcileRefundedLatestInvoice in
 api/stripe_finance.go): it reads the refund guard, stores its row, for some events reads
 the guard again, and then applies the plan. Run without interruption it does what the
 event of Webhooks does in one step.
 */
module WebhookHandlers {
  import opened Finance
  import opened Text
  import opened RefundLedger
  import opened Webhooks
  import opened RefundedAccess

  /** What a handler does after its upsert. */
  datatype Kind =
    | Deleting(lapsed: bool)
    | Missing                     // invoice.payment_failed
    | Charging                    // charge.refunded
    | Syncing(created: bool)
    | Paying(bill: Option<Bill>)

  datatype Phase =
    | Writing(src: Source, env: Env, kind: Kind)   // the guard saw no refund
    | Revoking(src: Source, env: Env, kind: Kind)  // the guard saw one; the upsert ends with it
    | Recording(src: Source, env: Env, bill: Bill)
    | Checking(src: Source, env: Env, kind: Kind)  // about to read the guard again
    | Granting(src: Source, env: Env, kind: Kind)  // it saw no refund then either
    | Dropping(id: string, env: Env)               // a final revocation
    | Closing(src: Source, env: Env, kind: Kind)   // the tail of a deletion or a failed payment

  function AfterUpsert(src: Source, env: Env, kind: Kind): Option<Phase> {
    match kind
    case Deleting(_) => Some(Closing(src, env, kind))
    case Missing => Some(Closing(src, env, kind))
    case Charging => Some(Dropping(src.id, env))
    case Syncing(_) => Some(Checking(src, env, kind))
    case Paying(bill) => if bill.Some? then Some(Recording(src, env, bill.value)) else None
  }

  /** The source a handler of this kind upserts. */
  function Upserted(src: Source, kind: Kind): Source {
    if kind.Charging? then src.(status := "refunded") else src
  }

  /** The first look at the guard. None when the handler is done. */
  function Start(a: Account, src: Source, env: Env, kind: Kind): Option<Phase> {
    if Guard(a.ledger, src) then
      if src.userID == a.user then Some(Revoking(src, env, kind)) else AfterUpsert(src, env, kind)
    else if UpsertFails(a, src, env) then None
    else if UpsertWrites(a, src, env) then Some(Writing(src, env, kind))
    else AfterUpsert(src, env, kind)
  }

  predicate Due(src: Source, env: Env, kind: Kind) {
    match kind
    case Syncing(_) => SyncDue(src, env)
    case Paying(bill) => bill.Some? && BillDue(src, bill.value)
    case _ => false
  }

  /** The plan and the quota change of a sync or of a paid invoice. */
  function Provide(a: Account, src: Source, env: Env, kind: Kind): Account {
    if !Due(src, env, kind) then a
    else if kind.Syncing? then ApplySync(a, src, kind.created, env)
    else ApplyBill(a, src, kind.bill.value, env)
  }

  function Close(a: Account, src: Source, env: Env, kind: Kind): Account {
    if kind.Deleting? && kind.lapsed then Downgrade(a)
    else if kind.Missing? && a.arrearsSince.None? then a.(arrearsSince := Some(env.now))
    else a
  }

  /** What one step of a handler does to the account. `stored`: the store takes the invoice
      that is to be recorded, or the quota change of the plan that is to be applied. */
  function Acts(a: Account, p: Phase, stored: bool): Account {
    match p
    case Writing(src, _, _) => a.(rows := PutRow(a.rows, NewRow(src)))
    case Revoking(src, env, _) => Revoke(a, src.id, env)
    case Recording(src, _, bill) => if stored then a.(ledger := RecordPaid(a.rows, a.ledger, src, bill).0) else a
    case Checking(_, _, _) => a
    case Granting(src, env, kind) => Provide(a, src, env.(quotaAccepted := stored), kind)
    case Dropping(id, env) => Revoke(a, id, env)
    case Closing(src, env, kind) => Close(a, src, env, kind)
  }

  /** Where the step leads; None when the handler is done. */
  function Goes(a: Account, p: Phase, stored: bool): Option<Phase> {
    match p
    case Writing(src, env, kind) => AfterUpsert(src, env, kind)
    case Revoking(src, env, kind) => AfterUpsert(src, env, kind)
    case Recording(src, env, bill) =>
      if Unrecorded(bill) || (stored && RecordPaid(a.rows, a.ledger, src, bill).1) then Some(Checking(src, env, Paying(Some(bill)))) else None
    case Checking(src, env, kind) =>
      if Guard(a.ledger, src) then (if src.userID == a.user then Some(Dropping(src.id, env)) else None)
      else if Due(src, env, kind) then Some(Granting(src, env, kind)) else None
    case _ => None
  }

  // ----- a handler on its own ------------------------------------------------------------------

  function Rank(p: Phase): nat {
    match p
    case Writing(_, _, _) => 4
    case Revoking(_, _, _) => 4
    case Recording(_, _, _) => 3
    case Checking(_, _, _) => 2
    case _ => 1
  }

  lemma GoesDown(a: Account, p: Phase, stored: bool)
    ensures Goes(a, p, stored).Some? ==> Rank(Goes(a, p, stored).value) < Rank(p)
  {
  }

  /** Nothing goes wrong in the store but what the event's own answers say. */
  predicate Smooth(p: Phase) {
    p.Granting? ==> p.env.quotaAccepted
  }

  /** The handler runs to its end with nothing in between. */
  function Alone(a: Account, p: Phase): Account
    decreases Rank(p)
  {
    GoesDown(a, p, Smooth(p));
    var b, q := Acts(a, p, Smooth(p)), Goes(a, p, Smooth(p));
    if q.Some? then Alone(b, q.value) else b
  }

  function EventOf(src: Source, env: Env, kind: Kind): Event {
    match kind
    case Deleting(lapsed) => SubscriptionDeleted(src, lapsed, env)
    case Missing => InvoiceFailed(src, env)
    case Charging => ChargeRefunded(src, env)
    case Syncing(created) => SubscriptionChanged(src, created, env)
    case Paying(bill) => InvoicePaid(src, bill, env)
  }

  function Solo(a: Account, p: Option<Phase>): Account {
    if p.Some? then Alone(a, p.value) else a
  }

  lemma SoloGrant(a: Account, src: Source, env: Env, kind: Kind)
    ensures Alone(a, Granting(src, env, kind)) == Provide(a, src, env, kind)
    ensures Alone(a, Dropping(src.id, env)) == Revoke(a, src.id, env)
  {
    assert env.(quotaAccepted := env.quotaAccepted) == env;
  }

  lemma SoloCheck(a: Account, src: Source, env: Env, kind: Kind)
    ensures Alone(a, Checking(src, env, kind)) ==
            if Guard(a.ledger, src) then (if src.userID == a.user then Revoke(a, src.id, env) else a)
            else if Due(src, env, kind) then Provide(a, src, env, kind) else a
  {
    SoloGrant(a, src, env, kind);
  }

  lemma SoloSync(a: Account, src: Source, env: Env, created: bool)
    requires Trim(src.userID) == a.user
    ensures Alone(a, Checking(src, env, Syncing(created))) == Sync(a, src, created, env)
  {
    SoloCheck(a, src, env, Syncing(created));
  }

  lemma SoloRecord(a: Account, src: Source, env: Env, bill: Bill)
    requires Trim(src.userID) == a.user
    ensures var (l, ok) := RecordPaid(a.rows, a.ledger, src, bill);
            Alone(a, Recording(src, env, bill)) == if ok then Settle(a.(ledger := l), src, bill, env) else a.(ledger := l)
  {
    var (l, ok) := RecordPaid(a.rows, a.ledger, src, bill);
    SoloCheck(a.(ledger := l), src, env, Paying(Some(bill)));
  }

  /** What follows the upsert, run alone. */
  function Tail(b: Account, src: Source, env: Env, kind: Kind): Account {
    match kind
    case Deleting(_) => Close(b, src, env, kind)
    case Missing => Close(b, src, env, kind)
    case Charging => Revoke(b, src.id, env)
    case Syncing(created) => Sync(b, src, created, env)
    case Paying(bill) =>
      if bill.None? then b
      else var (l, ok) := RecordPaid(b.rows, b.ledger, src, bill.value);
           if ok then Settle(b.(ledger := l), src, bill.value, env) else b.(ledger := l)
  }

  lemma SoloTail(b: Account, src: Source, env: Env, kind: Kind)
    requires Trim(src.userID) == b.user
    ensures Solo(b, AfterUpsert(src, env, kind)) == Tail(b, src, env, kind)
  {
    match kind {
      case Syncing(created) => SoloSync(b, src, env, created);
      case Paying(bill) => if bill.Some? { SoloRecord(b, src, env, bill.value); }
      case Charging =>
      case Deleting(_) =>
      case Missing =>
    }
  }

  /** What the handler of this kind comes to. */
  function Outcome(a: Account, src: Source, env: Env, kind: Kind): Account {
    if UpsertFails(a, src, env) then a else Tail(Upsert(a, src, env), src, env, kind)
  }

  lemma SoloUpsert(a: Account, src: Source, env: Env, kind: Kind)
    requires Trim(src.userID) == a.user
    ensures Solo(a, Start(a, src, env, kind)) == Outcome(a, src, env, kind)
  {
    if !UpsertFails(a, src, env) {
      var b := Upsert(a, src, env);
      UpsertShows(a, src, env, src.id);
      SoloTail(b, src, env, kind);
    }
  }

  lemma DeletingIsHandle(a: Account, src: Source, env: Env, lapsed: bool)
    requires Trim(src.userID) == a.user
    ensures Outcome(a, src, env, Deleting(lapsed)) == Deleted(a, src, lapsed, env)
  {
    assert UpsertFails(a, src, env) ==> Upsert(a, src, env) == a;
  }

  lemma MissingIsHandle(a: Account, src: Source, env: Env)
    requires Trim(src.userID) == a.user
    ensures Outcome(a, src, env, Missing) == Missed(a, src, env)
  {
    var b := Upsert(a, src, env);
    assert UpsertFails(a, src, env) ==> b == a;
    assert Outcome(a, src, env, Missing) == if UpsertFails(a, src, env) then a else Close(b, src, env, Missing);
  }

  lemma ChargingIsHandle(a: Account, src: Source, env: Env)
    requires Trim(src.userID) == a.user
    ensures Outcome(a, src.(status := "refunded"), env, Charging) == Charged(a, src, env)
  {
    var marked := src.(status := "refunded");
    assert marked.status != "active" && !UpsertFails(a, marked, env);
    assert Outcome(a, marked, env, Charging) == Revoke(Upsert(a, marked, env), src.id, env);
  }

  lemma SyncingIsHandle(a: Account, src: Source, env: Env, created: bool)
    requires Trim(src.userID) == a.user
    ensures Outcome(a, src, env, Syncing(created)) == Sync(Upsert(a, src, env), src, created, env)
  {
    if UpsertFails(a, src, env) { FailedUpsertStopsSync(a, src, created, env); }
  }

  lemma PayingIsHandle(a: Account, src: Source, env: Env, bill: Option<Bill>)
    requires Trim(src.userID) == a.user
    ensures Outcome(a, src, env, Paying(bill)) == PaidInvoice(a, src, bill, env)
  {
    assert UpsertFails(a, src, env) ==> Upsert(a, src, env) == a;
  }

  /** The atomic event is what the handler comes to. */
  lemma OutcomeIsHandle(a: Account, src: Source, env: Env, kind: Kind)
    requires Trim(src.userID) == a.user
    ensures Handle(a, EventOf(src, env, kind)) == Outcome(a, Upserted(src, kind), env, kind)
  {
    match kind {
      case Deleting(lapsed) => DeletingIsHandle(a, src, env, lapsed); DeletedIsHandled(a, src, lapsed, env);
      case Missing => MissingIsHandle(a, src, env); MissedIsHandled(a, src, env);
      case Charging => ChargingIsHandle(a, src, env); ChargedIsHandled(a, src, env);
      case Syncing(created) => SyncingIsHandle(a, src, env, created); ChangedIsHandled(a, src, created, env);
      case Paying(bill) => PayingIsHandle(a, src, env, bill); PaidIsHandled(a, src, bill, env);
    }
  }

  /** A handler that nothing interrupts does what the atomic event does. */
  lemma SoloIsHandle(a: Account, src: Source, env: Env, kind: Kind)
    requires Trim(src.userID) == a.user
    ensures Solo(a, Start(a, Upserted(src, kind), env, kind)) == Handle(a, EventOf(src, env, kind))
  {
    SoloUpsert(a, Upserted(src, kind), env, kind);
    OutcomeIsHandle(a, src, env, kind);
  }
}
