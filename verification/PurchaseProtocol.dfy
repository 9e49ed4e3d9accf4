/**
 The subscription purchase reservation of one account
 (api/stripe_subscription_purchase.go over internal/store/subscription_purchase.go
 and internal/store/subscription_lifecycle.go): reserve, recheck, submit under the
 operation's idempotency key, retry, record the provider reference, and release
 only after expiry or after payment plus local projection.

 An operation is named by its position in `ops`; its idempotency key is unique,
 so the provider is a map from that name to at most one purchase.
 */
module PurchaseProtocol {
  import opened Finance

  const RETRY_WINDOW := 1200 // seconds after reservation in which a retry is accepted

  datatype Op = Op(status: OpStatus, providerID: string, createdAt: int)

  predicate Pending(op: Op) {
    op.status != Succeeded && op.status != Failed
  }

  /** A checkout session or upgrade invoice at the provider. */
  datatype PurchaseState = Live | Expired | Paid
  datatype Purchase = Purchase(id: string, state: PurchaseState)

  /** A request being served, or a reconcile that has read a final outcome. */
  datatype Handler =
    | Rechecking(op: nat)                               // reserved, about to recheck local state
    | Submitting(op: nat)                               // about to send the provider request
    | Awaiting(op: nat)                                 // request sent, no answer yet
    | Saving(op: nat, providerID: string)               // answer (or "" after an error) to store
    | Confirming(op: nat, paid: bool, providerID: string)

  datatype State = State(
    ops: seq<Op>,
    busy: Option<nat>,                // subscription_lifecycle_states.operation_id
    handlers: map<nat, Handler>,
    wire: set<nat>,                   // operations with a request still in the network
    provider: map<nat, Purchase>,
    projected: set<nat>)              // paid purchases whose webhook projection is in place

  datatype Step =
    | Reserve(h: nat, now: int)
    | Recheck(h: nat, ok: bool)
    | Retry(h: nat, op: nat, now: int)
    | Send(h: nat)
    | Deliver(op: nat, accepted: bool, id: string, again: bool)
    | Answer(h: nat, received: bool)
    | Save(h: nat, committed: bool)
    | Expire(op: nat)
    | Pay(op: nat)
    | Project(op: nat)
    | Observe(h: nat, op: nat)
    | Confirm(h: nat, committed: bool)
    | Crash(h: nat)

  const INIT := State([], None, map[], {}, map[], {})

  // ----- store operations ------------------------------------------------------

  /** FinishSubscriptionAction on a pending operation. */
  predicate CanFinish(s: State, op: nat, providerID: string) {
    && op < |s.ops| && Pending(s.ops[op]) && s.busy == Some(op)
    && (s.ops[op].providerID == "" || s.ops[op].providerID == providerID)
  }

  function Finished(s: State, op: nat, providerID: string, confirmed: bool): State
    requires op < |s.ops|
  {
    s.(ops := s.ops[op := s.ops[op].(status := if confirmed then Succeeded else Failed, providerID := providerID)],
       busy := None)
  }

  /** UpdateSubscriptionPurchase without completion. */
  predicate CanSave(s: State, op: nat, providerID: string) {
    && op < |s.ops| && Pending(s.ops[op])
    && (s.ops[op].providerID == "" || s.ops[op].providerID == providerID)
  }

  predicate Retryable(op: Op, now: int) {
    Pending(op) && op.providerID == "" && 0 <= now - op.createdAt < RETRY_WINDOW
  }

  // ----- steps -----------------------------------------------------------------

  function Put(s: State, h: nat, me: Handler): State {
    s.(handlers := s.handlers[h := me])
  }

  function Drop(s: State, h: nat): State {
    s.(handlers := s.handlers - {h})
  }

  function Set(s: State, op: nat, state: PurchaseState): State
    requires op in s.provider
  {
    s.(provider := s.provider[op := s.provider[op].(state := state)])
  }

  function Apply(s: State, step: Step): State {
    match step
    case Reserve(h, now) =>
      if h !in s.handlers && s.busy.None? && (forall i :: 0 <= i < |s.ops| ==> !Pending(s.ops[i]))
      then Put(s.(ops := s.ops + [Op(InProgress, "", now)], busy := Some(|s.ops|)), h, Rechecking(|s.ops|))
      else s
    case Recheck(h, ok) =>
      if h !in s.handlers || !s.handlers[h].Rechecking? then s
      else if ok then Put(s, h, Submitting(s.handlers[h].op))
      else if CanFinish(s, s.handlers[h].op, "") then Drop(Finished(s, s.handlers[h].op, "", false), h)
      else Drop(s, h)
    case Retry(h, op, now) =>
      if h !in s.handlers && op < |s.ops| && Retryable(s.ops[op], now) then Put(s, h, Submitting(op)) else s
    case Send(h) =>
      if h in s.handlers && s.handlers[h].Submitting?
      then Put(s.(wire := s.wire + {s.handlers[h].op}), h, Awaiting(s.handlers[h].op)) else s
    case Deliver(op, accepted, id, again) =>
      if op !in s.wire then s
      else
        var t := s.(wire := if again then s.wire else s.wire - {op});
        // The idempotency key makes every later delivery return the first purchase.
        if accepted && op !in s.provider && id != "" then t.(provider := t.provider[op := Purchase(id, Live)]) else t
    case Answer(h, received) =>
      if h in s.handlers && s.handlers[h].Awaiting? then
        var op := s.handlers[h].op;
        Put(s, h, Saving(op, if received && op in s.provider then s.provider[op].id else ""))
      else s
    case Save(h, committed) =>
      if h in s.handlers && s.handlers[h].Saving? then
        var op, id := s.handlers[h].op, s.handlers[h].providerID;
        if committed && CanSave(s, op, id)
        then Drop(s.(ops := s.ops[op := s.ops[op].(status := ReconcileNeeded, providerID := id)]), h)
        else Drop(s, h)
      else s
    case Expire(op) => if op in s.provider && s.provider[op].state == Live then Set(s, op, Expired) else s
    case Pay(op) => if op in s.provider && s.provider[op].state == Live then Set(s, op, Paid) else s
    case Project(op) =>
      if op in s.provider && s.provider[op].state == Paid then s.(projected := s.projected + {op}) else s
    case Observe(h, op) =>
      if h !in s.handlers && op < |s.ops| && Pending(s.ops[op]) && s.ops[op].providerID != "" && op in s.provider then
        if s.provider[op].state == Expired then Put(s, h, Confirming(op, false, s.ops[op].providerID))
        else if s.provider[op].state == Paid && op in s.projected then Put(s, h, Confirming(op, true, s.ops[op].providerID))
        else s
      else s
    case Confirm(h, committed) =>
      if h in s.handlers && s.handlers[h].Confirming? then
        var me := s.handlers[h];
        if committed && CanFinish(s, me.op, me.providerID) then Drop(Finished(s, me.op, me.providerID, me.paid), h)
        else Drop(s, h)
      else s
    case Crash(h) => Drop(s, h)
  }

  function Run(s: State, steps: seq<Step>): State
    decreases |steps|
  {
    if steps == [] then s else Run(Apply(s, steps[0]), steps[1..])
  }

  // ----- what must hold --------------------------------------------------------

  /** The purchase exists at the provider and is neither expired nor paid and projected. */
  predicate Open(provider: map<nat, Purchase>, projected: set<nat>, op: nat) {
    op in provider && provider[op].state != Expired && !(provider[op].state == Paid && op in projected)
  }

  predicate Unsettled(s: State, op: nat) {
    Open(s.provider, s.projected, op)
  }

  /** Releasing `op` as "not submitted" is justified. */
  predicate Clean(s: State, op: nat) {
    if op in s.provider then !Unsettled(s, op)
    else op !in s.wire && forall h :: h in s.handlers ==> s.handlers[h] != Submitting(op)
  }

  predicate Releases(s: State, step: Step) {
    step.Recheck? && !step.ok && step.h in s.handlers && s.handlers[step.h].Rechecking? && CanFinish(s, s.handlers[step.h].op, "")
  }

  /** Every "not submitted" release of the run happens in a clean state. */
  predicate CleanRun(s: State, steps: seq<Step>)
    decreases |steps|
  {
    steps != [] ==>
      && (Releases(s, steps[0]) ==> Clean(s, s.handlers[steps[0].h].op))
      && CleanRun(Apply(s, steps[0]), steps[1..])
  }

  // ----- retries that wait -------------------------------------------------------

  predicate Accepts(s: State, step: Step) {
    step.Retry? && step.h !in s.handlers && step.op < |s.ops| && Retryable(s.ops[step.op], step.now)
  }

  /** A retry that is accepted before the request that made the reservation has
      rechecked it, that is, before that request was answered. */
  predicate Rushed(s: State, step: Step) {
    Accepts(s, step) && exists g :: g in s.handlers && s.handlers[g] == Rechecking(step.op)
  }

  /** The account's clients never rush a retry. */
  predicate RetriesWait(s: State, steps: seq<Step>)
    decreases |steps|
  {
    steps != [] ==> !Rushed(s, steps[0]) && RetriesWait(Apply(s, steps[0]), steps[1..])
  }

  /** Only the last operation can be pending, and it is the busy one. */
  ghost predicate OnePending(ops: seq<Op>, busy: Option<nat>) {
    && (forall i :: 0 <= i < |ops| - 1 ==> !Pending(ops[i]))
    && busy == (if ops != [] && Pending(ops[|ops| - 1]) then Some(|ops| - 1) else None)
  }

  /** What is at the provider or in the network belongs to an operation, under its id. */
  ghost predicate Owned(ops: seq<Op>, provider: map<nat, Purchase>, wire: set<nat>) {
    && (forall i :: i in provider ==> i < |ops| && provider[i].id != "")
    && (forall i :: i in wire ==> i < |ops| && (Pending(ops[i]) || i in provider))
    && (forall i :: 0 <= i < |ops| && ops[i].providerID != "" ==> i in provider && provider[i].id == ops[i].providerID)
  }

  ghost predicate Closed(ops: seq<Op>, provider: map<nat, Purchase>, projected: set<nat>) {
    forall i :: 0 <= i < |ops| && !Pending(ops[i]) ==> !Open(provider, projected, i)
  }

  ghost predicate Core(s: State) {
    OnePending(s.ops, s.busy) && Owned(s.ops, s.provider, s.wire) && Closed(s.ops, s.provider, s.projected)
  }

  predicate Suits(ops: seq<Op>, provider: map<nat, Purchase>, projected: set<nat>, me: Handler) {
    && me.op < |ops|
    && match me
       case Rechecking(op) => Pending(ops[op]) || op in provider
       case Submitting(op) => Pending(ops[op]) || op in provider
       case Awaiting(_) => true
       case Saving(op, id) => id != "" ==> op in provider && provider[op].id == id
       case Confirming(op, paid, id) => op in provider && provider[op].id == id && !Open(provider, projected, op)
  }

  predicate Fits(s: State, me: Handler) {
    Suits(s.ops, s.provider, s.projected, me)
  }

  /** Only the request that made a reservation rechecks it. */
  ghost predicate Apart(handlers: map<nat, Handler>) {
    forall h, g :: h in handlers && g in handlers && handlers[h].Rechecking? && handlers[h] == handlers[g] ==> h == g
  }

  ghost predicate Inv(s: State) {
    Core(s) && Apart(s.handlers) && forall h :: h in s.handlers ==> Fits(s, s.handlers[h])
  }

  lemma PutKeeps(s: State, h: nat, me: Handler)
    requires Inv(s) && Fits(s, me) && !me.Rechecking?
    ensures Inv(Put(s, h, me))
  {
  }

  lemma DropKeeps(s: State, h: nat)
    requires Inv(s)
    ensures Inv(Drop(s, h))
  {
  }

  lemma ReserveKeeps(s: State, h: nat, now: int)
    requires Inv(s)
    ensures Inv(Apply(s, Reserve(h, now)))
  {
    var t := Apply(s, Reserve(h, now));
    if t != s {
      forall g | g in t.handlers ensures Fits(t, t.handlers[g]) {
        if g != h { assert Fits(s, s.handlers[g]); }
      }
      forall g | g in s.handlers ensures s.handlers[g] != Rechecking(|s.ops|) {
        assert Fits(s, s.handlers[g]);
      }
    }
  }

  /** A clean release keeps the invariant. */
  lemma ReleaseKeeps(s: State, h: nat)
    requires Inv(s) && Releases(s, Recheck(h, false)) && Clean(s, s.handlers[h].op)
    ensures Inv(Apply(s, Recheck(h, false)))
  {
    var op := s.handlers[h].op;
    var t := Apply(s, Recheck(h, false));
    assert t == Drop(Finished(s, op, "", false), h);
    forall g | g in t.handlers ensures Fits(t, t.handlers[g]) {
      assert Fits(s, s.handlers[g]) && s.handlers[g] != Rechecking(op);
    }
  }

  lemma SaveKeeps(s: State, h: nat, committed: bool)
    requires Inv(s)
    ensures Inv(Apply(s, Save(h, committed)))
  {
    DropKeeps(s, h);
    if h in s.handlers && s.handlers[h].Saving? {
      var op, id := s.handlers[h].op, s.handlers[h].providerID;
      assert Fits(s, s.handlers[h]);
      if committed && CanSave(s, op, id) {
        var t := Apply(s, Save(h, committed));
        assert t.provider == s.provider && t.projected == s.projected && t.wire == s.wire;
        forall g | g in t.handlers ensures Fits(t, t.handlers[g]) {
          assert Fits(s, s.handlers[g]);
        }
      }
    }
  }

  lemma DeliverKeeps(s: State, op: nat, accepted: bool, id: string, again: bool)
    requires Inv(s)
    ensures Inv(Apply(s, Deliver(op, accepted, id, again)))
  {
    var t := Apply(s, Deliver(op, accepted, id, again));
    forall g | g in t.handlers ensures Fits(t, t.handlers[g]) {
      assert Fits(s, s.handlers[g]);
    }
  }

  /** The provider settles or the projection lands: nothing settled becomes unsettled. */
  lemma SettlingKeeps(s: State, t: State)
    requires Inv(s) && t == s.(provider := t.provider, projected := t.projected)
    requires t.provider.Keys == s.provider.Keys && forall i :: i in s.provider ==> t.provider[i].id == s.provider[i].id
    requires forall i: nat :: !Open(s.provider, s.projected, i) ==> !Open(t.provider, t.projected, i)
    ensures Inv(t)
  {
    forall g | g in t.handlers ensures Fits(t, t.handlers[g]) {
      assert Fits(s, s.handlers[g]);
    }
  }

  lemma SettleKeeps(s: State, op: nat, step: Step)
    requires Inv(s) && (step == Expire(op) || step == Pay(op) || step == Project(op))
    ensures Inv(Apply(s, step))
  {
    SettlingKeeps(s, Apply(s, step));
  }

  lemma ConfirmKeeps(s: State, h: nat, committed: bool)
    requires Inv(s)
    ensures Inv(Apply(s, Confirm(h, committed)))
  {
    DropKeeps(s, h);
    if h in s.handlers && s.handlers[h].Confirming? {
      var me := s.handlers[h];
      assert Fits(s, me);
      if committed && CanFinish(s, me.op, me.providerID) {
        var t := Apply(s, Confirm(h, committed));
        assert t == Drop(Finished(s, me.op, me.providerID, me.paid), h);
        forall g | g in t.handlers ensures Fits(t, t.handlers[g]) {
          assert Fits(s, s.handlers[g]);
        }
      }
    }
  }

  lemma RecheckKeeps(s: State, h: nat, ok: bool)
    requires Inv(s) && (Releases(s, Recheck(h, ok)) ==> Clean(s, s.handlers[h].op))
    ensures Inv(Apply(s, Recheck(h, ok)))
  {
    if h in s.handlers && s.handlers[h].Rechecking? {
      assert Fits(s, s.handlers[h]);
      if ok { PutKeeps(s, h, Submitting(s.handlers[h].op)); }
      else if Releases(s, Recheck(h, ok)) { ReleaseKeeps(s, h); }
      else { DropKeeps(s, h); }
    }
  }

  lemma SendKeeps(s: State, h: nat)
    requires Inv(s)
    ensures Inv(Apply(s, Send(h)))
  {
    if h in s.handlers && s.handlers[h].Submitting? {
      assert Fits(s, s.handlers[h]);
      var t := s.(wire := s.wire + {s.handlers[h].op});
      assert Inv(t) by { forall g | g in t.handlers ensures Fits(t, t.handlers[g]) { assert Fits(s, s.handlers[g]); } }
      PutKeeps(t, h, Awaiting(s.handlers[h].op));
    }
  }

  lemma AnswerKeeps(s: State, h: nat, received: bool)
    requires Inv(s)
    ensures Inv(Apply(s, Answer(h, received)))
  {
    if h in s.handlers && s.handlers[h].Awaiting? {
      var op := s.handlers[h].op;
      assert Fits(s, s.handlers[h]);
      PutKeeps(s, h, Saving(op, if received && op in s.provider then s.provider[op].id else ""));
    }
  }

  lemma ObserveKeeps(s: State, h: nat, op: nat)
    requires Inv(s)
    ensures Inv(Apply(s, Observe(h, op)))
  {
    if h !in s.handlers && op < |s.ops| && Pending(s.ops[op]) && s.ops[op].providerID != "" && op in s.provider && !Unsettled(s, op) {
      PutKeeps(s, h, Confirming(op, s.provider[op].state == Paid, s.ops[op].providerID));
    }
  }

  lemma StepKeepsInv(s: State, step: Step)
    requires Inv(s) && (Releases(s, step) ==> Clean(s, s.handlers[step.h].op))
    ensures Inv(Apply(s, step))
  {
    match step {
      case Reserve(h, now) => ReserveKeeps(s, h, now);
      case Recheck(h, ok) => RecheckKeeps(s, h, ok);
      case Retry(h, op, _) => if h !in s.handlers && op < |s.ops| && Pending(s.ops[op]) { PutKeeps(s, h, Submitting(op)); }
      case Send(h) => SendKeeps(s, h);
      case Answer(h, received) => AnswerKeeps(s, h, received);
      case Observe(h, op) => ObserveKeeps(s, h, op);
      case Deliver(op, accepted, id, again) => DeliverKeeps(s, op, accepted, id, again);
      case Save(h, committed) => SaveKeeps(s, h, committed);
      case Expire(op) => SettleKeeps(s, op, step);
      case Pay(op) => SettleKeeps(s, op, step);
      case Project(op) => SettleKeeps(s, op, step);
      case Confirm(h, committed) => ConfirmKeeps(s, h, committed);
      case Crash(h) => DropKeeps(s, h);
    }
  }

  lemma {:induction false} RunKeepsInv(s: State, steps: seq<Step>)
    requires Inv(s) && CleanRun(s, steps)
    ensures Inv(Run(s, steps))
    decreases |steps|
  {
    if steps != [] {
      StepKeepsInv(s, steps[0]);
      RunKeepsInv(Apply(s, steps[0]), steps[1..]);
    }
  }

  // ----- whole runs ------------------------------------------------------------

  /** Two different purchases of the account are open at the provider. */
  ghost predicate TwoUnsettled(s: State) {
    exists i: nat, j: nat :: i != j && Unsettled(s, i) && Unsettled(s, j)
  }

  /** Some continuation, without any further doubtful release or rushed retry, opens two purchases. */
  ghost predicate Breaks(s: State) {
    exists steps :: CleanRun(s, steps) && RetriesWait(s, steps) && TwoUnsettled(Run(s, steps))
  }

  ghost predicate Secluded(handlers: map<nat, Handler>, provider: map<nat, Purchase>, wire: set<nat>) {
    forall g :: g in handlers && handlers[g].Rechecking? ==>
                  && handlers[g].op !in provider && handlers[g].op !in wire
                  && forall h :: h in handlers && h != g ==> handlers[h].op != handlers[g].op
  }

  /** While a reservation is being rechecked nothing else has touched it. */
  ghost predicate Private(s: State) {
    Secluded(s.handlers, s.provider, s.wire)
  }

  /** So releasing it as "not submitted" is clean. */
  lemma PrivateIsClean(s: State, step: Step)
    requires Private(s) && Releases(s, step)
    ensures Clean(s, s.handlers[step.h].op)
  {
  }

  lemma ReserveStaysPrivate(s: State, h: nat, now: int)
    requires Inv(s) && Private(s)
    ensures Private(Apply(s, Reserve(h, now)))
  {
    forall g | g in s.handlers ensures s.handlers[g].op < |s.ops| {
      assert Fits(s, s.handlers[g]);
    }
  }

  /** A handler that is not rechecking may join an operation nobody rechecks, or move on. */
  lemma JoinStaysPrivate(handlers: map<nat, Handler>, provider: map<nat, Purchase>, wire: set<nat>, h: nat, me: Handler)
    requires Secluded(handlers, provider, wire) && !me.Rechecking?
    requires forall g :: g in handlers && g != h && handlers[g].Rechecking? ==> handlers[g].op != me.op
    ensures Secluded(handlers[h := me], provider, wire)
  {
  }

  lemma MoveStaysPrivate(handlers: map<nat, Handler>, provider: map<nat, Purchase>, wire: set<nat>, h: nat, me: Handler)
    requires Secluded(handlers, provider, wire) && !me.Rechecking? && h in handlers && handlers[h].op == me.op
    ensures Secluded(handlers[h := me], provider, wire) && Secluded(handlers - {h}, provider, wire)
  {
    JoinStaysPrivate(handlers, provider, wire, h, me);
  }

  /** The network and the provider only ever see operations nobody is rechecking. */
  lemma TrafficStaysPrivate(handlers: map<nat, Handler>, provider: map<nat, Purchase>, wire: set<nat>, op: nat, purchase: Purchase)
    requires Secluded(handlers, provider, wire) && forall g :: g in handlers && handlers[g].Rechecking? ==> handlers[g].op != op
    ensures Secluded(handlers, provider, wire + {op}) && Secluded(handlers, provider, wire - {op})
    ensures Secluded(handlers, provider[op := purchase], wire) && Secluded(handlers, provider[op := purchase], wire - {op})
  {
  }

  lemma DropStaysPrivate(s: State, h: nat)
    requires Private(s)
    ensures Secluded(s.handlers - {h}, s.provider, s.wire)
  {
  }

  lemma SendStaysPrivate(s: State, h: nat)
    requires Private(s)
    ensures Private(Apply(s, Send(h)))
  {
    if h in s.handlers && s.handlers[h].Submitting? {
      var op := s.handlers[h].op;
      TrafficStaysPrivate(s.handlers, s.provider, s.wire, op, Purchase("", Live));
      MoveStaysPrivate(s.handlers, s.provider, s.wire + {op}, h, Awaiting(op));
    }
  }

  lemma DeliverStaysPrivate(s: State, op: nat, accepted: bool, id: string, again: bool)
    requires Private(s)
    ensures Private(Apply(s, Deliver(op, accepted, id, again)))
  {
    if op in s.wire {
      TrafficStaysPrivate(s.handlers, s.provider, s.wire, op, Purchase(id, Live));
    }
  }

  lemma StepStaysPrivate(s: State, step: Step)
    requires Inv(s) && Private(s) && !Rushed(s, step)
    ensures Private(Apply(s, step))
  {
    match step {
      case Reserve(h, now) => ReserveStaysPrivate(s, h, now);
      case Recheck(h, _) =>
        DropStaysPrivate(s, h);
        if h in s.handlers && s.handlers[h].Rechecking? {
          MoveStaysPrivate(s.handlers, s.provider, s.wire, h, Submitting(s.handlers[h].op));
        }
      case Retry(h, op, _) => if Accepts(s, step) { JoinStaysPrivate(s.handlers, s.provider, s.wire, h, Submitting(op)); }
      case Send(h) => SendStaysPrivate(s, h);
      case Deliver(op, accepted, id, again) => DeliverStaysPrivate(s, op, accepted, id, again);
      case Answer(h, received) =>
        if h in s.handlers && s.handlers[h].Awaiting? {
          var op := s.handlers[h].op;
          MoveStaysPrivate(s.handlers, s.provider, s.wire, h, Saving(op, if received && op in s.provider then s.provider[op].id else ""));
        }
      case Observe(h, op) => ObserveStaysPrivate(s, h, op);
      case Save(h, _) => DropStaysPrivate(s, h);
      case Expire(op) => PaymentStaysPrivate(s, op);
      case Pay(op) => PaymentStaysPrivate(s, op);
      case Project(_) =>
      case Confirm(h, _) => DropStaysPrivate(s, h);
      case Crash(h) => DropStaysPrivate(s, h);
    }
  }

  lemma ObserveStaysPrivate(s: State, h: nat, op: nat)
    requires Private(s)
    ensures Private(Apply(s, Observe(h, op)))
  {
    if h !in s.handlers && op < |s.ops| && op in s.provider {
      JoinStaysPrivate(s.handlers, s.provider, s.wire, h, Confirming(op, false, s.ops[op].providerID));
      JoinStaysPrivate(s.handlers, s.provider, s.wire, h, Confirming(op, true, s.ops[op].providerID));
    }
  }

  lemma PaymentStaysPrivate(s: State, op: nat)
    requires Private(s)
    ensures Private(Apply(s, Expire(op))) && Private(Apply(s, Pay(op)))
  {
    if op in s.provider {
      TrafficStaysPrivate(s.handlers, s.provider, s.wire, op, s.provider[op].(state := Expired));
      TrafficStaysPrivate(s.handlers, s.provider, s.wire, op, s.provider[op].(state := Paid));
    }
  }

  lemma {:induction false} WaitingRunsKeep(s: State, steps: seq<Step>)
    requires Inv(s) && Private(s) && RetriesWait(s, steps)
    ensures Inv(Run(s, steps)) && Private(Run(s, steps))
    decreases |steps|
  {
    if steps != [] {
      if Releases(s, steps[0]) { PrivateIsClean(s, steps[0]); }
      StepKeepsInv(s, steps[0]);
      StepStaysPrivate(s, steps[0]);
      WaitingRunsKeep(Apply(s, steps[0]), steps[1..]);
    }
  }

  /** In every run whose retries wait, at most one purchase of the account is ever
      unsettled, whatever is lost, repeated or crashes. */
  lemma WaitingRunsHaveOneUnsettledPurchase(steps: seq<Step>)
    requires RetriesWait(INIT, steps)
    ensures !TwoUnsettled(Run(INIT, steps))
  {
    WaitingRunsKeep(INIT, steps);
    AtMostLastUnsettled(Run(INIT, steps));
  }

  lemma AtMostLastUnsettled(s: State)
    requires Inv(s)
    ensures forall i: nat :: Unsettled(s, i) ==> i == |s.ops| - 1 && Pending(s.ops[i])
  {
  }

  /** Where retries wait, a reservation succeeds only when every earlier operation is
      closed, and each one either never reached the provider and never will, or is
      expired there, or is paid and projected. */
  lemma ReservationNeedsSettledPast(steps: seq<Step>, h: nat, now: int)
    requires RetriesWait(INIT, steps)
    ensures var s := Run(INIT, steps);
            |Apply(s, Reserve(h, now)).ops| > |s.ops| ==>
            forall i :: 0 <= i < |s.ops| ==>
              && !Pending(s.ops[i]) && !Unsettled(s, i)
              && (i !in s.provider ==> i !in s.wire && forall g :: g in s.handlers ==> s.handlers[g] != Submitting(i))
  {
    WaitingRunsKeep(INIT, steps);
    var s := Run(INIT, steps);
    forall i, g | 0 <= i < |s.ops| && !Pending(s.ops[i]) && i !in s.provider && g in s.handlers
      ensures s.handlers[g] != Submitting(i)
    {
      assert Fits(s, s.handlers[g]);
    }
  }

  lemma First(s: State, step: Step, rest: seq<Step>)
    ensures Run(s, [step] + rest) == Run(Apply(s, step), rest)
  {
    assert ([step] + rest)[1..] == rest;
  }

  /** With no pending operation, a fresh purchase can always be opened next to an unsettled one. */
  lemma SecondPurchase(s: State, op: nat, h: nat)
    requires Unsettled(s, op) && h !in s.handlers && s.busy.None? && op < |s.ops|
    requires forall i :: 0 <= i < |s.ops| ==> !Pending(s.ops[i])
    requires |s.ops| !in s.provider
    ensures Breaks(s)
  {
    var n := |s.ops|;
    var s1 := Apply(s, Reserve(h, 0));
    var s2 := Apply(s1, Recheck(h, true));
    var s3 := Apply(s2, Send(h));
    var s4 := Apply(s3, Deliver(n, true, "cs_2", false));
    assert s3.handlers[h] == Awaiting(n) && n in s3.wire;
    assert Unsettled(s4, n) && Unsettled(s4, op);
    assert TwoUnsettled(s4);
    assert CleanRun(s4, []) && RetriesWait(s4, []) && Run(s4, []) == s4;
    assert Breaks(s4);
    Prefix(s3, Deliver(n, true, "cs_2", false));
    Prefix(s2, Send(h));
    Prefix(s1, Recheck(h, true));
    Prefix(s, Reserve(h, 0));
  }

  lemma FreshHandler(handlers: map<nat, Handler>) returns (h: nat)
    ensures h !in handlers
  {
    h := 0;
    var seen: set<nat> := {};
    while h in handlers
      invariant seen <= handlers.Keys && |seen| == h
      invariant forall k: nat :: k in seen <==> k < h
      decreases |handlers.Keys| - h
    {
      seen := seen + {h};
      h := h + 1;
      Subset(seen, handlers.Keys);
    }
  }

  lemma Subset(a: set<nat>, b: set<nat>)
    requires a <= b
    ensures |a| <= |b|
  {
    if a != {} {
      var x :| x in a;
      Subset(a - {x}, b - {x});
    }
  }

  /** Once the released purchase is at the provider, a second one can follow. */
  lemma ReleasedThenTwo(s: State, op: nat)
    requires Unsettled(s, op) && s.busy.None? && op < |s.ops|
    requires forall i :: 0 <= i < |s.ops| ==> !Pending(s.ops[i])
    requires forall i :: i in s.provider ==> i < |s.ops|
    ensures Breaks(s)
  {
    var h := FreshHandler(s.handlers);
    SecondPurchase(s, op, h);
  }

  lemma Prefix(s: State, step: Step)
    requires Breaks(Apply(s, step)) && !Releases(s, step) && !step.Retry?
    ensures Breaks(s)
  {
    var steps :| CleanRun(Apply(s, step), steps) && RetriesWait(Apply(s, step), steps) && TwoUnsettled(Run(Apply(s, step), steps));
    First(s, step, steps);
    assert ([step] + steps)[1..] == steps;
    assert CleanRun(s, [step] + steps) && RetriesWait(s, [step] + steps) && TwoUnsettled(Run(s, [step] + steps));
  }

  /** A release that is not clean can always be extended to two open purchases. */
  lemma DirtyReleaseBreaks(s: State, h: nat)
    requires Inv(s) && Releases(s, Recheck(h, false)) && !Clean(s, s.handlers[h].op)
    ensures Breaks(Apply(s, Recheck(h, false)))
  {
    var op := s.handlers[h].op;
    var t := Apply(s, Recheck(h, false));
    assert t == Drop(Finished(s, op, "", false), h);
    assert forall i :: 0 <= i < |t.ops| ==> !Pending(t.ops[i]);
    if op in s.provider {
      ReleasedThenTwo(t, op);
    } else {
      if op in t.wire {
        DeliverThenTwo(t, op);
      } else {
        var g :| g in s.handlers && s.handlers[g] == Submitting(op);
        assert g in t.handlers && t.handlers[g] == Submitting(op);
        DeliverThenTwo(Apply(t, Send(g)), op);
        Prefix(t, Send(g));
      }
    }
  }

  lemma DeliverThenTwo(t: State, op: nat)
    requires op in t.wire && op !in t.provider && t.busy.None? && op < |t.ops|
    requires forall i :: 0 <= i < |t.ops| ==> !Pending(t.ops[i])
    requires forall i :: i in t.provider ==> i < |t.ops|
    ensures Breaks(t)
  {
    ReleasedThenTwo(Apply(t, Deliver(op, true, "cs_1", false)), op);
    Prefix(t, Deliver(op, true, "cs_1", false));
  }

  /**
   The "not submitted" release is safe exactly when it is clean: the purchase is
   already settled at the provider, or it is not there and no request for it is in
   the network or about to be sent.
   */
  lemma ReleaseIsSafeExactlyWhenClean(s: State, h: nat)
    requires Inv(s) && Releases(s, Recheck(h, false))
    ensures Clean(s, s.handlers[h].op) <==> !Breaks(Apply(s, Recheck(h, false)))
  {
    var t := Apply(s, Recheck(h, false));
    if Clean(s, s.handlers[h].op) {
      ReleaseKeeps(s, h);
      forall steps | CleanRun(t, steps) ensures !TwoUnsettled(Run(t, steps)) {
        RunKeepsInv(t, steps);
        AtMostLastUnsettled(Run(t, steps));
      }
    } else {
      DirtyReleaseBreaks(s, h);
    }
  }

  /** A rushed retry leaves the reserving request a release that is not clean. */
  lemma RushedLeavesDirtyRelease(s: State, step: Step, g: nat)
    requires Inv(s) && Private(s) && Accepts(s, step) && g in s.handlers && s.handlers[g] == Rechecking(step.op)
    ensures var t := Apply(s, step); Inv(t) && Releases(t, Recheck(g, false)) && !Clean(t, t.handlers[g].op)
  {
    StepKeepsInv(s, step);
    var t := Apply(s, step);
    assert t.handlers[step.h] == Submitting(step.op) && t.handlers[g] == Rechecking(step.op);
  }

  /** A continuation whose retries wait opens two purchases. */
  ghost predicate CanBreak(s: State) {
    exists steps :: RetriesWait(s, steps) && TwoUnsettled(Run(s, steps))
  }

  lemma RushedRetryBreaks(s: State, step: Step)
    requires Inv(s) && Private(s) && Rushed(s, step)
    ensures CanBreak(Apply(s, step))
  {
    var g :| g in s.handlers && s.handlers[g] == Rechecking(step.op);
    RushedLeavesDirtyRelease(s, step, g);
    var t := Apply(s, step);
    var release := Recheck(g, false);
    DirtyReleaseBreaks(t, g);
    var steps :| RetriesWait(Apply(t, release), steps) && TwoUnsettled(Run(Apply(t, release), steps));
    First(t, release, steps);
    assert ([release] + steps)[1..] == steps && !Rushed(t, release);
    assert RetriesWait(t, [release] + steps);
  }

  /** The exact condition: at any point of a run whose retries waited so far, accepting a
      retry is safe for every continuation whose retries wait if and only if it is not rushed. */
  lemma RetryIsSafeExactlyWhenItWaits(steps: seq<Step>, step: Step)
    requires RetriesWait(INIT, steps) && Accepts(Run(INIT, steps), step)
    ensures var s := Run(INIT, steps); Rushed(s, step) <==> CanBreak(Apply(s, step))
  {
    var s := Run(INIT, steps);
    WaitingRunsKeep(INIT, steps);
    if Rushed(s, step) {
      RushedRetryBreaks(s, step);
    } else {
      StepKeepsInv(s, step);
      StepStaysPrivate(s, step);
      forall more | RetriesWait(Apply(s, step), more) ensures !TwoUnsettled(Run(Apply(s, step), more)) {
        WaitingRunsKeep(Apply(s, step), more);
        AtMostLastUnsettled(Run(Apply(s, step), more));
      }
    }
  }

  /** A retry is about to send while the reserving request holds a failed recheck. */
  lemma RaceState() returns (s1: State, s2: State)
    ensures s1 == Apply(INIT, Reserve(0, 0)) && s2 == Apply(s1, Retry(1, 0, 0))
    ensures Inv(s2) && Releases(s2, Recheck(0, false)) && !Clean(s2, s2.handlers[0].op)
  {
    s1 := Apply(INIT, Reserve(0, 0));
    StepKeepsInv(INIT, Reserve(0, 0));
    assert s1.ops == [Op(InProgress, "", 0)] && s1.handlers == map[0 := Rechecking(0)];
    s2 := Apply(s1, Retry(1, 0, 0));
    StepKeepsInv(s1, Retry(1, 0, 0));
    assert s2.handlers == map[0 := Rechecking(0), 1 := Submitting(0)];
    assert s2.handlers[1] == Submitting(0);
  }

  /** The race: the reserving request then releases the operation as "not submitted". */
  lemma RetryRacesRelease()
    ensures exists steps :: TwoUnsettled(Run(INIT, steps))
  {
    var s1, s2 := RaceState();
    DirtyReleaseBreaks(s2, 0);
    var steps :| RetriesWait(Apply(s2, Recheck(0, false)), steps) && TwoUnsettled(Run(Apply(s2, Recheck(0, false)), steps));
    First(s2, Recheck(0, false), steps);
    First(s1, Retry(1, 0, 0), [Recheck(0, false)] + steps);
    First(INIT, Reserve(0, 0), [Retry(1, 0, 0)] + ([Recheck(0, false)] + steps));
  }

  // ----- the steps in full ---------------------------------------------------------------------

  /** A retry is accepted exactly for an open operation without a provider reference, less than
      twenty minutes old and not from the future. */
  lemma RetryExactly(s: State, h: nat, op: nat, now: int)
    requires h !in s.handlers && op < |s.ops|
    ensures var o := s.ops[op];
            var good := o.status !in {Succeeded, Failed} && o.providerID == "" && o.createdAt <= now < o.createdAt + 20 * 60;
            Apply(s, Retry(h, op, now)) == if good then s.(handlers := s.handlers[h := Submitting(op)]) else s
  {
  }

  /** A reference is stored exactly on an open operation that has none or this one. */
  lemma SaveExactly(s: State, h: nat)
    requires h in s.handlers && s.handlers[h].Saving?
    ensures var op, id := s.handlers[h].op, s.handlers[h].providerID;
            var good := op < |s.ops| && s.ops[op].status !in {Succeeded, Failed} && s.ops[op].providerID in {"", id};
            Apply(s, Save(h, true)) == s.(handlers := s.handlers - {h},
                                          ops := if good then s.ops[op := Op(ReconcileNeeded, id, s.ops[op].createdAt)] else s.ops)
  {
  }

  /** A reconciliation confirms exactly an open operation with a reference whose purchase is
      expired, or paid with its projection in place, and confirms it as that. */
  lemma ObserveExactly(s: State, h: nat, op: nat)
    requires h !in s.handlers && op < |s.ops|
    ensures var o := s.ops[op];
            var seen := o.status !in {Succeeded, Failed} && o.providerID != "" && op in s.provider;
            Apply(s, Observe(h, op)) ==
            if seen && s.provider[op].state == Expired then s.(handlers := s.handlers[h := Confirming(op, false, o.providerID)])
            else if seen && s.provider[op].state == Paid && op in s.projected then s.(handlers := s.handlers[h := Confirming(op, true, o.providerID)])
            else s
  {
  }

  /** Confirming closes the operation and frees the gate exactly while it is open, holds the gate
      and has no other reference: as succeeded if it was paid, else as failed. */
  lemma ConfirmExactly(s: State, h: nat)
    requires h in s.handlers && s.handlers[h].Confirming?
    ensures var me := s.handlers[h];
            var good := && me.op < |s.ops| && s.ops[me.op].status !in {Succeeded, Failed} && s.busy == Some(me.op)
                        && s.ops[me.op].providerID in {"", me.providerID};
            var t := Apply(s, Confirm(h, true));
            && (!good ==> t == s.(handlers := s.handlers - {h}))
            && (good ==> t == s.(handlers := s.handlers - {h}, busy := None,
                                 ops := s.ops[me.op := Op(if me.paid then Succeeded else Failed, me.providerID, s.ops[me.op].createdAt)]))
  {
  }

  /** A failed recheck closes the operation as failed under the same condition. */
  lemma RecheckExactly(s: State, h: nat)
    requires h in s.handlers && s.handlers[h].Rechecking?
    ensures var op := s.handlers[h].op;
            var good := op < |s.ops| && s.ops[op].status !in {Succeeded, Failed} && s.busy == Some(op) && s.ops[op].providerID == "";
            var t := Apply(s, Recheck(h, false));
            && Apply(s, Recheck(h, true)) == s.(handlers := s.handlers[h := Submitting(op)])
            && (!good ==> t == s.(handlers := s.handlers - {h}))
            && (good ==> t == s.(handlers := s.handlers - {h}, busy := None, ops := s.ops[op := Op(Failed, "", s.ops[op].createdAt)]))
  {
  }

  /** Every open operation can be brought to its end: from a state in which it holds the gate, its
      reference is stored and nobody is using handler `h`, the provider's expiry, a reconciliation
      and a confirmation close it and let the account buy again. */
  lemma ExpiredPurchaseIsReleased(s: State, h: nat, op: nat)
    requires op < |s.ops| && Pending(s.ops[op]) && s.busy == Some(op) && s.ops[op].providerID != "" && h !in s.handlers
    requires op in s.provider && s.provider[op].state == Live
    ensures var t := Apply(Apply(Apply(s, Expire(op)), Observe(h, op)), Confirm(h, true));
            t.busy.None? && t.ops[op].status == Failed && t.handlers == s.handlers && !Unsettled(t, op)
  {
    ObserveExactly(Apply(s, Expire(op)), h, op);
    ConfirmExactly(Apply(Apply(s, Expire(op)), Observe(h, op)), h);
    assert s.handlers[h := Confirming(op, false, s.ops[op].providerID)] - {h} == s.handlers;
  }

  /** And a paid one once its projection is in place. */
  lemma PaidPurchaseIsReleased(s: State, h: nat, op: nat)
    requires op < |s.ops| && Pending(s.ops[op]) && s.busy == Some(op) && s.ops[op].providerID != "" && h !in s.handlers
    requires op in s.provider && s.provider[op].state == Live
    ensures var t := Apply(Apply(Apply(Apply(s, Pay(op)), Project(op)), Observe(h, op)), Confirm(h, true));
            t.busy.None? && t.ops[op].status == Succeeded && t.handlers == s.handlers && !Unsettled(t, op)
  {
    var u := Apply(Apply(s, Pay(op)), Project(op));
    ObserveExactly(u, h, op);
    ConfirmExactly(Apply(u, Observe(h, op)), h);
    assert s.handlers[h := Confirming(op, true, s.ops[op].providerID)] - {h} == s.handlers;
  }

  /** A purchase is open at the provider exactly while it is live, or paid without its projection. */
  lemma UnsettledExactly(s: State, op: nat)
    ensures Unsettled(s, op) <==> op in s.provider && (s.provider[op].state == Live || (s.provider[op].state == Paid && op !in s.projected))
  {
  }
}
