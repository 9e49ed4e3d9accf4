/**
 Every run of the refund executor: handlers interleave, crash, lose responses
 and fail to finish; webhooks race them.  The durable record is fenced by its
 attempt counter.
 */
module RefundProtocol {
  import opened Finance
  import opened Text
  import opened RefundExecutor

  const ATTEMPT_EXPIRY := 120 // seconds an unfinished attempt blocks the next claim

  /** The durable part; `started` is the saved "provider_request_started" marker. */
  datatype Record = Record(providerID: string, status: OpStatus, attempts: nat, started: Option<bool>, updatedAt: int)

  datatype PC =
    | Loading | Querying | Checkpointing | Posting | Validating
    | Recording | Cancelling | Revoking | Finishing

  /** One execution of runSubscriptionRefund after a successful claim. */
  datatype Handler = Handler(
    pc: PC, attempt: nat, mayHaveSubmitted: bool, boundID: string,
    refund: Option<Refund>, failed: bool)

  /** A refund some validation accepted, with the local facts it was checked against. */
  datatype Accepted = Accepted(refund: Refund, facts: Facts)

  datatype State = State(
    head: Head,
    record: Option<Record>,
    handlers: map<nat, Handler>,
    posts: seq<nat>,              // attempt numbers that sent POST /refunds, in order
    accepted: seq<Accepted>,
    fact: Option<Refund>,         // the ledger fact stored under the operation key
    canceled: bool,               // the remote subscription is known canceled
    revoked: bool)                // local paid access has been revoked

  datatype Step =
    | Claim(h: nat, admitted: bool, now: int)
    | Load(h: nat, facts: Option<Facts>)
    | Query(h: nat, outcome: QueryOutcome)
    | Checkpoint(h: nat, committed: bool, acknowledged: bool, now: int)
    | Post(h: nat, sent: bool, response: Option<Refund>)
    | Validate(h: nat, facts: Option<Facts>)
    | RecordFact(h: nat, facts: Option<Facts>, stored: bool)
    | Cancel(h: nat, ok: bool)
    | Revoke(h: nat, ok: bool)
    | Finish(h: nat, committed: bool, now: int)
    | Crash(h: nat)
    | Webhook(refund: Refund, facts: Option<Facts>, stored: bool)

  function Init(head: Head): State {
    State(head, None, map[], [], [], None, false, false)
  }

  // ----- store operations ------------------------------------------------------

  /** BeginFinanceOperation's claim condition on a stored record. */
  predicate Claimable(r: Record, now: int) {
    match r.status
    case InProgress => now - r.updatedAt > ATTEMPT_EXPIRY
    case Succeeded => false
    case Pending => true
    case Failed => true
    case ReconcileNeeded => true
  }

  predicate CanClaim(record: Option<Record>, admitted: bool, now: int) {
    admitted && (record.None? || Claimable(record.value, now))
  }

  function ClaimedRecord(record: Option<Record>, now: int): Record {
    if record.None? then Record("", InProgress, 1, None, now)
    else record.value.(status := InProgress, attempts := record.value.attempts + 1, updatedAt := now)
  }

  /** A saved marker decides; without one only the first attempt is unambiguous. */
  function InitialDoubt(r: Record): bool {
    if r.started.Some? then r.started.value else r.attempts > 1
  }

  function NewHandler(r: Record): Handler {
    Handler(Loading, r.attempts, InitialDoubt(r), r.providerID, None, false)
  }

  predicate Fence(record: Option<Record>, attempt: nat) {
    record.Some? && record.value.status == InProgress && record.value.attempts == attempt
  }

  function ProviderIDOf(h: Handler): string {
    if h.refund.Some? then h.refund.value.id else ""
  }

  predicate CanFinish(record: Option<Record>, h: Handler) {
    && Fence(record, h.attempt)
    && (record.value.providerID == "" || ProviderIDOf(h) == "" || record.value.providerID == ProviderIDOf(h))
  }

  function FinishedRecord(r: Record, h: Handler, now: int): Record {
    Record(if r.providerID != "" then r.providerID else ProviderIDOf(h),
           if h.failed then ReconcileNeeded else Succeeded, r.attempts, Some(h.mayHaveSubmitted), now)
  }

  predicate SameFact(a: Refund, b: Refund) {
    a.id == b.id && a.amount == b.amount && EqualFold(a.currency, b.currency) && a.created == b.created
  }

  /** recordStripeRefund for a refund carrying the operation key. */
  predicate MayRecord(head: Head, record: Option<Record>, fact: Option<Refund>, r: Refund, facts: Option<Facts>, stored: bool) {
    && stored && r.status == "succeeded" && r.operationKey == head.key
    && record.Some? && record.value.status != Failed
    && Validates(head, record.value.providerID, facts, r)
    && (fact.None? || SameFact(fact.value, r))
  }

  predicate CanRecord(s: State, r: Refund, facts: Option<Facts>, stored: bool) {
    MayRecord(s.head, s.record, s.fact, r, facts, stored)
  }

  /** The fact and the operation's reference are bound in one transaction. */
  function Recorded(s: State, r: Refund, facts: Facts): State
    requires s.record.Some?
  {
    s.(record := Some(s.record.value.(providerID := r.id)),
       fact := if s.fact.Some? then s.fact else Some(r),
       accepted := s.accepted + [Accepted(r, facts)])
  }

  // ----- steps -----------------------------------------------------------------

  function Put(s: State, h: nat, handler: Handler): State {
    s.(handlers := s.handlers[h := handler])
  }

  function Fail(s: State, h: nat, handler: Handler): State {
    Put(s, h, handler.(pc := Finishing, failed := true))
  }

  predicate At(s: State, h: nat, pc: PC) {
    h in s.handlers && s.handlers[h].pc == pc
  }

  function DoQuery(s: State, h: nat, outcome: QueryOutcome): State
    requires At(s, h, Querying)
  {
    var me := s.handlers[h];
    match outcome
    case QueryError => Fail(s, h, me)
    case QueryNone =>
      if me.mayHaveSubmitted then Fail(s, h, me)
      else Put(s, h, me.(pc := Checkpointing, mayHaveSubmitted := true))
    case QueryFound(r) => Put(s, h, me.(pc := Validating, mayHaveSubmitted := true, refund := Some(r)))
  }

  function AfterCheckpoint(me: Handler, acknowledged: bool): Handler {
    if acknowledged then me.(pc := Posting) else me.(pc := Finishing, failed := true)
  }

  function DoCheckpoint(s: State, h: nat, committed: bool, acknowledged: bool, now: int): State
    requires At(s, h, Checkpointing)
  {
    var me := s.handlers[h];
    if committed && Fence(s.record, me.attempt) then
      Put(s.(record := Some(s.record.value.(started := Some(true), updatedAt := now))), h, AfterCheckpoint(me, acknowledged))
    else Fail(s, h, me)
  }

  function DoPost(s: State, h: nat, sent: bool, response: Option<Refund>): State
    requires At(s, h, Posting)
  {
    var me := s.handlers[h];
    var after := if sent then s.(posts := s.posts + [me.attempt]) else s;
    if sent && response.Some? then Put(after, h, me.(pc := Validating, refund := response)) else Fail(after, h, me)
  }

  function DoValidate(s: State, h: nat, facts: Option<Facts>): State
    requires At(s, h, Validating)
  {
    var me := s.handlers[h];
    if me.refund.Some? && Validates(s.head, me.boundID, facts, me.refund.value) then
      var noted := s.(accepted := s.accepted + [Accepted(me.refund.value, facts.value)]);
      if me.refund.value.status == "succeeded" then Put(noted, h, me.(pc := Recording)) else Fail(noted, h, me)
    else Fail(s, h, me.(refund := None))
  }

  function DoRecord(s: State, h: nat, facts: Option<Facts>, stored: bool): State
    requires At(s, h, Recording)
  {
    var me := s.handlers[h];
    if me.refund.Some? && CanRecord(s, me.refund.value, facts, stored)
    then Put(Recorded(s, me.refund.value, facts.value), h, me.(pc := Cancelling))
    else Fail(s, h, me)
  }

  function DoFinish(s: State, h: nat, committed: bool, now: int): State
    requires At(s, h, Finishing)
  {
    var me := s.handlers[h];
    var gone := s.(handlers := s.handlers - {h});
    if committed && CanFinish(s.record, me) then gone.(record := Some(FinishedRecord(s.record.value, me, now))) else gone
  }

  /** One step; a step that is not enabled changes nothing. */
  function Apply(s: State, step: Step): State {
    match step
    case Claim(h, admitted, now) =>
      if h !in s.handlers && CanClaim(s.record, admitted, now)
      then var r := ClaimedRecord(s.record, now); Put(s.(record := Some(r)), h, NewHandler(r))
      else s
    case Load(h, facts) =>
      if !At(s, h, Loading) then s
      else if facts.Some? && IntentHolds(s.head, facts.value) then Put(s, h, s.handlers[h].(pc := Querying))
      else Fail(s, h, s.handlers[h])
    case Query(h, outcome) => if At(s, h, Querying) then DoQuery(s, h, outcome) else s
    case Checkpoint(h, committed, acknowledged, now) =>
      if At(s, h, Checkpointing) then DoCheckpoint(s, h, committed, acknowledged, now) else s
    case Post(h, sent, response) => if At(s, h, Posting) then DoPost(s, h, sent, response) else s
    case Validate(h, facts) => if At(s, h, Validating) then DoValidate(s, h, facts) else s
    case RecordFact(h, facts, stored) => if At(s, h, Recording) then DoRecord(s, h, facts, stored) else s
    case Cancel(h, ok) =>
      if !At(s, h, Cancelling) then s
      else if ok then Put(s.(canceled := true), h, s.handlers[h].(pc := Revoking))
      else Fail(s, h, s.handlers[h])
    case Revoke(h, ok) =>
      if !At(s, h, Revoking) then s
      else if ok then Put(s.(revoked := true), h, s.handlers[h].(pc := Finishing))
      else Fail(s, h, s.handlers[h])
    case Finish(h, committed, now) => if At(s, h, Finishing) then DoFinish(s, h, committed, now) else s
    case Crash(h) => s.(handlers := s.handlers - {h})
    case Webhook(r, facts, stored) =>
      if CanRecord(s, r, facts, stored) then Recorded(s, r, facts.value) else s
  }

  function Run(s: State, steps: seq<Step>): State
    decreases |steps|
  {
    if steps == [] then s else Run(Apply(s, steps[0]), steps[1..])
  }

  // ----- the invariant ---------------------------------------------------------

  predicate Marked(record: Option<Record>) {
    record.Some? && record.value.started == Some(true)
  }

  predicate Accepts(accepted: seq<Accepted>, id: string) {
    exists k :: 0 <= k < |accepted| && accepted[k].refund.id == id
  }

  /** Every accepted refund passed validation against the pinned intent. */
  ghost predicate AllValidated(head: Head, accepted: seq<Accepted>) {
    forall k :: 0 <= k < |accepted| ==> IntentHolds(head, accepted[k].facts) && Matches(head, "", accepted[k].refund)
  }

  ghost predicate Sound(record: Option<Record>, posts: seq<nat>, accepted: seq<Accepted>, fact: Option<Refund>, canceled: bool, revoked: bool) {
    && (record.None? ==> posts == [] && fact.None?)
    // at most one POST, and a POST is durably marked
    && |posts| <= 1 && (posts != [] ==> Marked(record))
    // only validated references are bound
    && (record.Some? && record.value.providerID != "" ==> Accepts(accepted, record.value.providerID))
    // success means the fact, the cancellation and the revocation all happened
    && (fact.Some? ==> record.Some? && fact.value.id == record.value.providerID != "")
    && (record.Some? && record.value.status == Succeeded ==> fact.Some? && canceled && revoked)
  }

  /** What holds of the durable record, the history and the ledger. */
  ghost predicate Core(s: State) {
    AllValidated(s.head, s.accepted) && Sound(s.record, s.posts, s.accepted, s.fact, s.canceled, s.revoked)
  }

  /** The mark keeps the current attempt from posting. */
  predicate Guarded(record: Option<Record>, posts: seq<nat>, me: Handler) {
    && record.Some? && 1 <= me.attempt <= record.value.attempts
    && (me.pc == Posting ==> Marked(record) && posts == [])
    && (me.attempt == record.value.attempts && Marked(record) ==> me.mayHaveSubmitted && me.pc != Checkpointing)
    && (me.pc in {Checkpointing, Posting, Validating, Recording, Cancelling, Revoking} ==> me.mayHaveSubmitted)
  }

  /** A handler goes on only with an accepted refund and a completed earlier stage. */
  predicate Staged(accepted: seq<Accepted>, fact: Option<Refund>, canceled: bool, revoked: bool, me: Handler) {
    && (me.refund.Some? && me.pc != Validating ==> Accepts(accepted, me.refund.value.id))
    && (me.pc in {Validating, Recording, Cancelling, Revoking} ==> me.refund.Some?)
    && (me.pc in {Cancelling, Revoking} ==> fact.Some?)
    && (me.pc == Revoking ==> canceled)
    && (me.pc == Finishing && !me.failed ==> fact.Some? && canceled && revoked)
    && (me.failed ==> me.pc == Finishing)
  }

  /** What holds of one live handler. */
  predicate Fits(s: State, me: Handler) {
    Guarded(s.record, s.posts, me) && Staged(s.accepted, s.fact, s.canceled, s.revoked, me)
  }

  /** Attempt numbers are handed out once, and at most one handler is about to post. */
  ghost predicate Apart(handlers: map<nat, Handler>) {
    forall h, g :: h in handlers && g in handlers && h != g ==>
                     && handlers[h].attempt != handlers[g].attempt
                     && !(handlers[h].pc == Posting && handlers[g].pc == Posting)
  }

  ghost predicate Inv(s: State) {
    Core(s) && Apart(s.handlers) && forall h :: h in s.handlers ==> Fits(s, s.handlers[h])
  }

  lemma ApartGrows(handlers: map<nat, Handler>, h: nat, me: Handler)
    requires Apart(handlers)
    requires forall g :: g in handlers && g != h ==> handlers[g].attempt != me.attempt && !(handlers[g].pc == Posting && me.pc == Posting)
    ensures Apart(handlers[h := me])
  {
  }

  /** Replacing one handler by one with the same attempt keeps the invariant. */
  lemma PutKeeps(s: State, h: nat, me: Handler)
    requires Inv(s) && h in s.handlers && Fits(s, me) && me.attempt == s.handlers[h].attempt
    requires me.pc == Posting ==> forall g :: g in s.handlers && g != h ==> s.handlers[g].pc != Posting
    ensures Inv(Put(s, h, me))
  {
    var t := Put(s, h, me);
    ApartGrows(s.handlers, h, me);
    forall g | g in t.handlers ensures Fits(t, t.handlers[g]) {
      assert Fits(s, t.handlers[g]);
    }
  }

  lemma AddKeeps(s: State, h: nat, me: Handler)
    requires Inv(s) && h !in s.handlers && Fits(s, me)
    requires forall g :: g in s.handlers ==> s.handlers[g].attempt != me.attempt
    requires me.pc == Posting ==> forall g :: g in s.handlers ==> s.handlers[g].pc != Posting
    ensures Inv(Put(s, h, me))
  {
    var t := Put(s, h, me);
    ApartGrows(s.handlers, h, me);
    forall g | g in t.handlers ensures Fits(t, t.handlers[g]) {
      assert Fits(s, t.handlers[g]);
    }
  }

  lemma FailKeeps(s: State, h: nat, me: Handler)
    requires Inv(s) && h in s.handlers && me.attempt == s.handlers[h].attempt
    requires Fits(s, me.(pc := Finishing, failed := true))
    ensures Inv(Fail(s, h, me))
  {
    PutKeeps(s, h, me.(pc := Finishing, failed := true));
  }

  lemma ClaimKeeps(s: State, h: nat, admitted: bool, now: int)
    requires Inv(s)
    ensures Inv(Apply(s, Claim(h, admitted, now)))
  {
    if h !in s.handlers && CanClaim(s.record, admitted, now) {
      var r := ClaimedRecord(s.record, now);
      var t := Put(s.(record := Some(r)), h, NewHandler(r));
      forall g | g in t.handlers ensures Fits(t, t.handlers[g]) {
        if g != h { assert Fits(s, s.handlers[g]); }
      }
      forall g | g in s.handlers ensures s.handlers[g].attempt < r.attempts {
        assert Fits(s, s.handlers[g]);
      }
    }
  }

  /** Saving the marker while `h` is current and unmarked suits every other handler. */
  lemma MarkSuitsOthers(s: State, h: nat, g: nat, now: int)
    requires Inv(s) && At(s, h, Checkpointing) && Fence(s.record, s.handlers[h].attempt)
    requires g in s.handlers && g != h
    ensures s.handlers[g].pc != Posting
    ensures Fits(s.(record := Some(s.record.value.(started := Some(true), updatedAt := now))), s.handlers[g])
  {
    assert Fits(s, s.handlers[h]) && Fits(s, s.handlers[g]);
    var t := s.(record := Some(s.record.value.(started := Some(true), updatedAt := now)));
  }

  /** The state right after a committed checkpoint, before its handler goes on. */
  function MarkedWithout(s: State, h: nat, now: int): State
    requires s.record.Some?
  {
    s.(record := Some(s.record.value.(started := Some(true), updatedAt := now)), handlers := s.handlers - {h})
  }

  lemma MarkKeeps(s: State, h: nat, now: int)
    requires Inv(s) && At(s, h, Checkpointing) && Fence(s.record, s.handlers[h].attempt)
    ensures Inv(MarkedWithout(s, h, now))
    ensures forall g :: g in s.handlers && g != h ==>
              s.handlers[g].pc != Posting && s.handlers[g].attempt != s.handlers[h].attempt
  {
    var t := MarkedWithout(s, h, now);
    forall g | g in t.handlers ensures Fits(t, t.handlers[g]) && t.handlers[g].pc != Posting {
      MarkSuitsOthers(s, h, g, now);
      assert Fits(s.(record := t.record), s.handlers[g]);
    }
  }

  lemma MarkSuitsSelf(s: State, h: nat, acknowledged: bool, now: int)
    requires Inv(s) && At(s, h, Checkpointing) && Fence(s.record, s.handlers[h].attempt)
    ensures Fits(MarkedWithout(s, h, now), AfterCheckpoint(s.handlers[h], acknowledged))
  {
    assert Fits(s, s.handlers[h]);
    var t := MarkedWithout(s, h, now);
  }

  lemma CommitKeeps(s: State, h: nat, acknowledged: bool, now: int)
    requires Inv(s) && At(s, h, Checkpointing) && Fence(s.record, s.handlers[h].attempt)
    ensures Inv(Put(MarkedWithout(s, h, now), h, AfterCheckpoint(s.handlers[h], acknowledged)))
  {
    MarkKeeps(s, h, now);
    MarkSuitsSelf(s, h, acknowledged, now);
    AddKeeps(MarkedWithout(s, h, now), h, AfterCheckpoint(s.handlers[h], acknowledged));
  }

  lemma CheckpointKeeps(s: State, h: nat, committed: bool, acknowledged: bool, now: int)
    requires Inv(s) && At(s, h, Checkpointing)
    ensures Inv(DoCheckpoint(s, h, committed, acknowledged, now))
  {
    var me := s.handlers[h];
    if committed && Fence(s.record, me.attempt) {
      CommitKeeps(s, h, acknowledged, now);
      var mine := AfterCheckpoint(me, acknowledged);
      assert (s.handlers - {h})[h := mine] == s.handlers[h := mine];
      assert DoCheckpoint(s, h, committed, acknowledged, now) == Put(MarkedWithout(s, h, now), h, mine);
    } else {
      assert Fits(s, me);
      FailKeeps(s, h, me);
    }
  }

  lemma PostKeeps(s: State, h: nat, sent: bool, response: Option<Refund>)
    requires Inv(s) && At(s, h, Posting)
    ensures Inv(DoPost(s, h, sent, response))
  {
    var t := DoPost(s, h, sent, response);
    assert Fits(s, s.handlers[h]);
    forall g | g in t.handlers ensures Fits(t, t.handlers[g]) {
      assert Fits(s, s.handlers[g]);
    }
  }

  /** Accepting one more reference keeps every earlier acceptance. */
  lemma AcceptKeeps(s: State, r: Refund, facts: Facts)
    requires Inv(s) && IntentHolds(s.head, facts) && Matches(s.head, "", r)
    ensures var t := s.(accepted := s.accepted + [Accepted(r, facts)]); Inv(t) && Accepts(t.accepted, r.id)
  {
    var t := s.(accepted := s.accepted + [Accepted(r, facts)]);
    assert t.accepted[|s.accepted|].refund == r;
    forall id | Accepts(s.accepted, id) ensures Accepts(t.accepted, id) {
      var k :| 0 <= k < |s.accepted| && s.accepted[k].refund.id == id;
      assert t.accepted[k] == s.accepted[k];
    }
    forall g | g in t.handlers ensures Fits(t, t.handlers[g]) {
      assert Fits(s, s.handlers[g]);
    }
  }

  lemma RecordedKeeps(s: State, r: Refund, facts: Facts)
    requires Inv(s) && s.record.Some? && Validates(s.head, s.record.value.providerID, Some(facts), r)
    requires s.fact.None? || SameFact(s.fact.value, r)
    ensures Inv(Recorded(s, r, facts))
  {
    AcceptKeeps(s, r, facts);
    var m := s.(accepted := s.accepted + [Accepted(r, facts)]);
    var t := Recorded(s, r, facts);
    forall g | g in t.handlers ensures Fits(t, t.handlers[g]) {
      assert Fits(m, m.handlers[g]);
    }
  }

  lemma ValidateKeeps(s: State, h: nat, facts: Option<Facts>)
    requires Inv(s) && At(s, h, Validating)
    ensures Inv(DoValidate(s, h, facts))
  {
    var me := s.handlers[h];
    assert Fits(s, me);
    if Validates(s.head, me.boundID, facts, me.refund.value) {
      AcceptKeeps(s, me.refund.value, facts.value);
      var noted := s.(accepted := s.accepted + [Accepted(me.refund.value, facts.value)]);
      if me.refund.value.status == "succeeded" {
        PutKeeps(noted, h, me.(pc := Recording));
      } else {
        FailKeeps(noted, h, me);
      }
    } else {
      FailKeeps(s, h, me.(refund := None));
    }
  }

  lemma RecordKeeps(s: State, h: nat, facts: Option<Facts>, stored: bool)
    requires Inv(s) && At(s, h, Recording)
    ensures Inv(DoRecord(s, h, facts, stored))
  {
    var me := s.handlers[h];
    assert Fits(s, me);
    if CanRecord(s, me.refund.value, facts, stored) {
      RecordedKeeps(s, me.refund.value, facts.value);
      var t := Recorded(s, me.refund.value, facts.value);
      assert Fits(t, t.handlers[h]);
      PutKeeps(t, h, me.(pc := Cancelling));
    } else {
      FailKeeps(s, h, me);
    }
  }

  lemma CancelKeeps(s: State, h: nat, ok: bool)
    requires Inv(s) && At(s, h, Cancelling)
    ensures Inv(Apply(s, Cancel(h, ok)))
  {
    var t := s.(canceled := true);
    forall g | g in s.handlers ensures Fits(t, s.handlers[g]) {
      assert Fits(s, s.handlers[g]);
    }
    if ok { PutKeeps(t, h, s.handlers[h].(pc := Revoking)); } else { FailKeeps(s, h, s.handlers[h]); }
  }

  lemma RevokeKeeps(s: State, h: nat, ok: bool)
    requires Inv(s) && At(s, h, Revoking)
    ensures Inv(Apply(s, Revoke(h, ok)))
  {
    var t := s.(revoked := true);
    forall g | g in s.handlers ensures Fits(t, s.handlers[g]) {
      assert Fits(s, s.handlers[g]);
    }
    if ok { PutKeeps(t, h, s.handlers[h].(pc := Finishing)); } else { FailKeeps(s, h, s.handlers[h]); }
  }

  lemma LoadKeeps(s: State, h: nat, facts: Option<Facts>)
    requires Inv(s) && At(s, h, Loading)
    ensures Inv(Apply(s, Load(h, facts)))
  {
    assert Fits(s, s.handlers[h]);
    if facts.Some? && IntentHolds(s.head, facts.value) {
      PutKeeps(s, h, s.handlers[h].(pc := Querying));
    } else {
      FailKeeps(s, h, s.handlers[h]);
    }
  }

  lemma QueryKeeps(s: State, h: nat, outcome: QueryOutcome)
    requires Inv(s) && At(s, h, Querying)
    ensures Inv(DoQuery(s, h, outcome))
  {
    var me := s.handlers[h];
    assert Fits(s, me);
    match outcome {
      case QueryError => FailKeeps(s, h, me);
      case QueryNone =>
        if me.mayHaveSubmitted { FailKeeps(s, h, me); }
        else { PutKeeps(s, h, me.(pc := Checkpointing, mayHaveSubmitted := true)); }
      case QueryFound(r) =>
        PutKeeps(s, h, me.(pc := Validating, mayHaveSubmitted := true, refund := Some(r)));
    }
  }

  lemma CrashKeeps(s: State, h: nat)
    requires Inv(s)
    ensures Inv(s.(handlers := s.handlers - {h}))
  {
    var t := s.(handlers := s.handlers - {h});
    forall g | g in t.handlers ensures Fits(t, t.handlers[g]) { assert Fits(s, s.handlers[g]); }
  }

  lemma FinishKeeps(s: State, h: nat, committed: bool, now: int)
    requires Inv(s) && At(s, h, Finishing)
    ensures Inv(DoFinish(s, h, committed, now))
  {
    var me := s.handlers[h];
    assert Fits(s, me);
    var t := DoFinish(s, h, committed, now);
    forall g | g in t.handlers ensures Fits(t, t.handlers[g]) {
      assert Fits(s, s.handlers[g]) && s.handlers[g].attempt != me.attempt;
    }
  }

  lemma StepKeepsInv(s: State, step: Step)
    requires Inv(s)
    ensures Inv(Apply(s, step))
  {
    match step {
      case Claim(h, admitted, now) => ClaimKeeps(s, h, admitted, now);
      case Load(h, facts) => if At(s, h, Loading) { LoadKeeps(s, h, facts); }
      case Query(h, outcome) => if At(s, h, Querying) { QueryKeeps(s, h, outcome); }
      case Checkpoint(h, committed, acknowledged, now) =>
        if At(s, h, Checkpointing) { CheckpointKeeps(s, h, committed, acknowledged, now); }
      case Post(h, sent, response) => if At(s, h, Posting) { PostKeeps(s, h, sent, response); }
      case Validate(h, facts) => if At(s, h, Validating) { ValidateKeeps(s, h, facts); }
      case RecordFact(h, facts, stored) => if At(s, h, Recording) { RecordKeeps(s, h, facts, stored); }
      case Cancel(h, ok) => if At(s, h, Cancelling) { CancelKeeps(s, h, ok); }
      case Revoke(h, ok) => if At(s, h, Revoking) { RevokeKeeps(s, h, ok); }
      case Finish(h, committed, now) => if At(s, h, Finishing) { FinishKeeps(s, h, committed, now); }
      case Crash(h) => CrashKeeps(s, h);
      case Webhook(r, facts, stored) =>
        if CanRecord(s, r, facts, stored) { RecordedKeeps(s, r, facts.value); }
    }
  }

  lemma {:induction false} RunKeepsInv(s: State, steps: seq<Step>)
    requires Inv(s)
    ensures Inv(Run(s, steps))
    decreases |steps|
  {
    if steps != [] {
      StepKeepsInv(s, steps[0]);
      RunKeepsInv(Apply(s, steps[0]), steps[1..]);
    }
  }

  // ----- whole runs ------------------------------------------------------------

  /** However attempts crash, overlap and lose responses, at most one POST is ever sent. */
  lemma AtMostOnePost(head: Head, steps: seq<Step>)
    ensures |Run(Init(head), steps).posts| <= 1
  {
    RunKeepsInv(Init(head), steps);
  }

  /** In every run a bound provider reference belongs to an accepted refund that agrees with
      the pinned intent in everything, and the local payment, invoice and subscription it
      was checked against carry the same amount, account and subscription. */
  lemma BoundReferenceWasValidated(head: Head, steps: seq<Step>)
    ensures var s := Run(Init(head), steps);
            s.record.Some? && s.record.value.providerID != "" ==>
            && head.intent.Some?
            && exists n: nat, k: nat, m: nat ::
                 && n < |s.accepted| && Backs(head, head.intent.value, s.accepted[n].facts, k, m)
                 && var i, r := head.intent.value, s.accepted[n].refund;
                 && r.id == s.record.value.providerID && r.amount == i.amount && r.paymentIntent == i.paymentIntentID
                 && Lower(r.currency) == Lower(i.currency) && r.operationKey == head.key && "re_" <= r.id && r.created > 0
  {
    var s := Run(Init(head), steps);
    RunKeepsInv(Init(head), steps);
    HeadStays(Init(head), steps);
    if s.record.Some? && s.record.value.providerID != "" {
      var n :| 0 <= n < |s.accepted| && s.accepted[n].refund.id == s.record.value.providerID;
      ValidatesExactly(head, "", Some(s.accepted[n].facts), s.accepted[n].refund);
      var k: nat, m: nat :| Backs(head, head.intent.value, s.accepted[n].facts, k, m);
    }
  }

  lemma {:induction false} HeadStays(s: State, steps: seq<Step>)
    ensures Run(s, steps).head == s.head
    decreases |steps|
  {
    if steps != [] {
      StepKeepsHead(s, steps[0]);
      HeadStays(Apply(s, steps[0]), steps[1..]);
    }
  }

  lemma StepKeepsHead(s: State, step: Step)
    ensures Apply(s, step).head == s.head
  {
  }

  /** The converse, step by step: the validation of a refund accepts it, and goes on to record
      it if it has succeeded, exactly when it agrees with the intent, no other refund is bound
      and local rows back the intent; otherwise the attempt fails with nothing accepted. */
  lemma ValidationAcceptsExactly(s: State, h: nat, facts: Option<Facts>)
    requires At(s, h, Validating) && s.handlers[h].refund.Some?
    ensures var t, me := Apply(s, Validate(h, facts)), s.handlers[h];
            var good := && facts.Some? && s.head.intent.Some? && Agrees(s.head.key, s.head.intent.value, me.refund.value)
                        && me.boundID in {"", me.refund.value.id}
                        && exists k: nat, m: nat :: Backs(s.head, s.head.intent.value, facts.value, k, m);
            && (good ==> t.accepted == s.accepted + [Accepted(me.refund.value, facts.value)])
            && (good && me.refund.value.status == "succeeded" ==> t.handlers[h] == me.(pc := Recording))
            && (good && me.refund.value.status != "succeeded" ==> t.handlers[h] == me.(pc := Finishing, failed := true))
            && (!good ==> t.accepted == s.accepted && t.handlers[h] == me.(pc := Finishing, failed := true, refund := None))
  {
    ValidatesExactly(s.head, s.handlers[h].boundID, facts, s.handlers[h].refund.value);
  }

  /** A refund is bound and recorded by a webhook, and under the same condition by a handler,
      exactly when it succeeded, passes the same checks against the stored reference, the operation has not failed for
      good, and no other fact is stored under the key. */
  lemma RecordingBindsExactly(s: State, r: Refund, facts: Option<Facts>, stored: bool)
    requires s.record.Some?
    ensures var t := Apply(s, Webhook(r, facts, stored));
            var good := && stored && facts.Some? && s.head.intent.Some? && r.status == "succeeded"
                        && Agrees(s.head.key, s.head.intent.value, r) && s.record.value.providerID in {"", r.id}
                        && s.record.value.status != Failed
                        && (s.fact.None? || (s.fact.value.id == r.id && s.fact.value.amount == r.amount && s.fact.value.created == r.created
                                             && Lower(s.fact.value.currency) == Lower(r.currency)))
                        && exists k: nat, m: nat :: Backs(s.head, s.head.intent.value, facts.value, k, m);
            && (good ==> t == s.(record := Some(s.record.value.(providerID := r.id)), fact := Some(if s.fact.Some? then s.fact.value else r),
                                 accepted := s.accepted + [Accepted(r, facts.value)]))
            && (!good ==> t == s)
  {
    ValidatesExactly(s.head, s.record.value.providerID, facts, r);
  }

  /** "Succeeded" is stored only once the refund fact is in the ledger under the
      bound reference, the remote subscription is canceled and access is revoked. */
  lemma SuccessIsComplete(head: Head, steps: seq<Step>)
    ensures var s := Run(Init(head), steps);
            s.record.Some? && s.record.value.status == Succeeded ==>
            s.fact.Some? && s.fact.value.id == s.record.value.providerID && s.canceled && s.revoked
  {
    RunKeepsInv(Init(head), steps);
  }

  /** One step never rewrites a bound reference, lowers the counter or reopens success. */
  predicate Advances(s: State, t: State)
    requires s.record.Some?
  {
    && t.record.Some? && t.record.value.attempts >= s.record.value.attempts
    && (s.record.value.providerID != "" ==> t.record.value.providerID == s.record.value.providerID)
    && (s.record.value.status == Succeeded ==> t.record.value.status == Succeeded)
  }

  lemma StepAdvances(s: State, step: Step)
    requires s.record.Some?
    ensures Advances(s, Apply(s, step))
  {
    match step {
      case Claim(_, _, _) =>
      case Checkpoint(_, _, _, _) =>
      case RecordFact(_, _, _) =>
      case Finish(_, _, _) =>
      case Webhook(_, _, _) =>
      case Query(_, _) =>
      case Validate(_, _) =>
      case Post(_, _, _) =>
      case Load(_, _) =>
      case Cancel(_, _) =>
      case Revoke(_, _) =>
      case Crash(_) =>
    }
  }

  /** The reference is write-once and success is final, from any state on. */
  lemma {:induction false} ReferenceIsWriteOnce(s: State, steps: seq<Step>)
    requires s.record.Some?
    ensures Advances(s, Run(s, steps))
    decreases |steps|
  {
    if steps != [] {
      StepAdvances(s, steps[0]);
      ReferenceIsWriteOnce(Apply(s, steps[0]), steps[1..]);
    }
  }

  predicate Doubtful(me: Handler) {
    me.mayHaveSubmitted && me.pc != Checkpointing && me.pc != Posting
  }

  predicate Unclear(record: Option<Record>) {
    record.Some? && record.value.attempts >= 1 && record.value.started != Some(false)
  }

  /** Nobody is, or can become, entitled to post: the outcome is in doubt. */
  ghost predicate InDoubt(s: State) {
    Unclear(s.record) && forall h :: h in s.handlers ==> Doubtful(s.handlers[h])
  }

  lemma PutStaysInDoubt(s: State, h: nat, me: Handler)
    requires InDoubt(s) && Doubtful(me)
    ensures InDoubt(Put(s, h, me)) && InDoubt(Fail(s, h, me))
  {
  }

  lemma QueryStaysInDoubt(s: State, h: nat, outcome: QueryOutcome)
    requires InDoubt(s) && At(s, h, Querying)
    ensures InDoubt(DoQuery(s, h, outcome)) && DoQuery(s, h, outcome).posts == s.posts
  {
    var me := s.handlers[h];
    PutStaysInDoubt(s, h, me);
    if outcome.QueryFound? {
      PutStaysInDoubt(s, h, me.(pc := Validating, mayHaveSubmitted := true, refund := Some(outcome.refund)));
    }
  }

  lemma ValidateStaysInDoubt(s: State, h: nat, facts: Option<Facts>)
    requires InDoubt(s) && At(s, h, Validating)
    ensures InDoubt(DoValidate(s, h, facts)) && DoValidate(s, h, facts).posts == s.posts
  {
    var me := s.handlers[h];
    PutStaysInDoubt(s, h, me.(refund := None));
    if me.refund.Some? && facts.Some? {
      var noted := s.(accepted := s.accepted + [Accepted(me.refund.value, facts.value)]);
      PutStaysInDoubt(noted, h, me.(pc := Recording));
      PutStaysInDoubt(noted, h, me);
    }
  }

  lemma RecordStaysInDoubt(s: State, h: nat, facts: Option<Facts>, stored: bool)
    requires InDoubt(s) && At(s, h, Recording)
    ensures InDoubt(DoRecord(s, h, facts, stored)) && DoRecord(s, h, facts, stored).posts == s.posts
  {
    var me := s.handlers[h];
    PutStaysInDoubt(s, h, me);
    if me.refund.Some? && facts.Some? {
      PutStaysInDoubt(Recorded(s, me.refund.value, facts.value), h, me.(pc := Cancelling));
    }
  }

  lemma FinishStaysInDoubt(s: State, h: nat, committed: bool, now: int)
    requires InDoubt(s) && At(s, h, Finishing)
    ensures InDoubt(DoFinish(s, h, committed, now)) && DoFinish(s, h, committed, now).posts == s.posts
  {
    assert Doubtful(s.handlers[h]);
  }

  lemma ClaimStaysInDoubt(s: State, h: nat, now: int)
    requires InDoubt(s)
    ensures var r := ClaimedRecord(s.record, now); InDoubt(Put(s.(record := Some(r)), h, NewHandler(r)))
  {
    var r := ClaimedRecord(s.record, now);
    PutStaysInDoubt(s.(record := Some(r)), h, NewHandler(r));
  }

  /** A step that only moves one handler on. */
  lemma MoveStaysInDoubt(s: State, h: nat, pc: PC)
    requires InDoubt(s) && h in s.handlers && pc in {Querying, Revoking, Finishing}
    ensures InDoubt(Put(s, h, s.handlers[h].(pc := pc))) && InDoubt(Fail(s, h, s.handlers[h]))
    ensures InDoubt(Put(s.(canceled := true), h, s.handlers[h].(pc := pc)))
    ensures InDoubt(Put(s.(revoked := true), h, s.handlers[h].(pc := pc)))
  {
    assert Doubtful(s.handlers[h]);
  }

  lemma StepStaysInDoubt(s: State, step: Step)
    requires InDoubt(s)
    ensures InDoubt(Apply(s, step)) && Apply(s, step).posts == s.posts
  {
    match step {
      case Claim(h, _, now) => ClaimStaysInDoubt(s, h, now);
      case Query(h, outcome) => if At(s, h, Querying) { QueryStaysInDoubt(s, h, outcome); }
      case Validate(h, facts) => if At(s, h, Validating) { ValidateStaysInDoubt(s, h, facts); }
      case RecordFact(h, facts, stored) => if At(s, h, Recording) { RecordStaysInDoubt(s, h, facts, stored); }
      case Finish(h, committed, now) => if At(s, h, Finishing) { FinishStaysInDoubt(s, h, committed, now); }
      case Load(h, _) => if At(s, h, Loading) { MoveStaysInDoubt(s, h, Querying); }
      case Cancel(h, _) => if At(s, h, Cancelling) { MoveStaysInDoubt(s, h, Revoking); }
      case Revoke(h, _) => if At(s, h, Revoking) { MoveStaysInDoubt(s, h, Finishing); }
      case Webhook(_, _, _) =>
      case Crash(_) =>
      case Checkpoint(h, _, _, _) => assert h in s.handlers ==> Doubtful(s.handlers[h]);
      case Post(h, _, _) => assert h in s.handlers ==> Doubtful(s.handlers[h]);
    }
  }

  /** A crash that left no marker only ever leads to queries, never to a POST. */
  lemma {:induction false} DoubtOnlyQueries(s: State, steps: seq<Step>)
    requires InDoubt(s)
    ensures InDoubt(Run(s, steps)) && Run(s, steps).posts == s.posts
    decreases |steps|
  {
    if steps != [] {
      StepStaysInDoubt(s, steps[0]);
      DoubtOnlyQueries(Apply(s, steps[0]), steps[1..]);
    }
  }

  lemma First(s: State, step: Step, rest: seq<Step>)
    ensures Run(s, [step] + rest) == Run(Apply(s, step), rest)
  {
    assert ([step] + rest)[1..] == rest;
  }

  /** Not a step in which `h` durably saves its marker or its outcome. */
  predicate Unsaved(step: Step, h: nat) {
    !((step.Checkpoint? || step.Finish?) && step.h == h && step.committed)
  }

  /** `h` is not about to post, and everybody else is in doubt. */
  predicate Holds(h: nat, g: nat, me: Handler) {
    if g == h then me.pc != Posting else Doubtful(me)
  }

  /** Nothing is posted, and but for `h` the outcome is in doubt. */
  ghost predicate Early(s: State, h: nat) {
    Unclear(s.record) && s.posts == [] && forall g :: g in s.handlers ==> Holds(h, g, s.handlers[g])
  }

  lemma MoveStaysEarly(s: State, h: nat, g: nat, me: Handler)
    requires Early(s, h) && g in s.handlers && Holds(h, g, me)
    ensures Early(Put(s, g, me), h) && Early(Fail(s, g, me), h)
  {
  }

  lemma RecordStaysEarly(s: State, h: nat, r: Refund, facts: Facts)
    requires Early(s, h)
    ensures Early(Recorded(s, r, facts), h)
  {
  }

  lemma ValidateStaysEarly(s: State, h: nat, g: nat, facts: Option<Facts>)
    requires Early(s, h) && At(s, g, Validating)
    ensures Early(DoValidate(s, g, facts), h)
  {
    var me := s.handlers[g];
    MoveStaysEarly(s, h, g, me.(refund := None));
    if me.refund.Some? && facts.Some? {
      var noted := s.(accepted := s.accepted + [Accepted(me.refund.value, facts.value)]);
      MoveStaysEarly(noted, h, g, me);
      MoveStaysEarly(noted, h, g, me.(pc := Recording));
    }
  }

  lemma FactStaysEarly(s: State, h: nat, g: nat, facts: Option<Facts>, stored: bool)
    requires Early(s, h) && At(s, g, Recording)
    ensures Early(DoRecord(s, g, facts, stored), h)
  {
    var me := s.handlers[g];
    MoveStaysEarly(s, h, g, me);
    if me.refund.Some? && facts.Some? {
      RecordStaysEarly(s, h, me.refund.value, facts.value);
      MoveStaysEarly(Recorded(s, me.refund.value, facts.value), h, g, me.(pc := Cancelling));
    }
  }

  lemma QueryStaysEarly(s: State, h: nat, g: nat, outcome: QueryOutcome)
    requires Early(s, h) && At(s, g, Querying)
    ensures Early(DoQuery(s, g, outcome), h)
  {
    var me := s.handlers[g];
    MoveStaysEarly(s, h, g, me);
    if g == h { MoveStaysEarly(s, h, g, me.(pc := Checkpointing, mayHaveSubmitted := true)); }
    if outcome.QueryFound? {
      MoveStaysEarly(s, h, g, me.(pc := Validating, mayHaveSubmitted := true, refund := Some(outcome.refund)));
    }
  }

  lemma EndStaysEarly(s: State, h: nat, g: nat)
    requires Early(s, h)
    ensures Early(s.(handlers := s.handlers - {g}), h)
    ensures g in s.handlers ==> Early(Put(s.(canceled := true), g, s.handlers[g].(pc := Revoking)), h)
    ensures g in s.handlers ==> Early(Put(s.(revoked := true), g, s.handlers[g].(pc := Finishing)), h)
  {
  }

  lemma FinishStaysEarly(s: State, h: nat, g: nat, committed: bool, now: int)
    requires Early(s, h) && At(s, g, Finishing) && (g == h ==> !committed)
    ensures Early(DoFinish(s, g, committed, now), h)
  {
    EndStaysEarly(s, h, g);
    assert Holds(h, g, s.handlers[g]);
  }

  /** A further claim starts in doubt. */
  lemma ClaimStaysEarly(s: State, h: nat, g: nat, now: int)
    requires Early(s, h)
    ensures var r := ClaimedRecord(s.record, now); Early(Put(s.(record := Some(r)), g, NewHandler(r)), h)
  {
    assert Holds(h, g, NewHandler(ClaimedRecord(s.record, now)));
  }

  lemma UnsavedStaysEarly(s: State, h: nat, step: Step)
    requires Early(s, h) && Unsaved(step, h)
    ensures Early(Apply(s, step), h)
  {
    match step {
      case Claim(g, _, now) => ClaimStaysEarly(s, h, g, now);
      case Load(g, _) =>
        if g in s.handlers && At(s, g, Loading) {
          MoveStaysEarly(s, h, g, s.handlers[g].(pc := Querying));
          MoveStaysEarly(s, h, g, s.handlers[g]);
        }
      case Query(g, outcome) => if At(s, g, Querying) { QueryStaysEarly(s, h, g, outcome); }
      case Checkpoint(g, _, _, _) => if At(s, g, Checkpointing) { MoveStaysEarly(s, h, g, s.handlers[g]); }
      case Post(g, _, _) => assert g in s.handlers ==> Holds(h, g, s.handlers[g]);
      case Validate(g, facts) => if At(s, g, Validating) { ValidateStaysEarly(s, h, g, facts); }
      case RecordFact(g, facts, stored) => if At(s, g, Recording) { FactStaysEarly(s, h, g, facts, stored); }
      case Cancel(g, _) =>
        EndStaysEarly(s, h, g);
        if g in s.handlers { MoveStaysEarly(s, h, g, s.handlers[g]); }
      case Revoke(g, _) =>
        EndStaysEarly(s, h, g);
        if g in s.handlers { MoveStaysEarly(s, h, g, s.handlers[g]); }
      case Finish(g, committed, now) => if At(s, g, Finishing) { FinishStaysEarly(s, h, g, committed, now); }
      case Crash(g) => EndStaysEarly(s, h, g);
      case Webhook(r, facts, _) => if s.record.Some? && facts.Some? { RecordStaysEarly(s, h, r, facts.value); }
    }
  }

  lemma {:induction false} EarlyRun(s: State, h: nat, early: seq<Step>, rest: seq<Step>)
    requires Early(s, h) && forall i :: 0 <= i < |early| ==> Unsaved(early[i], h)
    ensures Run(s, early + ([Crash(h)] + rest)).posts == []
    decreases |early|
  {
    if early == [] {
      assert [] + ([Crash(h)] + rest) == [Crash(h)] + rest;
      First(s, Crash(h), rest);
      DoubtOnlyQueries(Apply(s, Crash(h)), rest);
    } else {
      UnsavedStaysEarly(s, h, early[0]);
      assert early + ([Crash(h)] + rest) == [early[0]] + (early[1..] + ([Crash(h)] + rest));
      First(s, early[0], early[1..] + ([Crash(h)] + rest));
      assert forall i :: 0 <= i < |early[1..]| ==> early[1..][i] == early[i + 1];
      EarlyRun(Apply(s, early[0]), h, early[1..], rest);
    }
  }

  /** A first attempt that dies anywhere before it saved its marker or its outcome, whatever
      claims, attempts and webhooks came in between, leaves the operation in doubt: nothing
      ever posts. */
  lemma CrashWithoutMarkerNeverPosts(head: Head, h: nat, now: int, early: seq<Step>, rest: seq<Step>)
    requires forall i :: 0 <= i < |early| ==> Unsaved(early[i], h)
    ensures Run(Init(head), [Claim(h, true, now)] + (early + ([Crash(h)] + rest))).posts == []
  {
    First(Init(head), Claim(h, true, now), early + ([Crash(h)] + rest));
    EarlyRun(Apply(Init(head), Claim(h, true, now)), h, early, rest);
  }

  /** What the enabled steps of a plain attempt do. */
  lemma PlainClaim(s: State, h: nat, now: int)
    requires h !in s.handlers && CanClaim(s.record, true, now)
    ensures var r := ClaimedRecord(s.record, now); Apply(s, Claim(h, true, now)) == Put(s.(record := Some(r)), h, NewHandler(r))
  {
  }

  lemma PlainLoad(s: State, h: nat, facts: Option<Facts>)
    requires At(s, h, Loading) && (facts.Some? ==> IntentHolds(s.head, facts.value))
    ensures Apply(s, Load(h, facts)) == if facts.Some? then Put(s, h, s.handlers[h].(pc := Querying)) else Fail(s, h, s.handlers[h])
  {
  }

  lemma PlainFinish(s: State, h: nat, now: int)
    requires At(s, h, Finishing) && CanFinish(s.record, s.handlers[h])
    ensures Apply(s, Finish(h, true, now)) == s.(handlers := s.handlers - {h}, record := Some(FinishedRecord(s.record.value, s.handlers[h], now)))
  {
  }

  lemma PlainSubmit(s: State, h: nat, now: int)
    requires At(s, h, Querying) && !s.handlers[h].mayHaveSubmitted && Fence(s.record, s.handlers[h].attempt)
    ensures var t := Apply(Apply(Apply(s, Query(h, QueryNone)), Checkpoint(h, true, true, now)), Post(h, true, None));
            t.posts == s.posts + [s.handlers[h].attempt]
  {
    var q := Apply(s, Query(h, QueryNone));
    assert q == Put(s, h, s.handlers[h].(pc := Checkpointing, mayHaveSubmitted := true));
    var c := Apply(q, Checkpoint(h, true, true, now));
    assert At(c, h, Posting) && c.handlers[h].attempt == s.handlers[h].attempt && c.posts == s.posts;
  }

  /** A failure saved before the provider call leaves the marker at "not started". */
  lemma FailedFirstAttempt(head: Head, now: int)
    ensures var a := Apply(Apply(Apply(Init(head), Claim(0, true, now)), Load(0, None)), Finish(0, true, now));
            && a.record == Some(Record("", ReconcileNeeded, 1, Some(false), now)) && a.handlers == map[] && a.posts == [] && a.head == head
  {
    PlainClaim(Init(head), 0, now);
    var s1 := Apply(Init(head), Claim(0, true, now));
    PlainLoad(s1, 0, None);
    var s2 := Apply(s1, Load(0, None));
    PlainFinish(s2, 0, now);
  }

  lemma SecondAttemptPosts(a: State, facts: Facts, now: int)
    requires a.record == Some(Record("", ReconcileNeeded, 1, Some(false), now)) && a.handlers == map[] && a.posts == []
    requires IntentHolds(a.head, facts)
    ensures var b := Apply(Apply(a, Claim(1, true, now)), Load(1, Some(facts)));
            Apply(Apply(Apply(b, Query(1, QueryNone)), Checkpoint(1, true, true, now)), Post(1, true, None)).posts == [2]
  {
    PlainClaim(a, 1, now);
    var s1 := Apply(a, Claim(1, true, now));
    PlainLoad(s1, 1, Some(facts));
    var b := Apply(s1, Load(1, Some(facts)));
    assert b.handlers[1] == Handler(Querying, 2, false, "", None, false);
    PlainSubmit(b, 1, now);
  }

  lemma {:induction false} RunSnoc(s: State, steps: seq<Step>, step: Step)
    ensures Run(s, steps + [step]) == Apply(Run(s, steps), step)
    decreases |steps|
  {
    if steps == [] {
      assert [step][1..] == [];
    } else {
      assert (steps + [step])[1..] == steps[1..] + [step];
      RunSnoc(Apply(s, steps[0]), steps[1..], step);
    }
  }

  lemma FailedRun(head: Head, now: int) returns (steps: seq<Step>)
    ensures var a := Run(Init(head), steps);
            a.record == Some(Record("", ReconcileNeeded, 1, Some(false), now)) && a.handlers == map[] && a.posts == [] && a.head == head
  {
    var s1 := [Claim(0, true, now)];
    assert [] + s1 == s1;
    RunSnoc(Init(head), [], Claim(0, true, now));
    RunSnoc(Init(head), s1, Load(0, None));
    RunSnoc(Init(head), s1 + [Load(0, None)], Finish(0, true, now));
    FailedFirstAttempt(head, now);
    steps := s1 + [Load(0, None)] + [Finish(0, true, now)];
  }

  /** A failure saved before the provider call is retried: the second attempt may post. */
  lemma SavedFailureMayPostLater(head: Head, facts: Facts, now: int) returns (steps: seq<Step>)
    requires IntentHolds(head, facts)
    ensures Run(Init(head), steps).posts == [2]
  {
    var failed := FailedRun(head, now);
    SecondAttemptPosts(Run(Init(head), failed), facts, now);
    RunSnoc(Init(head), failed, Claim(1, true, now));
    var claimed := failed + [Claim(1, true, now)];
    RunSnoc(Init(head), claimed, Load(1, Some(facts)));
    var loaded := claimed + [Load(1, Some(facts))];
    RunSnoc(Init(head), loaded, Query(1, QueryNone));
    var queried := loaded + [Query(1, QueryNone)];
    RunSnoc(Init(head), queried, Checkpoint(1, true, true, now));
    var marked := queried + [Checkpoint(1, true, true, now)];
    RunSnoc(Init(head), marked, Post(1, true, None));
    steps := marked + [Post(1, true, None)];
  }

  // ----- the fenced steps in full ----------------------------------------------------------------

  /** An admitted claim starts an attempt exactly when there is no record, or it is neither
      succeeded nor in progress for two minutes or less; the attempt gets the next number, and
      starts in doubt exactly if the marker says so or, without one, it is not the first. */
  lemma ClaimExactly(s: State, h: nat, admitted: bool, now: int)
    requires h !in s.handlers
    ensures var t := Apply(s, Claim(h, admitted, now));
            var open := match s.record
                        case None => true
                        case Some(r) => r.status != Succeeded && (r.status == InProgress ==> now > r.updatedAt + 2 * 60);
            && (!(admitted && open) ==> t == s)
            && (admitted && open ==>
                  var before := if s.record.Some? then s.record.value else Record("", InProgress, 0, None, now);
                  var n := before.attempts + 1;
                  && t == s.(record := Some(Record(before.providerID, InProgress, n, before.started, now)), handlers := t.handlers)
                  && t.handlers == s.handlers[h := Handler(Loading, n, before.started == Some(true) || (before.started.None? && n > 1), before.providerID, None, false)])
  {
  }

  /** An attempt's end is written exactly while it is the current one in progress and its refund,
      if it has one, is not another than the bound one: success or the need to reconcile, the
      marker as the attempt left it, and the reference. */
  lemma FinishExactly(s: State, h: nat, now: int)
    requires At(s, h, Finishing)
    ensures var t, me := Apply(s, Finish(h, true, now)), s.handlers[h];
            var id := if me.refund.Some? then me.refund.value.id else "";
            var good := && s.record.Some? && s.record.value.status == InProgress && s.record.value.attempts == me.attempt
                        && (id == "" || s.record.value.providerID in {"", id});
            && t.handlers == s.handlers - {h} && t == s.(handlers := t.handlers, record := t.record)
            && (!good ==> t.record == s.record)
            && (good ==> t.record == Some(Record(if s.record.value.providerID == "" then id else s.record.value.providerID,
                                                 if me.failed then ReconcileNeeded else Succeeded, me.attempt, Some(me.mayHaveSubmitted), now)))
  {
  }

  /** The marker is saved exactly while the attempt is the current one in progress, and only an
      acknowledged save lets it post. */
  lemma CheckpointExactly(s: State, h: nat, committed: bool, acknowledged: bool, now: int)
    requires At(s, h, Checkpointing)
    ensures var t, me := Apply(s, Checkpoint(h, committed, acknowledged, now)), s.handlers[h];
            var good := committed && s.record.Some? && s.record.value.status == InProgress && s.record.value.attempts == me.attempt;
            && (good ==> t.record == Some(s.record.value.(started := Some(true), updatedAt := now)))
            && (!good ==> t.record == s.record)
            && t.handlers == s.handlers[h := if good && acknowledged then me.(pc := Posting) else me.(pc := Finishing, failed := true)]
  {
  }

  /** Cancelling and revoking go on exactly when they succeed. */
  lemma StagesExactly(s: State, h: nat, ok: bool)
    requires h in s.handlers
    ensures At(s, h, Cancelling) ==>
              Apply(s, Cancel(h, ok)) == s.(canceled := s.canceled || ok,
                                            handlers := s.handlers[h := if ok then s.handlers[h].(pc := Revoking) else s.handlers[h].(pc := Finishing, failed := true)])
    ensures At(s, h, Revoking) ==>
              Apply(s, Revoke(h, ok)) == s.(revoked := s.revoked || ok,
                                            handlers := s.handlers[h := s.handlers[h].(pc := Finishing, failed := s.handlers[h].failed || !ok)])
  {
  }
}
