/**
 runSubscriptionRefund as it is written: one handler working through the store
 and the provider, step by step.  Each method is proved to be a piece of a run of
 RefundProtocol, so the whole-run results there hold of this code.
 */
module RefundService {
  import opened Finance
  import opened Text
  import opened RefundExecutor
  import opened RefundProtocol

  /** What the database and the provider answer during one execution. */
  datatype Env = Env(
    now: int, admitted: bool, facts: Option<Facts>,
    pages: seq<Page>, direct: Option<Refund>,
    checkpointCommitted: bool, checkpointAcknowledged: bool,
    sent: bool, response: Option<Refund>,
    validationFacts: Option<Facts>, recordFacts: Option<Facts>, factStored: bool,
    cancelOk: bool, revokeOk: bool, finishCommitted: bool)

  /** `t` is reached from `s` by some run of the protocol. */
  ghost predicate Reaches(s: State, t: State) {
    exists steps :: Run(s, steps) == t
  }

  lemma {:induction false} RunAppend(s: State, a: seq<Step>, b: seq<Step>)
    ensures Run(s, a + b) == Run(Run(s, a), b)
    decreases |a|
  {
    if a == [] {
      assert a + b == b;
    } else {
      assert (a + b)[1..] == a[1..] + b;
      RunAppend(Apply(s, a[0]), a[1..], b);
    }
  }

  lemma ReachesSelf(s: State)
    ensures Reaches(s, s)
  {
    assert Run(s, []) == s;
  }

  lemma ReachesTransitive(s: State, t: State, u: State)
    requires Reaches(s, t) && Reaches(t, u)
    ensures Reaches(s, u)
  {
    var a :| Run(s, a) == t;
    var b :| Run(t, b) == u;
    RunAppend(s, a, b);
  }

  lemma ReachesStep(s: State, t: State, step: Step)
    requires Reaches(s, t)
    ensures Reaches(s, Apply(t, step))
  {
    var a :| Run(s, a) == t;
    RunAppend(s, a, [step]);
    assert [step][1..] == [];
    assert Run(t, [step]) == Apply(t, step);
  }

  lemma ReachesKeepsInv(s: State, t: State)
    requires Reaches(s, t) && Inv(s)
    ensures Inv(t)
  {
    var a :| Run(s, a) == t;
    RunKeepsInv(s, a);
  }

  predicate Ended(me: Handler) {
    me.pc == Finishing && me.failed
  }

  class Executor {
    const head: Head
    var record: Option<Record>
    var posts: seq<nat>
    var accepted: seq<Accepted>
    var fact: Option<Refund>
    var canceled: bool
    var revoked: bool

    /** The protocol state, given the other handlers that are alive. */
    ghost function World(live: map<nat, Handler>): State
      reads this
    {
      State(head, record, live, posts, accepted, fact, canceled, revoked)
    }

    /** BeginFinanceOperation. */
    method Begin(admitted: bool, now: int, ghost id: nat, ghost live: map<nat, Handler>)
      returns (claimed: bool, done: bool, me: Handler)
      requires id !in live
      modifies this`record
      ensures claimed == CanClaim(old(record), admitted, now)
      ensures claimed ==> World(live[id := me]) == Apply(old(World(live)), Claim(id, admitted, now))
      ensures claimed ==> me.pc == Loading && !me.failed && me.refund.None?
      ensures !claimed ==> record == old(record)
      ensures done ==> !claimed && record.Some? && record.value.status == Succeeded
    {
      claimed, done := false, false;
      me := Handler(Loading, 0, false, "", None, false);
      if record.Some? && record.value.status == Succeeded {
        done := admitted;
        return;
      }
      if !admitted || (record.Some? && record.value.status == InProgress && now - record.value.updatedAt <= ATTEMPT_EXPIRY) {
        return;
      }
      var next := ClaimedRecord(record, now);
      record := Some(next);
      claimed, me := true, NewHandler(next);
    }

    method LoadIntent(start: Handler, facts: Option<Facts>, ghost id: nat, ghost live: map<nat, Handler>) returns (me: Handler)
      requires id !in live && start.pc == Loading && !start.failed
      ensures World(live[id := me]) == Apply(World(live[id := start]), Load(id, facts))
      ensures Ended(me) || (me == start.(pc := Querying))
    {
      me := if facts.Some? && IntentHolds(head, facts.value) then start.(pc := Querying)
            else start.(pc := Finishing, failed := true);
      assert live[id := start][id := me] == live[id := me];
    }

    /** Query every page; only an empty complete history of an undoubted attempt goes on to the checkpoint. */
    method QueryProvider(start: Handler, env: Env, ghost id: nat, ghost live: map<nat, Handler>)
      returns (me: Handler, outcome: QueryOutcome)
      requires id !in live && start.pc == Querying && !start.failed && |env.pages| >= MAX_PAGES
      ensures World(live[id := me]) == Apply(World(live[id := start]), Query(id, outcome))
      ensures Ended(me) || (me.pc == Validating && !me.failed) || (me.pc == Checkpointing && !me.failed && !start.mayHaveSubmitted)
      ensures me.attempt == start.attempt
      ensures Answers(head.key, start.boundID, env.pages, env.direct, outcome)
    {
      outcome := FindOperationRefund(head.key, start.boundID, env.pages, env.direct);
      if outcome.QueryFound? {
        me := start.(pc := Validating, mayHaveSubmitted := true, refund := Some(outcome.refund));
      } else if outcome.QueryNone? && !start.mayHaveSubmitted {
        me := start.(pc := Checkpointing, mayHaveSubmitted := true);
      } else {
        me := start.(pc := Finishing, failed := true);
      }
      assert live[id := start][id := me] == live[id := me];
    }

    /** CheckpointFinanceOperation, fenced by the attempt number. */
    method SaveCheckpoint(start: Handler, env: Env, ghost id: nat, ghost live: map<nat, Handler>) returns (me: Handler)
      requires id !in live && start.pc == Checkpointing && !start.failed
      modifies this`record
      ensures World(live[id := me]) == Apply(old(World(live[id := start])),
                Checkpoint(id, env.checkpointCommitted, env.checkpointAcknowledged, env.now))
      ensures Ended(me) || me == start.(pc := Posting)
    {
      if env.checkpointCommitted && Fence(record, start.attempt) {
        record := Some(record.value.(started := Some(true), updatedAt := env.now));
        me := AfterCheckpoint(start, env.checkpointAcknowledged);
      } else {
        me := start.(pc := Finishing, failed := true);
      }
      assert live[id := start][id := me] == live[id := me];
    }

    /** POST /refunds. */
    method PostRefund(start: Handler, env: Env, ghost id: nat, ghost live: map<nat, Handler>) returns (me: Handler)
      requires id !in live && start.pc == Posting && !start.failed
      modifies this`posts
      ensures World(live[id := me]) == Apply(old(World(live[id := start])), Post(id, env.sent, env.response))
      ensures Ended(me) || (me.pc == Validating && !me.failed)
      ensures posts == if env.sent then old(posts) + [start.attempt] else old(posts)
    {
      if env.sent {
        posts := posts + [start.attempt];
      }
      if env.sent && env.response.Some? {
        me := start.(pc := Validating, refund := env.response);
      } else {
        me := start.(pc := Finishing, failed := true);
      }
      assert live[id := start][id := me] == live[id := me];
    }

    method ValidateReference(start: Handler, env: Env, ghost id: nat, ghost live: map<nat, Handler>) returns (me: Handler)
      requires id !in live && start.pc == Validating && !start.failed
      modifies this`accepted
      ensures World(live[id := me]) == Apply(old(World(live[id := start])), Validate(id, env.validationFacts))
      ensures Ended(me) || (me == start.(pc := Recording) && me.refund.Some?)
    {
      if start.refund.None? || !Validates(head, start.boundID, env.validationFacts, start.refund.value) {
        me := start.(refund := None, pc := Finishing, failed := true);
      } else {
        accepted := accepted + [Accepted(start.refund.value, env.validationFacts.value)];
        me := if start.refund.value.status == "succeeded" then start.(pc := Recording)
              else start.(pc := Finishing, failed := true);
      }
      assert live[id := start][id := me] == live[id := me];
    }

    /** recordStripeRefund: the fact and the operation's reference in one transaction. */
    method RecordRefund(start: Handler, env: Env, ghost id: nat, ghost live: map<nat, Handler>) returns (me: Handler)
      requires id !in live && start.pc == Recording && !start.failed && start.refund.Some?
      modifies this`record, this`accepted, this`fact
      ensures World(live[id := me]) == Apply(old(World(live[id := start])), RecordFact(id, env.recordFacts, env.factStored))
      ensures Ended(me) || (me == start.(pc := Cancelling) && fact.Some?)
    {
      var r := start.refund.value;
      if MayRecord(head, record, fact, r, env.recordFacts, env.factStored) {
        record := Some(record.value.(providerID := r.id));
        fact := if fact.Some? then fact else Some(r);
        accepted := accepted + [Accepted(r, env.recordFacts.value)];
        me := start.(pc := Cancelling);
      } else {
        me := start.(pc := Finishing, failed := true);
      }
      assert live[id := start][id := me] == live[id := me];
    }

    method CancelRemote(start: Handler, ok: bool, ghost id: nat, ghost live: map<nat, Handler>) returns (me: Handler)
      requires id !in live && start.pc == Cancelling && !start.failed
      modifies this`canceled
      ensures World(live[id := me]) == Apply(old(World(live[id := start])), Cancel(id, ok))
      ensures Ended(me) || (me == start.(pc := Revoking) && canceled)
    {
      canceled := canceled || ok;
      me := if ok then start.(pc := Revoking) else start.(pc := Finishing, failed := true);
      assert live[id := start][id := me] == live[id := me];
    }

    method RevokeAccess(start: Handler, ok: bool, ghost id: nat, ghost live: map<nat, Handler>) returns (me: Handler)
      requires id !in live && start.pc == Revoking && !start.failed
      modifies this`revoked
      ensures World(live[id := me]) == Apply(old(World(live[id := start])), Revoke(id, ok))
      ensures Ended(me) || (me == start.(pc := Finishing) && revoked)
    {
      revoked := revoked || ok;
      me := if ok then start.(pc := Finishing) else start.(pc := Finishing, failed := true);
      assert live[id := start][id := me] == live[id := me];
    }

    /** The deferred FinishFinanceOperation. */
    method FinishAttempt(me: Handler, env: Env, ghost id: nat, ghost live: map<nat, Handler>) returns (ok: bool)
      requires id !in live && me.pc == Finishing
      modifies this`record
      ensures World(live) == Apply(old(World(live[id := me])), Finish(id, env.finishCommitted, env.now))
      ensures ok ==> !me.failed && record.Some? && record.value.status == Succeeded
    {
      assert live[id := me] - {id} == live;
      ok := false;
      if env.finishCommitted && CanFinish(record, me) {
        record := Some(FinishedRecord(record.value, me, env.now));
        ok := !me.failed;
      }
    }

    /** Up to the provider reference: a POST is sent only by an attempt that was never in doubt. */
    method Submit(start: Handler, env: Env, ghost id: nat, ghost live: map<nat, Handler>) returns (me: Handler)
      requires id !in live && start.pc == Loading && !start.failed && |env.pages| >= MAX_PAGES
      modifies this`record, this`posts
      ensures Ended(me) || (me.pc == Validating && !me.failed)
      ensures Reaches(old(World(live[id := start])), World(live[id := me]))
      ensures posts == old(posts) || (posts == old(posts) + [start.attempt] && !start.mayHaveSubmitted)
    {
      ghost var s0 := World(live[id := start]);
      ReachesSelf(s0);
      me := LoadIntent(start, env.facts, id, live);
      ReachesStep(s0, s0, Load(id, env.facts));
      if me.pc == Finishing { return; }
      ghost var s1 := World(live[id := me]);
      var outcome;
      me, outcome := QueryProvider(me, env, id, live);
      ReachesStep(s0, s1, Query(id, outcome));
      if me.pc != Checkpointing { return; }
      me := Transmit(me, env, id, live, s0);
    }

    method Transmit(start: Handler, env: Env, ghost id: nat, ghost live: map<nat, Handler>, ghost s0: State) returns (me: Handler)
      requires id !in live && start.pc == Checkpointing && !start.failed
      requires Reaches(s0, World(live[id := start]))
      modifies this`record, this`posts
      ensures Ended(me) || (me.pc == Validating && !me.failed)
      ensures Reaches(s0, World(live[id := me]))
      ensures posts == old(posts) || posts == old(posts) + [start.attempt]
    {
      ghost var s1 := World(live[id := start]);
      me := SaveCheckpoint(start, env, id, live);
      ReachesStep(s0, s1, Checkpoint(id, env.checkpointCommitted, env.checkpointAcknowledged, env.now));
      if me.pc == Finishing { return; }
      ghost var s2 := World(live[id := me]);
      me := PostRefund(me, env, id, live);
      ReachesStep(s0, s2, Post(id, env.sent, env.response));
    }

    /** From the provider reference to revoked access. */
    method Settle(start: Handler, env: Env, ghost id: nat, ghost live: map<nat, Handler>) returns (me: Handler)
      requires id !in live && start.pc == Validating && !start.failed
      modifies this`record, this`accepted, this`fact, this`canceled, this`revoked
      ensures me.pc == Finishing
      ensures Reaches(old(World(live[id := start])), World(live[id := me]))
      ensures !me.failed ==> fact.Some? && canceled && revoked
    {
      ghost var s0 := World(live[id := start]);
      ReachesSelf(s0);
      me := ValidateReference(start, env, id, live);
      ReachesStep(s0, s0, Validate(id, env.validationFacts));
      if me.pc == Finishing { return; }
      ghost var s1 := World(live[id := me]);
      me := RecordRefund(me, env, id, live);
      ReachesStep(s0, s1, RecordFact(id, env.recordFacts, env.factStored));
      if me.pc == Finishing { return; }
      me := Withdraw(me, env, id, live, s0);
    }

    method Withdraw(start: Handler, env: Env, ghost id: nat, ghost live: map<nat, Handler>, ghost s0: State) returns (me: Handler)
      requires id !in live && start.pc == Cancelling && !start.failed
      requires Reaches(s0, World(live[id := start]))
      modifies this`canceled, this`revoked
      ensures me.pc == Finishing
      ensures Reaches(s0, World(live[id := me]))
      ensures !me.failed ==> canceled && revoked
    {
      ghost var s1 := World(live[id := start]);
      me := CancelRemote(start, env.cancelOk, id, live);
      ReachesStep(s0, s1, Cancel(id, env.cancelOk));
      if me.pc == Finishing { return; }
      ghost var s2 := World(live[id := me]);
      me := RevokeAccess(me, env.revokeOk, id, live);
      ReachesStep(s0, s2, Revoke(id, env.revokeOk));
    }

    /** One whole execution is a run of the protocol.  If the invariant held before it
        holds after, and reporting success means the refund really completed. */
    method RunSubscriptionRefund(env: Env, ghost id: nat, ghost live: map<nat, Handler>) returns (ok: bool)
      requires id !in live && |env.pages| >= MAX_PAGES
      requires Inv(World(live))
      modifies this
      ensures Reaches(old(World(live)), World(live))
      ensures Inv(World(live)) && |posts| <= 1
      ensures ok ==> record.Some? && record.value.status == Succeeded && fact.Some? && canceled && revoked
    {
      ghost var s0 := World(live);
      ReachesSelf(s0);
      var claimed, done, me := Begin(env.admitted, env.now, id, live);
      if !claimed {
        return done;
      }
      ReachesStep(s0, s0, Claim(id, env.admitted, env.now));
      me := Carry(me, env, id, live, s0);
      ghost var s1 := World(live[id := me]);
      ok := FinishAttempt(me, env, id, live);
      ReachesStep(s0, s1, Finish(id, env.finishCommitted, env.now));
      ReachesKeepsInv(s0, World(live));
    }

    method Carry(start: Handler, env: Env, ghost id: nat, ghost live: map<nat, Handler>, ghost s0: State) returns (me: Handler)
      requires id !in live && |env.pages| >= MAX_PAGES && start.pc == Loading && !start.failed
      requires Reaches(s0, World(live[id := start]))
      modifies this`record, this`posts, this`accepted, this`fact, this`canceled, this`revoked
      ensures me.pc == Finishing
      ensures Reaches(s0, World(live[id := me]))
      ensures !me.failed ==> fact.Some? && canceled && revoked
    {
      ghost var s1 := World(live[id := start]);
      me := Submit(start, env, id, live);
      ReachesTransitive(s0, s1, World(live[id := me]));
      if me.pc == Finishing { return; }
      ghost var s2 := World(live[id := me]);
      me := Settle(me, env, id, live);
      ReachesTransitive(s0, s2, World(live[id := me]));
    }
  }
}
