/**
 Guesses in flight together (verifyEmail, lookupEmailVerification and
 recordEmailVerificationFailure in api/api.go): a request reads the record and
 compares the code, and only later takes the lock again to count its miss. With at
 most `k` requests between the two, one code is compared with at most
 (k + 4) * (floor(TTL / lockout) + 1) wrong ones, and that many are possible.

 Requests in flight all do the same thing next, so they are only counted: `open` of
 them compared with the current code, `stale` with one that has since been replaced.
 */
module LockoutRaces {
  import opened Finance
  import L = Lockout

  /** `wrong` counts the wrong codes compared with the current code since it was issued, and
      `dropped` the misses that met a locked record and were not counted. */
  datatype Race = Race(
    slot: Option<L.Verification>, clock: int, issuedAt: int, ttl: int,
    open: nat, stale: nat, wrong: nat, dropped: nat)

  datatype Step =
    | Resend(now: int, code: string, ttl: int)
    | Compare(now: int, code: string)
    | Count(now: int, late: bool) // an open request counts its miss, or a stale one
    | Remove(now: int) // after a right code, or by a request that saw an expired record

  function InFlight(s: Race): nat {
    s.open + s.stale
  }

  /** The miss of one request, counted or dropped. */
  function Counted(s: Race, now: int): Race {
    if s.slot.None? then s
    else if L.Locked(s.slot.value, now) then s.(dropped := s.dropped + 1)
    else s.(slot := Some(L.Missed(s.slot.value, now)))
  }

  /** A request beyond the `k`-th in flight is not admitted. */
  function Apply(s: Race, step: Step, k: nat): Race {
    if step.now < s.clock then s else
      match step
      case Resend(now, code, ttl) =>
        if s.slot.Some? && now < s.slot.value.expiresAt then s.(clock := now)
        else Race(Some(L.Issue(code, now, ttl)), now, now, L.Lifetime(ttl), 0, InFlight(s), 0, 0)
      case Compare(now, code) =>
        if InFlight(s) >= k || L.ReplyTo(s.slot, code, now) != L.Wrong then s.(clock := now)
        else s.(clock := now, open := s.open + 1, wrong := s.wrong + 1)
      case Count(now, late) =>
        if late then (if s.stale == 0 then s else Counted(s, now).(clock := now, stale := s.stale - 1))
        else (if s.open == 0 then s else Counted(s, now).(clock := now, open := s.open - 1))
      case Remove(now) => s.(slot := None, clock := now)
  }

  function Run(s: Race, steps: seq<Step>, k: nat): Race
    decreases |steps|
  {
    if steps == [] then s else Run(Apply(s, steps[0], k), steps[1..], k)
  }

  /** A code just issued, with nobody comparing it yet. */
  function Start(code: string, now: int, ttl: int): Race {
    Race(Some(L.Issue(code, now, ttl)), now, now, L.Lifetime(ttl), 0, 0, 0, 0)
  }

  function Bound(ttl: int, k: nat): int {
    (L.ATTEMPTS - 1 + k) * (ttl / L.LOCKOUT + 1)
  }

  // ----- the bound ---------------------------------------------------------------------------

  /** `rounds` lockouts so far. Each took five counted misses, and during each at most k - 1
      requests were left to be dropped. */
  ghost predicate Spent(s: Race, v: L.Verification, rounds: nat, k: nat) {
    && v.expiresAt == s.issuedAt + s.ttl && v.failed < L.ATTEMPTS
    && s.wrong <= L.ATTEMPTS * rounds + v.failed + s.dropped + s.open
    && s.dropped <= (k - 1) * rounds
    && (rounds == 0 <==> v.lockedUntil.None?)
    && (rounds > 0 ==> s.issuedAt + rounds * L.LOCKOUT <= v.lockedUntil.value)
    && (rounds > 0 && s.clock < v.lockedUntil.value ==> v.failed == 0 && s.dropped + InFlight(s) <= (k - 1) * rounds)
  }

  ghost predicate Inv(s: Race, k: nat) {
    && s.ttl > 0 && s.issuedAt <= s.clock && InFlight(s) <= k && s.wrong <= Bound(s.ttl, k)
    && (s.slot.Some? ==> exists rounds: nat :: Spent(s, s.slot.value, rounds, k))
  }

  lemma Distribute(rounds: nat, k: nat)
    ensures (L.ATTEMPTS - 1 + k) * (rounds + 1) == L.ATTEMPTS * rounds + (k - 1) * rounds + L.ATTEMPTS - 1 + k
  {
  }

  lemma Scale(n: nat, a: nat, b: nat)
    requires a <= b
    ensures n * a <= n * b
  {
  }

  /** A comparison needs a record that is not locked, so its round started in time. */
  lemma CompareKeeps(s: Race, now: int, code: string, k: nat)
    requires Inv(s, k) && s.clock <= now && InFlight(s) < k && L.ReplyTo(s.slot, code, now) == L.Wrong
    ensures Inv(Apply(s, Compare(now, code), k), k)
  {
    var v := s.slot.value;
    var rounds: nat :| Spent(s, v, rounds, k);
    var t := Apply(s, Compare(now, code), k);
    assert Spent(t, v, rounds, k);
    assert rounds <= s.ttl / L.LOCKOUT;
    Distribute(rounds, k);
    Scale(L.ATTEMPTS - 1 + k, rounds + 1, s.ttl / L.LOCKOUT + 1);
  }

  lemma CountKeeps(s: Race, now: int, late: bool, k: nat)
    requires Inv(s, k) && s.clock <= now && (if late then s.stale else s.open) > 0
    ensures Inv(Apply(s, Count(now, late), k), k)
  {
    var t := Apply(s, Count(now, late), k);
    if s.slot.Some? {
      var v := s.slot.value;
      var rounds: nat :| Spent(s, v, rounds, k);
      if L.Locked(v, now) || v.failed + 1 < L.ATTEMPTS {
        assert Spent(t, t.slot.value, rounds, k);
      } else {
        assert (k - 1) * (rounds + 1) == (k - 1) * rounds + (k - 1);
        assert Spent(t, t.slot.value, rounds + 1, k);
      }
    }
  }

  lemma StepKeepsInv(s: Race, step: Step, k: nat)
    requires Inv(s, k) && k > 0
    ensures Inv(Apply(s, step, k), k)
  {
    if step.now >= s.clock {
      var t := Apply(s, step, k);
      if step.Compare? && InFlight(s) < k && L.ReplyTo(s.slot, step.code, step.now) == L.Wrong {
        CompareKeeps(s, step.now, step.code, k);
      } else if step.Count? && (if step.late then s.stale else s.open) > 0 {
        CountKeeps(s, step.now, step.late, k);
      } else if step.Resend? && !(s.slot.Some? && step.now < s.slot.value.expiresAt) {
        assert Spent(t, t.slot.value, 0, k);
        Scale(L.ATTEMPTS - 1 + k, 0, t.ttl / L.LOCKOUT + 1);
      } else if s.slot.Some? && !step.Remove? {
        var rounds: nat :| Spent(s, s.slot.value, rounds, k);
        assert Spent(t, t.slot.value, rounds, k);
      }
    }
  }

  lemma {:induction false} RunKeepsInv(s: Race, steps: seq<Step>, k: nat)
    requires Inv(s, k) && k > 0
    ensures Inv(Run(s, steps, k), k)
    decreases |steps|
  {
    if steps != [] {
      StepKeepsInv(s, steps[0], k);
      RunKeepsInv(Apply(s, steps[0], k), steps[1..], k);
    }
  }

  /** In every interleaving with at most k requests in flight, one code is compared with at
      most (k + 4) * (floor(TTL / lockout) + 1) wrong ones. */
  lemma WrongGuessesAreBounded(code: string, now: int, ttl: int, steps: seq<Step>, k: nat)
    requires k > 0
    ensures var s := Run(Start(code, now, ttl), steps, k); s.wrong <= Bound(s.ttl, k)
  {
    var s := Start(code, now, ttl);
    assert Spent(s, s.slot.value, 0, k);
    Scale(L.ATTEMPTS - 1 + k, 0, s.ttl / L.LOCKOUT + 1);
    RunKeepsInv(s, steps, k);
  }

  // ----- the bound is reached -------------------------------------------------------------------

  function Repeat(step: Step, n: nat): seq<Step> {
    if n == 0 then [] else [step] + Repeat(step, n - 1)
  }

  lemma {:induction false} RunAppend(s: Race, a: seq<Step>, b: seq<Step>, k: nat)
    ensures Run(s, a + b, k) == Run(Run(s, a, k), b, k)
    decreases |a|
  {
    if a == [] {
      assert a + b == b;
    } else {
      assert (a + b)[1..] == a[1..] + b;
      RunAppend(Apply(s, a[0], k), a[1..], b, k);
    }
  }

  /** The record takes guesses of this wrong code. */
  predicate Ready(s: Race, v: L.Verification, now: int, code: string) {
    s.slot == Some(v) && v.code != code && !L.Locked(v, now) && s.clock <= now <= v.expiresAt && s.stale == 0
  }

  /** Requests that compare at one moment. */
  lemma {:induction false} ManyCompare(s: Race, v: L.Verification, now: int, code: string, n: nat, k: nat)
    requires Ready(s, v, now, code) && s.open + n <= k
    ensures Run(s, Repeat(Compare(now, code), n), k) == if n == 0 then s else s.(clock := now, open := s.open + n, wrong := s.wrong + n)
    decreases n
  {
    if n > 0 {
      var steps := Repeat(Compare(now, code), n);
      assert steps[1..] == Repeat(Compare(now, code), n - 1);
      ManyCompare(Apply(s, steps[0], k), v, now, code, n - 1, k);
    }
  }

  /** A miss is counted and the place it leaves is taken by another guess. */
  lemma {:induction false} ManyReplace(s: Race, v: L.Verification, now: int, code: string, n: nat, k: nat) returns (steps: seq<Step>)
    requires Ready(s, v, now, code) && s.clock == now && 0 < s.open <= k && v.failed + n < L.ATTEMPTS
    ensures Run(s, steps, k) == s.(slot := Some(v.(failed := v.failed + n)), wrong := s.wrong + n)
    ensures Guessing(steps, code)
    decreases n
  {
    steps := [];
    if n > 0 {
      var w := v.(failed := v.failed + 1);
      var a := Apply(s, Count(now, false), k);
      var b := Apply(a, Compare(now, code), k);
      assert b == s.(slot := Some(w), wrong := s.wrong + 1);
      var rest := ManyReplace(b, w, now, code, n - 1, k);
      steps := [Count(now, false), Compare(now, code)] + rest;
      assert steps[1..][1..] == rest;
      assert Run(s, steps, k) == Run(a, steps[1..], k) == Run(b, rest, k);
    }
  }

  /** Misses that meet a locked record. */
  lemma {:induction false} ManyDropped(s: Race, v: L.Verification, now: int, n: nat, k: nat)
    requires s.slot == Some(v) && L.Locked(v, now) && s.clock == now && n <= s.open
    ensures Run(s, Repeat(Count(now, false), n), k) == s.(open := s.open - n, dropped := s.dropped + n)
    decreases n
  {
    if n > 0 {
      var steps := Repeat(Count(now, false), n);
      assert steps[1..] == Repeat(Count(now, false), n - 1);
      ManyDropped(Apply(s, steps[0], k), v, now, n - 1, k);
    }
  }

  /** Nothing but guesses of this code, in their two halves. */
  predicate Guessing(steps: seq<Step>, code: string) {
    forall i :: 0 <= i < |steps| ==> steps[i].Count? || (steps[i].Compare? && steps[i].code == code)
  }

  lemma {:induction false} RepeatGuesses(step: Step, n: nat, code: string)
    requires step.Count? || (step.Compare? && step.code == code)
    ensures Guessing(Repeat(step, n), code)
    decreases n
  {
    if n > 0 { RepeatGuesses(step, n - 1, code); }
  }

  /** The state a round of k + 4 comparisons leaves. */
  function RoundEnd(s: Race, v: L.Verification, now: int, k: nat): Race
    requires k > 0
  {
    s.(slot := Some(v.(failed := 0, lockedUntil := Some(now + L.LOCKOUT))), clock := now,
       wrong := s.wrong + L.ATTEMPTS - 1 + k, dropped := s.dropped + k - 1)
  }

  /** One round: k guesses come in together, four more as places free up, the fifth miss
      locks the record and the other k - 1 are dropped. */
  lemma RoundOfGuesses(s: Race, v: L.Verification, now: int, code: string, k: nat) returns (steps: seq<Step>)
    requires Ready(s, v, now, code) && v.failed == 0 && s.open == 0 && k > 0
    ensures Guessing(steps, code) && Run(s, steps, k) == RoundEnd(s, v, now, k)
  {
    var first := Repeat(Compare(now, code), k);
    RepeatGuesses(Compare(now, code), k, code);
    ManyCompare(s, v, now, code, k, k);
    var s1 := Run(s, first, k);
    var second := ManyReplace(s1, v, now, code, L.ATTEMPTS - 1, k);
    var s2 := Run(s1, second, k);
    var s3 := Apply(s2, Count(now, false), k);
    var last := Repeat(Count(now, false), k - 1);
    RepeatGuesses(Count(now, false), k - 1, code);
    ManyDropped(s3, v.(failed := 0, lockedUntil := Some(now + L.LOCKOUT)), now, k - 1, k);
    var third := [Count(now, false)] + last;
    assert third[1..] == last;
    RunAppend(s, first, second, k);
    RunAppend(s, first + second, third, k);
    steps := first + second + third;
  }

  /** Rounds spaced by the lockout, as long as the code lives. */
  lemma {:induction false} RoundsReach(s: Race, v: L.Verification, code: string, rounds: nat, k: nat) returns (steps: seq<Step>)
    requires Ready(s, v, s.clock, code) && v.failed == 0 && v.lockedUntil.None? && s.open == 0 && s.wrong == 0 && k > 0
    requires rounds > 0 && s.clock + (rounds - 1) * L.LOCKOUT <= v.expiresAt
    ensures Guessing(steps, code)
    ensures var t := Run(s, steps, k);
            && t.slot == Some(v.(lockedUntil := Some(s.clock + rounds * L.LOCKOUT))) && t.clock == s.clock + (rounds - 1) * L.LOCKOUT
            && t.open == 0 && t.stale == 0 && t.wrong == (L.ATTEMPTS - 1 + k) * rounds
    decreases rounds
  {
    var now := s.clock + (rounds - 1) * L.LOCKOUT;
    if rounds == 1 {
      steps := RoundOfGuesses(s, v, now, code, k);
    } else {
      var before := RoundsReach(s, v, code, rounds - 1, k);
      var t := Run(s, before, k);
      var last := RoundOfGuesses(t, t.slot.value, now, code, k);
      RunAppend(s, before, last, k);
      steps := before + last;
      assert (L.ATTEMPTS - 1 + k) * rounds == (L.ATTEMPTS - 1 + k) * (rounds - 1) + L.ATTEMPTS - 1 + k;
    }
  }

  /** The bound is exact in k and in the lifetime: some run of well-formed guesses reaches it. */
  lemma BoundIsReached(code: string, now: int, ttl: int, k: nat) returns (steps: seq<Step>)
    requires k > 0
    ensures forall i :: 0 <= i < |steps| ==> steps[i].Count? || (steps[i].Compare? && L.SixDigits(steps[i].code))
    ensures Run(Start(code, now, ttl), steps, k).wrong == Bound(L.Lifetime(ttl), k)
  {
    var s := Start(code, now, ttl);
    var rounds := L.Lifetime(ttl) / L.LOCKOUT + 1;
    assert (rounds - 1) * L.LOCKOUT <= L.Lifetime(ttl);
    steps := RoundsReach(s, s.slot.value, L.OtherCode(code), rounds, k);
  }

  // ----- one request at a time -------------------------------------------------------------------

  /** Both halves of a wrong guess, with nothing in between, are the step of the sequential
      model, and with one request in flight the two bounds are the same. */
  lemma OneAtATimeIsSequential(s: Race, now: int, code: string, accepted: bool, k: nat)
    requires s.clock <= now && InFlight(s) < k && L.ReplyTo(s.slot, code, now) == L.Wrong
    ensures var t := Run(s, [Compare(now, code), Count(now, false)], k);
            && t.slot == L.After(s.slot, L.Guess(now, code, accepted)) && InFlight(t) == InFlight(s)
            && t.wrong == s.wrong + 1 && t.dropped == s.dropped
    ensures Bound(s.ttl, 1) == L.Bound(s.ttl)
  {
    var a := Apply(s, Compare(now, code), k);
    var steps := [Compare(now, code), Count(now, false)];
    assert steps[1..] == [Count(now, false)] && steps[1..][1..] == [];
    assert Run(s, steps, k) == Run(a, steps[1..], k) == Apply(a, Count(now, false), k);
  }
}
