/**
 Guessing an e-mail verification code for an existing account (api/api.go): five
 wrong codes lock the record for five minutes, a resend reuses the record until it
 expires, and only an expired record is replaced by a new code.

 Times are whole seconds; a request reads the clock once.
 */
module Lockout {
  import opened Finance
  import opened Text

  const ATTEMPTS := 5
  const LOCKOUT := 300
  const DEFAULT_TTL := 600

  datatype Verification = Verification(code: string, expiresAt: int, failed: nat, lockedUntil: Option<int>)

  function Lifetime(ttl: int): (r: int)
    ensures r > 0
  {
    if ttl <= 0 then DEFAULT_TTL else ttl
  }

  predicate Locked(v: Verification, now: int) {
    v.lockedUntil.Some? && now < v.lockedUntil.value
  }

  function Issue(code: string, now: int, ttl: int): Verification {
    Verification(code, now + Lifetime(ttl), 0, None)
  }

  /** recordEmailVerificationFailure. */
  function Missed(v: Verification, now: int): Verification {
    if Locked(v, now) then v
    else if v.failed + 1 >= ATTEMPTS then v.(failed := 0, lockedUntil := Some(now + LOCKOUT))
    else v.(failed := v.failed + 1)
  }

  datatype Reply = Invalid | NoRecord | IsLocked | Wrong | Right

  /** The pending verifications, keyed by normalized e-mail. */
  class Verifications {
    var pending: map<string, Verification>

    /** enqueueEmailVerification: the code to send, or None for a blank address or when a new
        code is needed and none could be generated. */
    method Enqueue(email: string, now: int, ttl: int, newCode: Option<string>) returns (code: Option<string>)
      modifies this
      ensures var key := Lower(Trim(email));
              var current := key in old(pending) && now < old(pending)[key].expiresAt;
              if Trim(email) == "" || (!current && newCode.None?) then code.None? && pending == old(pending)
              else
                && Others(old(pending), pending, key)
                && (newCode.Some? ==> Slot(pending, key) == After(Slot(old(pending), key), Resend(now, newCode.value, ttl)))
                && (current ==> Slot(pending, key) == Slot(old(pending), key))
                && key in pending && code == Some(pending[key].code)
    {
      if Trim(email) == "" {
        return None;
      }
      var key := Lower(Trim(email));
      if key in pending && now < pending[key].expiresAt {
        code := Some(pending[key].code);
      } else if newCode.None? {
        return None;
      } else {
        code := newCode;
        pending := pending[key := Verification(newCode.value, now + (if ttl <= 0 then DEFAULT_TTL else ttl), 0, None)];
      }
    }

    /** lookupEmailVerification: an expired record is dropped. */
    method Lookup(email: string, now: int) returns (r: Option<Verification>)
      modifies this
      ensures var key := Lower(Trim(email));
              && pending == (if key != "" && key in old(pending) && now > old(pending)[key].expiresAt then old(pending) - {key} else old(pending))
              && r == (if key != "" && key in pending then Some(pending[key]) else None)
    {
      var key := Lower(Trim(email));
      if key == "" || key !in pending {
        return None;
      }
      if now > pending[key].expiresAt {
        pending := pending - {key};
        return None;
      }
      r := Some(pending[key]);
    }

    method RecordFailure(key: string, now: int) returns (lockedUntil: Option<int>)
      modifies this
      ensures pending == if key in old(pending) then old(pending)[key := Missed(old(pending)[key], now)] else old(pending)
      ensures lockedUntil == if key in pending then pending[key].lockedUntil else None
    {
      if key !in pending {
        return None;
      }
      var v := pending[key];
      if v.lockedUntil.Some? && now < v.lockedUntil.value {
        return v.lockedUntil;
      }
      v := v.(failed := v.failed + 1);
      if v.failed >= ATTEMPTS {
        v := v.(failed := 0, lockedUntil := Some(now + LOCKOUT));
      }
      pending := pending[key := v];
      lockedUntil := v.lockedUntil;
    }

    /** verifyEmail for an existing account. Only a six-digit code is compared, and a right
        one removes the record only if the account is then accepted. */
    method Verify(email: string, code: string, now: int, accepted: bool) returns (reply: Reply)
      modifies this
      ensures var key, c := Lower(Trim(email)), Trim(code);
              if key == "" || !SixDigits(c) then reply == Invalid && pending == old(pending)
              else
                && Others(old(pending), pending, key)
                && Slot(pending, key) == After(Slot(old(pending), key), Guess(now, c, accepted))
                && reply == ReplyTo(Slot(old(pending), key), c, now)
    {
      var key, c := Lower(Trim(email)), Trim(code);
      if key == "" || c == "" || |c| != 6 {
        return Invalid;
      }
      for i := 0 to |c|
        invariant forall k :: 0 <= k < i ==> '0' <= c[k] <= '9'
        invariant pending == old(pending)
      {
        if c[i] < '0' || c[i] > '9' {
          return Invalid;
        }
      }
      var v := Lookup(email, now);
      if v.None? {
        return NoRecord;
      }
      if Locked(v.value, now) {
        return IsLocked;
      }
      if v.value.code != c {
        var _ := RecordFailure(key, now);
        return Wrong;
      }
      if accepted {
        pending := pending - {key};
      }
      reply := Right;
    }
  }

  predicate SixDigits(c: string) {
    |c| == 6 && forall i :: 0 <= i < 6 ==> '0' <= c[i] <= '9'
  }

  /** No other address is touched. */
  ghost predicate Others(before: map<string, Verification>, after: map<string, Verification>, key: string) {
    forall k :: k != key ==> Slot(after, k) == Slot(before, k)
  }

  function Slot(pending: map<string, Verification>, key: string): Option<Verification> {
    if key in pending then Some(pending[key]) else None
  }

  function ReplyTo(slot: Option<Verification>, code: string, now: int): Reply {
    if slot.None? || now > slot.value.expiresAt then NoRecord
    else if Locked(slot.value, now) then IsLocked
    else if slot.value.code != code then Wrong else Right
  }

  // ----- every run on one e-mail ---------------------------------------------------------------

  datatype Step = Resend(now: int, code: string, ttl: int) | Guess(now: int, code: string, accepted: bool)

  function After(slot: Option<Verification>, step: Step): Option<Verification> {
    match step
    case Resend(now, code, ttl) =>
      if slot.Some? && now < slot.value.expiresAt then slot else Some(Issue(code, now, ttl))
    case Guess(now, code, accepted) =>
      match ReplyTo(slot, code, now)
      case NoRecord => None
      case IsLocked => slot
      case Wrong => Some(Missed(slot.value, now))
      case Right => if accepted then None else slot
  }

  /** `wrong` counts the wrong codes compared with the current code since it was issued at
      `issuedAt` for `ttl` seconds. */
  datatype State = State(slot: Option<Verification>, clock: int, issuedAt: int, ttl: int, wrong: nat)

  function Apply(s: State, step: Step): State {
    if step.now < s.clock then s else
      var slot := After(s.slot, step);
      match step
      case Resend(now, code, ttl) =>
        if s.slot.Some? && now < s.slot.value.expiresAt then s.(clock := now)
        else State(slot, now, now, Lifetime(ttl), 0)
      case Guess(now, code, _) =>
        s.(slot := slot, clock := now, wrong := s.wrong + if ReplyTo(s.slot, code, now) == Wrong then 1 else 0)
  }

  function Run(s: State, steps: seq<Step>): State
    decreases |steps|
  {
    if steps == [] then s else Run(Apply(s, steps[0]), steps[1..])
  }

  function Bound(ttl: int): int {
    ATTEMPTS * (ttl / LOCKOUT + 1)
  }

  /** `rounds` lockouts have been spent on the current code. */
  ghost predicate Spent(s: State, v: Verification, rounds: nat) {
    && v.expiresAt == s.issuedAt + s.ttl && v.failed < ATTEMPTS
    && s.wrong == ATTEMPTS * rounds + v.failed
    && (rounds == 0 <==> v.lockedUntil.None?)
    && (rounds > 0 ==> s.issuedAt + rounds * LOCKOUT <= v.lockedUntil.value <= s.issuedAt + s.ttl + LOCKOUT)
    && (rounds > 0 && v.failed > 0 ==> v.lockedUntil.value <= s.issuedAt + s.ttl)
  }

  ghost predicate Inv(s: State) {
    && s.ttl > 0 && s.issuedAt <= s.clock && s.wrong <= Bound(s.ttl)
    && (s.slot.Some? ==> exists rounds: nat :: Spent(s, s.slot.value, rounds))
  }

  lemma RoundsFit(ttl: int, rounds: nat)
    requires ttl > 0 && rounds > 0 && (rounds - 1) * LOCKOUT <= ttl
    ensures ATTEMPTS * rounds <= Bound(ttl)
  {
    assert rounds - 1 <= ttl / LOCKOUT;
  }

  /** Five wrong codes a round, and a round starts no sooner than one lockout after the last. */
  lemma SpentIsBounded(s: State, v: Verification, rounds: nat)
    requires s.ttl > 0 && Spent(s, v, rounds)
    ensures s.wrong <= Bound(s.ttl)
  {
    if rounds > 0 {
      RoundsFit(s.ttl, if v.failed > 0 then rounds + 1 else rounds);
    } else {
      RoundsFit(s.ttl, 1);
    }
  }

  lemma WrongKeeps(s: State, now: int, code: string, accepted: bool)
    requires Inv(s) && s.clock <= now && ReplyTo(s.slot, code, now) == Wrong
    ensures Inv(Apply(s, Guess(now, code, accepted)))
  {
    var v := s.slot.value;
    var rounds: nat :| Spent(s, v, rounds);
    var t := Apply(s, Guess(now, code, accepted));
    if v.failed + 1 >= ATTEMPTS {
      assert Spent(t, t.slot.value, rounds + 1);
      SpentIsBounded(t, t.slot.value, rounds + 1);
    } else {
      assert Spent(t, t.slot.value, rounds);
      SpentIsBounded(t, t.slot.value, rounds);
    }
  }

  lemma StepKeepsInv(s: State, step: Step)
    requires Inv(s)
    ensures Inv(Apply(s, step))
  {
    if step.now >= s.clock {
      match step {
        case Resend(now, code, ttl) =>
          if s.slot.Some? && now < s.slot.value.expiresAt {
            var rounds: nat :| Spent(s, s.slot.value, rounds);
            assert Spent(Apply(s, step), s.slot.value, rounds);
          } else {
            var t := Apply(s, step);
            assert Spent(t, t.slot.value, 0);
            SpentIsBounded(t, t.slot.value, 0);
          }
        case Guess(now, code, accepted) =>
          if ReplyTo(s.slot, code, now) == Wrong {
            WrongKeeps(s, now, code, accepted);
          } else if s.slot.Some? {
            var rounds: nat :| Spent(s, s.slot.value, rounds);
            assert Spent(Apply(s, step), s.slot.value, rounds);
          }
      }
    }
  }

  lemma {:induction false} RunKeepsInv(s: State, steps: seq<Step>)
    requires Inv(s)
    ensures Inv(Run(s, steps))
    decreases |steps|
  {
    if steps != [] {
      StepKeepsInv(s, steps[0]);
      RunKeepsInv(Apply(s, steps[0]), steps[1..]);
    }
  }

  /** In every run of resends and guesses at nondecreasing times, one code is compared with
      at most 5 * (floor(TTL / lockout) + 1) wrong ones. */
  lemma WrongGuessesAreBounded(code: string, now: int, ttl: int, steps: seq<Step>)
    ensures var s := Run(State(Some(Issue(code, now, ttl)), now, now, Lifetime(ttl), 0), steps); s.wrong <= Bound(s.ttl)
  {
    var s := State(Some(Issue(code, now, ttl)), now, now, Lifetime(ttl), 0);
    assert Spent(s, s.slot.value, 0);
    SpentIsBounded(s, s.slot.value, 0);
    RunKeepsInv(s, steps);
  }

  // ----- the bound is reached ------------------------------------------------------------------

  /** Nothing but guesses of this code. */
  predicate Guessing(steps: seq<Step>, code: string) {
    forall i :: 0 <= i < |steps| ==> steps[i].Guess? && steps[i].code == code
  }

  /** `n` wrong codes at one moment. */
  function Misses(now: int, code: string, n: nat): (steps: seq<Step>)
    ensures Guessing(steps, code)
  {
    if n == 0 then [] else [Guess(now, code, false)] + Misses(now, code, n - 1)
  }

  lemma {:induction false} RunAppend(s: State, a: seq<Step>, b: seq<Step>)
    ensures Run(s, a + b) == Run(Run(s, a), b)
    decreases |a|
  {
    if a == [] {
      assert a + b == b;
    } else {
      assert (a + b)[1..] == a[1..] + b;
      RunAppend(Apply(s, a[0]), a[1..], b);
    }
  }

  /** The state before, and after, a round of misses against one code. */
  predicate Open(s: State, v: Verification, now: int, code: string) {
    s.slot == Some(v) && v.code != code && v.failed < ATTEMPTS && !Locked(v, now) && s.clock <= now <= v.expiresAt
  }

  lemma {:induction false} RoundOfMisses(s: State, v: Verification, now: int, code: string, n: nat)
    requires Open(s, v, now, code) && 1 <= n == ATTEMPTS - v.failed
    ensures Run(s, Misses(now, code, n)) == s.(slot := Some(v.(failed := 0, lockedUntil := Some(now + LOCKOUT))), clock := now, wrong := s.wrong + n)
    decreases n
  {
    var steps := Misses(now, code, n);
    assert steps[1..] == Misses(now, code, n - 1);
    var t := Apply(s, steps[0]);
    if n > 1 {
      RoundOfMisses(t, v.(failed := v.failed + 1), now, code, n - 1);
    } else {
      assert steps[1..] == [];
    }
  }

  /** Rounds spaced by the lockout, as long as the code lives. */
  lemma {:induction false} RoundsReach(s: State, v: Verification, code: string, rounds: nat) returns (steps: seq<Step>)
    requires s.slot == Some(v) && v.code != code && v.failed == 0 && v.lockedUntil.None? && s.wrong == 0
    requires rounds > 0 && s.clock + (rounds - 1) * LOCKOUT <= v.expiresAt
    ensures Guessing(steps, code)
    ensures Run(s, steps) == s.(slot := Some(v.(lockedUntil := Some(s.clock + rounds * LOCKOUT))),
                                clock := s.clock + (rounds - 1) * LOCKOUT, wrong := ATTEMPTS * rounds)
    decreases rounds
  {
    var now := s.clock + (rounds - 1) * LOCKOUT;
    if rounds == 1 {
      RoundOfMisses(s, v, now, code, ATTEMPTS);
      steps := Misses(now, code, ATTEMPTS);
    } else {
      var before := RoundsReach(s, v, code, rounds - 1);
      var t := Run(s, before);
      RoundOfMisses(t, t.slot.value, now, code, ATTEMPTS);
      RunAppend(s, before, Misses(now, code, ATTEMPTS));
      steps := before + Misses(now, code, ATTEMPTS);
    }
  }

  /** A six-digit code other than this one. */
  function OtherCode(code: string): (c: string)
    ensures SixDigits(c) && c != code
  {
    if code == "000000" then "000001" else "000000"
  }

  /** The bound is exact: for every lifetime some run of well-formed guesses reaches it. */
  lemma BoundIsReached(code: string, now: int, ttl: int) returns (steps: seq<Step>)
    ensures forall i :: 0 <= i < |steps| ==> steps[i].Guess? && SixDigits(steps[i].code)
    ensures Run(State(Some(Issue(code, now, ttl)), now, now, Lifetime(ttl), 0), steps).wrong == Bound(Lifetime(ttl))
  {
    var s := State(Some(Issue(code, now, ttl)), now, now, Lifetime(ttl), 0);
    var rounds := Lifetime(ttl) / LOCKOUT + 1;
    assert (rounds - 1) * LOCKOUT <= Lifetime(ttl);
    steps := RoundsReach(s, s.slot.value, OtherCode(code), rounds);
  }

  /** No number of resends before the code expires touches the code, the counter or the lock. */
  lemma {:induction false} ResendsNeverRefill(s: State, resends: seq<Step>)
    requires s.slot.Some? && forall i :: 0 <= i < |resends| ==> resends[i].Resend? && resends[i].now < s.slot.value.expiresAt
    ensures Run(s, resends).slot == s.slot && Run(s, resends).wrong == s.wrong
    decreases |resends|
  {
    if resends != [] {
      var t := Apply(s, resends[0]);
      assert forall i :: 0 <= i < |resends[1..]| ==> resends[1..][i] == resends[i + 1];
      ResendsNeverRefill(t, resends[1..]);
    }
  }

  // ----- one guess in full ---------------------------------------------------------------------

  /** An ASCII digit, by code point. */
  ghost predicate IsDigit(c: char) {
    48 <= c as int < 58
  }

  lemma SixDigitsExactly(c: string)
    ensures SixDigits(c) <==> |c| == 6 && IsDigit(c[0]) && IsDigit(c[1]) && IsDigit(c[2]) && IsDigit(c[3]) && IsDigit(c[4]) && IsDigit(c[5])
  {
    assert |c| == 6 ==> (SixDigits(c) <==> forall i :: 0 <= i < 6 ==> IsDigit(c[i]));
  }

  /** What one guess does to the record: an expired one is dropped, a locked one left alone; a wrong
      code is the fifth in a row and locks it for five minutes, or counts; a right one ends it
      exactly if the account is accepted. */
  lemma GuessExactly(slot: Option<Verification>, now: int, code: string, accepted: bool)
    ensures var after := After(slot, Guess(now, code, accepted));
            match slot
            case None => after.None?
            case Some(v) =>
              if now > v.expiresAt then after.None?
              else if v.lockedUntil.Some? && now < v.lockedUntil.value then after == slot
              else if code == v.code then after == if accepted then None else slot
              else after == Some(if v.failed >= 4 then v.(failed := 0, lockedUntil := Some(now + 5 * 60)) else v.(failed := v.failed + 1))
  {
  }

  /** What a resend does: nothing to a record that lives, else a new one for the configured
      lifetime, or ten minutes. */
  lemma ResendExactly(slot: Option<Verification>, now: int, code: string, ttl: int)
    ensures var after := After(slot, Resend(now, code, ttl));
            if slot.Some? && now < slot.value.expiresAt then after == slot
            else after == Some(Verification(code, if ttl > 0 then now + ttl else now + 10 * 60, 0, None))
  {
  }
}
