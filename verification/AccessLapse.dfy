/**
 When paid access has lapsed (reconcileSubscriptionAccessAt in
 api/subscription_validity.go): a loop over an account's subscriptions that
 returns as soon as one of them still protects access, against a rule that only
 asks whether some subscription does.

 Times are whole seconds.
 */
module AccessLapse {
  import opened Finance
  import opened Text

  const DAY := 86400
  const GRACE := 14 * DAY
  const RETRY := DAY

  /** What the effective period of a subscription was found to be; the lookup may fail. */
  datatype Period = Unavailable | Ends(at: Option<int>)

  datatype Sub = Sub(
    provider: string, kind: string, status: string, period: Period,
    cancelledAt: Option<int>, createdAt: Option<int>, updatedAt: Option<int>)

  /** `arrearsSince` is set when the quota row is in arrears with a known start. */
  datatype Facts = Facts(
    validFrom: Option<int>, validUntil: Option<int>, arrearsSince: Option<int>, subs: seq<Sub>)

  datatype Verdict = Keep | Downgrade | Aborted

  // ----- the helpers of the source ----------------------------------------------------------

  /** Midnight after the inclusive end date. */
  function ExpiresAt(end: int): (r: int)
    ensures end < r <= end + DAY && r % DAY == 0
  {
    (end / DAY + 1) * DAY
  }

  predicate ValidityExpired(f: Facts, now: int) {
    f.validUntil.Some? && now >= ExpiresAt(f.validUntil.value)
  }

  predicate ValidityActive(f: Facts, now: int) {
    f.validUntil.Some? && !(f.validFrom.Some? && now < f.validFrom.value) && now < ExpiresAt(f.validUntil.value)
  }

  predicate GraceExpired(f: Facts, now: int) {
    f.arrearsSince.Some? && now >= f.arrearsSince.value + GRACE
  }

  predicate IsStripe(sub: Sub) {
    EqualFold(Trim(sub.provider), "stripe") && EqualFold(Trim(sub.kind), "subscription")
  }

  function Status(sub: Sub): string {
    Lower(Trim(sub.status))
  }

  predicate Running(sub: Sub) {
    Status(sub) == "active" || Status(sub) == "trialing"
  }

  predicate Ending(sub: Sub) {
    Status(sub) == "canceling" || Status(sub) == "cancelled" || Status(sub) == "canceled"
  }

  /** missingStripePeriodRetryExpired. */
  predicate RetryExpired(sub: Sub, now: int) {
    var first := if sub.createdAt.Some? then sub.createdAt else sub.updatedAt;
    first.Some? && now >= first.value + RETRY
  }

  // ----- the declarative rule ---------------------------------------------------------------

  function End(sub: Sub): Option<int>
    requires sub.period.Ends?
  {
    if Ending(sub) && sub.period.at.None? then sub.cancelledAt else sub.period.at
  }

  /** A subscription whose state says something about access. */
  predicate Judged(sub: Sub) {
    IsStripe(sub) && (Running(sub) || Status(sub) == "past_due" || Ending(sub))
  }

  /** This subscription alone keeps the account on its plan. */
  predicate Protects(sub: Sub, f: Facts, now: int) {
    && Judged(sub) && sub.period.Ends?
    && if Status(sub) == "past_due"
       then (End(sub).Some? && now < End(sub).value) || !GraceExpired(f, now)
       else if End(sub).None? then !RetryExpired(sub, now)
       else now < End(sub).value || (Running(sub) && f.arrearsSince.Some? && !GraceExpired(f, now))
  }

  ghost predicate Protected(f: Facts, now: int) {
    exists sub :: sub in f.subs && Protects(sub, f, now)
  }

  predicate Broken(sub: Sub) {
    IsStripe(sub) && sub.period.Unavailable?
  }

  ghost predicate Unreadable(f: Facts) {
    exists sub :: sub in f.subs && Broken(sub)
  }

  /** Something says that paid access is over. */
  ghost predicate HasReason(f: Facts, now: int) {
    ValidityExpired(f, now) || GraceExpired(f, now) || exists sub :: sub in f.subs && Judged(sub)
  }

  /** Access has lapsed: every period is known, nothing protects it, and there is a reason. */
  ghost predicate Lapsed(f: Facts, now: int) {
    !Unreadable(f) && !Protected(f, now) && !ValidityActive(f, now) && HasReason(f, now)
  }

  // ----- the loop ---------------------------------------------------------------------------

  datatype Finding = Protecting | Reason | Nothing | Error

  /** One turn of the loop of reconcileSubscriptionAccessAt. */
  method Examine(sub: Sub, f: Facts, now: int) returns (r: Finding)
    ensures r == Error <==> Broken(sub)
    ensures r == Protecting <==> Protects(sub, f, now)
    ensures r == Reason <==> Judged(sub) && sub.period.Ends? && !Protects(sub, f, now)
  {
    if !EqualFold(Trim(sub.provider), "stripe") || !EqualFold(Trim(sub.kind), "subscription") {
      return Nothing;
    }
    var status := Lower(Trim(sub.status));
    if sub.period.Unavailable? {
      return Error;
    }
    var end, graceExpired := sub.period.at, GraceExpired(f, now);
    r := Nothing;
    if status == "active" || status == "trialing" {
      if end.None? {
        return if !RetryExpired(sub, now) then Protecting else Reason;
      }
      if now < end.value {
        return Protecting;
      }
      if f.arrearsSince.Some? && !graceExpired {
        return Protecting;
      }
      r := Reason;
    }
    if status == "past_due" {
      if end.Some? && now < end.value {
        return Protecting;
      }
      if f.arrearsSince.None? || !graceExpired {
        return Protecting;
      }
      r := Reason;
    }
    if status == "canceling" || status == "cancelled" || status == "canceled" {
      if end.None? && sub.cancelledAt.Some? {
        end := sub.cancelledAt;
      }
      if end.None? {
        return if !RetryExpired(sub, now) then Protecting else Reason;
      }
      if now < end.value {
        return Protecting;
      }
      r := Reason;
    }
  }

  function FindingOf(sub: Sub, f: Facts, now: int): Finding {
    if Broken(sub) then Error else if Protects(sub, f, now) then Protecting else if Judged(sub) then Reason else Nothing
  }

  predicate Stops(r: Finding) {
    r == Protecting || r == Error
  }

  function Outcome(subs: seq<Sub>, f: Facts, now: int): Finding {
    if subs == [] then Nothing else
      var first := FindingOf(subs[0], f, now);
      var rest := Outcome(subs[1..], f, now);
      if Stops(first) || rest == Nothing then first else rest
  }

  /** The loop of reconcileSubscriptionAccessAt. */
  method Scan(f: Facts, now: int) returns (r: Finding)
    ensures r == Outcome(f.subs, f, now)
  {
    r := Nothing;
    for i := 0 to |f.subs|
      invariant !Stops(r)
      invariant Outcome(f.subs, f, now) == var rest := Outcome(f.subs[i..], f, now); if rest == Nothing then r else rest
    {
      assert f.subs[i..][0] == f.subs[i] && f.subs[i..][1..] == f.subs[i + 1..];
      var found := Examine(f.subs[i], f, now);
      if found == Protecting || found == Error {
        return found;
      }
      if found == Reason {
        r := Reason;
      }
    }
  }

  /** The loop fails exactly on an unreadable period that no protecting subscription precedes. */
  lemma {:induction false} OutcomeFails(subs: seq<Sub>, f: Facts, now: int)
    ensures Outcome(subs, f, now) == Error <==> exists i :: FailsAt(subs, f, now, i)
  {
    if subs != [] {
      OutcomeFails(subs[1..], f, now);
      if i :| FailsAt(subs, f, now, i) {
        if i > 0 { ShiftDown(subs, f, now, i); }
      }
      if Broken(subs[0]) {
        assert FailsAt(subs, f, now, 0);
      } else if !Protects(subs[0], f, now) {
        if i :| FailsAt(subs[1..], f, now, i) { ShiftUp(subs, f, now, i); }
      }
    }
  }

  /** It runs to the end exactly when nothing protects and everything is readable. */
  lemma {:induction false} OutcomeQuiet(subs: seq<Sub>, f: Facts, now: int)
    ensures !Stops(Outcome(subs, f, now)) <==> forall k :: 0 <= k < |subs| ==> !Protects(subs[k], f, now) && !Broken(subs[k])
  {
    if subs != [] {
      OutcomeQuiet(subs[1..], f, now);
      ShiftQuiet(subs, f, now);
    }
  }

  lemma {:induction false} OutcomeReason(subs: seq<Sub>, f: Facts, now: int)
    requires !Stops(Outcome(subs, f, now))
    ensures Outcome(subs, f, now) == Reason <==> exists k :: 0 <= k < |subs| && Judged(subs[k])
  {
    if subs != [] {
      OutcomeReason(subs[1..], f, now);
      ShiftJudged(subs);
    }
  }

  /** The first unreadable period that no protecting subscription precedes. */
  ghost predicate FailsAt(subs: seq<Sub>, f: Facts, now: int, i: int) {
    0 <= i < |subs| && Broken(subs[i]) && forall k :: 0 <= k < i ==> !Protects(subs[k], f, now)
  }

  lemma ShiftDown(subs: seq<Sub>, f: Facts, now: int, i: int)
    requires FailsAt(subs, f, now, i) && i > 0
    ensures !Protects(subs[0], f, now) && FailsAt(subs[1..], f, now, i - 1)
  {
    assert forall k :: 0 <= k < i - 1 ==> subs[1..][k] == subs[k + 1];
  }

  lemma ShiftUp(subs: seq<Sub>, f: Facts, now: int, i: int)
    requires subs != [] && !Protects(subs[0], f, now) && FailsAt(subs[1..], f, now, i)
    ensures FailsAt(subs, f, now, i + 1)
  {
    assert forall k :: 0 < k < i + 1 ==> subs[k] == subs[1..][k - 1];
  }

  lemma ShiftJudged(subs: seq<Sub>)
    requires subs != []
    ensures var rest := subs[1..];
            (exists k :: 0 <= k < |subs| && Judged(subs[k])) <==> Judged(subs[0]) || exists k :: 0 <= k < |rest| && Judged(rest[k])
  {
    var rest := subs[1..];
    if k :| 0 <= k < |subs| && Judged(subs[k]) {
      if k > 0 { assert rest[k - 1] == subs[k]; }
    }
    if k :| 0 <= k < |rest| && Judged(rest[k]) { assert subs[k + 1] == rest[k]; }
  }

  lemma ShiftQuiet(subs: seq<Sub>, f: Facts, now: int)
    requires subs != []
    ensures var rest := subs[1..];
            (forall k :: 0 <= k < |subs| ==> !Protects(subs[k], f, now) && !Broken(subs[k])) <==>
            !Protects(subs[0], f, now) && !Broken(subs[0]) && forall k :: 0 <= k < |rest| ==> !Protects(rest[k], f, now) && !Broken(rest[k])
  {
    var rest := subs[1..];
    assert forall k :: 0 <= k < |rest| ==> rest[k] == subs[k + 1];
    assert forall k :: 0 < k < |subs| ==> subs[k] == rest[k - 1];
  }

  lemma LapsedByIndex(f: Facts, now: int)
    ensures Lapsed(f, now) <==>
            && (forall k :: 0 <= k < |f.subs| ==> !Protects(f.subs[k], f, now) && !Broken(f.subs[k]))
            && !ValidityActive(f, now)
            && (ValidityExpired(f, now) || GraceExpired(f, now) || exists k :: 0 <= k < |f.subs| && Judged(f.subs[k]))
  {
    assert forall k :: 0 <= k < |f.subs| ==> f.subs[k] in f.subs;
  }

  /** reconcileSubscriptionAccessAt up to the decision. An unreadable period stops it
      with an error unless an earlier subscription already protected access. */
  method Reconcile(f: Facts, now: int) returns (v: Verdict)
    ensures v == Downgrade <==> Lapsed(f, now)
    ensures v == Aborted <==> exists i :: FailsAt(f.subs, f, now, i)
  {
    LapsedByIndex(f, now);
    OutcomeFails(f.subs, f, now);
    OutcomeQuiet(f.subs, f, now);
    if !Stops(Outcome(f.subs, f, now)) { OutcomeReason(f.subs, f, now); }
    var shouldDowngrade := ValidityExpired(f, now);
    if GraceExpired(f, now) {
      shouldDowngrade := true;
    }
    var found := Scan(f, now);
    if found == Protecting {
      return Keep;
    }
    if found == Error {
      return Aborted;
    }
    if found == Reason {
      shouldDowngrade := true;
    }
    if ValidityActive(f, now) || !shouldDowngrade {
      return Keep;
    }
    v := Downgrade;
  }

  // ----- the rule in full ---------------------------------------------------------------------

  ghost predicate IsSubscription(sub: Sub) {
    Lower(Trim(sub.provider)) == "stripe" && Lower(Trim(sub.kind)) == "subscription"
  }

  /** The account has been in arrears for 14 days. */
  ghost predicate LongInArrears(f: Facts, now: int) {
    f.arrearsSince.Some? && now - f.arrearsSince.value >= 14 * 24 * 3600
  }

  /** The row is old enough, by its creation or else by its last change, for a missing period
      to count as none. */
  ghost predicate Settling(sub: Sub, now: int) {
    match (sub.createdAt, sub.updatedAt)
    case (Some(t), _) => now - t < 24 * 3600
    case (None, Some(t)) => now - t < 24 * 3600
    case (None, None) => true
  }

  ghost predicate Speaks(sub: Sub) {
    IsSubscription(sub) && Lower(Trim(sub.status)) in {"active", "trialing", "past_due", "canceling", "cancelled", "canceled"}
  }

  /** A Stripe row with a readable period still gives access. */
  ghost predicate Gives(sub: Sub, f: Facts, now: int)
    requires sub.period.Ends?
  {
    var end := sub.period.at;
    match Lower(Trim(sub.status))
    case "active" => RunningGives(sub, end, f, now)
    case "trialing" => RunningGives(sub, end, f, now)
    case "past_due" => (end.Some? && end.value > now) || !LongInArrears(f, now)
    case "canceling" => EndingGives(sub, end, now)
    case "cancelled" => EndingGives(sub, end, now)
    case "canceled" => EndingGives(sub, end, now)
    case _ => false
  }

  ghost predicate RunningGives(sub: Sub, end: Option<int>, f: Facts, now: int) {
    if end.None? then Settling(sub, now) else end.value > now || (f.arrearsSince.Some? && !LongInArrears(f, now))
  }

  ghost predicate EndingGives(sub: Sub, end: Option<int>, now: int) {
    if end.Some? then end.value > now else if sub.cancelledAt.Some? then sub.cancelledAt.value > now else Settling(sub, now)
  }

  lemma SubscriptionIsStripe(sub: Sub)
    ensures IsStripe(sub) <==> IsSubscription(sub)
  {
    assert Lower("stripe") == "stripe" && Lower("subscription") == "subscription";
  }

  lemma ProtectsExactly(sub: Sub, f: Facts, now: int)
    ensures Broken(sub) <==> IsSubscription(sub) && sub.period.Unavailable?
    ensures Judged(sub) <==> Speaks(sub)
    ensures Protects(sub, f, now) <==> IsSubscription(sub) && sub.period.Ends? && Gives(sub, f, now)
  {
    SubscriptionIsStripe(sub);
  }

  /** Days are counted in UTC. */
  lemma DaysDecide(t: int, end: int)
    ensures t >= ExpiresAt(end) <==> t / DAY > end / DAY
  {
  }

  /** The account drops to Free exactly when every Stripe subscription has a readable period
      and gives no access any more, today is not inside a manual grant, and there is a reason:
      a grant that ran out before today, 14 days of arrears, or a subscription at all. */
  lemma LapsedExactly(f: Facts, now: int)
    ensures Lapsed(f, now) <==>
            && (forall sub :: sub in f.subs && IsSubscription(sub) ==> sub.period.Ends? && !Gives(sub, f, now))
            && !(f.validUntil.Some? && now / DAY <= f.validUntil.value / DAY && (f.validFrom.Some? ==> f.validFrom.value <= now))
            && ((f.validUntil.Some? && now / DAY > f.validUntil.value / DAY) || LongInArrears(f, now) || exists sub :: sub in f.subs && Speaks(sub))
  {
    forall sub | sub in f.subs
      ensures (Broken(sub) <==> IsSubscription(sub) && sub.period.Unavailable?) && (Judged(sub) <==> Speaks(sub))
              && (Protects(sub, f, now) <==> IsSubscription(sub) && sub.period.Ends? && Gives(sub, f, now)) {
      ProtectsExactly(sub, f, now);
    }
    if f.validUntil.Some? { DaysDecide(now, f.validUntil.value); }
  }

  /** The reconciliation fails exactly on a Stripe subscription whose period cannot be read
      with none before it that gives access. */
  lemma FailsExactly(f: Facts, now: int, i: int)
    ensures FailsAt(f.subs, f, now, i) <==>
            && 0 <= i < |f.subs| && IsSubscription(f.subs[i]) && f.subs[i].period.Unavailable?
            && forall k :: 0 <= k < i && IsSubscription(f.subs[k]) && f.subs[k].period.Ends? ==> !Gives(f.subs[k], f, now)
  {
    forall k | 0 <= k < |f.subs|
      ensures (Broken(f.subs[k]) <==> IsSubscription(f.subs[k]) && f.subs[k].period.Unavailable?)
              && (Protects(f.subs[k], f, now) <==> IsSubscription(f.subs[k]) && f.subs[k].period.Ends? && Gives(f.subs[k], f, now)) {
      ProtectsExactly(f.subs[k], f, now);
    }
  }

  // ----- order ------------------------------------------------------------------------------

  /** The decision to downgrade depends only on which subscriptions there are. */
  lemma LapseIgnoresOrder(f: Facts, subs: seq<Sub>, now: int)
    requires multiset(subs) == multiset(f.subs)
    ensures Lapsed(f.(subs := subs), now) <==> Lapsed(f, now)
  {
    var g := f.(subs := subs);
    forall sub ensures sub in f.subs <==> sub in subs {
      assert sub in f.subs <==> sub in multiset(f.subs);
      assert sub in subs <==> sub in multiset(subs);
    }
    assert forall sub :: Protects(sub, g, now) <==> Protects(sub, f, now);
  }

  // ----- time -------------------------------------------------------------------------------

  lemma ProtectionEnds(sub: Sub, f: Facts, t: int, later: int)
    requires t <= later && Protects(sub, f, later)
    ensures Protects(sub, f, t)
  {
  }

  /** A manual grant that starts after `t` and before its own end. */
  predicate StartsLater(f: Facts, t: int) {
    f.validUntil.Some? && f.validFrom.Some? && t < f.validFrom.value < ExpiresAt(f.validUntil.value)
  }

  /** With the stored facts fixed, a lapse is permanent exactly when no manual grant
      is waiting to start. */
  lemma LapseIsPermanentExactlyWithoutFutureStart(f: Facts, t: int)
    requires Lapsed(f, t)
    ensures (forall later :: t <= later ==> Lapsed(f, later)) <==> !StartsLater(f, t)
  {
    if StartsLater(f, t) {
      var start := f.validFrom.value;
      assert ValidityActive(f, start);
      assert !Lapsed(f, start);
    } else {
      forall later | t <= later ensures Lapsed(f, later) {
        forall sub | sub in f.subs ensures !Protects(sub, f, later) {
          if Protects(sub, f, later) { ProtectionEnds(sub, f, t, later); }
        }
      }
    }
  }

  /** A waiting grant: judged lapsed now, protected again later. */
  lemma WaitingGrantRestoresAccess()
    ensures var f := Facts(Some(10 * DAY), Some(20 * DAY), Some(0 - GRACE), []); Lapsed(f, 0) && !Lapsed(f, 10 * DAY)
  {
    var f := Facts(Some(10 * DAY), Some(20 * DAY), Some(0 - GRACE), []);
    assert GraceExpired(f, 0);
    assert ValidityActive(f, 10 * DAY);
  }
}
