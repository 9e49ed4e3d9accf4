/**
 The monthly allowance of annual plans: the hourly sweep ReconcileAnnualPlanQuotas
 (api/annual_quota.go) and paid-invoice handling through resetQuotaForPlanOnce
 (api/entitlements.go) both grant it, and must grant it once a month between them.
 */
module AnnualQuota {
  import opened Finance
  import opened Text
  import opened Calendar
  import opened Entitlements
  import opened AccessLapse

  /** A subscription with its plan's allowance (None unless the plan is found and yearly)
      and the end of locally verified payments. */
  datatype AnnualSub = AnnualSub(sub: Sub, allowance: Option<int>, paid: Period)

  datatype Granting = NoGrant | Grant(allowance: int) | LookupError

  /** naturalMonthPeriod. */
  function NaturalMonth(now: nat): (m: Month)
    ensures m.start <= now < m.end
  {
    Month(MonthStart(MonthOf(now)), MonthStart(MonthOf(now) + 1))
  }

  /** A time lies in the period exactly when its own period is the same, and the end is
      where the next calendar month starts. */
  lemma NaturalMonthIsExact(now: nat, t: nat)
    ensures NaturalMonth(now).start <= t < NaturalMonth(now).end <==> NaturalMonth(t) == NaturalMonth(now)
    ensures NaturalMonth(NaturalMonth(now).end).start == NaturalMonth(now).end
    ensures MonthOf(NaturalMonth(now).end) == MonthOf(now) + 1
  {
    var m := MonthOf(now);
    if MonthStart(m) <= t < MonthStart(m + 1) { MonthIsUnique(t, m); }
    MonthsIncrease(m + 1, m + 2);
    MonthIsUnique(MonthStart(m + 1), m + 1);
  }

  // ----- one account in the sweep ------------------------------------------------------------

  /** The sweep's filter; unlike the lapse rule it does not trim provider and kind. */
  predicate Considered(s: AnnualSub) {
    && EqualFold(s.sub.provider, "stripe") && EqualFold(s.sub.kind, "subscription")
    && Lower(Trim(s.sub.status)) in ["active", "canceling", "past_due"] && s.allowance.Some?
  }

  function PeriodOf(s: AnnualSub): Period {
    if Lower(Trim(s.sub.status)) == "past_due" then s.paid else s.sub.period
  }

  predicate Entitled(s: AnnualSub, quota: Option<Quota>, now: int)
    requires PeriodOf(s).Ends?
  {
    var end := PeriodOf(s).at;
    if Lower(Trim(s.sub.status)) == "past_due"
    then (end.Some? && now < end.value)
         || (quota.Some? && quota.value.arrears && quota.value.arrearsSince.Some? && now < quota.value.arrearsSince.value + GRACE)
    else if end.None? then !RetryExpired(s.sub, now) else now < end.value
  }

  predicate Current(quota: Option<Quota>, now: int) {
    quota.Some? && quota.value.end.Some? && quota.value.end.value > now
  }

  function Decide(subs: seq<AnnualSub>, quota: Option<Quota>, now: int): Granting {
    if subs == [] then NoGrant
    else if !Considered(subs[0]) then Decide(subs[1..], quota, now)
    else if PeriodOf(subs[0]).Unavailable? then LookupError
    else if !Entitled(subs[0], quota, now) then Decide(subs[1..], quota, now)
    else if Current(quota, now) then NoGrant
    else Grant(subs[0].allowance.value)
  }

  function Armed(quota: Option<Quota>, allowance: int, m: Month): Quota {
    var q := if quota.Some? then quota.value else Quota(0, false, None, "", "", None, None);
    q.(remaining := allowance, start := Some(m.start), end := Some(m.end))
  }

  /** The inner loop of ReconcileAnnualPlanQuotas. */
  method SweepSubscriptions(subs: seq<AnnualSub>, quota: Option<Quota>, now: int) returns (g: Granting)
    ensures g == Decide(subs, quota, now)
  {
    for i := 0 to |subs|
      invariant Decide(subs, quota, now) == Decide(subs[i..], quota, now)
    {
      var s := subs[i];
      assert subs[i..][0] == s && subs[i..][1..] == subs[i + 1..];
      var status := Lower(Trim(s.sub.status));
      if !EqualFold(s.sub.provider, "stripe") || !EqualFold(s.sub.kind, "subscription") || (status != "active" && status != "canceling" && status != "past_due") {
        continue;
      }
      if s.allowance.None? {
        continue;
      }
      var period := if status == "past_due" then s.paid else s.sub.period;
      if period.Unavailable? {
        return LookupError;
      }
      if status == "past_due" {
        var paidServiceActive := period.at.Some? && now < period.at.value;
        var graceActive := quota.Some? && quota.value.arrears && quota.value.arrearsSince.Some? && now < quota.value.arrearsSince.value + GRACE;
        if !paidServiceActive && !graceActive {
          continue;
        }
      } else if period.at.None? {
        if RetryExpired(s.sub, now) {
          continue;
        }
      } else if now >= period.at.value {
        continue;
      }
      if quota.Some? && quota.value.end.Some? && quota.value.end.value > now {
        return NoGrant;
      }
      return Grant(s.allowance.value);
    }
    g := NoGrant;
  }

  /** A row of the account table the sweep walks; reading or writing the quota may fail. */
  datatype Row = Row(subs: seq<AnnualSub>, quota: Option<Quota>, readable: bool, writable: bool)

  /** The sweep does not look at the error of the quota read: a failed read is no quota. */
  function Seen(r: Row): Option<Quota> {
    if r.readable then r.quota else None
  }

  function Outcome(r: Row, now: int): Granting {
    Decide(r.subs, Seen(r), now)
  }

  predicate Fails(r: Row, now: int) {
    Outcome(r, now) == LookupError || (Outcome(r, now).Grant? && !r.writable)
  }

  function Swept(r: Row, now: nat): Row {
    var g := Outcome(r, now);
    if g.Grant? && r.writable then r.(quota := Some(Armed(Seen(r), g.allowance, NaturalMonth(now)))) else r
  }

  function GrantCount(rows: seq<Row>, now: nat): nat {
    if rows == [] then 0 else
      GrantCount(rows[..|rows| - 1], now) + if Outcome(rows[|rows| - 1], now).Grant? then 1 else 0
  }

  /** The outer loop's body. */
  method SweepRow(r: Row, now: nat) returns (next: Row, g: Granting, failed: bool)
    ensures g == Outcome(r, now) && next == Swept(r, now) && (failed <==> Fails(r, now))
  {
    var quota := if r.readable then r.quota else None;
    g := SweepSubscriptions(r.subs, quota, now);
    next, failed := r, g == LookupError;
    if g.Grant? {
      if !r.writable {
        return next, g, true;
      }
      next := r.(quota := Some(Armed(quota, g.allowance, NaturalMonth(now))));
    }
  }

  lemma GrantCountGrows(rows: seq<Row>, n: nat, now: nat)
    requires n < |rows|
    ensures GrantCount(rows[..n + 1], now) == GrantCount(rows[..n], now) + if Outcome(rows[n], now).Grant? then 1 else 0
  {
    assert rows[..n + 1][..n] == rows[..n];
  }

  /** ReconcileAnnualPlanQuotas over the stored rows: the `settled` rows before the first
      period lookup or quota write that fails are swept, nothing after it is touched, and
      `reset` counts the grants. */
  method ReconcileAnnualPlanQuotas(rows: array<Row>, now: nat) returns (reset: nat, failed: bool, ghost settled: nat)
    modifies rows
    ensures settled <= rows.Length && (!failed ==> settled == rows.Length)
    ensures forall i :: 0 <= i < settled ==> rows[i] == Swept(old(rows[i]), now)
    ensures forall i :: settled <= i < rows.Length ==> rows[i] == old(rows[i])
    ensures failed ==> settled < rows.Length && Fails(rows[settled], now)
    ensures reset == GrantCount(old(rows[..])[..settled], now)
  {
    ghost var before := rows[..];
    reset := 0;
    for i := 0 to rows.Length
      invariant reset == GrantCount(before[..i], now)
      invariant forall k :: 0 <= k < i ==> rows[k] == Swept(before[k], now)
      invariant forall k :: i <= k < rows.Length ==> rows[k] == before[k]
    {
      GrantCountGrows(before, i, now);
      var next, g, stop := SweepRow(rows[i], now);
      if stop {
        return reset, true, i;
      }
      if g.Grant? {
        rows[i] := next;
        reset := reset + 1;
      }
    }
    failed, settled := false, rows.Length;
  }

  // ----- the invoice path --------------------------------------------------------------------

  /** The row already carries this very period. */
  predicate Granted(quota: Option<Quota>, m: Month) {
    && quota.Some? && quota.value.start.Some? && quota.value.end.Some?
    && m.start <= quota.value.start.value < m.end && quota.value.end.value == m.end
  }

  function Cleared(q: Quota): Quota {
    q.(arrears := false, arrearsSince := None, throttle := "normal", suspend := "active")
  }

  /** resetQuotaForPlanOnce: a repeat clears dunning flags and grants nothing. */
  method ResetQuotaForPlanOnce(quota: Option<Quota>, allowance: int, m: Month) returns (q: Quota)
    requires m.start < m.end
    ensures q == if Granted(quota, m) then Cleared(quota.value) else Cleared(Armed(quota, allowance, m))
    // in full: dunning ends either way, and the allowance comes unless the row carries the period
    ensures !q.arrears && q.arrearsSince.None? && q.throttle == "normal" && q.suspend == "active"
    ensures var had := && quota.Some? && quota.value.start.Some? && quota.value.end == Some(m.end)
                       && m.start <= quota.value.start.value && quota.value.start.value < m.end;
            if had then q.remaining == quota.value.remaining && q.start == quota.value.start && q.end == quota.value.end
            else q.remaining == allowance && q.start == Some(m.start) && q.end == Some(m.end)
  {
    if quota.Some? && quota.value.start.Some? && quota.value.end.Some? && !(quota.value.start.value < m.start)
       && quota.value.start.value < m.end && quota.value.end.value == m.end {
      if !quota.value.arrears && quota.value.arrearsSince.None? && quota.value.throttle == "normal" && quota.value.suspend == "active" {
        return quota.value;
      }
      return quota.value.(arrears := false, arrearsSince := None, throttle := "normal", suspend := "active");
    }
    q := if quota.Some? then quota.value else Quota(0, false, None, "", "", None, None);
    q := q.(remaining := allowance, arrears := false, arrearsSince := None, throttle := "normal", suspend := "active");
    q := q.(start := Some(m.start), end := Some(m.end));
  }

  // ----- every interleaving ------------------------------------------------------------------

  /** `grants` lists the months in which the allowance was granted, oldest first. */
  datatype State = State(quota: Option<Quota>, subs: seq<AnnualSub>, clock: nat, grants: seq<nat>)

  datatype Step =
    | SweepAt(now: nat)
    | BlindSweepAt(now: nat)      // a sweep whose quota read fails
    | InvoicePaid(now: nat, allowance: int)
    | Use(bytes: nat)
    | PaymentFailed(since: int)
    | BlindPaymentFailed(since: int) // a failed payment whose quota read fails
    | Change(subs: seq<AnnualSub>)

  /** markAccountArrears: an episode keeps its start, and a missing row is created. */
  function InArrears(quota: Option<Quota>, since: int): Quota {
    if quota.None? then Quota(0, true, Some(since), "normal", "active", None, None)
    else quota.value.(arrears := true, arrearsSince := if quota.value.arrearsSince.Some? then quota.value.arrearsSince else Some(since))
  }

  function Apply(s: State, step: Step): State {
    match step
    case SweepAt(now) =>
      if now < s.clock then s else
        var g := Decide(s.subs, s.quota, now);
        if g.Grant?
        then s.(quota := Some(Armed(s.quota, g.allowance, NaturalMonth(now))), clock := now, grants := s.grants + [MonthOf(now)])
        else s.(clock := now)
    case BlindSweepAt(now) =>
      if now < s.clock then s else
        var g := Decide(s.subs, None, now);
        if g.Grant?
        then s.(quota := Some(Armed(None, g.allowance, NaturalMonth(now))), clock := now, grants := s.grants + [MonthOf(now)])
        else s.(clock := now)
    case InvoicePaid(now, allowance) =>
      if now < s.clock then s
      else if Granted(s.quota, NaturalMonth(now)) then s.(quota := Some(Cleared(s.quota.value)), clock := now)
      else s.(quota := Some(Cleared(Armed(s.quota, allowance, NaturalMonth(now)))), clock := now, grants := s.grants + [MonthOf(now)])
    case Use(n) => if s.quota.Some? then s.(quota := Some(s.quota.value.(remaining := s.quota.value.remaining - n))) else s
    case PaymentFailed(since) => s.(quota := Some(InArrears(s.quota, since)))
    case BlindPaymentFailed(since) => s.(quota := Some(InArrears(None, since)))
    case Change(subs) => s.(subs := subs)
  }

  function Run(s: State, steps: seq<Step>): State
    decreases |steps|
  {
    if steps == [] then s else Run(Apply(s, steps[0]), steps[1..])
  }

  ghost predicate Increasing(grants: seq<nat>) {
    forall i, j :: 0 <= i < j < |grants| ==> grants[i] < grants[j]
  }

  /** Months are granted in order, and the clock has reached the last of them. */
  ghost predicate Inv(s: State) {
    Increasing(s.grants) && (s.grants != [] ==> MonthStart(s.grants[|s.grants| - 1]) <= s.clock)
  }

  /** The row carries the month of the last grant. */
  predicate Carries(s: State) {
    s.grants != [] ==>
      var last := s.grants[|s.grants| - 1];
      s.quota.Some? && s.quota.value.start == Some(MonthStart(last)) && s.quota.value.end == Some(MonthStart(last + 1))
  }

  /** The step grants the allowance. */
  predicate Grants(s: State, step: Step) {
    match step
    case SweepAt(now) => s.clock <= now && Decide(s.subs, s.quota, now).Grant?
    case BlindSweepAt(now) => s.clock <= now && Decide(s.subs, None, now).Grant?
    case InvoicePaid(now, _) => s.clock <= now && !Granted(s.quota, NaturalMonth(now))
    case _ => false
  }

  /** A month that was granted already is granted by a sweep that cannot read the quota, or
      after a failed payment that could not read it has overwritten the row. */
  predicate Regrants(s: State, step: Step) {
    Grants(s, step) && MonthOf(step.now) in s.grants && (step.BlindSweepAt? || !Carries(s))
  }

  predicate NeverRegrants(s: State, steps: seq<Step>)
    decreases |steps|
  {
    steps != [] ==> !Regrants(s, steps[0]) && NeverRegrants(Apply(s, steps[0]), steps[1..])
  }

  /** While the row carries a month, nothing grants again before that month is over. */
  lemma NoSecondGrant(s: State, now: nat)
    requires Inv(s) && Carries(s) && s.clock <= now && s.grants != [] && MonthOf(now) <= s.grants[|s.grants| - 1]
    ensures Current(s.quota, now) && Granted(s.quota, NaturalMonth(now)) && MonthOf(now) == s.grants[|s.grants| - 1]
  {
    var last := s.grants[|s.grants| - 1];
    if MonthOf(now) < last {
      if MonthOf(now) + 1 < last { MonthsIncrease(MonthOf(now) + 1, last); }
    }
  }

  lemma {:induction false} CurrentNeverGrants(subs: seq<AnnualSub>, quota: Option<Quota>, now: int)
    requires Current(quota, now)
    ensures !Decide(subs, quota, now).Grant?
  {
    if subs != [] { CurrentNeverGrants(subs[1..], quota, now); }
  }

  /** The clock never falls behind the month of the last grant. */
  lemma MonthReached(s: State, now: nat)
    requires Inv(s) && s.clock <= now && s.grants != []
    ensures s.grants[|s.grants| - 1] <= MonthOf(now)
  {
    var last := s.grants[|s.grants| - 1];
    if MonthOf(now) + 1 < last { MonthsIncrease(MonthOf(now) + 1, last); }
  }

  /** A step that grants and does not regrant grants a later month than all before. */
  lemma GrantIsLater(s: State, step: Step)
    requires Inv(s) && Grants(s, step) && !Regrants(s, step) && s.grants != []
    ensures s.grants[|s.grants| - 1] < MonthOf(step.now)
  {
    var last := s.grants[|s.grants| - 1];
    MonthReached(s, step.now);
    if MonthOf(step.now) == last {
      assert last in s.grants;
      NoSecondGrant(s, step.now);
      if step.SweepAt? { CurrentNeverGrants(s.subs, s.quota, step.now); }
    }
  }

  lemma GrantedRow(s: State, step: Step)
    requires Grants(s, step)
    ensures var t := Apply(s, step);
            && t.clock == step.now && t.grants == s.grants + [MonthOf(step.now)] && t.quota.Some?
            && t.quota.value.start == Some(NaturalMonth(step.now).start) && t.quota.value.end == Some(NaturalMonth(step.now).end)
  {
  }

  lemma OtherStep(s: State, step: Step)
    requires !Grants(s, step)
    ensures Apply(s, step).grants == s.grants && s.clock <= Apply(s, step).clock
    ensures !step.BlindPaymentFailed? && Carries(s) ==> Carries(Apply(s, step))
  {
  }

  lemma StepKeepsInv(s: State, step: Step)
    requires Inv(s) && !Regrants(s, step)
    ensures Inv(Apply(s, step))
    ensures !step.BlindPaymentFailed? && Carries(s) ==> Carries(Apply(s, step))
  {
    if Grants(s, step) {
      GrantedRow(s, step);
      if s.grants != [] { GrantIsLater(s, step); }
    } else {
      OtherStep(s, step);
    }
  }

  lemma {:induction false} GrantsOnlyAppend(s: State, steps: seq<Step>)
    ensures s.grants <= Run(s, steps).grants
    decreases |steps|
  {
    if steps != [] { GrantsOnlyAppend(Apply(s, steps[0]), steps[1..]); }
  }

  /** No month is listed twice. */
  ghost predicate OncePerMonth(grants: seq<nat>) {
    forall i, j :: 0 <= i < j < |grants| ==> grants[i] != grants[j]
  }

  lemma RegrantShows(s: State, step: Step, steps: seq<Step>)
    requires Regrants(s, step)
    ensures !OncePerMonth(Run(Apply(s, step), steps).grants)
  {
    var t := Apply(s, step);
    var i :| 0 <= i < |s.grants| && s.grants[i] == MonthOf(step.now);
    GrantsOnlyAppend(t, steps);
    var all := Run(t, steps).grants;
    assert all[i] == t.grants[i] == s.grants[i] && all[|s.grants|] == t.grants[|s.grants|] == MonthOf(step.now);
  }

  lemma {:induction false} GrantsAreUniqueExactly(s: State, steps: seq<Step>)
    requires Inv(s)
    ensures OncePerMonth(Run(s, steps).grants) <==> NeverRegrants(s, steps)
    decreases |steps|
  {
    if steps != [] {
      if Regrants(s, steps[0]) {
        RegrantShows(s, steps[0], steps[1..]);
      } else {
        StepKeepsInv(s, steps[0]);
        GrantsAreUniqueExactly(Apply(s, steps[0]), steps[1..]);
      }
    }
  }

  /** From any quota row whatever, over any interleaving of sweeps, replayed invoices,
      consumption, failed payments and subscription changes, with quota reads that may fail,
      at nondecreasing times, the allowance is granted at most once per calendar month if and
      only if no grant in a month already granted is made by a sweep that cannot read the
      quota or follows a failed payment that could not read it. */
  lemma AtMostOneGrantPerMonthExactly(quota: Option<Quota>, subs: seq<AnnualSub>, clock: nat, steps: seq<Step>)
    ensures var s := State(quota, subs, clock, []);
            OncePerMonth(Run(s, steps).grants) <==> NeverRegrants(s, steps)
  {
    GrantsAreUniqueExactly(State(quota, subs, clock, []), steps);
  }

  predicate Readable(steps: seq<Step>) {
    forall i :: 0 <= i < |steps| ==> !steps[i].BlindSweepAt? && !steps[i].BlindPaymentFailed?
  }

  lemma {:induction false} ReadableNeverRegrants(s: State, steps: seq<Step>)
    requires Inv(s) && Carries(s) && Readable(steps)
    ensures NeverRegrants(s, steps)
    decreases |steps|
  {
    if steps != [] {
      assert forall i :: 0 <= i < |steps[1..]| ==> steps[1..][i] == steps[i + 1];
      StepKeepsInv(s, steps[0]);
      ReadableNeverRegrants(Apply(s, steps[0]), steps[1..]);
    }
  }

  /** In particular, whenever the quota can be read. */
  lemma AtMostOneGrantPerMonth(quota: Option<Quota>, subs: seq<AnnualSub>, clock: nat, steps: seq<Step>)
    requires Readable(steps)
    ensures OncePerMonth(Run(State(quota, subs, clock, []), steps).grants)
  {
    ReadableNeverRegrants(State(quota, subs, clock, []), steps);
    GrantsAreUniqueExactly(State(quota, subs, clock, []), steps);
  }

  /** A month granted twice: for any subscriptions that are entitled to their allowance, a
      sweep grants it and a second one, whose quota read fails, grants it again. */
  lemma BlindSweepGrantsTwice(subs: seq<AnnualSub>, now: nat)
    requires Decide(subs, None, now).Grant?
    ensures Run(State(None, subs, now, []), [SweepAt(now), BlindSweepAt(now)]).grants == [MonthOf(now), MonthOf(now)]
  {
    var s := State(None, subs, now, []);
    var t := Apply(s, SweepAt(now));
    var u := Apply(t, BlindSweepAt(now));
    assert [SweepAt(now), BlindSweepAt(now)][1..] == [BlindSweepAt(now)] && [BlindSweepAt(now)][1..] == [];
    assert Run(u, []) == u && Run(t, [BlindSweepAt(now)]) == Run(u, []);
  }

  /** Such subscriptions exist: one active annual subscription inside its period. */
  lemma ActiveSubscriptionIsEntitled(now: nat, allowance: int)
    ensures Decide([AnnualSub(Sub("stripe", "subscription", "active", Ends(Some(now + 1)), None, None, None), Some(allowance), Ends(None))], None, now)
            == Grant(allowance)
  {
    assert Trim("active") == "active" && Lower("active") == "active";
  }

  /** A failed payment that cannot read the quota overwrites the row and forgets its month:
      the next invoice is granted the month a second time. */
  lemma BlindFailureGrantsTwice(subs: seq<AnnualSub>, now: nat, allowance: int, since: int)
    ensures Run(State(None, subs, now, []), [InvoicePaid(now, allowance), BlindPaymentFailed(since), InvoicePaid(now, allowance)]).grants
            == [MonthOf(now), MonthOf(now)]
  {
    var a, b := InvoicePaid(now, allowance), BlindPaymentFailed(since);
    var t := Apply(State(None, subs, now, []), a);
    var u := Apply(t, b);
    var v := Apply(u, a);
    assert [a, b, a][1..] == [b, a] && [b, a][1..] == [a] && [a][1..] == [];
    assert Run(v, []) == v && Run(u, [a]) == Run(v, []) && Run(t, [b, a]) == Run(u, [a]);
  }

  /** The list of grants is complete: no other step ever raises what is left, except that
      the row a blind failed payment writes starts at zero. */
  lemma OnlyGrantsRaiseTheQuota(s: State, step: Step)
    requires s.quota.Some?
    ensures Apply(s, step).quota.Some?
    ensures Apply(s, step).quota.value.remaining > s.quota.value.remaining ==>
            |Apply(s, step).grants| == |s.grants| + 1 || (step.BlindPaymentFailed? && s.quota.value.remaining < Apply(s, step).quota.value.remaining == 0)
  {
  }

  /** A row armed for one month does not count as granted for another. */
  lemma GrantedForOneMonth(quota: Option<Quota>, allowance: int, s: nat, t: nat)
    requires MonthOf(s) != MonthOf(t)
    ensures !Granted(Some(Cleared(Armed(quota, allowance, NaturalMonth(s)))), NaturalMonth(t))
  {
    if MonthOf(s) < MonthOf(t) {
      MonthsIncrease(MonthOf(s) + 1, MonthOf(t) + 1);
    } else {
      MonthsIncrease(MonthOf(t) + 1, MonthOf(s) + 1);
    }
  }

  /** Nondecreasing time is needed: if the clock is set back to an earlier month after a
      later one was granted, an invoice handled then is granted its month again. */
  lemma EarlierClockGrantsAgain(subs: seq<AnnualSub>, allowance: int, earlier: nat, later: nat)
    requires MonthOf(earlier) < MonthOf(later)
    ensures var s := Run(State(None, subs, earlier, []), [InvoicePaid(earlier, allowance), InvoicePaid(later, allowance)]);
            Apply(s.(clock := earlier), InvoicePaid(earlier, allowance)).grants == [MonthOf(earlier), MonthOf(later), MonthOf(earlier)]
  {
    var a, b := InvoicePaid(earlier, allowance), InvoicePaid(later, allowance);
    var s0 := State(None, subs, earlier, []);
    var s1 := Apply(s0, a);
    if later < earlier { MonthsFollowTime(later, earlier); }
    GrantedForOneMonth(None, allowance, earlier, later);
    GrantedForOneMonth(s1.quota, allowance, later, earlier);
    var s2 := Apply(s1, b);
    assert [a, b][1..] == [b] && [b][1..] == [];
    assert Run(s2, []) == s2 && Run(s1, [b]) == Run(s2, []);
    assert s2.grants == [MonthOf(earlier), MonthOf(later)];
  }
}
