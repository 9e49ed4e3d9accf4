/**
 Who is granted the month of an annual plan (api/annual_quota.go), read off the
 subscriptions and the quota row: the sweep's loop against a rule that names the
 subscription it stops at.
 */
module AnnualRule {
  import opened Finance
  import opened Text
  import opened Calendar
  import opened Entitlements
  import opened AccessLapse
  import opened AnnualQuota

  /** A Stripe subscription to a yearly plan that has not ended. */
  ghost predicate Yearly(s: AnnualSub) {
    && Lower(s.sub.provider) == "stripe" && Lower(s.sub.kind) == "subscription" && s.allowance.Some?
    && Lower(Trim(s.sub.status)) in {"active", "canceling", "past_due"}
  }

  /** The period that counts: a past-due subscription has only what was verifiably paid. */
  ghost function Paid(s: AnnualSub): Period {
    if Lower(Trim(s.sub.status)) == "past_due" then s.paid else s.sub.period
  }

  /** Arrears on record that began less than 14 days ago. */
  ghost predicate InGrace(quota: Option<Quota>, now: int) {
    quota.Some? && quota.value.arrears && quota.value.arrearsSince.Some? && now - quota.value.arrearsSince.value < 14 * 24 * 3600
  }

  /** It is still running: its period lasts, or it is past due within the grace, or it has no
      period yet and is younger than a day. */
  ghost predicate StillRuns(s: AnnualSub, quota: Option<Quota>, now: int)
    requires Paid(s).Ends?
  {
    match Paid(s).at
    case Some(end) => end > now || (Lower(Trim(s.sub.status)) == "past_due" && InGrace(quota, now))
    case None => if Lower(Trim(s.sub.status)) == "past_due" then InGrace(quota, now) else Settling(s.sub, now)
  }

  /** The sweep passes over it. */
  ghost predicate Passed(s: AnnualSub, quota: Option<Quota>, now: int) {
    Yearly(s) ==> Paid(s).Ends? && !StillRuns(s, quota, now)
  }

  /** The subscription the sweep stops at. */
  ghost predicate StopsAt(subs: seq<AnnualSub>, quota: Option<Quota>, now: int, k: int) {
    0 <= k < |subs| && !Passed(subs[k], quota, now) && forall j :: 0 <= j < k ==> Passed(subs[j], quota, now)
  }

  lemma ConsideredExactly(s: AnnualSub)
    ensures Considered(s) <==> Yearly(s)
  {
    assert Lower("stripe") == "stripe" && Lower("subscription") == "subscription";
  }

  lemma EntitledExactly(s: AnnualSub, quota: Option<Quota>, now: int)
    ensures PeriodOf(s) == Paid(s)
    ensures PeriodOf(s).Ends? ==> (Entitled(s, quota, now) <==> StillRuns(s, quota, now))
  {
  }

  /** What the sweep says of the subscription it stops at. */
  ghost function Says(s: AnnualSub, quota: Option<Quota>, now: int): Granting
    requires Yearly(s)
  {
    if Paid(s).Unavailable? then LookupError
    else if quota.Some? && quota.value.end.Some? && now < quota.value.end.value then NoGrant
    else Grant(s.allowance.value)
  }

  /** The sweep stops at the first yearly subscription whose period it cannot read or that still
      runs: it fails in the first case, and in the second grants that plan's allowance unless the
      quota row's period lasts. Where there is none it grants nothing. */
  lemma {:induction false} DecideExactly(subs: seq<AnnualSub>, quota: Option<Quota>, now: int)
    ensures forall k :: StopsAt(subs, quota, now, k) ==> Decide(subs, quota, now) == Says(subs[k], quota, now)
    ensures (forall k :: !StopsAt(subs, quota, now, k)) ==> Decide(subs, quota, now) == NoGrant
  {
    if subs != [] {
      var rest := subs[1..];
      ConsideredExactly(subs[0]);
      EntitledExactly(subs[0], quota, now);
      DecideExactly(rest, quota, now);
      if Passed(subs[0], quota, now) {
        assert Decide(subs, quota, now) == Decide(rest, quota, now);
        forall k ensures StopsAt(subs, quota, now, k + 1) <==> StopsAt(rest, quota, now, k) { ShiftStop(subs, quota, now, k); }
        forall k | StopsAt(subs, quota, now, k) ensures Decide(subs, quota, now) == Says(subs[k], quota, now) {
          assert StopsAt(rest, quota, now, k - 1) && rest[k - 1] == subs[k];
        }
      } else {
        assert StopsAt(subs, quota, now, 0);
        assert forall k :: StopsAt(subs, quota, now, k) ==> k == 0;
      }
    }
  }

  lemma ShiftStop(subs: seq<AnnualSub>, quota: Option<Quota>, now: int, k: int)
    requires subs != [] && Passed(subs[0], quota, now)
    ensures StopsAt(subs, quota, now, k + 1) <==> StopsAt(subs[1..], quota, now, k)
  {
    var rest := subs[1..];
    assert forall j :: 0 <= j < |rest| ==> rest[j] == subs[j + 1];
    if StopsAt(rest, quota, now, k) {
      forall j | 0 <= j < k + 1 ensures Passed(subs[j], quota, now) { if j > 0 { assert rest[j - 1] == subs[j]; } }
    }
  }

  /** What a sweep does to a row: with a failed read counting as no quota, a grant that can be
      written sets what is left and the calendar month and touches nothing else; the sweep fails
      on an unreadable period and on a grant that cannot be written. */
  lemma SweepExactly(r: Row, now: nat)
    ensures var seen := if r.readable then r.quota else None;
            var g, t := Decide(r.subs, seen, now), Swept(r, now);
            && (Fails(r, now) <==> g == LookupError || (g.Grant? && !r.writable))
            && (g.Grant? && r.writable ==>
                  && t.quota.Some? && t == r.(quota := t.quota) && t.quota.value.remaining == g.allowance
                  && t.quota.value.start == Some(MonthStart(MonthOf(now))) && t.quota.value.end == Some(MonthStart(MonthOf(now) + 1))
                  && (seen.Some? ==> t.quota.value.arrears == seen.value.arrears && t.quota.value.arrearsSince == seen.value.arrearsSince
                                     && t.quota.value.throttle == seen.value.throttle && t.quota.value.suspend == seen.value.suspend)
                  && (seen.None? ==> !t.quota.value.arrears && t.quota.value.arrearsSince.None? && t.quota.value.throttle == "" && t.quota.value.suspend == ""))
            && (!(g.Grant? && r.writable) ==> t == r)
  {
  }

  /** A failed payment marks arrears and nothing else; an episode keeps its start, and a row that
      is missing is created with nothing left and no period. */
  lemma ArrearsExactly(quota: Option<Quota>, since: int)
    ensures var q := InArrears(quota, since);
            && q.arrears && q.arrearsSince.Some?
            && (quota.Some? ==> q == quota.value.(arrears := true, arrearsSince := q.arrearsSince))
            && (q.arrearsSince != Some(since) ==> quota.Some? && q.arrearsSince == quota.value.arrearsSince)
            && (quota.Some? && quota.value.arrearsSince.Some? ==> q.arrearsSince == quota.value.arrearsSince)
            && (quota.None? ==> q.remaining == 0 && q.throttle == "normal" && q.suspend == "active" && q.start.None? && q.end.None?)
  {
  }

  ghost predicate IsGranted(r: Row, now: int) {
    Decide(r.subs, if r.readable then r.quota else None, now).Grant?
  }

  ghost function GrantedRows(rows: seq<Row>, now: int): set<int> {
    set i | 0 <= i < |rows| && IsGranted(rows[i], now)
  }

  lemma GrantedRowsGrow(rows: seq<Row>, now: int)
    requires rows != []
    ensures var n := |rows| - 1;
            GrantedRows(rows, now) == GrantedRows(rows[..n], now) + (if IsGranted(rows[n], now) then {n} else {})
  {
    var init := rows[..|rows| - 1];
    assert forall i :: 0 <= i < |init| ==> init[i] == rows[i];
  }

  /** The count the sweep returns is the number of rows it grants. */
  lemma {:induction false} GrantCountExactly(rows: seq<Row>, now: nat)
    ensures GrantCount(rows, now) == |GrantedRows(rows, now)|
  {
    if rows != [] {
      var n := |rows| - 1;
      GrantCountExactly(rows[..n], now);
      GrantedRowsGrow(rows, now);
      assert n !in GrantedRows(rows[..n], now);
      assert IsGranted(rows[n], now) <==> AnnualQuota.Outcome(rows[n], now).Grant?;
    }
  }
}
