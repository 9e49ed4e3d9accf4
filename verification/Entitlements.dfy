/**
 Moving an account to the Free plan (downgradeToFreePlan and applyPlanEntitlements
 in api/entitlements.go, normalizeGroups in api/admin_users.go): the group rewrite,
 the profile, and the quota row that carries this period's usage over.
 */
module Entitlements {
  import opened Finance
  import opened Text

  const FREE := "segment:quota:free-3gb"
  const PLUS := "segment:quota:plus-20gb"
  const UNLIMITED := "segment:quota:unlimited-beta"
  const SEGMENT_FREE := "segment:free"
  const FREE_RULE := "plan:FREE"

  /** The groups the downgrade removes, compared without trimming. */
  const DROPPED := [FREE, PLUS, UNLIMITED, "segment:subscription:listed", "segment:subscribed", "segment:monthly",
                    "segment:yearly", "segment:subscription:monthly", "segment:subscription:yearly"]

  datatype Plan = Plan(package: string, included: int)

  datatype Month = Month(start: int, end: int)

  datatype Profile = Profile(rule: string, package: string, included: int, basePrice: real)

  datatype Quota = Quota(
    remaining: int, arrears: bool, arrearsSince: Option<int>, throttle: string, suspend: string,
    start: Option<int>, end: Option<int>)

  /** Groups are absent when the user row is. */
  datatype Account = Account(groups: Option<seq<string>>, profile: Option<Profile>, quota: Option<Quota>)

  // ----- groups ------------------------------------------------------------------------------

  function Normalized(values: seq<string>): (r: seq<string>)
    ensures forall i, j :: 0 <= i < j < |r| ==> r[i] != r[j]
  {
    if values == [] then [] else
      var init := Normalized(values[..|values| - 1]);
      var g := Trim(values[|values| - 1]);
      if g == "" || g in init then init else init + [g]
  }

  lemma {:induction false} NormalizedMembers(values: seq<string>, g: string)
    ensures g in Normalized(values) <==> g != "" && exists v :: v in values && Trim(v) == g
  {
    if values != [] {
      var init, last := values[..|values| - 1], values[|values| - 1];
      assert values == init + [last] && last in values;
      assert forall v :: v in values <==> v in init || v == last;
      NormalizedMembers(init, g);
    }
  }

  /** Normalizing what is already normal changes nothing. */
  lemma {:induction false} NormalizedIdempotent(values: seq<string>)
    requires forall g :: g in values ==> g != "" && Trim(g) == g
    requires forall i, j :: 0 <= i < j < |values| ==> values[i] != values[j]
    ensures Normalized(values) == values
  {
    if values != [] {
      var init, last := values[..|values| - 1], values[|values| - 1];
      assert values == init + [last] && last in values;
      assert forall v :: v in init ==> v in values;
      NormalizedIdempotent(init);
    }
  }

  /** normalizeGroups: trimmed, non-blank, each once, in order of first appearance. */
  method NormalizeGroups(values: seq<string>) returns (groups: seq<string>)
    ensures groups == Normalized(values)
  {
    groups := [];
    var seen := {};
    for i := 0 to |values|
      invariant groups == Normalized(values[..i])
      invariant seen == set g | g in groups
    {
      assert values[..i + 1][..i] == values[..i];
      var g := Trim(values[i]);
      if g == "" || g in seen {
        continue;
      }
      seen := seen + {g};
      groups := groups + [g];
    }
    assert values[..|values|] == values;
  }

  function Kept(groups: seq<string>): (r: seq<string>)
    ensures forall g :: g in r <==> g in groups && g !in DROPPED
  {
    if groups == [] then [] else
      Kept(groups[..|groups| - 1]) + (if groups[|groups| - 1] in DROPPED then [] else [groups[|groups| - 1]])
  }

  function FreeGroups(groups: seq<string>): seq<string> {
    Normalized(Kept(groups) + [FREE, SEGMENT_FREE])
  }

  /** The group loop of downgradeToFreePlan. */
  method RewriteGroups(groups: seq<string>) returns (r: seq<string>)
    ensures r == FreeGroups(groups)
  {
    r := [];
    for i := 0 to |groups|
      invariant r == Kept(groups[..i])
    {
      assert groups[..i + 1][..i] == groups[..i];
      if groups[i] !in DROPPED {
        r := r + [groups[i]];
      }
    }
    assert groups[..|groups|] == groups;
    r := NormalizeGroups(r + [FREE, SEGMENT_FREE]);
  }

  predicate IsQuotaGroup(g: string) {
    g == FREE || g == PLUS || g == UNLIMITED
  }

  /** A managed group hidden behind white space from the exact comparison. */
  predicate Padded(g: string) {
    (Trim(g) == PLUS || Trim(g) == UNLIMITED) && g != Trim(g)
  }

  lemma ConstantsTrimmed()
    ensures Trim(FREE) == FREE && Trim(SEGMENT_FREE) == SEGMENT_FREE && Trim(PLUS) == PLUS && Trim(UNLIMITED) == UNLIMITED
  {
    assert Trimmed(FREE) && Trimmed(SEGMENT_FREE) && Trimmed(PLUS) && Trimmed(UNLIMITED);
  }

  lemma FreeGroupsMembers(groups: seq<string>, g: string)
    ensures g in FreeGroups(groups) <==>
            g == FREE || g == SEGMENT_FREE || (g != "" && exists v :: v in groups && v !in DROPPED && Trim(v) == g)
  {
    ConstantsTrimmed();
    var all := Kept(groups) + [FREE, SEGMENT_FREE];
    NormalizedMembers(all, g);
    assert FREE in all && SEGMENT_FREE in all;
    if v :| v in groups && v !in DROPPED && Trim(v) == g {
      assert v in Kept(groups);
      assert v in all;
    }
    if g in FreeGroups(groups) && g != FREE && g != SEGMENT_FREE {
      var v :| v in all && Trim(v) == g;
      assert v in Kept(groups);
    }
  }

  /** The rewrite ends with Free as the only managed quota group exactly when no managed
      group was padded; then Free is there once, since groups are distinct. */
  lemma OneQuotaGroup(groups: seq<string>)
    ensures FREE in FreeGroups(groups)
    ensures (forall g :: g in FreeGroups(groups) && IsQuotaGroup(g) ==> g == FREE) <==> (forall g :: g in groups ==> !Padded(g))
  {
    FreeGroupsMembers(groups, FREE);
    ConstantsTrimmed();
    if g :| g in groups && Padded(g) {
      FreeGroupsMembers(groups, Trim(g));
      PaddedIsKept(g);
      assert IsQuotaGroup(Trim(g)) && Trim(g) != FREE;
    }
    if g :| g in FreeGroups(groups) && IsQuotaGroup(g) && g != FREE {
      FreeGroupsMembers(groups, g);
      var v :| v in groups && v !in DROPPED && Trim(v) == g;
      assert Padded(v);
    }
  }

  lemma DroppedAreTrimmed(g: string)
    requires g in DROPPED
    ensures Trim(g) == g
  {
    assert Trimmed(g);
  }

  lemma PaddedIsKept(g: string)
    requires Padded(g)
    ensures g !in DROPPED
  {
    if g in DROPPED { DroppedAreTrimmed(g); }
  }

  /** One padded group survives the rewrite as a paid group beside Free. */
  lemma PaddedGroupSurvives()
    ensures PLUS in FreeGroups([" " + PLUS])
  {
    var g := " " + PLUS;
    ConstantsTrimmed();
    assert Trim(g) == Trim(g[1..]) && g[1..] == PLUS;
    PaddedIsKept(g);
    assert g in [g];
    FreeGroupsMembers([g], PLUS);
  }

  // ----- profile and quota -------------------------------------------------------------------

  function PackageOf(plan: Plan): string {
    if Trim(plan.package) == "" then "default" else Trim(plan.package)
  }

  function FreeProfile(before: Option<Profile>, plan: Plan): Profile {
    Profile(FREE_RULE, PackageOf(plan), plan.included, if before.Some? then before.value.basePrice else 0.0)
  }

  function Used(p: Profile, q: Quota): int {
    p.included - q.remaining
  }

  function Max(a: int, b: int): int {
    if a < b then b else a
  }

  /** The account already carries this Free plan for this month: nothing is written. */
  predicate Settled(a: Account, plan: Plan, m: Month) {
    && a.profile.Some? && a.quota.Some?
    && a.profile.value.rule == FREE_RULE && a.profile.value.package == PackageOf(plan) && a.profile.value.included == plan.included
    && a.quota.value.start == Some(m.start) && a.quota.value.end == Some(m.end)
  }

  /** A Free account whose recorded period is over: a new month's allowance. */
  predicate RolledOver(a: Account, m: Month) {
    && a.profile.Some? && a.quota.Some? && a.profile.value.rule == FREE_RULE
    && a.quota.value.start.Some? && a.quota.value.end.Some? && a.quota.value.end.value <= m.start
  }

  function Remaining(a: Account, plan: Plan, m: Month): int {
    if a.quota.None? || RolledOver(a, m) then plan.included
    else if a.profile.Some? then plan.included - Max(0, Used(a.profile.value, a.quota.value))
    else if a.quota.value.remaining < plan.included then a.quota.value.remaining else plan.included
  }

  function FreeQuota(a: Account, plan: Plan, m: Month): Quota {
    Quota(Remaining(a, plan, m), false, None, "normal",
          if a.quota.Some? && a.quota.value.suspend == "suspended" then "suspended" else "active", Some(m.start), Some(m.end))
  }

  function Downgraded(a: Account, plan: Plan, m: Month): Account {
    var groups := if a.groups.Some? then Some(FreeGroups(a.groups.value)) else None;
    if Settled(a, plan, m) then a.(groups := groups)
    else Account(groups, Some(FreeProfile(a.profile, plan)), Some(FreeQuota(a, plan, m)))
  }

  /** The stored rows of one account. */
  class AccountRows {
    var groups: Option<seq<string>>
    var profile: Option<Profile>
    var quota: Option<Quota>

    function Value(): Account
      reads this
    {
      Account(groups, profile, quota)
    }

    /** What the downgrade leaves of the Free allowance. */
    method CarriedOver(plan: Plan, m: Month) returns (remaining: int)
      ensures remaining == Remaining(Value(), plan, m)
    {
      remaining := plan.included;
      if profile.Some? && quota.Some? {
        var alreadyFree := profile.value.rule == FREE_RULE && quota.value.start.Some? && quota.value.end.Some? && !(quota.value.end.value > m.start);
        if !alreadyFree {
          var used := profile.value.included - quota.value.remaining;
          if used < 0 {
            used := 0;
          }
          remaining := plan.included - used;
        }
      } else if quota.Some? && quota.value.remaining < remaining {
        remaining := quota.value.remaining;
      }
    }

    /** downgradeToFreePlan, run without interruption in month `m`. */
    method DowngradeToFreePlan(plan: Plan, m: Month)
      modifies this
      ensures Value() == Downgraded(old(Value()), plan, m)
    {
      if groups.Some? {
        var g := RewriteGroups(groups.value);
        groups := Some(g);
      }
      var package := Trim(plan.package);
      if package == "" {
        package := "default";
      }
      assert package == PackageOf(plan);
      var settled := IsSettled(plan, package, m);
      if settled {
        return;
      }
      WriteFree(plan, package, m);
    }

    method IsSettled(plan: Plan, package: string, m: Month) returns (settled: bool)
      requires package == PackageOf(plan)
      ensures settled <==> Settled(Value(), plan, m)
    {
      if profile.Some? && profile.value.rule == FREE_RULE && profile.value.package == package && profile.value.included == plan.included {
        if quota.Some? && quota.value.start == Some(m.start) && quota.value.end == Some(m.end) {
          return true;
        }
      }
      return false;
    }

    /** The profile and the quota row of the Free plan. */
    method WriteFree(plan: Plan, package: string, m: Month)
      requires package == PackageOf(plan)
      modifies this`profile, this`quota
      ensures profile == Some(FreeProfile(old(profile), plan))
      ensures quota == Some(FreeQuota(old(Value()), plan, m))
    {
      var remaining := CarriedOver(plan, m);
      profile := Some(Profile(FREE_RULE, package, plan.included, if profile.Some? then profile.value.basePrice else 0.0));
      var state := if quota.Some? then quota.value else Quota(0, false, None, "", "", None, None);
      state := state.(remaining := remaining, arrears := false, arrearsSince := None, throttle := "normal");
      if state.suspend != "suspended" {
        state := state.(suspend := "active");
      }
      quota := Some(state.(start := Some(m.start), end := Some(m.end)));
    }
  }

  // ----- what the downgrade keeps ------------------------------------------------------------

  /** Usage is carried over, floored at zero, exactly when the rows were not already
      settled with more left than the plan includes. */
  lemma UsageIsConserved(a: Account, plan: Plan, m: Month)
    requires a.profile.Some? && a.quota.Some? && !RolledOver(a, m)
    ensures var b := Downgraded(a, plan, m);
            && b.profile.Some? && b.quota.Some?
            && (Used(b.profile.value, b.quota.value) == Max(0, Used(a.profile.value, a.quota.value)) <==>
                !(Settled(a, plan, m) && a.quota.value.remaining > plan.included))
  {
  }

  /** No downgrade leaves more than the Free allowance, with the same single exception. */
  lemma NeverMoreThanFree(a: Account, plan: Plan, m: Month)
    ensures var b := Downgraded(a, plan, m);
            && b.quota.Some?
            && (b.quota.value.remaining <= plan.included <==> !(Settled(a, plan, m) && a.quota.value.remaining > plan.included))
  {
  }

  /** The exception: a settled Free row that was credited above its allowance is left alone. */
  lemma CreditedRowIsLeftAlone()
    ensures var plan, m := Plan("", 5), Month(0, 10);
            var a := Account(None, Some(Profile(FREE_RULE, "default", 5, 0.0)), Some(Quota(9, false, None, "normal", "active", Some(0), Some(10))));
            Downgraded(a, plan, m) == a && a.quota.value.remaining > plan.included
  {
    var plan, m := Plan("", 5), Month(0, 10);
    var a := Account(None, Some(Profile(FREE_RULE, "default", 5, 0.0)), Some(Quota(9, false, None, "normal", "active", Some(0), Some(10))));
    assert Trim("") == "";
    assert Settled(a, plan, m);
  }

  /** A suspension is never lifted, and the operator's base price survives. */
  lemma SuspensionAndPriceSurvive(a: Account, plan: Plan, m: Month)
    ensures var b := Downgraded(a, plan, m);
            && (a.quota.Some? && a.quota.value.suspend == "suspended" ==> b.quota.Some? && b.quota.value.suspend == "suspended")
            && (a.profile.Some? ==> b.profile.Some? && b.profile.value.basePrice == a.profile.value.basePrice)
  {
  }

  /** Repeating the downgrade in the same month, after any change to the groups and any
      consumption, leaves the quota row and the profile untouched. */
  lemma RepeatLeavesQuota(a: Account, plan: Plan, m: Month, groups: Option<seq<string>>, consumed: int)
    ensures var b := Downgraded(a, plan, m);
            b.quota.Some? &&
            var c := b.(groups := groups, quota := Some(b.quota.value.(remaining := b.quota.value.remaining - consumed)));
            Downgraded(c, plan, m).quota == c.quota && Downgraded(c, plan, m).profile == c.profile
  {
    var b := Downgraded(a, plan, m);
    var c := b.(groups := groups, quota := Some(b.quota.value.(remaining := b.quota.value.remaining - consumed)));
    assert Settled(c, plan, m);
  }

  // ----- the quota row in full ---------------------------------------------------------------

  /** What the downgrade leaves, case by case:
      - an account without a quota row gets the whole allowance;
      - so does a Free account whose recorded period is over by the start of the month;
      - a Free account settled for this plan and month keeps what it has;
      - any other account with a profile gets the allowance less what it has used;
      - one without a profile keeps the smaller of the allowance and what it has. */
  lemma LeavesExactly(a: Account, plan: Plan, m: Month)
    ensures var b := Downgraded(a, plan, m);
            var package := if Trim(plan.package) == "" then "default" else Trim(plan.package);
            b.quota.Some? && var left := b.quota.value.remaining;
            && (a.quota.None? ==> left == plan.included)
            && (a.quota.Some? && a.profile.None? ==> left <= plan.included && left <= a.quota.value.remaining && left in {plan.included, a.quota.value.remaining})
            && (a.quota.Some? && a.profile.Some? ==>
                  var p, q := a.profile.value, a.quota.value;
                  var thisMonth := q.start == Some(m.start) && q.end == Some(m.end);
                  var over := q.start.Some? && q.end.Some? && q.end.value <= m.start;
                  if p == Profile("plan:FREE", package, plan.included, p.basePrice) && thisMonth then left == q.remaining
                  else if p.rule == "plan:FREE" && over then left == plan.included
                  else left == if q.remaining > p.included then plan.included else plan.included - (p.included - q.remaining))
  {
  }

  /** The rest of the rows: the Free profile, the month as the period, dunning ended and a
      suspension kept, unless the account is settled, which is left as it is. */
  lemma WritesExactly(a: Account, plan: Plan, m: Month)
    ensures var b := Downgraded(a, plan, m);
            var package := if Trim(plan.package) == "" then "default" else Trim(plan.package);
            var settled := && a.profile.Some? && a.quota.Some? && a.quota.value.start == Some(m.start) && a.quota.value.end == Some(m.end)
                           && a.profile.value == Profile("plan:FREE", package, plan.included, a.profile.value.basePrice);
            && b.profile.Some? && b.quota.Some? && (settled ==> b.profile == a.profile && b.quota == a.quota)
            && b.profile.value == Profile("plan:FREE", package, plan.included, if a.profile.Some? then a.profile.value.basePrice else 0.0)
            && (!settled ==> b.quota.value == Quota(b.quota.value.remaining, false, None, "normal",
                                                    if a.quota.Some? && a.quota.value.suspend == "suspended" then "suspended" else "active",
                                                    Some(m.start), Some(m.end)))
            && (b.groups.Some? <==> a.groups.Some?)
  {
  }

  /** Which groups are left: Free and its segment, and the trimmed form of every group that is
      not, as it stands, one of those the downgrade removes. */
  lemma GroupsExactly(a: Account, plan: Plan, m: Month, g: string)
    requires a.groups.Some?
    ensures var b := Downgraded(a, plan, m);
            b.groups.Some? &&
            (g in b.groups.value <==>
             || g in {"segment:quota:free-3gb", "segment:free"}
             || (g != "" && exists v :: && v in a.groups.value && Trim(v) == g
                                        && v !in DroppedSet()))
  {
    FreeGroupsMembers(a.groups.value, g);
    forall v ensures v in DROPPED <==> v in DroppedSet() { DroppedExactly(v); }
  }

  ghost function DroppedSet(): set<string> {
    {"segment:quota:free-3gb", "segment:quota:plus-20gb", "segment:quota:unlimited-beta",
     "segment:subscription:listed", "segment:subscribed", "segment:monthly", "segment:yearly",
     "segment:subscription:monthly", "segment:subscription:yearly"}
  }

  lemma DroppedExactly(v: string)
    ensures v in DROPPED <==> v in DroppedSet()
  {
  }

  // ----- a whole month ------------------------------------------------------------------------

  datatype Op = Consume(bytes: nat) | Downgrade

  function Apply(a: Account, op: Op, plan: Plan, m: Month): Account {
    match op
    case Consume(n) => if a.quota.Some? then a.(quota := Some(a.quota.value.(remaining := a.quota.value.remaining - n))) else a
    case Downgrade => Downgraded(a, plan, m)
  }

  function Run(a: Account, ops: seq<Op>, plan: Plan, m: Month): Account
    decreases |ops|
  {
    if ops == [] then a else Run(Apply(a, ops[0], plan, m), ops[1..], plan, m)
  }

  function Consumed(ops: seq<Op>): nat {
    if ops == [] then 0 else (if ops[0].Consume? then ops[0].bytes else 0) + Consumed(ops[1..])
  }

  /** Within one month no interleaving of downgrades and consumption gains or loses a byte:
      what is used at the end is what was used before plus what was consumed, and once a
      downgrade has happened no more than the Free allowance minus that is left. */
  lemma {:induction false} UsageOverAMonth(a: Account, ops: seq<Op>, plan: Plan, m: Month)
    requires m.start < m.end && a.profile.Some? && a.quota.Some? && !RolledOver(a, m)
    requires Used(a.profile.value, a.quota.value) >= 0
    ensures var b := Run(a, ops, plan, m);
            && b.profile.Some? && b.quota.Some?
            && Used(b.profile.value, b.quota.value) == Used(a.profile.value, a.quota.value) + Consumed(ops)
            && (Downgrade in ops ==> b.profile.value.included == plan.included)
            && (a.quota.value.suspend == "suspended" ==> b.quota.value.suspend == "suspended")
    decreases |ops|
  {
    if ops != [] {
      var b := Apply(a, ops[0], plan, m);
      assert !RolledOver(b, m) && Used(b.profile.value, b.quota.value) >= 0;
      UsageOverAMonth(b, ops[1..], plan, m);
      if ops[0].Downgrade? {
        IncludedStays(b, ops[1..], plan, m);
      }
    }
  }

  lemma {:induction false} IncludedStays(a: Account, ops: seq<Op>, plan: Plan, m: Month)
    requires a.profile.Some? && a.profile.value.included == plan.included
    ensures var b := Run(a, ops, plan, m); b.profile.Some? && b.profile.value.included == plan.included
    decreases |ops|
  {
    if ops != [] {
      IncludedStays(Apply(a, ops[0], plan, m), ops[1..], plan, m);
    }
  }

  // ----- month after month ----------------------------------------------------------------------

  /** Consumption, or a downgrade in the month with this index. */
  datatype Event = Spend(bytes: nat) | DowngradeIn(month: nat)

  /** Months follow one another without overlap. */
  ghost predicate Calendar(months: seq<Month>) {
    && (forall i :: 0 <= i < |months| ==> months[i].start < months[i].end)
    && (forall i, j :: 0 <= i < j < |months| ==> months[i].end <= months[j].start)
  }

  predicate InOrder(events: seq<Event>, now: nat, n: nat)
    decreases |events|
  {
    if events == [] then now < n
    else if events[0].Spend? then InOrder(events[1..], now, n)
    else now <= events[0].month < n && InOrder(events[1..], events[0].month, n)
  }

  function Take(a: Account, e: Event, plan: Plan, months: seq<Month>): Account
    requires e.DowngradeIn? ==> e.month < |months|
  {
    match e
    case Spend(n) => Apply(a, Consume(n), plan, Month(0, 0))
    case DowngradeIn(k) => Downgraded(a, plan, months[k])
  }

  function Live(a: Account, events: seq<Event>, plan: Plan, months: seq<Month>, now: nat): Account
    requires InOrder(events, now, |months|)
    decreases |events|
  {
    if events == [] then a
    else Live(Take(a, events[0], plan, months), events[1..], plan, months, if events[0].Spend? then now else events[0].month)
  }

  /** What was consumed since the first downgrade of the last month that saw one. `since` counts
      what was consumed so far in month `now`. */
  function Since(events: seq<Event>, now: nat, since: nat): nat
    decreases |events|
  {
    if events == [] then since
    else if events[0].Spend? then Since(events[1..], now, since + events[0].bytes)
    else Since(events[1..], events[0].month, if events[0].month == now then since else 0)
  }

  /** The account carries the Free plan for this month. */
  predicate OnFree(a: Account, plan: Plan, m: Month) {
    && a.profile.Some? && a.quota.Some? && a.quota.value.start == Some(m.start) && a.quota.value.end == Some(m.end)
    && a.profile.value == Profile("plan:FREE", if Trim(plan.package) == "" then "default" else Trim(plan.package), plan.included, a.profile.value.basePrice)
  }

  /** Over any run of downgrades and consumption through the months, what is left of a Free
      account is the allowance less what was consumed since the current month's first
      downgrade: every month starts afresh, and nothing is charged or granted twice. */
  lemma {:induction false} MonthsStartAfresh(a: Account, events: seq<Event>, plan: Plan, months: seq<Month>, now: nat, since: nat)
    requires Calendar(months) && InOrder(events, now, |months|) && now < |months|
    requires OnFree(a, plan, months[now]) && a.quota.value.remaining == plan.included - since
    ensures var b := Live(a, events, plan, months, now);
            b.quota.Some? && b.quota.value.remaining == plan.included - Since(events, now, since)
    decreases |events|
  {
    if events != [] {
      var e := events[0];
      var b := Take(a, e, plan, months);
      if e.Spend? {
        MonthsStartAfresh(b, events[1..], plan, months, now, since + e.bytes);
      } else {
        InOrderStays(events[1..], e.month, |months|);
        LeavesExactly(a, plan, months[e.month]);
        WritesExactly(a, plan, months[e.month]);
        MonthsStartAfresh(b, events[1..], plan, months, e.month, if e.month == now then since else 0);
      }
    }
  }

  lemma {:induction false} InOrderStays(events: seq<Event>, now: nat, n: nat)
    requires InOrder(events, now, n)
    ensures now < n
    decreases |events|
  {
    if events != [] { InOrderStays(events[1..], if events[0].Spend? then now else events[0].month, n); }
  }

  /** The same from a Free row whose period is over, or from no row at all, once a downgrade
      has come in month `now`. */
  lemma RolledRowsStartAfresh(a: Account, events: seq<Event>, plan: Plan, months: seq<Month>, now: nat)
    requires Calendar(months) && InOrder(events, now, |months|) && now < |months|
    requires a.quota.None? || (a.profile.Some? && a.profile.value.rule == "plan:FREE" && a.quota.value.start.Some? && a.quota.value.end.Some?
                               && a.quota.value.end.value <= months[now].start)
    ensures var b := Live(Downgraded(a, plan, months[now]), events, plan, months, now);
            b.quota.Some? && b.quota.value.remaining == plan.included - Since(events, now, 0)
  {
    LeavesExactly(a, plan, months[now]);
    WritesExactly(a, plan, months[now]);
    MonthsStartAfresh(Downgraded(a, plan, months[now]), events, plan, months, now, 0);
  }
}
