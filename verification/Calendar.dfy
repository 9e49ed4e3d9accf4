/**
 Calendar months in UTC, as naturalMonthPeriod uses them (api/entitlements.go).
 Times are seconds since the start of 1970 and months are counted from there.
 */
module Calendar {
  const DAY := 86400

  predicate IsLeap(year: int) {
    year % 4 == 0 && (year % 100 != 0 || year % 400 == 0)
  }

  function DaysIn(month: nat): (d: int)
    ensures 28 <= d <= 31
  {
    var m := month % 12;
    if m == 1 then (if IsLeap(1970 + month / 12) then 29 else 28)
    else if m == 3 || m == 5 || m == 8 || m == 10 then 30
    else 31
  }

  function MonthStart(month: nat): (t: int)
    ensures t >= 28 * DAY * month
  {
    if month == 0 then 0 else MonthStart(month - 1) + DaysIn(month - 1) * DAY
  }

  function MonthFrom(month: nat, t: int): (r: nat)
    requires MonthStart(month) <= t
    ensures month <= r && MonthStart(r) <= t < MonthStart(r + 1)
    decreases t - MonthStart(month)
  {
    if t < MonthStart(month + 1) then month else MonthFrom(month + 1, t)
  }

  /** The month a time falls in. */
  function MonthOf(t: nat): (r: nat)
    ensures MonthStart(r) <= t < MonthStart(r + 1)
  {
    MonthFrom(0, t)
  }

  lemma {:induction false} MonthsIncrease(a: nat, b: nat)
    requires a < b
    ensures MonthStart(a) < MonthStart(b)
  {
    if a + 1 < b { MonthsIncrease(a, b - 1); }
  }

  /** A time determines its month, and later times never fall in earlier months. */
  lemma MonthIsUnique(t: nat, month: nat)
    requires MonthStart(month) <= t < MonthStart(month + 1)
    ensures MonthOf(t) == month
  {
    var r := MonthOf(t);
    if r + 1 < month { MonthsIncrease(r + 1, month); }
    if month + 1 < r { MonthsIncrease(month + 1, r); }
  }

  lemma MonthsFollowTime(s: nat, t: nat)
    requires s <= t
    ensures MonthOf(s) <= MonthOf(t)
  {
    if MonthOf(t) + 1 < MonthOf(s) { MonthsIncrease(MonthOf(t) + 1, MonthOf(s)); }
  }

  // ----- the calendar in closed form ------------------------------------------------------------

  /** Days before the month in a common year, January first. */
  const BEFORE := [0, 31, 59, 90, 120, 151, 181, 212, 243, 273, 304, 334, 365]

  /** Leap days from the start of 1970 to the start of year 1970 + y, by the Gregorian rule. */
  function LeapDays(y: nat): int {
    (y + 1969) / 4 - (y + 1969) / 100 + (y + 1969) / 400 - 477
  }

  lemma LeapDaysStep(y: nat)
    ensures LeapDays(y + 1) == LeapDays(y) + if IsLeap(1970 + y) then 1 else 0
  {
    StepBy(y + 1969, 4);
    StepBy(y + 1969, 100);
    StepBy(y + 1969, 400);
    assert (y + 1970) % 400 == 0 ==> (y + 1970) % 100 == 0;
    assert (y + 1970) % 100 == 0 ==> (y + 1970) % 4 == 0;
  }

  lemma StepBy(n: nat, d: nat)
    requires d > 0
    ensures (n + 1) / d == n / d + if (n + 1) % d == 0 then 1 else 0
  {
    var q, r := n / d, n % d;
    assert n == d * q + r;
    if r == d - 1 {
      assert n + 1 == d * (q + 1);
      Quotient(n + 1, d, q + 1, 0);
    } else {
      Quotient(n + 1, d, q, r + 1);
    }
  }

  lemma Quotient(n: nat, d: nat, q: nat, r: nat)
    requires n == d * q + r && r < d
    ensures n / d == q && n % d == r
  {
    var k := n / d - q;
    assert d * k == r - n % d;
    assert k >= 1 ==> d * k >= d;
    assert k <= -1 ==> d * k + d <= 0;
  }

  /** The leap years from 1970 on, before year 1970 + y. */
  function Leaps(y: nat): nat {
    if y == 0 then 0 else Leaps(y - 1) + if IsLeap(1970 + y - 1) then 1 else 0
  }

  lemma {:induction false} LeapsExactly(y: nat)
    ensures Leaps(y) == LeapDays(y)
  {
    if y > 0 {
      LeapsExactly(y - 1);
      LeapDaysStep(y - 1);
    }
  }

  lemma {:induction false} MonthStartCounts(y: nat, m: nat)
    requires m < 12
    ensures MonthStart(12 * y + m) == DAY * (365 * y + Leaps(y) + BEFORE[m] + if m >= 2 && IsLeap(1970 + y) then 1 else 0)
    decreases y, m
  {
    if m > 0 {
      MonthStartCounts(y, m - 1);
      DaysExactly(y, m - 1);
      NextStart(12 * y + m - 1, m - 1, 365 * y + Leaps(y), IsLeap(1970 + y));
    } else if y > 0 {
      MonthStartCounts(y - 1, 11);
      DaysExactly(y - 1, 11);
      NextStart(12 * y - 1, 11, 365 * (y - 1) + Leaps(y - 1), IsLeap(1970 + y - 1));
    }
  }

  /** Every month of every year starts where the Gregorian calendar puts it. */
  lemma MonthStartExactly(y: nat, m: nat)
    requires m < 12
    ensures MonthStart(12 * y + m) == DAY * (365 * y + LeapDays(y) + BEFORE[m] + if m >= 2 && IsLeap(1970 + y) then 1 else 0)
  {
    MonthStartCounts(y, m);
    LeapsExactly(y);
  }

  lemma NextStart(month: nat, m: nat, days: int, leap: bool)
    requires m < 12
    requires MonthStart(month) == DAY * (days + BEFORE[m] + if m >= 2 && leap then 1 else 0)
    requires DaysIn(month) == BEFORE[m + 1] - BEFORE[m] + if m == 1 && leap then 1 else 0
    ensures MonthStart(month + 1) == DAY * (days + BEFORE[m + 1] + if m >= 1 && leap then 1 else 0)
  {
  }

  lemma DaysExactly(y: nat, m: nat)
    requires m < 12
    ensures DaysIn(12 * y + m) == BEFORE[m + 1] - BEFORE[m] + if m == 1 && IsLeap(1970 + y) then 1 else 0
  {
    Quotient(12 * y + m, 12, y, m);
  }
}
