/**
 The bounded sweep that reconciles every account (ReconcileSubscriptionAccessBatch
 in api/subscription_validity.go): keyset pages of at most 100 users, at most
 `maxUsers` a call, and a cursor that is the last user reconciled.
 */
module Sweep {
  import opened Text

  const PAGE := 100
  const MAX_PAGE := 500
  const MAX_USERS := 500

  /** User ids as the store lists them: distinct, non-empty, ascending. */
  predicate Ascending(ids: seq<string>) {
    ids != [] ==> ids[0] != "" && (|ids| > 1 ==> Less(ids[0], ids[1])) && Ascending(ids[1..])
  }

  lemma {:induction false} AscendingPair(ids: seq<string>, i: nat, j: nat)
    requires Ascending(ids) && i <= j < |ids|
    ensures ids[i] != "" && (i < j ==> Less(ids[i], ids[j]))
  {
    if i > 0 {
      AscendingPair(ids[1..], i - 1, j - 1);
    } else if j > 0 {
      AscendingPair(ids[1..], 0, j - 1);
      if j > 1 { LessTransitive(ids[0], ids[1], ids[j]); }
    }
  }

  /** How many ids a keyset page after `cursor` leaves behind. */
  function Position(ids: seq<string>, cursor: string): (p: nat)
    ensures p <= |ids|
  {
    if ids == [] || Less(cursor, ids[0]) then 0 else 1 + Position(ids[1..], cursor)
  }

  function Min(a: int, b: int): int {
    if a < b then a else b
  }

  lemma {:induction false} PositionOfMember(ids: seq<string>, k: nat)
    requires Ascending(ids) && k < |ids|
    ensures Position(ids, ids[k]) == k + 1
  {
    if k == 0 {
      LessTotal(ids[0], ids[0]);
    } else {
      AscendingPair(ids, 0, k);
      LessTotal(ids[0], ids[k]);
      assert ids[1..][k - 1] == ids[k];
      PositionOfMember(ids[1..], k - 1);
    }
  }

  lemma PositionOfStart(ids: seq<string>)
    requires Ascending(ids)
    ensures Position(ids, "") == 0
  {
    if ids != [] { LessTotal("", ids[0]); }
  }

  lemma {:induction false} PositionSplits(ids: seq<string>, cursor: string, i: nat)
    requires Ascending(ids) && i < |ids|
    ensures Less(cursor, ids[i]) <==> Position(ids, cursor) <= i
  {
    if Less(cursor, ids[0]) {
      if i > 0 {
        AscendingPair(ids, 0, i);
        LessTransitive(cursor, ids[0], ids[i]);
      }
    } else if i > 0 {
      PositionSplits(ids[1..], cursor, i - 1);
      assert ids[1..][i - 1] == ids[i];
    }
  }

  /** ListUsersPage of the memory store over the sorted ids; an error for a limit out of range. */
  method ListUsersPage(ids: seq<string>, afterID: string, limit: int) returns (ok: bool, page: seq<string>)
    requires Ascending(ids)
    ensures ok <==> 1 <= limit <= MAX_PAGE
    ensures page == if ok then ids[Position(ids, afterID)..Min(Position(ids, afterID) + limit, |ids|)] else []
  {
    if limit <= 0 || limit > MAX_PAGE {
      return false, [];
    }
    ok := true;
    var after: seq<string> := [];
    ghost var p := Position(ids, afterID);
    for i := 0 to |ids|
      invariant after == if i <= p then [] else ids[p..i]
    {
      PositionSplits(ids, afterID, i);
      if Less(afterID, ids[i]) {
        after := after + [ids[i]];
      }
    }
    assert after == ids[p..];
    page := if |after| > limit then after[..limit] else after;
  }

  /** What one call without errors visits, and where it leaves the cursor. */
  function Visited(ids: seq<string>, cursor: string, max: nat): seq<string> {
    ids[Position(ids, cursor)..Min(Position(ids, cursor) + max, |ids|)]
  }

  function NextCursor(ids: seq<string>, cursor: string, max: nat): string {
    var p := Position(ids, cursor);
    if p + max <= |ids| && max > 0 then ids[p + max - 1] else ""
  }

  /** The inner loop: reconcile one page, stopping at the first error. */
  method ReconcilePage(users: seq<string>, failing: set<string>, afterID: string)
    returns (cursor: string, done: seq<string>, failed: bool)
    ensures |done| <= |users| && done == users[..|done|]
    ensures cursor == if done == [] then afterID else users[|done| - 1]
    ensures forall id :: id in done ==> id !in failing
    ensures failed <==> |done| < |users|
    ensures failed ==> users[|done|] in failing
  {
    cursor, done, failed := afterID, [], false;
    for i := 0 to |users|
      invariant done == users[..i]
      invariant cursor == if i == 0 then afterID else users[i - 1]
      invariant forall id :: id in done ==> id !in failing
    {
      if users[i] in failing {
        return cursor, done, true;
      }
      cursor, done := users[i], done + [users[i]];
    }
  }

  /** Where the cursor stands after part of a page. */
  lemma PageAdvances(ids: seq<string>, afterID: string, limit: nat, done: nat)
    requires Ascending(ids) && done <= |ids[Position(ids, afterID)..Min(Position(ids, afterID) + limit, |ids|)]|
    ensures var p := Position(ids, afterID); var page := ids[p..Min(p + limit, |ids|)];
            Position(ids, if done == 0 then afterID else page[done - 1]) == p + done
  {
    if done > 0 { PositionOfMember(ids, Position(ids, afterID) + done - 1); }
  }

  /** More users may follow, the end was reached, or an error stopped the sweep. */
  datatype Turn = More | Wrap | Stop

  /** `done` is the stretch of users after `afterID` that was reconciled, at most `limit`. */
  ghost predicate Stretch(ids: seq<string>, failing: set<string>, afterID: string, limit: nat, done: seq<string>) {
    var p := Position(ids, afterID);
    p + |done| <= |ids| && |done| <= limit && done == ids[p..p + |done|] && forall id :: id in done ==> id !in failing
  }

  /** How it ended, at position `q`. */
  ghost predicate Ending(ids: seq<string>, failing: set<string>, brokenAfter: set<string>, q: nat, cursor: string, turn: Turn)
    requires q <= |ids|
  {
    match turn
    case More => q > 0 && cursor == ids[q - 1] && Position(ids, cursor) == q
    case Wrap => cursor == "" && q == |ids|
    case Stop => Position(ids, cursor) == q && (cursor in brokenAfter || (q < |ids| && ids[q] in failing))
  }

  /** One turn of the outer loop. */
  method ReconcileTurn(ids: seq<string>, failing: set<string>, brokenAfter: set<string>, afterID: string, limit: nat)
    returns (cursor: string, done: seq<string>, turn: Turn)
    requires Ascending(ids) && 1 <= limit <= MAX_PAGE
    ensures Stretch(ids, failing, afterID, limit, done)
    ensures Ending(ids, failing, brokenAfter, Position(ids, afterID) + |done|, cursor, turn)
    ensures turn == More ==> |done| == limit
    ensures turn == Wrap ==> |done| < limit
  {
    if afterID in brokenAfter {
      return afterID, [], Stop;
    }
    var _, users := ListUsersPage(ids, afterID, limit);
    if |users| == 0 {
      return "", [], Wrap;
    }
    var failed;
    cursor, done, failed := ReconcilePage(users, failing, afterID);
    PageAdvances(ids, afterID, limit, |done|);
    if failed {
      return cursor, done, Stop;
    }
    if |users| < limit {
      return "", done, Wrap;
    }
    turn := More;
  }

  lemma Join(ids: seq<string>, failing: set<string>, afterID: string, limit: nat, done: seq<string>, cursor: string, more: nat, next: seq<string>)
    requires Stretch(ids, failing, afterID, limit, done) && Position(ids, cursor) == Position(ids, afterID) + |done|
    requires Stretch(ids, failing, cursor, more, next) && |done| + more <= limit
    ensures Stretch(ids, failing, afterID, limit, done + next)
  {
    var p := Position(ids, afterID);
    var q := p + |done|;
    assert ids[p..q] + ids[q..q + |next|] == ids[p..q + |next|];
  }

  /** The outer loop. */
  method ReconcilePages(ids: seq<string>, failing: set<string>, brokenAfter: set<string>, afterID: string, maxUsers: nat)
    returns (cursor: string, visited: seq<string>, turn: Turn)
    requires Ascending(ids) && maxUsers > 0
    ensures Stretch(ids, failing, afterID, maxUsers, visited)
    ensures Ending(ids, failing, brokenAfter, Position(ids, afterID) + |visited|, cursor, turn)
    ensures turn == More ==> |visited| == maxUsers
    ensures turn == Wrap ==> |visited| < maxUsers
  {
    visited, cursor, turn := [], afterID, More;
    while |visited| < maxUsers
      invariant Stretch(ids, failing, afterID, maxUsers, visited)
      invariant Position(ids, cursor) == Position(ids, afterID) + |visited|
      invariant visited != [] ==> Ending(ids, failing, brokenAfter, Position(ids, afterID) + |visited|, cursor, More)
      decreases maxUsers - |visited|
    {
      var limit := Min(PAGE, maxUsers - |visited|);
      var next, done;
      next, done, turn := ReconcileTurn(ids, failing, brokenAfter, cursor, limit);
      Join(ids, failing, afterID, maxUsers, visited, cursor, limit, done);
      visited, cursor := visited + done, next;
      if turn != More {
        return;
      }
    }
    turn := More;
  }

  /** ReconcileSubscriptionAccessBatch. `failing` are the users whose reconciliation errs
      and `brokenAfter` the cursors after which reading a page errs. `visited` are the
      users reconciled, in order; `failed` reports an error, and then the cursor points
      just before the first user not reconciled. */
  method ReconcileBatch(ids: seq<string>, failing: set<string>, brokenAfter: set<string>, afterID: string, maxUsers: int)
    returns (cursor: string, visited: seq<string>, failed: bool)
    requires Ascending(ids)
    ensures !failed ==> 0 < maxUsers <= MAX_USERS && visited == Visited(ids, afterID, maxUsers) && cursor == NextCursor(ids, afterID, maxUsers)
    ensures maxUsers <= 0 || maxUsers > MAX_USERS ==> failed && visited == [] && cursor == afterID
    ensures failed && 0 < maxUsers ==>
              && Stretch(ids, failing, afterID, maxUsers, visited)
              && Position(ids, cursor) == Position(ids, afterID) + |visited|
    ensures failed && 0 < maxUsers <= MAX_USERS ==>
              var p := Position(ids, cursor); cursor in brokenAfter || (p < |ids| && ids[p] in failing)
    ensures forall id :: id in visited ==> id !in failing
  {
    if maxUsers <= 0 || maxUsers > MAX_USERS {
      return afterID, [], true;
    }
    var turn;
    cursor, visited, turn := ReconcilePages(ids, failing, brokenAfter, afterID, maxUsers);
    failed := turn == Stop;
  }

  // ----- repeated calls ------------------------------------------------------------------------

  /** The cursor after `calls` error-free calls, and everything they visited. */
  function CursorAfter(ids: seq<string>, max: nat, calls: nat): string {
    if calls == 0 then "" else NextCursor(ids, CursorAfter(ids, max, calls - 1), max)
  }

  function VisitedBy(ids: seq<string>, max: nat, calls: nat): seq<string> {
    if calls == 0 then [] else VisitedBy(ids, max, calls - 1) + Visited(ids, CursorAfter(ids, max, calls - 1), max)
  }

  lemma {:induction false} SweepAdvances(ids: seq<string>, max: nat, calls: nat)
    requires Ascending(ids) && max > 0 && calls * max <= |ids|
    ensures Position(ids, CursorAfter(ids, max, calls)) == calls * max
    ensures VisitedBy(ids, max, calls) == ids[..calls * max]
    ensures calls > 0 ==> CursorAfter(ids, max, calls) != ""
  {
    if calls == 0 {
      PositionOfStart(ids);
    } else {
      OneMore(calls, max);
      SweepAdvances(ids, max, calls - 1);
      FullCall(ids, max, calls, (calls - 1) * max);
    }
  }

  lemma OneMore(calls: nat, max: nat)
    requires calls > 0
    ensures calls * max == (calls - 1) * max + max && (calls - 1) * max >= 0
  {
  }

  lemma FullCall(ids: seq<string>, max: nat, calls: nat, p: nat)
    requires Ascending(ids) && max > 0 && calls > 0 && p + max <= |ids|
    requires Position(ids, CursorAfter(ids, max, calls - 1)) == p && VisitedBy(ids, max, calls - 1) == ids[..p]
    ensures Position(ids, CursorAfter(ids, max, calls)) == p + max && VisitedBy(ids, max, calls) == ids[..p + max]
    ensures CursorAfter(ids, max, calls) != ""
  {
    PositionOfMember(ids, p + max - 1);
    AscendingPair(ids, p + max - 1, p + max - 1);
    assert ids[..p + max] == ids[..p] + ids[p..p + max];
  }

  /** A pass from the empty cursor visits each user exactly once, in ascending order, and
      returns to the empty cursor after exactly floor(n / max) + 1 calls. */
  lemma SweepCoversEveryone(ids: seq<string>, max: nat)
    requires Ascending(ids) && max > 0
    ensures VisitedBy(ids, max, |ids| / max + 1) == ids
    ensures CursorAfter(ids, max, |ids| / max + 1) == ""
    ensures forall calls: nat :: 0 < calls <= |ids| / max ==> CursorAfter(ids, max, calls) != ""
  {
    var full := |ids| / max;
    Quotient(|ids|, max);
    SweepAdvances(ids, max, full);
    LastCall(ids, max, full);
    forall calls: nat | 0 < calls <= full ensures CursorAfter(ids, max, calls) != "" {
      Multiples(calls, full, max);
      SweepAdvances(ids, max, calls);
    }
  }

  lemma LastCall(ids: seq<string>, max: nat, calls: nat)
    requires Position(ids, CursorAfter(ids, max, calls)) == calls * max <= |ids| < calls * max + max
    requires VisitedBy(ids, max, calls) == ids[..calls * max]
    ensures VisitedBy(ids, max, calls + 1) == ids && CursorAfter(ids, max, calls + 1) == ""
  {
    assert ids[..calls * max] + ids[calls * max..] == ids;
  }

  lemma Quotient(n: nat, m: nat)
    requires m > 0
    ensures n / m * m <= n < n / m * m + m
  {
  }

  lemma Multiples(a: nat, b: nat, m: nat)
    requires a <= b
    ensures a * m <= b * m
  {
  }
}
