/**
 What a listing of regional pools says about the status reports behind it
 (regionalPoolsForUser in api/agent_routes.go, registeredRegionalPools in
 api/regional_pools.go), in terms of the reports themselves: which pools there are,
 when one is open, how many members it counts and why it is closed.
 */
module PoolListing {
  import opened Finance
  import opened Text
  import opened NodeScope
  import opened NodeAccess
  import opened RegionalPools

  /** The pools one account is shown, or all of them. */
  datatype Listing = ForUser(user: User) | Inventory

  datatype Place = Place(region: string, entry: string, tier: string, team: string)

  /** The host of a report. The inventory falls back to the agent id where there is no entry point. */
  ghost function HostOf(v: Listing, s: Snapshot): string {
    if v.Inventory? && s.entryPoint == "" then s.idHost else s.entry
  }

  /** The report is one of a proxy that has a region and a host and, for an account, that
      discovery lets it see. */
  ghost predicate Shown(v: Listing, s: Snapshot, now: int) {
    && s.updatedAt.Some? && s.role in {"", "agent-proxy"} && Trim(s.region) != "" && HostOf(v, s) != ""
    && (v.ForUser? ==> Discovered(v.user, s.node, now))
  }

  ghost function PlaceOf(v: Listing, s: Snapshot): Place {
    match s.node.scope
    case Some(scope) => Place(Lower(Trim(s.region)), HostOf(v, s), scope.resource, Trim(scope.team))
    case None => Place(Lower(Trim(s.region)), HostOf(v, s), "", "")
  }

  ghost predicate At(v: Listing, s: Snapshot, now: int, at: Place) {
    Shown(v, s, now) && PlaceOf(v, s) == at
  }

  /** Reported no more than five minutes ago, and not in the future. */
  ghost predicate Fresh(s: Snapshot, now: int) {
    s.updatedAt.Some? && 0 <= now - s.updatedAt.value <= 300
  }

  ghost predicate Serving(s: Snapshot, now: int) {
    s.open != Some(false) && Fresh(s, now) && s.healthy && s.running
  }

  ghost function MemberID(s: Snapshot): string {
    if Trim(s.pool) == "" then s.agentID else Trim(s.pool)
  }

  ghost predicate Because(s: Snapshot, now: int, x: Reason) {
    match x
    case ExplicitDisabled => s.open == Some(false)
    case Stale => !Fresh(s, now)
    case Unhealthy => !s.healthy
    case NotRunning => !s.running
  }

  ghost function PlaceKey(at: Place): string {
    at.region + "\0" + at.entry + "\0" + at.tier + "\0" + at.team
  }

  ghost predicate Separable(at: Place) {
    '\0' !in at.entry && '\0' !in at.tier && '\0' !in at.team
  }

  ghost function RowsOf(v: Listing, snapshots: seq<Snapshot>, now: int): seq<Row> {
    match v
    case ForUser(u) => UserRows(u, snapshots, now)
    case Inventory => AllRows(snapshots, now)
  }

  ghost function RowsFor(v: Listing, s: Snapshot, now: int): seq<Row> {
    match v
    case ForUser(u) => UserRow(u, s, now)
    case Inventory => RegisteredRow(s, now)
  }

  // ----- rows and reports ------------------------------------------------------------------------

  lemma {:induction false} InRows(f: Snapshot -> seq<Row>, snapshots: seq<Snapshot>, r: Row)
    ensures r in Rows(f, snapshots) <==> exists i :: 0 <= i < |snapshots| && r in f(snapshots[i])
  {
    if snapshots != [] {
      var n := |snapshots| - 1;
      InRows(f, snapshots[..n], r);
      assert forall i :: 0 <= i < n ==> snapshots[..n][i] == snapshots[i];
    }
  }

  lemma Members(v: Listing, snapshots: seq<Snapshot>, now: int, r: Row)
    ensures r in RowsOf(v, snapshots, now) <==> exists i :: 0 <= i < |snapshots| && r in RowsFor(v, snapshots[i], now)
  {
    match v {
      case ForUser(u) =>
        RowsAre(u, snapshots, now);
        InRows(RowOfUser(u, now), snapshots, r);
      case Inventory =>
        RowsAre(Guest(""), snapshots, now);
        InRows(RowOfAll(now), snapshots, r);
    }
  }

  /** The row says of the report what is asked of it. */
  ghost predicate Tells(v: Listing, r: Row, s: Snapshot, now: int) {
    && Place(r.region, r.entry, r.tier, r.team) == PlaceOf(v, s) && Clean(r) && r.id == MemberID(s)
    && (Usable(r) <==> Serving(s, now)) && (r.private <==> v.ForUser? && PlaceOf(v, s).tier == "custom")
    && forall x :: x in Reasons(r) <==> Because(s, now, x)
  }

  lemma RowTells(s: Snapshot, entry: string, private: bool, now: int)
    requires s.updatedAt.Some?
    ensures var r := RowOf(s, entry, private, now);
            && r.region == Lower(Trim(s.region)) && r.entry == entry && r.private == private && r.id == MemberID(s)
            && r.tier == (if s.node.scope.Some? then s.node.scope.value.resource else "")
            && r.team == (if s.node.scope.Some? then Trim(s.node.scope.value.team) else "")
            && (Usable(r) <==> Serving(s, now)) && forall x :: x in Reasons(r) <==> Because(s, now, x)
  {
  }

  lemma CustomHasList(u: User, s: Snapshot, now: int)
    requires Discovered(u, s.node, now) && s.node.scope.Some? && s.node.scope.value.resource == "custom"
    ensures s.node.emails != []
  {
  }

  /** A report gives one row that tells of it, or none, exactly by whether it is shown. */
  lemma RowsForExactly(v: Listing, s: Snapshot, now: int)
    requires WellFormed(s)
    ensures if Shown(v, s, now) then |RowsFor(v, s, now)| == 1 && Tells(v, RowsFor(v, s, now)[0], s, now) else RowsFor(v, s, now) == []
  {
    assert Lowered(s.region) == "" <==> Trim(s.region) == "";
    if Shown(v, s, now) {
      match v {
        case ForUser(u) =>
          RowTells(s, s.entry, Class(s).0 == "custom" && |s.node.emails| > 0, now);
          if s.node.scope.Some? && s.node.scope.value.resource == "custom" { CustomHasList(u, s, now); }
        case Inventory => RowTells(s, PublicEntry(s), false, now);
      }
    }
  }

  ghost predicate AllWellFormed(snapshots: seq<Snapshot>) {
    forall i :: 0 <= i < |snapshots| ==> WellFormed(snapshots[i])
  }

  /** The report behind a row of a place. */
  lemma RowToReport(v: Listing, snapshots: seq<Snapshot>, now: int, at: Place, j: int) returns (i: nat)
    requires AllWellFormed(snapshots) && Separable(at) && In(RowsOf(v, snapshots, now), j, PlaceKey(at))
    ensures i < |snapshots| && At(v, snapshots[i], now, at) && Tells(v, RowsOf(v, snapshots, now)[j], snapshots[i], now)
  {
    var rows := RowsOf(v, snapshots, now);
    var r := rows[j];
    Members(v, snapshots, now, r);
    i :| 0 <= i < |snapshots| && r in RowsFor(v, snapshots[i], now);
    RowsForExactly(v, snapshots[i], now);
    SamePlace(r, at);
  }

  /** And the row of a report. */
  lemma ReportToRow(v: Listing, snapshots: seq<Snapshot>, now: int, at: Place, i: nat) returns (j: int)
    requires AllWellFormed(snapshots) && Separable(at) && i < |snapshots| && At(v, snapshots[i], now, at)
    ensures In(RowsOf(v, snapshots, now), j, PlaceKey(at)) && Tells(v, RowsOf(v, snapshots, now)[j], snapshots[i], now)
  {
    var rows := RowsOf(v, snapshots, now);
    RowsForExactly(v, snapshots[i], now);
    var r := RowsFor(v, snapshots[i], now)[0];
    Members(v, snapshots, now, r);
    j :| 0 <= j < |rows| && rows[j] == r;
    SamePlace(r, at);
  }

  lemma SamePlace(r: Row, at: Place)
    requires Clean(r) && Separable(at)
    ensures Key(r) == PlaceKey(at) <==> Place(r.region, r.entry, r.tier, r.team) == at
  {
    KeyIsExact(r, r.(region := at.region, entry := at.entry, tier := at.tier, team := at.team));
  }

  // ----- the listing -----------------------------------------------------------------------------

  /** There is a pool for a place exactly when some report is shown there. */
  lemma PoolsExactly(v: Listing, snapshots: seq<Snapshot>, now: int, groups: map<string, Aggregate>, at: Place)
    requires AllWellFormed(snapshots) && Separable(at) && Partition(groups, RowsOf(v, snapshots, now))
    ensures PlaceKey(at) in groups <==> exists i :: 0 <= i < |snapshots| && At(v, snapshots[i], now, at)
  {
    if PlaceKey(at) in groups {
      var j :| In(RowsOf(v, snapshots, now), j, PlaceKey(at));
      var i := RowToReport(v, snapshots, now, at, j);
    }
    if i :| 0 <= i < |snapshots| && At(v, snapshots[i], now, at) {
      var j := ReportToRow(v, snapshots, now, at, i);
    }
  }

  /** It carries its place, is private exactly for an account's custom pool, is open exactly when
      some report there is serving, and its ids are the reports' pool names, or agent ids where
      they have none. */
  lemma AggregateExactly(v: Listing, snapshots: seq<Snapshot>, now: int, groups: map<string, Aggregate>, at: Place)
    requires AllWellFormed(snapshots) && Separable(at) && Partition(groups, RowsOf(v, snapshots, now)) && PlaceKey(at) in groups
    ensures var a := groups[PlaceKey(at)];
            && a.code == at.region && a.entry == at.entry && a.tier == at.tier && a.team == at.team
            && (a.private <==> v.ForUser? && at.tier == "custom")
            && (a.open <==> exists i :: 0 <= i < |snapshots| && At(v, snapshots[i], now, at) && Serving(snapshots[i], now))
  {
    var rows, key := RowsOf(v, snapshots, now), PlaceKey(at);
    var a := groups[key];
    var k :| In(rows, k, key);
    var m := RowToReport(v, snapshots, now, at, k);
    assert Identifies(a, rows[k]);
    if a.open {
      var j :| In(rows, j, key) && Usable(rows[j]);
      var i := RowToReport(v, snapshots, now, at, j);
      assert Serving(snapshots[i], now);
    }
    if i :| 0 <= i < |snapshots| && At(v, snapshots[i], now, at) && Serving(snapshots[i], now) {
      var j := ReportToRow(v, snapshots, now, at, i);
      assert Usable(rows[j]);
    }
  }

  ghost function IDsAt(v: Listing, snapshots: seq<Snapshot>, now: int, at: Place): set<string> {
    set i | 0 <= i < |snapshots| && At(v, snapshots[i], now, at) :: MemberID(snapshots[i])
  }

  lemma IDsExactly(v: Listing, snapshots: seq<Snapshot>, now: int, groups: map<string, Aggregate>, at: Place)
    requires AllWellFormed(snapshots) && Separable(at) && Partition(groups, RowsOf(v, snapshots, now)) && PlaceKey(at) in groups
    ensures groups[PlaceKey(at)].ids == IDsAt(v, snapshots, now, at)
  {
    var rows, key := RowsOf(v, snapshots, now), PlaceKey(at);
    forall id ensures id in groups[key].ids <==> id in IDsAt(v, snapshots, now, at) {
      if id in groups[key].ids {
        var j :| In(rows, j, key) && rows[j].id == id;
        var i := RowToReport(v, snapshots, now, at, j);
      }
      if id in IDsAt(v, snapshots, now, at) {
        var i :| 0 <= i < |snapshots| && At(v, snapshots[i], now, at) && MemberID(snapshots[i]) == id;
        var j := ReportToRow(v, snapshots, now, at, i);
        assert rows[j].id == id;
      }
    }
  }

  lemma ReasonsExactly(v: Listing, snapshots: seq<Snapshot>, now: int, groups: map<string, Aggregate>, at: Place, x: Reason)
    requires AllWellFormed(snapshots) && Separable(at) && Partition(groups, RowsOf(v, snapshots, now)) && PlaceKey(at) in groups
    ensures x in groups[PlaceKey(at)].reasons <==> exists i :: 0 <= i < |snapshots| && At(v, snapshots[i], now, at) && Because(snapshots[i], now, x)
  {
    var rows, key := RowsOf(v, snapshots, now), PlaceKey(at);
    if x in groups[key].reasons {
      var j :| In(rows, j, key) && x in Reasons(rows[j]);
      var i := RowToReport(v, snapshots, now, at, j);
      assert Because(snapshots[i], now, x);
    }
    if i :| 0 <= i < |snapshots| && At(v, snapshots[i], now, at) && Because(snapshots[i], now, x) {
      var j := ReportToRow(v, snapshots, now, at, i);
      assert x in Reasons(rows[j]);
    }
  }

  /** The pool as it is shown: open exactly when some report there is serving, counting the
      distinct members, and, if it is closed, with exactly the reasons that hold of some report
      there, explicit closure first, then staleness, health and the proxy itself. */
  lemma FinishedExactly(v: Listing, snapshots: seq<Snapshot>, now: int, groups: map<string, Aggregate>, at: Place, p: Pool)
    requires AllWellFormed(snapshots) && Separable(at) && Partition(groups, RowsOf(v, snapshots, now)) && PlaceKey(at) in groups
    requires Finished(groups[PlaceKey(at)], p)
    ensures Place(p.code, p.entry, p.tier, p.team) == at && (p.private <==> v.ForUser? && at.tier == "custom")
    ensures p.open <==> exists i :: 0 <= i < |snapshots| && At(v, snapshots[i], now, at) && Serving(snapshots[i], now)
    ensures p.count == |IDsAt(v, snapshots, now, at)|
    ensures forall x :: x in p.closedReasons <==>
                        !p.open && exists i :: 0 <= i < |snapshots| && At(v, snapshots[i], now, at) && Because(snapshots[i], now, x)
    ensures forall i, j :: 0 <= i < j < |p.closedReasons| ==> Precedes(p.closedReasons[i], p.closedReasons[j])
  {
    AggregateExactly(v, snapshots, now, groups, at);
    IDsExactly(v, snapshots, now, groups, at);
    forall x ensures x in groups[PlaceKey(at)].reasons <==>
                     exists i :: 0 <= i < |snapshots| && At(v, snapshots[i], now, at) && Because(snapshots[i], now, x) {
      ReasonsExactly(v, snapshots, now, groups, at, x);
    }
    forall x, y | Position(x) < Position(y) ensures Precedes(x, y) {}
  }

  ghost predicate Precedes(x: Reason, y: Reason) {
    match x
    case ExplicitDisabled => y != ExplicitDisabled
    case Stale => y == Unhealthy || y == NotRunning
    case Unhealthy => y == NotRunning
    case NotRunning => false
  }
}
