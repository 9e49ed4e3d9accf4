/**
 Grouping node reports into regional pools: regionalPoolsForUser in
 api/agent_routes.go and registeredRegionalPools in api/regional_pools.go. Both
 loops mutate a map of aggregates and differ only in which reports they keep.
 */
module RegionalPools {
  import opened Finance
  import opened Text
  import opened NodeScope
  import opened NodeAccess

  const HEARTBEAT := 300

  datatype Reason = ExplicitDisabled | Stale | Unhealthy | NotRunning

  /** A status snapshot. `updatedAt` is None before the first report; `entry` and `idHost`
      are the public hosts read from the entry point and from the agent id ("" if none). */
  datatype Snapshot = Snapshot(
    agentID: string, name: string, node: Node, updatedAt: Option<int>, role: string, region: string,
    entryPoint: string, entry: string, idHost: string, pool: string,
    open: Option<bool>, healthy: bool, running: bool)

  /** A kept report, reduced to what the aggregation reads. */
  datatype Row = Row(
    region: string, entry: string, tier: string, team: string, name: string, id: string, private: bool,
    open: bool, recent: bool, healthy: bool, running: bool)

  datatype Aggregate = Aggregate(
    private: bool, code: string, entry: string, name: string, tier: string, team: string, open: bool,
    ids: set<string>, reasons: set<Reason>)

  datatype Pool = Pool(
    private: bool, code: string, entry: string, name: string, tier: string, team: string, open: bool,
    count: nat, closedReasons: seq<Reason>)

  function Key(r: Row): string {
    r.region + "\0" + r.entry + "\0" + r.tier + "\0" + r.team
  }

  /** Hosts, classes and team ids never contain the separator. */
  predicate Clean(r: Row) {
    '\0' !in r.entry && '\0' !in r.tier && '\0' !in r.team
  }

  predicate Usable(r: Row) {
    r.open && r.recent && r.healthy && r.running
  }

  function Reasons(r: Row): set<Reason> {
    (if r.open then {} else {ExplicitDisabled}) + (if r.recent then {} else {Stale})
    + (if r.healthy then {} else {Unhealthy}) + (if r.running then {} else {NotRunning})
  }

  // ----- the grouping key ------------------------------------------------------------------

  lemma {:induction false} LastFieldUnique(a: string, b: string, s: string, t: string)
    requires a + "\0" + b == s + "\0" + t && '\0' !in b && '\0' !in t
    ensures a == s && b == t
  {
    var whole := a + "\0" + b;
    assert whole[|a|] == '\0' && (s + "\0" + t)[|s|] == '\0';
    assert |a| == |s|;
    assert whole[..|a|] == a && (s + "\0" + t)[..|a|] == s;
    assert whole[|a| + 1..] == b && (s + "\0" + t)[|a| + 1..] == t;
  }

  /** Two reports share a pool exactly when region, entry, class and team agree. */
  lemma KeyIsExact(r: Row, q: Row)
    requires Clean(r) && Clean(q)
    ensures Key(r) == Key(q) <==> r.region == q.region && r.entry == q.entry && r.tier == q.tier && r.team == q.team
  {
    if Key(r) == Key(q) {
      LastFieldUnique(r.region + "\0" + r.entry + "\0" + r.tier, r.team, q.region + "\0" + q.entry + "\0" + q.tier, q.team);
      LastFieldUnique(r.region + "\0" + r.entry, r.tier, q.region + "\0" + q.entry, q.tier);
      LastFieldUnique(r.region, r.entry, q.region, q.entry);
    }
  }

  // ----- what an aggregation means ---------------------------------------------------------

  function FirstName(rows: seq<Row>, key: string): string {
    if rows == [] then "" else
      var before := FirstName(rows[..|rows| - 1], key);
      if before == "" && Key(rows[|rows| - 1]) == key then rows[|rows| - 1].name else before
  }

  ghost predicate In(rows: seq<Row>, i: int, key: string) {
    0 <= i < |rows| && Key(rows[i]) == key
  }

  ghost predicate Tallies(open: bool, ids: set<string>, reasons: set<Reason>, rows: seq<Row>, key: string) {
    && (open <==> exists i :: In(rows, i, key) && Usable(rows[i]))
    && (forall id :: id in ids <==> exists i :: In(rows, i, key) && rows[i].id == id)
    && (forall x :: x in reasons <==> exists i :: In(rows, i, key) && x in Reasons(rows[i]))
  }

  predicate Identifies(a: Aggregate, r: Row) {
    a.code == r.region && a.entry == r.entry && a.tier == r.tier && a.team == r.team && a.private == r.private
  }

  ghost predicate Summarizes(a: Aggregate, rows: seq<Row>, key: string) {
    && Tallies(a.open, a.ids, a.reasons, rows, key)
    && (forall i :: In(rows, i, key) ==> Identifies(a, rows[i]))
    && a.name == FirstName(rows, key)
  }

  /** Every report is in exactly the pool of its key, and no pool is empty. */
  ghost predicate Partition(groups: map<string, Aggregate>, rows: seq<Row>) {
    && (forall i :: 0 <= i < |rows| ==> Key(rows[i]) in groups)
    && (forall key :: key in groups ==> exists i :: In(rows, i, key))
    && (forall key :: key in groups ==> Summarizes(groups[key], rows, key))
  }

  /** `private` is settled by the class: a personal listing keeps only custom nodes with a list. */
  predicate Uniform(rows: seq<Row>, personal: bool) {
    forall i :: 0 <= i < |rows| ==> Clean(rows[i]) && (rows[i].private <==> personal && rows[i].tier == "custom")
  }

  // ----- the loop body ---------------------------------------------------------------------

  method NoteReasons(before: set<Reason>, r: Row) returns (after: set<Reason>)
    ensures after == before + Reasons(r)
  {
    after := before;
    if !r.open {
      after := after + {ExplicitDisabled};
    }
    if !r.recent {
      after := after + {Stale};
    }
    if !r.healthy {
      after := after + {Unhealthy};
    }
    if !r.running {
      after := after + {NotRunning};
    }
  }

  method Absorb(before: Option<Aggregate>, r: Row) returns (a: Aggregate)
    ensures a == Absorbed(if before.Some? then before.value else Empty(r), r)
  {
    a := if before.Some? then before.value else Aggregate(r.private, r.region, r.entry, r.name, r.tier, r.team, false, {}, {});
    if a.name == "" {
      a := a.(name := r.name);
    }
    var reasons := NoteReasons(a.reasons, r);
    a := a.(ids := a.ids + {r.id}, open := a.open || (r.open && r.recent && r.healthy && r.running), reasons := reasons);
  }

  lemma GrownMember(rows: seq<Row>, r: Row, i: int, key: string)
    ensures In(rows + [r], i, key) <==> In(rows, i, key) || (i == |rows| && Key(r) == key)
    ensures In(rows, i, key) ==> (rows + [r])[i] == rows[i]
  {
  }

  lemma OtherSummary(a: Aggregate, rows: seq<Row>, r: Row, key: string)
    requires Summarizes(a, rows, key) && Key(r) != key
    ensures Summarizes(a, rows + [r], key)
  {
    forall i ensures In(rows + [r], i, key) <==> In(rows, i, key) {
      GrownMember(rows, r, i, key);
    }
    assert (rows + [r])[..|rows|] == rows;
  }

  /** The fields of an aggregate that the key fixes. */
  lemma KeyFixes(rows: seq<Row>, personal: bool, i: int, j: int, key: string)
    requires Uniform(rows, personal) && In(rows, i, key) && In(rows, j, key)
    ensures rows[i].region == rows[j].region && rows[i].entry == rows[j].entry && rows[i].tier == rows[j].tier
    ensures rows[i].team == rows[j].team && rows[i].private == rows[j].private
  {
    KeyIsExact(rows[i], rows[j]);
  }

  function Absorbed(b: Aggregate, r: Row): Aggregate {
    b.(name := if b.name == "" then r.name else b.name, ids := b.ids + {r.id}, open := b.open || Usable(r), reasons := b.reasons + Reasons(r))
  }

  function Empty(r: Row): Aggregate {
    Aggregate(r.private, r.region, r.entry, r.name, r.tier, r.team, false, {}, {})
  }

  lemma OwnTallies(a: Aggregate, rows: seq<Row>, r: Row)
    requires if exists i :: In(rows, i, Key(r)) then Tallies(a.open, a.ids, a.reasons, rows, Key(r)) else a == Empty(r)
    ensures var b := Absorbed(a, r); Tallies(b.open, b.ids, b.reasons, rows + [r], Key(r))
  {
    var all, key, b := rows + [r], Key(r), Absorbed(a, r);
    forall i ensures In(all, i, key) <==> In(rows, i, key) || i == |rows| {
      GrownMember(rows, r, i, key);
    }
    assert In(all, |rows|, key) && all[|rows|] == r;
    assert forall i :: In(rows, i, key) ==> all[i] == rows[i];
    assert b.open <==> exists i :: In(all, i, key) && Usable(all[i]);
    assert forall id :: id in b.ids <==> exists i :: In(all, i, key) && all[i].id == id;
    assert forall x :: x in b.reasons <==> exists i :: In(all, i, key) && x in Reasons(all[i]);
  }

  lemma OwnIdentity(a: Aggregate, rows: seq<Row>, r: Row, personal: bool, i: int)
    requires Uniform(rows + [r], personal) && In(rows + [r], i, Key(r))
    requires if exists j :: In(rows, j, Key(r)) then forall j :: In(rows, j, Key(r)) ==> Identifies(a, rows[j]) else a == Empty(r)
    ensures Identifies(Absorbed(a, r), (rows + [r])[i])
  {
    var all, key := rows + [r], Key(r);
    KeyFixes(all, personal, i, |rows|, key);
    if j :| In(rows, j, key) {
      GrownMember(rows, r, j, key);
      KeyFixes(all, personal, i, j, key);
    }
  }

  lemma OwnSummary(a: Aggregate, rows: seq<Row>, r: Row, personal: bool)
    requires Uniform(rows + [r], personal)
    requires if exists i :: In(rows, i, Key(r)) then Summarizes(a, rows, Key(r)) else a == Empty(r)
    ensures Summarizes(Absorbed(a, r), rows + [r], Key(r))
  {
    OwnTallies(a, rows, r);
    NameGrows(rows, r);
    forall i | In(rows + [r], i, Key(r)) ensures Identifies(Absorbed(a, r), (rows + [r])[i]) {
      OwnIdentity(a, rows, r, personal, i);
    }
  }

  lemma {:induction false} NoName(rows: seq<Row>, key: string)
    requires forall i :: !In(rows, i, key)
    ensures FirstName(rows, key) == ""
  {
    if rows != [] {
      var init := rows[..|rows| - 1];
      assert !In(rows, |rows| - 1, key);
      forall i ensures !In(init, i, key) { assert !In(rows, i, key); }
      NoName(init, key);
    }
  }

  lemma NameGrows(rows: seq<Row>, r: Row)
    ensures var before := FirstName(rows, Key(r)); FirstName(rows + [r], Key(r)) == if before == "" then r.name else before
    ensures (forall i :: !In(rows, i, Key(r))) ==> FirstName(rows, Key(r)) == ""
  {
    assert (rows + [r])[..|rows|] == rows;
    if forall i :: !In(rows, i, Key(r)) { NoName(rows, Key(r)); }
  }

  function Grown(groups: map<string, Aggregate>, r: Row): map<string, Aggregate> {
    groups[Key(r) := Absorbed(if Key(r) in groups then groups[Key(r)] else Empty(r), r)]
  }

  lemma SummaryGrows(groups: map<string, Aggregate>, rows: seq<Row>, r: Row, personal: bool, key: string)
    requires Partition(groups, rows) && Uniform(rows + [r], personal) && (key in groups || key == Key(r))
    ensures Summarizes(Grown(groups, r)[key], rows + [r], key)
  {
    if key == Key(r) {
      assert (exists i :: In(rows, i, key)) <==> key in groups;
      OwnSummary(if key in groups then groups[key] else Empty(r), rows, r, personal);
    } else {
      OtherSummary(groups[key], rows, r, key);
    }
  }

  lemma PartitionGrows(groups: map<string, Aggregate>, rows: seq<Row>, r: Row, personal: bool)
    requires Partition(groups, rows) && Uniform(rows + [r], personal)
    ensures Partition(Grown(groups, r), rows + [r])
  {
    var next := Grown(groups, r);
    forall key | key in next ensures Summarizes(next[key], rows + [r], key) && exists i :: In(rows + [r], i, key) {
      SummaryGrows(groups, rows, r, personal, key);
      NotEmpty(groups, rows, r, key);
    }
  }

  lemma NotEmpty(groups: map<string, Aggregate>, rows: seq<Row>, r: Row, key: string)
    requires Partition(groups, rows) && (key in groups || key == Key(r))
    ensures exists i :: In(rows + [r], i, key)
  {
    if key == Key(r) {
      assert In(rows + [r], |rows|, key);
    } else {
      var i :| In(rows, i, key);
      assert In(rows + [r], i, key);
    }
  }

  /** One turn of either loop. */
  method Add(groups: map<string, Aggregate>, r: Row, ghost rows: seq<Row>, ghost personal: bool) returns (next: map<string, Aggregate>)
    requires Partition(groups, rows) && Uniform(rows + [r], personal)
    ensures Partition(next, rows + [r])
  {
    var a := Absorb(if Key(r) in groups then Some(groups[Key(r)]) else None, r);
    next := groups[Key(r) := a];
    PartitionGrows(groups, rows, r, personal);
  }

  // ----- which reports are kept -------------------------------------------------------------

  function Lowered(region: string): string {
    Lower(Trim(region))
  }

  predicate Recent(updatedAt: int, now: int) {
    updatedAt <= now && now - updatedAt <= HEARTBEAT
  }

  predicate Reported(s: Snapshot) {
    s.updatedAt.Some? && (s.role == "" || s.role == "agent-proxy")
  }

  /** reportedResourceClass. */
  function Class(s: Snapshot): (string, string) {
    if s.node.scope.Some? then (s.node.scope.value.resource, Trim(s.node.scope.value.team)) else ("", "")
  }

  function RowOf(s: Snapshot, entry: string, private: bool, now: int): Row
    requires s.updatedAt.Some?
  {
    Row(Lowered(s.region), entry, Class(s).0, Class(s).1, Trim(s.name), if Trim(s.pool) != "" then Trim(s.pool) else s.agentID,
        private, s.open.None? || s.open.value, Recent(s.updatedAt.value, now), s.healthy, s.running)
  }

  /** Hosts are letters, digits, dots and hyphens, and a parsed class or team has no separator. */
  predicate WellFormed(s: Snapshot) {
    '\0' !in s.entry && '\0' !in s.idHost && '\0' !in Class(s).0 && '\0' !in Class(s).1
  }

  lemma TierIsClean(tier: string)
    requires tier == "team" || IsResource(tier)
    ensures '\0' !in tier
  {
  }

  lemma TeamIsClean(team: string)
    requires IsTeamID(team)
    ensures '\0' !in Trim(team)
  {
    IsTeamIDTrimmed(team);
  }

  /** Whatever the credential's groups, the parsers return a class and a team free of the separator. */
  lemma ParsedClassIsClean(s: Snapshot, groups: seq<string>)
    requires ParsedFrom(s.node, groups)
    ensures '\0' !in Class(s).0 && '\0' !in Class(s).1
  {
    if s.node.scope.Some? {
      ScopeOf(s.node, groups);
      TierIsClean(s.node.scope.value.resource);
      if s.node.scope.value.team != "" { TeamIsClean(s.node.scope.value.team); }
    }
  }

  lemma ScopeOf(node: Node, groups: seq<string>)
    requires ParsedFrom(node, groups) && node.scope.Some?
    ensures node.scope.value.resource == "team" || IsResource(node.scope.value.resource)
    ensures node.scope.value.team != "" ==> IsTeamID(node.scope.value.team)
  {
    ParsedTeam(node, groups);
  }

  /** The reports regionalPoolsForUser groups for an account. */
  ghost predicate Eligible(u: User, s: Snapshot, now: int) {
    Discovered(u, s.node, now) && Reported(s) && Lowered(s.region) != "" && s.entry != ""
  }

  /** The reports registeredRegionalPools groups: everything with a region and a host. */
  function PublicEntry(s: Snapshot): string {
    if s.entryPoint == "" then s.idHost else s.entry
  }

  predicate Registered(s: Snapshot) {
    Reported(s) && Lowered(s.region) != "" && PublicEntry(s) != ""
  }

  ghost function UserRow(u: User, s: Snapshot, now: int): seq<Row> {
    if Eligible(u, s, now) then [RowOf(s, s.entry, Class(s).0 == "custom" && |s.node.emails| > 0, now)] else []
  }

  ghost function UserRows(u: User, snapshots: seq<Snapshot>, now: int): seq<Row> {
    if snapshots == [] then [] else UserRows(u, snapshots[..|snapshots| - 1], now) + UserRow(u, snapshots[|snapshots| - 1], now)
  }

  function RegisteredRow(s: Snapshot, now: int): seq<Row> {
    if Registered(s) then [RowOf(s, PublicEntry(s), false, now)] else []
  }

  function AllRows(snapshots: seq<Snapshot>, now: int): seq<Row> {
    if snapshots == [] then [] else AllRows(snapshots[..|snapshots| - 1], now) + RegisteredRow(snapshots[|snapshots| - 1], now)
  }

  lemma RowsStep(u: User, snapshots: seq<Snapshot>, i: nat, now: int)
    requires i < |snapshots|
    ensures UserRows(u, snapshots[..i + 1], now) == UserRows(u, snapshots[..i], now) + UserRow(u, snapshots[i], now)
    ensures AllRows(snapshots[..i + 1], now) == AllRows(snapshots[..i], now) + RegisteredRow(snapshots[i], now)
  {
    assert snapshots[..i + 1][..i] == snapshots[..i];
  }

  lemma RowsClean(u: User, s: Snapshot, now: int)
    requires WellFormed(s)
    ensures Uniform(UserRow(u, s, now), true) && Uniform(RegisteredRow(s, now), false)
  {
  }

  /** The gates of regionalPoolsForUser for one report. */
  method Keep(u: User, s: Snapshot, now: int) returns (keep: bool)
    ensures keep <==> Eligible(u, s, now)
  {
    var temporary := TemporarilyFree(u, s.node, now);
    var listed := AgentEmailAllowed(s.node.emails, u.email);
    if Class(s).0 == "custom" && !listed && !temporary {
      return false;
    }
    if !Reported(s) || !NetworkAllows(u, s.node) {
      return false;
    }
    if Lowered(s.region) == "" || s.entry == "" {
      return false;
    }
    keep := ClassAllowed(u, s.node, now);
  }

  method Contribute(groups: map<string, Aggregate>, u: User, s: Snapshot, now: int, ghost rows: seq<Row>) returns (next: map<string, Aggregate>)
    requires WellFormed(s) && Partition(groups, rows) && Uniform(rows, true)
    ensures Partition(next, rows + UserRow(u, s, now)) && Uniform(rows + UserRow(u, s, now), true)
  {
    RowsClean(u, s, now);
    var keep := Keep(u, s, now);
    if !keep {
      assert rows + [] == rows;
      return groups;
    }
    next := Add(groups, RowOf(s, s.entry, Class(s).0 == "custom" && |s.node.emails| > 0, now), rows, true);
  }

  method Register(groups: map<string, Aggregate>, s: Snapshot, now: int, ghost rows: seq<Row>) returns (next: map<string, Aggregate>)
    requires WellFormed(s) && Partition(groups, rows) && Uniform(rows, false)
    ensures Partition(next, rows + RegisteredRow(s, now)) && Uniform(rows + RegisteredRow(s, now), false)
  {
    RowsClean(Guest(""), s, now);
    assert rows + [] == rows;
    if !Reported(s) {
      return groups;
    }
    var region, entry := Lowered(s.region), s.entry;
    if s.entryPoint == "" {
      entry := s.idHost;
    }
    if region == "" || entry == "" {
      return groups;
    }
    next := Add(groups, RowOf(s, entry, false, now), rows, false);
  }

  /** The grouping loop of regionalPoolsForUser. */
  method GroupForUser(u: User, snapshots: seq<Snapshot>, now: int) returns (groups: map<string, Aggregate>)
    requires forall i :: 0 <= i < |snapshots| ==> WellFormed(snapshots[i])
    ensures Partition(groups, UserRows(u, snapshots, now)) && Uniform(UserRows(u, snapshots, now), true)
  {
    groups := map[];
    ghost var rows: seq<Row> := [];
    for i := 0 to |snapshots|
      invariant rows == UserRows(u, snapshots[..i], now)
      invariant Partition(groups, rows) && Uniform(rows, true)
    {
      RowsStep(u, snapshots, i, now);
      groups := Contribute(groups, u, snapshots[i], now, rows);
      rows := rows + UserRow(u, snapshots[i], now);
    }
    assert snapshots[..|snapshots|] == snapshots;
  }

  /** The grouping loop of registeredRegionalPools. */
  method GroupRegistered(snapshots: seq<Snapshot>, now: int) returns (groups: map<string, Aggregate>)
    requires forall i :: 0 <= i < |snapshots| ==> WellFormed(snapshots[i])
    ensures Partition(groups, AllRows(snapshots, now)) && Uniform(AllRows(snapshots, now), false)
  {
    groups := map[];
    ghost var rows: seq<Row> := [];
    for i := 0 to |snapshots|
      invariant rows == AllRows(snapshots[..i], now)
      invariant Partition(groups, rows) && Uniform(rows, false)
    {
      RowsStep(Guest(""), snapshots, i, now);
      groups := Register(groups, snapshots[i], now, rows);
      rows := rows + RegisteredRow(snapshots[i], now);
    }
    assert snapshots[..|snapshots|] == snapshots;
  }

  // ----- the finished pools ------------------------------------------------------------------

  /** Where a reason stands in the listing. */
  function Position(x: Reason): nat {
    match x
    case ExplicitDisabled => 0
    case Stale => 1
    case Unhealthy => 2
    case NotRunning => 3
  }

  predicate Ordered(reasons: seq<Reason>) {
    forall i, j :: 0 <= i < j < |reasons| ==> Position(reasons[i]) < Position(reasons[j])
  }

  /** The pool shown for an aggregate: the number of distinct ids, no reason when it is open,
      and exactly the members' reasons, in the fixed order, when it is closed. */
  ghost predicate Finished(a: Aggregate, p: Pool) {
    && p == Pool(a.private, a.code, a.entry, a.name, a.tier, a.team, a.open, |a.ids|, p.closedReasons)
    && (a.open ==> p.closedReasons == []) && (!a.open ==> forall x :: x in p.closedReasons <==> x in a.reasons)
    && Ordered(p.closedReasons)
  }

  /** The second loop: count the ids, and give a closed pool its reasons. */
  method Finish(a: Aggregate) returns (p: Pool)
    ensures Finished(a, p)
  {
    var order := [ExplicitDisabled, Stale, Unhealthy, NotRunning];
    var reasons: seq<Reason> := [];
    if !a.open {
      for i := 0 to |order|
        invariant forall x :: x in reasons <==> x in order[..i] && x in a.reasons
        invariant forall j, k :: 0 <= j < k < |reasons| ==> Position(reasons[j]) < Position(reasons[k])
        invariant forall j :: 0 <= j < |reasons| ==> Position(reasons[j]) < i
      {
        if order[i] in a.reasons {
          reasons := reasons + [order[i]];
        }
      }
      assert order[..|order|] == order && order[0] in order && order[1] in order && order[2] in order && order[3] in order;
      forall x ensures x in reasons <==> x in a.reasons {
        match x {
          case ExplicitDisabled =>
          case Stale =>
          case Unhealthy =>
          case NotRunning =>
        }
      }
    }
    p := Pool(a.private, a.code, a.entry, a.name, a.tier, a.team, a.open, |a.ids|, reasons);
  }

  /** A pool without a usable member always has a reason to show. */
  lemma ClosedPoolsHaveAReason(groups: map<string, Aggregate>, rows: seq<Row>, key: string)
    requires Partition(groups, rows) && key in groups && !groups[key].open
    ensures groups[key].reasons != {}
  {
    assert Summarizes(groups[key], rows, key);
    var i :| In(rows, i, key);
    assert !Usable(rows[i]);
    var x :| x in Reasons(rows[i]);
    assert x in groups[key].reasons;
  }

  /** Which reports make up a pool, whatever their order. */
  lemma SameMembers(rows: seq<Row>, other: seq<Row>, key: string, i: int)
    requires multiset(rows) == multiset(other) && In(rows, i, key)
    ensures exists j :: In(other, j, key) && other[j] == rows[i]
  {
    assert rows[i] in multiset(rows);
    assert rows[i] in other;
    var j :| 0 <= j < |other| && other[j] == rows[i];
    assert In(other, j, key);
  }

  lemma SummaryIncluded(a: Aggregate, b: Aggregate, rows: seq<Row>, other: seq<Row>, key: string)
    requires multiset(rows) == multiset(other) && Summarizes(a, rows, key) && Summarizes(b, other, key)
    ensures (a.open ==> b.open) && a.ids <= b.ids && a.reasons <= b.reasons
  {
    forall i | In(rows, i, key) ensures exists j :: In(other, j, key) && other[j] == rows[i] { SameMembers(rows, other, key, i); }
  }

  /** The order of the reports changes nothing but the display name. */
  lemma OrderOnlyNamesPools(groups: map<string, Aggregate>, others: map<string, Aggregate>, rows: seq<Row>, other: seq<Row>)
    requires multiset(rows) == multiset(other) && Partition(groups, rows) && Partition(others, other)
    ensures groups.Keys == others.Keys
    ensures forall key :: key in groups ==> groups[key] == others[key].(name := groups[key].name)
  {
    KeysIncluded(groups, others, rows, other);
    KeysIncluded(others, groups, other, rows);
    forall key | key in groups ensures groups[key] == others[key].(name := groups[key].name) {
      var i :| In(rows, i, key);
      OrderOnlyNames(groups[key], others[key], rows, other, key, i);
    }
  }

  lemma OrderOnlyNames(a: Aggregate, b: Aggregate, rows: seq<Row>, other: seq<Row>, key: string, i: int)
    requires multiset(rows) == multiset(other) && Summarizes(a, rows, key) && Summarizes(b, other, key) && In(rows, i, key)
    ensures a == b.(name := a.name)
  {
    SummaryIncluded(a, b, rows, other, key);
    SummaryIncluded(b, a, other, rows, key);
    SameMembers(rows, other, key, i);
    var j :| In(other, j, key) && other[j] == rows[i];
  }

  lemma KeysIncluded(groups: map<string, Aggregate>, others: map<string, Aggregate>, rows: seq<Row>, other: seq<Row>)
    requires multiset(rows) == multiset(other) && Partition(groups, rows) && Partition(others, other)
    ensures groups.Keys <= others.Keys
  {
    forall key | key in groups ensures key in others {
      var i :| In(rows, i, key);
      SameMembers(rows, other, key, i);
      var j :| In(other, j, key) && other[j] == rows[i];
      assert Key(other[j]) in others;
    }
  }

  // ----- permuted snapshots ----------------------------------------------------------------------

  /** The rows of a list of snapshots, each of which gives the rows `f` says. */
  ghost function Rows(f: Snapshot -> seq<Row>, snapshots: seq<Snapshot>): seq<Row> {
    if snapshots == [] then [] else Rows(f, snapshots[..|snapshots| - 1]) + f(snapshots[|snapshots| - 1])
  }

  function Without(snapshots: seq<Snapshot>, j: nat): seq<Snapshot>
    requires j < |snapshots|
  {
    snapshots[..j] + snapshots[j + 1..]
  }

  lemma {:induction false} RowsWithout(f: Snapshot -> seq<Row>, snapshots: seq<Snapshot>, j: nat)
    requires j < |snapshots|
    ensures multiset(Rows(f, snapshots)) == multiset(Rows(f, Without(snapshots, j))) + multiset(f(snapshots[j]))
    decreases |snapshots|
  {
    var n := |snapshots| - 1;
    var init, rest := snapshots[..n], Without(snapshots, j);
    if j == n {
      assert rest == init;
    } else {
      RowsWithout(f, init, j);
      assert rest[..n - 1] == Without(init, j) && rest[n - 1] == snapshots[n] && |rest| == n;
    }
  }

  lemma Match(a: seq<Snapshot>, b: seq<Snapshot>) returns (j: nat)
    requires a != [] && multiset(a) == multiset(b)
    ensures j < |b| && b[j] == a[|a| - 1]
    ensures multiset(a[..|a| - 1]) == multiset(Without(b, j))
  {
    var n := |a| - 1;
    assert a[n] in multiset(b);
    j :| 0 <= j < |b| && b[j] == a[n];
    MultisetWithout(a, n);
    MultisetWithout(b, j);
    assert Without(a, n) == a[..n];
  }

  lemma MultisetWithout(snapshots: seq<Snapshot>, j: nat)
    requires j < |snapshots|
    ensures multiset(Without(snapshots, j)) == multiset(snapshots) - multiset{snapshots[j]}
  {
    assert snapshots == snapshots[..j] + [snapshots[j]] + snapshots[j + 1..];
  }

  lemma {:induction false} RowsPermute(f: Snapshot -> seq<Row>, a: seq<Snapshot>, b: seq<Snapshot>)
    requires multiset(a) == multiset(b)
    ensures multiset(Rows(f, a)) == multiset(Rows(f, b))
    decreases |a|
  {
    if a == [] {
      assert |b| == |multiset(b)| == |multiset(a)|;
    } else {
      var n := |a| - 1;
      var j := Match(a, b);
      RowsPermute(f, a[..n], Without(b, j));
      RowsWithout(f, b, j);
    }
  }

  ghost function RowOfUser(u: User, now: int): Snapshot -> seq<Row> {
    s => UserRow(u, s, now)
  }

  ghost function RowOfAll(now: int): Snapshot -> seq<Row> {
    s => RegisteredRow(s, now)
  }

  lemma {:induction false} RowsAre(u: User, snapshots: seq<Snapshot>, now: int)
    ensures UserRows(u, snapshots, now) == Rows(RowOfUser(u, now), snapshots)
    ensures AllRows(snapshots, now) == Rows(RowOfAll(now), snapshots)
  {
    if snapshots != [] { RowsAre(u, snapshots[..|snapshots| - 1], now); }
  }

  /** Permuted snapshots give permuted rows, for an account and for the whole inventory. */
  lemma RowsFollowSnapshots(u: User, a: seq<Snapshot>, b: seq<Snapshot>, now: int)
    requires multiset(a) == multiset(b)
    ensures multiset(UserRows(u, a, now)) == multiset(UserRows(u, b, now))
    ensures multiset(AllRows(a, now)) == multiset(AllRows(b, now))
  {
    RowsAre(u, a, now);
    RowsAre(u, b, now);
    RowsPermute(RowOfUser(u, now), a, b);
    RowsPermute(RowOfAll(now), a, b);
  }

  ghost predicate SameReasons(s: seq<Reason>, t: seq<Reason>) {
    forall x :: x in s <==> x in t
  }

  lemma {:induction false} OrderedIsUnique(s: seq<Reason>, t: seq<Reason>)
    requires Ordered(s) && Ordered(t) && SameReasons(s, t)
    ensures s == t
    decreases |s|
  {
    EmptyTogether(s, t);
    if s != [] {
      SameInits(s, t);
      OrderedIsUnique(s[..|s| - 1], t[..|t| - 1]);
      assert s == s[..|s| - 1] + [s[|s| - 1]] && t == t[..|t| - 1] + [t[|t| - 1]];
    }
  }

  lemma EmptyTogether(s: seq<Reason>, t: seq<Reason>)
    requires SameReasons(s, t)
    ensures s == [] <==> t == []
  {
    if s != [] { assert s[0] in t; }
    if t != [] { assert t[0] in s; }
  }

  lemma SameInits(s: seq<Reason>, t: seq<Reason>)
    requires Ordered(s) && Ordered(t) && SameReasons(s, t) && s != [] && t != []
    ensures s[|s| - 1] == t[|t| - 1]
    ensures SameReasons(s[..|s| - 1], t[..|t| - 1])
  {
    LastIsGreatest(s, t);
    LastIsGreatest(t, s);
    SamePlace(s[|s| - 1], t[|t| - 1]);
    var s', t' := s[..|s| - 1], t[..|t| - 1];
    forall x {:trigger x in s'} {:trigger x in t'} ensures x in s' <==> x in t' {
      DropsLast(s, x);
      DropsLast(t, x);
    }
  }

  lemma LastIsGreatest(s: seq<Reason>, t: seq<Reason>)
    requires Ordered(s) && s != [] && t != [] && forall x :: x in t ==> x in s
    ensures Position(t[|t| - 1]) <= Position(s[|s| - 1])
  {
    assert t[|t| - 1] in t;
    var i :| 0 <= i < |s| && s[i] == t[|t| - 1];
  }

  lemma DropsLast(s: seq<Reason>, x: Reason)
    requires Ordered(s) && s != []
    ensures x in s[..|s| - 1] <==> x in s && x != s[|s| - 1]
  {
    if x in s {
      var i :| 0 <= i < |s| && s[i] == x;
      if i < |s| - 1 { assert s[..|s| - 1][i] == x; }
    }
  }

  lemma SamePlace(x: Reason, y: Reason)
    requires Position(x) == Position(y)
    ensures x == y
  {
  }

  lemma FinishedNames(a: Aggregate, b: Aggregate, p: Pool, q: Pool)
    requires a == b.(name := a.name) && Finished(a, p) && Finished(b, q)
    ensures p == q.(name := p.name)
  {
    OrderedIsUnique(p.closedReasons, q.closedReasons);
  }

  /** Permuting the snapshots changes nothing but display names: neither which pools an
      account is shown nor anything else about the finished pools. */
  lemma SnapshotOrderOnlyNamesPools(u: User, a: seq<Snapshot>, b: seq<Snapshot>, now: int, groups: map<string, Aggregate>, others: map<string, Aggregate>)
    requires multiset(a) == multiset(b)
    requires Partition(groups, UserRows(u, a, now)) && Partition(others, UserRows(u, b, now))
    ensures groups.Keys == others.Keys
    ensures forall key, p, q :: key in groups && Finished(groups[key], p) && Finished(others[key], q) ==> p == q.(name := p.name)
  {
    RowsFollowSnapshots(u, a, b, now);
    OrderOnlyNamesPools(groups, others, UserRows(u, a, now), UserRows(u, b, now));
    forall key, p, q | key in groups && Finished(groups[key], p) && Finished(others[key], q) ensures p == q.(name := p.name) {
      FinishedNames(groups[key], others[key], p, q);
    }
  }

  /** The same for the whole inventory. */
  lemma SnapshotOrderOnlyNamesInventory(a: seq<Snapshot>, b: seq<Snapshot>, now: int, groups: map<string, Aggregate>, others: map<string, Aggregate>)
    requires multiset(a) == multiset(b)
    requires Partition(groups, AllRows(a, now)) && Partition(others, AllRows(b, now))
    ensures groups.Keys == others.Keys
    ensures forall key, p, q :: key in groups && Finished(groups[key], p) && Finished(others[key], q) ==> p == q.(name := p.name)
  {
    RowsFollowSnapshots(Guest(""), a, b, now);
    OrderOnlyNamesPools(groups, others, AllRows(a, now), AllRows(b, now));
    forall key, p, q | key in groups && Finished(groups[key], p) && Finished(others[key], q) ensures p == q.(name := p.name) {
      FinishedNames(groups[key], others[key], p, q);
    }
  }
}
