/**
 Handing a proxy node from one team to another (api/team_agent_enrollments.go over
 internal/store/team_agent_enrollments.go): an administrator approves, revokes and
 re-approves; the node fetches its client list, installs it and reports the
 revision it applied; discovery shows the node only when that revision is current.

 A revision is a collision-free hash of the enrollment, so it is modelled by the
 enrollment itself; an approved list carries the members' digest behind it.
 */
module TeamHandoff {
  import opened Finance
  import opened NodeScope

  datatype Approval = Waiting | Approved | Rejected | Revoked

  /** `team` is the assigned team id, "" before the first approval. */
  datatype Enrollment = Enrollment(status: Approval, team: string, updatedAt: int)

  datatype Revision = NoRevision | Bare(of: Enrollment) | WithUsers(of: Enrollment, digest: string)

  /** Which clients a node lets in. */
  datatype Clients = Nobody | Public | Members(team: string)

  datatype Response = Response(revision: Revision, clients: Clients)

  datatype Report = Report(
    revision: Revision, users: nat, clients: nat, healthy: bool, running: bool, lastSync: Option<int>)

  /** A decision that passed the checks against `row` and is about to be saved. */
  datatype Ticket = Ticket(row: Enrollment, status: Approval, team: string)

  datatype State = State(
    enrollment: Enrollment, tickets: set<Ticket>,
    installed: Clients, applied: Revision,      // the node
    inFlight: Option<Response>,                 // the one fetch a sequential node has open
    sent: set<Report>,                          // reports in the network, in any order, any number of times
    last: Option<Report>, lastAt: int)          // the report the registry holds

  datatype Step =
    | Fetch(digest: string)
    | LoseFetch
    | Install
    | SendReport(users: nat, clients: nat, healthy: bool, running: bool, lastSync: Option<int>)
    | Deliver(report: Report, now: int)
    | Check(status: Approval, team: string, teams: seq<string>, seen: int)
    | Save(ticket: Ticket, now: int)

  function Init(now: int, installed: Clients): State {
    State(Enrollment(Waiting, "", now), {}, installed, NoRevision, None, {}, None, 0)
  }

  /** enrollmentRevision, pendingTeamResponse and the approved branch of listAgentUsers. */
  function Answer(e: Enrollment, digest: string): Response {
    if e.status == Approved then Response(WithUsers(e, digest), Members(e.team)) else Response(Bare(e), Nobody)
  }

  /** The node has applied the empty list of exactly this withdrawn enrollment. */
  predicate Cleared(e: Enrollment, last: Option<Report>, lastAt: int) {
    && last.Some? && last.value.revision == Bare(e) && last.value.users == 0 && last.value.clients == 0
    && last.value.healthy && last.value.running
    && last.value.lastSync.Some? && last.value.lastSync.value > e.updatedAt && lastAt > e.updatedAt
  }

  /** adminDecideTeamAgent lets the decision through to the store. */
  predicate MayDecide(e: Enrollment, cleared: bool, teams: seq<string>, status: Approval, team: string, seen: int) {
    && status != Waiting && seen == e.updatedAt
    && (status == Approved ==>
          && IsTeamID(team) && team in teams
          && (e.status == Approved ==> e.team == team)
          && (e.status != Approved && e.team != "" ==> cleared))
  }

  /** DecideTeamAgent: the timestamp is the version and always moves forward. */
  function Decided(e: Enrollment, status: Approval, team: string, now: int): Enrollment {
    Enrollment(status, if status == Approved then team else e.team, if now > e.updatedAt then now else e.updatedAt + 1)
  }

  function Apply(s: State, step: Step): State {
    match step
    case Fetch(digest) => if s.inFlight.None? then s.(inFlight := Some(Answer(s.enrollment, digest))) else s
    case LoseFetch => s.(inFlight := None)
    case Install =>
      if s.inFlight.Some?
      then s.(installed := s.inFlight.value.clients, applied := s.inFlight.value.revision, inFlight := None) else s
    case SendReport(users, clients, healthy, running, lastSync) =>
      s.(sent := s.sent + {Report(s.applied, users, clients, healthy, running, lastSync)})
    case Deliver(report, now) => if report in s.sent then s.(last := Some(report), lastAt := now) else s
    case Check(status, team, teams, seen) =>
      if MayDecide(s.enrollment, Cleared(s.enrollment, s.last, s.lastAt), teams, status, team, seen)
      then s.(tickets := s.tickets + {Ticket(s.enrollment, status, team)}) else s
    case Save(ticket, now) =>
      if ticket in s.tickets && s.enrollment.updatedAt == ticket.row.updatedAt
      then s.(enrollment := Decided(ticket.row, ticket.status, ticket.team, now)) else s
  }

  function Run(s: State, steps: seq<Step>): State
    decreases |steps|
  {
    if steps == [] then s else Run(Apply(s, steps[0]), steps[1..])
  }

  // ----- safety ----------------------------------------------------------------------

  /** An approved node serves nobody, or the team it is approved for. */
  predicate Safe(s: State) {
    s.enrollment.status == Approved ==> s.installed == Nobody || s.installed == Members(s.enrollment.team)
  }

  /** enrollmentStatusReader: the node may be shown as open to its team. */
  predicate Ready(e: Enrollment, last: Option<Report>) {
    && e.status == Approved && last.Some? && last.value.healthy && last.value.running
    && last.value.lastSync.Some? && last.value.lastSync.value > e.updatedAt
    && last.value.revision.WithUsers? && last.value.revision.of == e
  }

  /** `r` names an enrollment no newer than `e`, and `e` itself if equally new. */
  predicate NotNewer(r: Revision, e: Enrollment) {
    r.NoRevision? || (r.of.updatedAt <= e.updatedAt && (r.of.updatedAt == e.updatedAt ==> r.of == e))
  }

  predicate Before(a: Revision, b: Revision) {
    a.NoRevision? || (!b.NoRevision? && NotNewer(a, b.of))
  }

  predicate Genuine(r: Revision, clients: Clients) {
    match r
    case NoRevision => true
    case Bare(e) => e.status != Approved && clients == Nobody
    case WithUsers(e, _) => e.status == Approved && clients == Members(e.team)
  }

  predicate Harmless(clients: Clients, e: Enrollment) {
    clients == Nobody || (e.team != "" && clients == Members(e.team))
  }

  /** What the checks established, and no later step can undo while the row is unchanged. */
  predicate Sound(t: Ticket, e: Enrollment, applied: Revision) {
    && NotNewer(Bare(t.row), e)
    && (t.status == Approved ==>
          && t.team != ""
          && (t.row.status == Approved ==> t.row.team == t.team)
          && (t.row.status != Approved && t.row.team != "" ==> Before(Bare(t.row), applied)))
  }

  ghost predicate Inv(s: State) {
    && (forall t :: t in s.tickets ==> Sound(t, s.enrollment, s.applied))
    && NotNewer(s.applied, s.enrollment) && Genuine(s.applied, s.installed)
    && (s.inFlight.Some? ==>
          && !s.inFlight.value.revision.NoRevision? && NotNewer(s.inFlight.value.revision, s.enrollment)
          && Before(s.applied, s.inFlight.value.revision) && Genuine(s.inFlight.value.revision, s.inFlight.value.clients))
    && (forall r :: r in s.sent ==> Before(r.revision, s.applied))
    && (s.last.Some? ==> Before(s.last.value.revision, s.applied))
    && (s.enrollment.status == Approved ==> s.enrollment.team != "")
    && (s.enrollment.status == Approved || s.enrollment.team == "" ==>
          && Harmless(s.installed, s.enrollment)
          && (s.inFlight.Some? ==> Harmless(s.inFlight.value.clients, s.enrollment)))
  }

  /** Once the node has applied a list no older than a withdrawn enrollment that is
      still current, it serves nobody and its open fetch is empty too. */
  lemma WithdrawnMeansEmpty(s: State)
    requires Inv(s) && s.enrollment.status != Approved && Before(Bare(s.enrollment), s.applied)
    ensures s.installed == Nobody && (s.inFlight.Some? ==> s.inFlight.value.clients == Nobody)
  {
  }

  lemma SaveKeeps(s: State, t: Ticket, now: int)
    requires Inv(s) && t in s.tickets && s.enrollment.updatedAt == t.row.updatedAt
    ensures Inv(Apply(s, Save(t, now)))
  {
    assert Sound(t, s.enrollment, s.applied) && t.row == s.enrollment;
    if t.status == Approved && t.row.status != Approved && t.row.team != "" {
      WithdrawnMeansEmpty(s);
    }
  }

  lemma CheckKeeps(s: State, status: Approval, team: string, teams: seq<string>, seen: int)
    requires Inv(s)
    ensures Inv(Apply(s, Check(status, team, teams, seen)))
  {
  }

  lemma {:induction false} RunKeepsInv(s: State, steps: seq<Step>)
    requires Inv(s)
    ensures Inv(Run(s, steps))
    decreases |steps|
  {
    if steps != [] {
      match steps[0] {
        case Check(status, team, teams, seen) => CheckKeeps(s, status, team, teams, seen);
        case Save(t, now) => if t in s.tickets && s.enrollment.updatedAt == t.row.updatedAt { SaveKeeps(s, t, now); }
        case Fetch(_) =>
        case LoseFetch =>
        case Install =>
        case SendReport(_, _, _, _, _) =>
        case Deliver(_, _) =>
      }
      RunKeepsInv(Apply(s, steps[0]), steps[1..]);
    }
  }

  /** Over every run of decisions, fetches, lost and late reports, an approved node
      never serves another team, provided it enrolled serving nobody. */
  lemma HandoffIsSafe(now: int, steps: seq<Step>)
    ensures Safe(Run(Init(now, Nobody), steps))
  {
    RunKeepsInv(Init(now, Nobody), steps);
  }

  /** Discovery opens a node to a team only when the node runs the member list of the current approval. */
  lemma DiscoveryShowsOnlyCurrentApproval(now: int, steps: seq<Step>)
    ensures var s := Run(Init(now, Nobody), steps);
            Ready(s.enrollment, s.last) ==>
            s.installed == Members(s.enrollment.team) && s.applied.WithUsers? && s.applied.of == s.enrollment
  {
    RunKeepsInv(Init(now, Nobody), steps);
  }

  /** A node that serves anyone when it enrolls is approved for some team it does not serve. */
  lemma ServingNodeIsUnsafe(now: int, installed: Clients) returns (steps: seq<Step>)
    requires installed != Nobody
    ensures !Safe(Run(Init(now, installed), steps))
  {
    var team := if installed == Members("a") then "b" else "a";
    var s := Init(now, installed);
    var check, save := Check(Approved, team, [team], now), Save(Ticket(s.enrollment, Approved, team), now);
    assert team in [team] && IsTeamID(team);
    var t := Apply(Apply(s, check), save);
    steps := [check, save];
    assert steps[1..] == [save] && [save][1..] == [];
    assert Run(t, []) == t && Run(Apply(s, check), [save]) == Run(t, []);
    assert Run(s, steps) == t;
  }

  /** The first approval needs no clearing report, so the law holds for every run
      exactly when the node serves nobody at enrollment. */
  lemma SafeExactlyWhenEmptyAtEnrollment(now: int, installed: Clients)
    ensures (forall steps :: Safe(Run(Init(now, installed), steps))) <==> installed == Nobody
  {
    if installed == Nobody {
      forall steps ensures Safe(Run(Init(now, installed), steps)) { HandoffIsSafe(now, steps); }
    } else {
      var steps := ServingNodeIsUnsafe(now, installed);
    }
  }

  // ----- what the steps let through ------------------------------------------------------------

  /** The node reports that it runs, in good health, the empty list of exactly this enrollment,
      synced after it was decided. */
  ghost predicate SaysEmpty(r: Report, e: Enrollment) {
    r == Report(Bare(e), 0, 0, true, true, r.lastSync) && r.lastSync.Some? && r.lastSync.value > e.updatedAt
  }

  /** A decision is let through exactly when it was made on the current version and is a
      rejection, a revocation, or an approval for a known team that the node already has, or
      that takes a node nobody has had, or one whose last report shows it empty. */
  lemma DecisionExactly(s: State, status: Approval, team: string, teams: seq<string>, seen: int)
    ensures var e := s.enrollment;
            var free := if e.status == Approved then e.team == team
                        else e.team == "" || (s.last.Some? && SaysEmpty(s.last.value, e) && s.lastAt > e.updatedAt);
            var good := && seen == e.updatedAt
                        && (status in {Rejected, Revoked} || (status == Approved && IsTeamName(team) && team in teams && free));
            Apply(s, Check(status, team, teams, seen)) == if good then s.(tickets := s.tickets + {Ticket(e, status, team)}) else s
  {
    TeamIDExactly(team);
  }

  /** It is saved exactly while its row is unchanged; the version then grows, to the current time
      or by one, and a withdrawal keeps the team on record. */
  lemma SavingExactly(s: State, t: Ticket, now: int)
    ensures var u := Apply(s, Save(t, now));
            var good := t in s.tickets && s.enrollment.updatedAt == t.row.updatedAt;
            && (!good ==> u == s)
            && (good ==>
                  && u == s.(enrollment := u.enrollment)
                  && u.enrollment.status == t.status && u.enrollment.team == (if t.status == Approved then t.team else t.row.team)
                  && u.enrollment.updatedAt >= now && u.enrollment.updatedAt > t.row.updatedAt
                  && u.enrollment.updatedAt in {now, t.row.updatedAt + 1})
  {
  }

  ghost predicate Justified(t: Ticket, sent: set<Report>) {
    t.status == Approved && t.row.status != Approved && t.row.team != "" ==> exists r :: r in sent && SaysEmpty(r, t.row)
  }

  /** Only reports that were sent are held. */
  ghost predicate Honest(s: State) {
    (s.last.Some? ==> s.last.value in s.sent) && forall t :: t in s.tickets ==> Justified(t, s.sent)
  }

  lemma StepIsHonest(s: State, step: Step)
    requires Honest(s)
    ensures Honest(Apply(s, step)) && s.sent <= Apply(s, step).sent
  {
    var u := Apply(s, step);
    forall t | t in u.tickets ensures Justified(t, u.sent) {
      if t in s.tickets { assert Justified(t, s.sent); }
    }
  }

  lemma {:induction false} RunIsHonest(s: State, steps: seq<Step>)
    requires Honest(s)
    ensures Honest(Run(s, steps))
    decreases |steps|
  {
    if steps != [] {
      StepIsHonest(s, steps[0]);
      RunIsHonest(Apply(s, steps[0]), steps[1..]);
    }
  }

  /** In every run, whatever the node served when it enrolled, an approval that takes a node over
      after a withdrawal rests on a report the node sent: it runs, in good health, the empty list
      of that very withdrawal. */
  lemma TakeoverNeedsEmptyReport(now: int, installed: Clients, steps: seq<Step>, t: Ticket)
    requires t in Run(Init(now, installed), steps).tickets
    requires t.status == Approved && t.row.status != Approved && t.row.team != ""
    ensures exists r :: r in Run(Init(now, installed), steps).sent && SaysEmpty(r, t.row)
  {
    RunIsHonest(Init(now, installed), steps);
  }

  lemma {:induction false} RunFive(s: State, a: Step, b: Step, c: Step, d: Step, e: Step)
    ensures Run(s, [a, b, c, d, e]) == Apply(Apply(Apply(Apply(Apply(s, a), b), c), d), e)
  {
    assert [a, b, c, d, e][1..] == [b, c, d, e] && [b, c, d, e][1..] == [c, d, e] && [c, d, e][1..] == [d, e];
    assert [d, e][1..] == [e] && [e][1..] == [];
    var s1 := Apply(s, a);
    var s2 := Apply(s1, b);
    var s3 := Apply(s2, c);
    var s4 := Apply(s3, d);
    assert Run(s4, [e]) == Run(Apply(s4, e), []) == Apply(s4, e);
    assert Run(s3, [d, e]) == Run(s4, [e]) && Run(s2, [c, d, e]) == Run(s3, [d, e]) && Run(s1, [b, c, d, e]) == Run(s2, [c, d, e]);
  }

  /** From every state the node can come to serve what its enrollment says: five steps lead to the
      approved team's members and a node that counts as ready, or, after a withdrawal, to nobody
      and a node that counts as cleared. */
  lemma NodeCatchesUp(s: State, digest: string, now: int) returns (steps: seq<Step>)
    requires now > s.enrollment.updatedAt
    ensures var t := Run(s, steps);
            && t.enrollment == s.enrollment
            && (s.enrollment.status == Approved ==> Ready(t.enrollment, t.last) && t.installed == Members(s.enrollment.team))
            && (s.enrollment.status != Approved ==> Cleared(t.enrollment, t.last, t.lastAt) && t.installed == Nobody)
  {
    var answer := Answer(s.enrollment, digest);
    var report := Report(answer.revision, 0, 0, true, true, Some(now));
    steps := [LoseFetch, Fetch(digest), Install, SendReport(0, 0, true, true, Some(now)), Deliver(report, now)];
    RunFive(s, LoseFetch, Fetch(digest), Install, SendReport(0, 0, true, true, Some(now)), Deliver(report, now));
  }

  /** A node counts as ready exactly when its last report says that it runs, in good health, the
      member list of this approval, synced after the approval. */
  lemma ReadyExactly(e: Enrollment, last: Option<Report>)
    ensures Ready(e, last) <==>
            && e.status == Approved && last.Some?
            && exists digest, sync :: sync > e.updatedAt
                                      && last.value == Report(WithUsers(e, digest), last.value.users, last.value.clients, true, true, Some(sync))
  {
    if Ready(e, last) {
      var r := last.value;
      assert r == Report(WithUsers(e, r.revision.digest), r.users, r.clients, true, true, Some(r.lastSync.value));
    }
  }

  // ----- the code ----------------------------------------------------------------------

  /** One registry entry as discovery sees it. */
  datatype Snapshot = Snapshot(agentID: string, groups: seq<string>, report: Report, openToUsers: Option<bool>)

  const MARKER := "enrollment:team"
  const CLOSED_GROUPS := ["enrollment:team", "access:dedicated-only"]

  function EnrollmentGroups(e: Enrollment): seq<string> {
    if e.status == Approved then [MARKER, "team:" + e.team] else CLOSED_GROUPS
  }

  function Overlaid(s: Snapshot, entries: map<string, Enrollment>): Snapshot {
    var found := s.agentID in entries;
    var groups := if found then EnrollmentGroups(entries[s.agentID]) else s.groups;
    if (found || MARKER in groups) && !(found && Ready(entries[s.agentID], Some(s.report)))
    then s.(groups := CLOSED_GROUPS, openToUsers := Some(false))
    else s.(groups := groups)
  }

  /** enrollmentStatusReader rewrites the snapshots in place. */
  method OverlayDecisions(snapshots: array<Snapshot>, entries: map<string, Enrollment>)
    modifies snapshots
    ensures forall i :: 0 <= i < snapshots.Length ==> snapshots[i] == Overlaid(old(snapshots[i]), entries)
  {
    for i := 0 to snapshots.Length
      invariant forall k :: 0 <= k < i ==> snapshots[k] == Overlaid(old(snapshots[k]), entries)
      invariant forall k :: i <= k < snapshots.Length ==> snapshots[k] == old(snapshots[k])
    {
      var s := snapshots[i];
      var found := s.agentID in entries;
      if found {
        s := s.(groups := EnrollmentGroups(entries[s.agentID]));
      }
      if found || MARKER in s.groups {
        var ready := found && Ready(entries[s.agentID], Some(s.report));
        if !ready {
          s := s.(openToUsers := Some(false), groups := CLOSED_GROUPS);
        }
      }
      snapshots[i] := s;
    }
  }

  /** After the overlay a managed node that still carries a team or is not closed has
      reported the revision of its current approval, for that very team. */
  lemma OverlayOpensOnlyReadyNodes(s: Snapshot, entries: map<string, Enrollment>)
    requires s.agentID in entries
    ensures var t := Overlaid(s, entries);
            t.openToUsers != Some(false) || t.groups != CLOSED_GROUPS ==>
            && Ready(entries[s.agentID], Some(s.report))
            && t.groups == [MARKER, "team:" + entries[s.agentID].team] && t.openToUsers == s.openToUsers
  {
  }

  /** What discovery makes of a snapshot: a managed node that is ready carries its team, one that
      is not, or that claims to be managed without an enrollment, is closed and carries no team,
      and any other is left alone. */
  lemma OverlayExactly(s: Snapshot, entries: map<string, Enrollment>)
    ensures var t := Overlaid(s, entries);
            && t == s.(groups := t.groups, openToUsers := t.openToUsers)
            && (s.agentID in entries && Ready(entries[s.agentID], Some(s.report)) ==>
                  t.groups == ["enrollment:team", "team:" + entries[s.agentID].team] && t.openToUsers == s.openToUsers)
            && (s.agentID in entries && !Ready(entries[s.agentID], Some(s.report)) ==>
                  t.groups == ["enrollment:team", "access:dedicated-only"] && t.openToUsers == Some(false))
            && (s.agentID !in entries && "enrollment:team" in s.groups ==>
                  t.groups == ["enrollment:team", "access:dedicated-only"] && t.openToUsers == Some(false))
            && (s.agentID !in entries && "enrollment:team" !in s.groups ==> t == s)
  {
  }

  ghost predicate ClearedBy(e: Enrollment, statuses: seq<Status>, agentID: string) {
    exists i :: 0 <= i < |statuses| && statuses[i].agentID == agentID && Cleared(e, Some(statuses[i].report), statuses[i].updatedAt)
  }

  datatype Status = Status(agentID: string, report: Report, updatedAt: int)

  /** The enrollment table (RegisterTeamAgent and DecideTeamAgent of the memory store). */
  class EnrollmentStore {
    var rows: map<string, Enrollment>

    /** A heartbeat never overwrites an administrator's decision or its version. */
    method Register(id: string, now: int) returns (e: Enrollment)
      modifies this
      ensures rows == if id in old(rows) then old(rows) else old(rows)[id := Enrollment(Waiting, "", now)]
      ensures id in rows && e == rows[id]
    {
      if id !in rows {
        rows := rows[id := Enrollment(Waiting, "", now)];
      }
      e := rows[id];
    }

    method Save(id: string, ticket: Ticket, now: int) returns (ok: bool)
      modifies this
      ensures ok <==> id in old(rows) && old(rows)[id].updatedAt == ticket.row.updatedAt
      ensures rows == if ok then old(rows)[id := Decided(ticket.row, ticket.status, ticket.team, now)] else old(rows)
      ensures ok ==> rows[id].updatedAt > old(rows)[id].updatedAt
    {
      if id !in rows || rows[id].updatedAt != ticket.row.updatedAt {
        return false;
      }
      rows := rows[id := Decided(ticket.row, ticket.status, ticket.team, now)];
      ok := true;
    }

    /** adminDecideTeamAgent up to the save. */
    method Check(id: string, status: Approval, team: string, seen: int, teams: seq<string>, statuses: seq<Status>)
      returns (ticket: Option<Ticket>)
      ensures ticket.Some? <==> && id in rows && id != ""
                                && MayDecide(rows[id], ClearedBy(rows[id], statuses, id), teams, status, team, seen)
      ensures ticket.Some? ==> ticket.value == Ticket(rows[id], status, team)
    {
      ticket := None;
      if status == Waiting || id !in rows || id == "" {
        return;
      }
      var e := rows[id];
      if e.updatedAt != seen {
        return;
      }
      if status == Approved {
        if !IsTeamID(team) {
          return;
        }
        var found := false;
        for i := 0 to |teams|
          invariant found <==> team in teams[..i]
        {
          if teams[i] == team {
            found := true;
          }
        }
        assert teams[..|teams|] == teams;
        if !found || (e.status == Approved && e.team != team) {
          return;
        }
        if e.status != Approved && e.team != "" {
          var cleared := false;
          for i := 0 to |statuses|
            invariant cleared <==> exists k :: 0 <= k < i && statuses[k].agentID == id && Cleared(e, Some(statuses[k].report), statuses[k].updatedAt)
          {
            if statuses[i].agentID == id && Cleared(e, Some(statuses[i].report), statuses[i].updatedAt) {
              cleared := true;
            }
          }
          if !cleared {
            return;
          }
        }
      }
      ticket := Some(Ticket(e, status, team));
    }
  }
}
