/**
 Which clients a node credential may serve, read from its groups
 (agentNetworkScope and agentResourceScope in api/network_access.go).

 The loops return on the first group that clashes with what they have seen; the
 declarative rule below only looks at the set of groups.
 */
module NodeScope {
  import opened Finance
  import opened Text

  const TEAM := "team:"
  const DEDICATED := "access:dedicated-only"
  const RESOURCE := "resource:"
  const ALLOW_FREE := "custom:allow-free"

  /** "" in `team` means a public node; `resource` is "team" exactly for a team node. */
  datatype Scope = Scope(resource: string, team: string, allowFree: bool)

  predicate IsTeamChar(c: char) {
    'a' <= c <= 'z' || '0' <= c <= '9'
  }

  /** networkTeamIDPattern: one letter or digit, then up to 62 letters, digits or hyphens. */
  predicate IsTeamID(s: string) {
    1 <= |s| <= 63 && IsTeamChar(s[0]) && forall i :: 0 < i < |s| ==> IsTeamChar(s[i]) || s[i] == '-'
  }

  predicate IsResource(tier: string) {
    tier in ["shared", "free", "plus", "pro", "custom"]
  }

  /** A reserved marker that is not a node scope, or is spelled in the wrong case. */
  predicate Malformed(g: string) {
    HasPrefix(Lower(g), "team-admin:")
    || (HasPrefix(Lower(g), TEAM) && !HasPrefix(g, TEAM))
    || (Lower(g) == DEDICATED && g != DEDICATED)
  }

  ghost function Markers(groups: seq<string>): set<string> {
    set g | g in groups :: Trim(g)
  }

  /** The declarative rule for the network scope. */
  ghost predicate NetworkValid(marks: set<string>) {
    && (forall g :: g in marks ==> !Malformed(g))
    && (forall g :: g in marks && HasPrefix(g, TEAM) ==> IsTeamID(TrimPrefix(g, TEAM)))
    && (forall g, h :: g in marks && h in marks && HasPrefix(g, TEAM) && HasPrefix(h, TEAM) ==> g == h)
    && (DEDICATED in marks ==> exists g :: g in marks && HasPrefix(g, TEAM))
  }

  ghost predicate Serves(marks: set<string>, team: string) {
    if team == "" then forall g :: g in marks ==> !HasPrefix(g, TEAM) else TEAM + team in marks
  }

  /** The declarative rule for the resource scope. */
  ghost predicate ResourceValid(marks: set<string>) {
    && NetworkValid(marks)
    && (forall g :: g in marks && HasPrefix(g, RESOURCE) ==> IsResource(TrimPrefix(g, RESOURCE)))
    && (forall g, h :: g in marks && h in marks && HasPrefix(g, RESOURCE) && HasPrefix(h, RESOURCE) ==> g == h)
    && (forall g, h :: g in marks && h in marks && HasPrefix(g, TEAM) ==> !HasPrefix(h, RESOURCE))
  }

  ghost predicate Pools(marks: set<string>, team: string, tier: string) {
    if team != "" then tier == "team"
    else if tier == "shared" then forall g :: g in marks && HasPrefix(g, RESOURCE) ==> g == RESOURCE + tier
    else RESOURCE + tier in marks && IsResource(tier)
  }

  /** The scope of a credential, as a specification; None when it is refused. */
  ghost predicate Grants(groups: seq<string>, r: Option<Scope>) {
    match r
    case None => !ResourceValid(Markers(groups))
    case Some(scope) =>
      && ResourceValid(Markers(groups)) && Serves(Markers(groups), scope.team)
      && Pools(Markers(groups), scope.team, scope.resource) && scope.allowFree == (ALLOW_FREE in groups)
  }

  lemma MarkersGrow(groups: seq<string>, i: nat)
    requires i < |groups|
    ensures Markers(groups[..i + 1]) == Markers(groups[..i]) + {Trim(groups[i])}
  {
    assert groups[..i + 1] == groups[..i] + [groups[i]];
    forall g | g in Markers(groups[..i]) + {Trim(groups[i])} ensures g in Markers(groups[..i + 1]) {
      if g == Trim(groups[i]) {
        assert groups[i] in groups[..i + 1];
      } else {
        var h :| h in groups[..i] && Trim(h) == g;
        assert h in groups[..i + 1];
      }
    }
  }

  /** agentNetworkScope. A refused credential never carries a team. */
  method AgentNetworkScope(groups: seq<string>) returns (team: string, valid: bool)
    ensures valid <==> NetworkValid(Markers(groups))
    ensures valid ==> Serves(Markers(groups), team)
    ensures !valid ==> team == ""
  {
    var dedicated := false;
    team := "";
    for i := 0 to |groups|
      invariant forall g :: g in Markers(groups[..i]) ==> !Malformed(g)
      invariant dedicated <==> DEDICATED in Markers(groups[..i])
      invariant team != "" ==> IsTeamID(team) && TEAM + team in Markers(groups[..i])
      invariant forall g :: g in Markers(groups[..i]) && HasPrefix(g, TEAM) ==> team != "" && g == TEAM + team
    {
      MarkersGrow(groups, i);
      var g := Trim(groups[i]);
      Included(groups, i);
      var lower := Lower(g);
      if HasPrefix(lower, "team-admin:") || (HasPrefix(lower, TEAM) && !HasPrefix(g, TEAM)) || (lower == DEDICATED && g != lower) {
        return "", false;
      }
      if g == DEDICATED {
        dedicated := true;
      }
      if HasPrefix(g, TEAM) {
        var id := TrimPrefix(g, TEAM);
        assert g == TEAM + id;
        if !IsTeamID(id) {
          return "", false;
        }
        if team != "" && team != id {
          assert TEAM + team in Markers(groups[..i]) && HasPrefix(TEAM + team, TEAM) && TEAM + team != g;
          PrefixIncluded(groups, i);
          return "", false;
        }
        team := id;
      }
    }
    assert groups[..|groups|] == groups;
    valid := !dedicated || team != "";
    if team != "" {
      assert HasPrefix(TEAM + team, TEAM);
    }
  }

  lemma Included(groups: seq<string>, i: nat)
    requires i < |groups|
    ensures Trim(groups[i]) in Markers(groups)
  {
  }

  lemma PrefixIncluded(groups: seq<string>, i: nat)
    requires i <= |groups|
    ensures Markers(groups[..i]) <= Markers(groups)
  {
  }

  ghost predicate OnePool(marks: set<string>) {
    && (forall g :: g in marks && HasPrefix(g, RESOURCE) ==> IsResource(TrimPrefix(g, RESOURCE)))
    && (forall g, h :: g in marks && h in marks && HasPrefix(g, RESOURCE) && HasPrefix(h, RESOURCE) ==> g == h)
  }

  ghost predicate NoPool(marks: set<string>) {
    forall g :: g in marks ==> !HasPrefix(g, RESOURCE)
  }

  /** The second loop of agentResourceScope, entered with the team found by the first. */
  method ResourceMarker(groups: seq<string>, team: string) returns (r: Option<string>)
    ensures r.Some? <==> OnePool(Markers(groups)) && (team != "" ==> NoPool(Markers(groups)))
    ensures r.Some? ==> Pools(Markers(groups), team, r.value)
  {
    var seen, tier := "", "shared";
    if team != "" {
      seen, tier := "team", "team";
    }
    for i := 0 to |groups|
      invariant team != "" ==> seen == "team" && tier == "team" && NoPool(Markers(groups[..i]))
      invariant team == "" && seen == "" ==> tier == "shared" && NoPool(Markers(groups[..i]))
      invariant team == "" && seen != "" ==> tier == seen && IsResource(seen) && RESOURCE + seen in Markers(groups[..i])
      invariant team == "" ==> forall g :: g in Markers(groups[..i]) && HasPrefix(g, RESOURCE) ==> g == RESOURCE + seen
    {
      MarkersGrow(groups, i);
      Included(groups, i);
      var g := Trim(groups[i]);
      if !HasPrefix(g, RESOURCE) {
        continue;
      }
      var c := TrimPrefix(g, RESOURCE);
      assert g == RESOURCE + c;
      if c != "shared" && c != "free" && c != "plus" && c != "pro" && c != "custom" {
        return None;
      }
      if seen != "" && seen != c {
        PrefixIncluded(groups, i);
        if team == "" {
          assert RESOURCE + seen in Markers(groups) && HasPrefix(RESOURCE + seen, RESOURCE) && RESOURCE + seen != g;
        }
        return None;
      }
      seen, tier := c, c;
    }
    assert groups[..|groups|] == groups;
    r := Some(tier);
  }

  lemma ResourceValidSplits(marks: set<string>, team: string)
    requires NetworkValid(marks) && Serves(marks, team)
    ensures ResourceValid(marks) <==> OnePool(marks) && (team != "" ==> NoPool(marks))
  {
    if team != "" {
      assert HasPrefix(TEAM + team, TEAM);
    }
  }

  /** agentResourceScope. */
  method AgentResourceScope(groups: seq<string>) returns (r: Option<Scope>)
    ensures Grants(groups, r)
  {
    var allowFree := false;
    for i := 0 to |groups|
      invariant allowFree <==> ALLOW_FREE in groups[..i]
    {
      if groups[i] == ALLOW_FREE {
        allowFree := true;
      }
    }
    assert groups[..|groups|] == groups;
    var team, valid := AgentNetworkScope(groups);
    if !valid {
      return None;
    }
    ResourceValidSplits(Markers(groups), team);
    var tier := ResourceMarker(groups, team);
    r := if tier.Some? then Some(Scope(tier.value, team, allowFree)) else None;
  }

  /** The rule determines the scope. */
  lemma ScopeIsUnique(groups: seq<string>, r: Option<Scope>, q: Option<Scope>)
    requires Grants(groups, r) && Grants(groups, q)
    ensures r == q
  {
    if r.Some? {
      var marks := Markers(groups);
      TeamIsUnique(marks, r.value.team, q.value.team);
      if r.value.team == "" && r.value.resource != q.value.resource {
        var a, b := RESOURCE + r.value.resource, RESOURCE + q.value.resource;
        assert a[|RESOURCE|..] == r.value.resource && b[|RESOURCE|..] == q.value.resource;
        assert HasPrefix(a, RESOURCE) && HasPrefix(b, RESOURCE);
      }
    }
  }

  lemma TeamIsUnique(marks: set<string>, s: string, t: string)
    requires NetworkValid(marks) && Serves(marks, s) && Serves(marks, t)
    ensures s == t
  {
    assert HasPrefix(TEAM + s, TEAM) && HasPrefix(TEAM + t, TEAM);
    assert (TEAM + s)[|TEAM|..] == s && (TEAM + t)[|TEAM|..] == t;
  }

  lemma MarkersMonotone(groups: seq<string>, other: seq<string>)
    requires forall g :: g in groups ==> g in other
    ensures Markers(groups) <= Markers(other)
  {
  }

  /** Reordering or repeating groups never changes what a credential is granted. */
  lemma ScopeIgnoresOrderAndRepetition(groups: seq<string>, other: seq<string>, r: Option<Scope>)
    requires forall g :: g in groups <==> g in other
    ensures Grants(groups, r) <==> Grants(other, r)
  {
    MarkersMonotone(groups, other);
    MarkersMonotone(other, groups);
    assert Markers(groups) == Markers(other);
  }

  /** Class, team and validity depend only on the set of trimmed groups; the free-access
      flag alone is compared without trimming. */
  lemma ScopeDependsOnMarkers(groups: seq<string>, other: seq<string>, r: Option<Scope>, q: Option<Scope>)
    requires Markers(groups) == Markers(other) && Grants(groups, r) && Grants(other, q)
    ensures r.Some? == q.Some?
    ensures r.Some? ==> r.value.resource == q.value.resource && r.value.team == q.value.team
    ensures r.Some? ==> (r == q <==> (ALLOW_FREE in groups <==> ALLOW_FREE in other))
  {
    if r.Some? {
      var p := Some(q.value.(allowFree := r.value.allowFree));
      assert Grants(groups, p);
      ScopeIsUnique(groups, r, p);
    }
  }

  /** A granted credential is for exactly one of a team and a public pool. */
  lemma TeamOrPool(groups: seq<string>, scope: Scope)
    requires Grants(groups, Some(scope))
    ensures scope.resource == "team" <==> scope.team != ""
    ensures scope.resource == "team" || IsResource(scope.resource)
    ensures DEDICATED in groups ==> scope.team != ""
    ensures scope.team != "" ==> IsTeamID(scope.team)
  {
    if DEDICATED in groups {
      assert Trimmed(DEDICATED);
      assert Trim(DEDICATED) == DEDICATED;
      assert DEDICATED in Markers(groups);
    }
    if scope.team != "" {
      assert HasPrefix(TEAM + scope.team, TEAM);
      assert TrimPrefix(TEAM + scope.team, TEAM) == scope.team;
    }
  }

  // ----- the scope in full ------------------------------------------------------------------------

  /** A lower-case ASCII letter or a digit, by code point. */
  ghost predicate IsWordChar(c: char) {
    97 <= c as int < 123 || 48 <= c as int < 58
  }

  ghost predicate IsTeamName(s: string) {
    0 < |s| < 64 && s[0] != '-' && forall i :: 0 <= i < |s| ==> IsWordChar(s[i]) || s[i] == '-'
  }

  lemma TeamIDExactly(s: string)
    ensures IsTeamID(s) <==> IsTeamName(s)
  {
    assert forall c :: IsTeamChar(c) <==> IsWordChar(c);
  }

  lemma LowerPrefix(g: string, p: string)
    requires p <= g && Lower(p) == p
    ensures p <= Lower(g)
  {
    assert forall i :: 0 <= i < |p| ==> p[i] == Lower(p)[i] == Lower(g)[i];
  }

  /** A marker that speaks about teams in some spelling. */
  ghost predicate TeamTalk(g: string) {
    "team:" <= Lower(g) || Lower(g) == "access:dedicated-only"
  }

  /** The markers of a public node of class `pool`. */
  ghost predicate PublicMarks(marks: set<string>, pool: string) {
    && pool in {"shared", "free", "plus", "pro", "custom"} && (pool == "shared" || "resource:" + pool in marks)
    && forall g :: g in marks ==> !("team-admin:" <= Lower(g)) && !TeamTalk(g) && ("resource:" <= g ==> g == "resource:" + pool)
  }

  /** The markers of a node of `team`. */
  ghost predicate TeamMarks(marks: set<string>, team: string) {
    && IsTeamName(team) && "team:" + team in marks
    && forall g :: g in marks ==>
                     && !("team-admin:" <= Lower(g)) && !("resource:" <= g)
                     && (TeamTalk(g) ==> g == "team:" + team || g == "access:dedicated-only")
  }

  lemma TeamTalkExactly(g: string)
    requires !Malformed(g)
    ensures TeamTalk(g) <==> "team:" <= g || g == "access:dedicated-only"
  {
    assert Lower("team:") == "team:" && Lower("access:dedicated-only") == "access:dedicated-only";
    if "team:" <= g { LowerPrefix(g, "team:"); }
  }

  lemma AdminIsMalformed(g: string)
    ensures "team-admin:" <= Lower(g) ==> Malformed(g)
    ensures Malformed(g) ==> "team-admin:" <= Lower(g) || (TeamTalk(g) && !("team:" <= g) && g != "access:dedicated-only")
  {
    var l := Lower(g);
    if "team:" <= l { assert l[0] == 't'; }
    if "team:" <= g { assert g[0] == 't'; }
  }

  lemma MarkersSpelled(marks: set<string>)
    ensures (forall g :: g in marks ==> !Malformed(g)) <==>
            forall g :: g in marks ==> !("team-admin:" <= Lower(g)) && (TeamTalk(g) ==> "team:" <= g || g == "access:dedicated-only")
  {
    forall g | g in marks
      ensures !Malformed(g) <==> !("team-admin:" <= Lower(g)) && (TeamTalk(g) ==> "team:" <= g || g == "access:dedicated-only")
    {
      AdminIsMalformed(g);
      if !Malformed(g) { TeamTalkExactly(g); }
    }
  }

  lemma PublicIf(marks: set<string>, pool: string)
    requires PublicMarks(marks, pool)
    ensures ResourceValid(marks) && Serves(marks, "") && Pools(marks, "", pool)
  {
    MarkersSpelled(marks);
    forall g | g in marks ensures !HasPrefix(g, TEAM) && g != DEDICATED {
      if HasPrefix(g, TEAM) { LowerPrefix(g, "team:"); }
      assert Lower("access:dedicated-only") == "access:dedicated-only";
    }
    forall g | g in marks && HasPrefix(g, RESOURCE) ensures IsResource(TrimPrefix(g, RESOURCE)) {
      assert TrimPrefix(RESOURCE + pool, RESOURCE) == pool;
    }
  }

  lemma PublicOnlyIf(marks: set<string>, pool: string)
    requires ResourceValid(marks) && Serves(marks, "") && Pools(marks, "", pool)
    ensures PublicMarks(marks, pool)
  {
    MarkersSpelled(marks);
    forall g | g in marks ensures !TeamTalk(g) && ("resource:" <= g ==> g == "resource:" + pool) {
      TeamTalkExactly(g);
      if "resource:" <= g && pool != "shared" { assert HasPrefix("resource:" + pool, RESOURCE); }
    }
  }

  lemma PublicExactly(marks: set<string>, pool: string)
    ensures ResourceValid(marks) && Serves(marks, "") && Pools(marks, "", pool) <==> PublicMarks(marks, pool)
  {
    if PublicMarks(marks, pool) { PublicIf(marks, pool); } else if ResourceValid(marks) && Serves(marks, "") && Pools(marks, "", pool) { PublicOnlyIf(marks, pool); }
  }

  lemma TeamExactly(marks: set<string>, team: string, pool: string)
    requires team != ""
    ensures ResourceValid(marks) && Serves(marks, team) && Pools(marks, team, pool) <==> TeamMarks(marks, team) && pool == "team"
  {
    MarkersSpelled(marks);
    TeamIDExactly(team);
    var mine := "team:" + team;
    assert HasPrefix(mine, TEAM) && TrimPrefix(mine, TEAM) == team;
    if TeamMarks(marks, team) {
      forall g | g in marks && HasPrefix(g, TEAM) ensures g == mine {
        LowerPrefix(g, "team:");
        assert g[0] == 't';
      }
    }
  }

  /** A credential has this scope exactly when its trimmed groups say so, and say nothing else:
      for a public pool no marker about teams in any spelling and no other pool; for a team its
      well-formed marker, no other team, no pool and no misspelled marker. */
  lemma ScopeExactly(groups: seq<string>, scope: Scope)
    ensures Grants(groups, Some(scope)) <==>
            && scope.allowFree == ("custom:allow-free" in groups)
            && if scope.team == "" then PublicMarks(Markers(groups), scope.resource)
               else TeamMarks(Markers(groups), scope.team) && scope.resource == "team"
  {
    if scope.team == "" {
      PublicExactly(Markers(groups), scope.resource);
    } else {
      TeamExactly(Markers(groups), scope.team, scope.resource);
    }
  }

  lemma ScopeExists(groups: seq<string>) returns (scope: Scope)
    requires ResourceValid(Markers(groups))
    ensures Grants(groups, Some(scope))
  {
    var marks, free := Markers(groups), ALLOW_FREE in groups;
    if g :| g in marks && HasPrefix(g, TEAM) {
      assert g == TEAM + TrimPrefix(g, TEAM);
      scope := Scope("team", TrimPrefix(g, TEAM), free);
    } else if g :| g in marks && HasPrefix(g, RESOURCE) {
      assert g == RESOURCE + TrimPrefix(g, RESOURCE);
      scope := Scope(TrimPrefix(g, RESOURCE), "", free);
    } else {
      scope := Scope("shared", "", free);
    }
  }

  /** It is refused exactly when it has no scope at all. */
  lemma RefusedExactly(groups: seq<string>)
    ensures Grants(groups, None) <==> forall scope :: !Grants(groups, Some(scope))
  {
    if ResourceValid(Markers(groups)) { var scope := ScopeExists(groups); }
  }
}
