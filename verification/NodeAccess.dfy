/**
 Who may use a node, decided twice: by the client list a node is handed
 (api/agent_server.go) and by the pool listing a user is shown
 (api/agent_routes.go). The two are written separately; this module relates them.
 */
module NodeAccess {
  import opened Finance
  import opened Text
  import opened NodeScope

  const FREE_QUOTA := "segment:quota:free-3gb"
  const PLUS_QUOTA := "segment:quota:plus-20gb"
  const UNLIMITED_QUOTA := "segment:quota:unlimited-beta"
  const SANDBOX := "sandbox@svc.plus"

  /** networkAccess: a personal account, or one that belongs to a team. */
  datatype Access = Access(dedicated: bool, team: string, allowed: bool)

  /** A temporary Free grant for one bound custom node. */
  datatype FreeGrant = FreeGrant(active: bool, expiresAt: int)

  /** What both decisions read about an account. `grants` is keyed by node id,
      `blocked` covers both blocklists and `exhausted` is the quota check. `union`
      says that the account is on the public e-mail extension of the node in
      question, which both decisions obtain from one function. */
  datatype User = User(
    email: string, groups: seq<string>, package: string, access: Access, grants: map<string, FreeGrant>,
    active: bool, archived: bool, blocked: bool, exhausted: bool, verified: bool, union: bool, proxyUUID: string)

  /** A node as both decisions see it: its parsed groups, its binding and its e-mail list. */
  datatype Node = Node(network: Option<string>, scope: Option<Scope>, nodeID: string, emails: seq<string>)

  /** `expiresAt` is set on clients admitted by a temporary grant alone. */
  datatype Client = Client(id: string, email: string, expiresAt: Option<int>)

  /** `node` carries what the scope parsers make of `groups`. */
  ghost predicate ParsedFrom(node: Node, groups: seq<string>) {
    && Grants(groups, node.scope)
    && (node.network.Some? <==> NetworkValid(Markers(groups)))
    && (node.network.Some? ==> Serves(Markers(groups), node.network.value))
  }

  /** Parsing gives a node whose scope and network agree on the team. */
  lemma ParsedTeam(node: Node, groups: seq<string>)
    requires ParsedFrom(node, groups) && node.scope.Some?
    ensures node.network == Some(node.scope.value.team)
    ensures node.scope.value.resource == "team" <==> node.scope.value.team != ""
    ensures node.scope.value.resource == "team" || IsResource(node.scope.value.resource)
    ensures node.scope.value.team != "" ==> IsTeamID(node.scope.value.team)
  {
    TeamIsUnique(Markers(groups), node.network.value, node.scope.value.team);
    TeamOrPool(groups, node.scope.value);
  }

  // ----- shared predicates of the source ------------------------------------------------

  predicate IsQuotaGroup(g: string) {
    g in [UNLIMITED_QUOTA, PLUS_QUOTA, FREE_QUOTA]
  }

  function QuotaGroup(groups: seq<string>): string {
    if groups == [] then "" else if IsQuotaGroup(Trim(groups[0])) then Trim(groups[0]) else QuotaGroup(groups[1..])
  }

  /** MonthlyQuotaGroup: the first recognised group wins. */
  method MonthlyQuotaGroup(groups: seq<string>) returns (r: string)
    ensures r == QuotaGroup(groups)
    ensures r == "" <==> forall g :: g in groups ==> !IsQuotaGroup(Trim(g))
  {
    var known := [UNLIMITED_QUOTA, PLUS_QUOTA, FREE_QUOTA];
    for i := 0 to |groups|
      invariant forall k :: 0 <= k < i ==> !IsQuotaGroup(Trim(groups[k]))
      invariant QuotaGroup(groups) == QuotaGroup(groups[i..])
    {
      assert groups[i..][0] == groups[i] && groups[i..][1..] == groups[i + 1..];
      for k := 0 to |known|
        invariant forall m :: 0 <= m < k ==> Trim(groups[i]) != known[m]
      {
        if Trim(groups[i]) == known[k] {
          assert groups[i] in groups;
          return known[k];
        }
      }
    }
    r := "";
  }

  /** effectiveAgentResourceClass. */
  function Tier(u: User): string {
    if u.access.dedicated then "team"
    else if QuotaGroup(u.groups) == PLUS_QUOTA || QuotaGroup(u.groups) == UNLIMITED_QUOTA
    then (if EqualFold(Trim(u.package), "pro") then "pro" else "plus")
    else "free"
  }

  function Rank(tier: string): nat {
    if tier == "free" then 1 else if tier == "plus" then 2 else if tier == "pro" then 3 else 0
  }

  /** publicAgentResourceClassAllows: higher tiers inherit the lower pools. */
  predicate PoolAllows(pool: string, tier: string) {
    Rank(tier) != 0 && (pool == "shared" || (Rank(pool) != 0 && Rank(tier) >= Rank(pool)))
  }

  predicate IsPublic(pool: string) {
    pool in ["shared", "free", "plus", "pro"]
  }

  /** networkScopeAllows. */
  predicate NetworkAllows(u: User, node: Node) {
    && node.network.Some? && u.access.allowed
    && (if u.access.dedicated then u.access.team != "" && node.network.value == u.access.team else node.network.value == "")
  }

  /** A list entry that names the account's address. */
  predicate Names(entry: string, email: string) {
    Trim(entry) != "" && EqualFold(Trim(entry), Trim(email))
  }

  ghost predicate EmailListed(emails: seq<string>, email: string) {
    exists i :: 0 <= i < |emails| && Names(emails[i], email)
  }

  /** agentEmailAllowed: an empty list allows everyone. */
  method AgentEmailAllowed(emails: seq<string>, email: string) returns (r: bool)
    ensures r <==> emails == [] || EmailListed(emails, email)
  {
    if |emails| == 0 {
      return true;
    }
    for i := 0 to |emails|
      invariant forall k :: 0 <= k < i ==> !Names(emails[k], email)
    {
      var named := Names(emails[i], email);
      if named {
        return true;
      }
    }
    r := false;
  }

  /** ValidAgentFreeGrantNodeID. */
  predicate IsNodeID(id: string) {
    var n := Trim(id);
    n != "" && n != "*" && |n| <= 128 && forall i :: 0 <= i < |n| ==> n[i] !in ": /\t\r\n"
  }

  /** Grants are only ever stored under normalized node ids. */
  ghost predicate GrantsNormal(u: User) {
    forall id :: id in u.grants ==> Trimmed(id) && IsNodeID(id)
  }

  /** ActiveAgentFreeGrant. */
  predicate HasGrant(u: User, nodeID: string, now: int) {
    && u.active && !u.archived && IsNodeID(nodeID)
    && nodeID in u.grants && u.grants[nodeID].active && now < u.grants[nodeID].expiresAt
  }

  // ----- authorization ---------------------------------------------------------------------

  /** agentResourceScopeAllowsUser. */
  predicate ScopeAllows(scope: Scope, u: User) {
    if scope.resource == "team" then u.access.dedicated && u.access.team == scope.team
    else if u.access.dedicated then false
    else if scope.resource == "custom" then Tier(u) == "plus" || Tier(u) == "pro" || (scope.allowFree && Tier(u) == "free")
    else PoolAllows(scope.resource, Tier(u))
  }

  /** The scope, class and public e-mail gates of authorizedAgentClients. */
  predicate BaseGate(u: User, node: Node) {
    && node.scope.Some? && NetworkAllows(u, node)
    && (ScopeAllows(node.scope.value, u) || (IsPublic(node.scope.value.resource) && !u.access.dedicated && u.union))
  }

  /** The gates of authorizedCustomTempFreeClients. */
  predicate GrantGate(u: User, node: Node, now: int) {
    && Trim(node.nodeID) != "" && HasGrant(u, Trim(node.nodeID), now)
    && NetworkAllows(u, node) && !u.access.dedicated && Tier(u) == "free"
  }

  /** A custom node must send between one and 256 addresses. */
  predicate ListAccepted(emails: seq<string>) {
    0 < |emails| <= 256
  }

  /** Every scope, class, e-mail and grant gate of authorizedAgentClientsForIdentity. */
  ghost predicate Authorized(u: User, node: Node, now: int) {
    && node.scope.Some?
    && (if node.scope.value.resource != "custom" then BaseGate(u, node)
        else ListAccepted(node.emails) && ((BaseGate(u, node) && EmailListed(node.emails, u.email)) || GrantGate(u, node, now)))
  }

  /** The gates that do not depend on the node. */
  predicate InGoodStanding(u: User) {
    && u.active && !u.blocked && !u.exhausted
    && (u.verified || Lower(Trim(u.email)) == SANDBOX) && Trim(u.proxyUUID) != ""
  }

  // ----- discovery -------------------------------------------------------------------------

  predicate TemporarilyFree(u: User, node: Node, now: int) {
    && node.scope.Some? && node.scope.value.resource == "custom" && !u.access.dedicated && Tier(u) == "free"
    && node.nodeID != "" && |node.emails| > 0 && HasGrant(u, node.nodeID, now)
  }

  predicate ClassAllowed(u: User, node: Node, now: int) {
    var pool := if node.scope.Some? then node.scope.value.resource else "";
    if pool == "custom"
    then |node.emails| > 0 && (Tier(u) == "plus" || Tier(u) == "pro" || (node.scope.value.allowFree && Tier(u) == "free")
                               || TemporarilyFree(u, node, now))
    else if pool == "team"
    then Tier(u) == "team" && Trim(u.access.team) != "" && Trim(node.scope.value.team) == Trim(u.access.team)
    else PoolAllows(pool, Tier(u)) || (IsPublic(pool) && !u.access.dedicated && u.union)
  }

  /** The scope, class, e-mail and grant gates of regionalPoolsForUser. */
  ghost predicate Discovered(u: User, node: Node, now: int) {
    && (node.scope.Some? && node.scope.value.resource == "custom" ==>
          node.emails == [] || EmailListed(node.emails, u.email) || TemporarilyFree(u, node, now))
    && NetworkAllows(u, node) && ClassAllowed(u, node, now)
  }

  // ----- agreement -------------------------------------------------------------------------

  lemma IsTeamIDTrimmed(id: string)
    requires IsTeamID(id)
    ensures Trim(id) == id
  {
    assert IsTeamChar(id[0]) && (IsTeamChar(id[|id| - 1]) || id[|id| - 1] == '-');
    assert Trimmed(id);
  }

  /** Public and team nodes: the two implementations always agree. */
  lemma PublicAndTeamAgree(u: User, node: Node, groups: seq<string>, now: int)
    requires ParsedFrom(node, groups)
    requires node.scope.Some? ==> node.scope.value.resource != "custom"
    ensures Authorized(u, node, now) <==> Discovered(u, node, now)
  {
    if node.scope.Some? {
      ParsedTeam(node, groups);
      if node.scope.value.team != "" {
        IsTeamIDTrimmed(node.scope.value.team);
      }
    }
  }

  lemma TrimIdempotent(s: string)
    ensures Trim(Trim(s)) == Trim(s) && (Trimmed(s) <==> Trim(s) == s)
  {
  }

  /** What both decisions ask of an account for a custom node. */
  predicate CustomTier(u: User, node: Node)
    requires node.scope.Some?
  {
    NetworkAllows(u, node) && (Tier(u) == "plus" || Tier(u) == "pro" || (node.scope.value.allowFree && Tier(u) == "free"))
  }

  predicate FreeGuest(u: User, node: Node) {
    NetworkAllows(u, node) && !u.access.dedicated && Tier(u) == "free"
  }

  /** Custom nodes: the gates differ only in the cap on the list and in how the
      node id is read. */
  lemma CustomAuthorized(u: User, node: Node, groups: seq<string>, now: int)
    requires ParsedFrom(node, groups) && node.scope.Some? && node.scope.value.resource == "custom" && GrantsNormal(u)
    ensures Authorized(u, node, now) <==>
            && ListAccepted(node.emails)
            && ((CustomTier(u, node) && EmailListed(node.emails, u.email)) || (FreeGuest(u, node) && HasGrant(u, Trim(node.nodeID), now)))
  {
    ParsedTeam(node, groups);
  }

  lemma CustomDiscovered(u: User, node: Node, now: int)
    requires node.scope.Some? && node.scope.value.resource == "custom"
    ensures Discovered(u, node, now) <==>
            && node.emails != []
            && ((CustomTier(u, node) && EmailListed(node.emails, u.email)) || (FreeGuest(u, node) && HasGrant(u, node.nodeID, now)))
  {
  }

  lemma CustomGates(u: User, node: Node, groups: seq<string>, now: int)
    requires ParsedFrom(node, groups) && node.scope.Some? && node.scope.value.resource == "custom" && GrantsNormal(u)
    ensures var tier := CustomTier(u, node) && EmailListed(node.emails, u.email);
            && (Authorized(u, node, now) <==> ListAccepted(node.emails) && (tier || (FreeGuest(u, node) && HasGrant(u, Trim(node.nodeID), now))))
            && (Discovered(u, node, now) <==> node.emails != [] && (tier || (FreeGuest(u, node) && HasGrant(u, node.nodeID, now))))
  {
    CustomAuthorized(u, node, groups, now);
    CustomDiscovered(u, node, now);
  }

  /** A grant is never found under an untrimmed node id, and is found under the trimmed
      one exactly when the untrimmed id is itself a node id. */
  lemma GrantKeys(u: User, nodeID: string, now: int)
    requires GrantsNormal(u)
    ensures HasGrant(u, nodeID, now) ==> Trimmed(nodeID)
    ensures IsNodeID(Trim(nodeID)) <==> IsNodeID(nodeID)
  {
    TrimIdempotent(nodeID);
  }

  /** The lists and bindings on which a custom node's two decisions coincide. */
  ghost predicate Coherent(nodeID: string, emails: seq<string>) {
    || emails == []
    || (|emails| <= 256 && (Trimmed(nodeID) || !IsNodeID(nodeID)))
    || (|emails| > 256 && !(Trimmed(nodeID) && IsNodeID(nodeID)) && forall i :: 0 <= i < |emails| ==> Trim(emails[i]) == "")
  }

  lemma CustomAgree(u: User, node: Node, groups: seq<string>, now: int)
    requires ParsedFrom(node, groups) && node.scope.Some? && node.scope.value.resource == "custom" && GrantsNormal(u)
    requires Coherent(node.nodeID, node.emails)
    ensures Authorized(u, node, now) <==> Discovered(u, node, now)
  {
    CustomGates(u, node, groups, now);
    GrantKeys(u, node.nodeID, now);
    TrimIdempotent(node.nodeID);
  }

  /** A paying personal account with the given address, and one that holds a grant. */
  function Subscriber(email: string): User {
    User(email, [PLUS_QUOTA], "", Access(false, "", true), map[], true, false, false, false, true, false, "id")
  }

  function Guest(nodeID: string): User {
    User("", [], "", Access(false, "", true), map[nodeID := FreeGrant(true, 1)], true, false, false, false, true, false, "id")
  }

  /** Outside `Coherent` some account is shown a node that will refuse it, or refused
      sight of a node that would admit it. */
  lemma IncoherentDisagrees(node: Node, groups: seq<string>) returns (u: User)
    requires ParsedFrom(node, groups) && node.scope.Some? && node.scope.value.resource == "custom"
    requires !Coherent(node.nodeID, node.emails)
    ensures GrantsNormal(u) && Authorized(u, node, 0) != Discovered(u, node, 0)
  {
    ParsedTeam(node, groups);
    TrimIdempotent(node.nodeID);
    var id := Trim(node.nodeID);
    if |node.emails| > 256 && exists i :: 0 <= i < |node.emails| && Trim(node.emails[i]) != "" {
      var i :| 0 <= i < |node.emails| && Trim(node.emails[i]) != "";
      u := Subscriber(node.emails[i]);
      assert Trimmed(PLUS_QUOTA);
      assert QuotaGroup(u.groups) == PLUS_QUOTA;
      assert EmailListed(node.emails, u.email);
    } else {
      u := Guest(id);
      assert QuotaGroup(u.groups) == "";
      assert HasGrant(u, id, 0);
    }
    CustomGates(u, node, groups, 0);
    GrantKeys(u, node.nodeID, 0);
  }

  /** Discovery and authorization agree for every account exactly on coherent nodes. */
  lemma AgreementIsExact(node: Node, groups: seq<string>)
    requires ParsedFrom(node, groups)
    ensures (forall u, now :: GrantsNormal(u) ==> (Authorized(u, node, now) <==> Discovered(u, node, now)))
            <==> (node.scope.Some? && node.scope.value.resource == "custom" ==> Coherent(node.nodeID, node.emails))
  {
    var custom := node.scope.Some? && node.scope.value.resource == "custom";
    if custom && !Coherent(node.nodeID, node.emails) {
      var u := IncoherentDisagrees(node, groups);
    } else {
      forall u, now | GrantsNormal(u) ensures Authorized(u, node, now) <==> Discovered(u, node, now) {
        if custom {
          CustomAgree(u, node, groups, now);
        } else {
          PublicAndTeamAgree(u, node, groups, now);
        }
      }
    }
  }

  // ----- the loops ---------------------------------------------------------------------------

  function ClientOf(u: User, expiresAt: Option<int>): Client {
    Client(Trim(u.proxyUUID), Lower(Trim(u.email)), expiresAt)
  }

  /** The body of the list loop in authorizedAgentClients. */
  method BaseClient(u: User, node: Node) returns (r: Option<Client>)
    requires node.scope.Some?
    ensures r == if BaseGate(u, node) && InGoodStanding(u) then Some(ClientOf(u, None)) else None
  {
    if !NetworkAllows(u, node) {
      return None;
    }
    var overridden := IsPublic(node.scope.value.resource) && !u.access.dedicated && u.union;
    if !ScopeAllows(node.scope.value, u) && !overridden {
      return None;
    }
    if !u.active || u.blocked || u.exhausted {
      return None;
    }
    var id := Trim(u.proxyUUID);
    if Lower(Trim(u.email)) == SANDBOX {
      return if id != "" then Some(ClientOf(u, None)) else None;
    }
    if !u.verified || id == "" {
      return None;
    }
    r := Some(ClientOf(u, None));
  }

  function BaseList(users: seq<User>, node: Node): seq<Client> {
    if users == [] then [] else
      BaseList(users[..|users| - 1], node)
      + (var u := users[|users| - 1]; if BaseGate(u, node) && InGoodStanding(u) then [ClientOf(u, None)] else [])
  }

  /** authorizedAgentClients, without the final sort by id. */
  method AuthorizedAgentClients(users: seq<User>, node: Node) returns (clients: Option<seq<Client>>)
    ensures clients == if node.scope.Some? && node.network.Some? then Some(BaseList(users, node)) else None
  {
    if node.network.None? || node.scope.None? {
      return None;
    }
    var out: seq<Client> := [];
    for i := 0 to |users|
      invariant out == BaseList(users[..i], node)
    {
      assert users[..i + 1][..i] == users[..i];
      var c := BaseClient(users[i], node);
      if c.Some? {
        out := out + [c.value];
      }
    }
    assert users[..|users|] == users;
    clients := Some(out);
  }

  ghost function Narrowed(clients: seq<Client>, emails: seq<string>): seq<Client> {
    if clients == [] then [] else
      Narrowed(clients[..|clients| - 1], emails)
      + (if EmailListed(emails, clients[|clients| - 1].email) then [clients[|clients| - 1]] else [])
  }

  /** The e-mail filter of authorizedAgentClientsForIdentity. */
  method NarrowClients(clients: seq<Client>, emails: seq<string>) returns (out: seq<Client>, ids: set<string>)
    requires emails != []
    ensures out == Narrowed(clients, emails)
    ensures ids == set c | c in out :: c.id
  {
    out, ids := [], {};
    for i := 0 to |clients|
      invariant out == Narrowed(clients[..i], emails)
      invariant ids == set c | c in out :: c.id
    {
      assert clients[..i + 1][..i] == clients[..i];
      var ok := AgentEmailAllowed(emails, clients[i].email);
      if ok {
        out, ids := out + [clients[i]], ids + {clients[i].id};
      }
    }
    assert clients[..|clients|] == clients;
  }

  /** An account admitted by its grant, and not already on the static list. */
  predicate Visits(u: User, node: Node, ids: set<string>, now: int) {
    && GrantGate(u, node, now) && !u.blocked && !u.exhausted && u.verified
    && Trim(u.proxyUUID) != "" && Trim(u.proxyUUID) !in ids
  }

  function Visitor(u: User, node: Node): Client
    requires Trim(node.nodeID) in u.grants
  {
    ClientOf(u, Some(u.grants[Trim(node.nodeID)].expiresAt))
  }

  function Visitors(users: seq<User>, node: Node, ids: set<string>, now: int): seq<Client> {
    if users == [] then [] else
      Visitors(users[..|users| - 1], node, ids, now)
      + (var u := users[|users| - 1]; if Visits(u, node, ids, now) then [Visitor(u, node)] else [])
  }

  /** authorizedCustomTempFreeClients. */
  method CustomTempFreeClients(users: seq<User>, node: Node, ids: set<string>, now: int) returns (out: seq<Client>)
    ensures out == Visitors(users, node, ids, now)
  {
    out := [];
    var nodeID := Trim(node.nodeID);
    if nodeID == "" || !IsNodeID(nodeID) {
      NoVisitors(users, node, ids, now);
      return;
    }
    for i := 0 to |users|
      invariant out == Visitors(users[..i], node, ids, now)
    {
      assert users[..i + 1][..i] == users[..i];
      var u := users[i];
      if !HasGrant(u, nodeID, now) || !u.active || u.archived || u.blocked {
        continue;
      }
      if !NetworkAllows(u, node) || u.access.dedicated || Tier(u) != "free" || u.exhausted || !u.verified {
        continue;
      }
      var id := Trim(u.proxyUUID);
      if id == "" || id in ids {
        continue;
      }
      out := out + [Visitor(u, node)];
    }
    assert users[..|users|] == users;
  }

  lemma {:induction false} NoVisitors(users: seq<User>, node: Node, ids: set<string>, now: int)
    requires Trim(node.nodeID) == "" || !IsNodeID(Trim(node.nodeID))
    ensures Visitors(users, node, ids, now) == []
  {
    if users != [] {
      NoVisitors(users[..|users| - 1], node, ids, now);
    }
  }

  function ClientIDs(clients: seq<Client>): set<string> {
    set c | c in clients :: c.id
  }

  ghost function IdentityList(users: seq<User>, node: Node, now: int): seq<Client>
    requires node.scope.Some?
  {
    var base := BaseList(users, node);
    if node.scope.value.resource != "custom" then base else
      var narrowed := Narrowed(base, node.emails);
      narrowed + Visitors(users, node, ClientIDs(narrowed), now)
  }

  /** authorizedAgentClientsForIdentity, without the final sort by id. */
  method AuthorizedForIdentity(users: seq<User>, node: Node, now: int) returns (clients: Option<seq<Client>>)
    ensures clients.Some? <==> && node.scope.Some? && node.network.Some?
                               && (node.scope.value.resource == "custom" ==> ListAccepted(node.emails))
    ensures clients.Some? ==> clients.value == IdentityList(users, node, now)
  {
    var base := AuthorizedAgentClients(users, node);
    if base.None? || node.scope.value.resource != "custom" {
      return base;
    }
    if !ListAccepted(node.emails) {
      return None;
    }
    var out, ids := NarrowClients(base.value, node.emails);
    if Trim(node.nodeID) != "" {
      var visitors := CustomTempFreeClients(users, node, ids, now);
      clients := Some(out + visitors);
    } else {
      NoVisitors(users, node, ids, now);
      clients := Some(out);
      assert out + [] == out;
    }
  }

  // ----- who is on the list ------------------------------------------------------------------

  lemma {:induction false} InBaseList(users: seq<User>, node: Node, c: Client)
    ensures c in BaseList(users, node) <==> exists u :: u in users && BaseGate(u, node) && InGoodStanding(u) && c == ClientOf(u, None)
  {
    if users != [] {
      var init, last := users[..|users| - 1], users[|users| - 1];
      assert users == init + [last];
      InBaseList(init, node, c);
    }
  }

  lemma {:induction false} InNarrowed(clients: seq<Client>, emails: seq<string>, c: Client)
    ensures c in Narrowed(clients, emails) <==> c in clients && EmailListed(emails, c.email)
  {
    if clients != [] {
      var init, last := clients[..|clients| - 1], clients[|clients| - 1];
      assert clients == init + [last];
      InNarrowed(init, emails, c);
    }
  }

  lemma {:induction false} InVisitors(users: seq<User>, node: Node, ids: set<string>, now: int, c: Client)
    ensures c in Visitors(users, node, ids, now) <==> exists u :: u in users && Visits(u, node, ids, now) && c == Visitor(u, node)
  {
    if users != [] {
      var init, last := users[..|users| - 1], users[|users| - 1];
      assert users == init + [last];
      InVisitors(init, node, ids, now, c);
    }
  }

  /** The list is matched against the normalized address, which names the same account. */
  lemma NormalizedEmail(emails: seq<string>, email: string)
    ensures EmailListed(emails, Lower(Trim(email))) <==> EmailListed(emails, email)
  {
    TrimIdempotent(email);
    TrimLowerCommute(Trim(email));
    LowerKeepsTrimmed(Trim(email));
    assert Lower(Trim(Lower(Trim(email)))) == Lower(Trim(email));
  }

  /** Admitted by class and, on a custom node, by address: no expiry. */
  ghost predicate Resident(u: User, node: Node) {
    && BaseGate(u, node) && InGoodStanding(u)
    && (node.scope.value.resource == "custom" ==> EmailListed(node.emails, u.email))
  }

  /** Admitted by a temporary grant. The sandbox account gets no exemption here. */
  predicate Guests(u: User, node: Node, now: int) {
    && node.scope.Some? && node.scope.value.resource == "custom" && GrantGate(u, node, now)
    && InGoodStanding(u) && u.verified
  }

  lemma ResidentsListed(users: seq<User>, node: Node, c: Client)
    requires node.scope.Some?
    ensures var base := BaseList(users, node);
            var fixed := if node.scope.value.resource != "custom" then base else Narrowed(base, node.emails);
            c in fixed <==> exists u :: u in users && Resident(u, node) && c == ClientOf(u, None)
  {
    InBaseList(users, node, c);
    InNarrowed(BaseList(users, node), node.emails, c);
    forall u ensures EmailListed(node.emails, ClientOf(u, None).email) <==> EmailListed(node.emails, u.email) {
      NormalizedEmail(node.emails, u.email);
    }
  }

  /** The static part of the list carries exactly the residents' ids. */
  lemma StaticIDs(users: seq<User>, node: Node, id: string)
    requires node.scope.Some? && node.scope.value.resource == "custom"
    ensures id in ClientIDs(Narrowed(BaseList(users, node), node.emails))
            <==> exists u :: u in users && Resident(u, node) && Trim(u.proxyUUID) == id
  {
    var fixed := Narrowed(BaseList(users, node), node.emails);
    if id in ClientIDs(fixed) {
      var c :| c in fixed && c.id == id;
      ResidentsListed(users, node, c);
    }
    if u :| u in users && Resident(u, node) && Trim(u.proxyUUID) == id {
      ResidentsListed(users, node, ClientOf(u, None));
      assert ClientOf(u, None).id == id;
    }
  }

  /** An account is on the node's list without an expiry exactly when it is a resident. */
  lemma ListedWithoutExpiry(users: seq<User>, node: Node, now: int, c: Client)
    requires node.scope.Some? && c.expiresAt == None
    ensures c in IdentityList(users, node, now) <==> exists u :: u in users && Resident(u, node) && c == ClientOf(u, None)
  {
    ResidentsListed(users, node, c);
    if node.scope.value.resource == "custom" {
      InVisitors(users, node, ClientIDs(Narrowed(BaseList(users, node), node.emails)), now, c);
    }
  }

  /** It is there with an expiry exactly when its grant admits it and no resident shares
      its id, and then the expiry is the grant's. */
  lemma ListedWithExpiry(users: seq<User>, node: Node, now: int, c: Client)
    requires node.scope.Some? && c.expiresAt.Some?
    ensures c in IdentityList(users, node, now) <==>
            && (exists u :: u in users && Guests(u, node, now) && c == Visitor(u, node))
            && (forall u :: u in users && Resident(u, node) ==> Trim(u.proxyUUID) != c.id)
  {
    ResidentsListed(users, node, c);
    if node.scope.value.resource == "custom" {
      var ids := ClientIDs(Narrowed(BaseList(users, node), node.emails));
      InVisitors(users, node, ids, now, c);
      StaticIDs(users, node, c.id);
      assert forall u :: Visits(u, node, ids, now) <==> Guests(u, node, now) && Trim(u.proxyUUID) !in ids;
    }
  }

  /** For a verified account in good standing, the two kinds of admission together are
      exactly the gates that discovery is compared with. */
  lemma AdmissionIsAuthorization(u: User, node: Node, now: int)
    requires node.scope.Some? && InGoodStanding(u) && u.verified
    requires node.scope.value.resource == "custom" ==> ListAccepted(node.emails)
    ensures Authorized(u, node, now) <==> Resident(u, node) || Guests(u, node, now)
  {
  }

  /** End to end: on a coherent node, the id of a verified account in good standing is in
      the client list exactly when the pool listing shows the account that node. */
  lemma ListedIffDiscovered(users: seq<User>, node: Node, groups: seq<string>, now: int, u: User)
    requires ParsedFrom(node, groups) && node.scope.Some? && u in users && InGoodStanding(u) && u.verified && GrantsNormal(u)
    requires node.scope.value.resource == "custom" ==> ListAccepted(node.emails) && Coherent(node.nodeID, node.emails)
    requires forall v :: v in users && Trim(v.proxyUUID) == Trim(u.proxyUUID) ==> v == u
    ensures Discovered(u, node, now) <==> Trim(u.proxyUUID) in ClientIDs(IdentityList(users, node, now))
  {
    var clients, id := IdentityList(users, node, now), Trim(u.proxyUUID);
    assert Authorized(u, node, now) <==> Discovered(u, node, now) by {
      if node.scope.value.resource == "custom" {
        CustomAgree(u, node, groups, now);
      } else {
        PublicAndTeamAgree(u, node, groups, now);
      }
    }
    AdmissionIsAuthorization(u, node, now);
    if Resident(u, node) {
      ListedWithoutExpiry(users, node, now, ClientOf(u, None));
      assert ClientOf(u, None).id == id;
    } else if Guests(u, node, now) {
      ListedWithExpiry(users, node, now, Visitor(u, node));
      assert Visitor(u, node).id == id;
    } else if id in ClientIDs(clients) {
      var c :| c in clients && c.id == id;
      if c.expiresAt.None? { ListedWithoutExpiry(users, node, now, c); } else { ListedWithExpiry(users, node, now, c); }
      assert false;
    }
  }
}
