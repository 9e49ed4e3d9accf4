/**
 Who may use which node, read off the account itself: its groups, its package, its
 team, its grants (api/network_access.go, api/agent_server.go). The classes and
 ranks the two decisions compute with do not appear here.
 */
module NodePools {
  import opened Finance
  import opened Text
  import opened NodeScope
  import opened NodeAccess

  /** The first group that names a monthly quota names a paid one. */
  ghost predicate Pays(groups: seq<string>) {
    exists i :: FirstQuota(groups, i) && Trim(groups[i]) in {"segment:quota:plus-20gb", "segment:quota:unlimited-beta"}
  }

  ghost predicate FirstQuota(groups: seq<string>, i: int) {
    && 0 <= i < |groups| && NamesQuota(groups[i])
    && forall j :: 0 <= j < i ==> !NamesQuota(groups[j])
  }

  ghost predicate NamesQuota(group: string) {
    Trim(group) in {"segment:quota:free-3gb", "segment:quota:plus-20gb", "segment:quota:unlimited-beta"}
  }

  ghost predicate PaysPro(u: User) {
    Pays(u.groups) && Lower(Trim(u.package)) == "pro"
  }

  /** A personal account's own entitlement to a public pool. */
  ghost predicate PoolOpen(u: User, pool: string) {
    match pool
    case "shared" => true
    case "free" => true
    case "plus" => Pays(u.groups)
    case "pro" => PaysPro(u)
    case _ => false
  }

  /** An address on the list is the account's, up to case and outer white space. */
  ghost predicate OnList(emails: seq<string>, email: string) {
    exists i :: 0 <= i < |emails| && Trim(emails[i]) != "" && Lower(Trim(emails[i])) == Lower(Trim(email))
  }

  /** A running temporary grant for this node id. */
  ghost predicate Granted(u: User, id: string, now: int) {
    && u.active && !u.archived && 0 < |Trim(id)| <= 128 && Trim(id) != "*"
    && ':' !in Trim(id) && ' ' !in Trim(id) && '/' !in Trim(id) && '\t' !in Trim(id) && '\r' !in Trim(id) && '\n' !in Trim(id)
    && id in u.grants && u.grants[id].active && now < u.grants[id].expiresAt
  }

  // ----- tiers ------------------------------------------------------------------------------

  lemma {:induction false} QuotaGroupExactly(groups: seq<string>)
    ensures Pays(groups) <==> QuotaGroup(groups) == PLUS_QUOTA || QuotaGroup(groups) == UNLIMITED_QUOTA
  {
    if groups != [] {
      var rest := groups[1..];
      assert forall i :: 0 <= i < |rest| ==> rest[i] == groups[i + 1];
      QuotaGroupExactly(rest);
      if NamesQuota(groups[0]) {
        assert FirstQuota(groups, 0);
      } else {
        if i :| FirstQuota(groups, i) && Trim(groups[i]) in {"segment:quota:plus-20gb", "segment:quota:unlimited-beta"} {
          assert FirstQuota(rest, i - 1) && rest[i - 1] == groups[i];
        }
        if i :| FirstQuota(rest, i) && Trim(rest[i]) in {"segment:quota:plus-20gb", "segment:quota:unlimited-beta"} {
          assert FirstQuota(groups, i + 1);
        }
      }
    }
  }

  lemma TierExactly(u: User)
    ensures Tier(u) == if u.access.dedicated then "team" else if PaysPro(u) then "pro" else if Pays(u.groups) then "plus" else "free"
  {
    QuotaGroupExactly(u.groups);
    assert Lower("pro") == "pro";
  }

  lemma PoolExactly(u: User, pool: string)
    ensures PoolAllows(pool, Tier(u)) <==> !u.access.dedicated && PoolOpen(u, pool)
  {
    TierExactly(u);
  }

  lemma GrantExactly(u: User, id: string, now: int)
    ensures HasGrant(u, id, now) <==> Granted(u, id, now)
  {
    var n := Trim(id);
    assert (forall i :: 0 <= i < |n| ==> n[i] !in ": /\t\r\n") <==>
           ':' !in n && ' ' !in n && '/' !in n && '\t' !in n && '\r' !in n && '\n' !in n by { NoneOf(n); }
  }

  lemma NoneOf(n: string)
    ensures (forall i :: 0 <= i < |n| ==> n[i] !in ": /\t\r\n") <==>
            ':' !in n && ' ' !in n && '/' !in n && '\t' !in n && '\r' !in n && '\n' !in n
  {
    var bad := ": /\t\r\n";
    assert bad[0] == ':' && bad[1] == ' ' && bad[2] == '/' && bad[3] == '\t' && bad[4] == '\r' && bad[5] == '\n' && |bad| == 6;
  }

  // ----- the decision -------------------------------------------------------------------------

  /** The account belongs to the network the node serves: to its team, or to none. */
  ghost predicate SameNetwork(u: User, team: string) {
    u.access.allowed && if u.access.dedicated then u.access.team != "" && u.access.team == team else team == ""
  }

  /** Entitled by what the account is: a member on a team node; on a custom node a paying
      account, or any where the node says so; on a public node one that has paid for that pool
      or a higher one, or is on the e-mail extension. */
  ghost predicate ByClass(u: User, scope: Scope) {
    if scope.resource == "team" then u.access.dedicated
    else if scope.resource == "custom" then !u.access.dedicated && (Pays(u.groups) || scope.allowFree)
    else !u.access.dedicated && (PoolOpen(u, scope.resource) || (u.union && scope.resource in {"shared", "free", "plus", "pro"}))
  }

  /** A free personal account with a running grant for the node. */
  ghost predicate ByGrant(u: User, nodeID: string, now: int) {
    !u.access.dedicated && !Pays(u.groups) && Trim(nodeID) != "" && Granted(u, Trim(nodeID), now)
  }

  lemma NetworkExactly(u: User, node: Node, groups: seq<string>)
    requires ParsedFrom(node, groups) && node.scope.Some?
    ensures NetworkAllows(u, node) <==> SameNetwork(u, node.scope.value.team)
  {
    ParsedTeam(node, groups);
  }

  lemma ClassExactly(u: User, scope: Scope)
    requires SameNetwork(u, scope.team) && (scope.resource == "team" <==> scope.team != "")
    ensures ScopeAllows(scope, u) || (IsPublic(scope.resource) && !u.access.dedicated && u.union) <==> ByClass(u, scope)
  {
    TierExactly(u);
    PoolExactly(u, scope.resource);
  }

  lemma BaseExactly(u: User, node: Node, groups: seq<string>)
    requires ParsedFrom(node, groups)
    ensures BaseGate(u, node) <==> node.scope.Some? && SameNetwork(u, node.scope.value.team) && ByClass(u, node.scope.value)
  {
    if node.scope.Some? {
      ParsedTeam(node, groups);
      NetworkExactly(u, node, groups);
      if SameNetwork(u, node.scope.value.team) { ClassExactly(u, node.scope.value); }
    }
  }

  lemma GuestExactly(u: User, node: Node, groups: seq<string>, now: int)
    requires ParsedFrom(node, groups) && node.scope.Some?
    ensures GrantGate(u, node, now) <==> SameNetwork(u, node.scope.value.team) && ByGrant(u, node.nodeID, now)
  {
    NetworkExactly(u, node, groups);
    TierExactly(u);
    GrantExactly(u, Trim(node.nodeID), now);
  }

  lemma ListExactly(emails: seq<string>, email: string)
    ensures EmailListed(emails, email) <==> OnList(emails, email)
  {
    if i :| 0 <= i < |emails| && Names(emails[i], email) { assert Trim(emails[i]) != ""; }
    if i :| 0 <= i < |emails| && Trim(emails[i]) != "" && Lower(Trim(emails[i])) == Lower(Trim(email)) { assert Names(emails[i], email); }
  }

  /** Authorization: the account is in the node's network and is entitled by its class; a custom
      node needs one to 256 addresses, and admits by class only accounts on its list, besides
      those it admits by grant. */
  lemma AuthorizedExactly(u: User, node: Node, groups: seq<string>, now: int)
    requires ParsedFrom(node, groups)
    ensures Authorized(u, node, now) <==>
            && node.scope.Some? && SameNetwork(u, node.scope.value.team)
            && if node.scope.value.resource == "custom"
               then 1 <= |node.emails| <= 256 && ((ByClass(u, node.scope.value) && OnList(node.emails, u.email)) || ByGrant(u, node.nodeID, now))
               else ByClass(u, node.scope.value)
  {
    if node.scope.Some? {
      BaseExactly(u, node, groups);
      GuestExactly(u, node, groups, now);
      ListExactly(node.emails, u.email);
    }
  }

  /** Discovery: the same, except that it takes any list that is not empty and reads the node id
      as it stands. */
  lemma DiscoveredExactly(u: User, node: Node, groups: seq<string>, now: int)
    requires ParsedFrom(node, groups)
    ensures Discovered(u, node, now) <==>
            && node.scope.Some? && SameNetwork(u, node.scope.value.team)
            && if node.scope.value.resource == "custom"
               then && node.emails != []
                    && ((ByClass(u, node.scope.value) && OnList(node.emails, u.email))
                        || (!u.access.dedicated && !Pays(u.groups) && Granted(u, node.nodeID, now)))
               else ByClass(u, node.scope.value)
  {
    if node.scope.Some? {
      if node.scope.value.resource == "custom" {
        ParsedTeam(node, groups);
        CustomDiscovered(u, node, now);
        NetworkExactly(u, node, groups);
        TierExactly(u);
        GrantExactly(u, node.nodeID, now);
        ListExactly(node.emails, u.email);
      } else {
        PublicAndTeamAgree(u, node, groups, now);
        AuthorizedExactly(u, node, groups, now);
      }
    }
  }

  ghost predicate Personal(u: User) {
    u.access.allowed && !u.access.dedicated && !u.union
  }

  /** For personal accounts off the e-mail extension the pools nest strictly: everyone is let
      into shared and free nodes, exactly the paying ones into plus nodes, and exactly those of
      them with the package "pro" into pro nodes. */
  lemma PublicPoolsNest(u: User, node: Node, groups: seq<string>, now: int)
    requires ParsedFrom(node, groups) && node.scope.Some? && Personal(u)
    ensures node.scope.value.resource == "shared" || node.scope.value.resource == "free" ==> Authorized(u, node, now)
    ensures node.scope.value.resource == "plus" ==> (Authorized(u, node, now) <==> Pays(u.groups))
    ensures node.scope.value.resource == "pro" ==> (Authorized(u, node, now) <==> Pays(u.groups) && Lower(Trim(u.package)) == "pro")
  {
    AuthorizedExactly(u, node, groups, now);
    ParsedTeam(node, groups);
  }

  // ----- the client list ----------------------------------------------------------------------

  /** An account in use: active, on no blocklist, with quota left, verified unless it is the
      sandbox account, and with a proxy id. */
  ghost predicate InUse(u: User) {
    && u.active && !u.blocked && !u.exhausted && Trim(u.proxyUUID) != ""
    && (u.verified || Lower(Trim(u.email)) == "sandbox@svc.plus")
  }

  /** The account is on the node's list for good. */
  ghost predicate Stays(u: User, node: Node, scope: Scope) {
    && InUse(u) && SameNetwork(u, scope.team) && ByClass(u, scope)
    && (scope.resource == "custom" ==> OnList(node.emails, u.email))
  }

  /** The account is on it until its grant expires; the sandbox account has to be verified too. */
  ghost predicate Visiting(u: User, node: Node, scope: Scope, now: int) {
    InUse(u) && u.verified && SameNetwork(u, scope.team) && scope.resource == "custom" && ByGrant(u, node.nodeID, now)
  }

  lemma StaysExactly(u: User, node: Node, groups: seq<string>, now: int)
    requires ParsedFrom(node, groups) && node.scope.Some?
    ensures Resident(u, node) <==> Stays(u, node, node.scope.value)
    ensures Guests(u, node, now) <==> Visiting(u, node, node.scope.value, now)
  {
    BaseExactly(u, node, groups);
    GuestExactly(u, node, groups, now);
    ListExactly(node.emails, u.email);
  }

  /** The node's list has exactly the accounts in use that it admits by class or team and, on a
      custom node, by address, without expiry; and those it admits by grant, unless one of the
      former has the same proxy id, until their grant expires. */
  lemma ListedExactly(users: seq<User>, node: Node, groups: seq<string>, now: int, c: Client)
    requires ParsedFrom(node, groups) && node.scope.Some?
    ensures c.expiresAt.None? ==>
              (c in IdentityList(users, node, now) <==>
               exists u :: u in users && Stays(u, node, node.scope.value) && c == Client(Trim(u.proxyUUID), Lower(Trim(u.email)), None))
    ensures c.expiresAt.Some? ==>
              (c in IdentityList(users, node, now) <==>
               && (exists u :: && u in users && Visiting(u, node, node.scope.value, now)
                               && c == Client(Trim(u.proxyUUID), Lower(Trim(u.email)), Some(u.grants[Trim(node.nodeID)].expiresAt)))
               && (forall u :: u in users && Stays(u, node, node.scope.value) ==> Trim(u.proxyUUID) != c.id))
  {
    forall u ensures (Resident(u, node) <==> Stays(u, node, node.scope.value))
                     && (Guests(u, node, now) <==> Visiting(u, node, node.scope.value, now)) {
      StaysExactly(u, node, groups, now);
    }
    if c.expiresAt.None? { ListedWithoutExpiry(users, node, now, c); } else { ListedWithExpiry(users, node, now, c); }
  }
}
