/**
 Hosts against addresses. Registration keeps whole addresses unique
 (api/overlay.go), and an address carries a mask: one host under two masks is two
 addresses. This module says exactly when hosts are unique as well.
 */
module OverlayHosts {
  import opened Finance
  import opened Text
  import opened Overlay

  /** What stands before the first slash. */
  function Before(address: string): (h: string)
    ensures '/' !in h && h <= address
  {
    if address == "" || address[0] == '/' then "" else [address[0]] + Before(address[1..])
  }

  lemma {:induction false} TrimAddsNothing(s: string)
    requires '/' !in s
    ensures '/' !in Trim(s)
    decreases |s|
  {
    if s == "" {
    } else if IsSpace(s[0]) {
      TrimAddsNothing(s[1..]);
    } else if IsSpace(s[|s| - 1]) {
      TrimAddsNothing(s[..|s| - 1]);
    }
  }

  /** normalizeOverlayHostAddress: the host of an address, without the blanks around it. */
  function HostOf(address: string): (h: string)
    ensures '/' !in h && Trimmed(h)
  {
    TrimAddsNothing(Before(address));
    Trim(Before(address))
  }

  predicate IsSingleHost(address: string) {
    address == HostOf(address) + "/32"
  }

  /** The request asks for no address, or for a single host. */
  predicate Plain(q: Request) {
    NormalAddress(q.address) == "" || IsSingleHost(NormalAddress(q.address))
  }

  predicate AllPlain(requests: seq<Request>) {
    forall i :: 0 <= i < |requests| ==> Plain(requests[i])
  }

  ghost predicate SameHost(table: seq<Device>, i: int, j: int) {
    0 <= i < j < |table| && table[i].network == table[j].network && HostOf(table[i].address) == HostOf(table[j].address)
  }

  /** Two devices of one network have the same host. */
  ghost predicate DuplicateHost(table: seq<Device>) {
    exists i, j :: SameHost(table, i, j)
  }

  function Single(): Device -> bool {
    (d: Device) => IsSingleHost(d.address)
  }

  lemma {:induction false} BeforeMask(h: string, rest: string)
    requires '/' !in h
    ensures Before(h + "/" + rest) == h
  {
    var a := h + "/" + rest;
    if h == "" {
      assert a[0] == '/';
    } else {
      assert a[0] == h[0] && a[1..] == h[1..] + "/" + rest;
      BeforeMask(h[1..], rest);
    }
  }

  lemma {:induction false} BeforePrefix(p: string, rest: string)
    requires '/' in p
    ensures Before(p + rest) == Before(p)
  {
    assert (p + rest)[0] == p[0];
    if p[0] != '/' {
      assert (p + rest)[1..] == p[1..] + rest;
      BeforePrefix(p[1..], rest);
    }
  }

  lemma WithMask(h: string)
    requires '/' !in h && Trimmed(h)
    ensures HostOf(h + "/32") == h && IsSingleHost(h + "/32")
  {
    BeforeMask(h, "32");
    assert h + "/" + "32" == h + "/32";
  }

  // ----- single hosts stay unique -----------------------------------------------------------

  lemma DigitIsPlain(n: nat)
    requires n <= 9
    ensures Digit(n) != '/' && !IsSpace(Digit(n))
  {
  }

  lemma DecimalIsPlain(host: nat)
    requires FIRST <= host <= LAST
    ensures '/' !in Decimal(host) && forall i :: 0 <= i < 3 ==> !IsSpace(Decimal(host)[i])
  {
    DigitIsPlain(host / 100);
    DigitIsPlain(host / 10 % 10);
    DigitIsPlain(host % 10);
  }

  lemma PoolIsSingleHost(prefix: string, host: nat)
    requires FIRST <= host <= LAST && '/' !in prefix && Trimmed(prefix)
    ensures IsSingleHost(HostAddress(prefix, host))
  {
    DecimalIsPlain(host);
    var h := prefix + "." + Decimal(host);
    assert '/' !in h;
    assert h[0] == (prefix + ".")[0] && h[|h| - 1] == Decimal(host)[2];
    WithMask(h);
    assert HostAddress(prefix, host) == h + "/32";
  }

  lemma OwnIsSingleHost(table: seq<Device>, user: string, network: string, id: string)
    requires Inv(table) && All(table, Single()) && Trimmed(network)
    ensures var r := OwnAddress(Views(InNetwork(table, network)), user, network, id); r.Some? ==> IsSingleHost(r.value)
  {
    var views := Views(InNetwork(table, network));
    OwnIsARow(views, user, network, id);
    if OwnAddress(views, user, network, id).Some? {
      var d :| d in views && Own(d, user, network, id) && d.address == OwnAddress(views, user, network, id).value;
      ListSeen(table, network);
      var i :| 0 <= i < |table| && table[i] == d;
      AllAt(table, Single(), i);
    }
  }

  lemma PoolAnswerIsSingleHost(views: seq<Device>, user: string, network: string, id: string, prefix: string, digest: nat)
    requires '/' !in prefix && Trimmed(prefix)
    ensures var r := PoolAddress(views, user, network, id, prefix, digest); r.Some? ==> IsSingleHost(r.value)
  {
    var host := PoolHost(views, user, network, id, prefix, digest);
    if host.Some? && FIRST <= host.value <= LAST { PoolIsSingleHost(prefix, host.value); }
  }

  lemma PlannedIsSingleHost(table: seq<Device>, q: Request, env: string)
    requires Inv(table) && All(table, Single()) && Plain(q) && '/' !in Prefix(env) && Planned(table, q, env).Some?
    ensures IsSingleHost(Planned(table, q, env).value.address)
  {
    var id, network := Sanitize(q.device), NormalNetwork(q.network);
    NetworkIsTrimmed(q.network);
    OwnIsSingleHost(table, q.user, network, id);
    PoolAnswerIsSingleHost(Views(InNetwork(table, network)), q.user, network, id, Prefix(env), q.digest);
  }

  lemma StepKeepsSingleHosts(before: seq<Device>, q: Request, env: string, r: Option<string>, after: seq<Device>)
    requires Inv(before) && All(before, Single()) && Plain(q) && '/' !in Prefix(env) && Step(before, q, env, r, after)
    ensures All(after, Single())
  {
    StepWritesPlanned(before, q, env, r, after);
    if Planned(before, q, env).Some? {
      var d := Planned(before, q, env).value;
      PlannedIsSingleHost(before, q, env);
      AllGrows(before, Single(), d, IndexOf(before, d.user, d.id));
    }
  }

  lemma {:induction false} TraceKeepsSingleHosts(tables: seq<seq<Device>>, requests: seq<Request>, answers: seq<Option<string>>, env: string, n: nat)
    requires Trace(tables, requests, answers, env) && n < |tables| && '/' !in Prefix(env)
    requires AllPlain(requests)
    ensures All(tables[n], Single())
    decreases n
  {
    if n > 0 {
      TraceKeepsSingleHosts(tables, requests, answers, env, n - 1);
      AddressesStayUnique(tables, requests, answers, env, n - 1);
      StepKeepsSingleHosts(tables[n - 1], requests[n - 1], env, answers[n - 1], tables[n]);
    }
  }

  lemma SingleHostsDiffer(table: seq<Device>)
    requires Unique(table) && All(table, Single())
    ensures !DuplicateHost(table)
  {
    forall i, j ensures !SameHost(table, i, j) {
      if SameHost(table, i, j) {
        AllAt(table, Single(), i);
        AllAt(table, Single(), j);
      }
    }
  }

  /** After every sequence of registrations that ask for no address or a single host, under
      a prefix without a slash, no two devices of a network share a host. */
  lemma HostsStayUnique(tables: seq<seq<Device>>, requests: seq<Request>, answers: seq<Option<string>>, env: string, n: nat)
    requires Trace(tables, requests, answers, env) && n < |tables| && '/' !in Prefix(env)
    requires AllPlain(requests)
    ensures !DuplicateHost(tables[n])
  {
    TraceKeepsSingleHosts(tables, requests, answers, env, n);
    AddressesStayUnique(tables, requests, answers, env, n);
    SingleHostsDiffer(tables[n]);
  }

  // ----- any other mask breaks it ------------------------------------------------------------

  function MaxLen(table: seq<Device>): nat {
    if table == [] then 0 else
      var n := MaxLen(table[1..]);
      if |table[0].user| > n then |table[0].user| else n
  }

  lemma {:induction false} MaxLenBounds(table: seq<Device>, i: nat)
    requires i < |table|
    ensures |table[i].user| <= MaxLen(table)
  {
    if i > 0 { MaxLenBounds(table[1..], i - 1); }
  }

  /** An account id that no row has. */
  lemma FreshUser(table: seq<Device>) returns (user: string)
    ensures user != "" && Trimmed(user) && forall i :: 0 <= i < |table| ==> table[i].user != user
  {
    user := seq(MaxLen(table) + 1, _ => 'a');
    forall i | 0 <= i < |table| ensures table[i].user != user { MaxLenBounds(table, i); }
  }

  lemma {:induction false} TakenIsHeld(views: seq<Device>, user: string, network: string, id: string, address: string) returns (d: Device)
    requires Taken(views, user, network, id, address)
    ensures d in views && Holds(d, user, network, id, address)
  {
    if Holds(views[0], user, network, id, address) {
      d := views[0];
    } else {
      d := TakenIsHeld(views[1..], user, network, id, address);
    }
  }

  lemma DeviceName()
    ensures Sanitize("d") == "d"
  {
    assert Trim("d") == "d" && Dashed("d") == "d" && Lower("d") == "d";
  }

  /** A sound request by an account without rows. */
  predicate Stranger(table: seq<Device>, q: Request) {
    q.keyValid && q.user != "" && Trimmed(q.user) && q.device == "d" && forall i :: 0 <= i < |table| ==> table[i].user != q.user
  }

  function Answer(table: seq<Device>, q: Request, env: string): Option<string> {
    Assigned(Views(InNetwork(table, NormalNetwork(q.network))), q.user, NormalNetwork(q.network), "d", q.address, Prefix(env), q.digest)
  }

  lemma StrangerStep(table: seq<Device>, q: Request, env: string)
    requires Stranger(table, q)
    ensures var r := Answer(table, q, env);
            Step(table, q, env, r, if r.Some? then table + [Device(q.user, "d", NormalNetwork(q.network), r.value)] else table)
  {
    DeviceName();
    assert Trim(q.user) == q.user && IndexOf(table, q.user, "d") == |table|;
  }

  /** A stranger's view of an address: taken exactly when some row of the network has it. */
  lemma TakenForStranger(table: seq<Device>, user: string, network: string, a: string)
    requires Inv(table) && Trimmed(network) && forall i :: 0 <= i < |table| ==> table[i].user != user
    ensures Taken(Views(InNetwork(table, network)), user, network, "d", a)
            <==> exists i :: 0 <= i < |table| && table[i].network == network && table[i].address == a
  {
    var views := Views(InNetwork(table, network));
    ListSeen(table, network);
    if Taken(views, user, network, "d", a) {
      var e := TakenIsHeld(views, user, network, "d", a);
      var i :| 0 <= i < |table| && table[i] == e;
    } else {
      forall i | 0 <= i < |table| && table[i].network == network ensures table[i].address != a {
        assert table[i] in views;
        var k :| 0 <= k < |views| && views[k] == table[i];
        FreeOfEach(views, user, network, "d", a, k);
      }
    }
  }

  /** A stranger who asks for an address gets it exactly when no row of the network has it. */
  lemma StrangerAsks(table: seq<Device>, q: Request, env: string)
    requires Inv(table) && Stranger(table, q) && NormalAddress(q.address) != ""
    ensures Answer(table, q, env) ==
            if exists i :: 0 <= i < |table| && table[i].network == NormalNetwork(q.network) && table[i].address == NormalAddress(q.address)
            then None else Some(NormalAddress(q.address))
  {
    NetworkIsTrimmed(q.network);
    TakenForStranger(table, q.user, NormalNetwork(q.network), NormalAddress(q.address));
  }

  lemma HostWithMaskIsNormal(a: string)
    requires NormalAddress(a) == a != ""
    ensures NormalAddress(HostOf(a) + "/32") == HostOf(a) + "/32"
  {
    AddressIsNormal(a);
    var h := HostOf(a);
    var b := h + "/32";
    assert b[|h|] == '/' && b[|b| - 1] == '2';
    if h != "" { assert b[0] == h[0]; }
    assert Trimmed(b);
  }

  lemma UpsertedHas(table: seq<Device>, d: Device) returns (k: nat)
    ensures k < |Upserted(table, d)| && Upserted(table, d)[k] == d
  {
    k := IndexOf(table, d.user, d.id);
  }

  /** From any table in order, once a request with another mask is accepted, one further
      plain request ends with one host twice. */
  lemma OtherMaskBreaks(table: seq<Device>, q: Request, env: string, r: Option<string>, after: seq<Device>)
    returns (q2: Request, r2: Option<string>, last: seq<Device>)
    requires Inv(table) && Step(table, q, env, r, after) && !Plain(q) && r.Some? && Trim(q.user) != ""
    ensures Plain(q2) && Step(after, q2, env, r2, last) && DuplicateHost(last)
  {
    StepKeepsInv(table, q, env, r, after);
    var a, network := NormalAddress(q.address), NormalNetwork(q.network);
    AddressIsNormal(q.address);
    HostWithMaskIsNormal(a);
    var b := HostOf(a) + "/32";
    WithMask(HostOf(a));
    var k := UpsertedHas(table, Device(Trim(q.user), Sanitize(q.device), network, a));
    var user := FreshUser(after);
    q2 := Request(user, "d", q.network, b, true, 0);
    StrangerAsks(after, q2, env);
    StrangerStep(after, q2, env);
    r2 := Answer(after, q2, env);
    if i :| 0 <= i < |after| && after[i].network == network && after[i].address == b {
      last := after;
      assert SameHost(last, if i < k then i else k, if i < k then k else i);
    } else {
      last := after + [Device(user, "d", network, b)];
      assert SameHost(last, k, |after|);
    }
  }

  lemma TwoSteps(q: Request, p: Request, env: string, a: string, b: string, d: Device, e: Device)
    requires Step([], q, env, Some(a), [d]) && Step([d], p, env, Some(b), [d, e])
    ensures Trace([[], [d], [d, e]], [q, p], [Some(a), Some(b)], env)
  {
    var tables, requests, answers := [[], [d], [d, e]], [q, p], [Some(a), Some(b)];
    forall i | 0 <= i < 2 ensures Step(tables[i], requests[i], env, answers[i], tables[i + 1]) {
      if i == 0 { assert tables[1] == [d]; } else { assert tables[2] == [d, e]; }
    }
  }

  lemma MaskedIsNormal(host: string, mask: string)
    requires host != "" && Trimmed(host) && '/' !in host && mask != "" && !IsSpace(mask[|mask| - 1])
    ensures NormalAddress(host + "/" + mask) == host + "/" + mask && HostOf(host + "/" + mask) == host
  {
    var a := host + "/" + mask;
    assert a[0] == host[0] && a[|host|] == '/' && a[|a| - 1] == mask[|mask| - 1];
    assert Trimmed(a);
    BeforeMask(host, mask);
  }

  /** The forms of a host with and without a mask. */
  lemma MaskForms(host: string)
    requires host != "" && Trimmed(host) && '/' !in host
    ensures NormalAddress(host) == host + "/32" && NormalAddress(host + "/24") == host + "/24" != host + "/32"
    ensures HostOf(host + "/24") == host == HostOf(host + "/32")
  {
    MaskedIsNormal(host, "24");
    MaskedIsNormal(host, "32");
    assert host + "/" + "24" == host + "/24" && host + "/" + "32" == host + "/32";
    assert (host + "/24")[|host| + 1] != (host + "/32")[|host| + 1];
  }

  /** A first registration, from the empty table. */
  lemma FirstOf(q: Request, env: string, a: string, d: Device)
    requires Stranger([], q) && Answer([], q, env) == Some(a) && d == Device(q.user, "d", NormalNetwork(q.network), a)
    ensures Step([], q, env, Some(a), [d]) && Inv([d])
  {
    StrangerStep([], q, env);
    assert [] + [d] == [d];
    StepKeepsInv([], q, env, Some(a), [d]);
  }

  lemma SecondOf(p: Request, env: string, b: string, d: Device, e: Device)
    requires Stranger([d], p) && Answer([d], p, env) == Some(b) && e == Device(p.user, "d", NormalNetwork(p.network), b)
    ensures Step([d], p, env, Some(b), [d, e])
  {
    StrangerStep([d], p, env);
    assert [d] + [e] == [d, e];
  }

  /** The run behind it, for every host such as 10.0.0.5: it is asked for first with a mask
      and then without one, and both requests are granted. */
  lemma SameHostUnderTwoMasks(host: string, network: string, env: string) returns (tables: seq<seq<Device>>, requests: seq<Request>, answers: seq<Option<string>>)
    requires host != "" && Trimmed(host) && '/' !in host
    ensures Trace(tables, requests, answers, env) && |requests| == 2 && DuplicateHost(tables[2])
    ensures requests[0].address == host + "/24" && requests[1].address == host
  {
    MaskForms(host);
    var a, b := host + "/24", host + "/32";
    var u := FreshUser([]);
    var q := Request(u, "d", network, a, true, 0);
    StrangerAsks([], q, env);
    var d := Device(u, "d", NormalNetwork(network), a);
    FirstOf(q, env, a, d);
    var v := FreshUser([d]);
    var p := Request(v, "d", network, host, true, 0);
    StrangerAsks([d], p, env);
    var e := Device(v, "d", NormalNetwork(network), b);
    SecondOf(p, env, b, d, e);
    TwoSteps(q, p, env, a, b, d, e);
    tables, requests, answers := [[], [d], [d, e]], [q, p], [Some(a), Some(b)];
    assert SameHost([d, e], 0, 1);
  }

  // ----- the prefix ------------------------------------------------------------------------

  lemma SlashHost(prefix: string, host: nat)
    requires '/' in prefix && FIRST <= host <= LAST
    ensures HostOf(HostAddress(prefix, host)) == HostOf(prefix)
  {
    BeforePrefix(prefix, "." + Decimal(host) + "/32");
    assert HostAddress(prefix, host) == prefix + ("." + Decimal(host) + "/32");
  }

  lemma {:induction false} TrimKeepsTail(x: string, d: string)
    requires d != "" && forall i :: 0 <= i < |d| ==> !IsSpace(d[i])
    ensures var t := Trim(x + d); |t| >= |d| && t[|t| - |d|..] == d
  {
    if x != "" && IsSpace(x[0]) {
      assert (x + d)[0] == x[0] && (x + d)[1..] == x[1..] + d;
      TrimKeepsTail(x[1..], d);
    } else {
      assert x == "" ==> x + d == d;
      assert !IsSpace((x + d)[0]) && (x + d)[|x + d| - 1] == d[|d| - 1];
    }
  }

  /** A pool address' host ends in its number. */
  lemma PoolHostEnds(prefix: string, host: nat)
    requires '/' !in prefix && FIRST <= host <= LAST
    ensures var h := HostOf(HostAddress(prefix, host)); |h| >= 3 && h[|h| - 3..] == Decimal(host)
  {
    DecimalIsPlain(host);
    var h := prefix + "." + Decimal(host);
    BeforeMask(h, "32");
    assert HostAddress(prefix, host) == h + "/" + "32";
    TrimKeepsTail(prefix + ".", Decimal(host));
  }

  /** The condition on the prefix is exact: the pool's addresses have 155 different hosts if
      and only if it has no slash; with one, they all have the same host. */
  lemma PoolHostsDifferExactly(prefix: string, g: nat, h: nat)
    requires FIRST <= g < h <= LAST
    ensures HostOf(HostAddress(prefix, g)) != HostOf(HostAddress(prefix, h)) <==> '/' !in prefix
  {
    if '/' in prefix {
      SlashHost(prefix, g);
      SlashHost(prefix, h);
    } else {
      PoolHostEnds(prefix, g);
      PoolHostEnds(prefix, h);
      if Decimal(g) == Decimal(h) { DigitsDetermine(g, h); }
    }
  }
}
