/**
 Overlay device registration (api/overlay.go over internal/store/overlay_memory.go):
 every device gets a WireGuard address that no other device of its network holds.
 */
module Overlay {
  import opened Finance
  import opened Text

  const DEFAULT_NETWORK := "xworkmate-private"
  const DEFAULT_PREFIX := "172.29.10"
  const FIRST := 100
  const LAST := 254
  const HOSTS: nat := LAST - FIRST + 1

  /** A stored device; the fields that play no part in addressing are left out. */
  datatype Device = Device(user: string, id: string, network: string, address: string)

  /** A registration. `digest` is the first byte of the hash of user and device. */
  datatype Request = Request(user: string, device: string, network: string, address: string, keyValid: bool, digest: nat)

  // ----- normal forms ------------------------------------------------------------------------

  function Dashed(s: string): (r: string)
    ensures |r| == |s| && forall i :: 0 <= i < |s| ==> r[i] == if s[i] == ' ' then '-' else s[i]
  {
    seq(|s|, i requires 0 <= i < |s| => if s[i] == ' ' then '-' else s[i])
  }

  /** sanitizeOverlayID. */
  function Sanitize(s: string): string {
    Lower(Dashed(Trim(s)))
  }

  /** normalizeOverlayNetworkID. */
  function NormalNetwork(s: string): string {
    if Sanitize(s) == "" then DEFAULT_NETWORK else Sanitize(s)
  }

  /** normalizeOverlayDeviceAddress. */
  function NormalAddress(s: string): string {
    if Trim(s) == "" then "" else if '/' in Trim(s) then Trim(s) else Trim(s) + "/32"
  }

  lemma SanitizeIsNormal(s: string)
    ensures Trimmed(Sanitize(s)) && Sanitize(Sanitize(s)) == Sanitize(s)
  {
    var t := Trim(s);
    assert Trimmed(Dashed(t));
    LowerKeepsTrimmed(Dashed(t));
    var r := Sanitize(s);
    assert Trim(r) == r;
    assert forall i :: 0 <= i < |r| ==> r[i] != ' ';
    assert Dashed(r) == r;
    LowerKeepsTrimmed(Dashed(t));
  }

  lemma NetworkIsNormal(s: string)
    ensures Trimmed(NormalNetwork(s)) && NormalNetwork(NormalNetwork(s)) == NormalNetwork(s)
  {
    SanitizeIsNormal(s);
    DefaultIsNormal();
  }

  lemma NetworkIsTrimmed(network: string)
    ensures Trimmed(NormalNetwork(network))
  {
    NetworkIsNormal(network);
  }

  lemma DefaultIsNormal()
    ensures Trimmed(DEFAULT_NETWORK) && Sanitize(DEFAULT_NETWORK) == DEFAULT_NETWORK
  {
    assert Trimmed(DEFAULT_NETWORK);
    assert Dashed(DEFAULT_NETWORK) == DEFAULT_NETWORK;
    assert Lower(DEFAULT_NETWORK) == DEFAULT_NETWORK;
  }

  lemma AddressIsNormal(s: string)
    ensures Trimmed(NormalAddress(s)) && NormalAddress(NormalAddress(s)) == NormalAddress(s)
  {
    var t := Trim(s);
    if t != "" && '/' !in t {
      var r := t + "/32";
      assert r[0] == t[0] && r[|r| - 1] == '2' && Trimmed(r);
      assert r[|t|] == '/';
    }
  }

  // ----- the address pool --------------------------------------------------------------------

  /** envOrDefault("OVERLAY_WIREGUARD_PREFIX", ...). */
  function Prefix(env: string): (p: string)
    ensures p != "" && Trimmed(p)
  {
    if Trim(env) == "" then (assert Trimmed(DEFAULT_PREFIX); DEFAULT_PREFIX) else Trim(env)
  }

  function Digit(n: nat): char
    requires n <= 9
  {
    "0123456789"[n]
  }

  /** A host number in decimal; every host of the pool has three digits. */
  function Decimal(host: nat): string
    requires FIRST <= host <= LAST
  {
    [Digit(host / 100), Digit(host / 10 % 10), Digit(host % 10)]
  }

  function HostAddress(prefix: string, host: nat): string
    requires FIRST <= host <= LAST
  {
    prefix + "." + Decimal(host) + "/32"
  }

  lemma HostAddressIsNormal(prefix: string, host: nat)
    requires FIRST <= host <= LAST && prefix != "" && Trimmed(prefix)
    ensures HostAddress(prefix, host) != "" && NormalAddress(HostAddress(prefix, host)) == HostAddress(prefix, host)
  {
    var a := HostAddress(prefix, host);
    assert a[0] == prefix[0] && a[|a| - 1] == '2' && Trimmed(a);
    assert a[|a| - 3] == '/';
  }

  lemma HostAddressesDiffer(prefix: string, g: nat, h: nat)
    requires FIRST <= g <= LAST && FIRST <= h <= LAST && g != h
    ensures HostAddress(prefix, g) != HostAddress(prefix, h)
  {
    if HostAddress(prefix, g) == HostAddress(prefix, h) {
      var n := |prefix|;
      assert HostAddress(prefix, g)[n + 1..n + 4] == Decimal(g);
      assert HostAddress(prefix, h)[n + 1..n + 4] == Decimal(h);
      DigitsDetermine(g, h);
      assert false;
    }
  }

  lemma DigitsDetermine(g: nat, h: nat)
    requires FIRST <= g <= LAST && FIRST <= h <= LAST && Decimal(g) == Decimal(h)
    ensures g == h
  {
    assert Decimal(g)[0] == Decimal(h)[0] && Decimal(g)[1] == Decimal(h)[1] && Decimal(g)[2] == Decimal(h)[2];
    DigitsDiffer(g / 100, h / 100);
    DigitsDiffer(g / 10 % 10, h / 10 % 10);
    DigitsDiffer(g % 10, h % 10);
    FromDigits(g);
    FromDigits(h);
  }

  lemma FromDigits(n: nat)
    ensures n == n / 100 * 100 + n / 10 % 10 * 10 + n % 10
  {
  }

  lemma DigitsDiffer(a: nat, b: nat)
    requires a <= 9 && b <= 9 && Digit(a) == Digit(b)
    ensures a == b
  {
  }

  // ----- assignment --------------------------------------------------------------------------

  /** A device as the checks compare it: network and address in normal form. */
  function View(d: Device): Device {
    d.(network := NormalNetwork(d.network), address := NormalAddress(d.address))
  }

  function Views(devices: seq<Device>): seq<Device> {
    if devices == [] then [] else [View(devices[0])] + Views(devices[1..])
  }

  lemma ViewsStep(devices: seq<Device>, i: nat)
    requires i < |devices|
    ensures Views(devices[i..]) == [View(devices[i])] + Views(devices[i + 1..])
  {
    assert devices[i..][0] == devices[i] && devices[i..][1..] == devices[i + 1..];
  }

  /** Another device of the network holds this address. */
  predicate Holds(d: Device, user: string, network: string, id: string, address: string) {
    d.network == network && !(d.user == user && d.id == id) && d.address == address
  }

  /** Some other device of the network holds the address; everything in normal form. */
  predicate Taken(views: seq<Device>, user: string, network: string, id: string, address: string) {
    views != [] && (Holds(views[0], user, network, id, address) || Taken(views[1..], user, network, id, address))
  }

  /** overlayAddressInUse. */
  method AddressInUse(devices: seq<Device>, user: string, network: string, id: string, address: string) returns (r: bool)
    ensures r <==> Taken(Views(devices), user, NormalNetwork(network), id, NormalAddress(address))
  {
    var n, a := NormalNetwork(network), NormalAddress(address);
    for i := 0 to |devices|
      invariant Taken(Views(devices), user, n, id, a) == Taken(Views(devices[i..]), user, n, id, a)
    {
      ViewsStep(devices, i);
      if NormalNetwork(devices[i].network) != n {
        continue;
      }
      if devices[i].user == user && devices[i].id == id {
        continue;
      }
      if NormalAddress(devices[i].address) == a {
        return true;
      }
    }
    r := false;
  }

  predicate Own(d: Device, user: string, network: string, id: string) {
    d.user == user && d.id == id && d.network == network && d.address != ""
  }

  /** The address the device already has in the network. */
  function OwnAddress(views: seq<Device>, user: string, network: string, id: string): Option<string> {
    if views == [] then None
    else if Own(views[0], user, network, id) then Some(views[0].address)
    else OwnAddress(views[1..], user, network, id)
  }

  /** ListOverlayDevicesByNetwork. */
  function InNetwork(table: seq<Device>, network: string): (r: seq<Device>)
    ensures |r| <= |table| && forall d :: d in r <==> d in table && d.network == Trim(network)
  {
    if table == [] then [] else
      InNetwork(table[..|table| - 1], network) + if table[|table| - 1].network == Trim(network) then [table[|table| - 1]] else []
  }

  method ListByNetwork(table: seq<Device>, network: string) returns (r: seq<Device>)
    ensures r == InNetwork(table, network)
  {
    r := [];
    for i := 0 to |table|
      invariant r == InNetwork(table[..i], network)
    {
      assert table[..i + 1][..i] == table[..i];
      if table[i].network == Trim(network) {
        r := r + [table[i]];
      }
    }
    assert table[..|table|] == table;
  }

  /** Which hosts other devices hold. */
  function HeldHosts(views: seq<Device>, user: string, network: string, id: string, prefix: string): nat -> bool {
    (h: nat) => FIRST <= h <= LAST && Taken(views, user, network, id, HostAddress(prefix, h))
  }

  /** Every pool host from `host` on is held. */
  predicate AllHeld(held: nat -> bool, host: nat)
    decreases LAST + 1 - host, held(host)
  {
    host > LAST || (held(host) && AllHeld(held, host + 1))
  }

  predicate PoolExhausted(views: seq<Device>, user: string, network: string, id: string, prefix: string) {
    AllHeld(HeldHosts(views, user, network, id, prefix), FIRST)
  }

  /** Exhaustion is of every one of the 155 hosts. */
  lemma {:induction false} AllHeldMeansEach(held: nat -> bool, host: nat, h: nat)
    requires host <= h <= LAST && AllHeld(held, host)
    ensures held(h)
    decreases LAST - host
  {
    if host < h { AllHeldMeansEach(held, host + 1, h); }
  }

  /** The lowest free host from `host` on. */
  function FirstFree(held: nat -> bool, host: nat): Option<nat>
    decreases LAST + 1 - host, held(host)
  {
    if host > LAST then None else if !held(host) then Some(host) else FirstFree(held, host + 1)
  }

  /** The derived host if it is free, else the lowest free one. */
  function PoolHost(views: seq<Device>, user: string, network: string, id: string, prefix: string, digest: nat): Option<nat> {
    var held := HeldHosts(views, user, network, id, prefix);
    if !held(FIRST + digest % 100) then Some(FIRST + digest % 100) else FirstFree(held, FIRST)
  }

  lemma {:induction false} FirstFreeIsFree(held: nat -> bool, host: nat)
    ensures FirstFree(held, host).None? <==> AllHeld(held, host)
    ensures FirstFree(held, host).Some? ==> host <= FirstFree(held, host).value <= LAST && !held(FirstFree(held, host).value)
    decreases LAST + 1 - host, held(host)
  {
    if host <= LAST { FirstFreeIsFree(held, host + 1); }
  }

  /** The pool refuses exactly when every host is taken, and never hands out a taken one. */
  lemma PoolHostIsFree(views: seq<Device>, user: string, network: string, id: string, prefix: string, digest: nat)
    ensures var r := PoolHost(views, user, network, id, prefix, digest);
            && (r.None? <==> PoolExhausted(views, user, network, id, prefix))
            && (r.Some? ==> FIRST <= r.value <= LAST && !Taken(views, user, network, id, HostAddress(prefix, r.value)))
  {
    var held := HeldHosts(views, user, network, id, prefix);
    FirstFreeIsFree(held, FIRST);
    if AllHeld(held, FIRST) { AllHeldMeansEach(held, FIRST, FIRST + digest % 100); }
  }

  function PoolAddress(views: seq<Device>, user: string, network: string, id: string, prefix: string, digest: nat): Option<string> {
    var host := PoolHost(views, user, network, id, prefix, digest);
    if host.Some? && FIRST <= host.value <= LAST then Some(HostAddress(prefix, host.value)) else None
  }

  /** What an assignment answers: the requested address if it is free; else the device's
      own address; else the pool's choice, which is None only when the pool is exhausted. */
  function Assigned(views: seq<Device>, user: string, network: string, id: string, requested: string, prefix: string, digest: nat): Option<string> {
    var wanted := NormalAddress(requested);
    if wanted != "" then (if Taken(views, user, network, id, wanted) then None else Some(wanted))
    else if OwnAddress(views, user, network, id).Some? then OwnAddress(views, user, network, id)
    else PoolAddress(views, user, network, id, prefix, digest)
  }

  method HostInUse(devices: seq<Device>, user: string, id: string, network: string, prefix: string, host: nat) returns (taken: bool)
    requires FIRST <= host <= LAST && prefix != "" && Trimmed(prefix)
    ensures taken <==> HeldHosts(Views(devices), user, NormalNetwork(network), id, prefix)(host)
  {
    HostAddressIsNormal(prefix, host);
    taken := AddressInUse(devices, user, network, id, HostAddress(prefix, host));
  }

  /** The host loop. */
  method LowestFreeHost(devices: seq<Device>, user: string, id: string, network: string, prefix: string) returns (r: Option<nat>)
    requires prefix != "" && Trimmed(prefix)
    ensures r == FirstFree(HeldHosts(Views(devices), user, NormalNetwork(network), id, prefix), FIRST)
  {
    ghost var held := HeldHosts(Views(devices), user, NormalNetwork(network), id, prefix);
    for host: nat := FIRST to LAST + 1
      invariant FirstFree(held, FIRST) == FirstFree(held, host)
    {
      var taken := HostInUse(devices, user, id, network, prefix, host);
      if !taken {
        return Some(host);
      }
    }
    r := None;
  }

  /** deriveOverlayDeviceAddress, and the host loop when that address is taken. */
  method FreeHost(devices: seq<Device>, user: string, id: string, network: string, prefix: string, digest: nat) returns (r: Option<nat>)
    requires prefix != "" && Trimmed(prefix)
    ensures r == PoolHost(Views(devices), user, NormalNetwork(network), id, prefix, digest)
  {
    var preferred: nat := FIRST + digest % 100;
    var taken := HostInUse(devices, user, id, network, prefix, preferred);
    if !taken {
      return Some(preferred);
    }
    r := LowestFreeHost(devices, user, id, network, prefix);
  }

  /** The second loop of assignOverlayDeviceAddress. */
  method FindOwn(devices: seq<Device>, user: string, id: string, network: string) returns (r: Option<string>)
    ensures r == OwnAddress(Views(devices), user, network, id)
  {
    for i := 0 to |devices|
      invariant OwnAddress(Views(devices), user, network, id) == OwnAddress(Views(devices[i..]), user, network, id)
    {
      ViewsStep(devices, i);
      if devices[i].user == user && devices[i].id == id && NormalNetwork(devices[i].network) == network {
        var address := NormalAddress(devices[i].address);
        if address != "" {
          return Some(address);
        }
      }
    }
    r := None;
  }

  /** assignOverlayDeviceAddress. */
  method AssignAddress(devices: seq<Device>, user: string, id: string, network: string, requested: string, prefix: string, digest: nat)
    returns (r: Option<string>)
    requires NormalNetwork(network) == network && prefix != "" && Trimmed(prefix)
    ensures r == Assigned(Views(devices), user, network, id, requested, prefix, digest)
  {
    var wanted := NormalAddress(requested);
    AddressIsNormal(requested);
    if wanted != "" {
      var taken := AddressInUse(devices, user, network, id, wanted);
      return if taken then None else Some(wanted);
    }
    r := FindOwn(devices, user, id, network);
    if r.None? {
      var host := FreeHost(devices, user, id, network, prefix, digest);
      PoolHostIsFree(Views(devices), user, network, id, prefix, digest);
      r := if host.Some? then Some(HostAddress(prefix, host.value)) else None;
    }
  }

  // ----- the pool is large enough ------------------------------------------------------------

  /** The addresses of the first `n` hosts; `f` gives the address of each. */
  function Image(f: nat -> string, n: nat): set<string> {
    if n == 0 then {} else Image(f, n - 1) + {f(n - 1)}
  }

  lemma {:induction false} ImageMember(f: nat -> string, n: nat, a: string) returns (h: nat)
    requires a in Image(f, n)
    ensures h < n && a == f(h)
  {
    if a == f(n - 1) {
      h := n - 1;
    } else {
      h := ImageMember(f, n - 1, a);
    }
  }

  lemma {:induction false} ImageCount(f: nat -> string, n: nat)
    requires forall g: nat, h: nat :: g < h < n ==> f(g) != f(h)
    ensures |Image(f, n)| == n
  {
    if n > 0 {
      ImageCount(f, n - 1);
      if f(n - 1) in Image(f, n - 1) {
        var h := ImageMember(f, n - 1, f(n - 1));
        assert false;
      }
    }
  }

  function HostAt(prefix: string, i: nat): string {
    if i < HOSTS then HostAddress(prefix, FIRST + i) else ""
  }

  function Pool(prefix: string): nat -> string {
    (i: nat) => HostAt(prefix, i)
  }

  /** The addresses other devices of the network hold, and how many such devices there are. */
  function HeldByOthers(views: seq<Device>, user: string, network: string, id: string): set<string> {
    if views == [] then {} else
      (if Holds(views[0], user, network, id, views[0].address) then {views[0].address} else {})
      + HeldByOthers(views[1..], user, network, id)
  }

  function Others(views: seq<Device>, user: string, network: string, id: string): nat {
    if views == [] then 0 else
      (if Holds(views[0], user, network, id, views[0].address) then 1 else 0) + Others(views[1..], user, network, id)
  }

  lemma {:induction false} HeldByOthersIs(views: seq<Device>, user: string, network: string, id: string, a: string)
    ensures |HeldByOthers(views, user, network, id)| <= Others(views, user, network, id)
    ensures Taken(views, user, network, id, a) <==> a in HeldByOthers(views, user, network, id)
  {
    if views != [] {
      HeldByOthersIs(views[1..], user, network, id, a);
    }
  }

  lemma SubsetIsNoLarger(a: set<string>, b: set<string>)
    requires a <= b
    ensures |a| <= |b|
  {
    if a != {} {
      var x :| x in a;
      SubsetIsNoLarger(a - {x}, b - {x});
    }
  }

  lemma HostsDiffer(prefix: string, g: nat, h: nat)
    requires g < h < HOSTS
    ensures Pool(prefix)(g) != Pool(prefix)(h)
  {
    HostAddressesDiffer(prefix, FIRST + g, FIRST + h);
  }

  lemma PoolSize(prefix: string)
    ensures |Image(Pool(prefix), HOSTS)| == HOSTS
  {
    var pool := Pool(prefix);
    forall g: nat, h: nat | g < h < HOSTS ensures pool(g) != pool(h) {
      HostsDiffer(prefix, g, h);
    }
    ImageCount(pool, HOSTS);
  }

  lemma ExhaustedHosts(views: seq<Device>, user: string, network: string, id: string, prefix: string, a: string)
    requires PoolExhausted(views, user, network, id, prefix) && a in Image(Pool(prefix), HOSTS)
    ensures a in HeldByOthers(views, user, network, id)
  {
    var h := ImageMember(Pool(prefix), HOSTS, a);
    AllHeldMeansEach(HeldHosts(views, user, network, id, prefix), FIRST, FIRST + h);
    HeldByOthersIs(views, user, network, id, a);
  }

  /** Pigeonhole: with fewer other devices than the 155 hosts, some host is free. */
  lemma FewDevicesLeaveAHost(views: seq<Device>, user: string, network: string, id: string, prefix: string)
    requires Others(views, user, network, id) < HOSTS
    ensures !PoolExhausted(views, user, network, id, prefix)
  {
    if PoolExhausted(views, user, network, id, prefix) {
      var hosts, held := Image(Pool(prefix), HOSTS), HeldByOthers(views, user, network, id);
      PoolSize(prefix);
      forall a | a in hosts ensures a in held {
        ExhaustedHosts(views, user, network, id, prefix, a);
      }
      HeldByOthersIs(views, user, network, id, "");
      SubsetIsNoLarger(hosts, held);
      assert false;
    }
  }

  /** A device without an address of its own that asks for none is refused exactly when
      other devices hold all 155 hosts. */
  lemma AutomaticRefusalIsExhaustion(views: seq<Device>, user: string, network: string, id: string, requested: string, prefix: string, digest: nat)
    requires NormalAddress(requested) == "" && OwnAddress(views, user, network, id).None?
    ensures Assigned(views, user, network, id, requested, prefix, digest).None? <==> PoolExhausted(views, user, network, id, prefix)
  {
    PoolHostIsFree(views, user, network, id, prefix, digest);
  }

  /** So a registration without a requested address is refused only when at least 155
      other devices of the network hold addresses. */
  lemma AutomaticAssignmentSucceeds(views: seq<Device>, user: string, network: string, id: string, requested: string, prefix: string, digest: nat)
    requires NormalAddress(requested) == ""
    ensures Assigned(views, user, network, id, requested, prefix, digest).None? ==> Others(views, user, network, id) >= HOSTS
  {
    PoolHostIsFree(views, user, network, id, prefix, digest);
    if Others(views, user, network, id) < HOSTS {
      FewDevicesLeaveAHost(views, user, network, id, prefix);
    }
  }

  // ----- the device table --------------------------------------------------------------------

  /** A row as registration writes it. */
  predicate Canonical(d: Device) {
    View(d) == d && Trimmed(d.user) && Trimmed(d.network) && d.address != ""
  }

  predicate SameKey(d: Device, user: string, id: string) {
    d.user == user && d.id == id
  }

  function Canon(): Device -> bool {
    d => Canonical(d)
  }

  predicate All(rows: seq<Device>, p: Device -> bool) {
    rows == [] || (p(rows[0]) && All(rows[1..], p))
  }

  lemma {:induction false} AllAt(rows: seq<Device>, p: Device -> bool, i: nat)
    requires All(rows, p) && i < |rows|
    ensures p(rows[i])
  {
    if i > 0 { AllAt(rows[1..], p, i - 1); }
  }

  lemma {:induction false} AllGrows(rows: seq<Device>, p: Device -> bool, d: Device, n: nat)
    requires All(rows, p) && p(d) && n <= |rows|
    ensures All(if n < |rows| then rows[n := d] else rows + [d], p)
  {
    if rows != [] {
      if n == 0 {
        assert rows[0 := d][1..] == rows[1..];
      } else if n < |rows| {
        AllGrows(rows[1..], p, d, n - 1);
        assert rows[n := d][1..] == rows[1..][n - 1 := d];
      } else {
        AllGrows(rows[1..], p, d, n - 1);
        assert (rows + [d])[1..] == rows[1..] + [d];
      }
    }
  }

  lemma {:induction false} AllInit(rows: seq<Device>, p: Device -> bool)
    requires All(rows, p) && rows != []
    ensures All(rows[..|rows| - 1], p)
  {
    if |rows| > 1 {
      AllInit(rows[1..], p);
      assert rows[..|rows| - 1][1..] == rows[1..][..|rows| - 2];
    }
  }

  lemma {:induction false} AllInNetwork(table: seq<Device>, p: Device -> bool, network: string)
    requires All(table, p)
    ensures All(InNetwork(table, network), p)
  {
    if table != [] {
      AllInit(table, p);
      AllAt(table, p, |table| - 1);
      AllInNetwork(table[..|table| - 1], p, network);
      var list := InNetwork(table[..|table| - 1], network);
      AllGrows(list, p, table[|table| - 1], |list|);
      assert list + [] == list;
    }
  }

  lemma CanonicalAt(table: seq<Device>, i: nat)
    requires All(table, Canon()) && i < |table|
    ensures Canonical(table[i])
  {
    AllAt(table, Canon(), i);
  }

  /** One row per user and device, and no address twice in a network. */
  ghost predicate Unique(table: seq<Device>) {
    && (forall i, j :: 0 <= i < j < |table| ==> !SameKey(table[i], table[j].user, table[j].id))
    && (forall i, j :: 0 <= i < j < |table| && table[i].network == table[j].network ==> table[i].address != table[j].address)
  }

  ghost predicate Inv(table: seq<Device>) {
    All(table, Canon()) && Unique(table)
  }

  function IndexOf(table: seq<Device>, user: string, id: string): (n: nat)
    ensures n <= |table| && (n < |table| ==> SameKey(table[n], user, id))
    ensures forall i :: 0 <= i < n ==> !SameKey(table[i], user, id)
  {
    if table == [] || SameKey(table[0], user, id) then 0 else 1 + IndexOf(table[1..], user, id)
  }

  /** UpsertOverlayDevice. */
  function Upserted(table: seq<Device>, d: Device): seq<Device> {
    var i := IndexOf(table, d.user, d.id);
    if i < |table| then table[i := d] else table + [d]
  }

  /** The row a registration is about to write, decided on the devices it listed. */
  function Planned(table: seq<Device>, q: Request, env: string): Option<Device> {
    var id, network := Sanitize(q.device), NormalNetwork(q.network);
    if id == "" || !q.keyValid || Trim(q.user) == "" then None
    else
      var r := Assigned(Views(InNetwork(table, network)), q.user, network, id, q.address, Prefix(env), q.digest);
      if r.Some? then Some(Device(Trim(q.user), id, network, r.value)) else None
  }

  /** Another device of the row's network holds its address. */
  ghost predicate Clashes(table: seq<Device>, d: Device) {
    exists i :: 0 <= i < |table| && table[i].network == d.network && !SameKey(table[i], d.user, d.id) && table[i].address == d.address
  }

  /** A registration request `q` takes the table `before` to `after`, answering `r`. */
  ghost predicate Step(before: seq<Device>, q: Request, env: string, r: Option<string>, after: seq<Device>) {
    var id, network := Sanitize(q.device), NormalNetwork(q.network);
    if id == "" || !q.keyValid then r.None? && after == before
    else
      && r == Assigned(Views(InNetwork(before, network)), q.user, network, id, q.address, Prefix(env), q.digest)
      && after == if r.Some? && Trim(q.user) != "" then Upserted(before, Device(Trim(q.user), id, network, r.value)) else before
  }

  /** The overlay device table behind registerOverlayDevice. */
  class DeviceStore {
    var table: seq<Device>

    method Upsert(d: Device) returns (ok: bool)
      modifies this
      ensures ok <==> Trim(d.user) != "" && Trim(d.id) != ""
      ensures table == if ok then Upserted(old(table), Device(Trim(d.user), Trim(d.id), Trim(d.network), Trim(d.address))) else old(table)
    {
      var user, id := Trim(d.user), Trim(d.id);
      if user == "" || id == "" {
        return false;
      }
      var stored := Device(user, id, Trim(d.network), Trim(d.address));
      var i := 0;
      while i < |table| && !SameKey(table[i], user, id)
        invariant i <= IndexOf(table, user, id) && table == old(table)
      {
        i := i + 1;
      }
      table := if i < |table| then table[i := stored] else table + [stored];
      ok := true;
    }

    /** registerOverlayDevice. The answer is the address, or None for a refusal. */
    method Register(q: Request, env: string) returns (r: Option<string>)
      requires Inv(table)
      modifies this
      ensures Step(old(table), q, env, r, table) && Inv(table)
    {
      var id := Sanitize(q.device);
      if id == "" || !q.keyValid {
        return None;
      }
      var network := NormalNetwork(q.network);
      NetworkIsNormal(q.network);
      SanitizeIsNormal(q.device);
      var devices := ListByNetwork(table, network);
      r := AssignAddress(devices, q.user, id, network, q.address, Prefix(env), q.digest);
      if r.Some? {
        AnswerIsNormal(table, q.user, network, id, q.address, Prefix(env), q.digest);
        var ok := Upsert(Device(q.user, id, network, r.value));
      }
      StepKeepsInv(old(table), q, env, r, table);
    }
  }

  // ----- what every registration keeps --------------------------------------------------------

  lemma {:induction false} FreeOfEach(views: seq<Device>, user: string, network: string, id: string, address: string, k: nat)
    requires k < |views| && !Taken(views, user, network, id, address)
    ensures !Holds(views[k], user, network, id, address)
  {
    if k > 0 { FreeOfEach(views[1..], user, network, id, address, k - 1); }
  }

  lemma {:induction false} OwnIsARow(views: seq<Device>, user: string, network: string, id: string)
    ensures OwnAddress(views, user, network, id).Some? ==>
            exists d :: d in views && Own(d, user, network, id) && d.address == OwnAddress(views, user, network, id).value
    ensures (exists d :: d in views && Own(d, user, network, id)) ==> OwnAddress(views, user, network, id).Some?
  {
    if views != [] {
      OwnIsARow(views[1..], user, network, id);
      assert forall d :: d in views <==> d == views[0] || d in views[1..];
    }
  }

  lemma {:induction false} CanonicalViews(devices: seq<Device>, p: Device -> bool)
    requires All(devices, p) && forall d :: p(d) ==> View(d) == d
    ensures Views(devices) == devices
  {
    if devices != [] {
      CanonicalViews(devices[1..], p);
      assert devices == [devices[0]] + devices[1..];
    }
  }

  /** On a table in order, the checks see exactly the network's rows. */
  lemma ListSeen(table: seq<Device>, network: string)
    requires Inv(table) && Trimmed(network)
    ensures var views := Views(InNetwork(table, network));
            forall d :: d in views <==> d in table && d.network == network
  {
    AllInNetwork(table, Canon(), network);
    CanonicalViews(InNetwork(table, network), Canon());
    assert Trim(network) == network;
  }

  /** Whatever is answered is a non-empty address in normal form. */
  lemma AnswerIsNormal(table: seq<Device>, user: string, network: string, id: string, requested: string, prefix: string, digest: nat)
    requires Inv(table) && Trimmed(network) && prefix != "" && Trimmed(prefix)
    ensures var r := Assigned(Views(InNetwork(table, network)), user, network, id, requested, prefix, digest);
            r.Some? ==> r.value != "" && NormalAddress(r.value) == r.value && Trimmed(r.value)
  {
    var views := Views(InNetwork(table, network));
    AddressIsNormal(requested);
    if NormalAddress(requested) == "" {
      if OwnAddress(views, user, network, id).Some? {
        OwnAddressIsNormal(table, user, network, id);
      } else {
        PoolAddressIsNormal(views, user, network, id, prefix, digest);
      }
    }
  }

  lemma OwnAddressIsNormal(table: seq<Device>, user: string, network: string, id: string)
    requires Inv(table) && Trimmed(network)
    ensures var r := OwnAddress(Views(InNetwork(table, network)), user, network, id);
            r.Some? ==> r.value != "" && NormalAddress(r.value) == r.value && Trimmed(r.value)
  {
    var views := Views(InNetwork(table, network));
    OwnIsARow(views, user, network, id);
    if OwnAddress(views, user, network, id).Some? {
      var d :| d in views && Own(d, user, network, id) && d.address == OwnAddress(views, user, network, id).value;
      ListSeen(table, network);
      var i :| 0 <= i < |table| && table[i] == d;
      CanonicalAt(table, i);
      AddressIsNormal(d.address);
    }
  }

  lemma PoolAddressIsNormal(views: seq<Device>, user: string, network: string, id: string, prefix: string, digest: nat)
    requires prefix != "" && Trimmed(prefix)
    ensures var r := PoolAddress(views, user, network, id, prefix, digest);
            r.Some? ==> r.value != "" && NormalAddress(r.value) == r.value && Trimmed(r.value)
  {
    var host := PoolHost(views, user, network, id, prefix, digest);
    if host.Some? && FIRST <= host.value <= LAST {
      HostAddressIsNormal(prefix, host.value);
      AddressIsNormal(HostAddress(prefix, host.value));
    }
  }

  /** A stored row is never taken for the device of an account id with stray white space. */
  lemma NotOwnRow(table: seq<Device>, i: nat, user: string, id: string)
    requires All(table, Canon()) && i < |table| && !SameKey(table[i], Trim(user), id)
    ensures !SameKey(table[i], user, id)
  {
    CanonicalAt(table, i);
    assert Trimmed(user) <==> Trim(user) == user;
  }

  lemma OwnIsUnique(table: seq<Device>, views: seq<Device>, i: nat, user: string, network: string, id: string)
    requires Inv(table) && i < |table| && (forall d :: d in views ==> d in table && d.network == network)
    requires OwnAddress(views, user, network, id).Some? && table[i].network == network && !SameKey(table[i], user, id)
    ensures table[i].address != OwnAddress(views, user, network, id).value
  {
    OwnIsARow(views, user, network, id);
    var d :| d in views && Own(d, user, network, id) && d.address == OwnAddress(views, user, network, id).value;
    var k :| 0 <= k < |table| && table[k] == d;
    if k < i { assert table[k].address != table[i].address; }
    if i < k { assert table[i].address != table[k].address; }
  }

  /** An answer is the device's own address or an address nobody else holds. */
  lemma AnswerKinds(views: seq<Device>, user: string, network: string, id: string, requested: string, prefix: string, digest: nat)
    ensures var r := Assigned(views, user, network, id, requested, prefix, digest);
            r.Some? ==> OwnAddress(views, user, network, id) == r || !Taken(views, user, network, id, r.value)
  {
    PoolHostIsFree(views, user, network, id, prefix, digest);
  }

  /** No other row of the network carries the answered address. */
  lemma AnswerIsFree(table: seq<Device>, user: string, network: string, id: string, a: string, i: nat)
    requires Inv(table) && Trimmed(network) && i < |table|
    requires var views := Views(InNetwork(table, network)); OwnAddress(views, user, network, id) == Some(a) || !Taken(views, user, network, id, a)
    requires table[i].network == network && !SameKey(table[i], Trim(user), id)
    ensures table[i].address != a
  {
    var views := Views(InNetwork(table, network));
    ListSeen(table, network);
    NotOwnRow(table, i, user, id);
    if OwnAddress(views, user, network, id) == Some(a) {
      OwnIsUnique(table, views, i, user, network, id);
    } else {
      assert table[i] in views;
      var k :| 0 <= k < |views| && views[k] == table[i];
      FreeOfEach(views, user, network, id, a, k);
    }
  }

  lemma UpsertKeepsUnique(table: seq<Device>, d: Device)
    requires Unique(table)
    requires forall i :: 0 <= i < |table| && table[i].network == d.network && !SameKey(table[i], d.user, d.id) ==> table[i].address != d.address
    ensures Unique(Upserted(table, d))
  {
    var n := IndexOf(table, d.user, d.id);
    if n < |table| {
      forall i | 0 <= i < |table| && i != n ensures !SameKey(table[i], d.user, d.id) {
        if i > n { assert !SameKey(table[n], table[i].user, table[i].id); }
      }
    }
  }

  lemma UpsertKeepsInv(table: seq<Device>, d: Device)
    requires Inv(table) && Canonical(d) && !Clashes(table, d)
    ensures Inv(Upserted(table, d))
  {
    UpsertKeepsUnique(table, d);
    AllGrows(table, Canon(), d, IndexOf(table, d.user, d.id));
  }

  /** A row planned on a table in order is in normal form and clashes with no row of it. */
  lemma PlannedFits(table: seq<Device>, q: Request, env: string)
    requires Inv(table) && Planned(table, q, env).Some?
    ensures Canonical(Planned(table, q, env).value) && !Clashes(table, Planned(table, q, env).value)
  {
    var id, network := Sanitize(q.device), NormalNetwork(q.network);
    var d := Planned(table, q, env).value;
    NetworkIsNormal(q.network);
    AnswerIsNormal(table, q.user, network, id, q.address, Prefix(env), q.digest);
    AnswerKinds(Views(InNetwork(table, network)), q.user, network, id, q.address, Prefix(env), q.digest);
    forall i | 0 <= i < |table| && table[i].network == network && !SameKey(table[i], d.user, id) ensures table[i].address != d.address {
      AnswerIsFree(table, q.user, network, id, d.address, i);
    }
  }

  /** A registration writes what it planned, or nothing. */
  lemma StepWritesPlanned(before: seq<Device>, q: Request, env: string, r: Option<string>, after: seq<Device>)
    requires Step(before, q, env, r, after)
    ensures after == if Planned(before, q, env).Some? then Upserted(before, Planned(before, q, env).value) else before
  {
  }

  lemma StepKeepsInv(before: seq<Device>, q: Request, env: string, r: Option<string>, after: seq<Device>)
    requires Inv(before) && Step(before, q, env, r, after)
    ensures Inv(after)
  {
    StepWritesPlanned(before, q, env, r, after);
    if Planned(before, q, env).Some? {
      PlannedFits(before, q, env);
      UpsertKeepsInv(before, Planned(before, q, env).value);
    }
  }

  /** A sequence of registrations, with the answers and the table after each, from an empty table. */
  ghost predicate Trace(tables: seq<seq<Device>>, requests: seq<Request>, answers: seq<Option<string>>, env: string) {
    && |tables| == |requests| + 1 == |answers| + 1 && tables[0] == []
    && forall i :: 0 <= i < |requests| ==> Step(tables[i], requests[i], env, answers[i], tables[i + 1])
  }

  /** After every sequence of registrations, two devices of one network never share an
      address, and every user and device has one row. */
  lemma {:induction false} AddressesStayUnique(tables: seq<seq<Device>>, requests: seq<Request>, answers: seq<Option<string>>, env: string, n: nat)
    requires Trace(tables, requests, answers, env) && n < |tables|
    ensures Inv(tables[n])
  {
    if n > 0 {
      AddressesStayUnique(tables, requests, answers, env, n - 1);
      StepKeepsInv(tables[n - 1], requests[n - 1], env, answers[n - 1], tables[n]);
    }
  }

  /** A device that registers again in its network without asking for an address keeps
      the one it has, exactly when the account id carries no stray white space. */
  lemma ReRegistrationKeepsAddress(table: seq<Device>, q: Request, env: string, r: Option<string>, after: seq<Device>, i: nat)
    requires Inv(table) && i < |table| && Step(table, q, env, r, after) && NormalAddress(q.address) == ""
    requires q.keyValid && Sanitize(q.device) != "" && NormalNetwork(q.network) == table[i].network
    requires SameKey(table[i], Trim(q.user), Sanitize(q.device))
    ensures r == Some(table[i].address) <==> Trimmed(q.user)
  {
    var id, network := Sanitize(q.device), NormalNetwork(q.network);
    var views := Views(InNetwork(table, network));
    NetworkIsTrimmed(q.network);
    ListSeen(table, network);
    OwnIsARow(views, q.user, network, id);
    CanonicalAt(table, i);
    assert table[i] in views;
    if Trimmed(q.user) {
      assert Own(table[i], q.user, network, id);
      var d :| d in views && Own(d, q.user, network, id) && d.address == OwnAddress(views, q.user, network, id).value;
      var k :| 0 <= k < |table| && table[k] == d;
      assert k == i;
    } else {
      forall d | d in views ensures !Own(d, q.user, network, id) {
        var k :| 0 <= k < |table| && table[k] == d;
        CanonicalAt(table, k);
      }
      AnswerKinds(views, q.user, network, id, q.address, Prefix(env), q.digest);
      if r.Some? {
        var k :| 0 <= k < |views| && views[k] == table[i];
        FreeOfEach(views, q.user, network, id, r.value, k);
      }
    }
  }
}
