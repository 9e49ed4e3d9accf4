/**
 Which address a registration gets (api/overlay.go), in terms of the rows of the device
 table: the one it asks for, its own, the derived host or the lowest free one of the
 pool, and what is written.
 */
module OverlayRule {
  import opened Finance
  import opened Text
  import opened Overlay
  import H = OverlayHosts

  /** A row of the network other than this device's own has the address. */
  ghost predicate HeldByOther(table: seq<Device>, network: string, user: string, id: string, a: string) {
    exists i :: 0 <= i < |table| && table[i].network == network && table[i].address == a && !(table[i].user == user && table[i].id == id)
  }

  /** The device's own row in the network. */
  ghost predicate OwnRow(table: seq<Device>, network: string, user: string, id: string, i: int) {
    0 <= i < |table| && table[i].network == network && table[i].user == user && table[i].id == id
  }

  lemma TakenIsHeldByOther(table: seq<Device>, network: string, user: string, id: string, a: string)
    requires Inv(table) && Trimmed(network) && Taken(Views(InNetwork(table, network)), user, network, id, a)
    ensures HeldByOther(table, network, user, id, a)
  {
    var e := H.TakenIsHeld(Views(InNetwork(table, network)), user, network, id, a);
    ListSeen(table, network);
    var i :| 0 <= i < |table| && table[i] == e;
  }

  lemma HeldIsTaken(table: seq<Device>, network: string, user: string, id: string, a: string, i: nat)
    requires Inv(table) && Trimmed(network) && i < |table| && Holds(table[i], user, network, id, a)
    ensures Taken(Views(InNetwork(table, network)), user, network, id, a)
  {
    var views := Views(InNetwork(table, network));
    ListSeen(table, network);
    assert table[i] in views;
    var k :| 0 <= k < |views| && views[k] == table[i];
    if !Taken(views, user, network, id, a) { FreeOfEach(views, user, network, id, a, k); }
  }

  lemma TakenExactly(table: seq<Device>, network: string, user: string, id: string, a: string)
    requires Inv(table) && Trimmed(network)
    ensures Taken(Views(InNetwork(table, network)), user, network, id, a) <==> HeldByOther(table, network, user, id, a)
  {
    if Taken(Views(InNetwork(table, network)), user, network, id, a) {
      TakenIsHeldByOther(table, network, user, id, a);
    } else if HeldByOther(table, network, user, id, a) {
      var i :| 0 <= i < |table| && table[i].network == network && table[i].address == a && !(table[i].user == user && table[i].id == id);
      HeldIsTaken(table, network, user, id, a, i);
    }
  }

  lemma OneOwnRow(table: seq<Device>, network: string, user: string, id: string, i: int, k: int)
    requires Unique(table) && OwnRow(table, network, user, id, i) && OwnRow(table, network, user, id, k)
    ensures i == k
  {
    assert SameKey(table[i], table[k].user, table[k].id) && SameKey(table[k], table[i].user, table[i].id);
  }

  lemma OwnExactly(table: seq<Device>, network: string, user: string, id: string)
    requires Inv(table) && Trimmed(network)
    ensures var own := OwnAddress(Views(InNetwork(table, network)), user, network, id);
            && (own.Some? <==> exists i :: OwnRow(table, network, user, id, i))
            && forall i :: OwnRow(table, network, user, id, i) ==> own == Some(table[i].address)
  {
    var views := Views(InNetwork(table, network));
    ListSeen(table, network);
    OwnIsARow(views, user, network, id);
    if OwnAddress(views, user, network, id).Some? {
      var d :| d in views && Own(d, user, network, id) && d.address == OwnAddress(views, user, network, id).value;
      var k :| 0 <= k < |table| && table[k] == d;
      assert OwnRow(table, network, user, id, k);
      forall i | OwnRow(table, network, user, id, i) ensures i == k { OneOwnRow(table, network, user, id, i, k); }
    }
    forall i | OwnRow(table, network, user, id, i) ensures OwnAddress(views, user, network, id).Some? {
      CanonicalAt(table, i);
      assert table[i] in views && Own(table[i], user, network, id);
    }
  }

  // ----- the pool --------------------------------------------------------------------------------

  /** The choice among hosts 100 to 254: the preferred one if it is free, else the lowest free. */
  ghost predicate Chosen(held: nat -> bool, preferred: nat, r: Option<nat>) {
    match r
    case None => forall h :: 100 <= h <= 254 ==> held(h)
    case Some(h) => 100 <= h <= 254 && !held(h) && (h == preferred || (held(preferred) && forall g :: 100 <= g < h ==> held(g)))
  }

  lemma {:induction false} FirstFreeExactly(held: nat -> bool, host: nat)
    ensures match FirstFree(held, host)
            case None => forall h :: host <= h <= 254 ==> held(h)
            case Some(h) => host <= h <= 254 && !held(h) && forall g :: host <= g < h ==> held(g)
    decreases LAST + 1 - host, held(host)
  {
    if host <= LAST { FirstFreeExactly(held, host + 1); }
  }

  lemma PoolHostExactly(views: seq<Device>, user: string, network: string, id: string, prefix: string, digest: nat)
    ensures Chosen(HeldHosts(views, user, network, id, prefix), 100 + digest % 100, PoolHost(views, user, network, id, prefix, digest))
  {
    FirstFreeExactly(HeldHosts(views, user, network, id, prefix), FIRST);
  }

  /** A pool address: the prefix, the host in decimal, one host wide. */
  lemma HostAddressExactly(prefix: string, host: nat)
    requires 100 <= host <= 254
    ensures var a, n := HostAddress(prefix, host), |prefix|;
            && |a| == n + 7 && a[..n] == prefix && a[n] == '.' && a[n + 4..] == "/32"
            && '0' <= a[n + 1] <= '9' && '0' <= a[n + 2] <= '9' && '0' <= a[n + 3] <= '9'
            && host == 100 * (a[n + 1] as int - '0' as int) + 10 * (a[n + 2] as int - '0' as int) + (a[n + 3] as int - '0' as int)
  {
    var a, n := HostAddress(prefix, host), |prefix|;
    assert a == prefix + ("." + Decimal(host) + "/32");
    assert a[n + 1] == Digit(host / 100) && a[n + 2] == Digit(host / 10 % 10) && a[n + 3] == Digit(host % 10);
    DigitExactly(host / 100);
    DigitExactly(host / 10 % 10);
    DigitExactly(host % 10);
    FromDigits(host);
  }

  lemma DigitExactly(n: nat)
    requires n <= 9
    ensures Digit(n) as int == '0' as int + n && '0' <= Digit(n) <= '9'
  {
  }

  // ----- the answer ------------------------------------------------------------------------------

  /** Which pool hosts other rows of the network hold. */
  ghost predicate HostHeld(table: seq<Device>, network: string, user: string, id: string, prefix: string, h: nat) {
    100 <= h <= 254 && HeldByOther(table, network, user, id, HostAddress(prefix, h))
  }

  ghost function HeldBy(table: seq<Device>, network: string, user: string, id: string, prefix: string): nat -> bool {
    (h: nat) => HostHeld(table, network, user, id, prefix, h)
  }

  lemma HeldExactly(table: seq<Device>, network: string, user: string, id: string, prefix: string, h: nat)
    requires Inv(table) && Trimmed(network)
    ensures HeldHosts(Views(InNetwork(table, network)), user, network, id, prefix)(h) <==> HostHeld(table, network, user, id, prefix, h)
  {
    if 100 <= h <= 254 { TakenExactly(table, network, user, id, HostAddress(prefix, h)); }
  }

  /** The address a device of the network gets: the one it asks for unless another row has it;
      without one its own; else that of the chosen pool host. */
  ghost predicate Gets(table: seq<Device>, network: string, user: string, id: string, wanted: string, prefix: string, digest: nat, r: Option<string>) {
    if wanted != "" then r == if HeldByOther(table, network, user, id, wanted) then None else Some(wanted)
    else if exists i :: OwnRow(table, network, user, id, i) then forall i :: OwnRow(table, network, user, id, i) ==> r == Some(table[i].address)
    else
      exists h :: Chosen(HeldBy(table, network, user, id, prefix), 100 + digest % 100, h)
                  && r == if h.Some? && 100 <= h.value <= 254 then Some(HostAddress(prefix, h.value)) else None
  }

  lemma ChosenSame(held: nat -> bool, other: nat -> bool, preferred: nat, r: Option<nat>)
    requires Chosen(held, preferred, r) && forall h :: held(h) <==> other(h)
    ensures Chosen(other, preferred, r)
  {
  }

  lemma AssignedExactly(table: seq<Device>, network: string, user: string, id: string, requested: string, prefix: string, digest: nat)
    requires Inv(table) && Trimmed(network)
    ensures Gets(table, network, user, id, NormalAddress(requested), prefix, digest,
                 Assigned(Views(InNetwork(table, network)), user, network, id, requested, prefix, digest))
  {
    var views := Views(InNetwork(table, network));
    OwnExactly(table, network, user, id);
    if NormalAddress(requested) != "" {
      TakenExactly(table, network, user, id, NormalAddress(requested));
    } else if OwnAddress(views, user, network, id).None? {
      PoolChosen(table, network, user, id, prefix, digest);
      PoolAddressIs(views, user, network, id, prefix, digest);
    }
  }

  lemma PoolChosen(table: seq<Device>, network: string, user: string, id: string, prefix: string, digest: nat)
    requires Inv(table) && Trimmed(network)
    ensures Chosen(HeldBy(table, network, user, id, prefix), 100 + digest % 100,
                   PoolHost(Views(InNetwork(table, network)), user, network, id, prefix, digest))
  {
    var views := Views(InNetwork(table, network));
    var held, other := HeldHosts(views, user, network, id, prefix), HeldBy(table, network, user, id, prefix);
    forall h: nat ensures held(h) <==> other(h) { HeldExactly(table, network, user, id, prefix, h); }
    PoolHostExactly(views, user, network, id, prefix, digest);
    ChosenSame(held, other, 100 + digest % 100, PoolHost(views, user, network, id, prefix, digest));
  }

  lemma PoolAddressIs(views: seq<Device>, user: string, network: string, id: string, prefix: string, digest: nat)
    ensures var h := PoolHost(views, user, network, id, prefix, digest);
            PoolAddress(views, user, network, id, prefix, digest) == if h.Some? && 100 <= h.value <= 254 then Some(HostAddress(prefix, h.value)) else None
  {
  }

  /** Identifiers: trimmed, in lower case, blanks inside as hyphens; a blank network is the default. */
  lemma NormalFormsExactly(s: string)
    ensures |Sanitize(s)| == |Trim(s)| && forall i :: 0 <= i < |Trim(s)| ==> Sanitize(s)[i] == LowerChar(if Trim(s)[i] == ' ' then '-' else Trim(s)[i])
    ensures Trim(s) == "" ==> NormalNetwork(s) == "xworkmate-private" && NormalAddress(s) == ""
    ensures Trim(s) != "" ==> NormalNetwork(s) == Sanitize(s) && NormalAddress(s) in {Trim(s), Trim(s) + "/32"} && '/' in NormalAddress(s)
    ensures '/' in Trim(s) ==> NormalAddress(s) == Trim(s)
  {
    if Trim(s) != "" && '/' !in Trim(s) { assert (Trim(s) + "/32")[|Trim(s)|] == '/'; }
  }

  /** One registration on a table in order: without a device id or a valid key it is refused;
      otherwise it is answered as above, and exactly when it is, one row is written for its trimmed
      account and device, in its place if there was one, and no other row changes. */
  lemma RegistrationExactly(before: seq<Device>, q: Request, env: string, r: Option<string>, after: seq<Device>)
    requires Inv(before) && Step(before, q, env, r, after)
    ensures var id, network := Sanitize(q.device), NormalNetwork(q.network);
            && (id == "" || !q.keyValid ==> r.None?)
            && (id != "" && q.keyValid ==> Gets(before, network, q.user, id, NormalAddress(q.address), Prefix(env), q.digest, r))
            && (r.None? || Trim(q.user) == "" ==> after == before)
            && (r.Some? && Trim(q.user) != "" ==> Written(before, after, Device(Trim(q.user), id, network, r.value)))
  {
    NetworkIsTrimmed(q.network);
    AssignedExactly(before, NormalNetwork(q.network), q.user, Sanitize(q.device), q.address, Prefix(env), q.digest);
    if r.Some? { UpsertedExactly(before, Device(Trim(q.user), Sanitize(q.device), NormalNetwork(q.network), r.value)); }
  }

  /** `d` is written over the row of its account and device, or appended. */
  ghost predicate Written(before: seq<Device>, after: seq<Device>, d: Device) {
    exists k :: && 0 <= k < |after| && after[k] == d && |before| <= |after| <= |before| + 1
                && (k < |before| ==> |after| == |before| && before[k].user == d.user && before[k].id == d.id)
                && (k == |before| ==> forall i :: 0 <= i < |before| ==> !(before[i].user == d.user && before[i].id == d.id))
                && forall i :: 0 <= i < |before| && i != k ==> after[i] == before[i]
  }

  lemma UpsertedExactly(table: seq<Device>, d: Device)
    ensures Written(table, Upserted(table, d), d)
  {
    var k := IndexOf(table, d.user, d.id);
    assert Upserted(table, d)[k] == d;
  }
}
