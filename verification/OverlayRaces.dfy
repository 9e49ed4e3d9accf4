/**
 Registrations that interleave. registerOverlayDevice (api/overlay.go) lists the
 devices of the network, decides on an address, and writes the row in a separate
 store call. The SQL store has a unique index on network and address and refuses a
 row that clashes; the memory store does not.
 */
module OverlayRaces {
  import opened Finance
  import opened Text
  import opened Overlay
  import opened OverlayHosts

  /** A registration between its two store calls; `seen` counts the writes before its listing. */
  datatype Pending = Plan(row: Device, seen: nat)

  /** `writes` lists the networks written to, oldest first. */
  datatype State = State(table: seq<Device>, pending: map<nat, Pending>, writes: seq<string>)

  datatype Event = List(h: nat, q: Request, env: string) | Write(h: nat) | Crash(h: nat)

  const INIT := State([], map[], [])

  /** The second store call; with `indexed` the store refuses a clashing row. */
  ghost function Written(s: State, h: nat, indexed: bool): State
    requires h in s.pending
  {
    var d := s.pending[h].row;
    if indexed && Clashes(s.table, d) then s.(pending := s.pending - {h})
    else State(Upserted(s.table, d), s.pending - {h}, s.writes + [d.network])
  }

  ghost function Apply(s: State, e: Event, indexed: bool): State {
    match e
    case List(h, q, env) =>
      if h !in s.pending && Planned(s.table, q, env).Some?
      then s.(pending := s.pending[h := Plan(Planned(s.table, q, env).value, |s.writes|)]) else s
    case Write(h) => if h in s.pending then Written(s, h, indexed) else s
    case Crash(h) => s.(pending := s.pending - {h})
  }

  ghost function Run(s: State, events: seq<Event>, indexed: bool): State
    decreases |events|
  {
    if events == [] then s else Run(Apply(s, events[0], indexed), events[1..], indexed)
  }

  // ----- what every event keeps --------------------------------------------------------------

  /** Nothing was written to the network since the listing. */
  predicate Fresh(p: Pending, writes: seq<string>) {
    forall i :: p.seen <= i < |writes| ==> writes[i] != p.row.network
  }

  /** A fresh plan is still good; every plan is in normal form. */
  ghost predicate Good(p: Pending, table: seq<Device>, writes: seq<string>) {
    Canonical(p.row) && p.seen <= |writes| && (Fresh(p, writes) ==> !Clashes(table, p.row))
  }

  ghost predicate Sound(s: State) {
    Inv(s.table) && forall h :: h in s.pending ==> Good(s.pending[h], s.table, s.writes)
  }

  lemma UpsertElsewhere(table: seq<Device>, d: Device, row: Device)
    requires !Clashes(table, row) && d.network != row.network
    ensures !Clashes(Upserted(table, d), row)
  {
    var after := Upserted(table, d);
    forall i | 0 <= i < |after| ensures !(after[i].network == row.network && !SameKey(after[i], row.user, row.id) && after[i].address == row.address) {
      if i < |table| && after[i] != d { assert after[i] == table[i]; }
    }
  }

  /** A write outdates the plans of its own network and leaves the others good. */
  lemma WriteKeepsGood(p: Pending, table: seq<Device>, writes: seq<string>, d: Device)
    requires Good(p, table, writes)
    ensures Good(p, Upserted(table, d), writes + [d.network])
  {
    var more := writes + [d.network];
    if Fresh(p, more) {
      assert more[|writes|] == d.network;
      forall i | p.seen <= i < |writes| ensures writes[i] != p.row.network { assert more[i] == writes[i]; }
      UpsertElsewhere(table, d, p.row);
    }
  }

  lemma WrittenKeeps(s: State, h: nat, indexed: bool)
    requires Sound(s) && h in s.pending && (indexed || Fresh(s.pending[h], s.writes))
    ensures Sound(Written(s, h, indexed))
  {
    var d := s.pending[h].row;
    assert Good(s.pending[h], s.table, s.writes);
    var t := Written(s, h, indexed);
    if !(indexed && Clashes(s.table, d)) {
      UpsertKeepsInv(s.table, d);
      forall g | g in t.pending ensures Good(t.pending[g], t.table, t.writes) {
        WriteKeepsGood(s.pending[g], s.table, s.writes, d);
      }
    }
  }

  lemma ListKeeps(s: State, h: nat, q: Request, env: string, indexed: bool)
    requires Sound(s)
    ensures Sound(Apply(s, List(h, q, env), indexed))
  {
    if Planned(s.table, q, env).Some? { PlannedFits(s.table, q, env); }
  }

  /** No write is made on an outdated listing: between the two calls of a registration
      nobody else writes to its network. */
  ghost predicate Serial(s: State, events: seq<Event>, indexed: bool)
    decreases |events|
  {
    events != [] ==>
      && (events[0].Write? && events[0].h in s.pending ==> Fresh(s.pending[events[0].h], s.writes))
      && Serial(Apply(s, events[0], indexed), events[1..], indexed)
  }

  lemma {:induction false} RunKeeps(s: State, events: seq<Event>, indexed: bool)
    requires Sound(s) && (indexed || Serial(s, events, indexed))
    ensures Sound(Run(s, events, indexed))
    decreases |events|
  {
    if events != [] {
      match events[0] {
        case List(h, q, env) => ListKeeps(s, h, q, env, indexed);
        case Write(h) => if h in s.pending { WrittenKeeps(s, h, indexed); }
        case Crash(_) =>
      }
      RunKeeps(Apply(s, events[0], indexed), events[1..], indexed);
    }
  }

  /** On a store that refuses clashing rows, every interleaving of registrations keeps one
      row per device and no address twice in a network. */
  lemma IndexedStoreKeepsUnique(events: seq<Event>)
    ensures Unique(Run(INIT, events, true).table)
  {
    RunKeeps(INIT, events, true);
  }

  /** Without the refusal the same holds for every interleaving in which nobody writes to the
      network between the two calls of a registration. */
  lemma SerialRegistrationsKeepUnique(events: seq<Event>)
    requires Serial(INIT, events, false)
    ensures Unique(Run(INIT, events, false).table)
  {
    RunKeeps(INIT, events, false);
  }

  // ----- any write in between can break it ----------------------------------------------------

  /** Nobody holds the planned address yet, not even the device itself. */
  ghost predicate Unheld(table: seq<Device>, row: Device) {
    forall i :: 0 <= i < |table| && table[i].network == row.network ==> table[i].address != row.address
  }

  /** Another account that asks for the same address is promised it. */
  lemma RivalPlans(table: seq<Device>, row: Device, user: string, env: string)
    requires Inv(table) && Canonical(row) && Unheld(table, row) && user != "" && Trimmed(user)
    requires forall i :: 0 <= i < |table| ==> table[i].user != user
    ensures Planned(table, Request(user, "d", row.network, row.address, true, 0), env) == Some(Device(user, "d", row.network, row.address))
  {
    var q := Request(user, "d", row.network, row.address, true, 0);
    StrangerAsks(table, q, env);
    DeviceName();
    assert Trim(user) == user;
  }

  lemma BothWritten(table: seq<Device>, row: Device, user: string)
    requires row.user != user && forall i :: 0 <= i < |table| ==> table[i].user != user
    ensures var e := Device(user, "d", row.network, row.address); !Unique(Upserted(Upserted(table, e), row))
  {
    var e := Device(user, "d", row.network, row.address);
    assert IndexOf(table, user, "d") == |table|;
    var t := table + [e];
    var k := IndexOf(t, row.user, row.id);
    var last := Upserted(t, row);
    assert last[|table|] == e && last[k] == row && k != |table|;
    if k < |table| { assert last[k].address == last[|table|].address; } else { assert last[|table|].address == last[k].address; }
  }

  lemma First(s: State, e: Event, rest: seq<Event>)
    ensures Run(s, [e] + rest, false) == Run(Apply(s, e, false), rest, false)
  {
    assert ([e] + rest)[1..] == rest;
  }

  lemma Last(s: State, e: Event)
    ensures Run(s, [e], false) == Apply(s, e, false)
  {
    First(s, e, []);
    assert [e] + [] == [e];
  }

  /** One registration that lists and writes, with nothing in between. */
  function Registered(s: State, row: Device): State {
    State(Upserted(s.table, row), s.pending, s.writes + [row.network])
  }

  lemma ListThenWrite(s: State, g: nat, q: Request, env: string)
    requires g !in s.pending && Planned(s.table, q, env).Some?
    ensures Apply(Apply(s, List(g, q, env), false), Write(g), false) == Registered(s, Planned(s.table, q, env).value)
  {
    var row := Planned(s.table, q, env).value;
    var t := Apply(s, List(g, q, env), false);
    assert t == s.(pending := s.pending[g := Plan(row, |s.writes|)]);
    assert s.pending[g := Plan(row, |s.writes|)] - {g} == s.pending;
  }

  lemma ThenWritten(s: State, h: nat)
    requires h in s.pending
    ensures Apply(s, Write(h), false).table == Upserted(s.table, s.pending[h].row)
  {
  }

  lemma RivalFirst(s: State, h: nat, g: nat, q: Request, env: string, rival: Device) returns (events: seq<Event>)
    requires h in s.pending && g !in s.pending && Planned(s.table, q, env) == Some(rival)
    ensures events == [List(g, q, env), Write(g), Write(h)]
    ensures Run(s, events, false).table == Upserted(Upserted(s.table, rival), s.pending[h].row)
  {
    events := [List(g, q, env), Write(g), Write(h)];
    assert events == [List(g, q, env)] + ([Write(g)] + [Write(h)]);
    First(s, List(g, q, env), [Write(g)] + [Write(h)]);
    First(Apply(s, List(g, q, env), false), Write(g), [Write(h)]);
    ListThenWrite(s, g, q, env);
    Last(Registered(s, rival), Write(h));
    ThenWritten(Registered(s, rival), h);
  }

  /** The condition is needed: on a store without the refusal, whenever a registration is about
      to write an address nobody holds, one other registration that runs in between, by any
      account without devices, leaves the address with two devices. */
  lemma WriteInBetweenClashes(s: State, h: nat, g: nat, env: string) returns (events: seq<Event>)
    requires Sound(s) && h in s.pending && g !in s.pending && Unheld(s.table, s.pending[h].row)
    ensures |events| == 3 && events[0].List? && events[0].h == g && events[1] == Write(g) && events[2] == Write(h)
    ensures !Unique(Run(s, events, false).table)
  {
    var row := s.pending[h].row;
    assert Good(s.pending[h], s.table, s.writes);
    var user := Outsider(s.table, row);
    RivalPlans(s.table, row, user, env);
    BothWritten(s.table, row, user);
    events := RivalFirst(s, h, g, Request(user, "d", row.network, row.address, true, 0), env, Device(user, "d", row.network, row.address));
  }

  lemma Outsider(table: seq<Device>, row: Device) returns (user: string)
    ensures user != "" && Trimmed(user) && user != row.user && forall i :: 0 <= i < |table| ==> table[i].user != user
  {
    var all := table + [row];
    user := FreshUser(all);
    assert all[|table|] == row && forall i :: 0 <= i < |table| ==> all[i] == table[i];
  }

  lemma FirstListed(q: Request, env: string)
    requires Planned([], q, env).Some?
    ensures Apply(INIT, List(0, q, env), false) == State([], map[0 := Plan(Planned([], q, env).value, 0)], [])
  {
  }

  /** The race from the start: a first registration has listed an empty network, a second one
      runs, and the first one writes. */
  lemma RegistrationsRace(q: Request, env: string) returns (events: seq<Event>)
    requires Planned([], q, env).Some?
    ensures events != [] && events[0] == List(0, q, env) && !Unique(Run(INIT, events, false).table)
  {
    var s := Apply(INIT, List(0, q, env), false);
    ListKeeps(INIT, 0, q, env, false);
    FirstListed(q, env);
    var rest := WriteInBetweenClashes(s, 0, 1, env);
    First(INIT, List(0, q, env), rest);
    events := [List(0, q, env)] + rest;
  }
}
