/**
 Webhook handlers that overlap: a refund may be recorded between any two steps of the
 handlers in flight.

 Once it is recorded and the row says so, what those handlers can still do is exactly
 this: apply the plan again if one is past its second look at the guard, and leave the row
 open if one is past its first look and does not come to a second one.
 */
module WebhookRaces {
  import opened Finance
  import opened Text
  import opened RefundLedger
  import opened RefundSettlement
  import opened Webhooks
  import opened RefundedAccess
  import opened WebhookHandlers

  datatype Race = Race(account: Account, handlers: map<nat, Phase>)

  datatype Turn =
    | Begin(h: nat, src: Source, env: Env, kind: Kind)
    | Move(h: nat, stored: bool)
    | Fail(h: nat)                                // a crash, or an error of any call
    | Report(h: nat, fact: RefundFact, env: Env)  // a refund is recorded, and the row revoked next if that settles it
    | Book(step: Step)                            // any other ledger write
    | Put(row: Row)                               // a one-off checkout row

  function With(s: Race, h: nat, a: Account, p: Option<Phase>): Race {
    Race(a, if p.Some? then s.handlers[h := p.value] else s.handlers - {h})
  }

  /** The revocation that a recorded refund calls for, as in ReportedRefund. */
  function Called(a: Account, l: Ledger, fact: RefundFact, env: Env): Option<Phase> {
    if !HasPayment(l.payments, fact.paymentID) then None
    else
      var p := PaymentByID(l.payments, fact.paymentID);
      var invoice := FindInvoice(l.invoices, p.invoiceID);
      if Refunded(l.refunds, p.id) != p.amount || invoice.None? || p.account != a.user then None
      else
        var k := RowOf(a.rows, invoice.value.subscription);
        if k.Some? && Settled(l.invoices, l.payments, l.refunds, a.user, invoice.value.subscription)
        then Some(Dropping(a.rows[k.value].sub.externalID, env)) else None
  }

  function Reported(a: Account, fact: RefundFact, env: Env): Option<Phase> {
    var (l, o) := AddRefund(a.ledger, fact);
    if o == Stored || o == Replayed then Called(a, l, fact, env) else None
  }

  /** A report that nothing interrupts does what the atomic event does. */
  lemma SoloReport(a: Account, fact: RefundFact, env: Env)
    ensures Solo(a.(ledger := AddRefund(a.ledger, fact).0), Reported(a, fact, env)) == Handle(a, RefundReported(fact, env))
  {
  }

  function Take(s: Race, t: Turn): Race {
    match t
    case Begin(h, src, env, kind) =>
      if h in s.handlers || Trim(src.userID) != s.account.user then s
      else With(s, h, s.account, Start(s.account, Upserted(src, kind), env, kind))
    case Move(h, stored) =>
      if h !in s.handlers then s
      else With(s, h, Acts(s.account, s.handlers[h], stored), Goes(s.account, s.handlers[h], stored))
    case Fail(h) => With(s, h, s.account, None)
    case Report(h, fact, env) =>
      if h in s.handlers then s
      else With(s, h, s.account.(ledger := AddRefund(s.account.ledger, fact).0), Reported(s.account, fact, env))
    case Book(step) => s.(account := s.account.(ledger := Apply(s.account.ledger, step)))
    case Put(row) => s.(account := s.account.(rows := PutRow(s.account.rows, row)))
  }

  function Run(s: Race, turns: seq<Turn>): Race
    decreases |turns|
  {
    if turns == [] then s else Run(Take(s, turns[0]), turns[1..])
  }

  // ----- the subscription ------------------------------------------------------------------------

  /** The subscription, its owner and its refunded latest invoice. */
  datatype Case = Case(user: string, subscription: string, inv: string)

  predicate Speaking(src: Source, c: Case) {
    Trim(src.id) == c.subscription ==> src.userID == c.user && Trim(src.latestInvoice) == c.inv
  }

  predicate Knows(p: Phase, c: Case) {
    !p.Dropping? ==> Speaking(p.src, c)
  }

  predicate Concerns(p: Phase, c: Case) {
    !p.Dropping? && Trim(p.src.id) == c.subscription
  }

  /** Events about the subscription carry its owner and its latest invoice. */
  predicate Polite(t: Turn, c: Case) {
    match t
    case Begin(_, src, _, _) => Speaking(src, c)
    case Book(step) => FromStripe(step)
    case Put(row) => row.sub.externalID != c.subscription
    case _ => true
  }

  predicate AllPolite(turns: seq<Turn>, c: Case) {
    forall i :: 0 <= i < |turns| ==> Polite(turns[i], c)
  }

  lemma RestIsPolite(turns: seq<Turn>, c: Case)
    requires turns != []
    ensures AllPolite(turns, c) ==> Polite(turns[0], c) && AllPolite(turns[1..], c)
    ensures Unfailing(turns) ==> !turns[0].Fail? && Unfailing(turns[1..])
  {
    assert forall i :: 0 <= i < |turns[1..]| ==> turns[1..][i] == turns[i + 1];
  }

  predicate Unfailing(turns: seq<Turn>) {
    forall i :: 0 <= i < |turns| ==> !turns[i].Fail?
  }

  /** The invoice is refunded in the ledger. */
  ghost predicate Base(s: Race, c: Case) {
    && s.account.user == c.user != "" && Sealed(s.account.ledger, c.user, c.inv)
    && forall h :: h in s.handlers ==> Knows(s.handlers[h], c)
  }

  predicate Open(a: Account, subscription: string) {
    Status(a, subscription).Some? && !IsRefunded(a, subscription)
  }

  lemma StartIsRevoking(a: Account, src: Source, env: Env, kind: Kind, c: Case)
    requires a.user == c.user != "" && Sealed(a.ledger, c.user, c.inv) && Speaking(src, c) && Trim(src.id) == c.subscription
    ensures Start(a, Upserted(src, kind), env, kind) == Some(Revoking(Upserted(src, kind), env, kind))
  {
  }

  lemma StartKnows(a: Account, src: Source, env: Env, kind: Kind, c: Case)
    requires Speaking(src, c)
    ensures var p := Start(a, Upserted(src, kind), env, kind); p.Some? ==> Knows(p.value, c)
  {
  }

  lemma GoesKnows(a: Account, p: Phase, stored: bool, c: Case)
    requires Knows(p, c)
    ensures Goes(a, p, stored).Some? ==> Knows(Goes(a, p, stored).value, c)
  {
  }

  /** A second look at the guard sees the refund. */
  lemma CheckIsDropping(a: Account, p: Phase, stored: bool, c: Case)
    requires a.user == c.user != "" && Sealed(a.ledger, c.user, c.inv) && Knows(p, c) && Concerns(p, c) && p.Checking?
    ensures Goes(a, p, stored) == Some(Dropping(p.src.id, p.env))
  {
  }

  lemma RevokeLedger(a: Account, id: string, env: Env)
    ensures Revoke(a, id, env).user == a.user && Revoke(a, id, env).ledger == a.ledger
  {
  }

  lemma ProvideLedger(a: Account, src: Source, env: Env, kind: Kind)
    ensures Provide(a, src, env, kind).user == a.user && Provide(a, src, env, kind).ledger == a.ledger
  {
  }

  lemma ActsSealed(a: Account, p: Phase, stored: bool, c: Case)
    requires a.user == c.user && Sealed(a.ledger, c.user, c.inv)
    ensures var b := Acts(a, p, stored); b.user == c.user && Sealed(b.ledger, c.user, c.inv)
  {
    match p {
      case Recording(src, _, bill) => RecordPaidKeepsSeal(a.rows, a.ledger, c.user, c.inv, src, bill);
      case Revoking(src, env, _) => RevokeLedger(a, src.id, env);
      case Dropping(id, env) => RevokeLedger(a, id, env);
      case Granting(src, env, kind) => ProvideLedger(a, src, env.(quotaAccepted := stored), kind);
      case _ =>
    }
  }

  lemma ReportedDrops(a: Account, fact: RefundFact, env: Env)
    ensures Reported(a, fact, env).Some? ==> Reported(a, fact, env).value.Dropping?
  {
    var l := AddRefund(a.ledger, fact).0;
    assert Called(a, l, fact, env).Some? ==> Called(a, l, fact, env).value.Dropping?;
  }

  /** The phase a turn puts its handler in. */
  function Entering(s: Race, t: Turn): Option<Phase> {
    match t
    case Begin(_, src, env, kind) => Start(s.account, Upserted(src, kind), env, kind)
    case Move(h, stored) => if h in s.handlers then Goes(s.account, s.handlers[h], stored) else None
    case Report(_, fact, env) => Reported(s.account, fact, env)
    case _ => None
  }

  lemma HandlersAfter(s: Race, t: Turn, h: nat)
    requires h in Take(s, t).handlers
    ensures (h in s.handlers && Take(s, t).handlers[h] == s.handlers[h]) || Entering(s, t) == Some(Take(s, t).handlers[h])
  {
  }

  /** The handler is past its second look and will apply the subscription's plan. */
  predicate Pays(p: Phase, c: Case) {
    p.Granting? && Concerns(p, c) && Due(p.src, p.env, p.kind)
  }

  /** The handler is past its first look and will store a row that is not a refunded one. */
  predicate Reopening(p: Phase, c: Case) {
    p.Writing? && Concerns(p, c) && NormalStatus(p.src) != "refunded"
  }

  /** The handler writes neither the subscription's row nor its plan next. */
  predicate Harmless(p: Phase, c: Case) {
    Knows(p, c) && (Concerns(p, c) ==> !p.Writing? && !p.Granting?)
  }

  lemma GoesSame(a: Account, p: Phase, stored: bool)
    ensures Goes(a, p, stored).Some? ==>
            var q := Goes(a, p, stored).value;
            !q.Writing? && (q.Granting? ==> p.Checking? && q.src == p.src)
  {
  }

  lemma StartSame(a: Account, src: Source, env: Env, kind: Kind)
    ensures var p := Start(a, src, env, kind); p.Some? ==> !p.value.Granting? && (p.value.Writing? ==> p.value.src == src)
  {
  }

  lemma StartIsHarmless(a: Account, src: Source, env: Env, kind: Kind, c: Case)
    requires a.user == c.user != "" && Sealed(a.ledger, c.user, c.inv) && Speaking(src, c)
    ensures var p := Start(a, Upserted(src, kind), env, kind); p.Some? ==> Harmless(p.value, c)
  {
    StartKnows(a, src, env, kind, c);
    StartSame(a, Upserted(src, kind), env, kind);
    if Trim(src.id) == c.subscription { StartIsRevoking(a, src, env, kind, c); }
  }

  lemma GoesIsHarmless(a: Account, p: Phase, stored: bool, c: Case)
    requires a.user == c.user != "" && Sealed(a.ledger, c.user, c.inv) && Knows(p, c)
    ensures Goes(a, p, stored).Some? ==> Harmless(Goes(a, p, stored).value, c)
  {
    GoesKnows(a, p, stored, c);
    GoesSame(a, p, stored);
    if p.Checking? && Concerns(p, c) { CheckIsDropping(a, p, stored, c); }
  }

  /** After the refund no handler gets past a look at the guard any more. */
  lemma EnteringIsHarmless(s: Race, t: Turn, c: Case)
    requires Base(s, c) && Polite(t, c)
    ensures Entering(s, t).Some? ==> Harmless(Entering(s, t).value, c)
  {
    match t {
      case Begin(_, src, env, kind) => StartIsHarmless(s.account, src, env, kind, c);
      case Move(h, stored) => if h in s.handlers { GoesIsHarmless(s.account, s.handlers[h], stored, c); }
      case Report(_, fact, env) => ReportedDrops(s.account, fact, env);
      case _ =>
    }
  }

  lemma TakeSealed(s: Race, t: Turn, c: Case)
    requires Base(s, c) && Polite(t, c)
    ensures Take(s, t).account.user == c.user && Sealed(Take(s, t).account.ledger, c.user, c.inv)
  {
    match t {
      case Move(h, stored) => if h in s.handlers { ActsSealed(s.account, s.handlers[h], stored, c); }
      case Report(_, fact, _) => StepKeepsSeal(s.account.ledger, c.user, c.inv, RefundSettled(fact));
      case Book(step) => StepKeepsSeal(s.account.ledger, c.user, c.inv, step);
      case _ =>
    }
  }

  lemma TurnKeepsBase(s: Race, t: Turn, c: Case)
    requires Base(s, c) && Polite(t, c)
    ensures Base(Take(s, t), c)
  {
    TakeSealed(s, t, c);
    EnteringIsHarmless(s, t, c);
    forall h | h in Take(s, t).handlers ensures Knows(Take(s, t).handlers[h], c) { HandlersAfter(s, t, h); }
  }

  // ----- the plan is applied again ---------------------------------------------------------------

  lemma ProvideShows(a: Account, src: Source, env: Env, kind: Kind, subscription: string)
    requires Due(src, env, kind)
    ensures Trim(src.id) != subscription ==> NoNewEffect(a, Provide(a, src, env, kind), subscription)
    ensures Trim(src.id) == subscription && env.quotaAccepted ==> !NoNewEffect(a, Provide(a, src, env, kind), subscription)
  {
    var plan := src.plan.value;
    if kind.Syncing? {
      var activation := Activation(a, env.invoice.value.billingReason);
      GrantShows(a, src, plan, activation || kind.created || Upgraded(a, plan), activation || kind.created, subscription);
    } else {
      GrantShows(a, src, plan, true, Activation(a, kind.bill.value.billingReason) || !Upgraded(a, plan), subscription);
    }
  }

  lemma ActsShow(a: Account, p: Phase, stored: bool, c: Case)
    ensures !Pays(p, c) ==> NoNewEffect(a, Acts(a, p, stored), c.subscription)
    ensures Pays(p, c) && stored ==> !NoNewEffect(a, Acts(a, p, stored), c.subscription)
  {
    match p {
      case Revoking(src, env, _) => RevokeStatus(a, src.id, env, c.subscription);
      case Dropping(id, env) => RevokeStatus(a, id, env, c.subscription);
      case Granting(src, env, kind) =>
        var e := env.(quotaAccepted := stored);
        assert Due(src, e, kind) <==> Due(src, env, kind);
        if Due(src, env, kind) { ProvideShows(a, src, e, kind, c.subscription); }
      case _ =>
    }
  }

  ghost predicate NobodyPays(s: Race, c: Case) {
    forall h :: h in s.handlers ==> !Pays(s.handlers[h], c)
  }

  lemma NobodyPaysNext(s: Race, t: Turn, c: Case)
    requires Base(s, c) && Polite(t, c) && NobodyPays(s, c)
    ensures NobodyPays(Take(s, t), c)
  {
    EnteringIsHarmless(s, t, c);
    forall h | h in Take(s, t).handlers ensures !Pays(Take(s, t).handlers[h], c) { HandlersAfter(s, t, h); }
  }

  lemma TurnShows(s: Race, t: Turn, c: Case)
    requires NobodyPays(s, c)
    ensures NoNewEffect(s.account, Take(s, t).account, c.subscription)
  {
    if t.Move? && t.h in s.handlers { ActsShow(s.account, s.handlers[t.h], t.stored, c); }
  }

  lemma {:induction false} NobodyPaysEver(s: Race, turns: seq<Turn>, c: Case)
    requires Base(s, c) && AllPolite(turns, c) && NobodyPays(s, c)
    ensures NoNewEffect(s.account, Run(s, turns).account, c.subscription)
    decreases |turns|
  {
    if turns != [] {
      RestIsPolite(turns, c);
      var t := Take(s, turns[0]);
      TurnKeepsBase(s, turns[0], c);
      NobodyPaysNext(s, turns[0], c);
      TurnShows(s, turns[0], c);
      NobodyPaysEver(t, turns[1..], c);
      EffectsCompose(s.account, t.account, Run(s, turns).account, c.subscription);
    }
  }

  /** Some continuation applies the subscription's plan or grants its quota. */
  ghost predicate CanPay(s: Race, c: Case) {
    exists turns :: AllPolite(turns, c) && !NoNewEffect(s.account, Run(s, turns).account, c.subscription)
  }

  lemma RunOne(s: Race, t: Turn)
    ensures Run(s, [t]) == Take(s, t)
  {
    assert [t][1..] == [];
  }

  /** Once the invoice is refunded in the ledger, its plan can be applied again if and only
      if a handler is already past its second look at the guard. */
  lemma PaysAgainExactly(s: Race, c: Case)
    requires Base(s, c)
    ensures CanPay(s, c) <==> !NobodyPays(s, c)
  {
    if NobodyPays(s, c) {
      forall turns | AllPolite(turns, c) ensures NoNewEffect(s.account, Run(s, turns).account, c.subscription) {
        NobodyPaysEver(s, turns, c);
      }
    } else {
      var h :| h in s.handlers && Pays(s.handlers[h], c);
      ActsShow(s.account, s.handlers[h], true, c);
      RunOne(s, Move(h, true));
      assert AllPolite([Move(h, true)], c);
    }
  }

  // ----- the row is left open --------------------------------------------------------------------

  lemma PutHere(a: Account, src: Source)
    ensures Status(a.(rows := PutRow(a.rows, NewRow(src))), Trim(src.id)) == Some(NormalStatus(src))
  {
    var i := RowIndex(a.rows, Trim(src.id));
    if i.Some? {
      IndexAfterUpdate(a.rows, i.value, NewRow(src).(sub := NewRow(src).sub.(id := a.rows[i.value].sub.id)), Trim(src.id));
    } else {
      AppendedIsFound(a.rows, NewRow(src));
    }
  }

  lemma {:induction false} AppendedIsFound(rows: seq<Row>, row: Row)
    requires RowIndex(rows, row.sub.externalID).None?
    ensures RowIndex(rows + [row], row.sub.externalID) == Some(|rows|)
  {
    if rows == [] {
      assert rows + [row] == [row];
    } else {
      assert (rows + [row])[0] == rows[0] && (rows + [row])[1..] == rows[1..] + [row];
      AppendedIsFound(rows[1..], row);
    }
  }

  lemma ProvideStatus(a: Account, src: Source, env: Env, kind: Kind, subscription: string)
    ensures Open(Provide(a, src, env, kind), subscription) ==> Open(a, subscription)
  {
    IndexAfterSupersede(a.rows, subscription);
    SupersedeMoves(a, subscription);
  }

  /** No step but such a write opens the row. */
  lemma ActsStatus(a: Account, p: Phase, stored: bool, c: Case)
    requires !Reopening(p, c)
    ensures Open(Acts(a, p, stored), c.subscription) ==> Open(a, c.subscription)
  {
    match p {
      case Writing(src, _, _) =>
        if Trim(src.id) == c.subscription { PutHere(a, src); } else { PutRowElsewhere(a, NewRow(src), c.subscription); }
      case Revoking(src, env, _) => RevokeStatus(a, src.id, env, c.subscription);
      case Dropping(id, env) => RevokeStatus(a, id, env, c.subscription);
      case Granting(src, env, kind) => ProvideStatus(a, src, env.(quotaAccepted := stored), kind, c.subscription);
      case _ =>
    }
  }

  /** A handler that will mark the row refunded before it is done. */
  predicate Mends(p: Phase, c: Case) {
    match p
    case Dropping(id, _) => Trim(id) == c.subscription
    case Revoking(src, _, _) => Trim(src.id) == c.subscription
    case Checking(src, _, _) => Trim(src.id) == c.subscription
    case Recording(src, _, bill) => Trim(src.id) == c.subscription && Unrecorded(bill)
    case _ => false
  }

  /** Handlers of this kind come to a second look, or to a revocation, whatever the store says. */
  predicate LooksAgain(kind: Kind) {
    kind.Syncing? || kind.Charging? || (kind.Paying? && kind.bill.Some? && Unrecorded(kind.bill.value))
  }

  /** The next step of a mending handler mends the row, or leaves the handler mending. */
  lemma MendsOn(a: Account, p: Phase, stored: bool, c: Case)
    requires a.user == c.user != "" && Sealed(a.ledger, c.user, c.inv) && Knows(p, c) && Mends(p, c)
    ensures !Open(Acts(a, p, stored), c.subscription) || (Goes(a, p, stored).Some? && Mends(Goes(a, p, stored).value, c))
  {
    match p {
      case Dropping(id, env) => RevokeShuts(a, id, env, c.subscription);
      case Revoking(src, env, _) => RevokeShuts(a, src.id, env, c.subscription);
      case Checking(_, _, _) => CheckIsDropping(a, p, stored, c);
      case Recording(src, env, bill) => assert Goes(a, p, stored) == Some(Checking(src, env, Paying(Some(bill))));
    }
  }

  lemma RevokeShuts(a: Account, id: string, env: Env, subscription: string)
    requires Trim(id) == subscription
    ensures !Open(Revoke(a, id, env), subscription)
  {
    RevokeStatus(a, id, env, subscription);
  }

  ghost predicate NobodyReopens(s: Race, c: Case) {
    forall h :: h in s.handlers ==> !Reopening(s.handlers[h], c)
  }

  ghost predicate WritersLookAgain(s: Race, c: Case) {
    forall h :: h in s.handlers && Reopening(s.handlers[h], c) ==> LooksAgain(s.handlers[h].kind)
  }

  ghost predicate SomebodyMends(s: Race, c: Case) {
    exists h :: h in s.handlers && Mends(s.handlers[h], c)
  }

  lemma NoNewWriter(s: Race, t: Turn, c: Case, h: nat)
    requires Base(s, c) && Polite(t, c) && h in Take(s, t).handlers && Reopening(Take(s, t).handlers[h], c)
    ensures h in s.handlers && Take(s, t).handlers[h] == s.handlers[h]
  {
    EnteringIsHarmless(s, t, c);
    HandlersAfter(s, t, h);
  }

  lemma OpensOnlyByMove(s: Race, t: Turn, c: Case)
    requires Polite(t, c) && !t.Move?
    ensures Status(Take(s, t).account, c.subscription) == Status(s.account, c.subscription)
  {
    if t.Put? { PutRowElsewhere(s.account, t.row, c.subscription); }
  }

  lemma StaysShut(s: Race, t: Turn, c: Case)
    requires Base(s, c) && Polite(t, c) && NobodyReopens(s, c) && !Open(s.account, c.subscription)
    ensures NobodyReopens(Take(s, t), c) && !Open(Take(s, t).account, c.subscription)
  {
    forall h | h in Take(s, t).handlers ensures !Reopening(Take(s, t).handlers[h], c) {
      if Reopening(Take(s, t).handlers[h], c) { NoNewWriter(s, t, c, h); }
    }
    if t.Move? {
      if t.h in s.handlers { ActsStatus(s.account, s.handlers[t.h], t.stored, c); }
    } else {
      OpensOnlyByMove(s, t, c);
    }
  }

  lemma {:induction false} RunStaysShut(s: Race, turns: seq<Turn>, c: Case)
    requires Base(s, c) && AllPolite(turns, c) && NobodyReopens(s, c) && !Open(s.account, c.subscription)
    ensures !Open(Run(s, turns).account, c.subscription)
    decreases |turns|
  {
    if turns != [] {
      RestIsPolite(turns, c);
      TurnKeepsBase(s, turns[0], c);
      StaysShut(s, turns[0], c);
      RunStaysShut(Take(s, turns[0]), turns[1..], c);
    }
  }

  // ----- running the others to their end -----------------------------------------------------------

  /** Handlers only move on: nobody begins, nothing fails. */
  predicate OnlyMoves(turns: seq<Turn>) {
    forall i :: 0 <= i < |turns| ==> turns[i].Move?
  }

  lemma {:induction false} RunAppend(s: Race, x: seq<Turn>, y: seq<Turn>)
    ensures Run(s, x + y) == Run(Run(s, x), y)
    decreases |x|
  {
    if x == [] {
      assert x + y == y;
    } else {
      assert (x + y)[1..] == x[1..] + y;
      RunAppend(Take(s, x[0]), x[1..], y);
    }
  }

  lemma RunFirst(s: Race, t: Turn, rest: seq<Turn>)
    ensures Run(s, [t] + rest) == Run(Take(s, t), rest)
  {
    assert ([t] + rest)[1..] == rest;
  }

  lemma {:induction false} Finishes(s: Race, g: nat) returns (turns: seq<Turn>)
    requires g in s.handlers
    ensures OnlyMoves(turns) && Run(s, turns).handlers == s.handlers - {g}
    decreases Rank(s.handlers[g])
  {
    var p := s.handlers[g];
    var t := Take(s, Move(g, false));
    GoesDown(s.account, p, false);
    if Goes(s.account, p, false).Some? {
      var rest := Finishes(t, g);
      turns := [Move(g, false)] + rest;
      RunFirst(s, Move(g, false), rest);
      assert t.handlers - {g} == s.handlers - {g};
    } else {
      turns := [Move(g, false)];
      RunOne(s, Move(g, false));
    }
  }

  /** All handlers but `h` can run to their end. */
  lemma {:induction false} OthersFinish(s: Race, h: nat) returns (turns: seq<Turn>)
    requires h in s.handlers
    ensures OnlyMoves(turns) && Run(s, turns).handlers == map[h := s.handlers[h]]
    decreases |s.handlers|
  {
    if g :| g in s.handlers && g != h {
      var first := Finishes(s, g);
      var t := Run(s, first);
      assert t.handlers == s.handlers - {g};
      Shrinks(s.handlers, g);
      var rest := OthersFinish(t, h);
      RunAppend(s, first, rest);
      turns := first + rest;
    } else {
      turns := [];
      assert s.handlers == map[h := s.handlers[h]];
    }
  }

  lemma Shrinks(m: map<nat, Phase>, g: nat)
    requires g in m
    ensures |m - {g}| < |m|
  {
    assert (m - {g}).Keys == m.Keys - {g};
    assert |m.Keys| == |m| && |(m - {g}).Keys| == |m - {g}|;
  }

  // ----- the exact conditions ------------------------------------------------------------------------

  /** Some continuation ends with nobody in flight and the row open. */
  ghost predicate CanEndOpen(s: Race, c: Case) {
    exists turns :: AllPolite(turns, c) && EndsOpen(Run(s, turns), c)
  }

  /** The same without crashes or failing calls, but for the store refusing an invoice. */
  ghost predicate CanEndOpenUnfailing(s: Race, c: Case) {
    exists turns :: AllPolite(turns, c) && Unfailing(turns) && EndsOpen(Run(s, turns), c)
  }

  predicate EndsOpen(s: Race, c: Case) {
    s.handlers == map[] && Open(s.account, c.subscription)
  }

  lemma WriteOpens(s: Race, h: nat, c: Case)
    requires h in s.handlers && Reopening(s.handlers[h], c)
    ensures Open(Take(s, Move(h, false)).account, c.subscription)
  {
    PutHere(s.account, s.handlers[h].src);
  }

  lemma CloseOpens(a: Account, src: Source, env: Env, kind: Kind, subscription: string)
    ensures Open(Close(a, src, env, kind), subscription) <==> Open(a, subscription)
  {
  }

  /** The writer goes last and then fails. */
  lemma FailingWriterEndsOpen(s: Race, h: nat, c: Case) returns (turns: seq<Turn>)
    requires h in s.handlers && s.handlers == map[h := s.handlers[h]] && Reopening(s.handlers[h], c)
    ensures AllPolite(turns, c) && EndsOpen(Run(s, turns), c)
  {
    WriteOpens(s, h, c);
    var t := Take(s, Move(h, false));
    turns := [Move(h, false)] + [Fail(h)];
    RunFirst(s, Move(h, false), [Fail(h)]);
    RunOne(t, Fail(h));
    assert t.handlers - {h} == map[];
  }

  /** Once the invoice is refunded in the ledger and its row is shut, the row can end up open
      if and only if a handler past its first look at the guard has yet to store its row. */
  lemma EndsOpenExactly(s: Race, c: Case)
    requires Base(s, c) && !Open(s.account, c.subscription)
    ensures CanEndOpen(s, c) <==> !NobodyReopens(s, c)
  {
    if NobodyReopens(s, c) {
      forall turns | AllPolite(turns, c) ensures !EndsOpen(Run(s, turns), c) {
        RunStaysShut(s, turns, c);
      }
    } else {
      var h :| h in s.handlers && Reopening(s.handlers[h], c);
      var first := OthersFinish(s, h);
      var t := Run(s, first);
      assert t.handlers[h] == s.handlers[h];
      var last := FailingWriterEndsOpen(t, h, c);
      RunAppend(s, first, last);
      assert AllPolite(first + last, c);
    }
  }

  /** While every writer looks again, an open row has somebody to mend it. */
  ghost predicate Mended(s: Race, c: Case) {
    WritersLookAgain(s, c) && (Open(s.account, c.subscription) ==> SomebodyMends(s, c))
  }

  lemma WriterMends(p: Phase, c: Case)
    requires Reopening(p, c) && LooksAgain(p.kind)
    ensures var q := AfterUpsert(p.src, p.env, p.kind); q.Some? && Mends(q.value, c)
  {
  }

  lemma MoveKeepsMended(s: Race, h: nat, stored: bool, c: Case)
    requires Base(s, c) && Mended(s, c) && h in s.handlers
    ensures var t := Take(s, Move(h, stored)); Open(t.account, c.subscription) ==> SomebodyMends(t, c)
  {
    var p, t := s.handlers[h], Take(s, Move(h, stored));
    if Open(t.account, c.subscription) {
      if Reopening(p, c) {
        WriterMends(p, c);
        assert Mends(t.handlers[h], c);
      } else {
        ActsStatus(s.account, p, stored, c);
        var g :| g in s.handlers && Mends(s.handlers[g], c);
        if g == h {
          MendsOn(s.account, p, stored, c);
          assert Mends(t.handlers[h], c);
        } else {
          assert Mends(t.handlers[g], c);
        }
      }
    }
  }

  lemma TurnKeepsMended(s: Race, t: Turn, c: Case)
    requires Base(s, c) && Polite(t, c) && !t.Fail? && Mended(s, c)
    ensures Mended(Take(s, t), c)
  {
    forall h | h in Take(s, t).handlers && Reopening(Take(s, t).handlers[h], c) ensures LooksAgain(Take(s, t).handlers[h].kind) {
      NoNewWriter(s, t, c, h);
    }
    if t.Move? {
      if t.h in s.handlers { MoveKeepsMended(s, t.h, t.stored, c); }
    } else {
      OpensOnlyByMove(s, t, c);
      if Open(s.account, c.subscription) { MendersStay(s, t, c); }
    }
  }

  lemma MendersStay(s: Race, t: Turn, c: Case)
    requires !t.Fail? && !t.Move? && SomebodyMends(s, c)
    ensures SomebodyMends(Take(s, t), c)
  {
    var g :| g in s.handlers && Mends(s.handlers[g], c);
    assert g in Take(s, t).handlers && Take(s, t).handlers[g] == s.handlers[g];
  }

  lemma {:induction false} RunKeepsMended(s: Race, turns: seq<Turn>, c: Case)
    requires Base(s, c) && AllPolite(turns, c) && Unfailing(turns) && Mended(s, c)
    ensures Mended(Run(s, turns), c)
    decreases |turns|
  {
    if turns != [] {
      RestIsPolite(turns, c);
      TurnKeepsBase(s, turns[0], c);
      TurnKeepsMended(s, turns[0], c);
      RunKeepsMended(Take(s, turns[0]), turns[1..], c);
    }
  }

  /** The step in which the only handler left stores its row. */
  lemma OnlyWriter(s: Race, h: nat, c: Case)
    requires h in s.handlers && s.handlers == map[h := s.handlers[h]] && Reopening(s.handlers[h], c)
    ensures var p, t := s.handlers[h], Take(s, Move(h, false));
            && Open(t.account, c.subscription)
            && t.handlers == if AfterUpsert(p.src, p.env, p.kind).Some? then map[h := AfterUpsert(p.src, p.env, p.kind).value] else map[]
  {
    WriteOpens(s, h, c);
    assert s.handlers - {h} == map[];
  }

  /** A writer that does not look again goes last and comes to its own end. */
  lemma WriterEndsOpen(s: Race, h: nat, c: Case) returns (turns: seq<Turn>)
    requires h in s.handlers && s.handlers == map[h := s.handlers[h]] && Reopening(s.handlers[h], c) && !LooksAgain(s.handlers[h].kind)
    ensures OnlyMoves(turns) && EndsOpen(Run(s, turns), c)
  {
    var p := s.handlers[h];
    OnlyWriter(s, h, c);
    var t := Take(s, Move(h, false));
    if AfterUpsert(p.src, p.env, p.kind).None? {
      turns := [Move(h, false)];
      RunOne(s, Move(h, false));
    } else {
      turns := [Move(h, false)] + [Move(h, false)];
      RunFirst(s, Move(h, false), [Move(h, false)]);
      RunOne(t, Move(h, false));
      LastMove(t, h, p, c);
    }
  }

  lemma LastMove(t: Race, h: nat, p: Phase, c: Case)
    requires p.Writing? && !LooksAgain(p.kind) && AfterUpsert(p.src, p.env, p.kind).Some?
    requires t.handlers == map[h := AfterUpsert(p.src, p.env, p.kind).value] && Open(t.account, c.subscription)
    ensures EndsOpen(Take(t, Move(h, false)), c)
  {
    var q := t.handlers[h];
    assert t.handlers - {h} == map[];
    if q.Closing? { CloseOpens(t.account, q.src, q.env, q.kind, c.subscription); }
  }

  /** Without failures it can end up open if and only if such a handler does not look at the
      guard again: a deletion, a failed payment, or a paid invoice that may be refused. */
  lemma EndsOpenUnfailingExactly(s: Race, c: Case)
    requires Base(s, c) && !Open(s.account, c.subscription)
    ensures CanEndOpenUnfailing(s, c) <==> !WritersLookAgain(s, c)
  {
    if WritersLookAgain(s, c) {
      forall turns | AllPolite(turns, c) && Unfailing(turns) ensures !EndsOpen(Run(s, turns), c) {
        RunKeepsMended(s, turns, c);
      }
    } else {
      var h :| h in s.handlers && Reopening(s.handlers[h], c) && !LooksAgain(s.handlers[h].kind);
      var first := OthersFinish(s, h);
      var t := Run(s, first);
      assert t.handlers[h] == s.handlers[h];
      var last := WriterEndsOpen(t, h, c);
      RunAppend(s, first, last);
      assert AllPolite(first + last, c) && Unfailing(first + last);
    }
  }

  // ----- a run ----------------------------------------------------------------------------------------

  /** A deletion looks at the guard, a refund that settles the subscription is recorded and its
      row marked, and only then the deletion stores its row. */
  function Overtaken(src: Source, env: Env, fact: RefundFact): seq<Turn> {
    [Begin(0, src, env, Deleting(false)), Report(1, fact, env), Move(1, false), Move(0, false), Move(0, false)]
  }

  lemma DeletionBegins(a: Account, src: Source, env: Env)
    requires UpsertWrites(a, src, env)
    ensures Take(Race(a, map[]), Begin(0, src, env, Deleting(false))) == Race(a, map[0 := Writing(src, env, Deleting(false))])
  {
    assert Start(a, src, env, Deleting(false)) == Some(Writing(src, env, Deleting(false)));
  }

  lemma RefundGoesBy(a: Account, p: Phase, fact: RefundFact, env: Env, id: string)
    requires Reported(a, fact, env) == Some(Dropping(id, env))
    ensures var l := AddRefund(a.ledger, fact).0;
            Take(Take(Race(a, map[0 := p]), Report(1, fact, env)), Move(1, false)) == Race(Revoke(a.(ledger := l), id, env), map[0 := p])
  {
    var l := AddRefund(a.ledger, fact).0;
    var s := Race(a.(ledger := l), map[0 := p, 1 := Dropping(id, env)]);
    assert Take(Race(a, map[0 := p]), Report(1, fact, env)) == s;
    assert s.handlers - {1} == map[0 := p];
  }

  /** For every such deletion and refund the row is marked in between and open at the end. */
  lemma DeletionOvertakesRefund(a: Account, src: Source, env: Env, fact: RefundFact, id: string)
    requires UpsertWrites(a, src, env) && NormalStatus(src) != "refunded" && Status(a, Trim(src.id)).Some?
    requires Reported(a, fact, env) == Some(Dropping(id, env)) && Trim(id) == Trim(src.id)
    ensures IsRefunded(Run(Race(a, map[]), Overtaken(src, env, fact)[..3]).account, Trim(src.id))
    ensures EndsOpen(Run(Race(a, map[]), Overtaken(src, env, fact)), Case(a.user, Trim(src.id), src.latestInvoice))
  {
    var s := Race(Revoke(a.(ledger := AddRefund(a.ledger, fact).0), id, env), map[0 := Writing(src, env, Deleting(false))]);
    FirstThree(a, src, env, fact, id);
    RevokeStatus(a.(ledger := AddRefund(a.ledger, fact).0), id, env, Trim(src.id));
    FiveRuns(Race(a, map[]), Overtaken(src, env, fact));
    LastTwo(s, src, env, Case(a.user, Trim(src.id), src.latestInvoice));
  }

  lemma FirstThree(a: Account, src: Source, env: Env, fact: RefundFact, id: string)
    requires UpsertWrites(a, src, env) && Reported(a, fact, env) == Some(Dropping(id, env))
    ensures Run(Race(a, map[]), Overtaken(src, env, fact)[..3]) ==
            Race(Revoke(a.(ledger := AddRefund(a.ledger, fact).0), id, env), map[0 := Writing(src, env, Deleting(false))])
  {
    DeletionBegins(a, src, env);
    RefundGoesBy(a, Writing(src, env, Deleting(false)), fact, env, id);
    FiveRuns(Race(a, map[]), Overtaken(src, env, fact));
  }

  lemma LastTwo(s: Race, src: Source, env: Env, c: Case)
    requires s.handlers == map[0 := Writing(src, env, Deleting(false))] && Reopening(s.handlers[0], c)
    ensures EndsOpen(Take(Take(s, Move(0, false)), Move(0, false)), c)
  {
    OnlyWriter(s, 0, c);
    LastMove(Take(s, Move(0, false)), 0, s.handlers[0], c);
  }

  lemma FiveRuns(s: Race, turns: seq<Turn>)
    requires |turns| == 5
    ensures Run(s, turns[..3]) == Take(Take(Take(s, turns[0]), turns[1]), turns[2])
    ensures Run(s, turns) == Take(Take(Run(s, turns[..3]), turns[3]), turns[4])
  {
    var first, last := turns[..3], turns[3..];
    assert turns == first + last;
    RunAppend(s, first, last);
    assert first == [turns[0]] + ([turns[1]] + [turns[2]]) && last == [turns[3]] + [turns[4]];
    RunFirst(s, turns[0], [turns[1]] + [turns[2]]);
    RunFirst(Take(s, turns[0]), turns[1], [turns[2]]);
    RunOne(Take(Take(s, turns[0]), turns[1]), turns[2]);
    RunFirst(Run(s, first), turns[3], [turns[4]]);
    RunOne(Take(Run(s, first), turns[3]), turns[4]);
  }

  /** An account with one payment that is about to be refunded, and the refund. */
  function Paid(): Account {
    Sample().(rows := [Row(Subscription("s", "sub_1", "stripe", "subscription", "PLUS", "active"), None)],
              ledger := Sample().ledger.(refunds := []))
  }

  lemma PaidIsReported(env: Env)
    ensures Reported(Paid(), Sample().ledger.refunds[0], env) == Some(Dropping("sub_1", env))
  {
    var a, fact := Paid(), Sample().ledger.refunds[0];
    var l := AddRefund(a.ledger, fact).0;
    assert a.ledger.refunds + [fact] == [fact];
    assert HasPayment(l.payments, "p") by { assert l.payments[0].id == "p"; }
  }

  lemma PaidIsUnguarded(src: Source)
    requires src == SampleSource("u", "in_1", "canceled")
    ensures !Guard(Paid().ledger, src)
  {
    var l := Paid().ledger;
    assert Trim("in_1") == "in_1" by { assert Trimmed("in_1"); }
    assert ForInvoice(l, "u", "in_1", l.payments[0]);
    assert Refunded(l.refunds, "p") == 0;
  }

  /** One such run, for a deletion that carries the refunded invoice itself. */
  lemma SampleIsOvertaken(env: Env)
    ensures EndsOpen(Run(Race(Paid(), map[]), Overtaken(SampleSource("u", "in_1", "canceled"), env, Sample().ledger.refunds[0])), Case("u", "sub_1", "in_1"))
  {
    var src := SampleSource("u", "in_1", "canceled");
    SampleTrims();
    CanceledIsSpelledOut("in_1");
    PaidIsUnguarded(src);
    PaidIsReported(env);
    assert Status(Paid(), "sub_1") == Some("active");
    DeletionOvertakesRefund(Paid(), src, env, Sample().ledger.refunds[0], "sub_1");
  }
}
