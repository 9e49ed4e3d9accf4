/**
 Which paid invoice is a customer's first (isFirstPaidXConnectInvoice and
 referralPlanFromInvoice in api/stripe.go): only that one earns the referral reward.
 */
module FirstInvoice {
  import opened Finance
  import opened Text

  /** What the billing catalog says about one price line. */
  datatype Line = NoPrice | NotInCatalog | CatalogError | OtherProduct | WrongInterval | XConnect(plan: string)

  /** The invoice as fetched for verification. */
  datatype Verified = Verified(
    amountPaid: int, status: string, outOfBand: bool, paymentIntent: string, paidAt: int, lines: seq<Line>, hasMore: bool)

  /** The invoice as listed; `fetched` is None when the fetch fails. */
  datatype Invoice = Invoice(id: string, amountPaid: int, status: string, subscription: string, fetched: Option<Verified>)

  /** The verdict on one invoice; Error covers every failed lookup. */
  datatype Answer = Yes | No | Error

  // ----- the plan of an invoice --------------------------------------------------------------

  function PlanFrom(lines: seq<Line>, hasMore: bool, seen: string): Option<string> {
    if lines == [] then (if hasMore then None else Some(seen))
    else match lines[0]
         case OtherProduct => Some("")
         case XConnect(plan) => if seen != "" && seen != plan then None else PlanFrom(lines[1..], hasMore, plan)
         case _ => None
  }

  function PlanOf(lines: seq<Line>, hasMore: bool): Option<string> {
    if lines == [] then None else PlanFrom(lines, hasMore, "")
  }

  /** referralPlanFromInvoice. */
  method PlanFromInvoice(lines: seq<Line>, hasMore: bool) returns (r: Option<string>)
    ensures r == PlanOf(lines, hasMore)
  {
    if |lines| == 0 {
      return None;
    }
    var planID := "";
    for i := 0 to |lines|
      invariant PlanOf(lines, hasMore) == PlanFrom(lines[i..], hasMore, planID)
    {
      assert lines[i..][0] == lines[i] && lines[i..][1..] == lines[i + 1..];
      match lines[i] {
        case OtherProduct => return Some("");
        case XConnect(plan) =>
          if planID != "" && planID != plan {
            return None;
          }
          planID := plan;
        case NoPrice => return None;
        case NotInCatalog => return None;
        case CatalogError => return None;
        case WrongInterval => return None;
      }
    }
    r := if hasMore then None else Some(planID);
  }

  lemma {:induction false} PlanFromIsUniform(lines: seq<Line>, hasMore: bool, seen: string, plan: string)
    requires plan != "" && forall i :: 0 <= i < |lines| && lines[i].XConnect? ==> lines[i].plan != ""
    ensures PlanFrom(lines, hasMore, seen) == Some(plan) <==>
            !hasMore && (lines == [] ==> seen == plan) && (seen == "" || seen == plan || lines == [])
            && forall i :: 0 <= i < |lines| ==> lines[i] == XConnect(plan)
  {
    if lines != [] {
      var rest := lines[1..];
      assert forall i :: 0 <= i < |rest| ==> rest[i] == lines[i + 1];
      if lines[0].XConnect? {
        PlanFromIsUniform(rest, hasMore, lines[0].plan, plan);
        assert (forall i :: 0 <= i < |lines| ==> lines[i] == XConnect(plan))
               <==> lines[0] == XConnect(plan) && forall i :: 0 <= i < |rest| ==> rest[i] == XConnect(plan) by {
          assert forall i :: 0 < i < |lines| ==> lines[i] == rest[i - 1];
        }
      }
    }
  }

  /** An invoice has a plan exactly when it has lines, shows all of them, and every one is
      a price of that plan. */
  lemma PlanIsUniform(lines: seq<Line>, hasMore: bool, plan: string)
    requires plan != "" && forall i :: 0 <= i < |lines| && lines[i].XConnect? ==> lines[i].plan != ""
    ensures PlanOf(lines, hasMore) == Some(plan) <==> lines != [] && !hasMore && forall i :: 0 <= i < |lines| ==> lines[i] == XConnect(plan)
  {
    PlanFromIsUniform(lines, hasMore, "", plan);
  }

  // ----- the search --------------------------------------------------------------------------

  predicate Listed(c: Invoice) {
    c.amountPaid > 0 && EqualFold(c.status, "paid") && c.subscription != ""
  }

  predicate Collected(v: Verified) {
    v.amountPaid > 0 && EqualFold(v.status, "paid") && !v.outOfBand && v.paymentIntent != "" && v.paidAt > 0
  }

  /** The invoice cannot be judged: the fetch or the plan lookup fails. */
  predicate Unjudged(c: Invoice) {
    Listed(c) && (c.fetched.None? || (Collected(c.fetched.value) && PlanOf(c.fetched.value.lines, c.fetched.value.hasMore).None?))
  }

  /** A paid, collected invoice for the product. */
  predicate Qualifies(c: Invoice) {
    && Listed(c) && c.fetched.Some? && Collected(c.fetched.value)
    && PlanOf(c.fetched.value.lines, c.fetched.value.hasMore).Some?
    && PlanOf(c.fetched.value.lines, c.fetched.value.hasMore).value != ""
  }

  predicate Earlier(paidAt: int, id: string, other: int, otherID: string) {
    paidAt < other || (paidAt == other && Less(id, otherID))
  }

  /** `c` shows that the current invoice is not the first. */
  predicate Precedes(c: Invoice, id: string, paidAt: int) {
    Qualifies(c) && Earlier(if c.id == id then paidAt else c.fetched.value.paidAt, c.id, paidAt, id)
  }

  function Search(history: seq<Invoice>, id: string, paidAt: int, found: bool): Answer {
    if history == [] then (if found then Yes else Error)
    else if Unjudged(history[0]) then Error
    else if Precedes(history[0], id, paidAt) then No
    else Search(history[1..], id, paidAt, found || history[0].id == id)
  }

  /** isFirstPaidXConnectInvoice on a fixed history. */
  method IsFirstPaidXConnectInvoice(customer: string, history: seq<Invoice>, id: string, paidAt: int) returns (r: Answer)
    ensures r == if Trim(customer) == "" then Error else Search(history, id, paidAt, false)
  {
    if Trim(customer) == "" {
      return Error;
    }
    var found := false;
    for i := 0 to |history|
      invariant Search(history, id, paidAt, false) == Search(history[i..], id, paidAt, found)
    {
      var c := history[i];
      assert history[i..][0] == c && history[i..][1..] == history[i + 1..];
      if c.id == id {
        found := true;
      }
      if c.amountPaid <= 0 || !EqualFold(c.status, "paid") || c.subscription == "" {
        continue;
      }
      if c.fetched.None? {
        return Error;
      }
      var v := c.fetched.value;
      if v.amountPaid <= 0 || !EqualFold(v.status, "paid") || v.outOfBand || v.paymentIntent == "" || v.paidAt <= 0 {
        continue;
      }
      var at := v.paidAt;
      if c.id == id {
        at := paidAt;
      }
      var plan := PlanFromInvoice(v.lines, v.hasMore);
      if plan.None? {
        return Error;
      }
      if plan.value != "" && (at < paidAt || (at == paidAt && Less(c.id, id))) {
        return No;
      }
    }
    r := if found then Yes else Error;
  }

  // ----- exactly one first invoice --------------------------------------------------------------

  /** Yes means: everything could be judged, the invoice is in the history, nothing precedes it. */
  lemma {:induction false} YesMeansFirst(history: seq<Invoice>, id: string, paidAt: int, found: bool)
    ensures Search(history, id, paidAt, found) == Yes <==>
            && (forall c :: c in history ==> !Unjudged(c) && !Precedes(c, id, paidAt))
            && (found || exists c :: c in history && c.id == id)
  {
    if history != [] {
      YesMeansFirst(history[1..], id, paidAt, found || history[0].id == id);
      assert forall c :: c in history <==> c == history[0] || c in history[1..];
    }
  }

  ghost predicate Distinct(history: seq<Invoice>) {
    forall c, d :: c in history && d in history && c.id == d.id ==> c == d
  }

  ghost predicate Judged(history: seq<Invoice>) {
    forall c :: c in history ==> !Unjudged(c)
  }

  predicate Before(c: Invoice, d: Invoice)
    requires Qualifies(c) && Qualifies(d)
  {
    Earlier(c.fetched.value.paidAt, c.id, d.fetched.value.paidAt, d.id)
  }

  lemma {:induction false} EarliestExists(history: seq<Invoice>) returns (first: Invoice)
    requires exists c :: c in history && Qualifies(c)
    ensures first in history && Qualifies(first)
    ensures forall c :: c in history && Qualifies(c) ==> !Before(c, first)
    decreases |history|
  {
    var head, rest := history[0], history[1..];
    assert forall c :: c in history <==> c == head || c in rest;
    if !Qualifies(head) {
      first := EarliestExists(rest);
    } else if forall c :: c in rest ==> !Qualifies(c) {
      first := head;
      LessTotal(head.id, head.id);
    } else {
      first := EarliestExists(rest);
      if Before(head, first) {
        var f := first;
        first := head;
        forall c | c in history && Qualifies(c) ensures !Before(c, first) {
          LessTotal(c.id, first.id);
          if Before(c, first) { EarlierTransitive(c, first, f); }
        }
      }
    }
  }

  lemma EarlierTransitive(c: Invoice, d: Invoice, e: Invoice)
    requires Qualifies(c) && Qualifies(d) && Qualifies(e) && Before(c, d) && Before(d, e)
    ensures Before(c, e)
  {
    if c.fetched.value.paidAt == d.fetched.value.paidAt == e.fetched.value.paidAt { LessTransitive(c.id, d.id, e.id); }
  }

  /** In a history with distinct ids in which every plan resolves, exactly one qualifying
      invoice is judged the first: the least by paid time, then id. */
  lemma ExactlyOneFirst(history: seq<Invoice>) returns (first: Invoice)
    requires Distinct(history) && Judged(history) && exists c :: c in history && Qualifies(c)
    ensures first in history && Qualifies(first) && forall c :: c in history && Qualifies(c) && c != first ==> Before(first, c)
    ensures forall c :: c in history && Qualifies(c) ==> (Search(history, c.id, c.fetched.value.paidAt, false) == Yes <==> c == first)
  {
    first := EarliestExists(history);
    forall c | c in history && Qualifies(c) && c != first ensures Before(first, c) {
      LessTotal(first.id, c.id);
    }
    forall c | c in history && Qualifies(c) ensures Search(history, c.id, c.fetched.value.paidAt, false) == Yes <==> c == first {
      YesMeansFirst(history, c.id, c.fetched.value.paidAt, false);
      LessTotal(c.id, c.id);
      if c == first {
        forall d | d in history ensures !Precedes(d, first.id, first.fetched.value.paidAt) {
          if d.id == first.id { assert d == first; }
        }
      } else {
        assert first.id != c.id && Before(first, c);
        assert Precedes(first, c.id, c.fetched.value.paidAt);
      }
    }
  }

  // ----- which invoices count ------------------------------------------------------------------

  /** Money was collected for it: an amount, paid, through a payment intent, at a known time. */
  ghost predicate Proven(v: Verified) {
    v.amountPaid > 0 && Lower(v.status) == "paid" && !v.outOfBand && v.paymentIntent != "" && v.paidAt > 0
  }

  ghost predicate OnRecord(c: Invoice) {
    c.amountPaid > 0 && Lower(c.status) == "paid" && c.subscription != ""
  }

  ghost predicate PlansNamed(lines: seq<Line>) {
    forall i :: 0 <= i < |lines| && lines[i].XConnect? ==> lines[i].plan != ""
  }

  lemma ListedExactly(c: Invoice)
    ensures Listed(c) <==> OnRecord(c)
    ensures c.fetched.Some? ==> (Collected(c.fetched.value) <==> Proven(c.fetched.value))
  {
    assert Lower("paid") == "paid";
  }

  /** An invoice counts exactly when it is on record as paid for a subscription, the fetched one
      proves it, and shows in full only lines of one plan of the product. */
  lemma QualifiesExactly(c: Invoice)
    requires c.fetched.Some? ==> PlansNamed(c.fetched.value.lines)
    ensures Qualifies(c) <==>
            && OnRecord(c) && c.fetched.Some? && Proven(c.fetched.value) && !c.fetched.value.hasMore
            && exists plan :: OnePlan(c.fetched.value.lines, plan)
  {
    ListedExactly(c);
    if c.fetched.Some? {
      var v := c.fetched.value;
      var plan := PlanOf(v.lines, v.hasMore);
      if plan.Some? && plan.value != "" {
        PlanIsUniform(v.lines, v.hasMore, plan.value);
        assert OnePlan(v.lines, plan.value);
      }
      if p :| OnePlan(v.lines, p) { PlanIsUniform(v.lines, v.hasMore, p); }
    }
  }

  ghost predicate OnePlan(lines: seq<Line>, plan: string) {
    plan != "" && lines != [] && forall i :: 0 <= i < |lines| ==> lines[i] == XConnect(plan)
  }

  /** The first line that is not of the plan before it, and is not another product either. */
  ghost predicate Breaks(lines: seq<Line>, plan: string, k: int) {
    0 <= k < |lines| && lines[k] != XConnect(plan) && !lines[k].OtherProduct? && forall j :: 0 <= j < k ==> lines[j] == XConnect(plan)
  }

  lemma {:induction false} PlanFromFails(lines: seq<Line>, hasMore: bool, seen: string)
    requires seen != ""
    ensures PlanFrom(lines, hasMore, seen).None? <==>
            (hasMore && forall j :: 0 <= j < |lines| ==> lines[j] == XConnect(seen)) || exists k :: Breaks(lines, seen, k)
  {
    if lines != [] {
      var rest := lines[1..];
      assert forall j :: 0 <= j < |rest| ==> rest[j] == lines[j + 1];
      if lines[0] == XConnect(seen) {
        PlanFromFails(rest, hasMore, seen);
        if k :| Breaks(rest, seen, k) { BreaksLater(lines, seen, k); }
        if k :| Breaks(lines, seen, k) { assert Breaks(rest, seen, k - 1); }
      } else if !lines[0].OtherProduct? {
        assert Breaks(lines, seen, 0);
      }
    }
  }

  lemma BreaksLater(lines: seq<Line>, seen: string, k: int)
    requires lines != [] && lines[0] == XConnect(seen) && Breaks(lines[1..], seen, k)
    ensures Breaks(lines, seen, k + 1)
  {
    assert forall j :: 0 < j <= k ==> lines[j] == lines[1..][j - 1];
  }

  /** The plan cannot be told: there are no lines, the first is neither of the product nor of
      another one, or after lines of one plan comes one that is neither of it nor of another
      product, or all shown are of one plan and more are not shown. */
  lemma PlanFailsExactly(lines: seq<Line>, hasMore: bool)
    requires PlansNamed(lines)
    ensures PlanOf(lines, hasMore).None? <==>
            || lines == []
            || (!lines[0].XConnect? && !lines[0].OtherProduct?)
            || (lines[0].XConnect? && ((hasMore && OnePlan(lines, lines[0].plan)) || exists k :: Breaks(lines, lines[0].plan, k)))
  {
    if lines != [] && lines[0].XConnect? {
      var plan := lines[0].plan;
      PlanFromFails(lines, hasMore, plan);
      assert lines[0] in lines && plan != "";
      assert PlanOf(lines, hasMore) == PlanFrom(lines[1..], hasMore, plan) == PlanFrom(lines, hasMore, plan);
    }
  }

  /** An invoice on record cannot be judged exactly when fetching it fails, or it is proven and
      its plan cannot be told. */
  lemma UnjudgedExactly(c: Invoice)
    ensures Unjudged(c) <==>
            OnRecord(c) && (c.fetched.None? || (Proven(c.fetched.value) && PlanOf(c.fetched.value.lines, c.fetched.value.hasMore).None?))
  {
    ListedExactly(c);
  }
}
