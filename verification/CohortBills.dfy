/**
  The bills of an activated cohort.  Conflict detection happens on the state
  before any flush; these lemmas show that it foresees exactly what
  `record_verified_bill` meets afterwards.
*/
module CohortBills {
  import opened Basics
  import opened Model
  import opened Authority
  import opened ActivationProofs
  import opened Billing
  import opened BillingProofs
  import opened CohortProofs
  import opened Invariant
  import opened Review
  import opened Tables
  import opened Text

  // ------------------------------------------------------------ one bill

  /** No live bill holds the issuer name and period of `p`. */
  ghost predicate Unclaimed(t: Db, p: Projection) {
    forall x :: x in t.bills && Live(t.bills[x]) && t.bills[x].content.issuer in t.issuers
      ==> !(t.issuers[t.bills[x].content.issuer].name == p.issuerName && t.bills[x].content.period == p.period)
  }

  /** Every stored issuer of that name has the claimed kind. */
  ghost predicate KindFits(issuers: map<Id, Issuer>, p: Projection) {
    forall i :: i in issuers && issuers[i].name == p.issuerName ==> issuers[i].kind == p.issuerKind
  }

  /** The request draws new ids for a verified record that has no bill and whose period is free. */
  ghost predicate Admissible(t: Db, r: NewBill) {
    && r.verified in t.verified && t.verified[r.verified].values.amount > 0.0
    && (forall x :: x in t.bills ==> t.bills[x].content.verified != r.verified)
    && r.bill !in t.bills && r.issuer !in t.issuers
    && Unclaimed(t, r.projection)
  }

  /** `u` is `t` with the requested bill under issuer `i`, inserted if it was unknown. */
  ghost predicate Records(t: Db, u: Db, r: NewBill, i: Id) {
    && r.verified in t.verified
    && u == t.(issuers := u.issuers, bills := t.bills[r.bill := NewRow(t, i, r)])
    && (u.issuers == t.issuers
         || (i == r.issuer && u.issuers == t.issuers[i := Issuer(r.projection.issuerName, r.projection.issuerKind)]))
    && i in u.issuers && u.issuers[i] == Issuer(r.projection.issuerName, r.projection.issuerKind)
  }

  lemma IssuerFound(t: Db, r: NewBill)
    requires IssuerNamesUnique(t.issuers) && r.issuer !in t.issuers
    ensures ResolveIssuer(t, r).Ok? <==> KindFits(t.issuers, r.projection)
    ensures ResolveIssuer(t, r).Err? ==> ResolveIssuer(t, r).error == BillInvalid
    ensures ResolveIssuer(t, r).Ok? ==>
      var (u, i) := ResolveIssuer(t, r).value;
      && u == t.(issuers := u.issuers)
      && (u.issuers == t.issuers
           || (i == r.issuer && u.issuers == t.issuers[i := Issuer(r.projection.issuerName, r.projection.issuerKind)]))
      && i in u.issuers && u.issuers[i] == Issuer(r.projection.issuerName, r.projection.issuerKind)
  {
  }

  /** A free period stays free under the resolved issuer, so nothing has to be cleared. */
  lemma NothingToClear(t: Db, r: NewBill)
    requires BillInv(t.bills, t.issuers, t.verified) && Admissible(t, r) && ResolveIssuer(t, r).Ok?
    ensures var (u, i) := ResolveIssuer(t, r).value; ClearPeriod(u, i, u.verified[r.verified].document, r) == Ok(u)
  {
    hide ResolveIssuer, OneOwner, OneBillPerRecord, SourceStatus;
    IssuerFound(t, r);
    var (u, i) := ResolveIssuer(t, r).value;
    forall x | x in u.bills ensures !OwnsPeriod(u.bills, i, r.projection.period, x) {
      assert t.bills[x].content.issuer in t.issuers;
    }
  }

  lemma RecordAdmissible(t: Db, r: NewBill) returns (i: Id)
    requires BillInv(t.bills, t.issuers, t.verified) && Admissible(t, r)
    ensures RecordBill(t, r).Ok? <==> WellFormed(r.projection) && KindFits(t.issuers, r.projection)
    ensures RecordBill(t, r).Err? ==> RecordBill(t, r).error == BillInvalid
    ensures RecordBill(t, r).Ok? ==> RecordBill(t, r).value.1 == r.bill && Records(t, RecordBill(t, r).value.0, r, i)
  {
    hide ResolveIssuer, ClearPeriod, KindFits, WellFormed, Unclaimed;
    IssuerFound(t, r) by { assert IssuerNamesUnique(t.issuers); }
    hide BillInv;
    i := 0;
    if ResolveIssuer(t, r).Ok? {
      i := ResolveIssuer(t, r).value.1;
      NothingToClear(t, r);
    }
  }

  // ------------------------------------------------------------ many bills

  /** The bill requests of a cohort and the payment state each new bill starts with. */
  datatype Plan = Plan(requests: map<Id, NewBill>, payment: map<Id, (PaymentStatus, Option<Time>)>)

  ghost predicate Covers(plan: Plan, items: seq<Id>) {
    forall e :: e in items ==> e in plan.requests && e in plan.payment
  }

  /** The bill of request `r` is stored as asked, under an issuer of the claimed name and kind. */
  ghost predicate StoredAs(t: Db, r: NewBill, payment: (PaymentStatus, Option<Time>)) {
    && r.bill in t.bills && r.verified in t.verified
    && var row := t.bills[r.bill];
       && row.content.issuer in t.issuers
       && t.issuers[row.content.issuer] == Issuer(r.projection.issuerName, r.projection.issuerKind)
       && row == NewRow(t, row.content.issuer, r).(payment := payment.0, paidAt := payment.1)
  }

  /** `t` is `base` with exactly the bills of `done` added, and the issuers they needed. */
  ghost predicate Billed(base: Db, t: Db, plan: Plan, done: seq<Id>) {
    && Covers(plan, done)
    && t == base.(issuers := t.issuers, bills := t.bills)
    && BillInv(t.bills, t.issuers, t.verified)
    && Grows(base.issuers, t.issuers) && Grows(base.bills, t.bills)
    && (forall e :: e in done ==> StoredAs(t, plan.requests[e], plan.payment[e]))
    && (forall x :: x in t.bills && x !in base.bills ==> exists e :: e in done && x == plan.requests[e].bill)
    && (forall i :: i in t.issuers && i !in base.issuers ==>
          exists e :: e in done && i == plan.requests[e].issuer
            && t.issuers[i] == Issuer(plan.requests[e].projection.issuerName, plan.requests[e].projection.issuerKind))
  }

  /** The requests of `items` are admissible and do not get in each other's way. */
  ghost predicate Compatible(base: Db, plan: Plan, items: seq<Id>) {
    && Covers(plan, items)
    && (forall e :: e in items ==> Admissible(base, plan.requests[e]))
    && (forall e, f :: e in items && f in items && e != f ==> Apart(plan.requests[e], plan.requests[f]))
  }

  ghost predicate Apart(r: NewBill, u: NewBill) {
    r.bill != u.bill && r.issuer != u.issuer && r.verified != u.verified && !SameClaim(r.projection, u.projection)
  }

  lemma StillUnclaimed(base: Db, t: Db, plan: Plan, done: seq<Id>, e: Id)
    requires Billed(base, t, plan, done) && Compatible(base, plan, done + [e]) && e !in done
    requires BillLinks(base.bills, base.issuers, base.verified)
    ensures Unclaimed(t, plan.requests[e].projection)
  {
    hide BillInv;
    var p := plan.requests[e].projection;
    assert e in done + [e];
    forall x | x in t.bills && Live(t.bills[x]) && t.bills[x].content.issuer in t.issuers
      ensures !(t.issuers[t.bills[x].content.issuer].name == p.issuerName && t.bills[x].content.period == p.period)
    {
      if x in base.bills {
        assert Unclaimed(base, p);
        BaseIssuer(base, t, plan, done, x);
      } else {
        var f :| f in done && x == plan.requests[f].bill;
        assert f in done + [e] && Apart(plan.requests[e], plan.requests[f]);
      }
    }
  }

  lemma BaseIssuer(base: Db, t: Db, plan: Plan, done: seq<Id>, x: Id)
    requires Billed(base, t, plan, done) && BillLinks(base.bills, base.issuers, base.verified) && x in base.bills
    ensures x in t.bills && t.bills[x] == base.bills[x]
    ensures t.bills[x].content.issuer in base.issuers
      && t.issuers[t.bills[x].content.issuer] == base.issuers[t.bills[x].content.issuer]
  {
  }

  lemma StillAdmissible(base: Db, t: Db, plan: Plan, done: seq<Id>, e: Id)
    requires Billed(base, t, plan, done) && Compatible(base, plan, done + [e]) && e !in done
    requires BillLinks(base.bills, base.issuers, base.verified)
    ensures Admissible(t, plan.requests[e])
  {
    hide BillInv, Unclaimed;
    StillUnclaimed(base, t, plan, done, e);
    assert e in done + [e] && Admissible(base, plan.requests[e]);
    forall f | f in done ensures Apart(plan.requests[e], plan.requests[f]) {
      assert f in done + [e];
    }
  }

  function SetPayment(u: Db, x: Id, payment: (PaymentStatus, Option<Time>)): Db
    requires x in u.bills
  {
    u.(bills := u.bills[x := u.bills[x].(payment := payment.0, paidAt := payment.1)])
  }

  lemma PaymentKeeps(u: Db, x: Id, payment: (PaymentStatus, Option<Time>))
    requires BillInv(u.bills, u.issuers, u.verified) && x in u.bills
    ensures var w := SetPayment(u, x, payment); BillInv(w.bills, w.issuers, w.verified)
  {
  }

  lemma StoredStays(t: Db, w: Db, r: NewBill, payment: (PaymentStatus, Option<Time>))
    requires StoredAs(t, r, payment)
    requires w.verified == t.verified && Grows(t.issuers, w.issuers) && Grows(t.bills, w.bills)
    ensures StoredAs(w, r, payment)
  {
  }

  lemma RecordedGrows(t: Db, u: Db, r: NewBill, i: Id, payment: (PaymentStatus, Option<Time>))
    requires Admissible(t, r) && Records(t, u, r, i)
    ensures var w := SetPayment(u, r.bill, payment);
      && w == t.(issuers := w.issuers, bills := w.bills)
      && Grows(t.issuers, w.issuers) && Grows(t.bills, w.bills) && StoredAs(w, r, payment)
      && w.bills.Keys == t.bills.Keys + {r.bill}
      && (forall j :: j in w.issuers && j !in t.issuers ==>
           j == r.issuer && w.issuers[j] == Issuer(r.projection.issuerName, r.projection.issuerKind))
  {
    hide Unclaimed;
  }

  lemma BilledStep(base: Db, t: Db, w: Db, plan: Plan, done: seq<Id>, e: Id)
    requires Billed(base, t, plan, done) && Covers(plan, done + [e])
    requires e in plan.requests && e in plan.payment
    requires w == t.(issuers := w.issuers, bills := w.bills)
    requires BillInv(w.bills, w.issuers, w.verified)
    requires Grows(t.issuers, w.issuers) && Grows(t.bills, w.bills) && StoredAs(w, plan.requests[e], plan.payment[e])
    requires w.bills.Keys == t.bills.Keys + {plan.requests[e].bill}
    requires forall j :: j in w.issuers && j !in t.issuers ==>
      j == plan.requests[e].issuer
        && w.issuers[j] == Issuer(plan.requests[e].projection.issuerName, plan.requests[e].projection.issuerKind)
    ensures Billed(base, w, plan, done + [e])
  {
    hide BillInv, StoredAs;
    var all := done + [e];
    assert e in all && forall f :: f in done ==> f in all;
    forall f | f in all ensures StoredAs(w, plan.requests[f], plan.payment[f]) {
      if f in done { StoredStays(t, w, plan.requests[f], plan.payment[f]); }
    }
    forall x | x in w.bills && x !in base.bills ensures exists f :: f in all && x == plan.requests[f].bill {
      if x in t.bills {
        var f :| f in done && x == plan.requests[f].bill;
        assert f in all;
      }
    }
    BilledIssuers(base, t, w, plan, done, e);
  }

  lemma BilledIssuers(base: Db, t: Db, w: Db, plan: Plan, done: seq<Id>, e: Id)
    requires Billed(base, t, plan, done) && Grows(t.issuers, w.issuers) && e in plan.requests
    requires forall j :: j in w.issuers && j !in t.issuers ==>
      j == plan.requests[e].issuer
        && w.issuers[j] == Issuer(plan.requests[e].projection.issuerName, plan.requests[e].projection.issuerKind)
    ensures forall j :: j in w.issuers && j !in base.issuers ==>
      exists f :: f in done + [e] && f in plan.requests && j == plan.requests[f].issuer
        && w.issuers[j] == Issuer(plan.requests[f].projection.issuerName, plan.requests[f].projection.issuerKind)
  {
    hide BillInv, StoredAs;
    forall j | j in w.issuers && j !in base.issuers
      ensures exists f ::
        f in done + [e] && f in plan.requests && j == plan.requests[f].issuer
          && w.issuers[j] == Issuer(plan.requests[f].projection.issuerName, plan.requests[f].projection.issuerKind)
    {
      if j in t.issuers {
        var f :| f in done && j == plan.requests[f].issuer
          && t.issuers[j] == Issuer(plan.requests[f].projection.issuerName, plan.requests[f].projection.issuerKind);
        assert f in done + [e];
      } else {
        assert e in done + [e];
      }
    }
  }

  /** Stored issuers fit a claim exactly when those before the cohort do and the earlier claims agree. */
  ghost predicate KindsAgree(plan: Plan, done: seq<Id>, p: Projection) {
    forall f :: f in done && f in plan.requests && plan.requests[f].projection.issuerName == p.issuerName
      ==> plan.requests[f].projection.issuerKind == p.issuerKind
  }

  lemma KindsFit(base: Db, t: Db, plan: Plan, done: seq<Id>, p: Projection)
    requires Billed(base, t, plan, done)
    ensures KindFits(t.issuers, p) <==> KindFits(base.issuers, p) && KindsAgree(plan, done, p)
  {
    hide BillInv;
    if KindFits(base.issuers, p) && KindsAgree(plan, done, p) {
      forall i | i in t.issuers && t.issuers[i].name == p.issuerName ensures t.issuers[i].kind == p.issuerKind {
        if i in base.issuers { assert base.issuers[i] == t.issuers[i]; }
      }
    }
    if KindFits(t.issuers, p) {
      forall f | f in done && f in plan.requests && plan.requests[f].projection.issuerName == p.issuerName
        ensures plan.requests[f].projection.issuerKind == p.issuerKind
      {
        assert StoredAs(t, plan.requests[f], plan.payment[f]);
      }
    }
  }

  // ------------------------------------------------------------ the cohort's own plan

  /** A new bill takes over the payment state of the bill it replaces and is otherwise unpaid. */
  ghost function PaymentOf(m: Mapping, s: Db, b: Id, e: Id): (PaymentStatus, Option<Time>)
    requires b in s.batches
  {
    var prior := PriorBill(m, s, b, e);
    if prior.Some? then (s.bills[prior.value].payment, s.bills[prior.value].paidAt) else (Unpaid, None)
  }

  ghost predicate Plans(m: Mapping, s: Db, q: Activation, plan: Plan, items: seq<Id>) {
    && q.batch in s.batches
    && Covers(plan, items)
    && forall e :: e in items ==>
         BillItem(m, s, q, e) && plan.requests[e] == BillRequest(m, s, q, e)
           && plan.payment[e] == PaymentOf(m, s, q.batch, e)
  }

  lemma RecordOneIs(m: Mapping, s: Db, t: Db, q: Activation, e: Id)
    requires q.batch in s.batches && BillItem(m, s, q, e)
    requires BillInv(t.bills, t.issuers, t.verified) && Admissible(t, BillRequest(m, s, q, e))
    ensures var r, recorded := BillRequest(m, s, q, e), RecordOne(m, s, t, q, e);
      && (recorded.Ok? <==> WellFormed(r.projection) && KindFits(t.issuers, r.projection))
      && (recorded.Err? ==> recorded.error == BillInvalid)
      && (recorded.Ok? ==>
            && RecordBill(t, r).Ok? && r.bill in RecordBill(t, r).value.0.bills
            && recorded.value == SetPayment(RecordBill(t, r).value.0, r.bill, PaymentOf(m, s, q.batch, e)))
  {
    hide BillInv, RecordBill, PriorBill, CandidateFacts, WellFormed, KindFits, Unclaimed, Strip;
    var r := BillRequest(m, s, q, e);
    hide BillRequest;
    var i := RecordAdmissible(t, r);
    if RecordBill(t, r).Ok? {
      var u := RecordBill(t, r).value.0;
      assert u.bills[r.bill := u.bills[r.bill].(payment := Unpaid, paidAt := None)] == u.bills;
    }
  }

  lemma RecordOneStep(m: Mapping, s: Db, base: Db, t: Db, q: Activation, plan: Plan, done: seq<Id>, e: Id)
    requires Plans(m, s, q, plan, done + [e]) && e !in done
    requires Billed(base, t, plan, done) && Compatible(base, plan, done + [e])
    requires BillLinks(base.bills, base.issuers, base.verified)
    ensures e in plan.requests && BillItem(m, s, q, e)
    ensures var p, recorded := plan.requests[e].projection, RecordOne(m, s, t, q, e);
      && (recorded.Ok? <==> WellFormed(p) && KindFits(base.issuers, p) && KindsAgree(plan, done, p))
      && (recorded.Err? ==> recorded.error == BillInvalid)
      && (recorded.Ok? ==> Billed(base, recorded.value, plan, done + [e]))
  {
    assert e in done + [e];
    var r, payment := plan.requests[e], plan.payment[e];
    StillAdmissible(base, t, plan, done, e);
    KindsFit(base, t, plan, done, r.projection);
    assert r == BillRequest(m, s, q, e) && payment == PaymentOf(m, s, q.batch, e);
    hide Plans, Compatible, BillItem, BillRequest, PaymentOf, WellFormed, KindFits, KindsAgree, BillLinks;
    hide Unclaimed, StoredAs, RecordOne, RecordBill, BillInv, Grows;
    RecordOneIs(m, s, t, q, e);
    if RecordOne(m, s, t, q, e).Ok? {
      var i := RecordAdmissible(t, r);
      RecordBillTables(t, r);
      hide Admissible, Records;
      var u := RecordBill(t, r).value.0;
      RecordedGrows(t, u, r, i, payment);
      PaymentKeeps(u, r.bill, payment);
      BilledStep(base, t, SetPayment(u, r.bill, payment), plan, done, e);
    }
  }

  ghost predicate Fits(base: Db, plan: Plan, items: seq<Id>) {
    forall e :: e in items && e in plan.requests ==>
      && WellFormed(plan.requests[e].projection)
      && KindFits(base.issuers, plan.requests[e].projection)
      && KindsAgree(plan, items, plan.requests[e].projection)
  }

  lemma FitsExtended(base: Db, plan: Plan, done: seq<Id>, e: Id)
    requires e in plan.requests
    ensures var p := plan.requests[e].projection;
      Fits(base, plan, done + [e]) <==>
        Fits(base, plan, done) && WellFormed(p) && KindFits(base.issuers, p) && KindsAgree(plan, done, p)
  {
    hide WellFormed, KindFits;
    var all := done + [e];
    assert e in all && (forall f :: f in all <==> f in done || f == e);
  }

  /** Recording a compatible cohort succeeds exactly when its claims fit, and never meets a conflict. */
  lemma {:induction false} RecordAllIs(m: Mapping, s: Db, base: Db, q: Activation, plan: Plan, items: seq<Id>)
    requires Plans(m, s, q, plan, items) && NoRepeats(items)
    requires Compatible(base, plan, items) && BillInv(base.bills, base.issuers, base.verified)
    ensures var recorded := RecordAll(m, s, base, q, items);
      && (recorded.Ok? <==> Fits(base, plan, items))
      && (recorded.Err? ==> recorded.error == BillInvalid)
      && (recorded.Ok? ==> Billed(base, recorded.value, plan, items))
    decreases |items|
  {
    hide BillItem, BillRequest, PaymentOf, WellFormed, KindFits, KindsAgree, StoredAs, RecordOne, Admissible;
    hide Apart, OneOwner, OneBillPerRecord;
    if items != [] {
      var done, e := items[..|items| - 1], items[|items| - 1];
      assert done + [e] == items;
      assert Plans(m, s, q, plan, done) && Compatible(base, plan, done) by {
        assert forall f :: f in done ==> f in items;
      }
      hide Plans, Compatible, Fits, Billed, BillInv;
      RecordAllIs(m, s, base, q, plan, done);
      FitsAfter(m, s, base, q, plan, done, e);
    }
  }

  lemma FitsAfter(m: Mapping, s: Db, base: Db, q: Activation, plan: Plan, done: seq<Id>, e: Id)
    requires Plans(m, s, q, plan, done + [e]) && e !in done
    requires q.batch in s.batches && e in plan.requests && BillItem(m, s, q, e)
    requires Compatible(base, plan, done + [e]) && BillInv(base.bills, base.issuers, base.verified)
    ensures forall t :: Billed(base, t, plan, done) && Fits(base, plan, done) ==>
      var recorded := RecordOne(m, s, t, q, e);
      && (recorded.Ok? <==> Fits(base, plan, done + [e]))
      && (recorded.Err? ==> recorded.error == BillInvalid)
      && (recorded.Ok? ==> Billed(base, recorded.value, plan, done + [e]))
    ensures !Fits(base, plan, done) ==> !Fits(base, plan, done + [e])
  {
    hide Plans, Compatible, Fits, Billed, RecordOne, WellFormed, KindFits, KindsAgree, BillItem;
    FitsExtended(base, plan, done, e);
    forall t | Billed(base, t, plan, done) && Fits(base, plan, done)
      ensures var recorded := RecordOne(m, s, t, q, e);
        && (recorded.Ok? <==> Fits(base, plan, done + [e]))
        && (recorded.Err? ==> recorded.error == BillInvalid)
        && (recorded.Ok? ==> Billed(base, recorded.value, plan, done + [e]))
    {
      RecordOneStep(m, s, base, t, q, plan, done, e);
    }
  }

  // ------------------------------------------------------------ conflict detection is exact

  /** What the absence of conflict faults says about a claim, on the state before any flush. */
  lemma CleanClaim(m: Mapping, s: Db, b: Id, e: Id)
    requires b in s.batches && Clean(m, s, b, e) && Recurs(m, s, b, e)
    ensures var p := Claim(m, s, b, e);
      && (forall f :: f != e && Recurs(m, s, b, f) ==> !SameClaim(p, Claim(m, s, b, f)))
      && !KindMismatch(s, p)
      && (OwnerOf(s, p).Some? ==> OwnedByPriorCohort(s, b, OwnerOf(s, p).value))
  {
    hide CandidateFacts, KindMismatch, OwnerOf, OwnedByPriorCohort, SameClaim;
  }

  lemma OwnerIsKnown(s: Db, p: Projection, x: Id)
    requires BillInv(s.bills, s.issuers, s.verified)
    requires x in s.bills && Live(s.bills[x]) && s.bills[x].content.period == p.period
    requires s.issuers[s.bills[x].content.issuer].name == p.issuerName
    ensures OwnerOf(s, p) == Some(x)
  {
    hide OneBillPerRecord;
    var i := s.bills[x].content.issuer;
    assert NamesIssuer(s.issuers, p.issuerName, i);
    assert IssuerNamed(s.issuers, p.issuerName) == Some(i);
    assert OwnsPeriod(s.bills, i, p.period, x);
  }

  /** After the prior cohort's bills are retired, nobody holds the period of a clean claim. */
  lemma ClaimIsFree(m: Mapping, s: Db, b: Id, e: Id, actor: string, now: Time)
    requires b in s.batches && Clean(m, s, b, e) && Recurs(m, s, b, e)
    requires BillInv(s.bills, s.issuers, s.verified)
    ensures Unclaimed(RetirePrior(s, b, actor, now), Claim(m, s, b, e))
  {
    hide CandidateFacts, Clean, OwnerOf, KindMismatch, Recurs, PriorApproved;
    CleanClaim(m, s, b, e);
    var p, t := Claim(m, s, b, e), RetirePrior(s, b, actor, now);
    forall x | x in t.bills && Live(t.bills[x]) && t.bills[x].content.issuer in t.issuers
      && t.issuers[t.bills[x].content.issuer].name == p.issuerName && t.bills[x].content.period == p.period
      ensures OwnerOf(s, p) == Some(x)
    {
      hide BillInv;
      OwnerIsKnown(s, p, x);
    }
  }

  lemma KindIsFree(m: Mapping, s: Db, b: Id, e: Id)
    requires b in s.batches && Clean(m, s, b, e) && Recurs(m, s, b, e) && IssuerNamesUnique(s.issuers)
    ensures KindFits(s.issuers, Claim(m, s, b, e))
  {
    hide CandidateFacts, Clean, OwnerOf, Recurs;
    CleanClaim(m, s, b, e);
    var p := Claim(m, s, b, e);
    forall i | i in s.issuers && s.issuers[i].name == p.issuerName ensures s.issuers[i].kind == p.issuerKind {
      assert NamesIssuer(s.issuers, p.issuerName, i);
    }
  }

  // ------------------------------------------------------------ the plan of an activation

  ghost function PlanOf(m: Mapping, s: Db, q: Activation): Plan
    requires q.batch in s.batches
  {
    var items := BillItems(m, s, q.batch);
    Plan(map e | e in items && BillItem(m, s, q, e) :: BillRequest(m, s, q, e),
         map e | e in items :: PaymentOf(m, s, q.batch, e))
  }

  /** The ids an activation draws are unused, as `uuid4` makes them. */
  ghost predicate FreshIds(m: Mapping, s: Db, q: Activation) {
    FreshFor(s.verified, FinancialItems(s, q.batch), q.drawn.verified) && BillIdsDrawn(m, s, q)
  }

  lemma BillItemIs(m: Mapping, s: Db, q: Activation, e: Id)
    requires Passes(m, s, q) && e in BillItems(m, s, q.batch)
    ensures q.batch in s.batches && e in FinancialItems(s, q.batch)
    ensures Clean(m, s, q.batch, e) && Recurs(m, s, q.batch, e)
    ensures CandidateFacts(m, s, q.batch, e).values.Some? && CandidateFacts(m, s, q.batch, e).values.value.amount > 0.0
    ensures CandidateFacts(m, s, q.batch, e).projection.Some?
  {
    hide ActivationGuard, Inv, CandidateFacts, ConflictFaults, IsFinancial, Latest;
    PassedGuard(m, s, q);
    assert Clean(m, s, q.batch, e);
    CleanMeans(m, s, q.batch, e);
  }

  lemma PlanOfPlans(m: Mapping, s: Db, q: Activation)
    requires q.batch in s.batches && FreshIds(m, s, q)
    ensures Plans(m, s, q, PlanOf(m, s, q), BillItems(m, s, q.batch)) && NoRepeats(BillItems(m, s, q.batch))
  {
    hide BillItem, BillRequest, PaymentOf, FreshFor, BillIdsDrawn, BillItems, FinancialItems, CandidateFacts;
    BillItemsReady(m, s, q);
    BillItemsDistinct(m, s, q.batch);
  }

  lemma BillItemsDistinct(m: Mapping, s: Db, b: Id)
    ensures NoRepeats(BillItems(m, s, b))
  {
    hide CandidateFacts, FinancialItems;
  }

  /** The state the bills are recorded on. */
  ghost predicate BillBase(m: Mapping, s: Db, q: Activation, s3: Db)
    requires Passes(m, s, q)
  {
    && FreshIds(m, s, q)
    && InsertVerified(m, s, AfterPublish(m, s, q), q) == Ok(s3)
  }

  /** The verified row of a bill item holds the values its preview derived. */
  ghost predicate ValuesStored(m: Mapping, s: Db, q: Activation, s3: Db, e: Id) {
    && e in s.extractions && CandidateFacts(m, s, q.batch, e).values.Some?
    && e in q.drawn.verified && q.drawn.verified[e] in s3.verified
    && s3.verified[q.drawn.verified[e]].values == CandidateFacts(m, s, q.batch, e).values.value
  }

  lemma ValuesAreStored(m: Mapping, s: Db, q: Activation, s3: Db, e: Id)
    requires Passes(m, s, q) && BillBase(m, s, q, s3) && e in BillItems(m, s, q.batch)
    ensures ValuesStored(m, s, q, s3, e)
  {
    hide ActivationGuard, Inv, Clean, Recurs, CandidateFacts, InsertVerified, Verifies, FinancialItems;
    hide BillItems, BillIdsDrawn, AfterPublish;
    BillItemIs(m, s, q, e);
    InsertedVerified(m, s, AfterPublish(m, s, q), q);
  }

  lemma BaseShape(m: Mapping, s: Db, q: Activation, s3: Db)
    requires Passes(m, s, q) && BillBase(m, s, q, s3)
    ensures s3.issuers == s.issuers && s3.bills == AfterRetire(m, s, q).bills && s3.bills.Keys == s.bills.Keys
    ensures forall x :: x in s.bills ==> s3.bills[x].content == s.bills[x].content
  {
    hide ActivationGuard, Inv, Clean, InsertVerified, Publishes, With, Verifies, FreshFor, FreshIds;
    hide FinancialItems, ValuesReady, PublishCohort, RetirePrior;
    PassedGuard(m, s, q);
    InsertedVerified(m, s, AfterPublish(m, s, q), q);
    PublishedTables(m, s, q);
    RetiredContent(m, s, q);
  }

  lemma RetiredContent(m: Mapping, s: Db, q: Activation)
    requires Passes(m, s, q)
    ensures var s1 := AfterRetire(m, s, q);
      s1.issuers == s.issuers && s1.bills.Keys == s.bills.Keys && forall x :: x in s.bills ==>
        s1.bills[x].content == s.bills[x].content
  {
    hide ActivationGuard, Inv, PriorApproved, PriorBills;
    PassedGuard(m, s, q);
  }

  lemma ItemUnclaimed(m: Mapping, s: Db, q: Activation, s3: Db, e: Id)
    requires Passes(m, s, q) && BillBase(m, s, q, s3) && e in BillItems(m, s, q.batch)
    ensures e in s.extractions && CandidateFacts(m, s, q.batch, e).projection.Some?
    ensures Unclaimed(s3, CandidateFacts(m, s, q.batch, e).projection.value)
  {
    assert BillInv(s.bills, s.issuers, s.verified);
    hide Inv, ActivationGuard, CandidateFacts, BillItems, Clean, BillBase, RetirePrior, BillInv;
    BaseShape(m, s, q, s3);
    BillItemIs(m, s, q, e);
    ClaimIsFree(m, s, q.batch, e, Strip(q.actor), q.now);
    assert Unclaimed(AfterRetire(m, s, q), Claim(m, s, q.batch, e));
    assert AfterRetire(m, s, q).issuers == s.issuers by { RetiredContent(m, s, q); }
  }

  lemma ItemRequest(m: Mapping, s: Db, q: Activation, s3: Db, e: Id)
    requires Passes(m, s, q) && BillBase(m, s, q, s3) && e in BillItems(m, s, q.batch)
    ensures BillItem(m, s, q, e)
    ensures var r := BillRequest(m, s, q, e);
      && r.verified in s3.verified && s3.verified[r.verified].values.amount > 0.0
      && r.verified !in s.verified && r.bill !in s.bills && r.issuer !in s.issuers
  {
    hide Inv, ActivationGuard, CandidateFacts, BillItems, FinancialItems, Clean, Recurs, InsertVerified;
    hide AfterPublish, Strip;
    BillItemIs(m, s, q, e);
    BillItemsReady(m, s, q);
    ValuesAreStored(m, s, q, s3, e);
  }

  lemma AdmissibleItem(m: Mapping, s: Db, q: Activation, s3: Db, e: Id)
    requires Passes(m, s, q) && BillBase(m, s, q, s3) && e in BillItems(m, s, q.batch)
    ensures BillItem(m, s, q, e) && Admissible(s3, BillRequest(m, s, q, e))
  {
    assert BillLinks(s.bills, s.issuers, s.verified);
    hide Inv, ActivationGuard, CandidateFacts, BillItems, BillBase, Unclaimed, Strip, AfterRetire;
    BaseShape(m, s, q, s3);
    ItemUnclaimed(m, s, q, s3, e);
    ItemRequest(m, s, q, s3, e);
  }

  lemma ApartItems(m: Mapping, s: Db, q: Activation, e: Id, f: Id)
    requires Passes(m, s, q) && FreshIds(m, s, q)
    requires e in BillItems(m, s, q.batch) && f in BillItems(m, s, q.batch) && e != f
    ensures BillItem(m, s, q, e) && BillItem(m, s, q, f) && Apart(BillRequest(m, s, q, e), BillRequest(m, s, q, f))
  {
    hide Inv, ActivationGuard, CandidateFacts, FinancialItems, BillItems, Clean, Recurs, OwnerOf, KindMismatch;
    BillItemIs(m, s, q, e);
    BillItemIs(m, s, q, f);
    BillItemsReady(m, s, q);
    CleanClaim(m, s, q.batch, e);
  }

  lemma CohortCompatible(m: Mapping, s: Db, q: Activation, s3: Db)
    requires Passes(m, s, q) && BillBase(m, s, q, s3)
    ensures q.batch in s.batches && Compatible(s3, PlanOf(m, s, q), BillItems(m, s, q.batch))
  {
    hide Inv, ActivationGuard, CandidateFacts, FinancialItems, BillItems, InsertVerified, AfterPublish;
    hide Admissible, Apart, BillItem, BillRequest, FreshIds, PaymentOf;
    PassedGuard(m, s, q);
    PlanOfPlans(m, s, q);
    var items := BillItems(m, s, q.batch);
    forall e | e in items ensures BillItem(m, s, q, e) && Admissible(s3, BillRequest(m, s, q, e)) {
      AdmissibleItem(m, s, q, s3, e);
    }
    forall e, f | e in items && f in items && e != f
      ensures BillItem(m, s, q, e) && BillItem(m, s, q, f) && Apart(BillRequest(m, s, q, e), BillRequest(m, s, q, f))
    {
      ApartItems(m, s, q, e, f);
    }
  }
}
