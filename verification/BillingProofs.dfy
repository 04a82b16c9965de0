/** Recording and paying bills keeps one live owner per issuer and period. */
module BillingProofs {
  import opened Basics
  import opened Model
  import opened Authority
  import opened Billing
  import opened Invariant
  import opened Text

  lemma IssuerAdded(
    bills: map<Id, BillRow>, issuers: map<Id, Issuer>, verified: map<Id, VerifiedRow>, i: Id, row: Issuer)
    requires IssuerNamesUnique(issuers) && BillLinks(bills, issuers, verified)
    requires i !in issuers && forall j :: j in issuers ==> issuers[j].name != row.name
    ensures IssuerNamesUnique(issuers[i := row]) && BillLinks(bills, issuers[i := row], verified)
      && Grows(issuers, issuers[i := row])
  {
  }

  lemma IssuerResolved(s: Db, q: NewBill)
    requires BillInv(s.bills, s.issuers, s.verified) && ResolveIssuer(s, q).Ok?
    ensures var (t, i) := ResolveIssuer(s, q).value;
      && t == s.(issuers := t.issuers)
      && BillInv(t.bills, t.issuers, t.verified) && Grows(s.issuers, t.issuers)
      && i in t.issuers && t.issuers[i] == Issuer(q.projection.issuerName, q.projection.issuerKind)
  {
    hide OneOwner, OneBillPerRecord, BillLinks, IssuerNamesUnique;
    if IssuerNamed(s.issuers, q.projection.issuerName).None? {
      IssuerAdded(s.bills, s.issuers, s.verified, q.issuer, Issuer(q.projection.issuerName, q.projection.issuerKind));
    }
  }

  /** Superseding one live bill frees its issuer and period. */
  lemma BillSuperseded(
    bills: map<Id, BillRow>, issuers: map<Id, Issuer>, verified: map<Id, VerifiedRow>, x: Id, row: BillRow)
    requires BillInv(bills, issuers, verified) && x in bills && Live(bills[x]) && !Live(row)
    requires BillMoves(bills[x], row)
    ensures BillInv(bills[x := row], issuers, verified) && BillsMove(bills, bills[x := row])
    ensures forall y :: y in bills ==> !OwnsPeriod(bills[x := row], row.content.issuer, row.content.period, y)
  {
  }

  lemma PeriodCleared(s: Db, issuer: Id, document: Id, q: NewBill)
    requires BillInv(s.bills, s.issuers, s.verified) && ClearPeriod(s, issuer, document, q).Ok?
    ensures var t := ClearPeriod(s, issuer, document, q).value;
      && t == s.(bills := t.bills) && t.bills.Keys == s.bills.Keys
      && BillInv(t.bills, t.issuers, t.verified) && BillsMove(s.bills, t.bills)
      && (forall x :: x in t.bills ==> !OwnsPeriod(t.bills, issuer, q.projection.period, x))
  {
    hide SourceStatus, BillInv;
    match PeriodOwner(s.bills, issuer, q.projection.period)
    case None =>
    case Some(x) =>
      BillSuperseded(s.bills, s.issuers, s.verified, x, s.bills[x].(supersededAt := Some(q.now)));
  }

  lemma BillInserted(
    bills: map<Id, BillRow>, issuers: map<Id, Issuer>, verified: map<Id, VerifiedRow>, x: Id, row: BillRow)
    requires BillInv(bills, issuers, verified) && x !in bills
    requires forall y :: y in bills ==> !OwnsPeriod(bills, row.content.issuer, row.content.period, y)
    requires forall y :: y in bills ==> bills[y].content.verified != row.content.verified
    requires row.content.issuer in issuers && row.content.verified in verified
    requires row.content.document == verified[row.content.verified].document
    requires row.content.amount == verified[row.content.verified].values.amount
    ensures BillInv(bills[x := row], issuers, verified) && BillsMove(bills, bills[x := row])
  {
  }

  lemma BillsMoveTransitive(p: map<Id, BillRow>, q: map<Id, BillRow>, r: map<Id, BillRow>)
    requires BillsMove(p, q) && BillsMove(q, r)
    ensures BillsMove(p, r)
  {
    forall x | x in p ensures x in r && BillMoves(p[x], r[x]) {
      assert BillMoves(p[x], q[x]) && BillMoves(q[x], r[x]);
    }
  }

  /** What a successful `record_verified_bill` wrote, when the record had no bill yet. */
  ghost predicate Recorded(s: Db, t: Db, q: NewBill, cleared: map<Id, BillRow>, issuer: Id) {
    && t == s.(issuers := t.issuers, bills := t.bills)
    && Grows(s.issuers, t.issuers)
    && issuer in t.issuers && t.issuers[issuer] == Issuer(q.projection.issuerName, q.projection.issuerKind)
    && cleared.Keys == s.bills.Keys && BillsMove(s.bills, cleared)
    && (forall x :: x in cleared ==> !OwnsPeriod(cleared, issuer, q.projection.period, x))
    && q.bill !in s.bills && q.verified in s.verified && s.verified[q.verified].values.amount > 0.0
    && t.bills == cleared[q.bill := NewRow(s, issuer, q)]
  }

  lemma RecordBillShape(s: Db, q: NewBill) returns (cleared: map<Id, BillRow>, issuer: Id)
    requires BillInv(s.bills, s.issuers, s.verified)
    requires RecordBill(s, q).Ok? && BillOf(s.bills, q.verified).None?
    ensures var t := RecordBill(s, q).value.0;
      Recorded(s, t, q, cleared, issuer) && BillInv(cleared, t.issuers, s.verified)
  {
    hide ResolveIssuer, ClearPeriod, BillInv, WellFormed, BillsMove, Grows, OwnsPeriod;
    IssuerResolved(s, q);
    var (s1, i) := ResolveIssuer(s, q).value;
    var document := s1.verified[q.verified].document;
    PeriodCleared(s1, i, document, q);
    issuer := i;
    cleared := ClearPeriod(s1, i, document, q).value.bills;
  }

  lemma RecordBillTables(s: Db, q: NewBill)
    requires BillInv(s.bills, s.issuers, s.verified) && RecordBill(s, q).Ok?
    ensures var t := RecordBill(s, q).value.0;
      && t == s.(issuers := t.issuers, bills := t.bills)
      && BillInv(t.bills, t.issuers, t.verified) && BillsMove(s.bills, t.bills) && Grows(s.issuers, t.issuers)
  {
    if BillOf(s.bills, q.verified).None? {
      hide RecordBill, BillsMove, OwnsPeriod, Grows;
      var cleared, issuer := RecordBillShape(s, q);
      BillInserted(cleared, RecordBill(s, q).value.0.issuers, s.verified, q.bill, NewRow(s, issuer, q)) by {
        BillsKeepContent(s.bills, cleared);
      }
      BillsMoveTransitive(s.bills, cleared, RecordBill(s, q).value.0.bills);
    }
  }

  lemma BillsKeepContent(p: map<Id, BillRow>, q: map<Id, BillRow>)
    requires BillsMove(p, q) && p.Keys == q.Keys
    ensures forall x :: x in q ==> q[x].content == p[x].content
  {
    forall x | x in q ensures q[x].content == p[x].content {
      assert x in p && BillMoves(p[x], q[x]);
    }
  }

  lemma RecordBillKeeps(s: Db, q: NewBill)
    requires Inv(s) && RecordBill(s, q).Ok?
    ensures var t := RecordBill(s, q).value.0; Inv(t) && Evolves(s, t)
  {
    hide StatusInv, MemberInv, CountInv, OneActive, AuthorityInv, SettledInv, EvidenceInv, DecisionInv, ReadyInv;
    hide VerifiedInv, BillInv, DocumentInv, SourceInv, BatchSourceInv, ExtractionsMove, BatchesMove;
    hide BillsMove, IntakesMove, Grows;
    hide RecordBill;
    EvolvesReflexive(s);
    RecordBillTables(s, q);
  }

  lemma BillPaid(bills: map<Id, BillRow>, issuers: map<Id, Issuer>, verified: map<Id, VerifiedRow>, x: Id, row: BillRow)
    requires BillInv(bills, issuers, verified) && x in bills && Live(bills[x]) && Live(row) && BillMoves(bills[x], row)
    ensures BillInv(bills[x := row], issuers, verified) && BillsMove(bills, bills[x := row])
  {
  }

  lemma MarkPaidKeeps(s: Db, x: Id, actor: string, now: Time)
    requires Inv(s) && MarkPaid(s, x, actor, now).Ok?
    ensures var t := MarkPaid(s, x, actor, now).value; Inv(t) && Evolves(s, t)
  {
    hide StatusInv, MemberInv, CountInv, OneActive, AuthorityInv, SettledInv, EvidenceInv, DecisionInv, ReadyInv;
    hide VerifiedInv, BillInv, DocumentInv, SourceInv, BatchSourceInv, ExtractionsMove, BatchesMove;
    hide BillsMove, IntakesMove, Grows;
    hide IsAuthoritative, Strip;
    EvolvesReflexive(s);
    if !(s.bills[x].payment == Paid && s.bills[x].paidAt.Some?) {
      BillPaid(s.bills, s.issuers, s.verified, x,
        s.bills[x].(payment := Paid, paidAt := Some(now), reviewer := Some(Strip(actor))));
    }
  }
}
