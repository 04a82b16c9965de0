/** Recurring bills: issuer-period ownership, supersession and payment. */
module Billing {
  import opened Basics
  import opened Model
  import opened Authority
  import opened Text

  predicate Live(bill: BillRow) {
    bill.supersededAt.None?
  }

  predicate WellFormed(p: Projection) {
    && p.issuerName != ""
    && (p.consumption.Some? ==> p.consumption.value.value > 0.0 && p.consumption.value.unit != "")
  }

  ghost predicate NamesIssuer(issuers: map<Id, Issuer>, name: string, i: Id) {
    i in issuers && issuers[i].name == name
  }

  ghost function IssuerNamed(issuers: map<Id, Issuer>, name: string): (r: Option<Id>)
    ensures r.Some? ==> NamesIssuer(issuers, name, r.value)
    ensures r.None? ==> forall i :: i in issuers ==> issuers[i].name != name
  {
    if i :| NamesIssuer(issuers, name, i) then Some(i)
    else
      assert forall i :: i in issuers ==> (issuers[i].name == name ==> NamesIssuer(issuers, name, i));
      None
  }

  ghost predicate OwnsPeriod(bills: map<Id, BillRow>, issuer: Id, period: nat, x: Id) {
    && x in bills && Live(bills[x])
    && bills[x].content.issuer == issuer && bills[x].content.period == period
  }

  /** The un-superseded bill of one issuer and billing period, if any. */
  ghost function PeriodOwner(bills: map<Id, BillRow>, issuer: Id, period: nat): (r: Option<Id>)
    ensures r.Some? ==> OwnsPeriod(bills, issuer, period, r.value)
    ensures r.None? ==> forall x :: x in bills ==> !OwnsPeriod(bills, issuer, period, x)
  {
    if x :| OwnsPeriod(bills, issuer, period, x) then Some(x) else None
  }

  ghost function BillOf(bills: map<Id, BillRow>, verified: Id): (r: Option<Id>)
    ensures r.Some? ==> r.value in bills && bills[r.value].content.verified == verified
    ensures r.None? ==> forall x :: x in bills ==> bills[x].content.verified != verified
  {
    if x :| x in bills && bills[x].content.verified == verified then Some(x) else None
  }

  datatype NewBill = NewBill(
    bill: Id, issuer: Id, verified: Id, projection: Projection, reviewer: string, now: Time)

  function NewRow(s: Db, issuer: Id, q: NewBill): BillRow
    requires q.verified in s.verified
  {
    BillRow(
      BillContent(
        issuer, s.verified[q.verified].document, q.verified, q.projection.period,
        s.verified[q.verified].values.amount, q.projection.dueDate, q.projection.consumption),
      Unpaid, None, None, Some(q.reviewer))
  }

  /** Find the issuer by name, or insert it; a stored issuer of another kind is refused. */
  ghost function ResolveIssuer(s: Db, q: NewBill): (r: Outcome<(Db, Id)>)
  {
    match IssuerNamed(s.issuers, q.projection.issuerName)
    case None =>
      if q.issuer in s.issuers then Err(Integrity)
      else Ok((s.(issuers := s.issuers[q.issuer := Issuer(q.projection.issuerName, q.projection.issuerKind)]),
        q.issuer))
    case Some(i) =>
      if s.issuers[i].kind != q.projection.issuerKind then Err(BillInvalid) else Ok((s, i))
  }

  /** The extraction behind a bill, when its verified row and extraction agree on the document. */
  function SourceStatus(s: Db, bill: BillRow): Option<ExtractionStatus> {
    if bill.content.verified !in s.verified then None
    else
      var v := s.verified[bill.content.verified];
      if v.extraction in s.extractions && s.extractions[v.extraction].content.document == v.document
      then Some(s.extractions[v.extraction].status) else None
  }

  /** Retire the current period owner when its source was superseded; otherwise refuse. */
  ghost function ClearPeriod(s: Db, issuer: Id, document: Id, q: NewBill): (r: Outcome<Db>)
  {
    match PeriodOwner(s.bills, issuer, q.projection.period)
    case None => Ok(s)
    case Some(x) =>
      if s.bills[x].content.document == document && SourceStatus(s, s.bills[x]) == Some(Superseded)
      then Ok(s.(bills := s.bills[x := s.bills[x].(supersededAt := Some(q.now))]))
      else Err(BillConflict)
  }

  /** `record_verified_bill`: the new database and the id of the bill now linked to the record. */
  ghost function RecordBill(s: Db, q: NewBill): (r: Outcome<(Db, Id)>)
  {
    if !WellFormed(q.projection) || q.verified !in s.verified then Err(BillInvalid)
    else if BillOf(s.bills, q.verified).Some? then Ok((s, BillOf(s.bills, q.verified).value))
    else
      var (s1, issuer) :- ResolveIssuer(s, q);
      var s2 :- ClearPeriod(s1, issuer, s1.verified[q.verified].document, q);
      if q.bill in s2.bills || s2.verified[q.verified].values.amount <= 0.0 then Err(Integrity)
      else Ok((s2.(bills := s2.bills[q.bill := NewRow(s2, issuer, q)]), q.bill))
  }

  predicate BillCarriesAuthority(s: Db, x: Id)
    requires x in s.bills
  {
    && Live(s.bills[x])
    && s.bills[x].content.verified in s.verified
    && IsAuthoritative(s, s.bills[x].content.verified)
  }

  /** `mark_paid`: repeating the request leaves a paid bill with a payment time unchanged. */
  function MarkPaid(s: Db, x: Id, actor: string, paidAt: Time): (r: Outcome<Db>)
  {
    if Strip(actor) == "" then Err(InvalidRequest)
    else if x !in s.bills || !BillCarriesAuthority(s, x) then Err(BillNotFound)
    else if s.bills[x].payment == Paid && s.bills[x].paidAt.Some? then Ok(s)
    else Ok(s.(bills := s.bills[x := s.bills[x].(payment := Paid, paidAt := Some(paidAt),
      reviewer := Some(Strip(actor)))]))
  }
}
