/** Document-wide extraction and approval, which predate batches and write the same rows. */
module Legacy {
  import opened Basics
  import opened Model
  import opened Authority
  import opened Text
  import Billing
  import Review
  import Sources

  /** `ExtractionRepo.add` */
  ghost function AddExtraction(
    s: Db, x: Id, d: Id, payload: Payload, sourceVersion: Option<nat>, actor: string, now: Time): Outcome<Db>
  {
    if d !in s.documents then Err(NotFound)
    else
      var f := LatestOriginal(s.files, d);
      if f.None? || (sourceVersion.Some? && s.files[f.value].version != sourceVersion.value) then Err(SourceSuperseded)
      else if x in s.extractions then Err(Integrity)
      else
        var content := ExtractionContent(d, f.value, s.files[f.value].version, None, payload);
        Ok(s.(extractions := Sources.SupersedePending(s.extractions, d, Strip(actor), now)
                               [x := Extraction(content, Pending, 1, None, None, None)],
              documents := s.documents[d := InReview]))
  }

  /** `ExtractionRepo.reject` */
  function RejectExtraction(s: Db, x: Id, reason: string, reviewer: string, now: Time): Outcome<Db> {
    if Strip(reviewer) == "" || Strip(reason) == "" then Err(InvalidRequest)
    else if x !in s.extractions then Err(StaleExtraction)
    else if s.extractions[x].content.document !in s.documents then Err(NotFound)
    else if s.extractions[x].status != Pending then Err(StaleExtraction)
    else Ok(s.(extractions := s.extractions[x := Review.Reject(s.extractions[x], Strip(reviewer), Strip(reason), now)],
               documents := s.documents[s.extractions[x].content.document := NeedsReprocess]))
  }

  datatype Promotion = Promotion(
    extraction: Id, expectedVersion: int, corrections: Corrections, reviewer: string, now: Time,
    verified: Id, bill: Option<(Id, Id)>)

  function ApproveLegacy(x: Extraction, reviewer: string, now: Time): Extraction {
    x.(status := Approved, version := x.version + 1, reviewer := Some(reviewer), reviewedAt := Some(now))
  }

  /** The checks `promote` makes before it writes. */
  function PromotionGuard(m: Mapping, s: Db, q: Promotion): Option<Error> {
    if q.expectedVersion < 1 || !(q.corrections.Keys - Review.PROJECTION_FIELDS <= Review.CORRECTION_FIELDS)
       || Strip(q.reviewer) == ""
    then Some(InvalidRequest)
    else if q.extraction !in s.extractions then Some(StaleExtraction)
    else
      var x := s.extractions[q.extraction];
      if !IsLegacy(x) then Some(BatchReviewRequired)
      else if x.content.document !in s.documents then Some(NotFound)
      else if PromotedValues(m, s, q).None? then Some(InvalidDecision)
      else if x.status != Pending || x.version != q.expectedVersion || q.verified in s.verified
        then Some(StaleExtraction)
      else None
  }

  function PromotedValues(m: Mapping, s: Db, q: Promotion): Option<Values>
    requires q.extraction in s.extractions
  {
    m.values(s.extractions[q.extraction].content.payload, q.corrections - Review.PROJECTION_FIELDS)
  }

  function PromoteRows(p: map<Id, Extraction>, x: Id, d: Id, reviewer: string, now: Time): map<Id, Extraction> {
    map y | y in p ::
      if y == x then ApproveLegacy(p[y], reviewer, now)
      else if p[y].content.document == d && p[y].status == Approved then Review.Supersede(p[y], reviewer, now)
      else p[y]
  }

  function PromotedDb(s: Db, q: Promotion, d: Id, values: Values, reviewer: string): Db {
    s.(extractions := PromoteRows(s.extractions, q.extraction, d, reviewer, q.now),
       verified := s.verified[q.verified := VerifiedRow(d, q.extraction, values, reviewer)],
       documents := s.documents[d := Verified])
  }

  /** `VerifiedRepo.promote`, entered only for extractions outside any batch. */
  function Promote(m: Mapping, s: Db, q: Promotion): Outcome<Db> {
    var refused := PromotionGuard(m, s, q);
    if refused.Some? then Err(refused.value)
    else
      var d := s.extractions[q.extraction].content.document;
      Ok(PromotedDb(s, q, d, PromotedValues(m, s, q).value, Strip(q.reviewer)))
  }

  /** `approve` on a legacy extraction: promote it, and record its bill when it is a recurring one. */
  ghost function ApproveExtraction(m: Mapping, s: Db, q: Promotion): Outcome<Db> {
    match q.bill
    case None =>
      if q.corrections.Keys !! Review.PROJECTION_FIELDS then Promote(m, s, q) else Err(InvalidRequest)
    case Some((bill, issuer)) =>
      var t :- Promote(m, s, q);
      var projection := m.projection(s.extractions[q.extraction].content.payload, q.corrections);
      if projection.None? then Err(BillInvalid)
      else
        var (u, _) :- Billing.RecordBill(t,
          Billing.NewBill(bill, issuer, q.verified, projection.value, Strip(q.reviewer), q.now));
        Ok(u)
  }
}
