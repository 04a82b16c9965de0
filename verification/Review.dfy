/**
  Batch review: staging decisions, previewing a cohort, activating it and
  rejecting it.  The functions here are the specification of
  `ReviewBatchRepo`; `Store` implements them step by step.
*/
module Review {
  import opened Basics
  import opened Model
  import opened Authority
  import opened Billing
  import opened RowOrder
  import opened Tables
  import opened Text

  const MAX_DECISIONS := 100
  const CORRECTION_FIELDS: set<string> := {
    "transaction_date", "total_amount", "counterparty", "currency", "category", "expense_category",
    "expense_kind", "due_date", "registration_number", "tax_8_amount", "tax_10_amount"}
  const BILL_FIELDS: set<string> := {
    "issuer_name", "issuer_kind", "billing_period", "due_date", "consumption_value", "consumption_unit"}
  const PROJECTION_FIELDS: set<string> := BILL_FIELDS - {"due_date"}

  // ------------------------------------------------------------ decisions

  datatype Draft = Draft(
    id: Id, extraction: Id, expectedVersion: int, expectedRevision: int, action: Action,
    corrections: Option<Corrections>, subtype: Option<Subtype>, reason: Option<string>)

  function OrEmpty(c: Option<Corrections>): Corrections {
    if c.Some? then c.value else map[]
  }

  function EffectiveSubtype(x: Extraction, corrected: Option<Subtype>): Option<Subtype> {
    if corrected.Some? then corrected
    else if x.content.lineage.Some? then x.content.lineage.value.subtype
    else None
  }

  function VerifiedValues(m: Mapping, x: Extraction, corrections: Option<Corrections>): Option<Values> {
    m.values(x.content.payload, OrEmpty(corrections) - PROJECTION_FIELDS)
  }

  function RecurringProjection(m: Mapping, x: Extraction, corrections: Option<Corrections>): Option<Projection> {
    m.projection(x.content.payload, OrEmpty(corrections))
  }

  /** `_validate_review_decision` accepts this decision for this candidate. */
  predicate DecisionAccepted(
    m: Mapping, x: Extraction, action: Action,
    corrections: Option<Corrections>, subtype: Option<Subtype>, reason: Option<string>)
  {
    match action
    case Exclude =>
      corrections.None? && subtype.None? && reason.Some? && Strip(reason.value) != ""
    case Include =>
      && reason.None?
      && x.content.lineage.Some?
      && match x.content.lineage.value.kind
         case GenericDocument => corrections.None? && subtype.None?
         case Financial =>
           && OrEmpty(corrections).Keys <= CORRECTION_FIELDS + BILL_FIELDS
           && EffectiveSubtype(x, subtype).Some?
           && (EffectiveSubtype(x, subtype).value != RecurringBill
               ==> OrEmpty(corrections).Keys !! PROJECTION_FIELDS)
           && VerifiedValues(m, x, corrections).Some?
           && (EffectiveSubtype(x, subtype).value == RecurringBill
               ==> && VerifiedValues(m, x, corrections).value.amount > 0.0
                   && RecurringProjection(m, x, corrections).Some?)
  }

  ghost predicate IsLatest(decisions: map<Id, Decision>, b: Id, e: Id, d: Id) {
    && d in decisions && decisions[d].batch == b && decisions[d].extraction == e
    && forall x :: x in decisions && decisions[x].batch == b && decisions[x].extraction == e
         ==> decisions[x].revision <= decisions[d].revision
  }

  ghost function Latest(decisions: map<Id, Decision>, b: Id, e: Id): (r: Option<Id>)
    ensures r.Some? ==> IsLatest(decisions, b, e, r.value)
  {
    if d :| IsLatest(decisions, b, e, d) then Some(d) else None
  }

  function Decided(decisions: map<Id, Decision>, b: Id): set<Id> {
    set d | d in decisions && decisions[d].batch == b :: decisions[d].extraction
  }

  predicate DraftNormal(d: Draft) {
    && d.expectedVersion >= 1 && d.expectedRevision >= 0
    && (d.reason.Some? ==> Bounded(d.reason.value, 2048))
  }

  function DecisionRow(b: Id, d: Draft, prior: Option<Id>, actor: string): Decision
    requires DraftNormal(d)
  {
    Decision(b, d.extraction, d.expectedRevision + 1, d.expectedVersion, prior,
             d.action, d.corrections, d.subtype,
             if d.reason.Some? then Some(Strip(d.reason.value)) else None, actor)
  }

  /** Append one revision to the decisions staged so far. */
  ghost function StageOne(
    m: Mapping, s: Db, b: Id, staged: map<Id, Decision>, d: Draft, actor: string): Outcome<map<Id, Decision>>
    requires d.extraction in s.extractions && DraftNormal(d)
  {
    var x := s.extractions[d.extraction];
    var prior := Latest(staged, b, d.extraction);
    var revision := if prior.Some? then staged[prior.value].revision else 0;
    if x.status != Pending || x.version != d.expectedVersion || revision != d.expectedRevision then Err(StaleCandidate)
    else if !DecisionAccepted(m, x, d.action, d.corrections, d.subtype, d.reason) then Err(InvalidDecision)
    else if d.id in staged then Err(Integrity)
    else Ok(staged[d.id := DecisionRow(b, d, prior, actor)])
  }

  ghost function StageAll(m: Mapping, s: Db, b: Id, drafts: seq<Draft>, actor: string): Outcome<map<Id, Decision>>
    requires forall d :: d in drafts ==> d.extraction in s.extractions && DraftNormal(d)
  {
    if drafts == [] then Ok(s.decisions)
    else
      var staged :- StageAll(m, s, b, drafts[..|drafts| - 1], actor);
      StageOne(m, s, b, staged, drafts[|drafts| - 1], actor)
  }

  /** The drafts that give their candidate its first decision. */
  function FirstTimers(drafts: seq<Draft>): nat {
    if drafts == [] then 0
    else FirstTimers(drafts[..|drafts| - 1]) + (if drafts[|drafts| - 1].expectedRevision == 0 then 1 else 0)
  }

  /** The checks `apply_decisions` makes before it stages anything. */
  function DecisionsGuard(s: Db, b: Id, expectedVersion: int, drafts: seq<Draft>, actor: string): Option<Error> {
    if !Bounded(actor, 255) || expectedVersion < 1 || !(1 <= |drafts| <= MAX_DECISIONS)
       || (exists d :: d in drafts && !DraftNormal(d))
       || (exists i, j :: 0 <= i < j < |drafts| && drafts[i].extraction == drafts[j].extraction)
    then Some(InvalidRequest)
    else if b !in s.batches then Some(NotFound)
    else if s.batches[b].version != expectedVersion || !Reviewable(s.batches[b].lifecycle) then Some(StaleBatch)
    else if exists d :: d in drafts && d.extraction !in Members(s.extractions, b) then Some(StaleBatch)
    else None
  }

  /** The batch row after staging: ready when every candidate will have a decision. */
  function StagedBatch(s: Db, b: Id, drafts: seq<Draft>): Batch
    requires b in s.batches
  {
    var batch := s.batches[b];
    var ready :=
      && |Members(s.extractions, b)| == batch.identity.candidateCount
      && |Decided(s.decisions, b)| + FirstTimers(drafts) == batch.identity.candidateCount;
    batch.(lifecycle := if ready then ReadyToActivate else Open, version := batch.version + 1)
  }

  ghost function ApplyDecisions(
    m: Mapping, s: Db, b: Id, expectedVersion: int, drafts: seq<Draft>, actor: string): Outcome<Db>
  {
    var refused := DecisionsGuard(s, b, expectedVersion, drafts, actor);
    if refused.Some? then Err(refused.value)
    else
      var staged :- StageAll(m, s, b, drafts, Strip(actor));
      Ok(s.(decisions := staged, batches := s.batches[b := StagedBatch(s, b, drafts)]))
  }

  // ------------------------------------------------------------ activation state

  ghost predicate IsPriorActive(s: Db, b: Id, a: Id)
    requires b in s.batches
  {
    && a in s.batches && a != b && s.batches[a].lifecycle == Active
    && s.batches[a].identity.document == s.batches[b].identity.document
  }

  ghost function PriorActive(s: Db, b: Id): (r: Option<Id>)
    requires b in s.batches
    ensures r.Some? ==> IsPriorActive(s, b, r.value)
    ensures r.None? ==> forall a :: !IsPriorActive(s, b, a)
  {
    if a :| IsPriorActive(s, b, a) then Some(a) else None
  }

  /** The approvals the new cohort replaces: legacy ones and those of the active batch. */
  ghost function PriorApproved(s: Db, b: Id): set<Id>
    requires b in s.batches
  {
    set x | x in s.extractions && s.extractions[x].status == Approved
            && (|| (IsLegacy(s.extractions[x]) && s.extractions[x].content.document == s.batches[b].identity.document)
                || (PriorActive(s, b).Some? && InBatch(s.extractions[x], PriorActive(s, b).value)))
  }

  ghost function PriorBills(s: Db, b: Id): set<Id>
    requires b in s.batches
  {
    set x | x in s.bills && Live(s.bills[x]) && s.bills[x].content.verified in s.verified
            && s.verified[s.bills[x].content.verified].extraction in PriorApproved(s, b)
  }

  ghost predicate SourceIsCurrent(s: Db, b: Id)
    requires b in s.batches
  {
    var id := s.batches[b].identity;
    var current := LatestOriginal(s.files, id.document);
    && current == Some(id.sourceFile)
    && s.files[id.sourceFile].version == id.sourceVersion
    && s.files[id.sourceFile].sha256 == id.sha256
    && id.intake in s.intakes
    && var intake := s.intakes[id.intake];
       && intake.document == id.document && intake.sourceFile == id.sourceFile
       && intake.sourceVersion == id.sourceVersion && intake.sha256 == id.sha256
       && intake.state == Processed
  }

  function Manifest(s: Db, b: Id, e: Id): map<Id, Chunk> {
    map c | c in s.chunks && s.chunks[c].batch == Some(b) && s.chunks[c].extraction == Some(e) :: s.chunks[c]
  }

  /** What `_candidate_activation` derives from one candidate. */
  datatype Facts = Facts(
    decision: Option<Id>, values: Option<Values>, effective: Option<Subtype>,
    projection: Option<Projection>, faults: seq<Fault>)

  ghost function CandidateFacts(m: Mapping, s: Db, b: Id, e: Id): Facts
    requires e in s.extractions
  {
    var x := s.extractions[e];
    var decision := Latest(s.decisions, b, e);
    var base := (if x.content.lineage.None? then [LineageInvalid(e)] else [])
              + (if x.status != Pending then [NotPending(e)] else []);
    var plain := EffectiveSubtype(x, None);
    if decision.None? then Facts(decision, None, plain, None, base + [DecisionMissing(e)])
    else
      var d := s.decisions[decision.value];
      if d.expectedVersion != x.version then Facts(decision, None, plain, None, base + [DecisionVersionStale(e)])
      else if d.action == Exclude then Facts(decision, None, plain, None, base)
      else
        var missing := if x.content.payload != map[] && Manifest(s, b, e) == map[] then [SearchChunksMissing(e)]
          else [];
        if !DecisionAccepted(m, x, Include, d.corrections, d.subtype, None) then
          Facts(decision, None, plain, None, base + [DecisionInvalid(e)] + missing)
        else if x.content.lineage.value.kind == GenericDocument then
          Facts(decision, None, plain, None, base + missing)
        else
          var effective := EffectiveSubtype(x, d.subtype);
          Facts(decision, VerifiedValues(m, x, d.corrections), effective,
                if effective == Some(RecurringBill) then RecurringProjection(m, x, d.corrections) else None,
                base + missing)
  }

  /** The candidates whose recurring projection takes part in conflict detection. */
  ghost predicate Recurs(m: Mapping, s: Db, b: Id, e: Id) {
    && e in Members(s.extractions, b)
    && CandidateFacts(m, s, b, e).projection.Some? && CandidateFacts(m, s, b, e).faults == []
  }

  ghost function Claim(m: Mapping, s: Db, b: Id, e: Id): (r: Projection)
    requires Recurs(m, s, b, e)
  {
    CandidateFacts(m, s, b, e).projection.value
  }

  predicate SameClaim(p: Projection, q: Projection) {
    p.issuerName == q.issuerName && p.period == q.period
  }

  ghost predicate ClaimedTwice(m: Mapping, s: Db, b: Id, e: Id)
    requires Recurs(m, s, b, e)
  {
    exists f :: f != e && Recurs(m, s, b, f) && SameClaim(Claim(m, s, b, e), Claim(m, s, b, f))
  }

  /** The live bill that holds the issuer name and period of a projection. */
  ghost function OwnerOf(s: Db, p: Projection): (r: Option<Id>)
  {
    match IssuerNamed(s.issuers, p.issuerName)
    case None => None
    case Some(i) => PeriodOwner(s.bills, i, p.period)
  }

  ghost predicate KindMismatch(s: Db, p: Projection) {
    var i := IssuerNamed(s.issuers, p.issuerName);
    i.Some? && s.issuers[i.value].kind != p.issuerKind
  }

  /** The owner belongs to the cohort that this activation would replace. */
  ghost predicate OwnedByPriorCohort(s: Db, b: Id, x: Id)
    requires b in s.batches && x in s.bills
  {
    && s.bills[x].content.document == s.batches[b].identity.document
    && s.bills[x].content.verified in s.verified
    && s.verified[s.bills[x].content.verified].extraction in PriorApproved(s, b)
  }

  ghost function ConflictFaults(m: Mapping, s: Db, b: Id, e: Id): seq<Fault>
    requires b in s.batches
  {
    if !Recurs(m, s, b, e) then []
    else
      var p := Claim(m, s, b, e);
      (if ClaimedTwice(m, s, b, e) then [DuplicateClaim(e)] else [])
      + (if KindMismatch(s, p) then [IssuerKindMismatch(e)]
         else if OwnerOf(s, p).Some? && !OwnedByPriorCohort(s, b, OwnerOf(s, p).value) then [ForeignOwner(e)]
         else [])
  }

  /** The bill whose payment state the candidate's new bill inherits. */
  ghost function PriorBill(m: Mapping, s: Db, b: Id, e: Id): (r: Option<Id>)
    requires b in s.batches
    ensures r.Some? ==> r.value in s.bills && Recurs(m, s, b, e) && OwnerOf(s, Claim(m, s, b, e)) == r
  {
    if !Recurs(m, s, b, e) then None
    else
      var p := Claim(m, s, b, e);
      var owner := OwnerOf(s, p);
      if !KindMismatch(s, p) && owner.Some? && OwnedByPriorCohort(s, b, owner.value) then owner else None
  }

  // ------------------------------------------------------------ the vector

  ghost function HeadOf(m: Mapping, s: Db, b: Id, e: Id): CandidateHead
    requires b in s.batches && e in s.extractions
  {
    var x, facts, prior := s.extractions[e], CandidateFacts(m, s, b, e), PriorBill(m, s, b, e);
    var d := if facts.decision.Some? then Some(s.decisions[facts.decision.value]) else None;
    CandidateHead(
      x.version, facts.decision, if d.Some? then d.value.revision else 0,
      if d.Some? then Some(d.value.action) else None,
      if x.content.lineage.Some? then Some(x.content.lineage.value.kind) else None,
      EffectiveSubtype(x, None), facts.effective,
      if d.Some? then d.value.corrections else None,
      if d.Some? then d.value.reason else None,
      Manifest(s, b, e), facts.projection, prior,
      if prior.Some? then Some(s.bills[prior.value].payment) else None,
      if prior.Some? then s.bills[prior.value].paidAt else None)
  }

  ghost function HeadTable(m: Mapping, s: Db, b: Id): map<Id, CandidateHead>
    requires b in s.batches
  {
    map e | e in Members(s.extractions, b) :: HeadOf(m, s, b, e)
  }

  ghost function ApprovedTable(s: Db, b: Id): map<Id, nat>
    requires b in s.batches
  {
    map x | x in PriorApproved(s, b) :: s.extractions[x].version
  }

  function HeadOfBatch(s: Db, b: Id): BatchHead
    requires b in s.batches
  {
    var batch := s.batches[b];
    var id := batch.identity;
    BatchHead(b, batch.version, id.document, id.intake, id.sourceFile, id.sourceVersion, id.sha256,
              id.candidateCount, id.reconciliation)
  }

  /** The vector as built from rows in the order the queries happened to return them. */
  ghost function VectorOfRows(s: Db, b: Id, approved: seq<(Id, nat)>, candidates: seq<(Id, CandidateHead)>): Vector
    requires b in s.batches
  {
    var a := PriorActive(s, b);
    Vector(HeadOfBatch(s, b),
           if a.Some? then Some((a.value, s.batches[a.value].version)) else None,
           SortRows(approved), SortRows(candidates))
  }

  ghost function ActivationVector(m: Mapping, s: Db, b: Id): Vector
    requires b in s.batches
  {
    VectorOfRows(s, b, AnyListing(ApprovedTable(s, b)), AnyListing(HeadTable(m, s, b)))
  }

  // ------------------------------------------------------------ faults of a cohort

  ghost function FaultsOf(m: Mapping, s: Db, b: Id, order: seq<Id>): seq<Fault>
    requires b in s.batches && forall e :: e in order ==> e in s.extractions
  {
    if order == [] then []
    else CandidateFacts(m, s, b, order[0]).faults + ConflictFaults(m, s, b, order[0]) + FaultsOf(m, s, b, order[1..])
  }

  ghost function CohortFaults(m: Mapping, s: Db, b: Id): seq<Fault>
    requires b in s.batches
  {
    var batch := s.batches[b];
    var members := Members(s.extractions, b);
    (if !Reviewable(batch.lifecycle) then [BatchNotReviewable] else [])
    + (if !SourceIsCurrent(s, b) then [StaleSourceFault] else [])
    + (if |members| != batch.identity.candidateCount
          || batch.identity.mapped + batch.identity.residual != batch.identity.candidateCount
       then [ReconciliationMismatch] else [])
    + FaultsOf(m, s, b, Ordered(members))
  }

  ghost function With(s: Db, b: Id, action: Action): set<Id> {
    set e | e in Members(s.extractions, b) && Latest(s.decisions, b, e).Some?
            && s.decisions[Latest(s.decisions, b, e).value].action == action
  }

  // ------------------------------------------------------------ activation

  /** The ids `uuid4` draws for the rows an activation inserts, by extraction. */
  datatype Drawn = Drawn(verified: map<Id, Id>, bills: map<Id, Id>, issuers: map<Id, Id>)

  datatype Activation = Activation(
    batch: Id, expectedVersion: int, vector: Vector, actor: string,
    acceptExclusions: bool, acceptEmpty: bool, now: Time, drawn: Drawn)

  function Supersede(x: Extraction, actor: string, now: Time): Extraction {
    x.(status := Superseded, version := x.version + 1, reviewer := Some(actor), reviewedAt := Some(now))
  }

  /** First flush: retire the prior cohort, its bills and its batch. */
  ghost function RetirePrior(s: Db, b: Id, actor: string, now: Time): Db
    requires b in s.batches
  {
    var prior, bills, active := PriorApproved(s, b), PriorBills(s, b), PriorActive(s, b);
    s.(extractions := map x | x in s.extractions :: if x in prior then Supersede(s.extractions[x], actor, now)
      else s.extractions[x],
       bills := map x | x in s.bills :: if x in bills then s.bills[x].(supersededAt := Some(now)) else s.bills[x],
       batches := if active.Some?
         then s.batches[active.value := s.batches[active.value].(lifecycle := Retired,
           version := s.batches[active.value].version + 1)]
                  else s.batches)
  }

  function Approve(x: Extraction, actor: string, now: Time): Extraction {
    x.(status := Approved, version := x.version + 1, reviewer := Some(actor), reason := None, reviewedAt := Some(now))
  }

  /** Second flush: publish the new cohort.  `s` is the database the cohort was loaded from. */
  ghost function PublishCohort(s: Db, s1: Db, q: Activation): Db
    requires q.batch in s.batches && q.batch in s1.batches
    requires s1.decisions == s.decisions
  {
    var included, excluded := With(s, q.batch, Include), With(s, q.batch, Exclude);
    var actor := Strip(q.actor);
    var batch := s1.batches[q.batch];
    s1.(extractions := map x | x in s1.extractions ::
          if x in included then Approve(s1.extractions[x], actor, q.now)
          else if x in excluded then
            Supersede(s1.extractions[x], actor,
              q.now).(reason := s.decisions[Latest(s.decisions, q.batch, x).value].reason)
          else s1.extractions[x],
        batches := s1.batches[q.batch := batch.(
          lifecycle := Active, version := batch.version + 1,
          vector := Some(q.vector), activatedBy := Some(actor), activatedAt := Some(q.now),
          includedCount := Some(|included|), excludedCount := Some(|excluded|),
          acceptedExclusions := excluded != {}, acceptedEmpty := Members(s.extractions, q.batch) == {})],
        documents := s1.documents[batch.identity.document := Verified])
  }

  ghost function FinancialItems(s: Db, b: Id): seq<Id> {
    Ordered(set e | e in With(s, b, Include) && e in s.extractions && IsFinancial(s.extractions[e]))
  }

  ghost predicate ValuesReady(m: Mapping, s: Db, b: Id, items: seq<Id>) {
    forall e :: e in items ==> e in s.extractions && CandidateFacts(m, s, b, e).values.Some?
  }

  ghost function VerifiedRows(m: Mapping, s: Db, q: Activation, items: seq<Id>): map<Id, VerifiedRow>
    requires q.batch in s.batches && ValuesReady(m, s, q.batch, items)
  {
    map e | e in items ::
      VerifiedRow(s.batches[q.batch].identity.document, e, CandidateFacts(m, s, q.batch, e).values.value,
        Strip(q.actor))
  }

  /** Third flush: one verified row per included financial candidate. */
  ghost function InsertVerified(m: Mapping, s: Db, s2: Db, q: Activation): Outcome<Db>
    requires q.batch in s.batches
  {
    var items := FinancialItems(s, q.batch);
    if !ValuesReady(m, s, q.batch, items) then Err(Unsafe([]))
    else if !FreshFor(s2.verified, items, q.drawn.verified) then Err(Integrity)
    else Ok(s2.(verified := InsertRows(s2.verified, items, q.drawn.verified, VerifiedRows(m, s, q, items))))
  }

  ghost function BillItems(m: Mapping, s: Db, b: Id): seq<Id> {
    Ordered(set e | e in FinancialItems(s, b) && e in s.extractions && CandidateFacts(m, s, b, e).projection.Some?)
  }

  ghost predicate BillItem(m: Mapping, s: Db, q: Activation, e: Id) {
    && e in s.extractions && CandidateFacts(m, s, q.batch, e).projection.Some?
    && e in q.drawn.verified && e in q.drawn.bills && e in q.drawn.issuers
  }

  ghost function BillRequest(m: Mapping, s: Db, q: Activation, e: Id): NewBill
    requires BillItem(m, s, q, e)
  {
    NewBill(q.drawn.bills[e], q.drawn.issuers[e], q.drawn.verified[e],
            CandidateFacts(m, s, q.batch, e).projection.value, Strip(q.actor), q.now)
  }

  /** Record one bill and carry over the payment state of the bill it replaces. */
  ghost function RecordOne(m: Mapping, s: Db, t: Db, q: Activation, e: Id): Outcome<Db>
    requires q.batch in s.batches && BillItem(m, s, q, e)
  {
    var (t1, x) :- RecordBill(t, BillRequest(m, s, q, e));
    match PriorBill(m, s, q.batch, e)
    case None => Ok(t1)
    case Some(p) =>
      if x !in t1.bills then Err(Integrity)
      else Ok(t1.(bills := t1.bills[x := t1.bills[x].(payment := s.bills[p].payment, paidAt := s.bills[p].paidAt)]))
  }

  ghost function RecordAll(m: Mapping, s: Db, t: Db, q: Activation, items: seq<Id>): Outcome<Db>
    requires q.batch in s.batches
    requires forall e :: e in items ==> BillItem(m, s, q, e)
  {
    if items == [] then Ok(t)
    else
      var t1 :- RecordAll(m, s, t, q, items[..|items| - 1]);
      RecordOne(m, s, t1, q, items[|items| - 1])
  }

  /** The checks `activate` makes on the locked state, given what it loaded. */
  function LoadedGuard(
    s: Db, q: Activation, current: bool, vector: Vector, faults: seq<Fault>, excludes: bool, empty: bool): Option<Error>
    requires q.batch in s.batches
  {
    if s.batches[q.batch].version != q.expectedVersion || !Reviewable(s.batches[q.batch].lifecycle)
      then Some(StaleBatch)
    else if !current then Some(StaleSource)
    else if q.vector != vector then Some(StaleVector)
    else if faults != [] then Some(Unsafe(faults))
    else if (excludes && !q.acceptExclusions) || (empty && !q.acceptEmpty) then Some(ConsentRequired)
    else None
  }

  /** All the checks `activate` makes before it writes anything. */
  ghost function ActivationGuard(m: Mapping, s: Db, q: Activation): Option<Error> {
    if !Bounded(q.actor, 255) || q.expectedVersion < 1 then Some(InvalidRequest)
    else if q.batch !in s.batches || s.batches[q.batch].identity.document !in s.documents then Some(NotFound)
    else LoadedGuard(s, q, SourceIsCurrent(s, q.batch), ActivationVector(m, s, q.batch), CohortFaults(m, s, q.batch),
                     With(s, q.batch, Exclude) != {}, Members(s.extractions, q.batch) == {})
  }

  ghost predicate BillIdsDrawn(m: Mapping, s: Db, q: Activation) {
    var items := BillItems(m, s, q.batch);
    && FreshFor(s.bills, items, q.drawn.bills)
    && FreshFor(s.issuers, items, q.drawn.issuers)
  }

  /** Everything `activate` writes once its checks have passed. */
  ghost function WriteCohort(m: Mapping, s: Db, q: Activation): Outcome<Db>
    requires q.batch in s.batches
  {
    var s1 := RetirePrior(s, q.batch, Strip(q.actor), q.now);
    var s2 := PublishCohort(s, s1, q);
    var s3 :- InsertVerified(m, s, s2, q);
    if !BillIdsDrawn(m, s, q) then Err(Integrity)
    else
      BillItemsReady(m, s, q);
      RecordAll(m, s, s3, q, BillItems(m, s, q.batch))
  }

  ghost function Activate(m: Mapping, s: Db, q: Activation): Outcome<Db>
  {
    var refused := ActivationGuard(m, s, q);
    if refused.Some? then Err(refused.value) else WriteCohort(m, s, q)
  }

  lemma BillItemsReady(m: Mapping, s: Db, q: Activation)
    requires FreshFor(s.verified, FinancialItems(s, q.batch), q.drawn.verified) && BillIdsDrawn(m, s, q)
    ensures forall e :: e in BillItems(m, s, q.batch) ==> BillItem(m, s, q, e)
  {
  }

  // ------------------------------------------------------------ rejection

  /** The checks `reject_batch` makes on the locked state; `current` says the source is current. */
  function RejectionGuard(
    s: Db, b: Id, expectedVersion: int, actor: string, reason: string, current: bool): Option<Error>
  {
    if !Bounded(actor, 255) || !Bounded(reason, 2048) || expectedVersion < 1 then Some(InvalidRequest)
    else if b !in s.batches || s.batches[b].identity.document !in s.documents then Some(NotFound)
    else if s.batches[b].version != expectedVersion || !Reviewable(s.batches[b].lifecycle) then Some(StaleBatch)
    else if !current then Some(StaleSource)
    else if exists e :: e in Members(s.extractions, b) && s.extractions[e].status != Pending then Some(StaleBatch)
    else None
  }

  function RejectMembers(p: map<Id, Extraction>, b: Id, actor: string, reason: string, now: Time): map<Id, Extraction> {
    map x | x in p :: if InBatch(p[x], b) then Reject(p[x], actor, reason, now) else p[x]
  }

  /** The database after the rejection; `kept` says an older authority remains. */
  function RejectedDb(s: Db, b: Id, actor: string, reason: string, now: Time, kept: bool): Db
    requires b in s.batches
  {
    var batch := s.batches[b];
    s.(extractions := RejectMembers(s.extractions, b, actor, reason, now),
       batches := s.batches[b := batch.(lifecycle := Refused, version := batch.version + 1)],
       documents := s.documents[batch.identity.document := if kept then Verified else NeedsReprocess])
  }

  ghost function RejectBatch(s: Db, b: Id, expectedVersion: int, actor: string, reason: string, now: Time): Outcome<Db>
  {
    var refused := RejectionGuard(s, b, expectedVersion, actor, reason, b in s.batches && SourceIsCurrent(s, b));
    if refused.Some? then Err(refused.value)
    else Ok(RejectedDb(s, b, Strip(actor), Strip(reason), now, PriorActive(s, b).Some? || PriorApproved(s, b) != {}))
  }

  function Reject(x: Extraction, actor: string, reason: string, now: Time): Extraction {
    x.(status := Rejected, version := x.version + 1, reviewer := Some(actor), reason := Some(reason),
      reviewedAt := Some(now))
  }
}
