/**
  The persisted rows of the review and authority protocol.

  Every table is a map from row id to row.  Ids stand for UUIDs, times for
  timestamps; the protocol only compares them.  A `Db` value is one committed
  database, and one repository call is one step from a `Db` to a `Db`.
*/
module Model {
  import opened Basics

  type Id = nat
  type Time = nat
  type Payload = map<string, string>
  type Corrections = map<string, string>

  /** The result of one repository call: the new database, or the error that rolled it back. */
  type Outcome<+T> = Result<T, Error>

  datatype Error =
    | NotFound
    | InvalidRequest
    | StaleBatch
    | StaleSource
    | StaleVector
    | Unsafe(faults: seq<Fault>)
    | ConsentRequired
    | StaleCandidate
    | InvalidDecision
    | StaleExtraction
    | BatchReviewRequired
    | SourceSuperseded
    | DuplicateSource
    | NotReady
    | StaleIntake
    | IllegalTransition
    | ReprocessUnavailable
    | KeyConflict
    | BillInvalid
    | BillConflict
    | BillNotFound
    | Integrity

  /** The reasons an activation preview lists against a cohort. */
  datatype Fault =
    | BatchNotReviewable
    | StaleSourceFault
    | ReconciliationMismatch
    | LineageInvalid(extraction: Id)
    | NotPending(extraction: Id)
    | DecisionMissing(extraction: Id)
    | DecisionVersionStale(extraction: Id)
    | DecisionInvalid(extraction: Id)
    | SearchChunksMissing(extraction: Id)
    | DuplicateClaim(extraction: Id)
    | IssuerKindMismatch(extraction: Id)
    | ForeignOwner(extraction: Id)

  datatype DocumentStatus =
    Uploaded | Normalized | Extracted | InReview | Verified | NeedsReprocess | Failed

  datatype FileKind = Original | PageRender | NormalizedText

  datatype IntakeState =
    Queued | Processing | Processed | NeedsMapping | StoredUnprocessed | IntakeFailed

  datatype ExtractionStatus = Pending | Approved | Rejected | Superseded

  datatype RecordKind = Financial | GenericDocument

  datatype Subtype =
    Transaction | Receipt | Invoice | Bill | RecurringBill | Quote | OtherFinancial

  datatype Lifecycle = Open | ReadyToActivate | Active | Retired | Refused

  datatype Action = Include | Exclude

  datatype PaymentStatus = Paid | Unpaid | Overdue

  datatype IssuerKind = Electric | Gas | Water | Nhi | Tax | OtherKind

  datatype SourceFile = SourceFile(document: Id, version: nat, kind: FileKind, sha256: string)

  datatype Intake = Intake(
    document: Id, sourceFile: Id, sourceVersion: nat, sha256: string,
    state: IntakeState, version: nat)

  /** The immutable part of a batch row. */
  datatype BatchIdentity = BatchIdentity(
    document: Id, intake: Id, sourceFile: Id, sourceVersion: nat, sha256: string,
    key: string, candidateCount: nat, mapped: nat, residual: nat, reconciliation: string)

  datatype Batch = Batch(
    identity: BatchIdentity, lifecycle: Lifecycle, version: nat,
    vector: Option<Vector>, activatedBy: Option<string>, activatedAt: Option<Time>,
    includedCount: Option<int>, excludedCount: Option<int>,
    acceptedExclusions: bool, acceptedEmpty: bool)

  datatype Lineage = Lineage(
    batch: Id, ordinal: nat, key: string, kind: RecordKind, subtype: Option<Subtype>)

  /** The immutable part of an extraction row. */
  datatype ExtractionContent = ExtractionContent(
    document: Id, sourceFile: Id, sourceVersion: nat, lineage: Option<Lineage>, payload: Payload)

  datatype Extraction = Extraction(
    content: ExtractionContent, status: ExtractionStatus, version: nat,
    reviewer: Option<string>, reason: Option<string>, reviewedAt: Option<Time>)

  datatype Decision = Decision(
    batch: Id, extraction: Id, revision: nat, expectedVersion: nat, supersedes: Option<Id>,
    action: Action, corrections: Option<Corrections>, subtype: Option<Subtype>,
    reason: Option<string>, actor: string)

  datatype Chunk = Chunk(document: Id, batch: Option<Id>, extraction: Option<Id>, body: string)

  datatype Values = Values(amount: real, fields: map<string, string>)

  datatype VerifiedRow = VerifiedRow(document: Id, extraction: Id, values: Values, reviewer: string)

  datatype Issuer = Issuer(name: string, kind: IssuerKind)

  datatype Consumption = Consumption(value: real, unit: string)

  /** A normalized recurring bill; `period` is a month, so it is always a first of the month. */
  datatype Projection = Projection(
    issuerName: string, issuerKind: IssuerKind, period: nat,
    dueDate: Option<Time>, consumption: Option<Consumption>)

  /** The immutable part of a recurring bill row. */
  datatype BillContent = BillContent(
    issuer: Id, document: Id, verified: Id, period: nat, amount: real,
    dueDate: Option<Time>, consumption: Option<Consumption>)

  datatype BillRow = BillRow(
    content: BillContent, payment: PaymentStatus, paidAt: Option<Time>,
    supersededAt: Option<Time>, reviewer: Option<string>)

  datatype Db = Db(
    documents: map<Id, DocumentStatus>,
    files: map<Id, SourceFile>,
    intakes: map<Id, Intake>,
    batches: map<Id, Batch>,
    extractions: map<Id, Extraction>,
    decisions: map<Id, Decision>,
    chunks: map<Id, Chunk>,
    verified: map<Id, VerifiedRow>,
    issuers: map<Id, Issuer>,
    bills: map<Id, BillRow>)

  /**
    The parts of the pipeline this model keeps abstract: building verified
    values from a payload and its corrections, and normalizing a recurring
    bill.  `None` is the `ValueError` of either.  Every theorem holds for
    every such pair of functions.
  */
  datatype Mapping = Mapping(
    values: (Payload, Corrections) -> Option<Values>,
    projection: (Payload, Corrections) -> Option<Projection>)

  // The activation vector: what `activation_preview` hashes.  `canonical_digest`
  // is taken as injective, so the vector stands for its own digest.

  datatype CandidateHead = CandidateHead(
    version: nat, decision: Option<Id>, revision: nat, action: Option<Action>,
    kind: Option<RecordKind>, sourceSubtype: Option<Subtype>, effectiveSubtype: Option<Subtype>,
    corrections: Option<Corrections>, reason: Option<string>, manifest: map<Id, Chunk>,
    projection: Option<Projection>, priorBill: Option<Id>,
    priorPayment: Option<PaymentStatus>, priorPaidAt: Option<Time>)

  datatype BatchHead = BatchHead(
    id: Id, version: nat, document: Id, intake: Id, sourceFile: Id, sourceVersion: nat,
    sha256: string, candidateCount: nat, reconciliation: string)

  datatype Vector = Vector(
    batch: BatchHead,
    active: Option<(Id, nat)>,
    approved: seq<(Id, nat)>,
    candidates: seq<(Id, CandidateHead)>)

  const EMPTY := Db(map[], map[], map[], map[], map[], map[], map[], map[], map[], map[])
}
