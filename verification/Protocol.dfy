/** One step per repository call, and runs of any number of steps in any order. */
module Protocol {
  import opened Basics
  import opened Model
  import Billing
  import Legacy
  import Review
  import Sources

  datatype Step =
    | CreateDocument(document: Id, file: Id, intake: Id, sha256: string, state: IntakeState)
    | AppendSource(document: Id, file: Id, intake: Id, sha256: string, state: IntakeState, actor: string, now: Time)
    | AddArtifact(document: Id, file: Id, kind: FileKind, sha256: string, sourceFile: Id, sourceVersion: nat)
    | MoveIntake(intake: Id, expectedVersion: int, state: IntakeState, reason: string)
    | PrepareReprocess(document: Id, actor: string, hasJob: bool)
    | SetStatus(document: Id, status: DocumentStatus)
    | AddBatch(newBatch: Sources.NewBatch)
    | StageChunks(chunks: map<Id, Chunk>)
    | ApplyDecisions(batch: Id, expectedVersion: int, drafts: seq<Review.Draft>, actor: string)
    | Activate(activation: Review.Activation)
    | RejectBatch(batch: Id, expectedVersion: int, actor: string, reason: string, now: Time)
    | AddExtraction(extraction: Id, document: Id, payload: Payload, version: Option<nat>, actor: string, now: Time)
    | RejectExtraction(extraction: Id, reason: string, actor: string, now: Time)
    | Approve(promotion: Legacy.Promotion)
    | RecordBill(bill: Billing.NewBill)
    | MarkPaid(id: Id, actor: string, now: Time)

  /** The outcome of one call.  `StageChunks` stands for the indexer, which may rewrite any chunk. */
  ghost function Apply(m: Mapping, s: Db, step: Step): Outcome<Db> {
    match step
    case CreateDocument(d, f, i, sha, state) => Sources.CreateDocument(s, d, f, i, sha, state)
    case AppendSource(d, f, i, sha, state, actor, now) => Sources.AppendSource(s, d, f, i, sha, state, actor, now)
    case AddArtifact(d, f, kind, sha, source, version) => Sources.AddArtifact(s, d, f, kind, sha, source, version)
    case MoveIntake(i, v, state, reason) => Sources.Transition(s, i, v, state, reason)
    case PrepareReprocess(d, actor, hasJob) => Sources.PrepareReprocess(s, d, actor, hasJob)
    case SetStatus(d, status) => Sources.SetStatus(s, d, status)
    case AddBatch(q) => Sources.AddBatch(s, q)
    case StageChunks(chunks) => Ok(s.(chunks := chunks))
    case ApplyDecisions(b, v, drafts, actor) => Review.ApplyDecisions(m, s, b, v, drafts, actor)
    case Activate(q) => Review.Activate(m, s, q)
    case RejectBatch(b, v, actor, reason, now) => Review.RejectBatch(s, b, v, actor, reason, now)
    case AddExtraction(x, d, payload, v, actor, now) => Legacy.AddExtraction(s, x, d, payload, v, actor, now)
    case RejectExtraction(x, reason, actor, now) => Legacy.RejectExtraction(s, x, reason, actor, now)
    case Approve(q) => Legacy.ApproveExtraction(m, s, q)
    case RecordBill(q) =>
      var r := Billing.RecordBill(s, q);
      if r.Ok? then Ok(r.value.0) else Err(r.error)
    case MarkPaid(x, actor, now) => Billing.MarkPaid(s, x, actor, now)
  }

  ghost predicate Succeeds(m: Mapping, s: Db, step: Step) {
    Apply(m, s, step).Ok?
  }

  /** A failed call rolls back to the database it started from. */
  ghost function Next(m: Mapping, s: Db, step: Step): Db {
    if Succeeds(m, s, step) then Apply(m, s, step).value else s
  }

  ghost function Run(m: Mapping, s: Db, steps: seq<Step>): Db {
    if steps == [] then s else Next(m, Run(m, s, steps[..|steps| - 1]), steps[|steps| - 1])
  }
}
