/** Immutable source versions, the intake state machine and candidate batches. */
module Sources {
  import opened Basics
  import opened Model
  import opened Authority
  import opened Text
  import Review

  /** `_SOURCE_INTAKE_TRANSITIONS` */
  predicate Edge(a: IntakeState, b: IntakeState) {
    match a
    case Queued => b in {Processing, Processed, NeedsMapping, StoredUnprocessed, IntakeFailed}
    case Processing => b in {Queued, Processed, NeedsMapping, StoredUnprocessed, IntakeFailed}
    case Processed => b == Queued
    case NeedsMapping => b in {Queued, Processing, IntakeFailed}
    case StoredUnprocessed => b in {Queued, Processing, IntakeFailed}
    case IntakeFailed => b == Queued
  }

  // ------------------------------------------------------------ sources

  ghost function MaxOf(s: set<nat>): (r: nat)
    ensures forall x :: x in s ==> x <= r
  {
    if s == {} then 0
    else
      var x :| x in s;
      var rest := MaxOf(s - {x});
      assert forall y :: y in s ==> y == x || y in s - {x};
      if x <= rest then rest else x
  }

  ghost function NextVersion(files: map<Id, SourceFile>, document: Id): (r: nat)
    ensures r >= 1
    ensures forall f :: f in files && files[f].document == document ==> files[f].version < r
  {
    var versions := set f | f in files && files[f].document == document :: files[f].version;
    assert forall f :: f in files && files[f].document == document ==> files[f].version in versions;
    MaxOf(versions) + 1
  }

  /** `create_with_raw`: a document, its first original and that source's intake. */
  ghost function CreateDocument(s: Db, d: Id, f: Id, i: Id, sha256: string, state: IntakeState): Outcome<Db> {
    if d in s.documents || f in s.files || i in s.intakes then Err(Integrity)
    else Ok(s.(documents := s.documents[d := Uploaded],
               files := s.files[f := SourceFile(d, 1, Original, sha256)],
               intakes := s.intakes[i := Intake(d, f, 1, sha256, state, 1)]))
  }

  function SupersedePending(
    extractions: map<Id, Extraction>, document: Id, actor: string, now: Time): map<Id, Extraction>
  {
    map x | x in extractions ::
      if extractions[x].content.document == document && extractions[x].status == Pending
      then Review.Supersede(extractions[x], actor, now) else extractions[x]
  }

  function WithoutDocument(chunks: map<Id, Chunk>, d: Id): map<Id, Chunk> {
    map c | c in chunks && chunks[c].document != d :: chunks[c]
  }

  predicate HasContent(files: map<Id, SourceFile>, d: Id, sha256: string) {
    exists g :: g in files && files[g].document == d && files[g].kind == Original && files[g].sha256 == sha256
  }

  /** The checks `append_raw_source` makes before it writes. */
  function AppendGuard(s: Db, d: Id, f: Id, i: Id, sha256: string, actor: string): Option<Error> {
    if Strip(actor) == "" then Some(InvalidRequest)
    else if d !in s.documents then Some(NotFound)
    else if HasContent(s.files, d, sha256) then Some(DuplicateSource)
    else if f in s.files || i in s.intakes then Some(Integrity)
    else None
  }

  /** The database after a new original: every pending extraction and all chunks of the document are retired. */
  function SourceAppended(
    s: Db, d: Id, f: Id, i: Id, version: nat, sha256: string, state: IntakeState, actor: string, now: Time): Db
  {
    s.(extractions := SupersedePending(s.extractions, d, actor, now),
       chunks := WithoutDocument(s.chunks, d),
       files := s.files[f := SourceFile(d, version, Original, sha256)],
       intakes := s.intakes[i := Intake(d, f, version, sha256, state, 1)],
       documents := s.documents[d := NeedsReprocess])
  }

  /** `append_raw_source` */
  ghost function AppendSource(
    s: Db, d: Id, f: Id, i: Id, sha256: string, state: IntakeState, actor: string, now: Time): Outcome<Db>
  {
    var refused := AppendGuard(s, d, f, i, sha256, actor);
    if refused.Some? then Err(refused.value)
    else Ok(SourceAppended(s, d, f, i, NextVersion(s.files, d), sha256, state, Strip(actor), now))
  }

  /** `add_artifact`: a derivative bound to the exact current original. */
  ghost function AddArtifact(
    s: Db, d: Id, f: Id, kind: FileKind, sha256: string, sourceFile: Id, sourceVersion: nat): Outcome<Db>
  {
    if d !in s.documents then Err(NotFound)
    else if kind == Original then Err(InvalidRequest)
    else if LatestOriginal(s.files, d) != Some(sourceFile) || s.files[sourceFile].version != sourceVersion
      then Err(SourceSuperseded)
    else if f in s.files then Err(Integrity)
    else Ok(s.(files := s.files[f := SourceFile(d, NextVersion(s.files, d), kind, sha256)]))
  }

  // ------------------------------------------------------------ intake states

  function Transition(s: Db, i: Id, expectedVersion: int, state: IntakeState, reason: string): Outcome<Db> {
    if expectedVersion < 1 then Err(InvalidRequest)
    else if i !in s.intakes || s.intakes[i].version != expectedVersion then Err(StaleIntake)
    else if !Edge(s.intakes[i].state, state) then Err(IllegalTransition)
    else if state == IntakeFailed && Strip(reason) == "" then Err(InvalidRequest)
    else Ok(s.(intakes := s.intakes[i := s.intakes[i].(state := state, version := s.intakes[i].version + 1)]))
  }

  ghost predicate IsIntakeOf(s: Db, d: Id, f: Id, i: Id) {
    && i in s.intakes && f in s.files
    && s.intakes[i].document == d && s.intakes[i].sourceFile == f
    && s.intakes[i].sourceVersion == s.files[f].version
  }

  ghost function IntakeOf(s: Db, d: Id, f: Id): (r: Option<Id>)
    ensures r.Some? ==> IsIntakeOf(s, d, f, r.value)
  {
    if i :| IsIntakeOf(s, d, f, i) then Some(i) else None
  }

  ghost predicate HasExtraction(s: Db, d: Id, version: nat, status: ExtractionStatus) {
    exists x :: x in s.extractions && s.extractions[x].content.document == d
      && s.extractions[x].content.sourceVersion == version && s.extractions[x].status == status
  }

  /** `prepare_reprocess` accepts the document; `hasJob` says a live or dead process job is on record. */
  ghost predicate MayReprocess(s: Db, d: Id, version: nat, state: IntakeState, hasJob: bool)
    requires d in s.documents
  {
    match s.documents[d]
    case NeedsReprocess => HasExtraction(s, d, version, Rejected) || HasExtraction(s, d, version, Approved) || hasJob
    case Verified => HasExtraction(s, d, version, Approved)
    case Failed => hasJob
    case _ => state == StoredUnprocessed
  }

  ghost function PrepareReprocess(s: Db, d: Id, actor: string, hasJob: bool): Outcome<Db> {
    if Strip(actor) == "" then Err(InvalidRequest)
    else if d !in s.documents then Err(NotFound)
    else if LatestOriginal(s.files, d).None? then Err(ReprocessUnavailable)
    else
      var f := LatestOriginal(s.files, d).value;
      if IntakeOf(s, d, f).None? then Err(InvalidRequest)
      else
        var i := IntakeOf(s, d, f).value;
        if !MayReprocess(s, d, s.files[f].version, s.intakes[i].state, hasJob) then Err(ReprocessUnavailable)
        else
          var t := s.(documents := s.documents[d := NeedsReprocess]);
          if s.intakes[i].state == Queued then Ok(t)
          else Transition(t, i, s.intakes[i].version, Queued, "processing_queued")
  }

  function SetStatus(s: Db, d: Id, status: DocumentStatus): Outcome<Db> {
    if d !in s.documents then Err(NotFound) else Ok(s.(documents := s.documents[d := status]))
  }

  // ------------------------------------------------------------ batches

  datatype CandidateDraft = CandidateDraft(
    id: Id, ordinal: nat, key: string, kind: RecordKind, subtype: Option<Subtype>, payload: Payload)

  datatype NewBatch = NewBatch(id: Id, identity: BatchIdentity, direct: bool, drafts: seq<CandidateDraft>)

  predicate DraftsStorable(drafts: seq<CandidateDraft>) {
    && (forall i, j :: 0 <= i < j < |drafts| ==>
          drafts[i].id != drafts[j].id && drafts[i].ordinal != drafts[j].ordinal && drafts[i].key != drafts[j].key)
    && (forall i :: 0 <= i < |drafts| ==>
         drafts[i].ordinal > 0 && (drafts[i].kind == Financial <==> drafts[i].subtype.Some?))
  }

  function CandidateRow(q: NewBatch, d: CandidateDraft): Extraction {
    Extraction(
      ExtractionContent(
        q.identity.document, q.identity.sourceFile, q.identity.sourceVersion,
        Some(Lineage(q.id, d.ordinal, d.key, d.kind, d.subtype)), d.payload),
      Pending, 1, None, None, None)
  }

  function InsertCandidates(
    extractions: map<Id, Extraction>, q: NewBatch, drafts: seq<CandidateDraft>): map<Id, Extraction>
  {
    if drafts == [] then extractions
    else
      var d := drafts[|drafts| - 1];
      InsertCandidates(extractions, q, drafts[..|drafts| - 1])[d.id := CandidateRow(q, d)]
  }

  /** `require_current`: the request names the exact current original and its intake. */
  ghost predicate NamesCurrentSource(s: Db, id: BatchIdentity) {
    && LatestOriginal(s.files, id.document) == Some(id.sourceFile)
    && s.files[id.sourceFile].version == id.sourceVersion && s.files[id.sourceFile].sha256 == id.sha256
    && id.intake in s.intakes
    && s.intakes[id.intake].document == id.document && s.intakes[id.intake].sourceFile == id.sourceFile
    && s.intakes[id.intake].sourceVersion == id.sourceVersion && s.intakes[id.intake].sha256 == id.sha256
  }

  ghost predicate HoldsKey(s: Db, id: BatchIdentity, b: Id) {
    b in s.batches && s.batches[b].identity.intake == id.intake && s.batches[b].identity.key == id.key
  }

  /**
    The intake after a batch is stored.  A mapped source passes through
    `processing` on its way to `processed`, which takes two edges.
  */
  function AfterBatch(intake: Intake, direct: bool): Intake {
    if direct && intake.state == Processing then intake.(state := Processed, version := intake.version + 1)
    else if !direct && intake.state == NeedsMapping then intake.(state := Processed, version := intake.version + 2)
    else intake
  }

  /** `add_candidate_batch` (direct) and `add_mapping_batch`. */
  ghost function AddBatch(s: Db, q: NewBatch): Outcome<Db> {
    var id := q.identity;
    if id.document !in s.documents then Err(NotFound)
    else if !NamesCurrentSource(s, id) then Err(StaleSource)
    else if |q.drafts| != id.mapped + id.residual || id.candidateCount != |q.drafts| then Err(InvalidRequest)
    else if q.direct && exists i :: 0 <= i < |q.drafts| && q.drafts[i].ordinal != i + 1 then Err(InvalidRequest)
    else if b :| HoldsKey(s, id, b) then (if s.batches[b].identity == id then Ok(s) else Err(KeyConflict))
    else if s.intakes[id.intake].state !in (if q.direct then {Processing, Processed} else {NeedsMapping, Processed})
    then Err(NotReady)
    else if q.id in s.batches || !DraftsStorable(q.drafts) || exists d :: d in q.drafts && d.id in s.extractions
    then Err(Integrity)
    else Ok(s.(batches := s.batches[q.id := Batch(id, Open, 1, None, None, None, None, None, false, false)],
               extractions := InsertCandidates(s.extractions, q, q.drafts),
               intakes := s.intakes[id.intake := AfterBatch(s.intakes[id.intake], q.direct)]))
  }
}
