# Clerk-san: the review and authority protocol

Clerk-san stores uploaded documents, lets workers extract candidate records from
them, and lets people decide which of those records count.  This project models
that decision protocol and proves what every history of it keeps.

The model has two layers.  `Model`, `Authority`, `Billing`, `Review`, `Sources` and
`Legacy` say what each repository call does to a database of tables, as
functions from a database to a new database or an error.  `Protocol` makes each
call one step; `Traces` and the `...Theorems` modules prove properties of every
run.  `Queries` and `Stores` hold the same calls as they work: loops over rows
and a `Store` whose tables are changed in place and restored on an error, proved
to do exactly what the specification says.

Five smaller parts stand beside it: upload idempotency (`Uploads`), derivative
retry chains (`DerivativeRetry`), the SQL splitter and the migration runner
(`SplitSql`, `Migrations`), the request scanners (`JsonDepth`, `Multipart`) and the
recurring-bill arithmetic (`BillAnalysis`).

What the model takes for granted:

- `canonical_digest` and SHA-256 are injective, so a vector or a content stands
  for its own digest.
- Ids are drawn by the caller; a clash is an integrity error.  Times are values
  that are only compared.
- Each repository call is atomic under its row locks, and a failed call rolls
  back to the savepoint or transaction it started in.
- Building verified values, normalizing a recurring bill and parsing part
  headers are arbitrary functions; every theorem holds for all of them.
- The indexer may rewrite any search chunk at any moment.

Three places where the code does less than a reader might expect are stated as
results.  An error-free preview does not guarantee success: two claims may give
one new issuer name two kinds (`ActivationTheorems.ActivateOutcome` gives the
exact condition, `Witness.ActivationRefused` a run).  A stale ownership hint can
make a committed key look new if a transaction commits a reservation it never
bound (`Uploads.NewForCommittedKey` is the exact condition,
`Uploads.StaleHintCanMislead` a run).  The multipart scanner stops at a delimiter
inside a line and lets the next two bytes decide: dashes there accept the body
without a look at later parts, a line break starts another part, and anything
else refuses the body (`Multipart.InlineDelimiterDecides`,
`Multipart.InlineVerdictIsRight`, `Multipart.EmptyFileAccepted`).

## Model

| member | source | states |
|---|---|---|
| Traces.StepKeeps | clerksan/db/repositories.py:3613-3838 | Every repository call, failed or not, keeps the whole store invariant and only moves rows forward: content never changes, versions rise, final statuses stay. |
| Traces.RunKeeps | clerksan/db/repositories.py:3316-3927 | The same for any number of calls in any order: the invariant holds after every run, and later rows evolve from earlier ones. |
| Traces.ReachableInv | clerksan/db/repositories.py:1357-1677 | Every database reachable from the empty one satisfies the invariant. |
| AuthorityTheorems.OneAuthority | clerksan/db/repositories.py:3718-3758 | In every reachable database a document has at most one active batch, and its approvals are none, exactly one legacy extraction, or members of that active batch. |
| ActivationTheorems.FlushesKeepIndexes | clerksan/db/repositories.py:3716-3761 | After each of the first two flushes of an activation there is still at most one active batch per document and one live bill per issuer and period. |
| ActivationTheorems.BillFlushesKeepIndexes | clerksan/db/repositories.py:3785-3815 | Both indexes also hold after every single bill the activation records. |
| AuthorityTheorems.OnlyActivationAndApprovalChangeAuthority | clerksan/db/active_records.py:19-56 | Every call other than activation and legacy approval (source replacement, staging, batch rejection, rejection, payments, intakes) leaves the authoritative verified rows exactly unchanged. |
| AuthorityTheorems.QuietRunsKeepAuthority | clerksan/db/active_records.py:19-56 | The same over any run of such calls. |
| AuthorityTheorems.ReplacedNeverActivates | clerksan/db/repositories.py:3650-3658 | Once a newer original is on file, no batch bound to an older source becomes active in any continuation, whether it existed at the replacement or not. |
| AuthorityTheorems.AppendReplaces | clerksan/db/repositories.py:1610-1647 | Replacing a source puts every batch of the document behind the new original. |
| AuthorityTheorems.ReplacementIsFinal | clerksan/db/repositories.py:1610-1647 | From a replacement on, in any continuation, every batch the document had stays behind the new original and is active only if it was active at the replacement. |
| AuthorityTheorems.AppendRetiresPending | clerksan/db/repositories.py:1610-1647 | A replacement supersedes every pending extraction of the document and deletes all its chunks; reviewed extractions, verified rows, bills and earlier files stay as they were, and the new file is the newest original. |
| AuthorityTheorems.ActivatesOne | clerksan/db/repositories.py:3748-3758 | An activation makes its own batch active, only while its source is current, and no other batch. |
| PreviewTheorems.PreviewedIsActivated | clerksan/db/repositories.py:3608-3671 | After any steps since the preview, a successful activation with the previewed vector finds the same batch row, candidates, latest decisions, corrections, manifests, prior authority and prior bills as previewed, whatever order the rows were retrieved in. |
| PreviewTheorems.PublishesThePreview | clerksan/db/repositories.py:3699-3746 | The approvals of the document after such an activation are exactly the candidates previewed as included. |
| PreviewTheorems.PublishesPreviewedValues | clerksan/db/repositories.py:3763-3784 | Each financial candidate previewed as included then has exactly one verified row, which counts and holds exactly the previewed values. |
| PreviewTheorems.VectorIgnoresOrder | clerksan/db/repositories.py:4766-4894 | The activation vector is the same for every retrieval order of the prior approvals and of the candidates. |
| PreviewTheorems.SameVectorSamePreview | clerksan/db/repositories.py:4766-4894 | Equal vectors of two databases, one evolved from the other, mean equal full rows: versions pin extraction and batch rows, payment state pins bill rows. |
| PreviewTheorems.PaymentForcesConflict | clerksan/bills/reminders.py:144-197 | A payment that changes a bill which a preview carries over makes the previewed vector differ for good, whatever happens before and after it. |
| PreviewTheorems.OtherVectorRefused | clerksan/db/repositories.py:3659-3671 | An activation that carries any other vector than the current one fails. |
| RowOrder.RetrievalOrderIrrelevant | clerksan/db/repositories.py:4815-4894 | Sorting by id gives the same list for any two enumerations of one table. |
| RowOrder.ListingInjective | clerksan/db/repositories.py:4815-4894 | The sorted list determines the table it lists. |
| ActivationTheorems.ActivateOutcome | clerksan/db/repositories.py:3785-3822 | With new ids and a preview without errors, activation succeeds if and only if every projected bill is well formed and no two of them give one issuer name two kinds; the only error left is an invalid bill. |
| Witness.ActivationHappens | clerksan/db/repositories.py:3785-3822 | A run of three calls reaches a database without errors in its preview whose activation publishes two recurring bills of a new issuer. |
| Witness.ActivationRefused | clerksan/db/repositories.py:3785-3822 | A run reaches a database whose preview lists no error, whose guard passes and whose ids are new, and whose activation fails with an invalid bill: two claims give one new issuer name two kinds. |
| ActivationTheorems.NeverBillConflict | clerksan/db/repositories.py:4176-4273 | From any database with the invariant, activation never fails with a period conflict: conflict detection on the locked state foresees what recording meets after the flushes. |
| CohortBills.ClaimIsFree | clerksan/db/repositories.py:4238-4273 | For a claim without conflict errors no live bill holds its issuer name and period once the prior cohort is retired. |
| CohortBills.RecordAllIs | clerksan/bills/service.py:98-154 | Recording a compatible cohort succeeds exactly when its claims fit, never meets a conflict, and adds exactly one bill per claim. |
| ActivationTheorems.PaymentSurvives | clerksan/db/repositories.py:3785-3814 | Each projected candidate gets one live bill; the bill that held its issuer and period before is superseded and its payment status and time carry over; if nobody held it the bill is unpaid. |
| ActivationTheorems.PeriodPaymentSurvives | clerksan/db/repositories.py:3785-3814 | For every issuer and period that a live bill holds before an activation and one holds after it, payment status and time are the same. |
| ActivationTheorems.CohortConserved | clerksan/db/repositories.py:3699-3746 | Every candidate is included and approved or excluded and superseded, never both; the former approvals of the document are superseded; every other extraction row is untouched. |
| ActivationTheorems.ApprovedIsIncluded | clerksan/db/repositories.py:3734-3739 | After an activation the approvals of the document are exactly the included candidates. |
| ActivationTheorems.AuthorityIsIncluded | clerksan/db/repositories.py:3763-3784 | The verified rows that count for the document are exactly those of the included financial candidates. |
| ActivationTheorems.ActivateKeeps | clerksan/db/models.py:914-948 | A successful activation keeps the invariant, including all activation metadata and consent constraints: included + excluded = candidate count, consent flags exactly when needed. |
| CohortProofs.CohortClean | clerksan/db/repositories.py:4775-4804 | The preview lists no error if and only if the batch is reviewable, its source current, its counts reconcile and every candidate is free of faults. |
| CohortProofs.CohortSplit | clerksan/db/repositories.py:3699-3708 | The included and the excluded members of a cohort without errors are disjoint and together all its members. |
| CohortProofs.PriorIsEverything | clerksan/db/repositories.py:4084-4107 | What an activation retires is exactly the approvals of the document. |
| CohortProofs.RetirePriorKeeps | clerksan/db/repositories.py:3718-3732 | After the first flush the whole invariant holds. |
| ActivationProofs.PublishedKeeps | clerksan/db/repositories.py:3734-3761 | After the second flush everything but the verified rows holds, with the new batch active and its evidence complete. |
| ActivationProofs.VerifiedKeeps | clerksan/db/repositories.py:3763-3784 | The third flush restores the whole invariant: one verified row per included financial candidate and none for others. |
| RejectionProofs.RejectBatchKeeps | clerksan/db/repositories.py:3840-3927 | Rejecting a batch keeps the invariant and only moves rows forward. |
| RejectionProofs.RejectShape | clerksan/db/repositories.py:3840-3927 | Rejecting a batch rejects exactly its own members, all of them pending until then, refuses the batch and changes nothing else but the document status. |
| HistoryTheorems.DecisionsAreChains | clerksan/db/repositories.py:3418-3466 | In every reachable database the decisions of a candidate carry exactly the revisions 1 to n, each once and each linked to its predecessor. |
| DecisionProofs.ApplyDecisionsReadiness | clerksan/db/repositories.py:3467-3504 | After staging, the batch is ready to activate if and only if every candidate has a decision: the incremental count is exact. |
| HistoryTheorems.ReadyStays | clerksan/db/repositories.py:3484-3504 | Decisions are only ever added, and a ready batch stays ready for as long as it is under review. |
| HistoryTheorems.BatchBumps | clerksan/db/repositories.py:3588-3606 | Every call leaves a batch row alone or raises its version by exactly one. |
| HistoryTheorems.SuccessRaisesVersion | clerksan/db/repositories.py:854-878 | A request succeeds only at the version it expects of its batch, intake or extraction, and raises it by one. |
| HistoryTheorems.SameVersionOnce | clerksan/db/repositories.py:3588-3606 | Among requests that expect the same version of the same row at most one succeeds, whatever runs between them. |
| HistoryTheorems.ExtractionLife | clerksan/db/repositories.py:829-878 | Over any run an extraction keeps its content, is pending exactly at version 1, changes at most twice, and never leaves rejected or superseded. |
| IntakeTheorems.IntakeSteps | clerksan/db/repositories.py:881-908 | Every call, failed or not, leaves an intake row as it was, moves it over one edge of the transition table and one version, or, only when a mapped batch is stored, over the two edges from needs-mapping to processed and two versions; a new row was uploaded by that call and has version 1. |
| IntakeTheorems.IntakeHistoryIsPath | clerksan/db/repositories.py:1241-1294 | For any run and any moment of it, the states an intake goes through from there on are one path in the transition table that starts at its state then, takes one edge per version and is as long as the versions passed; after every call in between the state is the one the path has at that version. |
| IntakeTheorems.HistoryFromUpload | clerksan/db/repositories.py:881-908 | In every run from the empty database the whole history of an intake is such a path: it starts at the state its upload gave it, and the version is 1 + the edges taken. |
| IntakeTheorems.BatchTraced | clerksan/db/repositories.py:2818-2825 | Storing a batch leaves the intake of its source processed and all others alone; from needs-mapping it gets there over processing, by two legal edges and two versions; a replayed request changes nothing. |
| IntakeTheorems.ReprocessIsLegal | clerksan/db/repositories.py:1699-1787 | Reprocessing succeeds exactly when the document is eligible, and its move to queued is then always a legal edge. |
| BatchProofs.AddBatchKeeps | clerksan/db/repositories.py:2469-2635 | Storing a candidate or mapping batch keeps the invariant: membership, counts and source binding. |
| LegacyProofs.PromoteKeeps | clerksan/db/repositories.py:5045-5117 | Legacy approval keeps the invariant and only moves rows forward. |
| AuthorityTheorems.PromotionTakesOver | clerksan/db/repositories.py:5045-5117 | After a legacy approval its extraction is the only approved one of the document, exactly one verified row was added, and that row is the only one that counts there. |
| LegacyProofs.AddExtractionKeeps | clerksan/db/repositories.py:4928-4980 | Adding a legacy extraction keeps the invariant and only moves rows forward. |
| AuthorityTheorems.AddedIsOnlyPending | clerksan/db/repositories.py:4928-4980 | A new legacy extraction supersedes everything pending in its document, is then the only pending one there, and no other row changes. |
| LegacyProofs.RejectExtractionKeeps | clerksan/db/repositories.py:4995-5022 | Rejecting an extraction keeps the invariant. |
| SourceProofs.AppendSourceKeeps | clerksan/db/repositories.py:1533-1677 | Appending a source keeps the invariant and only moves rows forward. |
| BillingProofs.RecordBillKeeps | clerksan/bills/service.py:31-154 | Recording a bill keeps one live owner per issuer and period, unique issuer names and one bill per verified record. |
| BillingProofs.MarkPaidKeeps | clerksan/bills/reminders.py:144-197 | Paying a bill keeps the invariant and never undoes a payment. |
| AuthorityTheorems.OneLiveBill | clerksan/bills/service.py:108-139 | In every reachable database at most one un-superseded bill exists per issuer and billing period. |
| Stores.Store.Activate | clerksan/db/repositories.py:3613-3838 | The step-by-step activation, with its loops and its savepoint, does exactly what the specification says, every failure leaves the store unchanged, and the invariant holds afterwards. |
| Stores.Store.ApplyDecisions | clerksan/db/repositories.py:3316-3516 | The staging loop does exactly what the specification says, any error leaves the store unchanged, and the invariant holds afterwards. |
| Stores.Store.RejectBatch | clerksan/db/repositories.py:3840-3927 | Batch rejection does exactly what the specification says, any error leaves the store unchanged, and an invariant that held before holds afterwards. |
| Stores.Store.AppendRawSource | clerksan/db/repositories.py:1533-1677 | Same for source replacement. |
| Stores.Store.CreateWithRaw | clerksan/db/repositories.py:1357-1460 | Same for the first upload of a document. |
| Stores.Store.TransitionIntake | clerksan/db/repositories.py:1241-1294 | Same for intake transitions. |
| Stores.Store.AddExtraction | clerksan/db/repositories.py:4928-4980 | Same for legacy extraction. |
| Stores.Store.RejectExtraction | clerksan/db/repositories.py:4995-5022 | Same for legacy rejection. |
| Stores.Store.Promote | clerksan/db/repositories.py:5045-5117 | Same for legacy promotion. |
| Stores.Store.RecordVerifiedBill | clerksan/bills/service.py:31-154 | Same for recording a bill; the bill returned is the one linked to the record. |
| Stores.Store.MarkPaid | clerksan/bills/reminders.py:144-197 | Same for paying a bill. |
| Stores.Store.RetireCohort | clerksan/db/repositories.py:3718-3732 | The first flush writes exactly the retired prior cohort. |
| Stores.Store.PublishRows | clerksan/db/repositories.py:3734-3761 | The second flush writes exactly the published cohort. |
| Stores.Store.InsertVerifiedRows | clerksan/db/repositories.py:3763-3784 | The third flush inserts exactly the verified rows of the included financial candidates, or fails. |
| Stores.Store.RecordBills | clerksan/db/repositories.py:3785-3815 | The bill loop computes exactly the fold of record-and-carry-over over the cohort. |
| Stores.Store.LoadActivation | clerksan/db/repositories.py:3999-4173 | The loaded activation state is the one the specification names: prior authority, facts, conflicts, vector and errors. |
| Queries.FindLatest | clerksan/db/repositories.py:3561-3586 | The loop returns the decision with the highest revision. |
| Queries.FindLatestOriginal | clerksan/db/repositories.py:542-544 | The loop returns the newest original of the document. |
| Queries.FindPriorActive | clerksan/db/repositories.py:4045-4062 | The query returns the other active batch of the document, if any. |
| Queries.CollectPriorApproved | clerksan/db/repositories.py:4084-4107 | The collected set is exactly the approvals the new cohort replaces. |
| Queries.CollectPriorBills | clerksan/db/repositories.py:4108-4126 | The collected set is exactly the live bills of the prior cohort. |
| Queries.CheckSource | clerksan/db/repositories.py:4142-4153 | The check is exactly that batch, newest original and processed intake name one source. |
| Queries.DeriveFacts | clerksan/db/repositories.py:4620-4731 | The derived values, projection and errors of one candidate. |
| Queries.GroupClaims | clerksan/db/repositories.py:4191-4194 | The groups hold exactly the recurring candidates with that issuer name and period. |
| Queries.AttachConflict | clerksan/db/repositories.py:4195-4273 | The conflicts and the prior bill attached to a candidate are those of the specification: duplicate claims, issuer kind, foreign owner. |
| Queries.BuildVector | clerksan/db/repositories.py:4815-4894 | The vector built from rows in any listed order is the activation vector. |
| Queries.CollectFaults | clerksan/db/repositories.py:4775-4804 | The collected errors are those of the batch and then those of the candidates in id order. |
| Queries.FindIssuer | clerksan/bills/service.py:98-99 | The query returns the issuer of that name. |
| Queries.FindPeriodOwner | clerksan/bills/service.py:108-116 | The query returns the live bill of that issuer and period. |
| Queries.FindBillOf | clerksan/bills/service.py:79-84 | The query returns the bill of a verified record. |
| Queries.FindNextVersion | clerksan/db/repositories.py:1610-1610 | One more than the highest file version of the document. |
| Uploads.RunKeeps | clerksan/db/repositories.py:917-1054 | Over any interleaving of reserve, bind, commit and rollback, on both engines, reservations and intakes name each other and pending writes are locked. |
| Uploads.OneIntakePerKey | clerksan/db/repositories.py:1085-1214 | At most one committed intake carries an upload key. |
| Uploads.BoundKeyAnswers | clerksan/db/repositories.py:1003-1054 | A bound committed key answers every session the same: its own content and intent replay its intake, anything else conflicts, never new. |
| Uploads.BoundForever | clerksan/db/repositories.py:1209-1213 | A bound reservation stays bound to the same intake however the run goes on. |
| Uploads.NewForCommittedKey | clerksan/db/repositories.py:947-1018 | A key committed by another transaction is answered as new if and only if its row is unbound, matches, and the session holds a hint for it. |
| Uploads.StaleHintIsHarmless | clerksan/db/repositories.py:947-1018 | When every commit binds what it reserved, as the upload paths do, no hint makes a committed key look new. |
| Uploads.StaleHintCanMislead | clerksan/db/repositories.py:1013-1018 | Without that discipline it can: a concrete run where a rolled-back session takes another session's committed key for new. |
| Uploads.Server.ReserveKey | clerksan/db/repositories.py:917-1054 | The imperative reservation does exactly what the specification says. |
| Uploads.Server.BindIntake | clerksan/db/repositories.py:1161-1214 | The imperative binding does exactly what the specification says. |
| DerivativeRetry.HistoryKeeps | clerksan/db/repositories.py:1817-1863 | Over every history of enqueues, work and retries the jobs of a target form one chain. |
| DerivativeRetry.OneSuccessor | clerksan/db/repositories.py:1843-1856 | Each failed job has at most one successor. |
| DerivativeRetry.OneLiveJob | clerksan/db/repositories.py:1834-1839 | Each exact target has at most one job that is not failed. |
| DerivativeRetry.SecondRetryIsIdle | clerksan/db/repositories.py:1834-1846 | An immediate second retry queues nothing. |
| DerivativeRetry.FailedTargetIsRetried | clerksan/db/repositories.py:635-646 | A target whose jobs all failed has a leaf without successor, and a retry queues exactly one successor for it. |
| DerivativeRetry.LeafIsLast | clerksan/db/repositories.py:635-646 | The chosen leaf is the last job of the chain whatever the timestamps. |
| DerivativeRetry.CollectTargets | clerksan/db/repositories.py:592-602 | The grouping loop yields the targets of the source version in order of first appearance. |
| DerivativeRetry.Queue.RetryCurrent | clerksan/db/repositories.py:1817-1863 | The retry loop writes exactly the specified successors and returns their ids. |
| SplitSql.SplitScript | clerksan/db/migrate.py:25-91 | The scanner loop computes the specified split. |
| SplitSql.SplitUndoesJoin | clerksan/db/migrate.py:25-91 | Splitting the semicolon-joined text of any trimmed, non-empty statements that end in plain state and hold no plain semicolon returns the same list. |
| SplitSql.StatementsAreSlices | clerksan/db/migrate.py:81-91 | For any script the statements are its ordered, trimmed, non-empty slices; a plain-state semicolon separates each from the next and none lies inside one; outside them are only whitespace and plain-state semicolons. |
| SplitSql.SplitIsTheCut | clerksan/db/migrate.py:25-91 | These conditions leave no choice: a list of statements is the split of a script if and only if it cuts the script so. |
| SplitSql.StepIsLocal | clerksan/db/migrate.py:35-86 | No token looks past a semicolon. |
| Migrations.Database.RunMigrations | clerksan/db/migrate.py:146-188 | The run loop does exactly what the specification of a run with a crash budget says. |
| Migrations.RunExtends | clerksan/db/migrate.py:162-188 | From any applied prefix a run applies exactly the missing files it reaches, in order, and reports them. |
| Migrations.CrashesAreHarmless | clerksan/db/migrate.py:146-188 | After any runs with crashes every file was applied at most once and in order; one full run completes the list and the next applies nothing. |
| Migrations.InterleavingsAreHarmless | clerksan/db/migrate.py:120-188 | Under any interleaving of processes and crashes, with or without the lock, the database holds the first files, each applied exactly once and in order. |
| Migrations.LockedNeverCollides | clerksan/db/migrate.py:120-143 | Under any interleaving and any crashes of runs that take the lock, no commit ever meets a row that another process inserted. |
| Migrations.UnlockedCollides | clerksan/db/migrate.py:120-143 | Without the lock two processes can meet there, on any list of files. |
| Migrations.ChangedChecksumStops | clerksan/db/migrate.py:172-177 | A changed checksum stops every run there: no later file is ever applied. |
| Migrations.FinishedMeansApplied | clerksan/db/migrate.py:162-188 | A run that finishes leaves every file applied. |
| JsonDepth.MeasureDepth | clerksan/api/request_boundaries.py:336-357 | The byte loop computes the specified scan. |
| JsonDepth.MeasuresNesting | clerksan/api/request_boundaries.py:336-357 | On any serialisation of a JSON value, with any whitespace and string escapes, the result is the nesting depth of the value (sections 2 to 7 of RFC 8259). |
| JsonDepth.ReadsString | clerksan/api/request_boundaries.py:342-351 | A whole string with any escapes leaves the scan where it was. |
| Multipart.ValidateBody | clerksan/api/request_boundaries.py:360-429 | The scanner loop computes the specified verdict. |
| Multipart.FindsExactlyTheParts | clerksan/api/request_boundaries.py:360-429 | On any well-formed list of parts whose contents lack the delimiter the scanner finds exactly those parts, measures each exactly and gives the verdict on the parts themselves. |
| Multipart.AcceptedWhenAllFits | clerksan/api/request_boundaries.py:394-424 | A body is accepted if and only if every part is named with a bounded header, no file is empty or too large, and the file and field counts are within limits. |
| Multipart.ResumesAtPartEnd | clerksan/api/request_boundaries.py:368-376 | The scanner resumes at the true end of a part if and only if the content lacks the bare delimiter. |
| Multipart.InlineDelimiterDecides | clerksan/api/request_boundaries.py:368-376 | The verdict on any body whose first part with a delimiter inside a line, which section 5.1.1 of RFC 2046 allows in content, stands behind any well-formed parts and before any parts at all: the first fault up to there, else acceptance if two dashes follow the delimiter, a part read from there on if a line break follows, and refusal otherwise. |
| Multipart.InlineVerdictIsRight | clerksan/api/request_boundaries.py:368-376 | That verdict is the one the parts deserve if and only if a part up to there is at fault, or dashes follow and all parts fit anyway, or a line break follows and the part read there gets the verdict of the parts that really follow. |
| Multipart.InlineCloseHidesTheRest | clerksan/api/request_boundaries.py:373-375 | A closing delimiter inside a line ends the scan: the body is accepted whatever parts follow, and no count or size is checked on them. |
| Multipart.EmptyFileAccepted | clerksan/api/request_boundaries.py:373-375 | A concrete body of well-formed parts that is accepted although it holds an empty file. |
| BillAnalysis.YearIsTwelveMonths | clerksan/bills/analysis.py:119-147 | If the twelve preceding months exist, the year-over-year amount delta equals the sum of the twelve month-over-month deltas. |
| BillAnalysis.InputOrderIgnored | clerksan/bills/analysis.py:239-251 | Flags and comparisons, errors included, do not depend on the order of the input. |
| BillAnalysis.LaterOnlyExtends | clerksan/bills/analysis.py:165-187 | Appending later periods only extends the list of flags. |
| BillAnalysis.MedianIsRobust | clerksan/bills/analysis.py:401-408 | Altering fewer than half of a history keeps its median within any range that holds the unaltered values. |
| BillAnalysis.FlagAnomalies | clerksan/bills/analysis.py:165-187 | The flag loop computes the specified flags. |
| BillAnalysis.ShiftMoves | clerksan/bills/analysis.py:411-414 | Shifting by months moves the month index by that many and lands on the first of a month. |

## Left out

- Uploads.StaleHintIsHarmless: holds for runs whose commits bind what they reserved; the code does not enforce this itself, so the other runs are covered by the exact condition instead.
- ActivationTheorems.ActivateOutcome: assumes the drawn ids are unused; a clash is an integrity error before anything is recorded.
- Stores.Store.RejectBatch: proved from the one-active-batch index alone; the properties of the result come from `RejectionProofs`.
- Stores.Store.Promote: the recurring bill that `approve` records after promoting is modelled by `Legacy.ApproveExtraction` on values only.
- `add_candidate_batch`, `add_mapping_batch`, `add_artifact`, `prepare_reprocess` and `set_status` are modelled as functions on values, not as methods that change the store in place.
- Upload idempotency keys are modelled in `Uploads` only; `CreateDocument` and `AppendSource` model uploads without a key.
- `approve` on a single-candidate batch, which stages one decision and activates, is not a step of its own; it is the two steps it calls.
- Batches of origin `legacy_singleton` exist only after a data migration and are not modelled.
- Byte-size and nesting limits on decision requests, and the format checks on digests, file names and MIME types, are not modelled.
- Reconciliation counts are natural numbers; a missing count, which the code reads as -1, is not modelled.
- Extraction confidences, source spans, model names, locators and row fingerprints are not part of a row; a candidate's lineage is present or absent as a whole.
- Intake evidence (intent, detected format, reason codes, retry flags) is not part of an intake row; only the reason a failed state needs is checked.
- Search manifests are compared as the rows they hold, by id, not by sequence number.
- Spreadsheet rows and embedded media that a replacement deletes, audit rows, duplicate flags and document classes are not modelled.
- Which process jobs exist when reprocessing is requested is a parameter; the job queue itself is modelled for derivatives only.
- The job a replayed upload reports is not modelled.
- Leases, attempts and back-off of jobs are one nondeterministic move of a running job.
- Header limits aside, header parsing is abstract; transport padding after a boundary, which the scanner refuses, is not rendered.
- `_read_body`, `_replay_body`, the upload slots and `bucket_reminders` are not modelled.
- Decimal rounding and the wording of explanations in the bill analysis are not modelled; amounts are exact.
- List and pagination queries, serialisers, schema mappings, HTTP routes, the user interface and the evaluation scripts are not modelled.
