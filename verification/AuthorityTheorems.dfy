/** Which records count: at most one authority per document, and who may change it. */
module AuthorityTheorems {
  import opened Basics
  import opened Model
  import opened Authority
  import opened Billing
  import opened Invariant
  import opened Protocol
  import opened Review
  import opened Text
  import ActivationProofs
  import ActivationTheorems
  import BillingProofs
  import CohortProofs
  import DecisionProofs
  import Legacy
  import LegacyProofs
  import RejectionProofs
  import SourceProofs
  import Sources
  import Traces

  // ------------------------------------------------------------ one authority per document

  function ApprovedOf(s: Db, d: Id): set<Id> {
    set x | x in s.extractions && s.extractions[x].status == Approved && s.extractions[x].content.document == d
  }

  ghost predicate LegacyAuthority(s: Db, d: Id, x: Id) {
    x in s.extractions && IsLegacy(s.extractions[x]) && ApprovedOf(s, d) == {x}
  }

  ghost predicate BatchAuthority(s: Db, d: Id, b: Id) {
    && b in s.batches && s.batches[b].lifecycle == Active && s.batches[b].identity.document == d
    && ApprovedOf(s, d) <= Members(s.extractions, b)
  }

  lemma BatchHoldsAll(s: Db, d: Id, x: Id)
    requires OneActive(s.batches) && MemberInv(s.extractions, s.batches) && AuthorityInv(s.extractions, s.batches)
    requires x in ApprovedOf(s, d) && !IsLegacy(s.extractions[x])
    ensures BatchAuthority(s, d, s.extractions[x].content.lineage.value.batch)
  {
    var b := s.extractions[x].content.lineage.value.batch;
    forall y | y in ApprovedOf(s, d) ensures y in Members(s.extractions, b) {
      assert IsLegacy(s.extractions[y]) ==> x == y;
    }
  }

  /** In every reachable database a document has at most one active batch and one kind of approval. */
  lemma OneAuthority(m: Mapping, s: Db, d: Id)
    requires Traces.Reachable(m, s)
    ensures OneActive(s.batches)
    ensures ApprovedOf(s, d) == {} || (exists x :: LegacyAuthority(s, d, x)) || (exists b :: BatchAuthority(s, d, b))
  {
    hide Traces.Reachable;
    Traces.ReachableInv(m, s);
    hide StatusInv, CountInv, SettledInv, EvidenceInv, DecisionInv, ReadyInv, VerifiedInv, BillInv;
    hide DocumentInv, SourceInv, BatchSourceInv;
    hide OneActive, MemberInv, BatchAuthority;
    if x :| x in ApprovedOf(s, d) {
      if IsLegacy(s.extractions[x]) {
        assert LegacyAuthority(s, d, x);
      } else {
        BatchHoldsAll(s, d, x);
      }
    }
  }

  /** At most one live bill per issuer and period, in every reachable database. */
  lemma OneLiveBill(m: Mapping, s: Db, x: Id, y: Id)
    requires Traces.Reachable(m, s) && x in s.bills && y in s.bills && Live(s.bills[x]) && Live(s.bills[y])
    requires s.bills[x].content.issuer == s.bills[y].content.issuer
      && s.bills[x].content.period == s.bills[y].content.period
    ensures x == y
  {
    hide Traces.Reachable;
    Traces.ReachableInv(m, s);
    hide ReviewInv, DecisionInv, ReadyInv, VerifiedInv, DocumentInv, SourceInv, BatchSourceInv;
  }

  // ------------------------------------------------------------ only activation and approval change it

  /** Nothing but pending extractions and batches under review changed, and a new batch is open. */
  ghost predicate KeepsAuthority(s: Db, t: Db) {
    && t.verified == s.verified
    && (forall x :: x in s.extractions && s.extractions[x].status != Pending ==>
         x in t.extractions && t.extractions[x] == s.extractions[x])
    && (forall b :: b in s.batches ==>
          && b in t.batches && t.batches[b].identity == s.batches[b].identity
          && (t.batches[b].lifecycle == Active <==> s.batches[b].lifecycle == Active)
          && (t.batches[b] == s.batches[b] || t.batches[b].version == s.batches[b].version + 1))
    && (forall b :: b in t.batches && b !in s.batches ==> t.batches[b].lifecycle == Open)
  }

  lemma AuthorityFrame(s: Db, t: Db)
    requires VerifiedInv(s.verified, s.extractions) && AuthorityInv(s.extractions, s.batches) && KeepsAuthority(s, t)
    ensures AuthoritativeVerified(t) == AuthoritativeVerified(s)
  {
    forall v | v in s.verified ensures IsAuthoritative(s, v) <==> IsAuthoritative(t, v) {
    }
  }

  lemma SameAuthorityTables(s: Db, t: Db)
    requires t.verified == s.verified && t.extractions == s.extractions && t.batches == s.batches
    ensures KeepsAuthority(s, t)
  {
  }

  lemma StagingKeepsAuthority(m: Mapping, s: Db, b: Id, v: int, drafts: seq<Draft>, actor: string)
    requires Review.ApplyDecisions(m, s, b, v, drafts, actor).Ok?
    ensures KeepsAuthority(s, Review.ApplyDecisions(m, s, b, v, drafts, actor).value)
  {
    hide Review.ApplyDecisions, StageAll, Decided, FirstTimers, Members, InBatch, DraftNormal, Strip;
    DecisionProofs.ApplyDecisionsShape(m, s, b, v, drafts, actor);
  }

  lemma RejectionKeepsAuthority(s: Db, b: Id, v: int, actor: string, reason: string, now: Time)
    requires Review.RejectBatch(s, b, v, actor, reason, now).Ok?
    ensures KeepsAuthority(s, Review.RejectBatch(s, b, v, actor, reason, now).value)
  {
    RejectionProofs.RejectShape(s, b, v, actor, reason, now);
    hide Review.RejectBatch;
  }

  lemma BillKeepsAuthority(s: Db, q: NewBill)
    requires Inv(s) && Billing.RecordBill(s, q).Ok?
    ensures KeepsAuthority(s, Billing.RecordBill(s, q).value.0)
  {
    hide Billing.RecordBill, ReviewInv, DecisionInv, ReadyInv, VerifiedInv, BillInv, DocumentInv, SourceInv;
    hide BatchSourceInv;
    BillingProofs.RecordBillTables(s, q);
  }

  lemma NewBatchShape(s: Db, q: Sources.NewBatch)
    requires Sources.AddBatch(s, q).Ok?
    ensures var t := Sources.AddBatch(s, q).value;
      t == s || (&& t.verified == s.verified && t.extractions == Sources.InsertCandidates(s.extractions, q, q.drafts)
                 && (forall d :: d in q.drafts ==> d.id !in s.extractions)
                 && q.id !in s.batches && q.id in t.batches && t.batches == s.batches[q.id := t.batches[q.id]]
                 && t.batches[q.id].lifecycle == Open)
  {
    hide LatestOriginal, Sources.AfterBatch, Sources.InsertCandidates, Sources.DraftsStorable;
  }

  lemma NewBatchKeepsAuthority(s: Db, q: Sources.NewBatch)
    requires Sources.AddBatch(s, q).Ok?
    ensures KeepsAuthority(s, Sources.AddBatch(s, q).value)
  {
    hide Sources.AddBatch, Sources.InsertCandidates;
    NewBatchShape(s, q);
    CandidatesAdded(s.extractions, q, q.drafts);
  }

  lemma {:induction false} CandidatesAdded(
    p: map<Id, Extraction>, q: Sources.NewBatch, drafts: seq<Sources.CandidateDraft>)
    ensures forall x :: x in p && (forall d :: d in drafts ==> d.id != x) ==>
      x in Sources.InsertCandidates(p, q, drafts) && Sources.InsertCandidates(p, q, drafts)[x] == p[x]
  {
    if drafts != [] {
      CandidatesAdded(p, q, drafts[..|drafts| - 1]);
    }
  }

  lemma PaymentKeepsAuthority(s: Db, x: Id, actor: string, paidAt: Time)
    requires Billing.MarkPaid(s, x, actor, paidAt).Ok?
    ensures KeepsAuthority(s, Billing.MarkPaid(s, x, actor, paidAt).value)
  {
    hide BillCarriesAuthority, KeepsAuthority, Live, IsAuthoritative;
    var t := Billing.MarkPaid(s, x, actor, paidAt).value;
    assert t == s.(bills := t.bills);
    hide Billing.MarkPaid;
    SameAuthorityTables(s, t);
  }

  lemma FileStep(m: Mapping, s: Db, step: Step)
    requires Succeeds(m, s, step) && (step.CreateDocument? || step.AddArtifact?)
    ensures KeepsAuthority(s, Apply(m, s, step).value)
  {
    hide KeepsAuthority, LatestOriginal, Sources.NextVersion;
    SameAuthorityTables(s, Apply(m, s, step).value);
  }

  lemma MoveKeepsAuthority(s: Db, i: Id, v: int, state: IntakeState, reason: string)
    requires Sources.Transition(s, i, v, state, reason).Ok?
    ensures KeepsAuthority(s, Sources.Transition(s, i, v, state, reason).value)
  {
    hide KeepsAuthority, Strip, Sources.Edge;
    SameAuthorityTables(s, Sources.Transition(s, i, v, state, reason).value);
  }

  lemma ReprocessKeepsAuthority(s: Db, d: Id, actor: string, hasJob: bool)
    requires Sources.PrepareReprocess(s, d, actor, hasJob).Ok?
    ensures KeepsAuthority(s, Sources.PrepareReprocess(s, d, actor, hasJob).value)
  {
    hide KeepsAuthority, Strip, Sources.Edge, LatestOriginal, Sources.IntakeOf, Sources.MayReprocess;
    var t := Sources.PrepareReprocess(s, d, actor, hasJob).value;
    assert t == s.(documents := t.documents, intakes := t.intakes);
    hide Sources.PrepareReprocess;
    SameAuthorityTables(s, t);
  }

  lemma AuthorityUntouched(m: Mapping, s: Db, step: Step)
    requires Inv(s) && Succeeds(m, s, step) && !step.Activate? && !step.Approve?
    ensures KeepsAuthority(s, Apply(m, s, step).value)
  {
    hide Inv, KeepsAuthority;
    match step
    case AddBatch(q) => NewBatchKeepsAuthority(s, q);
    case ApplyDecisions(b, v, drafts, actor) => StagingKeepsAuthority(m, s, b, v, drafts, actor);
    case RejectBatch(b, v, actor, reason, now) => RejectionKeepsAuthority(s, b, v, actor, reason, now);
    case RecordBill(q) => BillKeepsAuthority(s, q);
    case AppendSource(d, f, i, sha, state, actor, now) => AppendKeepsAuthority(s, d, f, i, sha, state, actor, now);
    case AddExtraction(x, d, payload, v, actor, now) => ExtractionKeepsAuthority(s, x, d, payload, v, actor, now);
    case RejectExtraction(x, reason, actor, now) => RefusalKeepsAuthority(s, x, reason, actor, now);
    case MoveIntake(i, v, state, reason) => MoveKeepsAuthority(s, i, v, state, reason);
    case PrepareReprocess(d, actor, hasJob) => ReprocessKeepsAuthority(s, d, actor, hasJob);
    case CreateDocument(_, _, _, _, _) => FileStep(m, s, step);
    case AddArtifact(_, _, _, _, _, _) => FileStep(m, s, step);
    case MarkPaid(x, actor, paidAt) => PaymentKeepsAuthority(s, x, actor, paidAt);
    case SetStatus(_, _) => SameAuthorityTables(s, Apply(m, s, step).value);
    case StageChunks(_) => SameAuthorityTables(s, Apply(m, s, step).value);
  }

  lemma SupersedeKeepsAuthority(s: Db, t: Db, d: Id, actor: string, now: Time)
    requires t.verified == s.verified && t.batches == s.batches
    requires forall x :: x in s.extractions ==>
      x in t.extractions && t.extractions[x] == Sources.SupersedePending(s.extractions, d, actor, now)[x]
    ensures KeepsAuthority(s, t)
  {
  }

  lemma AppendKeepsAuthority(s: Db, d: Id, f: Id, i: Id, sha256: string, state: IntakeState, actor: string, now: Time)
    requires Sources.AppendSource(s, d, f, i, sha256, state, actor, now).Ok?
    ensures KeepsAuthority(s, Sources.AppendSource(s, d, f, i, sha256, state, actor, now).value)
  {
    hide KeepsAuthority, LatestOriginal, Sources.NextVersion, Strip;
    SupersedeKeepsAuthority(s, Sources.AppendSource(s, d, f, i, sha256, state, actor, now).value, d, Strip(actor), now);
  }

  lemma ExtractionKeepsAuthority(s: Db, x: Id, d: Id, payload: Payload, v: Option<nat>, actor: string, now: Time)
    requires Legacy.AddExtraction(s, x, d, payload, v, actor, now).Ok?
    ensures KeepsAuthority(s, Legacy.AddExtraction(s, x, d, payload, v, actor, now).value)
  {
    hide KeepsAuthority, LatestOriginal, Strip;
    SupersedeKeepsAuthority(s, Legacy.AddExtraction(s, x, d, payload, v, actor, now).value, d, Strip(actor), now);
  }

  lemma RefusalKeepsAuthority(s: Db, x: Id, reason: string, actor: string, now: Time)
    requires Legacy.RejectExtraction(s, x, reason, actor, now).Ok?
    ensures KeepsAuthority(s, Legacy.RejectExtraction(s, x, reason, actor, now).value)
  {
    hide Strip;
  }

  /**
    Replacing a source, staging decisions, rejecting a batch and every other
    call but `activate` and `approve` leave the records that count unchanged.
  */
  lemma OnlyActivationAndApprovalChangeAuthority(m: Mapping, s: Db, step: Step)
    requires Inv(s) && !step.Activate? && !step.Approve?
    ensures AuthoritativeVerified(Next(m, s, step)) == AuthoritativeVerified(s)
  {
    hide StatusInv, MemberInv, CountInv, OneActive, AuthorityInv, SettledInv, EvidenceInv, DecisionInv;
    hide ReadyInv, VerifiedInv, BillInv, DocumentInv, SourceInv, BatchSourceInv;
    hide KeepsAuthority, AuthoritativeVerified, Apply;
    if Succeeds(m, s, step) {
      AuthorityUntouched(m, s, step);
      AuthorityFrame(s, Next(m, s, step));
    }
  }

  lemma {:induction false} QuietRunsKeepAuthority(m: Mapping, s: Db, steps: seq<Step>)
    requires Inv(s) && forall step :: step in steps ==> !step.Activate? && !step.Approve?
    ensures AuthoritativeVerified(Run(m, s, steps)) == AuthoritativeVerified(s)
  {
    hide Inv, AuthoritativeVerified, Next;
    if steps != [] {
      var front, last := steps[..|steps| - 1], steps[|steps| - 1];
      assert last in steps && forall step :: step in front ==> step in steps;
      QuietRunsKeepAuthority(m, s, front);
      Traces.RunKeeps(m, s, front);
      OnlyActivationAndApprovalChangeAuthority(m, Run(m, s, front), last);
    }
  }

  // ------------------------------------------------------------ replaced sources

  lemma ApprovalKeepsBatches(m: Mapping, s: Db, q: Legacy.Promotion)
    requires Inv(s) && Legacy.ApproveExtraction(m, s, q).Ok?
    ensures Legacy.ApproveExtraction(m, s, q).value.batches == s.batches
  {
    hide Inv, Strip;
    if q.bill.Some? {
      var t := Legacy.Promote(m, s, q).value;
      assert t.batches == s.batches;
      LegacyProofs.PromoteKeeps(m, s, q);
      var projection := m.projection(s.extractions[q.extraction].content.payload, q.corrections);
      hide Legacy.Promote;
      BillKeepsBatches(t,
        NewBill(q.bill.value.0, q.bill.value.1, q.verified, projection.value, Strip(q.reviewer), q.now));
    }
  }

  lemma BillKeepsBatches(s: Db, q: NewBill)
    requires Inv(s) && Billing.RecordBill(s, q).Ok?
    ensures Billing.RecordBill(s, q).value.0.batches == s.batches
  {
    hide Billing.RecordBill, ReviewInv, DecisionInv, ReadyInv, VerifiedInv, BillInv, DocumentInv, SourceInv;
    hide BatchSourceInv;
    BillingProofs.RecordBillTables(s, q);
  }

  /** An activation makes its own batch active and no other. */
  lemma ActivatesOne(m: Mapping, s: Db, q: Activation)
    requires Inv(s) && Review.Activate(m, s, q).Ok?
    ensures q.batch in s.batches && SourceIsCurrent(s, q.batch)
    ensures var t := Review.Activate(m, s, q).value;
      && q.batch in t.batches && t.batches[q.batch].lifecycle == Active && s.batches[q.batch].lifecycle != Active
      && forall b :: b in t.batches && t.batches[b].lifecycle == Active && b != q.batch ==>
           b in s.batches && s.batches[b].lifecycle == Active
  {
    hide ActivationGuard, Inv, Review.Activate, SourceIsCurrent, CohortProofs.RetiresApproved, RetirePrior;
    hide PublishCohort, EvidenceConstraints, Strip;
    ActivatedIsCurrent(m, s, q);
    ActivationTheorems.ActivatedTables(m, s, q);
    ActivationProofs.PublishedBatch(m, s, q);
    CohortProofs.RetireShape(s, q.batch, Strip(q.actor), q.now);
  }

  lemma ActivatedIsCurrent(m: Mapping, s: Db, q: Activation)
    requires Review.Activate(m, s, q).Ok?
    ensures q.batch in s.batches && SourceIsCurrent(s, q.batch) && Reviewable(s.batches[q.batch].lifecycle)
  {
    hide SourceIsCurrent, ActivationVector, CohortFaults, With, Members, RetirePrior, PublishCohort;
    hide InsertVerified, RecordAll, BillIdsDrawn;
    assert ActivationGuard(m, s, q).None?;
  }

  /** A newer original of the same document is on file. */
  ghost predicate ReplacedBy(s: Db, b: Id, g: Id)
    requires b in s.batches
  {
    && g in s.files && s.files[g].kind == Original && s.files[g].document == s.batches[b].identity.document
    && s.files[g].version > s.batches[b].identity.sourceVersion
  }

  lemma ReplacedIsNotCurrent(s: Db, b: Id, g: Id)
    requires b in s.batches && ReplacedBy(s, b, g)
    ensures !SourceIsCurrent(s, b)
  {
  }

  lemma ReplacedStays(s: Db, t: Db, b: Id, g: Id)
    requires Evolves(s, t) && b in s.batches && ReplacedBy(s, b, g)
    ensures b in t.batches && ReplacedBy(t, b, g)
  {
    hide ExtractionsMove, BillsMove, IntakesMove;
  }

  lemma StepNeverRevives(m: Mapping, s: Db, step: Step, b: Id, g: Id)
    requires Inv(s) && b in Next(m, s, step).batches && ReplacedBy(Next(m, s, step), b, g) && g in s.files
    requires Next(m, s, step).batches[b].lifecycle == Active
    ensures b in s.batches && s.batches[b].lifecycle == Active
  {
    hide Inv, Apply, SourceIsCurrent, ReplacedBy, Evolves, Review.Activate, Legacy.ApproveExtraction;
    if Succeeds(m, s, step) {
      if step.Activate? {
        ActivateIsApplied(m, s, step);
        ActivatesOne(m, s, step.activation);
        Traces.StepKeeps(m, s, step);
        if b == step.activation.batch { ReplacedBefore(s, Next(m, s, step), b, g); ReplacedIsNotCurrent(s, b, g); }
      } else if step.Approve? {
        ApproveIsApplied(m, s, step);
        ApprovalKeepsBatches(m, s, step.promotion);
      } else {
        AuthorityUntouched(m, s, step);
      }
    }
  }

  lemma ActivateIsApplied(m: Mapping, s: Db, step: Step)
    requires step.Activate?
    ensures Apply(m, s, step) == Review.Activate(m, s, step.activation)
  {
  }

  lemma ApproveIsApplied(m: Mapping, s: Db, step: Step)
    requires step.Approve?
    ensures Apply(m, s, step) == Legacy.ApproveExtraction(m, s, step.promotion)
  {
  }

  lemma ReplacedBefore(s: Db, t: Db, b: Id, g: Id)
    requires Evolves(s, t) && b in s.batches && b in t.batches && g in s.files && ReplacedBy(t, b, g)
    ensures ReplacedBy(s, b, g)
  {
    hide ExtractionsMove, BillsMove, IntakesMove;
    assert BatchMoves(s.batches[b], t.batches[b]);
  }

  /** No batch bound to an older source becomes active once a newer original `g` is on file. */
  lemma {:induction false} ReplacedNeverActivates(m: Mapping, s: Db, steps: seq<Step>, b: Id, g: Id)
    requires Inv(s) && g in s.files
    requires var t := Run(m, s, steps); b in t.batches && ReplacedBy(t, b, g) && t.batches[b].lifecycle == Active
    ensures b in s.batches && s.batches[b].lifecycle == Active
  {
    hide Inv, Next, ReplacedBy;
    if steps != [] {
      var front, last := Run(m, s, steps[..|steps| - 1]), steps[|steps| - 1];
      Traces.RunKeeps(m, s, steps[..|steps| - 1]);
      assert g in front.files by { FilesStay(s, front, g); }
      StepNeverRevives(m, front, last, b, g);
      Traces.StepKeeps(m, front, last);
      assert Next(m, front, last) == Run(m, s, steps);
      ReplacedBefore(front, Run(m, s, steps), b, g);
      ReplacedNeverActivates(m, s, steps[..|steps| - 1], b, g);
    }
  }

  lemma FilesStay(s: Db, t: Db, g: Id)
    requires Evolves(s, t) && g in s.files
    ensures g in t.files
  {
    hide ExtractionsMove, BillsMove, IntakesMove, BatchesMove;
  }

  /** Replacing a source puts every batch of the document behind the new original. */
  lemma AppendReplaces(s: Db, d: Id, f: Id, i: Id, sha256: string, state: IntakeState, actor: string, now: Time)
    requires Inv(s) && Sources.AppendSource(s, d, f, i, sha256, state, actor, now).Ok?
    ensures var t := Sources.AppendSource(s, d, f, i, sha256, state, actor, now).value;
      forall b :: b in s.batches && s.batches[b].identity.document == d ==> b in t.batches && ReplacedBy(t, b, f)
  {
    hide ReviewInv, DecisionInv, ReadyInv, VerifiedInv, BillInv, DocumentInv, Sources.SupersedePending;
  }

  lemma AppendKeepsBatches(s: Db, d: Id, f: Id, i: Id, sha256: string, state: IntakeState, actor: string, now: Time)
    requires Sources.AppendSource(s, d, f, i, sha256, state, actor, now).Ok?
    ensures var t := Sources.AppendSource(s, d, f, i, sha256, state, actor, now).value;
      t.batches == s.batches && f in t.files
  {
    hide Sources.SupersedePending, Sources.NextVersion, Strip;
  }

  /**
    From a replacement on, every batch the document had stays behind the new
    original, and it is active at any later moment only if it was active when the
    source was replaced.
  */
  lemma ReplacementIsFinal(
    m: Mapping, s: Db, d: Id, f: Id, i: Id, sha256: string, state: IntakeState, actor: string, now: Time,
      steps: seq<Step>, b: Id)
    requires Inv(s) && Sources.AppendSource(s, d, f, i, sha256, state, actor, now).Ok?
    requires b in s.batches && s.batches[b].identity.document == d
    ensures var t := Run(m, Sources.AppendSource(s, d, f, i, sha256, state, actor, now).value, steps);
      && b in t.batches && ReplacedBy(t, b, f)
      && (t.batches[b].lifecycle == Active ==> s.batches[b].lifecycle == Active)
  {
    hide Inv, Sources.AppendSource, Next, ReplacedBy, Evolves;
    var u := Sources.AppendSource(s, d, f, i, sha256, state, actor, now).value;
    AppendKeepsBatches(s, d, f, i, sha256, state, actor, now);
    AppendReplaces(s, d, f, i, sha256, state, actor, now);
    SourceProofs.AppendSourceKeeps(s, d, f, i, sha256, state, actor, now);
    Traces.RunKeeps(m, u, steps);
    ReplacedStays(u, Run(m, u, steps), b, f);
    if Run(m, u, steps).batches[b].lifecycle == Active { ReplacedNeverActivates(m, u, steps, b, f); }
  }

  // ------------------------------------------------------------ what single calls retire

  ghost predicate PendingIn(s: Db, d: Id, x: Id) {
    x in s.extractions && s.extractions[x].content.document == d && s.extractions[x].status == Pending
  }

  /** Every row that was not pending in the document is as it was. */
  ghost predicate OnlyPendingMoved(s: Db, t: Db, d: Id) {
    && (forall x :: x in s.extractions ==> x in t.extractions && t.extractions[x].content == s.extractions[x].content)
    && (forall x :: x in s.extractions && !PendingIn(s, d, x) ==> t.extractions[x] == s.extractions[x])
    && (forall x :: PendingIn(s, d, x) ==>
         t.extractions[x].status == Superseded && t.extractions[x].version == s.extractions[x].version + 1)
  }

  lemma SupersedeMoves(s: Db, d: Id, actor: string, now: Time)
    ensures var t := s.(extractions := Sources.SupersedePending(s.extractions, d, actor, now));
      && OnlyPendingMoved(s, t, d) && (forall x :: !PendingIn(t, d, x)) && t.extractions.Keys == s.extractions.Keys
  {
  }

  /**
    A replacement leaves nothing pending and nothing to find in a search, but
    every reviewed row and every earlier file.
  */
  lemma AppendRetiresPending(s: Db, d: Id, f: Id, i: Id, sha256: string, state: IntakeState, actor: string, now: Time)
    requires Sources.AppendSource(s, d, f, i, sha256, state, actor, now).Ok?
    ensures var t := Sources.AppendSource(s, d, f, i, sha256, state, actor, now).value;
      && OnlyPendingMoved(s, t, d) && (forall x :: !PendingIn(t, d, x)) && t.extractions.Keys == s.extractions.Keys
      && (forall c :: c in t.chunks <==> c in s.chunks && s.chunks[c].document != d)
      && (forall c :: c in t.chunks ==> t.chunks[c] == s.chunks[c])
      && IsLatestOriginal(t.files, d, f) && Grows(s.files, t.files) && t.files.Keys == s.files.Keys + {f}
      && t.verified == s.verified && t.bills == s.bills && t.batches == s.batches && t.decisions == s.decisions
  {
    hide Strip;
  }

  /** A legacy extraction is the only pending one of its document. */
  lemma AddedIsOnlyPending(s: Db, x: Id, d: Id, payload: Payload, v: Option<nat>, actor: string, now: Time)
    requires Legacy.AddExtraction(s, x, d, payload, v, actor, now).Ok?
    ensures var t := Legacy.AddExtraction(s, x, d, payload, v, actor, now).value;
      && OnlyPendingMoved(s, t, d) && (forall y :: PendingIn(t, d, y) <==> y == x)
      && x !in s.extractions && t.extractions.Keys == s.extractions.Keys + {x}
  {
    hide Strip, LatestOriginal, Sources.SupersedePending;
    SupersedeMoves(s, d, Strip(actor), now);
    var t := Legacy.AddExtraction(s, x, d, payload, v, actor, now).value;
    var u := s.(extractions := Sources.SupersedePending(s.extractions, d, Strip(actor), now));
    assert t.extractions == u.extractions[x := t.extractions[x]];
    AddMoves(s, u, t, d, x);
  }

  lemma AddMoves(s: Db, u: Db, t: Db, d: Id, x: Id)
    requires OnlyPendingMoved(s, u, d) && (forall y :: !PendingIn(u, d, y)) && u.extractions.Keys == s.extractions.Keys
    requires x !in s.extractions && x in t.extractions && t.extractions == u.extractions[x := t.extractions[x]]
      && PendingIn(t, d, x)
    ensures OnlyPendingMoved(s, t, d) && (forall y :: PendingIn(t, d, y) <==> y == x)
      && t.extractions.Keys == s.extractions.Keys + {x}
  {
    assert forall y :: PendingIn(t, d, y) && y != x ==> PendingIn(u, d, y);
  }

  /**
    After a legacy approval its extraction is the only approved one of the
    document, and its verified row the only one that counts there.
  */
  lemma PromotionTakesOver(m: Mapping, s: Db, q: Legacy.Promotion)
    requires Inv(s) && Legacy.Promote(m, s, q).Ok?
    ensures q.extraction in s.extractions && q.verified !in s.verified
    ensures var t, d := Legacy.Promote(m, s, q).value, s.extractions[q.extraction].content.document;
      && LegacyProofs.Promotes(s.extractions, t.extractions, q.extraction, d)
      && (forall x :: x in t.extractions && t.extractions[x].content.document == d ==>
           (t.extractions[x].status == Approved <==> x == q.extraction))
      && q.verified in t.verified && t.verified == s.verified[q.verified := t.verified[q.verified]]
      && (forall v :: v in t.verified && t.verified[v].document == d ==> (IsAuthoritative(t, v) <==> v == q.verified))
  {
    hide ReviewInv, DecisionInv, ReadyInv, BillInv, DocumentInv, SourceInv, BatchSourceInv, Strip;
    LegacyProofs.PromotedRows(m, s, q);
  }
}
