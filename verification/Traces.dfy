/** Theorems over every run: any number of repository calls, in any order, failed or not. */
module Traces {
  import opened Model
  import opened Billing
  import opened Invariant
  import opened Protocol
  import opened Review
  import ActivationTheorems
  import BatchProofs
  import BillingProofs
  import DecisionProofs
  import LegacyProofs
  import RejectionProofs
  import SourceProofs

  // ------------------------------------------------------------ runs

  lemma StageChunksKeeps(s: Db, chunks: map<Id, Chunk>)
    requires Inv(s)
    ensures Inv(s.(chunks := chunks)) && Evolves(s, s.(chunks := chunks))
  {
    hide StatusInv, MemberInv, CountInv, OneActive, AuthorityInv, SettledInv, EvidenceInv, DecisionInv, ReadyInv;
    hide VerifiedInv, BillInv, DocumentInv, SourceInv, BatchSourceInv, ExtractionsMove, BatchesMove;
    hide BillsMove, IntakesMove, Grows;
    EvolvesReflexive(s);
  }

  lemma SucceededKeeps(m: Mapping, s: Db, step: Step)
    requires Inv(s) && Succeeds(m, s, step)
    ensures var t := Apply(m, s, step).value; Inv(t) && Evolves(s, t)
  {
    hide Inv, Evolves;
    match step
    case CreateDocument(d, f, i, sha, state) => SourceProofs.CreateDocumentKeeps(s, d, f, i, sha, state);
    case AppendSource(d, f, i, sha, state, actor, now) => SourceProofs.AppendSourceKeeps(s, d, f, i, sha, state, actor,
      now);
    case AddArtifact(d, f, kind, sha, source, version) => SourceProofs.AddArtifactKeeps(s, d, f, kind, sha, source,
      version);
    case MoveIntake(i, v, state, reason) => SourceProofs.TransitionKeeps(s, i, v, state, reason);
    case PrepareReprocess(d, actor, hasJob) => SourceProofs.PrepareReprocessKeeps(s, d, actor, hasJob);
    case SetStatus(d, status) => SourceProofs.SetStatusKeeps(s, d, status);
    case AddBatch(q) => BatchProofs.AddBatchKeeps(s, q);
    case StageChunks(chunks) => StageChunksKeeps(s, chunks);
    case ApplyDecisions(b, v, drafts, actor) => DecisionProofs.ApplyDecisionsKeeps(m, s, b, v, drafts, actor);
    case Activate(q) => ActivationTheorems.ActivateKeeps(m, s, q);
    case RejectBatch(b, v, actor, reason, now) => RejectionProofs.RejectBatchKeeps(s, b, v, actor, reason, now);
    case AddExtraction(x, d, payload, v, actor, now) => LegacyProofs.AddExtractionKeeps(s, x, d, payload, v, actor,
      now);
    case RejectExtraction(x, reason, actor, now) => LegacyProofs.RejectExtractionKeeps(s, x, reason, actor, now);
    case Approve(q) => LegacyProofs.ApproveExtractionKeeps(m, s, q);
    case RecordBill(q) => BillingProofs.RecordBillKeeps(s, q);
    case MarkPaid(x, actor, now) => BillingProofs.MarkPaidKeeps(s, x, actor, now);
  }

  /** One call, successful or rolled back, keeps the invariant and only moves rows forward. */
  lemma StepKeeps(m: Mapping, s: Db, step: Step)
    requires Inv(s)
    ensures Inv(Next(m, s, step)) && Evolves(s, Next(m, s, step))
  {
    hide Inv, Evolves, Apply;
    if Succeeds(m, s, step) { SucceededKeeps(m, s, step); } else { EvolvesReflexive(s); }
  }

  lemma {:induction false} RunKeeps(m: Mapping, s: Db, steps: seq<Step>)
    requires Inv(s)
    ensures Inv(Run(m, s, steps)) && Evolves(s, Run(m, s, steps))
  {
    hide Inv, Evolves, Next;
    if steps == [] {
      EvolvesReflexive(s);
    } else {
      var front := Run(m, s, steps[..|steps| - 1]);
      RunKeeps(m, s, steps[..|steps| - 1]);
      StepKeeps(m, front, steps[|steps| - 1]);
      EvolvesTransitive(s, front, Run(m, s, steps));
    }
  }

  lemma EmptyInv()
    ensures Inv(EMPTY)
  {
  }

  ghost predicate Reachable(m: Mapping, s: Db) {
    exists steps :: Run(m, EMPTY, steps) == s
  }

  lemma ReachableInv(m: Mapping, s: Db)
    requires Reachable(m, s)
    ensures Inv(s)
  {
    hide Inv;
    var steps :| Run(m, EMPTY, steps) == s;
    EmptyInv();
    RunKeeps(m, EMPTY, steps);
  }
}
