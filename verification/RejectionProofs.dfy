/** Rejecting a batch refuses exactly its own candidates. */
module RejectionProofs {
  import opened Basics
  import opened Model
  import opened Authority
  import opened CohortProofs
  import opened Invariant
  import opened Review
  import ActivationProofs
  import opened Text

  /** `q` is `p` with the pending members of batch `b` rejected. */
  ghost predicate Rejects(p: map<Id, Extraction>, q: map<Id, Extraction>, b: Id) {
    && p.Keys == q.Keys
    && forall x :: x in p ==>
         if InBatch(p[x], b)
           then p[x].status == Pending && q[x].content == p[x].content && q[x].status == Rejected
             && q[x].version == p[x].version + 1
         else q[x] == p[x]
  }

  /** `q` is `p` with batch `b` under review refused. */
  ghost predicate Refuses(p: map<Id, Batch>, q: map<Id, Batch>, b: Id) {
    b in p && Reviewable(p[b].lifecycle) && q == p[b := p[b].(lifecycle := Refused, version := p[b].version + 1)]
  }

  lemma RejectedRows(p: map<Id, Extraction>, q: map<Id, Extraction>, b: Id, verified: map<Id, VerifiedRow>)
    requires Rejects(p, q, b) && StatusInv(p) && VerifiedInv(verified, p)
    ensures StatusInv(q) && SameRows(p, q) && ExtractionsMove(p, q) && VerifiedInv(verified, q)
  {
  }

  lemma RefusedReview(
    p: map<Id, Extraction>, q: map<Id, Extraction>, before: map<Id, Batch>, after: map<Id, Batch>, b: Id)
    requires Rejects(p, q, b) && Refuses(before, after, b)
    requires AuthorityInv(p, before) && SettledInv(p, before)
    ensures AuthorityInv(q, after) && SettledInv(q, after)
  {
  }

  lemma RefusedBatches(before: map<Id, Batch>, after: map<Id, Batch>, b: Id, intakes: map<Id, Intake>)
    requires Refuses(before, after, b) && OneActive(before) && EvidenceInv(before) && BatchSourceInv(before, intakes)
    ensures OneActive(after) && EvidenceInv(after) && BatchSourceInv(after, intakes)
    ensures BatchesMove(before, after) && LeavesReview(before, after)
  {
  }

  lemma RejectShape(s: Db, b: Id, expectedVersion: int, actor: string, reason: string, now: Time)
    requires RejectBatch(s, b, expectedVersion, actor, reason, now).Ok?
    ensures var t := RejectBatch(s, b, expectedVersion, actor, reason, now).value;
      && b in s.batches
      && t == s.(extractions := t.extractions, batches := t.batches, documents := t.documents)
      && Rejects(s.extractions, t.extractions, b) && Refuses(s.batches, t.batches, b)
      && s.documents.Keys <= t.documents.Keys
  {
    hide SourceIsCurrent, PriorActive, PriorApproved, Bounded, Strip;
    forall e | e in s.extractions && InBatch(s.extractions[e], b) ensures s.extractions[e].status == Pending {
      assert e in Members(s.extractions, b);
    }
  }

  lemma RejectFrames(s: Db, t: Db, b: Id)
    requires Inv(s) && Rejects(s.extractions, t.extractions, b) && Refuses(s.batches, t.batches, b)
    ensures MemberInv(t.extractions, t.batches) && CountInv(t.extractions, t.batches)
    ensures ReadyInv(s.decisions, t.extractions, t.batches) && DecisionInv(s.decisions, t.extractions)
  {
    hide StatusInv, AuthorityInv, SettledInv, OneActive, EvidenceInv, VerifiedInv, BillInv, DecisionInv;
    hide SourceInv, Rejects, Refuses;
    hide DocumentInv, BatchSourceInv, MemberInv, CountInv, ReadyInv, LeavesReview, SameRows, ExtractionsMove;
    hide BatchesMove;
    RejectedRows(s.extractions, t.extractions, b, s.verified);
    RefusedBatches(s.batches, t.batches, b, s.intakes);
    SameRowsFrame(s.extractions, t.extractions, s.batches, s.decisions);
    BatchesFrame(s.decisions, t.extractions, s.batches, t.batches);
  }

  lemma RejectBatchKeeps(s: Db, b: Id, expectedVersion: int, actor: string, reason: string, now: Time)
    requires Inv(s) && RejectBatch(s, b, expectedVersion, actor, reason, now).Ok?
    ensures var t := RejectBatch(s, b, expectedVersion, actor, reason, now).value; Inv(t) && Evolves(s, t)
  {
    hide StatusInv, AuthorityInv, SettledInv, OneActive, EvidenceInv, VerifiedInv, BillInv, DecisionInv;
    hide SourceInv, Rejects, Refuses;
    hide DocumentInv, BatchSourceInv, MemberInv, CountInv, ReadyInv, LeavesReview, SameRows, ExtractionsMove;
    hide BatchesMove, BillsMove, IntakesMove, Grows;
    hide RejectBatch;
    var t := RejectBatch(s, b, expectedVersion, actor, reason, now).value;
    RejectShape(s, b, expectedVersion, actor, reason, now);
    RejectFrames(s, t, b);
    RejectedRows(s.extractions, t.extractions, b, s.verified);
    RefusedReview(s.extractions, t.extractions, s.batches, t.batches, b);
    RefusedBatches(s.batches, t.batches, b, s.intakes);
    ActivationProofs.DocumentsGrow(s.documents, t.documents, s.files);
    EvolvesReflexive(s);
  }
}
