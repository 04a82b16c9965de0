/** Storing a candidate batch keeps the invariant. */
module BatchProofs {
  import opened Basics
  import opened Model
  import opened Authority
  import opened Invariant
  import opened Sources
  import Review
  import SourceProofs

  /** `after` is `before` plus pending version-one candidates of the new batch. */
  ghost predicate AddsCandidates(before: map<Id, Extraction>, after: map<Id, Extraction>, q: NewBatch) {
    && (forall x :: x in before ==> x in after && after[x] == before[x])
    && (forall x :: x in after && x !in before ==>
          && after[x].status == Pending && after[x].version == 1
          && InBatch(after[x], q.id)
          && after[x].content.document == q.identity.document
          && after[x].content.sourceFile == q.identity.sourceFile
          && after[x].content.sourceVersion == q.identity.sourceVersion)
  }

  lemma InsertedOne(before: map<Id, Extraction>, r: map<Id, Extraction>, q: NewBatch, d: CandidateDraft)
    requires AddsCandidates(before, r, q) && d.id !in r
    ensures AddsCandidates(before, r[d.id := CandidateRow(q, d)], q)
    ensures |Members(r[d.id := CandidateRow(q, d)], q.id)| == |Members(r, q.id)| + 1
  {
    hide AddsCandidates, Members;
    var row := CandidateRow(q, d);
    MemberAdded(r, q.id, d.id, row);
    RowAdded(before, r, q, d.id, row);
  }

  lemma MemberAdded(r: map<Id, Extraction>, b: Id, x: Id, row: Extraction)
    requires x !in r && InBatch(row, b)
    ensures |Members(r[x := row], b)| == |Members(r, b)| + 1
  {
    assert Members(r[x := row], b) == Members(r, b) + {x};
  }

  lemma RowAdded(before: map<Id, Extraction>, r: map<Id, Extraction>, q: NewBatch, x: Id, row: Extraction)
    requires AddsCandidates(before, r, q) && x !in r
    requires row.status == Pending && row.version == 1 && InBatch(row, q.id)
      && row.content.document == q.identity.document
    requires row.content.sourceFile == q.identity.sourceFile && row.content.sourceVersion == q.identity.sourceVersion
    ensures AddsCandidates(before, r[x := row], q)
  {
    hide InBatch;
  }

  lemma {:induction false} InsertedCandidates(
    extractions: map<Id, Extraction>, q: NewBatch, drafts: seq<CandidateDraft>)
    requires forall i, j :: 0 <= i < j < |drafts| ==> drafts[i].id != drafts[j].id
    requires forall d :: d in drafts ==> d.id !in extractions
    requires forall x :: x in extractions ==> !InBatch(extractions[x], q.id)
    ensures var r := InsertCandidates(extractions, q, drafts);
      && AddsCandidates(extractions, r, q)
      && r.Keys == extractions.Keys + (set d | d in drafts :: d.id)
      && |Members(r, q.id)| == |drafts|
  {
    hide AddsCandidates, InBatch;
    if drafts == [] {
      NothingAdded(extractions, q);
    } else {
      var front, last := drafts[..|drafts| - 1], drafts[|drafts| - 1];
      assert forall d :: d in drafts <==> d in front || d == last;
      InsertedCandidates(extractions, q, front);
      InsertedOne(extractions, InsertCandidates(extractions, q, front), q, last);
    }
  }

  lemma NothingAdded(extractions: map<Id, Extraction>, q: NewBatch)
    requires forall x :: x in extractions ==> !InBatch(extractions[x], q.id)
    ensures AddsCandidates(extractions, extractions, q) && Members(extractions, q.id) == {}
  {
  }

  lemma NewBatchRows(s: Db, after: map<Id, Extraction>, q: NewBatch, row: Batch)
    requires StatusInv(s.extractions) && MemberInv(s.extractions, s.batches) && q.id !in s.batches
      && row.identity == q.identity
    requires AddsCandidates(s.extractions, after, q)
    ensures StatusInv(after) && MemberInv(after, s.batches[q.id := row]) && ExtractionsMove(s.extractions, after)
  {
  }

  lemma NewBatchCounts(s: Db, after: map<Id, Extraction>, q: NewBatch, row: Batch)
    requires MemberInv(s.extractions, s.batches) && CountInv(s.extractions, s.batches) && q.id !in s.batches
      && row.identity == q.identity
    requires AddsCandidates(s.extractions, after, q) && |Members(after, q.id)| == q.identity.candidateCount
    ensures CountInv(after, s.batches[q.id := row])
  {
    forall b | b in s.batches ensures Members(after, b) == Members(s.extractions, b) {
    }
  }

  lemma NewBatchAuthority(s: Db, after: map<Id, Extraction>, q: NewBatch, row: Batch)
    requires AuthorityInv(s.extractions, s.batches) && SettledInv(s.extractions, s.batches) && q.id !in s.batches
      && row.lifecycle == Open
    requires AddsCandidates(s.extractions, after, q)
    ensures AuthorityInv(after, s.batches[q.id := row]) && SettledInv(after, s.batches[q.id := row])
  {
  }

  lemma NewBatchReview(s: Db, after: map<Id, Extraction>, q: NewBatch, row: Batch)
    requires ReviewInv(s) && q.id !in s.batches
    requires AddsCandidates(s.extractions, after, q)
    requires row == Batch(q.identity, Open, 1, None, None, None, None, None, false, false)
    requires |Members(after, q.id)| == q.identity.candidateCount
    ensures ReviewInv(s.(extractions := after, batches := s.batches[q.id := row]))
    ensures BatchesMove(s.batches, s.batches[q.id := row]) && ExtractionsMove(s.extractions, after)
  {
    hide AddsCandidates, StatusInv, MemberInv, CountInv, AuthorityInv, SettledInv, ExtractionsMove, Members;
    NewBatchRows(s, after, q, row);
    NewBatchCounts(s, after, q, row);
    NewBatchAuthority(s, after, q, row);
  }

  lemma NewBatchDecisions(s: Db, after: map<Id, Extraction>, q: NewBatch, row: Batch)
    requires MemberInv(s.extractions, s.batches)
    requires DecisionInv(s.decisions, s.extractions) && ReadyInv(s.decisions, s.extractions, s.batches)
    requires AddsCandidates(s.extractions, after, q) && q.id !in s.batches
    requires row.lifecycle == Open && row.identity == q.identity && |Members(after, q.id)| == q.identity.candidateCount
    ensures DecisionInv(s.decisions, after) && ReadyInv(s.decisions, after, s.batches[q.id := row])
  {
    hide DecisionLinked, DecisionShape;
    var batches := s.batches[q.id := row];
    forall d | d in s.decisions ensures s.decisions[d].batch != q.id {
      assert InBatch(s.extractions[s.decisions[d].extraction], s.decisions[d].batch);
    }
    assert Review.Decided(s.decisions, q.id) == {};
    forall b | b in s.batches ensures Members(after, b) == Members(s.extractions, b) {
    }
  }

  lemma NewBatchVerified(s: Db, after: map<Id, Extraction>, q: NewBatch)
    requires VerifiedInv(s.verified, s.extractions) && AddsCandidates(s.extractions, after, q)
    ensures VerifiedInv(s.verified, after)
  {
  }

  lemma NewBatchSources(s: Db, q: NewBatch, row: Batch)
    requires SourceInv(s.files, s.intakes) && BatchSourceInv(s.batches, s.intakes)
    requires NamesCurrentSource(s, q.identity) && row.identity == q.identity
    ensures var intakes := s.intakes[q.identity.intake := AfterBatch(s.intakes[q.identity.intake], q.direct)];
      && SourceInv(s.files, intakes) && BatchSourceInv(s.batches[q.id := row], intakes)
      && IntakesMove(s.intakes, intakes)
  {
    SourceProofs.MovedIntake(s.files, s.intakes, s.batches, q.identity.intake,
      AfterBatch(s.intakes[q.identity.intake], q.direct));
  }

  lemma AddBatchKeeps(s: Db, q: NewBatch)
    requires Inv(s)
    requires AddBatch(s, q).Ok?
    ensures var t := AddBatch(s, q).value; Inv(t) && Evolves(s, t)
  {
    hide StatusInv, CountInv, OneActive, AuthorityInv, SettledInv, EvidenceInv, DecisionInv, ReadyInv, AfterBatch;
    hide VerifiedInv, BillInv, DocumentInv, SourceInv, BatchSourceInv, ExtractionsMove, BatchesMove;
    hide BillsMove, IntakesMove, Grows;
    EvolvesReflexive(s);
    if AddBatch(s, q) != Ok(s) {
      var row := Batch(q.identity, Open, 1, None, None, None, None, None, false, false);
      var after := InsertCandidates(s.extractions, q, q.drafts);
      InsertedCandidates(s.extractions, q, q.drafts);
      NewBatchReview(s, after, q, row);
      NewBatchDecisions(s, after, q, row);
      NewBatchVerified(s, after, q);
      NewBatchSources(s, q, row);
    }
  }
}
