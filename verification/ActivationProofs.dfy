/** Publishing a cohort: what the second and third flush of an activation leave behind. */
module ActivationProofs {
  import opened Basics
  import opened Model
  import opened Authority
  import opened Billing
  import opened CohortProofs
  import opened Invariant
  import LegacyProofs
  import opened Review
  import opened Tables
  import opened Text

  // ------------------------------------------------------------ tables

  /** `included` and `excluded` split the pending members of batch `b`. */
  ghost predicate Splits(p: map<Id, Extraction>, b: Id, included: set<Id>, excluded: set<Id>) {
    && included + excluded == Members(p, b) && included !! excluded
    && forall e :: e in Members(p, b) ==> p[e].status == Pending && p[e].version == 1
  }

  /** `q` is `p` with the included members approved and the excluded ones superseded. */
  ghost predicate Publishes(p: map<Id, Extraction>, q: map<Id, Extraction>, included: set<Id>, excluded: set<Id>) {
    && p.Keys == q.Keys
    && forall x :: x in p ==>
         && q[x].content == p[x].content
         && (if x in included then q[x].status == Approved && q[x].version == p[x].version + 1
             else if x in excluded then q[x].status == Superseded && q[x].version == p[x].version + 1
             else q[x] == p[x])
  }

  /** `q` is `p` with batch `b` under review turned active. */
  ghost predicate Activates(p: map<Id, Batch>, q: map<Id, Batch>, b: Id) {
    && b in p && Reviewable(p[b].lifecycle)
    && q.Keys == p.Keys && (forall a :: a in p && a != b ==> q[a] == p[a])
    && q[b].identity == p[b].identity && q[b].lifecycle == Active && q[b].version == p[b].version + 1
    && q[b].vector.Some? && EvidenceConstraints(q[b])
  }

  lemma PublishedRows(p: map<Id, Extraction>, q: map<Id, Extraction>, b: Id, included: set<Id>, excluded: set<Id>)
    requires Splits(p, b, included, excluded) && Publishes(p, q, included, excluded) && StatusInv(p)
    ensures StatusInv(q) && SameRows(p, q) && ExtractionsMove(p, q)
  {
  }

  lemma PublishedAuthority(
    p: map<Id, Extraction>, q: map<Id, Extraction>, b: Id, included: set<Id>, excluded: set<Id>,
    before: map<Id, Batch>, after: map<Id, Batch>)
    requires Splits(p, b, included, excluded) && Publishes(p, q, included, excluded) && Activates(before, after, b)
    requires MemberInv(p, before) && AuthorityInv(p, before)
    requires forall x :: x in p && p[x].content.document == before[b].identity.document ==> p[x].status != Approved
    ensures AuthorityInv(q, after)
  {
  }

  lemma PublishedSettled(
    p: map<Id, Extraction>, q: map<Id, Extraction>, b: Id, included: set<Id>, excluded: set<Id>,
    before: map<Id, Batch>, after: map<Id, Batch>)
    requires Splits(p, b, included, excluded) && Publishes(p, q, included, excluded) && Activates(before, after, b)
    requires SettledInv(p, before)
    ensures SettledInv(q, after)
  {
    forall x | x in q && q[x].content.lineage.Some? && q[x].status == Pending
      ensures x !in Members(p, b) && q[x] == p[x]
    {
    }
  }

  lemma ActivatedBatches(before: map<Id, Batch>, after: map<Id, Batch>, b: Id, intakes: map<Id, Intake>)
    requires Activates(before, after, b)
    requires OneActive(before) && EvidenceInv(before) && BatchSourceInv(before, intakes)
    requires forall a :: a in before && before[a].identity.document == before[b].identity.document ==>
      before[a].lifecycle != Active
    ensures OneActive(after) && EvidenceInv(after) && BatchSourceInv(after, intakes)
    ensures BatchesMove(before, after) && LeavesReview(before, after)
  {
    hide EvidenceConstraints;
  }

  /** `w` is `v` with one row for each of `items`. */
  ghost predicate Verifies(v: map<Id, VerifiedRow>, w: map<Id, VerifiedRow>, items: seq<Id>, document: Id) {
    && Grows(v, w)
    && (forall e :: e in items ==> HasVerified(w, e))
    && (forall x :: x in w && x !in v ==> w[x].extraction in items && w[x].document == document)
    && (forall x, y :: x in w && x !in v && y in w && y !in v && w[x].extraction == w[y].extraction ==> x == y)
  }

  lemma PublishedVerified(
    p: map<Id, Extraction>, q: map<Id, Extraction>, b: Id, included: set<Id>, excluded: set<Id>,
    v: map<Id, VerifiedRow>, w: map<Id, VerifiedRow>, items: seq<Id>, document: Id)
    requires Splits(p, b, included, excluded) && Publishes(p, q, included, excluded) && VerifiedInv(v, p)
    requires forall e :: e in Members(p, b) ==> p[e].content.document == document
    requires forall e :: e in items <==> e in included && IsFinancial(p[e])
    requires Verifies(v, w, items, document)
    ensures VerifiedInv(w, q)
  {
    forall x | x in q && q[x].status == Approved && (IsLegacy(q[x]) || IsFinancial(q[x])) ensures HasVerified(w, x) {
      if x !in included {
        assert HasVerified(v, x);
        var y :| y in v && v[y].extraction == x;
        assert y in w && w[y].extraction == x;
      }
    }
  }

  // ------------------------------------------------------------ the flushes

  ghost predicate Passes(m: Mapping, s: Db, q: Activation) {
    Inv(s) && ActivationGuard(m, s, q).None?
  }

  lemma PassedGuard(m: Mapping, s: Db, q: Activation)
    requires ActivationGuard(m, s, q).None?
    ensures q.batch in s.batches && Reviewable(s.batches[q.batch].lifecycle)
    ensures s.batches[q.batch].identity.document in s.documents
    ensures forall e :: e in Members(s.extractions, q.batch) ==> Clean(m, s, q.batch, e)
  {
    hide Clean, SourceIsCurrent, CohortFaults, ActivationVector, Members;
    CohortClean(m, s, q.batch);
  }

  ghost function AfterRetire(m: Mapping, s: Db, q: Activation): Db
    requires Passes(m, s, q)
  {
    RetirePrior(s, q.batch, Strip(q.actor), q.now)
  }

  ghost function AfterPublish(m: Mapping, s: Db, q: Activation): Db
    requires Passes(m, s, q)
  {
    PublishCohort(s, AfterRetire(m, s, q), q)
  }

  lemma RetiredKeeps(m: Mapping, s: Db, q: Activation)
    requires Passes(m, s, q)
    ensures var s1 := AfterRetire(m, s, q); Inv(s1) && Evolves(s, s1)
  {
    hide Inv, RetirePrior, Evolves;
    PassedGuard(m, s, q);
    RetirePriorKeeps(s, q.batch, Strip(q.actor), q.now);
  }

  /** The split cohort of a database. */
  lemma LoadedCohort(m: Mapping, s: Db, q: Activation)
    requires Passes(m, s, q)
    ensures Splits(s.extractions, q.batch, With(s, q.batch, Include), With(s, q.batch, Exclude))
  {
    hide ActivationGuard, With, Clean, CandidateFacts, MemberInv, CountInv, OneActive, AuthorityInv;
    hide SettledInv, EvidenceInv;
    hide DecisionInv, ReadyInv, VerifiedInv, BillInv, DocumentInv, SourceInv, BatchSourceInv;
    PassedGuard(m, s, q);
    CohortSplit(m, s, q.batch);
    forall e | e in Members(s.extractions, q.batch) ensures s.extractions[e].status == Pending {
      CleanMeans(m, s, q.batch, e);
    }
  }

  lemma Untouched(
    p: map<Id, Extraction>, q: map<Id, Extraction>, b: Id, included: set<Id>, excluded: set<Id>, document: Id)
    requires RetiresApproved(p, q, document) && Splits(p, b, included, excluded)
    ensures Splits(q, b, included, excluded) && Members(q, b) == Members(p, b)
    ensures forall e :: e in Members(p, b) ==> e in q && q[e] == p[e]
  {
    SameMembers(p, q, b);
  }

  /** Retiring the prior cohort does not touch the candidates under review. */
  lemma CandidatesUntouched(m: Mapping, s: Db, q: Activation)
    requires Passes(m, s, q)
    ensures var s1 := AfterRetire(m, s, q);
      && Splits(s1.extractions, q.batch, With(s, q.batch, Include), With(s, q.batch, Exclude))
      && s1 == s.(extractions := s1.extractions, batches := s1.batches, bills := s1.bills)
      && (forall e :: e in Members(s.extractions, q.batch) ==>
           e in s1.extractions && s1.extractions[e] == s.extractions[e])
      && Members(s1.extractions, q.batch) == Members(s.extractions, q.batch)
  {
    hide ActivationGuard, RetirePrior, With, Clean, RetiresApproved, RetiresActive, Splits, Inv, Members;
    PassedGuard(m, s, q);
    LoadedCohort(m, s, q);
    RetireShape(s, q.batch, Strip(q.actor), q.now);
    Untouched(s.extractions, AfterRetire(m, s, q).extractions, q.batch, With(s, q.batch, Include),
      With(s, q.batch, Exclude),
              s.batches[q.batch].identity.document);
  }

  lemma VacantBefore(m: Mapping, s: Db, q: Activation)
    requires Passes(m, s, q)
    ensures var s1 := AfterRetire(m, s, q);
      q.batch in s.batches && Vacant(s1, s.batches[q.batch].identity.document)
      && q.batch in s1.batches && s1.batches[q.batch] == s.batches[q.batch]
  {
    hide ActivationGuard, RetirePrior, Inv;
    PassedGuard(m, s, q);
    RetiredVacant(s, q.batch, Strip(q.actor), q.now);
  }

  lemma PublishRows(s: Db, s1: Db, q: Activation)
    requires q.batch in s.batches && q.batch in s1.batches && s1.decisions == s.decisions
    ensures var s2 := PublishCohort(s, s1, q);
      && s2 == s1.(extractions := s2.extractions, batches := s2.batches, documents := s2.documents)
      && Publishes(s1.extractions, s2.extractions, With(s, q.batch, Include), With(s, q.batch, Exclude))
      && s1.documents.Keys <= s2.documents.Keys
  {
    hide Members, Strip;
    assert forall x :: x in With(s, q.batch, Exclude) ==> Latest(s.decisions, q.batch, x).Some?;
    hide With;
  }

  lemma PublishBatch(s: Db, s1: Db, q: Activation)
    requires q.batch in s.batches && q.batch in s1.batches && s1.decisions == s.decisions
    requires s1.batches[q.batch] == s.batches[q.batch] && Reviewable(s.batches[q.batch].lifecycle)
    requires |With(s, q.batch, Include)| + |With(s, q.batch, Exclude)| == |Members(s.extractions, q.batch)|
      == s.batches[q.batch].identity.candidateCount
    ensures Activates(s1.batches, PublishCohort(s, s1, q).batches, q.batch)
  {
    hide Members, Strip, With;
  }

  lemma PublishedTables(m: Mapping, s: Db, q: Activation)
    requires Passes(m, s, q)
    ensures var s1, s2 := AfterRetire(m, s, q), AfterPublish(m, s, q);
      && s2 == s1.(extractions := s2.extractions, batches := s2.batches, documents := s2.documents)
      && Publishes(s1.extractions, s2.extractions, With(s, q.batch, Include), With(s, q.batch, Exclude))
      && s1.documents.Keys <= s2.documents.Keys
  {
    hide ActivationGuard, Inv, With, Publishes, PublishCohort, RetirePrior, Members;
    PassedGuard(m, s, q);
    VacantBefore(m, s, q);
    CandidatesUntouched(m, s, q);
    PublishRows(s, AfterRetire(m, s, q), q);
  }

  lemma CohortCounted(m: Mapping, s: Db, q: Activation)
    requires Passes(m, s, q)
    ensures q.batch in s.batches
    ensures |With(s, q.batch, Include)| + |With(s, q.batch, Exclude)| == |Members(s.extractions, q.batch)|
      == s.batches[q.batch].identity.candidateCount
  {
    assert CountInv(s.extractions, s.batches);
    hide ActivationGuard, Inv, With, Members, Clean;
    PassedGuard(m, s, q);
    CohortSplit(m, s, q.batch);
  }

  lemma PublishedBatch(m: Mapping, s: Db, q: Activation)
    requires Passes(m, s, q)
    ensures Activates(AfterRetire(m, s, q).batches, AfterPublish(m, s, q).batches, q.batch)
  {
    hide ActivationGuard, Inv, With, Activates, PublishCohort, RetirePrior, Members;
    PassedGuard(m, s, q);
    VacantBefore(m, s, q);
    CandidatesUntouched(m, s, q);
    CohortCounted(m, s, q);
    PublishBatch(s, AfterRetire(m, s, q), q);
  }

  lemma PublishedFrames(m: Mapping, s: Db, q: Activation)
    requires Passes(m, s, q)
    ensures var s2 := AfterPublish(m, s, q);
      && MemberInv(s2.extractions, s2.batches) && CountInv(s2.extractions, s2.batches)
      && ReadyInv(s2.decisions, s2.extractions, s2.batches) && DecisionInv(s2.decisions, s2.extractions)
  {
    hide ActivationGuard, With, Publishes, Activates, PublishCohort, RetirePrior, Members, StatusInv, Splits;
    hide SameRows, LeavesReview, Vacant, Evolves;
    hide MemberInv, CountInv, ReadyInv, DecisionInv, OneActive, AuthorityInv, SettledInv, EvidenceInv;
    hide VerifiedInv, BillInv, DocumentInv, SourceInv, BatchSourceInv;
    var s1, s2 := AfterRetire(m, s, q), AfterPublish(m, s, q);
    RetiredKeeps(m, s, q);
    PublishedSame(m, s, q);
    SameRowsFrame(s1.extractions, s2.extractions, s1.batches, s1.decisions);
    BatchesFrame(s1.decisions, s2.extractions, s1.batches, s2.batches);
  }

  lemma PublishedRowsSame(m: Mapping, s: Db, q: Activation)
    requires Passes(m, s, q)
    ensures var s1, s2 := AfterRetire(m, s, q), AfterPublish(m, s, q);
      && SameRows(s1.extractions, s2.extractions) && s2.decisions == s1.decisions
      && StatusInv(s2.extractions) && ExtractionsMove(s1.extractions, s2.extractions)
  {
    hide ActivationGuard, With, Publishes, PublishCohort, RetirePrior, Members, StatusInv, Splits, SameRows;
    hide Evolves, ExtractionsMove;
    hide MemberInv, CountInv, ReadyInv, DecisionInv, OneActive, AuthorityInv, SettledInv, EvidenceInv;
    hide VerifiedInv, BillInv, DocumentInv, SourceInv, BatchSourceInv;
    RetiredKeeps(m, s, q);
    PublishedTables(m, s, q);
    CandidatesUntouched(m, s, q);
    PublishedRows(AfterRetire(m, s, q).extractions, AfterPublish(m, s, q).extractions, q.batch,
      With(s, q.batch, Include), With(s, q.batch, Exclude));
  }

  lemma ActivatesLeavesReview(p: map<Id, Batch>, q: map<Id, Batch>, b: Id)
    requires Activates(p, q, b)
    ensures LeavesReview(p, q)
  {
    hide EvidenceConstraints;
  }

  lemma PublishedSame(m: Mapping, s: Db, q: Activation)
    requires Passes(m, s, q)
    ensures var s1, s2 := AfterRetire(m, s, q), AfterPublish(m, s, q);
      && SameRows(s1.extractions, s2.extractions) && LeavesReview(s1.batches, s2.batches)
      && s2.decisions == s1.decisions
      && StatusInv(s2.extractions) && ExtractionsMove(s1.extractions, s2.extractions)
  {
    hide Passes, AfterRetire, AfterPublish, Activates, LeavesReview, SameRows, StatusInv, ExtractionsMove;
    PublishedRowsSame(m, s, q);
    PublishedBatch(m, s, q);
    ActivatesLeavesReview(AfterRetire(m, s, q).batches, AfterPublish(m, s, q).batches, q.batch);
  }

  lemma PublishedReview(m: Mapping, s: Db, q: Activation)
    requires Passes(m, s, q)
    ensures var s2 := AfterPublish(m, s, q);
      AuthorityInv(s2.extractions, s2.batches) && SettledInv(s2.extractions, s2.batches)
  {
    hide ActivationGuard, With, Publishes, Activates, PublishCohort, RetirePrior, Members, StatusInv, Splits, Evolves;
    hide MemberInv, CountInv, ReadyInv, DecisionInv, OneActive, AuthorityInv, SettledInv, EvidenceInv;
    hide VerifiedInv, BillInv, DocumentInv, SourceInv, BatchSourceInv;
    var s1, s2, included, excluded := AfterRetire(m, s, q), AfterPublish(m, s, q), With(s, q.batch, Include),
      With(s, q.batch, Exclude);
    RetiredKeeps(m, s, q);
    PublishedTables(m, s, q);
    CandidatesUntouched(m, s, q);
    PublishedBatch(m, s, q);
    VacantBefore(m, s, q);
    PublishedAuthority(s1.extractions, s2.extractions, q.batch, included, excluded, s1.batches, s2.batches);
    PublishedSettled(s1.extractions, s2.extractions, q.batch, included, excluded, s1.batches, s2.batches);
  }

  lemma PublishedActive(m: Mapping, s: Db, q: Activation)
    requires Passes(m, s, q)
    ensures var s1, s2 := AfterRetire(m, s, q), AfterPublish(m, s, q);
      && OneActive(s2.batches) && EvidenceInv(s2.batches) && BatchSourceInv(s2.batches, s1.intakes)
      && BatchesMove(s1.batches, s2.batches)
  {
    hide ActivationGuard, With, Publishes, Activates, PublishCohort, RetirePrior, Members, StatusInv, Splits, Evolves;
    hide MemberInv, CountInv, ReadyInv, DecisionInv, OneActive, AuthorityInv, SettledInv, EvidenceInv;
    hide VerifiedInv, BillInv, DocumentInv, SourceInv, BatchSourceInv;
    hide BatchesMove, LeavesReview;
    RetiredKeeps(m, s, q);
    PublishedBatch(m, s, q);
    VacantBefore(m, s, q);
    ActivatedBatches(AfterRetire(m, s, q).batches, AfterPublish(m, s, q).batches, q.batch,
      AfterRetire(m, s, q).intakes);
  }

  /** Everything but the verified rows, which the next flush writes. */
  ghost predicate InvUnverified(s: Db) {
    && ReviewInv(s)
    && DecisionInv(s.decisions, s.extractions)
    && ReadyInv(s.decisions, s.extractions, s.batches)
    && BillInv(s.bills, s.issuers, s.verified)
    && DocumentInv(s.documents, s.files)
    && SourceInv(s.files, s.intakes)
    && BatchSourceInv(s.batches, s.intakes)
  }

  lemma DocumentsGrow(documents: map<Id, DocumentStatus>, after: map<Id, DocumentStatus>, files: map<Id, SourceFile>)
    requires DocumentInv(documents, files) && documents.Keys <= after.Keys
    ensures DocumentInv(after, files)
  {
  }

  lemma PublishedKeeps(m: Mapping, s: Db, q: Activation)
    requires Passes(m, s, q)
    ensures InvUnverified(AfterPublish(m, s, q)) && Evolves(AfterRetire(m, s, q), AfterPublish(m, s, q))
    ensures Activates(AfterRetire(m, s, q).batches, AfterPublish(m, s, q).batches, q.batch)
  {
    hide ActivationGuard, With, Publishes, PublishCohort, RetirePrior, StatusInv, SameRows, LeavesReview, Activates;
    hide MemberInv, CountInv, ReadyInv, DecisionInv, OneActive, AuthorityInv, SettledInv, EvidenceInv;
    hide VerifiedInv, BillInv, DocumentInv, SourceInv, BatchSourceInv;
    hide ExtractionsMove, BatchesMove, BillsMove, IntakesMove, Grows;
    var s1, s2 := AfterRetire(m, s, q), AfterPublish(m, s, q);
    RetiredKeeps(m, s, q);
    PublishedTables(m, s, q);
    PublishedSame(m, s, q);
    PublishedFrames(m, s, q);
    PublishedReview(m, s, q);
    PublishedActive(m, s, q);
    PublishedBatch(m, s, q);
    DocumentsGrow(s1.documents, s2.documents, s1.files);
    EvolvesReflexive(s1);
  }

  // ------------------------------------------------------------ verified rows

  /** Every included financial candidate of a fault-free cohort has values to verify. */
  lemma ValuesAreReady(m: Mapping, s: Db, q: Activation)
    requires Passes(m, s, q)
    ensures ValuesReady(m, s, q.batch, FinancialItems(s, q.batch))
  {
    hide ActivationGuard, Inv, Clean, CandidateFacts, IsFinancial;
    PassedGuard(m, s, q);
    forall e | e in FinancialItems(s, q.batch)
      ensures e in s.extractions && CandidateFacts(m, s, q.batch, e).values.Some?
    {
      CleanMeans(m, s, q.batch, e);
    }
  }

  lemma InsertedVerified(m: Mapping, s: Db, s2: Db, q: Activation)
    requires q.batch in s.batches && InsertVerified(m, s, s2, q).Ok?
    ensures var s3, items := InsertVerified(m, s, s2, q).value, FinancialItems(s, q.batch);
      && s3 == s2.(verified := s3.verified)
      && FreshFor(s2.verified, items, q.drawn.verified) && ValuesReady(m, s, q.batch, items)
      && Verifies(s2.verified, s3.verified, items, s.batches[q.batch].identity.document)
      && (forall e :: e in items ==>
            q.drawn.verified[e] in s3.verified && s3.verified[q.drawn.verified[e]] == VerifiedRows(m, s, q, items)[e])
  {
    hide FinancialItems, CandidateFacts, Strip;
    var items := FinancialItems(s, q.batch);
    var rows := VerifiedRows(m, s, q, items);
    InsertRowsContents(s2.verified, items, q.drawn.verified, rows);
    hide InsertRows;
    var w := InsertVerified(m, s, s2, q).value.verified;
    forall x | x in w && x !in s2.verified
      ensures exists e :: e in items && x == q.drawn.verified[e] && w[x].extraction == e
    {
      var e :| e in items && x == q.drawn.verified[e];
      assert w[x] == rows[e];
    }
    forall e | e in items ensures HasVerified(w, e) {
      assert w[q.drawn.verified[e]] == rows[e];
    }
  }

  lemma ItemsAreFinancial(s: Db, b: Id, p: map<Id, Extraction>)
    requires forall e :: e in Members(s.extractions, b) ==> e in p && p[e] == s.extractions[e]
    ensures forall e :: e in FinancialItems(s, b) <==> e in With(s, b, Include) && IsFinancial(p[e])
  {
    hide IsFinancial;
  }

  lemma MembersOfDocument(p: map<Id, Extraction>, batches: map<Id, Batch>, b: Id)
    requires MemberInv(p, batches) && b in batches
    ensures forall e :: e in Members(p, b) ==> p[e].content.document == batches[b].identity.document
  {
  }

  lemma VerifiedAfter(m: Mapping, s: Db, q: Activation)
    requires Passes(m, s, q) && InsertVerified(m, s, AfterPublish(m, s, q), q).Ok?
    ensures var s3 := InsertVerified(m, s, AfterPublish(m, s, q), q).value; VerifiedInv(s3.verified, s3.extractions)
  {
    hide ActivationGuard, With, Publishes, PublishCohort, RetirePrior, Splits, Vacant, Evolves, Verifies;
    hide Members, FinancialItems, ValuesReady, FreshFor;
    hide MemberInv, CountInv, ReadyInv, DecisionInv, OneActive, AuthorityInv, SettledInv, EvidenceInv;
    hide VerifiedInv, BillInv, DocumentInv, SourceInv, BatchSourceInv;
    hide StatusInv, InsertVerified;
    var s1, s2 := AfterRetire(m, s, q), AfterPublish(m, s, q);
    RetiredKeeps(m, s, q);
    CandidatesUntouched(m, s, q);
    VacantBefore(m, s, q);
    PublishedTables(m, s, q);
    InsertedVerified(m, s, s2, q);
    ItemsAreFinancial(s, q.batch, s1.extractions);
    MembersOfDocument(s1.extractions, s1.batches, q.batch);
    PublishedVerified(s1.extractions, s2.extractions, q.batch, With(s, q.batch, Include), With(s, q.batch, Exclude),
                      s1.verified, InsertVerified(m, s, s2, q).value.verified, FinancialItems(s, q.batch),
                        s.batches[q.batch].identity.document);
  }

  /** The third flush restores the whole invariant; only bills are still to be recorded. */
  lemma VerifiedKeeps(m: Mapping, s: Db, q: Activation)
    requires Passes(m, s, q) && InsertVerified(m, s, AfterPublish(m, s, q), q).Ok?
    ensures var s3 := InsertVerified(m, s, AfterPublish(m, s, q), q).value;
      Inv(s3) && Evolves(AfterPublish(m, s, q), s3)
  {
    hide ActivationGuard, PublishCohort, RetirePrior, FinancialItems, ValuesReady, FreshFor;
    hide MemberInv, CountInv, ReadyInv, DecisionInv, OneActive, AuthorityInv, SettledInv, EvidenceInv;
    hide VerifiedInv, DocumentInv, SourceInv, BatchSourceInv;
    hide StatusInv, InsertVerified, OneOwner, IssuerNamesUnique, OneBillPerRecord, BillLinks;
    hide ExtractionsMove, BatchesMove, BillsMove, IntakesMove, Grows;
    var s2 := AfterPublish(m, s, q);
    PublishedKeeps(m, s, q);
    VerifiedAfter(m, s, q);
    assert q.batch in s.batches by { PassedGuard(m, s, q); }
    InsertedVerified(m, s, s2, q);
    EvolvesReflexive(s2);
    LegacyProofs.BillLinksGrow(s2, InsertVerified(m, s, s2, q).value);
  }
}
