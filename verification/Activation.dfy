/** What `activate` does, end to end. */
module ActivationTheorems {
  import opened Basics
  import opened Model
  import opened Authority
  import opened ActivationProofs
  import opened Billing
  import opened CohortBills
  import opened CohortProofs
  import opened Invariant
  import opened Review
  import opened Tables
  import opened Text

  // ------------------------------------------------------------ when it succeeds

  ghost predicate ProjectsBill(m: Mapping, s: Db, b: Id, e: Id) {
    e in BillItems(m, s, b) && e in s.extractions && CandidateFacts(m, s, b, e).projection.Some?
  }

  ghost function BillClaim(m: Mapping, s: Db, b: Id, e: Id): Projection
    requires ProjectsBill(m, s, b, e)
  {
    CandidateFacts(m, s, b, e).projection.value
  }

  /** Every projected bill is well formed and no two of them give one issuer name two kinds. */
  ghost predicate ClaimsConsistent(m: Mapping, s: Db, b: Id) {
    && (forall e :: ProjectsBill(m, s, b, e) ==> WellFormed(BillClaim(m, s, b, e)))
    && (forall e, f :: ProjectsBill(m, s, b, e) && ProjectsBill(m, s, b, f)
          && BillClaim(m, s, b, e).issuerName == BillClaim(m, s, b, f).issuerName
          ==> BillClaim(m, s, b, e).issuerKind == BillClaim(m, s, b, f).issuerKind)
  }

  lemma ItemsProject(m: Mapping, s: Db, b: Id)
    ensures forall e :: e in BillItems(m, s, b) <==> ProjectsBill(m, s, b, e)
  {
    hide CandidateFacts, FinancialItems;
  }

  ghost predicate PlanProjects(m: Mapping, s: Db, b: Id, base: Db, plan: Plan, e: Id) {
    && e in plan.requests && ProjectsBill(m, s, b, e)
    && plan.requests[e].projection == BillClaim(m, s, b, e)
    && KindFits(base.issuers, plan.requests[e].projection)
  }

  lemma PlanIsProjected(m: Mapping, s: Db, q: Activation, s3: Db, e: Id)
    requires Passes(m, s, q) && BillBase(m, s, q, s3) && q.batch in s.batches && e in BillItems(m, s, q.batch)
    ensures PlanProjects(m, s, q.batch, s3, PlanOf(m, s, q), e)
  {
    assert IssuerNamesUnique(s.issuers);
    hide Inv, ActivationGuard, CandidateFacts, FinancialItems, BillItems, BillBase, Clean, PaymentOf;
    hide AfterRetire, KindFits, FreshIds;
    BaseShape(m, s, q, s3);
    FreshBase(m, s, q, s3);
    PlanOfPlans(m, s, q);
    ItemsProject(m, s, q.batch);
    BillItemIs(m, s, q, e);
    KindIsFree(m, s, q.batch, e);
  }

  lemma FitsMeans(m: Mapping, s: Db, b: Id, base: Db, plan: Plan, items: seq<Id>)
    requires forall e :: e in items ==> PlanProjects(m, s, b, base, plan, e)
    requires forall e :: e in items <==> ProjectsBill(m, s, b, e)
    ensures Fits(base, plan, items) <==> ClaimsConsistent(m, s, b)
  {
    hide BillClaim, ProjectsBill, WellFormed, KindFits;
  }

  lemma FitsIsConsistent(m: Mapping, s: Db, q: Activation, s3: Db)
    requires Passes(m, s, q) && BillBase(m, s, q, s3) && q.batch in s.batches
    ensures Fits(s3, PlanOf(m, s, q), BillItems(m, s, q.batch)) <==> ClaimsConsistent(m, s, q.batch)
  {
    hide Passes, BillBase, PlanOf, PlanProjects, ProjectsBill, ClaimsConsistent, Fits, BillItems;
    var items := BillItems(m, s, q.batch);
    forall e | e in items ensures PlanProjects(m, s, q.batch, s3, PlanOf(m, s, q), e) {
      PlanIsProjected(m, s, q, s3, e);
    }
    ItemsProject(m, s, q.batch);
    FitsMeans(m, s, q.batch, s3, PlanOf(m, s, q), items);
  }

  lemma FreshBase(m: Mapping, s: Db, q: Activation, s3: Db)
    requires Passes(m, s, q) && BillBase(m, s, q, s3)
    ensures FreshIds(m, s, q)
  {
    hide Passes, FreshIds, InsertVerified;
  }

  lemma FreshAfterPublish(m: Mapping, s: Db, q: Activation)
    requires Passes(m, s, q)
    ensures q.batch in s.batches
    ensures InsertVerified(m, s, AfterPublish(m, s, q), q).Ok? <==>
      FreshFor(s.verified, FinancialItems(s, q.batch), q.drawn.verified)
    ensures InsertVerified(m, s, AfterPublish(m, s, q), q).Err? ==>
      InsertVerified(m, s, AfterPublish(m, s, q), q).error == Integrity
  {
    hide ActivationGuard, Inv, With, Publishes, FinancialItems, ValuesReady, PublishCohort, RetirePrior;
    hide VerifiedRows, InsertRows, FreshFor;
    PassedGuard(m, s, q);
    ValuesAreReady(m, s, q);
    PublishedTables(m, s, q);
    CandidatesUntouched(m, s, q);
  }

  lemma ActivateUnfolds(m: Mapping, s: Db, q: Activation)
    requires Passes(m, s, q)
    ensures q.batch in s.batches
    ensures !FreshIds(m, s, q) ==> Activate(m, s, q) == Err(Integrity)
    ensures FreshIds(m, s, q) ==>
      && InsertVerified(m, s, AfterPublish(m, s, q), q).Ok?
      && (forall e :: e in BillItems(m, s, q.batch) ==> BillItem(m, s, q, e))
      && Activate(m, s, q)
           == RecordAll(m, s, InsertVerified(m, s, AfterPublish(m, s, q), q).value, q, BillItems(m, s, q.batch))
  {
    hide ActivationGuard, Inv, FinancialItems, InsertVerified, PublishCohort, RetirePrior, BillIdsDrawn;
    hide BillItems, FreshFor, BillItem, RecordAll;
    FreshAfterPublish(m, s, q);
    if FreshIds(m, s, q) {
      BillItemsReady(m, s, q);
    }
  }

  /**
    Given new ids, a cohort whose preview lists no error activates exactly when
    its claims are consistent; the only error left is an invalid bill.
  */
  lemma ActivateOutcome(m: Mapping, s: Db, q: Activation)
    requires Passes(m, s, q) && FreshIds(m, s, q)
    ensures Activate(m, s, q).Ok? <==> ClaimsConsistent(m, s, q.batch)
    ensures Activate(m, s, q).Err? ==> Activate(m, s, q).error == BillInvalid
    ensures Activate(m, s, q).Ok? ==>
      && InsertVerified(m, s, AfterPublish(m, s, q), q).Ok?
      && q.batch in s.batches
      && Billed(InsertVerified(m, s, AfterPublish(m, s, q), q).value, Activate(m, s, q).value, PlanOf(m, s, q),
           BillItems(m, s, q.batch))
  {
    hide Passes, FreshIds, InsertVerified, AfterPublish, BillItems, BillItem, RecordAll, Activate, PlanOf;
    hide Plans, Compatible, Fits, ClaimsConsistent, Billed, NoRepeats;
    ActivateUnfolds(m, s, q);
    var s3 := InsertVerified(m, s, AfterPublish(m, s, q), q).value;
    PlanOfPlans(m, s, q);
    CohortCompatible(m, s, q, s3);
    FitsIsConsistent(m, s, q, s3);
    VerifiedBills(m, s, q);
    RecordAllIs(m, s, s3, q, PlanOf(m, s, q), BillItems(m, s, q.batch));
  }

  lemma VerifiedBills(m: Mapping, s: Db, q: Activation)
    requires Passes(m, s, q) && InsertVerified(m, s, AfterPublish(m, s, q), q).Ok?
    ensures var s3 := InsertVerified(m, s, AfterPublish(m, s, q), q).value; BillInv(s3.bills, s3.issuers, s3.verified)
  {
    hide Passes, AfterPublish, InsertVerified, ReviewInv, DecisionInv, ReadyInv, VerifiedInv, BillInv;
    hide DocumentInv, SourceInv, BatchSourceInv, Evolves;
    VerifiedKeeps(m, s, q);
  }

  /** Recording the bills of an activation never meets another bill's period. */
  lemma NeverBillConflict(m: Mapping, s: Db, q: Activation)
    requires Inv(s)
    ensures Activate(m, s, q) != Err(BillConflict)
  {
    hide Inv, Activate, FreshIds, ActivationGuard, AfterPublish, InsertVerified, Billed, ClaimsConsistent, RecordAll;
    if ActivationGuard(m, s, q).None? {
      ActivateUnfolds(m, s, q);
      if FreshIds(m, s, q) { ActivateOutcome(m, s, q); }
    } else {
      RefusalIsNoConflict(m, s, q);
    }
  }

  lemma RefusalIsNoConflict(m: Mapping, s: Db, q: Activation)
    requires ActivationGuard(m, s, q).Some?
    ensures Activate(m, s, q) == Err(ActivationGuard(m, s, q).value) && ActivationGuard(m, s, q).value != BillConflict
  {
    GuardErrors(m, s, q);
    hide ActivationGuard, RetirePrior, PublishCohort, InsertVerified, RecordAll, BillIdsDrawn;
  }

  lemma GuardErrors(m: Mapping, s: Db, q: Activation)
    ensures ActivationGuard(m, s, q) != Some(BillConflict)
  {
    hide CohortFaults, ActivationVector, SourceIsCurrent, With, Members, Bounded;
  }

  // ------------------------------------------------------------ what it keeps

  lemma BilledKeeps(base: Db, t: Db, plan: Plan, items: seq<Id>)
    requires Inv(base) && Billed(base, t, plan, items)
    ensures Inv(t) && Evolves(base, t)
  {
    hide StatusInv, MemberInv, CountInv, OneActive, AuthorityInv, SettledInv, EvidenceInv, DecisionInv;
    hide ReadyInv, VerifiedInv, BillInv;
    hide DocumentInv, SourceInv, BatchSourceInv, ExtractionsMove, BatchesMove, IntakesMove, StoredAs, Covers;
    EvolvesReflexive(base);
  }

  /** A successful activation, cut at its last flush before the bills. */
  lemma ActivateSplits(m: Mapping, s: Db, q: Activation) returns (s3: Db)
    requires Inv(s) && Activate(m, s, q).Ok?
    ensures Passes(m, s, q) && BillBase(m, s, q, s3) && q.batch in s.batches
    ensures Billed(s3, Activate(m, s, q).value, PlanOf(m, s, q), BillItems(m, s, q.batch))
    ensures ClaimsConsistent(m, s, q.batch)
  {
    assert ActivationGuard(m, s, q).None?;
    hide Inv, ActivationGuard, FreshIds, InsertVerified, AfterPublish, Activate, PlanOf, BillItems, Billed;
    hide ClaimsConsistent;
    ActivateUnfolds(m, s, q);
    ActivateOutcome(m, s, q);
    s3 := InsertVerified(m, s, AfterPublish(m, s, q), q).value;
  }

  lemma BaseKeeps(m: Mapping, s: Db, q: Activation, s3: Db)
    requires Passes(m, s, q) && BillBase(m, s, q, s3)
    ensures Inv(s3) && Evolves(s, s3)
  {
    hide Inv, ActivationGuard, Evolves, InvUnverified, InsertVerified, AfterPublish, AfterRetire, FreshIds;
    RetiredKeeps(m, s, q);
    PublishedKeeps(m, s, q);
    VerifiedKeeps(m, s, q);
    EvolvesTransitive(s, AfterRetire(m, s, q), AfterPublish(m, s, q));
    EvolvesTransitive(s, AfterPublish(m, s, q), s3);
  }

  lemma ActivateKeeps(m: Mapping, s: Db, q: Activation)
    requires Inv(s) && Activate(m, s, q).Ok?
    ensures var t := Activate(m, s, q).value; Inv(t) && Evolves(s, t)
  {
    hide Inv, Activate, Passes, BillBase, Evolves, Billed, PlanOf, BillItems;
    var s3 := ActivateSplits(m, s, q);
    BaseKeeps(m, s, q, s3);
    BilledKeeps(s3, Activate(m, s, q).value, PlanOf(m, s, q), BillItems(m, s, q.batch));
    EvolvesTransitive(s, s3, Activate(m, s, q).value);
  }

  /** The one-active-batch and one-owner indexes hold after the first two flushes of an activation. */
  lemma FlushesKeepIndexes(m: Mapping, s: Db, q: Activation)
    requires Passes(m, s, q)
    ensures OneActive(AfterRetire(m, s, q).batches) && OneOwner(AfterRetire(m, s, q).bills)
    ensures OneActive(AfterPublish(m, s, q).batches) && OneOwner(AfterPublish(m, s, q).bills)
  {
    hide ActivationGuard, AfterRetire, AfterPublish;
    hide StatusInv, MemberInv, CountInv, OneActive, AuthorityInv, SettledInv, EvidenceInv, DecisionInv;
    hide ReadyInv, VerifiedInv;
    hide OneOwner, IssuerNamesUnique, OneBillPerRecord, BillLinks, DocumentInv, SourceInv, BatchSourceInv, Evolves;
    RetiredKeeps(m, s, q);
    PublishedKeeps(m, s, q);
  }

  lemma PrefixPlans(m: Mapping, s: Db, q: Activation, base: Db, plan: Plan, items: seq<Id>, k: nat)
    requires k <= |items| && Plans(m, s, q, plan, items) && NoRepeats(items) && Compatible(base, plan, items)
    ensures Plans(m, s, q, plan, items[..k]) && NoRepeats(items[..k]) && Compatible(base, plan, items[..k])
  {
    hide BillItem, BillRequest, PaymentOf, Admissible, Apart;
    assert forall e :: e in items[..k] ==> e in items;
  }

  /** They hold after every bill of the cohort as well. */
  lemma BillFlushesKeepIndexes(m: Mapping, s: Db, q: Activation, s3: Db, k: nat)
    requires Passes(m, s, q) && BillBase(m, s, q, s3) && k <= |BillItems(m, s, q.batch)|
    ensures q.batch in s.batches && (forall e :: e in BillItems(m, s, q.batch)[..k] ==> BillItem(m, s, q, e))
    ensures var recorded := RecordAll(m, s, s3, q, BillItems(m, s, q.batch)[..k]);
      recorded.Ok? ==> OneActive(recorded.value.batches) && OneOwner(recorded.value.bills)
  {
    hide Passes, BillItems, BillItem, PlanOf, RecordAll, InsertVerified, AfterPublish, FreshIds, BillRequest;
    hide PaymentOf, Compatible, NoRepeats;
    hide StatusInv, MemberInv, CountInv, OneActive, AuthorityInv, SettledInv, EvidenceInv, DecisionInv;
    hide ReadyInv, VerifiedInv;
    hide OneOwner, IssuerNamesUnique, OneBillPerRecord, BillLinks, DocumentInv, SourceInv, BatchSourceInv;
    hide Evolves, StoredAs;
    CohortCompatible(m, s, q, s3);
    PlanOfPlans(m, s, q);
    PrefixPlans(m, s, q, s3, PlanOf(m, s, q), BillItems(m, s, q.batch), k);
    BaseKeeps(m, s, q, s3);
    RecordAllIs(m, s, s3, q, PlanOf(m, s, q), BillItems(m, s, q.batch)[..k]);
  }

  // ------------------------------------------------------------ what it replaces

  lemma ActivatedTables(m: Mapping, s: Db, q: Activation)
    requires Inv(s) && Activate(m, s, q).Ok?
    ensures Passes(m, s, q) && q.batch in s.batches
    ensures var t, s2 := Activate(m, s, q).value, AfterPublish(m, s, q);
      && t.extractions == s2.extractions && t.batches == s2.batches && t.documents == s2.documents
      && t.decisions == s.decisions && t.chunks == s.chunks && t.files == s.files && t.intakes == s.intakes
  {
    hide Inv, Activate, Passes, PlanOf, BillItems, BillInv, StoredAs, Covers, InsertVerified, FreshIds;
    hide AfterPublish, Publishes, With, Verifies, ClaimsConsistent, AfterRetire, Splits;
    var s3 := ActivateSplits(m, s, q);
    InsertedVerified(m, s, AfterPublish(m, s, q), q);
    PublishedTables(m, s, q);
    CandidatesUntouched(m, s, q);
  }

  /** The row of `x` after the cohort of batch `b` replaced the approvals of its document. */
  ghost predicate RowReplaced(s: Db, b: Id, x: Id, row: Extraction)
    requires x in s.extractions && b in s.batches
  {
    && row.content == s.extractions[x].content
    && if x in With(s, b, Include) then row.status == Approved && row.version == s.extractions[x].version + 1
       else if x in With(s, b, Exclude) then row.status == Superseded && row.version == s.extractions[x].version + 1
       else if s.extractions[x].status == Approved && row.content.document == s.batches[b].identity.document
       then row.status == Superseded
       else row == s.extractions[x]
  }

  lemma RowsReplaced(s: Db, b: Id, p: map<Id, Extraction>, q: map<Id, Extraction>)
    requires b in s.batches && Splits(s.extractions, b, With(s, b, Include), With(s, b, Exclude))
    requires RetiresApproved(s.extractions, p, s.batches[b].identity.document)
    requires Publishes(p, q, With(s, b, Include), With(s, b, Exclude))
    ensures q.Keys == s.extractions.Keys && forall x :: x in q ==> RowReplaced(s, b, x, q[x])
  {
    hide With;
    forall x | x in q ensures RowReplaced(s, b, x, q[x]) {
      if x in With(s, b, Include) || x in With(s, b, Exclude) { assert x in Members(s.extractions, b); }
    }
  }

  /**
    Conservation: every candidate of the batch is either included and approved or
    excluded and superseded, the former approvals of the document are superseded,
    and no other extraction changes.
  */
  lemma CohortConserved(m: Mapping, s: Db, q: Activation)
    requires Inv(s) && Activate(m, s, q).Ok?
    ensures q.batch in s.batches
    ensures With(s, q.batch, Include) + With(s, q.batch, Exclude) == Members(s.extractions, q.batch)
    ensures With(s, q.batch, Include) !! With(s, q.batch, Exclude)
    ensures var t := Activate(m, s, q).value;
      t.extractions.Keys == s.extractions.Keys && forall x :: x in t.extractions ==>
        RowReplaced(s, q.batch, x, t.extractions[x])
  {
    hide Inv, Activate, ActivationGuard, With, RowReplaced, Publishes, RetiresApproved, RetiresActive;
    hide RetirePrior, PublishCohort;
    ActivatedTables(m, s, q);
    PassedGuard(m, s, q);
    LoadedCohort(m, s, q);
    RetireShape(s, q.batch, Strip(q.actor), q.now);
    PublishedTables(m, s, q);
    RowsReplaced(s, q.batch, AfterRetire(m, s, q).extractions, AfterPublish(m, s, q).extractions);
  }

  lemma IncludedAreApproved(s: Db, b: Id, q: map<Id, Extraction>, x: Id)
    requires b in s.batches && MemberInv(s.extractions, s.batches) && x in s.extractions && x in q
    requires RowReplaced(s, b, x, q[x]) && (x in With(s, b, Include) ==> x in Members(s.extractions, b))
    ensures q[x].status == Approved && q[x].content.document == s.batches[b].identity.document <==>
      x in With(s, b, Include)
  {
    hide With;
  }

  /** After an activation the approvals of the document are exactly the included candidates. */
  lemma ApprovedIsIncluded(m: Mapping, s: Db, q: Activation)
    requires Inv(s) && Activate(m, s, q).Ok?
    ensures q.batch in s.batches
    ensures var t := Activate(m, s, q).value;
      forall x :: x in t.extractions ==>
        (t.extractions[x].status == Approved
          && t.extractions[x].content.document == s.batches[q.batch].identity.document
         <==> x in With(s, q.batch, Include))
  {
    assert MemberInv(s.extractions, s.batches);
    hide Inv, Activate, With, Members, MemberInv, RowReplaced;
    CohortConserved(m, s, q);
    var t := Activate(m, s, q).value;
    forall x | x in t.extractions ensures
      t.extractions[x].status == Approved && t.extractions[x].content.document == s.batches[q.batch].identity.document
      <==> x in With(s, q.batch, Include)
    {
      IncludedAreApproved(s, q.batch, t.extractions, x);
    }
  }

  /** The verified rows that count for the document are exactly those of the included financial candidates. */
  lemma AuthorityIsIncluded(m: Mapping, s: Db, q: Activation)
    requires Inv(s) && Activate(m, s, q).Ok?
    ensures q.batch in s.batches
    ensures var t := Activate(m, s, q).value;
      forall v :: v in t.verified ==>
        (IsAuthoritative(t, v) && t.verified[v].document == s.batches[q.batch].identity.document
         <==> t.verified[v].extraction in FinancialItems(s, q.batch))
  {
    hide Inv, Activate, IsAuthoritative, FinancialItems, With, RowReplaced;
    CohortConserved(m, s, q);
    var t, b := Activate(m, s, q).value, q.batch;
    forall v | v in t.verified ensures
      IsAuthoritative(t, v) && t.verified[v].document == s.batches[b].identity.document
      <==> t.verified[v].extraction in FinancialItems(s, b)
    {
      AuthorityOfNew(m, s, q, v);
    }
  }

  lemma ActivatedRow(m: Mapping, s: Db, q: Activation)
    requires Inv(s) && Activate(m, s, q).Ok?
    ensures var t := Activate(m, s, q).value;
      && q.batch in s.batches && q.batch in t.batches
      && t.batches[q.batch].lifecycle == Active && t.batches[q.batch].identity == s.batches[q.batch].identity
  {
    hide Inv, Activate, ActivationGuard, PublishCohort, RetirePrior, EvidenceConstraints, Vacant;
    ActivatedTables(m, s, q);
    PublishedBatch(m, s, q);
    VacantBefore(m, s, q);
  }

  lemma ContentKept(m: Mapping, s: Db, q: Activation, x: Id)
    requires Inv(s) && Activate(m, s, q).Ok? && x in Activate(m, s, q).value.extractions
    ensures x in s.extractions && Activate(m, s, q).value.extractions[x].content == s.extractions[x].content
  {
    hide Inv, Activate, With, Members;
    CohortConserved(m, s, q);
    assert RowReplaced(s, q.batch, x, Activate(m, s, q).value.extractions[x]);
  }

  lemma AuthorityOfNew(m: Mapping, s: Db, q: Activation, v: Id)
    requires Inv(s) && Activate(m, s, q).Ok? && v in Activate(m, s, q).value.verified
    ensures var t := Activate(m, s, q).value;
      && q.batch in s.batches
      && (IsAuthoritative(t, v) && t.verified[v].document == s.batches[q.batch].identity.document
          <==> t.verified[v].extraction in FinancialItems(s, q.batch))
  {
    hide Inv, Activate, IsAuthoritative, FinancialItems, With, VerifiedInv, MemberInv;
    ActivatedFacts(m, s, q);
    ActivatedRow(m, s, q);
    ApprovedIsIncluded(m, s, q);
    ContentKept(m, s, q, Activate(m, s, q).value.verified[v].extraction);
    AuthorityOfRow(s, Activate(m, s, q).value, q.batch, v);
  }

  lemma ActivatedFacts(m: Mapping, s: Db, q: Activation)
    requires Inv(s) && Activate(m, s, q).Ok?
    ensures var t := Activate(m, s, q).value;
      && MemberInv(t.extractions, t.batches) && VerifiedInv(t.verified, t.extractions)
      && forall v :: v in t.verified ==> t.verified[v].extraction in t.extractions
  {
    hide Activate, Evolves, MemberInv, StatusInv, CountInv, OneActive, AuthorityInv, SettledInv, EvidenceInv;
    hide DecisionInv, ReadyInv, BillInv, DocumentInv, SourceInv, BatchSourceInv;
    ActivateKeeps(m, s, q);
  }

  lemma AuthorityOfRow(s: Db, t: Db, b: Id, v: Id)
    requires b in s.batches && b in t.batches && t.batches[b].lifecycle == Active
      && t.batches[b].identity == s.batches[b].identity
    requires v in t.verified && VerifiedInv(t.verified, t.extractions) && MemberInv(t.extractions, t.batches)
    requires var x := t.verified[v].extraction;
      && x in s.extractions && t.extractions[x].content == s.extractions[x].content
      && (t.extractions[x].status == Approved && t.extractions[x].content.document == s.batches[b].identity.document
         <==> x in With(s, b, Include))
    ensures IsAuthoritative(t, v) && t.verified[v].document == s.batches[b].identity.document
      <==> t.verified[v].extraction in FinancialItems(s, b)
  {
  }

  // ------------------------------------------------------------ payment

  /** The live bill of `s` that holds the issuer name and period of `p`. */
  ghost predicate Holds(s: Db, p: Projection, x: Id) {
    && x in s.bills && Live(s.bills[x]) && s.bills[x].content.period == p.period
    && s.bills[x].content.issuer in s.issuers && s.issuers[s.bills[x].content.issuer].name == p.issuerName
  }

  lemma HolderIsPrior(m: Mapping, s: Db, q: Activation, e: Id, x: Id)
    requires Passes(m, s, q) && ProjectsBill(m, s, q.batch, e) && Holds(s, BillClaim(m, s, q.batch, e), x)
    ensures q.batch in s.batches && PriorBill(m, s, q.batch, e) == Some(x) && x in PriorBills(s, q.batch)
  {
    assert BillInv(s.bills, s.issuers, s.verified);
    hide Inv, ActivationGuard, CandidateFacts, BillItems, Clean, BillInv, PriorApproved;
    BillItemIs(m, s, q, e);
    CleanClaim(m, s, q.batch, e);
    OwnerIsKnown(s, BillClaim(m, s, q.batch, e), x);
    hide OwnerOf, KindMismatch;
  }

  lemma UnheldIsUnpaid(m: Mapping, s: Db, q: Activation, e: Id)
    requires Passes(m, s, q) && ProjectsBill(m, s, q.batch, e)
    requires forall x :: !Holds(s, BillClaim(m, s, q.batch, e), x)
    ensures q.batch in s.batches && PaymentOf(m, s, q.batch, e) == (Unpaid, None)
  {
    hide Inv, ActivationGuard, CandidateFacts, BillItems, PriorApproved;
    PassedGuard(m, s, q);
    var prior := PriorBill(m, s, q.batch, e);
    assert prior.Some? ==> Holds(s, BillClaim(m, s, q.batch, e), prior.value);
  }

  /** The bill that the activation stored for candidate `e`. */
  lemma NewBillStored(m: Mapping, s: Db, q: Activation, e: Id)
    requires Inv(s) && Activate(m, s, q).Ok? && ProjectsBill(m, s, q.batch, e)
    ensures q.batch in s.batches && BillItem(m, s, q, e)
    ensures StoredAs(Activate(m, s, q).value, BillRequest(m, s, q, e), PaymentOf(m, s, q.batch, e))
  {
    hide Inv, Activate, Passes, BillInv, StoredAs, InsertVerified, AfterPublish, ClaimsConsistent, BillItem;
    hide BillRequest, PaymentOf, CandidateFacts, BillItems, FreshIds;
    var s3 := ActivateSplits(m, s, q);
    PlanOfPlans(m, s, q);
  }

  lemma PriorBillsRetired(m: Mapping, s: Db, q: Activation, x: Id)
    requires Inv(s) && Activate(m, s, q).Ok? && q.batch in s.batches && x in PriorBills(s, q.batch)
    ensures var t := Activate(m, s, q).value;
      x in t.bills && x in s.bills && t.bills[x] == s.bills[x].(supersededAt := Some(q.now))
  {
    var s3 := ActivateSplits(m, s, q);
    BaseShape(m, s, q, s3);
    hide Inv, Activate, ActivationGuard, PlanOf, BillItems, BillInv, StoredAs, ClaimsConsistent, BillBase;
    hide PriorApproved;
  }

  /**
    A projected candidate gets one live bill for its issuer and period.  The
    bill that held the period before is superseded and its payment state carries
    over; if nobody held the period the new bill is unpaid.
  */
  lemma PaymentSurvives(m: Mapping, s: Db, q: Activation, e: Id)
    requires Inv(s) && Activate(m, s, q).Ok? && ProjectsBill(m, s, q.batch, e)
    ensures e in q.drawn.bills && q.drawn.bills[e] in Activate(m, s, q).value.bills && q.drawn.bills[e] !in s.bills
    ensures var t, p, x := Activate(m, s, q).value, BillClaim(m, s, q.batch, e), q.drawn.bills[e];
      && Holds(t, p, x)
      && (forall y :: Holds(s, p, y) ==>
            && y in t.bills && t.bills[y] == s.bills[y].(supersededAt := Some(q.now))
            && t.bills[x].payment == s.bills[y].payment && t.bills[x].paidAt == s.bills[y].paidAt)
      && ((forall y :: !Holds(s, p, y)) ==> t.bills[x].payment == Unpaid && t.bills[x].paidAt.None?)
  {
    hide Inv, Activate, ActivationGuard, CandidateFacts, BillItems, PriorApproved, BillInv, PlanOf;
    hide ClaimsConsistent, InsertVerified, AfterPublish, PriorBill, Holds;
    var s3 := ActivateSplits(m, s, q);
    ItemRequest(m, s, q, s3, e);
    NewBillStored(m, s, q, e);
    var t, p, x := Activate(m, s, q).value, BillClaim(m, s, q.batch, e), q.drawn.bills[e];
    NewBillHolds(t, BillRequest(m, s, q, e), PaymentOf(m, s, q.batch, e));
    hide Billed, BillBase, FreshIds;
    forall y | Holds(s, p, y) ensures
      && y in t.bills && y in s.bills && t.bills[y] == s.bills[y].(supersededAt := Some(q.now))
      && t.bills[x].payment == s.bills[y].payment && t.bills[x].paidAt == s.bills[y].paidAt
    {
      HolderIsPrior(m, s, q, e, y);
      PriorBillsRetired(m, s, q, y);
    }
    if forall y :: !Holds(s, p, y) {
      UnheldIsUnpaid(m, s, q, e);
    }
  }

  lemma NewBillHolds(t: Db, r: NewBill, payment: (PaymentStatus, Option<Time>))
    requires StoredAs(t, r, payment)
    ensures Holds(t, r.projection, r.bill)
  {
  }

  /** A bill of the old database after an activation is retired or the row it was. */
  lemma OldBillAfter(m: Mapping, s: Db, q: Activation, y: Id)
    requires Inv(s) && Activate(m, s, q).Ok? && y in s.bills
    ensures var t := Activate(m, s, q).value; y in t.bills && (t.bills[y] == s.bills[y] || !Live(t.bills[y]))
  {
    var s3 := ActivateSplits(m, s, q);
    BaseShape(m, s, q, s3);
    hide Inv, Activate, ActivationGuard, PlanOf, BillItems, BillInv, StoredAs, ClaimsConsistent, BillBase;
    hide PriorApproved, PriorActive;
  }

  /** Every bill an activation adds is the one of a projected candidate. */
  lemma NewBillIsProjected(m: Mapping, s: Db, q: Activation, y: Id) returns (e: Id)
    requires Inv(s) && Activate(m, s, q).Ok? && y in Activate(m, s, q).value.bills && y !in s.bills
    ensures ProjectsBill(m, s, q.batch, e) && e in q.drawn.bills && q.drawn.bills[e] == y
  {
    hide Inv, Activate, ActivationGuard, CandidateFacts, BillItems, BillInv, StoredAs, ClaimsConsistent;
    hide InsertVerified, AfterPublish, AfterRetire, FinancialItems, PlanOf;
    var s3 := ActivateSplits(m, s, q);
    BaseShape(m, s, q, s3);
    PlanOfPlans(m, s, q);
    e :| e in BillItems(m, s, q.batch) && y == PlanOf(m, s, q).requests[e].bill;
    ItemsProject(m, s, q.batch);
  }

  lemma IssuersStay(m: Mapping, s: Db, q: Activation)
    requires Inv(s) && Activate(m, s, q).Ok?
    ensures Grows(s.issuers, Activate(m, s, q).value.issuers)
    ensures OneOwner(s.bills) && BillLinks(s.bills, s.issuers, s.verified)
  {
    ActivateKeeps(m, s, q);
    hide Activate, ExtractionsMove, BatchesMove, BillsMove, IntakesMove, ReviewInv, DecisionInv, ReadyInv;
    hide VerifiedInv, DocumentInv, SourceInv, BatchSourceInv;
  }

  lemma HoldersAgree(s: Db, t: Db, p: Projection, x: Id, y: Id)
    requires Grows(s.issuers, t.issuers) && BillLinks(s.bills, s.issuers, s.verified) && x in s.bills
      && Live(s.bills[x]) && Holds(t, p, y)
    requires s.bills[x].content.issuer == t.bills[y].content.issuer
      && s.bills[x].content.period == t.bills[y].content.period
    ensures Holds(s, p, x)
  {
  }

  /**
    Whoever holds an issuer and a period before and after an activation, the
    payment status and time there are the same.
  */
  lemma PeriodPaymentSurvives(m: Mapping, s: Db, q: Activation, x: Id, y: Id)
    requires Inv(s) && Activate(m, s, q).Ok? && x in s.bills && y in Activate(m, s, q).value.bills
    requires var t := Activate(m, s, q).value;
      && Live(s.bills[x]) && Live(t.bills[y])
      && s.bills[x].content.issuer == t.bills[y].content.issuer
      && s.bills[x].content.period == t.bills[y].content.period
    ensures var t := Activate(m, s, q).value;
      t.bills[y].payment == s.bills[x].payment && t.bills[y].paidAt == s.bills[x].paidAt
  {
    hide Inv, Activate, ProjectsBill, BillClaim, Holds, Grows, BillLinks;
    IssuersStay(m, s, q);
    if y in s.bills {
      OldBillAfter(m, s, q, y);
    } else {
      var e := NewBillIsProjected(m, s, q, y);
      PaymentSurvives(m, s, q, e);
      HoldersAgree(s, Activate(m, s, q).value, BillClaim(m, s, q.batch, e), x, y);
    }
  }

  // ------------------------------------------------------------ verified values

  /** Each included financial candidate gets one verified row, with the values its preview derived. */
  lemma ValuesPublished(m: Mapping, s: Db, q: Activation, e: Id)
    requires Inv(s) && Activate(m, s, q).Ok? && e in FinancialItems(s, q.batch)
    ensures e in s.extractions && CandidateFacts(m, s, q.batch, e).values.Some?
    ensures var t := Activate(m, s, q).value;
      && e in q.drawn.verified && q.drawn.verified[e] !in s.verified && q.drawn.verified[e] in t.verified
      && t.verified[q.drawn.verified[e]].extraction == e
      && t.verified[q.drawn.verified[e]].values == CandidateFacts(m, s, q.batch, e).values.value
  {
    hide Inv, Activate, ActivationGuard, CandidateFacts, BillItems, BillInv, StoredAs, ClaimsConsistent;
    hide AfterPublish, FinancialItems, PlanOf, InsertVerified, BillIdsDrawn, Verifies;
    var s3 := ActivateSplits(m, s, q);
    InsertedVerified(m, s, AfterPublish(m, s, q), q);
  }
}
