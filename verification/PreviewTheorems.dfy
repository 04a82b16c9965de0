/** What a reviewer saw in the preview is what an activation with its vector publishes. */
module PreviewTheorems {
  import opened Basics
  import opened Model
  import opened Authority
  import opened Billing
  import opened Invariant
  import opened Protocol
  import opened Review
  import opened RowOrder
  import opened Text
  import ActivationTheorems
  import Traces

  /** The preview is the same whatever order the queries return their rows in. */
  lemma VectorIgnoresOrder(m: Mapping, s: Db, b: Id, approved: seq<(Id, nat)>, candidates: seq<(Id, CandidateHead)>)
    requires b in s.batches
    requires Enumerates(approved, ApprovedTable(s, b)) && Enumerates(candidates, HeadTable(m, s, b))
    ensures VectorOfRows(s, b, approved, candidates) == ActivationVector(m, s, b)
  {
    hide ApprovedTable, HeadTable, PriorActive, HeadOfBatch, SortRows;
    RetrievalOrderIrrelevant(approved, AnyListing(ApprovedTable(s, b)), ApprovedTable(s, b));
    RetrievalOrderIrrelevant(candidates, AnyListing(HeadTable(m, s, b)), HeadTable(m, s, b));
  }

  /** Equal vectors list the same approvals at the same versions and the same candidates. */
  lemma VectorDetermines(m: Mapping, s: Db, t: Db, b: Id)
    requires b in s.batches && b in t.batches && ActivationVector(m, s, b) == ActivationVector(m, t, b)
    ensures HeadOfBatch(s, b) == HeadOfBatch(t, b)
    ensures ApprovedTable(s, b) == ApprovedTable(t, b) && HeadTable(m, s, b) == HeadTable(m, t, b)
    ensures PriorActive(s, b) == PriorActive(t, b)
    ensures PriorActive(s, b).Some? ==>
      s.batches[PriorActive(s, b).value].version == t.batches[PriorActive(s, b).value].version
  {
    hide ApprovedTable, HeadTable, HeadOfBatch, SortRows;
    assert Listing(ApprovedTable(s, b)) == Listing(ApprovedTable(t, b));
    assert Listing(HeadTable(m, s, b)) == Listing(HeadTable(m, t, b));
    ListingInjective(ApprovedTable(s, b), ApprovedTable(t, b));
    ListingInjective(HeadTable(m, s, b), HeadTable(m, t, b));
  }

  /** Everything the preview of batch `b` depends on for candidate `e` is the same in both databases. */
  ghost predicate SameCandidate(m: Mapping, s: Db, t: Db, b: Id, e: Id)
    requires b in s.batches && b in t.batches
  {
    && e in s.extractions && e in t.extractions && t.extractions[e] == s.extractions[e]
    && Latest(t.decisions, b, e) == Latest(s.decisions, b, e)
    && (Latest(s.decisions, b, e).Some? ==>
         t.decisions[Latest(s.decisions, b, e).value] == s.decisions[Latest(s.decisions, b, e).value])
    && Manifest(t, b, e) == Manifest(s, b, e)
    && CandidateFacts(m, t, b, e) == CandidateFacts(m, s, b, e)
    && PriorBill(m, t, b, e) == PriorBill(m, s, b, e)
    && (PriorBill(m, s, b, e).Some? ==> t.bills[PriorBill(m, s, b, e).value] == s.bills[PriorBill(m, s, b, e).value])
  }

  ghost predicate SamePreview(m: Mapping, s: Db, t: Db, b: Id)
    requires b in s.batches && b in t.batches
  {
    && t.batches[b] == s.batches[b]
    && Members(t.extractions, b) == Members(s.extractions, b)
    && (forall e :: e in Members(s.extractions, b) ==> SameCandidate(m, s, t, b, e))
    && PriorActive(t, b) == PriorActive(s, b)
    && (PriorActive(s, b).Some? ==> t.batches[PriorActive(s, b).value] == s.batches[PriorActive(s, b).value])
    && PriorApproved(t, b) == PriorApproved(s, b)
    && (forall x :: x in PriorApproved(s, b) ==> t.extractions[x] == s.extractions[x])
  }

  lemma SameFacts(m: Mapping, s: Db, t: Db, b: Id, e: Id)
    requires e in s.extractions && e in t.extractions && t.extractions[e] == s.extractions[e]
    requires Latest(t.decisions, b, e) == Latest(s.decisions, b, e)
    requires Latest(s.decisions, b, e).Some? ==>
      t.decisions[Latest(s.decisions, b, e).value] == s.decisions[Latest(s.decisions, b, e).value]
    requires Manifest(t, b, e) == Manifest(s, b, e)
    ensures CandidateFacts(m, t, b, e) == CandidateFacts(m, s, b, e)
  {
    hide Latest, Manifest, DecisionAccepted, EffectiveSubtype, VerifiedValues, RecurringProjection;
  }

  lemma PriorBillIsLive(m: Mapping, s: Db, b: Id, e: Id)
    requires b in s.batches
    ensures PriorBill(m, s, b, e).Some? ==> Live(s.bills[PriorBill(m, s, b, e).value])
  {
    hide Recurs, Claim, CandidateFacts, OwnedByPriorCohort, KindMismatch;
  }

  /** A bill at the same stage of payment is the same row. */
  lemma SameBill(p: BillRow, q: BillRow)
    requires BillMoves(p, q) && Live(p) && Live(q) && p.payment == q.payment && p.paidAt == q.paidAt
    ensures p == q
  {
  }

  lemma CandidateUnchanged(m: Mapping, s: Db, t: Db, b: Id, e: Id)
    requires Evolves(s, t) && b in s.batches && b in t.batches && e in Members(s.extractions, b) && e in t.extractions
    requires HeadOf(m, s, b, e) == HeadOf(m, t, b, e)
    ensures SameCandidate(m, s, t, b, e)
  {
    hide Recurs, PriorBill, Manifest, Latest, BatchesMove, IntakesMove;
    var d := Latest(s.decisions, b, e);
    assert CandidateFacts(m, s, b, e).decision == d && CandidateFacts(m, t, b, e).decision == Latest(t.decisions, b, e);
    hide CandidateFacts;
    assert ExtractionMoves(s.extractions[e], t.extractions[e]);
    SameFacts(m, s, t, b, e);
    PriorBillIsLive(m, s, b, e);
    PriorBillIsLive(m, t, b, e);
    var p := PriorBill(m, s, b, e);
    if p.Some? {
      assert BillMoves(s.bills[p.value], t.bills[p.value]);
      SameBill(s.bills[p.value], t.bills[p.value]);
    }
  }

  lemma ApprovalsUnchanged(s: Db, t: Db, b: Id)
    requires Evolves(s, t) && b in s.batches && b in t.batches && ApprovedTable(s, b) == ApprovedTable(t, b)
    ensures PriorApproved(t, b) == PriorApproved(s, b)
    ensures forall x :: x in PriorApproved(s, b) ==> x in t.extractions && t.extractions[x] == s.extractions[x]
  {
    assert PriorApproved(s, b) == ApprovedTable(s, b).Keys && PriorApproved(t, b) == ApprovedTable(t, b).Keys;
    hide BatchesMove, BillsMove, IntakesMove, PriorActive;
    forall x | x in PriorApproved(s, b) ensures x in t.extractions && t.extractions[x] == s.extractions[x] {
      assert x in s.extractions && ApprovedTable(s, b)[x] == s.extractions[x].version;
      assert ExtractionMoves(s.extractions[x], t.extractions[x]);
    }
  }

  /** A database that evolved from a previewed one and has the same vector has the same preview. */
  lemma SameVectorSamePreview(m: Mapping, s: Db, t: Db, b: Id)
    requires Evolves(s, t) && b in s.batches && b in t.batches && ActivationVector(m, s, b) == ActivationVector(m, t, b)
    ensures SamePreview(m, s, t, b)
  {
    hide SameCandidate, HeadOf, PriorActive, PriorApproved, ExtractionsMove, BillsMove, IntakesMove, Members;
    hide ActivationVector, ApprovedTable;
    VectorDetermines(m, s, t, b);
    ApprovalsUnchanged(s, t, b);
    assert BatchMoves(s.batches[b], t.batches[b]);
    assert HeadTable(m, s, b).Keys == Members(s.extractions, b) && HeadTable(m, t, b).Keys == Members(t.extractions, b);
    forall e | e in Members(s.extractions, b) ensures SameCandidate(m, s, t, b, e) {
      MemberExists(s, b, e);
      MemberExists(t, b, e);
      assert HeadTable(m, s, b)[e] == HeadTable(m, t, b)[e];
      CandidateUnchanged(m, s, t, b, e);
    }
    var a := PriorActive(s, b);
    if a.Some? {
      ActiveExists(s, b);
      assert BatchMoves(s.batches[a.value], t.batches[a.value]);
    }
  }

  lemma MemberExists(s: Db, b: Id, e: Id)
    requires e in Members(s.extractions, b)
    ensures e in s.extractions
  {
  }

  lemma ActiveExists(s: Db, b: Id)
    requires b in s.batches && PriorActive(s, b).Some?
    ensures PriorActive(s, b).value in s.batches
  {
  }

  lemma ActivatedVector(m: Mapping, t: Db, q: Activation)
    requires Review.Activate(m, t, q).Ok?
    ensures q.batch in t.batches && q.vector == ActivationVector(m, t, q.batch)
  {
    hide CohortFaults, ActivationVector, SourceIsCurrent, With, Members, RetirePrior, PublishCohort;
    hide InsertVerified, RecordAll, BillIdsDrawn;
    assert ActivationGuard(m, t, q).None?;
  }

  /**
    What is activated is what was previewed: after any steps since the preview,
    an activation that carries the previewed vector and succeeds finds the same
    batch, candidates, latest decisions, manifests, prior authority and prior
    payment state.
  */
  lemma PreviewedIsActivated(
    m: Mapping, s: Db, b: Id, approved: seq<(Id, nat)>, candidates: seq<(Id, CandidateHead)>, steps: seq<Step>,
      q: Activation)
    requires Inv(s) && b in s.batches
    requires Enumerates(approved, ApprovedTable(s, b)) && Enumerates(candidates, HeadTable(m, s, b))
    requires q.batch == b && q.vector == VectorOfRows(s, b, approved, candidates)
    requires Review.Activate(m, Run(m, s, steps), q).Ok?
    ensures b in Run(m, s, steps).batches && SamePreview(m, s, Run(m, s, steps), b)
  {
    hide Run, Inv, Evolves, Review.Activate, ActivationVector, SamePreview, ApprovedTable, HeadTable;
    hide VectorOfRows, Enumerates;
    var t := Run(m, s, steps);
    ActivatedVector(m, t, q);
    Traces.RunKeeps(m, s, steps);
    VectorIgnoresOrder(m, s, b, approved, candidates);
    SameVectorSamePreview(m, s, t, b);
  }

  lemma SamePreviewSameCohort(m: Mapping, s: Db, t: Db, b: Id, action: Action)
    requires b in s.batches && b in t.batches && SamePreview(m, s, t, b)
    ensures With(t, b, action) == With(s, b, action)
  {
    hide Members, Latest, CandidateFacts, Manifest, PriorBill, PriorActive, PriorApproved;
  }

  /** The approvals of the document after such an activation are the candidates previewed as included. */
  lemma PublishesThePreview(
    m: Mapping, s: Db, b: Id, approved: seq<(Id, nat)>, candidates: seq<(Id, CandidateHead)>, steps: seq<Step>,
      q: Activation)
    requires Inv(s) && b in s.batches
    requires Enumerates(approved, ApprovedTable(s, b)) && Enumerates(candidates, HeadTable(m, s, b))
    requires q.batch == b && q.vector == VectorOfRows(s, b, approved, candidates)
    requires Review.Activate(m, Run(m, s, steps), q).Ok?
    ensures var u := Review.Activate(m, Run(m, s, steps), q).value;
      forall x :: x in u.extractions ==>
        (u.extractions[x].status == Approved && u.extractions[x].content.document == s.batches[b].identity.document
         <==> x in With(s, b, Include))
  {
    hide Inv, Evolves, Review.Activate, SameCandidate, ApprovedTable, HeadTable, VectorOfRows, Enumerates;
    hide With, Run, Members, PriorApproved;
    PreviewedIsActivated(m, s, b, approved, candidates, steps, q);
    Traces.RunKeeps(m, s, steps);
    ActivationTheorems.ApprovedIsIncluded(m, Run(m, s, steps), q);
    SamePreviewSameCohort(m, s, Run(m, s, steps), b, Include);
  }

  lemma IncludedRows(m: Mapping, s: Db, t: Db, b: Id, e: Id)
    requires b in s.batches && b in t.batches && SamePreview(m, s, t, b) && e in With(s, b, Include)
    ensures e in Members(s.extractions, b) && SameCandidate(m, s, t, b, e)
  {
    hide Members, Latest, SameCandidate, PriorActive, PriorApproved;
  }

  lemma SamePreviewSameItems(m: Mapping, s: Db, t: Db, b: Id, e: Id)
    requires b in s.batches && b in t.batches && SamePreview(m, s, t, b) && e in FinancialItems(s, b)
    ensures e in FinancialItems(t, b) && SameCandidate(m, s, t, b, e)
  {
    hide With, SamePreview;
    SamePreviewSameCohort(m, s, t, b, Include);
    IncludedRows(m, s, t, b, e);
    hide Latest, CandidateFacts, Manifest, PriorBill;
  }

  /**
    Each financial candidate previewed as included has exactly one verified row
    afterwards, which counts and holds exactly the values of the preview.
  */
  lemma PublishesPreviewedValues(
    m: Mapping, s: Db, b: Id, approved: seq<(Id, nat)>, candidates: seq<(Id, CandidateHead)>, steps: seq<Step>,
      q: Activation, e: Id)
    requires Inv(s) && b in s.batches
    requires Enumerates(approved, ApprovedTable(s, b)) && Enumerates(candidates, HeadTable(m, s, b))
    requires q.batch == b && q.vector == VectorOfRows(s, b, approved, candidates)
    requires Review.Activate(m, Run(m, s, steps), q).Ok? && e in FinancialItems(s, b)
    ensures e in s.extractions && CandidateFacts(m, s, b, e).values.Some?
    ensures var u := Review.Activate(m, Run(m, s, steps), q).value;
      && (exists v :: v in u.verified && u.verified[v].extraction == e)
      && forall v :: v in u.verified && u.verified[v].extraction == e ==>
           IsAuthoritative(u, v) && u.verified[v].values == CandidateFacts(m, s, b, e).values.value
  {
    hide Inv, Evolves, Review.Activate, ApprovedTable, HeadTable, VectorOfRows, Enumerates, FinancialItems;
    hide Run, Members, CandidateFacts, IsAuthoritative, PriorApproved, PriorActive, PriorBill, Latest;
    hide Manifest;
    var t := Run(m, s, steps);
    PreviewedIsActivated(m, s, b, approved, candidates, steps, q);
    Traces.RunKeeps(m, s, steps);
    SamePreviewSameItems(m, s, t, b, e);
    ActivationTheorems.ValuesPublished(m, t, q, e);
    ActivationTheorems.AuthorityIsIncluded(m, t, q);
    OneRowEach(m, t, q);
  }

  lemma OneRowEach(m: Mapping, t: Db, q: Activation)
    requires Inv(t) && Review.Activate(m, t, q).Ok?
    ensures var u := Review.Activate(m, t, q).value;
      forall v, w :: v in u.verified && w in u.verified && u.verified[v].extraction == u.verified[w].extraction ==>
        v == w
  {
    ActivationTheorems.ActivatedFacts(m, t, q);
    hide Inv, Review.Activate, HasVerified, MemberInv;
  }

  // ------------------------------------------------------------ payment between preview and activation

  lemma ChangedBillChangesVector(m: Mapping, s: Db, u: Db, b: Id, e: Id, x: Id)
    requires Evolves(s, u) && b in s.batches && e in Members(s.extractions, b) && PriorBill(m, s, b, e) == Some(x)
    requires x in u.bills && u.bills[x] != s.bills[x]
    ensures b in u.batches && ActivationVector(m, u, b) != ActivationVector(m, s, b)
  {
    hide PriorBill, ActivationVector, Members, CandidateFacts, Latest, Manifest, PriorActive, PriorApproved;
    assert b in u.batches;
    if ActivationVector(m, u, b) == ActivationVector(m, s, b) {
      SameVectorSamePreview(m, s, u, b);
      assert false;
    }
  }

  /** A payment recorded on a bill that the preview carries over invalidates the previewed vector for good. */
  lemma PaymentForcesConflict(
    m: Mapping, s: Db, b: Id, e: Id, before: seq<Step>, x: Id, actor: string, paidAt: Time, after: seq<Step>)
    requires Inv(s) && b in s.batches && e in Members(s.extractions, b) && PriorBill(m, s, b, e) == Some(x)
    requires var t := Run(m, s, before); x in t.bills && Next(m, t, Step.MarkPaid(x, actor, paidAt)) != t
    ensures var u := Run(m, Next(m, Run(m, s, before), Step.MarkPaid(x, actor, paidAt)), after);
      b in u.batches && ActivationVector(m, u, b) != ActivationVector(m, s, b)
  {
    var t := Run(m, s, before);
    var t' := Next(m, t, Step.MarkPaid(x, actor, paidAt));
    PaymentChangesBill(m, t, x, actor, paidAt);
    hide Inv, PriorBill, Next, ActivationVector, Members, ExtractionsMove, BatchesMove, BillsMove;
    hide IntakesMove, Grows, Run;
    var u := Run(m, t', after);
    Traces.RunKeeps(m, s, before);
    Traces.StepKeeps(m, t, Step.MarkPaid(x, actor, paidAt));
    Traces.RunKeeps(m, t', after);
    BillNeverReturns(s, t, t', u, b, x);
    EvolvesTransitive(s, t, t');
    EvolvesTransitive(s, t', u);
    ChangedBillChangesVector(m, s, u, b, e, x);
  }

  /** Whoever carries a vector other than the current one is refused. */
  lemma OtherVectorRefused(m: Mapping, u: Db, q: Activation)
    requires q.batch in u.batches && q.vector != ActivationVector(m, u, q.batch)
    ensures Review.Activate(m, u, q).Err?
  {
    hide CohortFaults, ActivationVector, SourceIsCurrent, With, Members;
  }

  lemma PaymentChangesBill(m: Mapping, t: Db, x: Id, actor: string, paidAt: Time)
    requires x in t.bills && Next(m, t, Step.MarkPaid(x, actor, paidAt)) != t
    ensures var t' := Next(m, t, Step.MarkPaid(x, actor, paidAt)); x in t'.bills && t'.bills[x] != t.bills[x]
  {
    hide Apply, Billing.MarkPaid;
    MarkPaidIsApplied(m, t, x, actor, paidAt);
    if Billing.MarkPaid(t, x, actor, paidAt).Ok? { PaymentWrites(t, x, actor, paidAt); }
  }

  lemma MarkPaidIsApplied(m: Mapping, t: Db, x: Id, actor: string, paidAt: Time)
    ensures Apply(m, t, Step.MarkPaid(x, actor, paidAt)) == Billing.MarkPaid(t, x, actor, paidAt)
  {
    hide Billing.MarkPaid;
  }

  lemma PaymentWrites(t: Db, x: Id, actor: string, paidAt: Time)
    requires x in t.bills && Billing.MarkPaid(t, x, actor, paidAt).Ok?
    ensures var t' := Billing.MarkPaid(t, x, actor, paidAt).value;
      x in t'.bills && (t'.bills[x] == t.bills[x] ==> t' == t)
  {
    hide BillCarriesAuthority, Strip, Live, IsAuthoritative;
    var t' := Billing.MarkPaid(t, x, actor, paidAt).value;
    assert t' == t.(bills := t.bills[x := t'.bills[x]]);
    hide Billing.MarkPaid;
    assert t.bills[x := t.bills[x]] == t.bills;
  }

  lemma BillNeverReturns(s: Db, t: Db, t': Db, u: Db, b: Id, x: Id)
    requires BillsMove(s.bills, t.bills) && BillsMove(t.bills, t'.bills) && BillsMove(t'.bills, u.bills)
    requires x in s.bills && x in t.bills && x in t'.bills && t'.bills[x] != t.bills[x]
    ensures x in u.bills && u.bills[x] != s.bills[x]
  {
    assert BillMoves(s.bills[x], t.bills[x]) && BillMoves(t.bills[x], t'.bills[x])
      && BillMoves(t'.bills[x], u.bills[x]);
  }
}
