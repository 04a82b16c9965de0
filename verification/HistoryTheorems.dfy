/** Histories: decision chains, optimistic versions, extraction lives and intake paths. */
module HistoryTheorems {
  import opened Basics
  import opened Model
  import opened Authority
  import opened AuthorityTheorems
  import opened Invariant
  import opened Protocol
  import opened Review
  import opened Sources
  import ActivationProofs
  import ActivationTheorems
  import Billing
  import BillingProofs
  import CohortProofs
  import DecisionProofs
  import Legacy
  import LegacyProofs
  import RejectionProofs
  import opened Text
  import Traces

  // ------------------------------------------------------------ decision chains

  ghost predicate IsRevision(decisions: map<Id, Decision>, e: Id, k: nat, d: Id) {
    d in decisions && decisions[d].extraction == e && decisions[d].revision == k
  }

  ghost predicate HasRevision(decisions: map<Id, Decision>, e: Id, k: nat) {
    exists d :: IsRevision(decisions, e, k, d)
  }

  /** Below every revision there is a complete chain back to the first. */
  lemma {:induction false} RevisionsBelow(
    decisions: map<Id, Decision>, extractions: map<Id, Extraction>, e: Id, n: nat, d: Id, k: nat)
    requires DecisionInv(decisions, extractions) && IsRevision(decisions, e, n, d) && 1 <= k <= n
    ensures HasRevision(decisions, e, k)
    decreases n
  {
    if k < n {
      assert DecisionLinked(decisions, d);
      RevisionsBelow(decisions, extractions, e, n - 1, decisions[d].supersedes.value, k);
    }
  }

  /** The decisions of a candidate carry exactly the revisions 1 to n, each once and each linked to the one before. */
  ghost predicate LinearChain(decisions: map<Id, Decision>, e: Id, n: nat) {
    && (forall k :: 1 <= k <= n ==> HasRevision(decisions, e, k))
    && (forall d :: d in decisions && decisions[d].extraction == e ==>
         1 <= decisions[d].revision <= n && DecisionLinked(decisions, d))
    && (forall c, d :: c in decisions && d in decisions && decisions[c].extraction == e && decisions[d].extraction == e
          && decisions[c].revision == decisions[d].revision
          ==> c == d)
  }

  lemma ChainOf(decisions: map<Id, Decision>, extractions: map<Id, Extraction>, e: Id) returns (n: nat)
    requires DecisionInv(decisions, extractions)
    ensures LinearChain(decisions, e, n)
  {
    var ids := set d | d in decisions && decisions[d].extraction == e;
    n := 0;
    if ids != {} {
      var top := DecisionProofs.HighestRevision(decisions, ids);
      n := decisions[top].revision;
      forall k | 1 <= k <= n ensures HasRevision(decisions, e, k) {
        RevisionsBelow(decisions, extractions, e, n, top, k);
      }
    }
    assert forall d :: d in decisions && decisions[d].extraction == e ==> d in ids;
  }

  lemma DecisionsAreChains(m: Mapping, s: Db, e: Id) returns (n: nat)
    requires Traces.Reachable(m, s)
    ensures LinearChain(s.decisions, e, n)
  {
    hide Traces.Reachable;
    Traces.ReachableInv(m, s);
    hide ReviewInv, DecisionInv, ReadyInv, VerifiedInv, BillInv, DocumentInv, SourceInv, BatchSourceInv, LinearChain;
    n := ChainOf(s.decisions, s.extractions, e);
  }

  lemma DecidedGrows(p: map<Id, Decision>, q: map<Id, Decision>, b: Id)
    requires Grows(p, q)
    ensures Decided(p, b) <= Decided(q, b)
  {
    forall e | e in Decided(p, b) ensures e in Decided(q, b) {
      var d :| d in p && p[d].batch == b && p[d].extraction == e;
      assert q[d] == p[d];
    }
  }

  lemma MembersStay(s: Db, t: Db, b: Id)
    requires Evolves(s, t)
    ensures Members(s.extractions, b) <= Members(t.extractions, b)
  {
    hide BatchesMove, BillsMove, IntakesMove;
  }

  lemma StillReady(s: Db, t: Db, b: Id)
    requires Inv(s) && Inv(t) && Evolves(s, t) && b in s.batches && s.batches[b].lifecycle == ReadyToActivate
    requires Decided(t.decisions, b) <= Members(t.extractions, b) && Decided(s.decisions, b) <= Decided(t.decisions, b)
    requires Members(s.extractions, b) == Members(t.extractions, b)
    ensures b in t.batches && (Reviewable(t.batches[b].lifecycle) ==> t.batches[b].lifecycle == ReadyToActivate)
  {
    hide StatusInv, MemberInv, CountInv, OneActive, AuthorityInv, SettledInv, EvidenceInv, VerifiedInv;
    hide BillInv, DocumentInv, SourceInv, BatchSourceInv, DecisionInv;
    hide ExtractionsMove, BillsMove, IntakesMove, Decided, Members, Grows;
  }

  lemma MembersSame(s: Db, t: Db, b: Id)
    requires Inv(s) && Inv(t) && Evolves(s, t) && b in s.batches
    ensures Members(s.extractions, b) == Members(t.extractions, b)
  {
    hide StatusInv, MemberInv, OneActive, AuthorityInv, SettledInv, EvidenceInv, VerifiedInv, BillInv;
    hide DocumentInv, SourceInv, BatchSourceInv, DecisionInv, ReadyInv;
    hide ExtractionsMove, BillsMove, IntakesMove, Members, Grows;
    MembersStay(s, t, b);
    DecisionProofs.FullWhenCounted(Members(s.extractions, b), Members(t.extractions, b));
  }

  /** A batch that is ready stays ready for as long as it is under review, and its decisions are only added to. */
  lemma ReadyStays(m: Mapping, s: Db, steps: seq<Step>, b: Id)
    requires Inv(s) && b in s.batches && s.batches[b].lifecycle == ReadyToActivate
    ensures var t := Run(m, s, steps);
      && Grows(s.decisions, t.decisions)
      && b in t.batches && (Reviewable(t.batches[b].lifecycle) ==> t.batches[b].lifecycle == ReadyToActivate)
  {
    var t := Run(m, s, steps);
    Traces.RunKeeps(m, s, steps);
    hide ReviewInv, VerifiedInv, BillInv, DocumentInv, SourceInv, BatchSourceInv, ReadyInv, DecisionInv;
    hide ExtractionsMove, BatchesMove, BillsMove, IntakesMove, Run, Decided, Members, Grows;
    DecidedGrows(s.decisions, t.decisions, b);
    DecisionProofs.DecidedIsMember(t.decisions, t.extractions, b);
    MembersSame(s, t, b);
    StillReady(s, t, b);
  }

  // ------------------------------------------------------------ extraction lives

  /** From any state on, an extraction keeps its content, changes at most twice and never leaves a final status. */
  lemma ExtractionLife(m: Mapping, s: Db, steps: seq<Step>, x: Id)
    requires Inv(s) && x in s.extractions
    ensures var t := Run(m, s, steps);
      && x in t.extractions && t.extractions[x].content == s.extractions[x].content
      && (t.extractions[x] == s.extractions[x] || t.extractions[x].version > s.extractions[x].version)
      && 1 <= t.extractions[x].version <= 3 && (t.extractions[x].status == Pending <==> t.extractions[x].version == 1)
      && (s.extractions[x].status == Rejected || s.extractions[x].status == Superseded ==>
           t.extractions[x] == s.extractions[x])
      && (s.extractions[x].status == Approved ==>
           t.extractions[x] == s.extractions[x] || t.extractions[x].status == Superseded)
  {
    hide Run, Inv, BatchesMove, BillsMove, IntakesMove;
    var t := Run(m, s, steps);
    Traces.RunKeeps(m, s, steps);
    HasStatusInv(t);
    assert ExtractionMoves(s.extractions[x], t.extractions[x]);
  }

  lemma HasStatusInv(s: Db)
    requires Inv(s)
    ensures StatusInv(s.extractions)
  {
    hide StatusInv;
  }

  // ------------------------------------------------------------ optimistic versions

  /** A row and the version a request expects of it. */
  datatype Expectation = OfBatch(batch: Id, v: int) | OfIntake(intake: Id, v: int) | OfExtraction(extraction: Id,
    v: int)

  function Expects(step: Step): Option<Expectation> {
    match step
    case ApplyDecisions(b, v, _, _) => Some(OfBatch(b, v))
    case RejectBatch(b, v, _, _, _) => Some(OfBatch(b, v))
    case Activate(q) => Some(OfBatch(q.batch, q.expectedVersion))
    case MoveIntake(i, v, _, _) => Some(OfIntake(i, v))
    case Approve(q) => Some(OfExtraction(q.extraction, q.expectedVersion))
    case _ => None
  }

  /** The version the database holds for the row of an expectation. */
  function Held(s: Db, x: Expectation): Option<nat> {
    match x
    case OfBatch(b, _) => if b in s.batches then Some(s.batches[b].version) else None
    case OfIntake(i, _) => if i in s.intakes then Some(s.intakes[i].version) else None
    case OfExtraction(e, _) => if e in s.extractions then Some(s.extractions[e].version) else None
  }

  lemma HeldGrows(s: Db, t: Db, x: Expectation)
    requires Evolves(s, t) && Held(s, x).Some?
    ensures Held(t, x).Some? && Held(s, x).value <= Held(t, x).value
  {
    hide BillsMove;
  }

  lemma ActivateExpects(m: Mapping, s: Db, q: Activation)
    requires Inv(s) && Review.Activate(m, s, q).Ok?
    ensures q.batch in s.batches && s.batches[q.batch].version == q.expectedVersion
    ensures var t := Review.Activate(m, s, q).value;
      q.batch in t.batches && t.batches[q.batch].version == q.expectedVersion + 1
  {
    assert q.batch in s.batches && s.batches[q.batch].version == q.expectedVersion by {
      assert ActivationGuard(m, s, q).None?;
      hide SourceIsCurrent, ActivationVector, CohortFaults, Inv, With, Members, Review.Activate;
    }
    hide ActivationGuard, Inv, Review.Activate, RetirePrior, PublishCohort, EvidenceConstraints;
    ActivationTheorems.ActivatedTables(m, s, q);
    ActivationProofs.PublishedBatch(m, s, q);
    ActivationProofs.VacantBefore(m, s, q);
  }

  lemma ApproveExpects(m: Mapping, s: Db, q: Legacy.Promotion)
    requires Inv(s) && Legacy.ApproveExtraction(m, s, q).Ok?
    ensures q.extraction in s.extractions && s.extractions[q.extraction].version == q.expectedVersion
    ensures var t := Legacy.ApproveExtraction(m, s, q).value;
      q.extraction in t.extractions && t.extractions[q.extraction].version == q.expectedVersion + 1
  {
    hide Inv, Strip;
    var t := Legacy.Promote(m, s, q).value;
    assert q.extraction in t.extractions && t.extractions[q.extraction].version == q.expectedVersion + 1;
    if q.bill.Some? {
      LegacyProofs.PromoteKeeps(m, s, q);
      var projection := m.projection(s.extractions[q.extraction].content.payload, q.corrections);
      hide Legacy.Promote;
      BillKeepsExtractions(t,
        Billing.NewBill(q.bill.value.0, q.bill.value.1, q.verified, projection.value, Strip(q.reviewer), q.now));
    }
  }

  lemma BillKeepsExtractions(s: Db, q: Billing.NewBill)
    requires Inv(s) && Billing.RecordBill(s, q).Ok?
    ensures Billing.RecordBill(s, q).value.0.extractions == s.extractions
  {
    hide Billing.RecordBill, ReviewInv, DecisionInv, ReadyInv, VerifiedInv, BillInv, DocumentInv, SourceInv;
    hide BatchSourceInv;
    BillingProofs.RecordBillTables(s, q);
  }

  lemma DecisionsExpect(m: Mapping, s: Db, step: Step)
    requires step.ApplyDecisions? && Succeeds(m, s, step)
    ensures Held(s, Expects(step).value) == Some(step.expectedVersion)
    ensures Held(Apply(m, s, step).value, Expects(step).value) == Some(step.expectedVersion + 1)
  {
    hide Review.ApplyDecisions, StageAll, Decided, FirstTimers, Members;
    DecisionProofs.ApplyDecisionsShape(m, s, step.batch, step.expectedVersion, step.drafts, step.actor);
  }

  lemma RejectionExpects(m: Mapping, s: Db, step: Step)
    requires step.RejectBatch? && Succeeds(m, s, step)
    ensures Held(s, Expects(step).value) == Some(step.expectedVersion)
    ensures Held(Apply(m, s, step).value, Expects(step).value) == Some(step.expectedVersion + 1)
  {
    hide SourceIsCurrent, PriorActive, PriorApproved, Strip, Bounded, RejectedDb;
    assert Apply(m, s, step)
      == Review.RejectBatch(s, step.batch, step.expectedVersion, step.actor, step.reason, step.now);
    RejectionProofs.RejectShape(s, step.batch, step.expectedVersion, step.actor, step.reason, step.now);
    hide Apply, RejectionProofs.Rejects;
  }

  lemma MoveExpects(m: Mapping, s: Db, step: Step)
    requires step.MoveIntake? && Succeeds(m, s, step)
    ensures Held(s, Expects(step).value) == Some(step.expectedVersion)
    ensures Held(Apply(m, s, step).value, Expects(step).value) == Some(step.expectedVersion + 1)
  {
    hide Edge, Strip;
  }

  /** A request succeeds only at the version it expects and raises that version by one. */
  lemma SuccessRaisesVersion(m: Mapping, s: Db, step: Step)
    requires Inv(s) && Succeeds(m, s, step) && Expects(step).Some?
    ensures Held(s, Expects(step).value).Some? && Held(s, Expects(step).value).value == Expects(step).value.v
    ensures Held(Next(m, s, step), Expects(step).value) == Some(Expects(step).value.v + 1)
  {
    hide Inv, Apply, Review.Activate, Legacy.ApproveExtraction;
    match step
    case Activate(q) => ActivateIsApplied(m, s, step); ActivateExpects(m, s, q);
    case Approve(q) => ApproveIsApplied(m, s, step); ApproveExpects(m, s, q);
    case ApplyDecisions(_, _, _, _) => DecisionsExpect(m, s, step);
    case RejectBatch(_, _, _, _, _) => RejectionExpects(m, s, step);
    case MoveIntake(_, _, _, _) => MoveExpects(m, s, step);
  }

  /** Among requests that expect the same version of the same row, at most one succeeds, whatever happens in between. */
  lemma SameVersionOnce(m: Mapping, s: Db, first: Step, between: seq<Step>, second: Step)
    requires Inv(s) && Expects(first).Some? && Expects(first) == Expects(second)
    requires Succeeds(m, s, first)
    ensures !Succeeds(m, Run(m, Next(m, s, first), between), second)
  {
    hide Inv, Evolves, Run, Apply;
    var x := Expects(first).value;
    var t := Next(m, s, first);
    var u := Run(m, t, between);
    SuccessRaisesVersion(m, s, first);
    Traces.StepKeeps(m, s, first);
    Traces.RunKeeps(m, t, between);
    HeldGrows(t, u, x);
    if Succeeds(m, u, second) {
      SuccessRaisesVersion(m, u, second);
      assert false;
    }
  }

  lemma SwitchBumps(p: map<Id, Batch>, q: map<Id, Batch>, r: map<Id, Batch>, b: Id, document: Id)
    requires CohortProofs.RetiresActive(p, q, document) && ActivationProofs.Activates(q, r, b) && q[b] == p[b]
    ensures forall a :: a in p ==> a in r && (r[a] == p[a] || r[a].version == p[a].version + 1)
  {
    hide EvidenceConstraints;
  }

  lemma ActivateBumps(m: Mapping, s: Db, q: Activation)
    requires Inv(s) && Review.Activate(m, s, q).Ok?
    ensures var t := Review.Activate(m, s, q).value;
      forall b :: b in s.batches ==>
        b in t.batches && (t.batches[b] == s.batches[b] || t.batches[b].version == s.batches[b].version + 1)
  {
    hide ActivationGuard, Inv, Review.Activate, RetirePrior, PublishCohort, CohortProofs.RetiresApproved;
    hide CohortProofs.Vacant;
    hide CohortProofs.RetiresActive, ActivationProofs.Activates;
    ActivationTheorems.ActivatedTables(m, s, q);
    ActivationProofs.PassedGuard(m, s, q);
    ActivationProofs.PublishedBatch(m, s, q);
    ActivationProofs.VacantBefore(m, s, q);
    CohortProofs.RetireShape(s, q.batch, Strip(q.actor), q.now);
    SwitchBumps(s.batches, ActivationProofs.AfterRetire(m, s, q).batches, Review.Activate(m, s, q).value.batches,
      q.batch, s.batches[q.batch].identity.document);
  }

  /** Every call leaves a batch alone or raises its version by exactly one. */
  lemma BatchBumps(m: Mapping, s: Db, step: Step, b: Id)
    requires Inv(s) && b in s.batches
    ensures var t := Next(m, s, step);
      b in t.batches && (t.batches[b] == s.batches[b] || t.batches[b].version == s.batches[b].version + 1)
  {
    hide Inv, Apply, Review.Activate, Legacy.ApproveExtraction;
    if Succeeds(m, s, step) {
      if step.Activate? {
        ActivateIsApplied(m, s, step);
        ActivateBumps(m, s, step.activation);
      } else if step.Approve? {
        ApproveIsApplied(m, s, step);
        ApprovalKeepsBatches(m, s, step.promotion);
      } else {
        AuthorityUntouched(m, s, step);
      }
    }
  }
}
