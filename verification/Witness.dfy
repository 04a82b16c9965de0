/**
  A run of three calls that leaves two recurring bills of one new issuer under
  review.  The second bill names the issuer with a kind of its own, and whether
  the activation succeeds depends on that kind alone.
*/
module Witness {
  import opened Basics
  import opened Model
  import opened Authority
  import opened Billing
  import opened CohortProofs
  import opened Invariant
  import opened Review
  import opened Text
  import ActivationTheorems
  import CohortBills
  import Protocol
  import Sources
  import Traces

  const OTHER_KIND: Corrections := map["issuer_kind" := "other"]

  /** The corrections of the second bill give it another period, and this kind. */
  function Claims(kind: IssuerKind): Mapping {
    Mapping((p, c) => Some(Values(1.0, map[])),
            (p, c) => Some(if c == map[] then Projection("Tepco", Electric, 0, None, None)
              else Projection("Tepco", kind, 1, None, None)))
  }

  // ------------------------------------------------------------ the run

  const IDENTITY := BatchIdentity(0, 0, 0, 1, "sha", "key", 2, 2, 0, "digest")

  const UPLOADED := Db(
    map[0 := Uploaded], map[0 := SourceFile(0, 1, Original, "sha")], map[0 := Intake(0, 0, 1, "sha", Processing, 1)],
    map[], map[], map[], map[], map[], map[], map[])

  function Candidate(ordinal: nat, key: string): Extraction {
    Extraction(ExtractionContent(0, 0, 1, Some(Lineage(0, ordinal, key, Financial, Some(RecurringBill))), map[]),
      Pending, 1, None, None, None)
  }

  const STORED := UPLOADED.(
    intakes := map[0 := Intake(0, 0, 1, "sha", Processed, 2)],
    batches := map[0 := Batch(IDENTITY, Open, 1, None, None, None, None, None, false, false)],
    extractions := map[0 := Candidate(1, "a"), 1 := Candidate(2, "b")])

  function Included(e: Id, corrections: Option<Corrections>): Decision {
    Decision(0, e, 1, 1, None, Include, corrections, None, None, "ann")
  }

  const REVIEWED := STORED.(
    batches := map[0 := Batch(IDENTITY, ReadyToActivate, 2, None, None, None, None, None, false, false)],
    decisions := map[0 := Included(0, None), 1 := Included(1, Some(OTHER_KIND))])

  const DRAFTS: seq<Draft> := [
    Draft(0, 0, 1, 0, Include, None, None, None), Draft(1, 1, 1, 0, Include, Some(OTHER_KIND), None, None)]

  const CANDIDATES: seq<Sources.CandidateDraft> := [
    Sources.CandidateDraft(0, 1, "a", Financial, Some(RecurringBill), map[]),
    Sources.CandidateDraft(1, 2, "b", Financial, Some(RecurringBill), map[])]

  const STEPS: seq<Protocol.Step> := [
    Protocol.CreateDocument(0, 0, 0, "sha", Processing),
    Protocol.AddBatch(Sources.NewBatch(0, IDENTITY, true, CANDIDATES)),
    Protocol.ApplyDecisions(0, 1, DRAFTS, "ann")]

  lemma BoundedName()
    ensures Bounded("ann", 255) && Strip("ann") == "ann"
  {
    assert StripLeft("ann") == "ann";
    assert StripRight("ann") == "ann";
  }

  lemma UploadSucceeds()
    ensures Sources.CreateDocument(EMPTY, 0, 0, 0, "sha", Processing) == Ok(UPLOADED)
  {
  }

  lemma CandidatesInserted(q: Sources.NewBatch)
    requires q == Sources.NewBatch(0, IDENTITY, true, CANDIDATES)
    ensures Sources.InsertCandidates(map[], q, CANDIDATES) == STORED.extractions
  {
    assert CANDIDATES[..1] == [CANDIDATES[0]] && CANDIDATES[..1][..0] == [];
    assert Sources.InsertCandidates(map[], q, CANDIDATES[..1]) == map[0 := Candidate(1, "a")];
  }

  lemma SourceNamed()
    ensures Sources.NamesCurrentSource(UPLOADED, IDENTITY)
  {
    assert IsLatestOriginal(UPLOADED.files, 0, 0);
  }

  lemma BatchSucceeds()
    ensures Sources.AddBatch(UPLOADED, Sources.NewBatch(0, IDENTITY, true, CANDIDATES)) == Ok(STORED)
  {
    var q := Sources.NewBatch(0, IDENTITY, true, CANDIDATES);
    SourceNamed();
    CandidatesInserted(q);
    hide Sources.NamesCurrentSource, Sources.InsertCandidates;
    assert forall b :: !Sources.HoldsKey(UPLOADED, IDENTITY, b);
    assert forall i :: 0 <= i < 2 ==> CANDIDATES[i].ordinal == i + 1;
    assert Sources.DraftsStorable(CANDIDATES);
    var t := Sources.AddBatch(UPLOADED, q).value;
    assert t.intakes == STORED.intakes && t.batches == STORED.batches;
  }

  lemma Accepts(kind: IssuerKind, x: Extraction, corrections: Option<Corrections>)
    requires x.content.lineage.Some? && x.content.lineage.value.kind == Financial
      && x.content.lineage.value.subtype == Some(RecurringBill)
    requires OrEmpty(corrections).Keys <= {"issuer_kind"}
    ensures DecisionAccepted(Claims(kind), x, Include, corrections, None, None)
  {
  }

  lemma StagesOne(kind: IssuerKind, staged: map<Id, Decision>, d: Draft, corrections: Option<Corrections>)
    requires d.extraction in STORED.extractions
      && d == Draft(d.extraction, d.extraction, 1, 0, Include, corrections, None, None)
    requires OrEmpty(corrections).Keys <= {"issuer_kind"}
    requires d.id !in staged && forall x :: x in staged ==> staged[x].extraction != d.extraction
    ensures StageOne(Claims(kind), STORED, 0, staged, d, "ann")
      == Ok(staged[d.id := Included(d.extraction, corrections)])
  {
    hide DecisionAccepted;
    Accepts(kind, STORED.extractions[d.extraction], corrections);
    assert Latest(staged, 0, d.extraction).None?;
  }

  lemma StagesBoth(kind: IssuerKind)
    ensures StageAll(Claims(kind), STORED, 0, DRAFTS, "ann") == Ok(REVIEWED.decisions)
  {
    hide StageOne;
    assert DRAFTS[..1] == [DRAFTS[0]] && DRAFTS[..1][..0] == [];
    StagesOne(kind, map[], DRAFTS[0], None);
    assert StageAll(Claims(kind), STORED, 0, DRAFTS[..1], "ann") == Ok(map[0 := Included(0, None)]);
    StagesOne(kind, map[0 := Included(0, None)], DRAFTS[1], Some(OTHER_KIND));
  }

  lemma BothMembers()
    ensures Members(STORED.extractions, 0) == {0, 1} && REVIEWED.extractions == STORED.extractions
  {
  }

  lemma NoneDecidedYet()
    ensures FirstTimers(DRAFTS) == 2 && Decided(STORED.decisions, 0) == {}
  {
    assert DRAFTS[..1] == [DRAFTS[0]] && DRAFTS[..1][..0] == [];
    assert FirstTimers(DRAFTS[..1]) == 1;
  }

  lemma DraftsNormal()
    ensures |DRAFTS| == 2 && DRAFTS[0].extraction == 0 && DRAFTS[1].extraction == 1
    ensures forall d :: d in DRAFTS ==> DraftNormal(d) && d.extraction in {0, 1}
  {
  }

  lemma DecisionsSucceed(kind: IssuerKind)
    ensures ApplyDecisions(Claims(kind), STORED, 0, 1, DRAFTS, "ann") == Ok(REVIEWED)
  {
    hide StageAll, Members, Bounded, Strip, FirstTimers, Decided, DraftNormal, DRAFTS;
    DraftsNormal();
    BoundedName();
    StagesBoth(kind);
    BothMembers();
    NoneDecidedYet();
    assert STORED.batches[0 := REVIEWED.batches[0]] == REVIEWED.batches;
  }

  lemma RunReaches(kind: IssuerKind)
    ensures Protocol.Run(Claims(kind), EMPTY, STEPS) == REVIEWED
  {
    var m := Claims(kind);
    UploadSucceeds();
    BatchSucceeds();
    DecisionsSucceed(kind);
    hide Sources.CreateDocument, Sources.AddBatch, ApplyDecisions;
    assert STEPS[..2][..1] == [STEPS[0]] && STEPS[..2][..1][..0] == [];
    assert Protocol.Run(m, EMPTY, STEPS[..2][..1]) == UPLOADED;
    assert Protocol.Run(m, EMPTY, STEPS[..2]) == STORED;
  }

  // ------------------------------------------------------------ the cohort under review

  function CorrectionsOf(e: Id): Option<Corrections> {
    if e == 0 then None else Some(OTHER_KIND)
  }

  function ClaimOf(kind: IssuerKind, e: Id): Projection {
    if e == 0 then Projection("Tepco", Electric, 0, None, None) else Projection("Tepco", kind, 1, None, None)
  }

  lemma LatestOf(e: Id)
    requires e in {0, 1}
    ensures Latest(REVIEWED.decisions, 0, e) == Some(e)
  {
    assert IsLatest(REVIEWED.decisions, 0, e, e);
  }

  lemma SourceIsFirst()
    ensures SourceIsCurrent(REVIEWED, 0)
  {
    assert IsLatestOriginal(REVIEWED.files, 0, 0);
  }

  lemma FactsOf(kind: IssuerKind, e: Id)
    requires e in {0, 1}
    ensures CandidateFacts(Claims(kind), REVIEWED, 0, e)
      == Facts(Some(e), Some(Values(1.0, map[])), Some(RecurringBill), Some(ClaimOf(kind, e)), [])
  {
    LatestOf(e);
    Accepts(kind, REVIEWED.extractions[e], CorrectionsOf(e));
    assert "issuer_kind" in OTHER_KIND && OTHER_KIND != map[];
    hide Latest, DecisionAccepted;
  }

  lemma NoConflicts(kind: IssuerKind, e: Id)
    requires e in {0, 1}
    ensures Clean(Claims(kind), REVIEWED, 0, e)
  {
    FactsOf(kind, 0);
    FactsOf(kind, 1);
    BothMembers();
    hide CandidateFacts;
    assert !ClaimedTwice(Claims(kind), REVIEWED, 0, e) by {
      assert forall f :: Recurs(Claims(kind), REVIEWED, 0, f) ==> f in Members(REVIEWED.extractions, 0);
    }
  }

  lemma CohortFaultless(kind: IssuerKind)
    ensures CohortFaults(Claims(kind), REVIEWED, 0) == []
  {
    hide CohortFaults, SourceIsCurrent, Members, Clean, Claims;
    SourceIsFirst();
    BothMembers();
    NoConflicts(kind, 0);
    NoConflicts(kind, 1);
    CohortClean(Claims(kind), REVIEWED, 0);
  }

  lemma BothIncluded()
    ensures With(REVIEWED, 0, Include) == {0, 1} && With(REVIEWED, 0, Exclude) == {}
  {
    LatestOf(0);
    LatestOf(1);
    BothMembers();
    hide Latest;
  }

  ghost function Request(kind: IssuerKind): Activation {
    Activation(0, 2, ActivationVector(Claims(kind), REVIEWED, 0), "ann", false, false, 1,
               Drawn(map[0 := 0, 1 := 1], map[0 := 0, 1 := 1], map[0 := 0, 1 := 1]))
  }

  lemma GuardOpens(m: Mapping, s: Db, q: Activation)
    requires Bounded(q.actor, 255) && q.expectedVersion >= 1 && q.batch in s.batches
    requires s.batches[q.batch].identity.document in s.documents
    requires s.batches[q.batch].version == q.expectedVersion && Reviewable(s.batches[q.batch].lifecycle)
    requires SourceIsCurrent(s, q.batch) && q.vector == ActivationVector(m, s, q.batch)
      && CohortFaults(m, s, q.batch) == []
    requires With(s, q.batch, Exclude) == {} && Members(s.extractions, q.batch) != {}
    ensures ActivationGuard(m, s, q).None?
  {
    hide ActivationVector, CohortFaults, SourceIsCurrent, With, Members, Bounded;
  }

  lemma BatchIsReady()
    ensures 0 in REVIEWED.batches && REVIEWED.batches[0].identity.document in REVIEWED.documents
    ensures REVIEWED.batches[0].version == 2 && REVIEWED.batches[0].lifecycle == ReadyToActivate
  {
  }

  lemma GuardPasses(kind: IssuerKind)
    ensures ActivationGuard(Claims(kind), REVIEWED, Request(kind)).None?
  {
    hide ActivationGuard, ActivationVector, CohortFaults, SourceIsCurrent, With, Members, Bounded, Strip;
    hide Claims, REVIEWED, STORED;
    BatchIsReady();
    SourceIsFirst();
    BothMembers();
    CohortFaultless(kind);
    BothIncluded();
    BoundedName();
    GuardOpens(Claims(kind), REVIEWED, Request(kind));
  }

  lemma BothFinancial()
    ensures forall e :: e in FinancialItems(REVIEWED, 0) <==> e in {0, 1}
  {
    BothIncluded();
    hide With;
  }

  lemma BothBills(kind: IssuerKind)
    ensures forall e :: e in BillItems(Claims(kind), REVIEWED, 0) <==> e in {0, 1}
  {
    BothFinancial();
    FactsOf(kind, 0);
    FactsOf(kind, 1);
    hide FinancialItems, CandidateFacts;
  }

  lemma IdsAreFresh(kind: IssuerKind)
    ensures CohortBills.FreshIds(Claims(kind), REVIEWED, Request(kind))
  {
    BothFinancial();
    BothBills(kind);
    hide FinancialItems, BillItems, ActivationVector;
  }

  lemma BillClaims(kind: IssuerKind, e: Id)
    ensures ActivationTheorems.ProjectsBill(Claims(kind), REVIEWED, 0, e) <==> e in {0, 1}
    ensures e in {0, 1} ==> ActivationTheorems.BillClaim(Claims(kind), REVIEWED, 0, e) == ClaimOf(kind, e)
  {
    hide BillItems, CandidateFacts;
    BothBills(kind);
    if e in {0, 1} { FactsOf(kind, e); }
  }

  lemma ConsistentWhenSameKind(kind: IssuerKind)
    ensures ActivationTheorems.ClaimsConsistent(Claims(kind), REVIEWED, 0) <==> kind == Electric
  {
    hide ActivationTheorems.ProjectsBill, ActivationTheorems.BillClaim;
    forall e ensures ActivationTheorems.ProjectsBill(Claims(kind), REVIEWED, 0, e) <==>
      e in {0, 1} { BillClaims(kind, e); }
    BillClaims(kind, 0);
    BillClaims(kind, 1);
  }

  /** What a caller sees before the activation: nothing is wrong, whatever the second kind. */
  ghost predicate LooksFine(m: Mapping, s: Db, q: Activation) {
    && Traces.Reachable(m, s) && Inv(s)
    && q.batch in s.batches && CohortFaults(m, s, q.batch) == []
    && ActivationGuard(m, s, q).None? && CohortBills.FreshIds(m, s, q)
  }

  lemma ActivatesWhenSameKind(kind: IssuerKind)
    ensures LooksFine(Claims(kind), REVIEWED, Request(kind))
    ensures Activate(Claims(kind), REVIEWED, Request(kind)).Ok? <==> kind == Electric
    ensures kind != Electric ==> Activate(Claims(kind), REVIEWED, Request(kind)) == Err(BillInvalid)
  {
    hide Inv, ActivationGuard, CohortBills.FreshIds, Activate, CohortFaults, Protocol.Run, ActivationVector;
    hide ActivationTheorems.ClaimsConsistent, ActivationTheorems.ProjectsBill;
    RunReaches(kind);
    Traces.ReachableInv(Claims(kind), REVIEWED);
    CohortFaultless(kind);
    GuardPasses(kind);
    IdsAreFresh(kind);
    ConsistentWhenSameKind(kind);
    ActivationTheorems.ActivateOutcome(Claims(kind), REVIEWED, Request(kind));
  }

  /** An activation that publishes two recurring bills of a new issuer succeeds. */
  lemma ActivationHappens() returns (m: Mapping, s: Db, q: Activation)
    ensures LooksFine(m, s, q) && Activate(m, s, q).Ok?
    ensures ActivationTheorems.ProjectsBill(m, s, q.batch, 0) && ActivationTheorems.ProjectsBill(m, s, q.batch, 1)
  {
    hide LooksFine, Activate, ActivationTheorems.ProjectsBill, ActivationTheorems.ClaimsConsistent, ActivationVector;
    m, s, q := Claims(Electric), REVIEWED, Request(Electric);
    ActivatesWhenSameKind(Electric);
    BillClaims(Electric, 0);
    BillClaims(Electric, 1);
  }

  /** An error-free preview whose activation fails: one new issuer name, two kinds, two periods. */
  lemma ActivationRefused() returns (m: Mapping, s: Db, q: Activation)
    ensures LooksFine(m, s, q) && Activate(m, s, q) == Err(BillInvalid)
  {
    hide LooksFine, Activate, ActivationVector;
    m, s, q := Claims(Gas), REVIEWED, Request(Gas);
    ActivatesWhenSameKind(Gas);
  }
}
