/**
  The repository methods as they work: they look rows up, change the tables in
  place and, on any error, leave them as the savepoint found them.  Each method
  is proved to do exactly what its specification function says.
*/
module Stores {
  import opened Basics
  import opened Model
  import opened Authority
  import opened Billing
  import opened Invariant
  import opened Queries
  import opened Review
  import opened RowOrder
  import opened Tables
  import opened Text
  import ActivationProofs
  import ActivationTheorems
  import BillingProofs
  import CohortBills
  import CohortProofs
  import DecisionProofs
  import Legacy
  import LegacyProofs
  import RejectionProofs
  import SourceProofs
  import Sources

  /** A call did what the specification says: it wrote the new database, or failed and wrote nothing. */
  ghost predicate Did(before: Db, after: Db, specified: Outcome<Db>, error: Option<Error>) {
    match specified
    case Ok(t) => error.None? && after == t
    case Err(e) => error == Some(e) && after == before
  }

  lemma {:induction false} StagingStops(m: Mapping, s: Db, b: Id, drafts: seq<Draft>, k: nat, actor: string)
    requires forall d :: d in drafts ==> d.extraction in s.extractions && DraftNormal(d)
    requires k <= |drafts| && (forall d :: d in drafts[..k] ==> d.extraction in s.extractions && DraftNormal(d))
      && StageAll(m, s, b, drafts[..k], actor).Err?
    ensures StageAll(m, s, b, drafts, actor) == StageAll(m, s, b, drafts[..k], actor)
    decreases |drafts|
  {
    hide StageOne, DraftNormal;
    if k == |drafts| {
      assert drafts[..k] == drafts;
    } else {
      var front := drafts[..|drafts| - 1];
      assert forall d :: d in front ==> d in drafts;
      assert front[..k] == drafts[..k];
      StagingStops(m, s, b, front, k, actor);
    }
  }

  /** Change the listed rows one after the other. */
  method UpdateRows<T>(table: map<Id, T>, ids: set<Id>, f: T -> T) returns (r: map<Id, T>)
    requires ids <= table.Keys
    ensures r == map x | x in table :: if x in ids then f(table[x]) else table[x]
  {
    r := table;
    var todo := ids;
    while todo != {}
      invariant todo <= ids && r.Keys == table.Keys
      invariant forall x :: x in table ==> r[x] == if x in ids && x !in todo then f(table[x]) else table[x]
      decreases todo
    {
      var x :| x in todo;
      todo := todo - {x};
      r := r[x := f(r[x])];
    }
  }

  lemma StagingInvs(s: Db)
    requires Inv(s)
    ensures StatusInv(s.extractions) && DecisionInv(s.decisions, s.extractions)
  {
    hide StatusInv, DecisionInv;
  }

  lemma DraftsNamed(s: Db, b: Id, expectedVersion: int, drafts: seq<Draft>, actor: string)
    requires DecisionsGuard(s, b, expectedVersion, drafts, actor).None?
    ensures b in s.batches
    ensures forall d :: d in drafts ==>
      d.extraction in s.extractions && InBatch(s.extractions[d.extraction], b) && DraftNormal(d)
  {
    hide Bounded, DraftNormal;
    forall d | d in drafts
      ensures d.extraction in s.extractions && InBatch(s.extractions[d.extraction], b) && DraftNormal(d)
    {
      assert d.extraction in Members(s.extractions, b);
    }
  }

  /** The split of the cohort and the exclusion reasons of its latest decisions. */
  ghost predicate ReasonsOf(s: Db, b: Id, included: set<Id>, excluded: set<Id>, reasons: map<Id, Option<string>>) {
    && included == With(s, b, Include) && excluded == With(s, b, Exclude) && included !! excluded
    && excluded <= reasons.Keys
    && forall e :: e in excluded ==>
         Latest(s.decisions, b, e).Some? && reasons[e] == s.decisions[Latest(s.decisions, b, e).value].reason
  }

  lemma PublishedMap(
    s: Db, s1: Db, q: Activation, included: set<Id>, excluded: set<Id>, reasons: map<Id, Option<string>>, actor: string)
    requires q.batch in s.batches && q.batch in s1.batches && s1.decisions == s.decisions && actor == Strip(q.actor)
    requires ReasonsOf(s, q.batch, included, excluded, reasons) && included + excluded <= s1.extractions.Keys
    ensures var approved := map x | x in s1.extractions :: if x in included
      then Approve(s1.extractions[x], actor, q.now) else s1.extractions[x];
      (map x | x in approved :: if x in excluded then Supersede(approved[x], actor, q.now).(reason := reasons[x])
        else approved[x])
      == PublishCohort(s, s1, q).extractions
  {
    hide With, Latest, Strip;
  }

  lemma FreshIsDrawn<T>(table: map<Id, T>, items: seq<Id>, ids: map<Id, Id>)
    requires FreshFor(table, items, ids)
    ensures forall e :: e in items ==> e in ids
  {
  }

  /** The payment state that the new bill of `e` takes over, as read before anything was written. */
  ghost predicate PaymentIs(m: Mapping, s: Db, b: Id, e: Id, payment: Option<(PaymentStatus, Option<Time>)>)
    requires b in s.batches
  {
    var prior := PriorBill(m, s, b, e);
    payment == if prior.Some? then Some((s.bills[prior.value].payment, s.bills[prior.value].paidAt)) else None
  }

  lemma BillsStayValid(t: Db, q: NewBill)
    requires BillInv(t.bills, t.issuers, t.verified)
    ensures RecordBill(t, q).Ok? ==> var u := RecordBill(t, q).value.0; BillInv(u.bills, u.issuers, u.verified)
  {
    hide RecordBill, BillInv;
    if RecordBill(t, q).Ok? { BillingProofs.RecordBillTables(t, q); }
  }

  lemma RecordAllUnfolds(m: Mapping, s: Db, base: Db, q: Activation, items: seq<Id>, k: nat)
    requires q.batch in s.batches && (forall e :: e in items ==> BillItem(m, s, q, e)) && k < |items|
    ensures (forall e :: e in items[..k] ==> e in items) && (forall e :: e in items[..k + 1] ==> e in items)
    ensures var before := RecordAll(m, s, base, q, items[..k]);
      RecordAll(m, s, base, q, items[..k + 1]) == if before.Ok? then RecordOne(m, s, before.value, q, items[k])
        else Err(before.error)
  {
    hide BillItem, RecordOne;
    assert items[..k + 1][..k] == items[..k];
  }

  lemma {:induction false} RecordingStops(m: Mapping, s: Db, base: Db, q: Activation, items: seq<Id>, k: nat)
    requires q.batch in s.batches && (forall e :: e in items ==> BillItem(m, s, q, e)) && k <= |items|
    requires (forall e :: e in items[..k] ==> BillItem(m, s, q, e)) && RecordAll(m, s, base, q, items[..k]).Err?
    ensures RecordAll(m, s, base, q, items) == RecordAll(m, s, base, q, items[..k])
    decreases |items|
  {
    hide BillItem, RecordOne;
    if k == |items| {
      assert items[..k] == items;
    } else {
      var front := items[..|items| - 1];
      assert forall e :: e in front ==> e in items;
      assert front[..k] == items[..k];
      RecordingStops(m, s, base, q, front, k);
    }
  }

  /** What the locked activation state holds. */
  datatype Loaded = Loaded(
    current: bool, active: Option<Id>, approved: set<Id>, billed: set<Id>,
    facts: map<Id, Facts>, prior: map<Id, Option<Id>>, vector: Vector, faults: seq<Fault>)

  ghost predicate LoadedFrom(m: Mapping, s: Db, b: Id, l: Loaded)
    requires b in s.batches
  {
    && l.current == SourceIsCurrent(s, b) && l.active == PriorActive(s, b)
    && l.approved == PriorApproved(s, b) && l.billed == PriorBills(s, b)
    && FactsOf(m, s, b, l.facts) && l.prior.Keys == l.facts.Keys
    && (forall e :: e in l.prior ==> l.prior[e] == PriorBill(m, s, b, e))
    && l.vector == ActivationVector(m, s, b) && l.faults == CohortFaults(m, s, b)
  }

  lemma LoadingInvs(s: Db)
    requires Inv(s)
    ensures OneActive(s.batches) && RevisionsUnique(s.decisions) && BillInv(s.bills, s.issuers, s.verified)
  {
    hide OneActive, BillInv, StatusInv, MemberInv, CountInv, AuthorityInv, SettledInv, EvidenceInv, ReadyInv;
    hide VerifiedInv, DocumentInv, SourceInv, BatchSourceInv;
  }

  /** The request and the payment state of a bill item are prepared. */
  ghost predicate Requested(
    m: Mapping, s: Db, q: Activation, e: Id, requests: map<Id, NewBill>,
      payments: map<Id, Option<(PaymentStatus, Option<Time>)>>)
    requires q.batch in s.batches
  {
    && BillItem(m, s, q, e) && e in requests && requests[e] == BillRequest(m, s, q, e)
    && e in payments && PaymentIs(m, s, q.batch, e, payments[e])
  }

  /** The cohort as `activate` is going to write it. */
  datatype CohortPlan = CohortPlan(
    included: set<Id>, excluded: set<Id>, reasons: map<Id, Option<string>>, empty: bool, items: seq<Id>,
      billItems: seq<Id>)

  ghost predicate PlannedFrom(m: Mapping, s: Db, q: Activation, p: CohortPlan) {
    && ReasonsOf(s, q.batch, p.included, p.excluded, p.reasons)
    && p.empty == (Members(s.extractions, q.batch) == {})
    && p.items == FinancialItems(s, q.batch) && p.billItems == BillItems(m, s, q.batch)
  }

  /** The candidates whose latest decision takes the action. */
  function Chosen(s: Db, facts: map<Id, Facts>, action: Action): set<Id> {
    set e | e in facts && facts[e].decision.Some? && facts[e].decision.value in s.decisions
      && s.decisions[facts[e].decision.value].action == action
  }

  lemma FactsName(m: Mapping, s: Db, b: Id, e: Id)
    requires e in s.extractions
    ensures CandidateFacts(m, s, b, e).decision == Latest(s.decisions, b, e)
  {
    hide DecisionAccepted, Manifest, VerifiedValues, RecurringProjection, EffectiveSubtype;
  }

  lemma ChosenIs(m: Mapping, s: Db, b: Id, l: Loaded, action: Action)
    requires b in s.batches && LoadedFrom(m, s, b, l)
    ensures Chosen(s, l.facts, action) == With(s, b, action)
  {
    hide CandidateFacts, SourceIsCurrent, PriorActive, PriorApproved, PriorBills, PriorBill, ActivationVector;
    hide CohortFaults, Latest;
    forall e | e in l.facts ensures l.facts[e].decision == Latest(s.decisions, b, e) {
      FactsName(m, s, b, e);
    }
  }

  function Reasons(s: Db, facts: map<Id, Facts>, excluded: set<Id>): map<Id, Option<string>> {
    map e | e in excluded && e in facts && facts[e].decision.Some? && facts[e].decision.value in s.decisions
      :: s.decisions[facts[e].decision.value].reason
  }

  lemma ReasonsAre(m: Mapping, s: Db, b: Id, l: Loaded, included: set<Id>, excluded: set<Id>)
    requires b in s.batches && LoadedFrom(m, s, b, l)
    requires included == With(s, b, Include) && excluded == With(s, b, Exclude)
    ensures ReasonsOf(s, b, included, excluded, Reasons(s, l.facts, excluded))
  {
    hide CandidateFacts, SourceIsCurrent, PriorActive, PriorApproved, PriorBills, PriorBill, ActivationVector;
    hide CohortFaults;
    forall e | e in l.facts ensures l.facts[e].decision == Latest(s.decisions, b, e) {
      FactsName(m, s, b, e);
    }
  }

  lemma EmptyWhenNoFacts(m: Mapping, s: Db, b: Id, l: Loaded)
    requires b in s.batches && LoadedFrom(m, s, b, l)
    ensures l.facts == map[] <==> Members(s.extractions, b) == {}
  {
    hide CandidateFacts, SourceIsCurrent, PriorActive, PriorApproved, PriorBills, PriorBill, ActivationVector;
    hide CohortFaults, Members;
    assert l.facts == map[] <==> l.facts.Keys == {};
  }

  lemma FinancialHaveFacts(m: Mapping, s: Db, b: Id, l: Loaded)
    requires b in s.batches && LoadedFrom(m, s, b, l)
    ensures forall e :: e in FinancialItems(s, b) ==>
      e in l.facts && e in s.extractions && l.facts[e] == CandidateFacts(m, s, b, e)
  {
    hide CandidateFacts, SourceIsCurrent, PriorActive, PriorApproved, PriorBills, PriorBill, ActivationVector;
    hide CohortFaults;
  }

  /** The items that project a recurring bill. */
  function Projected(facts: map<Id, Facts>, items: seq<Id>): set<Id> {
    set e | e in items && e in facts && facts[e].projection.Some?
  }

  lemma ProjectedAre(m: Mapping, s: Db, b: Id, l: Loaded, items: seq<Id>)
    requires b in s.batches && LoadedFrom(m, s, b, l) && items == FinancialItems(s, b)
    ensures BillItems(m, s, b) == Ordered(Projected(l.facts, items))
  {
    hide CandidateFacts, LoadedFrom, FinancialItems, Ordered;
    FinancialHaveFacts(m, s, b, l);
    assert Projected(l.facts, items) == set e | e in FinancialItems(s, b) && e in s.extractions
      && CandidateFacts(m, s, b, e).projection.Some?;
  }

  lemma PriorLoaded(m: Mapping, s: Db, b: Id, l: Loaded)
    requires b in s.batches && LoadedFrom(m, s, b, l)
    ensures l.approved == PriorApproved(s, b) && l.billed == PriorBills(s, b) && l.active == PriorActive(s, b)
  {
    hide FactsOf, SourceIsCurrent, PriorActive, PriorApproved, PriorBills, PriorBill, ActivationVector, CohortFaults;
  }

  lemma PlanIs(m: Mapping, s: Db, q: Activation, plan: CohortPlan)
    requires PlannedFrom(m, s, q, plan)
    ensures ReasonsOf(s, q.batch, plan.included, plan.excluded, plan.reasons)
      && plan.empty == (Members(s.extractions, q.batch) == {})
    ensures plan.included == With(s, q.batch, Include) && plan.excluded == With(s, q.batch, Exclude)
  {
    hide With, Members, Latest, FinancialItems, BillItems;
  }

  /** The candidates are still there, and so is the batch, after the prior cohort is retired. */
  lemma CohortStays(m: Mapping, s: Db, q: Activation)
    requires ActivationProofs.Passes(m, s, q)
    ensures var s1 := ActivationProofs.AfterRetire(m, s, q);
      && q.batch in s.batches && q.batch in s1.batches && s1.decisions == s.decisions
      && With(s, q.batch, Include) + With(s, q.batch, Exclude) <= s1.extractions.Keys
  {
    hide ActivationProofs.Passes, ActivationProofs.AfterRetire, With, Members, Latest, CohortProofs.Vacant;
    ActivationProofs.VacantBefore(m, s, q);
    ActivationProofs.CandidatesUntouched(m, s, q);
    MembersExist(ActivationProofs.AfterRetire(m, s, q).extractions, q.batch);
  }

  lemma MembersExist(p: map<Id, Extraction>, b: Id)
    ensures Members(p, b) <= p.Keys
  {
  }

  lemma PlanItemsAre(m: Mapping, s: Db, q: Activation, l: Loaded, plan: CohortPlan)
    requires q.batch in s.batches && LoadedFrom(m, s, q.batch, l) && PlannedFrom(m, s, q, plan)
    ensures plan.items == FinancialItems(s, q.batch) && plan.billItems == BillItems(m, s, q.batch)
    ensures forall e :: e in plan.items ==>
      e in s.extractions && e in l.facts && l.facts[e] == CandidateFacts(m, s, q.batch, e)
  {
    hide LoadedFrom, CandidateFacts, FinancialItems, BillItems, ReasonsOf, Members;
    FinancialHaveFacts(m, s, q.batch, l);
  }

  lemma FreshIdsAre(m: Mapping, s: Db, q: Activation, plan: CohortPlan, unused: bool)
    requires plan.items == FinancialItems(s, q.batch) && plan.billItems == BillItems(m, s, q.batch)
    requires unused
      == (FreshFor(s.bills, plan.billItems, q.drawn.bills) && FreshFor(s.issuers, plan.billItems, q.drawn.issuers))
    ensures CohortBills.FreshIds(m, s, q) <==>
      FreshFor(s.verified, FinancialItems(s, q.batch), q.drawn.verified) && unused
  {
    hide FreshFor, FinancialItems, BillItems;
  }

  function RequestsOf(q: Activation, facts: map<Id, Facts>, items: seq<Id>): map<Id, NewBill> {
    map e | e in items && e in facts && facts[e].projection.Some? && e in q.drawn.bills && e in q.drawn.issuers
      && e in q.drawn.verified
      :: NewBill(q.drawn.bills[e], q.drawn.issuers[e], q.drawn.verified[e], facts[e].projection.value, Strip(q.actor),
        q.now)
  }

  function PaymentsOf(
    s: Db, prior: map<Id, Option<Id>>, items: seq<Id>): map<Id, Option<(PaymentStatus, Option<Time>)>>
  {
    map e | e in items && e in prior
      :: if prior[e].Some? && prior[e].value in s.bills
        then Some((s.bills[prior[e].value].payment, s.bills[prior[e].value].paidAt)) else None
  }

  lemma RequestsAre(m: Mapping, s: Db, q: Activation, l: Loaded, plan: CohortPlan)
    requires q.batch in s.batches && LoadedFrom(m, s, q.batch, l) && plan.billItems == BillItems(m, s, q.batch)
    requires CohortBills.FreshIds(m, s, q)
    ensures forall e :: e in plan.billItems ==>
      BillItem(m, s, q, e)
        && Requested(m, s, q, e, RequestsOf(q, l.facts, plan.billItems), PaymentsOf(s, l.prior, plan.billItems))
  {
    hide FreshFor, BillItems, FinancialItems, BillIdsDrawn, BillItem, Requested, LoadedFrom, CandidateFacts;
    hide RequestsOf, PaymentsOf;
    BillItemsReady(m, s, q);
    forall e | e in plan.billItems
      ensures Requested(m, s, q, e, RequestsOf(q, l.facts, plan.billItems), PaymentsOf(s, l.prior, plan.billItems))
    {
      RequestIs(m, s, q, l, plan.billItems, e);
    }
  }

  lemma RequestIs(m: Mapping, s: Db, q: Activation, l: Loaded, items: seq<Id>, e: Id)
    requires q.batch in s.batches && LoadedFrom(m, s, q.batch, l) && items == BillItems(m, s, q.batch) && e in items
      && BillItem(m, s, q, e)
    ensures Requested(m, s, q, e, RequestsOf(q, l.facts, items), PaymentsOf(s, l.prior, items))
  {
    hide SourceIsCurrent, PriorActive, PriorApproved, PriorBills, ActivationVector, CohortFaults;
    hide CandidateFacts, Strip, BillItems, FactsOf, PriorBill;
    BillItemsHaveFacts(m, s, q.batch, l);
  }

  lemma BillItemsHaveFacts(m: Mapping, s: Db, b: Id, l: Loaded)
    requires b in s.batches && LoadedFrom(m, s, b, l)
    ensures forall e :: e in BillItems(m, s, b) ==>
      e in l.facts && e in l.prior && e in s.extractions && l.facts[e] == CandidateFacts(m, s, b, e)
  {
    FinancialHaveFacts(m, s, b, l);
    hide SourceIsCurrent, PriorActive, PriorApproved, PriorBills, PriorBill, ActivationVector, CohortFaults;
    hide CandidateFacts, FactsOf, FinancialItems;
  }

  /** The checks `activate` makes on the loaded state. */
  function ActivationRefused(s: Db, q: Activation, l: Loaded): Option<Error>
    requires q.batch in s.batches
  {
    LoadedGuard(s, q, l.current, l.vector, l.faults, Chosen(s, l.facts, Exclude) != {}, l.facts == map[])
  }

  lemma GuardStarts(m: Mapping, s: Db, q: Activation)
    ensures !Bounded(q.actor, 255) || q.expectedVersion < 1 ==> Review.Activate(m, s, q) == Err(InvalidRequest)
    ensures Bounded(q.actor, 255) && q.expectedVersion >= 1
      && (q.batch !in s.batches || s.batches[q.batch].identity.document !in s.documents)
      ==> Review.Activate(m, s, q) == Err(NotFound)
  {
    hide Bounded, CohortFaults, ActivationVector, SourceIsCurrent, With, Members;
  }

  lemma GuardIs(m: Mapping, s: Db, q: Activation, l: Loaded)
    requires Bounded(q.actor, 255) && q.expectedVersion >= 1 && q.batch in s.batches
      && s.batches[q.batch].identity.document in s.documents
    requires LoadedFrom(m, s, q.batch, l)
    ensures ActivationRefused(s, q, l) == ActivationGuard(m, s, q)
    ensures ActivationRefused(s, q, l).Some? ==> Review.Activate(m, s, q) == Err(ActivationRefused(s, q, l).value)
  {
    hide ActivationGuard, ActivationRefused, Review.Activate, LoadedFrom, Bounded;
    GuardAgrees(m, s, q, l);
    if ActivationGuard(m, s, q).Some? { ActivationTheorems.RefusalIsNoConflict(m, s, q); }
  }

  lemma GuardAgrees(m: Mapping, s: Db, q: Activation, l: Loaded)
    requires Bounded(q.actor, 255) && q.expectedVersion >= 1 && q.batch in s.batches
      && s.batches[q.batch].identity.document in s.documents
    requires LoadedFrom(m, s, q.batch, l)
    ensures ActivationRefused(s, q, l) == ActivationGuard(m, s, q)
  {
    hide Bounded, CohortFaults, ActivationVector, SourceIsCurrent, With, Members, Chosen, FactsOf;
    hide PriorActive, PriorApproved, PriorBills, PriorBill;
    ChosenIs(m, s, q.batch, l, Exclude);
    EmptyWhenNoFacts(m, s, q.batch, l);
  }

  lemma RetiredMaps(s: Db, b: Id, actor: string, now: Time)
    requires b in s.batches
    ensures var approved, billed, active := PriorApproved(s, b), PriorBills(s, b), PriorActive(s, b);
      RetirePrior(s, b, actor, now) == s.(
        extractions := map x | x in s.extractions :: if x in approved then Supersede(s.extractions[x], actor, now)
          else s.extractions[x],
        bills := map x | x in s.bills :: if x in billed then s.bills[x].(supersededAt := Some(now)) else s.bills[x],
        batches := if active.Some?
          then s.batches[active.value := s.batches[active.value].(lifecycle := Retired,
            version := s.batches[active.value].version + 1)]
                   else s.batches)
  {
    hide PriorApproved, PriorBills, PriorActive;
  }

  lemma PriorRowsExist(s: Db, b: Id)
    requires b in s.batches
    ensures PriorApproved(s, b) <= s.extractions.Keys && PriorBills(s, b) <= s.bills.Keys
    ensures PriorActive(s, b).Some? ==> PriorActive(s, b).value in s.batches
  {
  }

  class Store {
    var documents: map<Id, DocumentStatus>
    var files: map<Id, SourceFile>
    var intakes: map<Id, Intake>
    var batches: map<Id, Batch>
    var extractions: map<Id, Extraction>
    var decisions: map<Id, Decision>
    var chunks: map<Id, Chunk>
    var verified: map<Id, VerifiedRow>
    var issuers: map<Id, Issuer>
    var bills: map<Id, BillRow>

    function View(): Db
      reads this
    {
      Db(documents, files, intakes, batches, extractions, decisions, chunks, verified, issuers, bills)
    }

    constructor ()
      ensures View() == EMPTY
    {
      documents, files, intakes, batches, extractions := map[], map[], map[], map[], map[];
      decisions, chunks, verified, issuers, bills := map[], map[], map[], map[], map[];
    }

    // ---------------------------------------------------------- decisions

    /** The loop of `apply_decisions`: append one revision after the other. */
    method StageDecisions(m: Mapping, b: Id, drafts: seq<Draft>, actor: string) returns (r: Outcome<map<Id, Decision>>)
      requires StatusInv(extractions) && DecisionInv(decisions, extractions)
      requires forall d :: d in drafts ==>
        d.extraction in extractions && InBatch(extractions[d.extraction], b) && DraftNormal(d)
      ensures r == StageAll(m, View(), b, drafts, actor)
    {
      hide DecisionInv, StatusInv, DraftNormal, InBatch, DecisionAccepted, Latest;
      var staged := decisions;
      var k := 0;
      ghost var s := View();
      assert drafts[..0] == [];
      while k < |drafts|
        invariant 0 <= k <= |drafts| && s == View()
        invariant forall d :: d in drafts[..k] ==> d in drafts
        invariant StageAll(m, s, b, drafts[..k], actor) == Ok(staged) && DecisionInv(staged, extractions)
      {
        var d := drafts[k];
        assert d in drafts;
        var next := StageNext(m, b, staged, d, actor);
        assert drafts[..k + 1][..k] == drafts[..k] && forall c :: c in drafts[..k + 1] ==> c in drafts;
        assert StageAll(m, s, b, drafts[..k + 1], actor) == next;
        if next.Err? {
          StagingStops(m, s, b, drafts, k + 1, actor);
          return next;
        }
        DecisionProofs.StageOneKeeps(m, s, b, staged, d, actor);
        staged := next.value;
        k := k + 1;
      }
      assert drafts[..k] == drafts;
      r := Ok(staged);
    }

    method StageNext(m: Mapping, b: Id, staged: map<Id, Decision>, d: Draft, actor: string)
      returns (r: Outcome<map<Id, Decision>>)
      requires d.extraction in extractions && DraftNormal(d) && DecisionInv(staged, extractions)
      ensures r == StageOne(m, View(), b, staged, d, actor)
    {
      assert RevisionsUnique(staged);
      hide DecisionInv, DecisionAccepted, Latest;
      var x := extractions[d.extraction];
      var prior := FindLatest(staged, b, d.extraction);
      var revision := if prior.Some? then staged[prior.value].revision else 0;
      if x.status != Pending || x.version != d.expectedVersion || revision != d.expectedRevision {
        return Err(StaleCandidate);
      }
      if !DecisionAccepted(m, x, d.action, d.corrections, d.subtype, d.reason) { return Err(InvalidDecision); }
      if d.id in staged { return Err(Integrity); }
      return Ok(staged[d.id := DecisionRow(b, d, prior, actor)]);
    }

    method WriteDecisions(m: Mapping, b: Id, drafts: seq<Draft>, actor: string) returns (error: Option<Error>)
      requires Inv(View()) && b in batches
      requires forall d :: d in drafts ==>
        d.extraction in extractions && InBatch(extractions[d.extraction], b) && DraftNormal(d)
      modifies this
      ensures var staged := StageAll(m, old(View()), b, drafts, actor);
        Did(old(View()), View(),
            if staged.Err? then Err(staged.error)
            else Ok(old(View()).(decisions := staged.value,
              batches := old(batches)[b := StagedBatch(old(View()), b, drafts)])),
            error)
    {
      hide Inv, StatusInv, DecisionInv, DraftNormal, InBatch, StageAll, StagedBatch;
      StagingInvs(View());
      var staged := StageDecisions(m, b, drafts, actor);
      if staged.Err? { return Some(staged.error); }
      decisions, batches := staged.value, batches[b := StagedBatch(View(), b, drafts)];
      error := None;
    }

    method ApplyDecisions(m: Mapping, b: Id, expectedVersion: int, drafts: seq<Draft>, actor: string)
      returns (error: Option<Error>)
      requires Inv(View())
      modifies this
      ensures Did(old(View()), View(), Review.ApplyDecisions(m, old(View()), b, expectedVersion, drafts, actor), error)
      ensures Inv(View())
    {
      hide Inv, DraftNormal, InBatch, StageAll, DecisionsGuard, StagedBatch;
      error := DecisionsGuard(View(), b, expectedVersion, drafts, actor);
      if error.None? {
        DraftsNamed(View(), b, expectedVersion, drafts, actor);
        error := WriteDecisions(m, b, drafts, Strip(actor));
        if error.None? { DecisionProofs.ApplyDecisionsKeeps(m, old(View()), b, expectedVersion, drafts, actor); }
      }
    }

    // ---------------------------------------------------------- rejection

    method WriteRejection(b: Id, actor: string, reason: string, now: Time, kept: bool)
      requires b in batches
      modifies this
      ensures View() == RejectedDb(old(View()), b, actor, reason, now, kept)
    {
      var members := Members(extractions, b);
      assert members <= extractions.Keys;
      var batch := batches[b];
      extractions := UpdateRows(extractions, members, x => Reject(x, actor, reason, now));
      assert extractions == RejectMembers(old(extractions), b, actor, reason, now);
      batches := batches[b := batch.(lifecycle := Refused, version := batch.version + 1)];
      documents := documents[batch.identity.document := if kept then Verified else NeedsReprocess];
    }

    method RejectBatch(b: Id, expectedVersion: int, actor: string, reason: string, now: Time)
      returns (error: Option<Error>)
      requires OneActive(batches)
      modifies this
      ensures Did(old(View()), View(), Review.RejectBatch(old(View()), b, expectedVersion, actor, reason, now), error)
      ensures Inv(old(View())) ==> Inv(View())
    {
      hide Inv, OneActive, RejectedDb, PriorActive, PriorApproved, SourceIsCurrent, Strip, Bounded;
      var current := false;
      if b in batches { current := CheckSource(View(), b); }
      error := RejectionGuard(View(), b, expectedVersion, actor, reason, current);
      if error.None? {
        var active := FindPriorActive(View(), b);
        var approved := CollectPriorApproved(View(), b);
        WriteRejection(b, Strip(actor), Strip(reason), now, active.Some? || approved != {});
        if Inv(old(View())) { RejectionProofs.RejectBatchKeeps(old(View()), b, expectedVersion, actor, reason, now); }
      }
    }

    // ---------------------------------------------------------- bills

    method ResolveIssuerRow(q: NewBill) returns (r: Outcome<Id>)
      requires IssuerNamesUnique(issuers)
      modifies this`issuers
      ensures match ResolveIssuer(old(View()), q)
        case Ok((t, i)) => r == Ok(i) && View() == t
        case Err(e) => r == Err(e) && View() == old(View())
    {
      hide IssuerNamesUnique, IssuerNamed;
      var found := FindIssuer(issuers, q.projection.issuerName);
      if found.None? {
        if q.issuer in issuers { return Err(Integrity); }
        issuers := issuers[q.issuer := Issuer(q.projection.issuerName, q.projection.issuerKind)];
        return Ok(q.issuer);
      }
      if issuers[found.value].kind != q.projection.issuerKind { return Err(BillInvalid); }
      return Ok(found.value);
    }

    method ClearPeriodRow(issuer: Id, document: Id, q: NewBill) returns (error: Option<Error>)
      requires OneOwner(bills)
      modifies this`bills
      ensures Did(old(View()), View(), ClearPeriod(old(View()), issuer, document, q), error)
    {
      hide OneOwner, PeriodOwner, SourceStatus;
      var owner := FindPeriodOwner(bills, issuer, q.projection.period);
      if owner.None? { return None; }
      var bill := bills[owner.value];
      if bill.content.document != document || SourceStatus(View(), bill) != Some(Superseded) {
        return Some(BillConflict);
      }
      bills := bills[owner.value := bill.(supersededAt := Some(q.now))];
      return None;
    }

    /** The part of `record_verified_bill` after the checks that write nothing. */
    method InsertBill(q: NewBill) returns (r: Outcome<Id>)
      requires BillInv(bills, issuers, verified) && q.verified in verified
      requires WellFormed(q.projection) && BillOf(bills, q.verified).None?
      modifies this
      ensures match RecordBill(old(View()), q)
        case Ok((t, x)) => r == Ok(x) && View() == t
        case Err(e) => r == Err(e) && View() == old(View())
    {
      hide ResolveIssuer, ClearPeriod, WellFormed, BillOf, OneOwner, IssuerNamesUnique, OneBillPerRecord, BillLinks;
      var savedIssuers, savedBills := issuers, bills;
      var issuer := ResolveIssuerRow(q);
      if issuer.Err? { return Err(issuer.error); }
      BillingProofs.IssuerResolved(old(View()), q);
      var error := ClearPeriodRow(issuer.value, verified[q.verified].document, q);
      if error.Some? {
        issuers := savedIssuers;
        return Err(error.value);
      }
      if q.bill in bills || verified[q.verified].values.amount <= 0.0 {
        issuers, bills := savedIssuers, savedBills;
        return Err(Integrity);
      }
      bills := bills[q.bill := NewRow(View(), issuer.value, q)];
      return Ok(q.bill);
    }

    method RecordVerifiedBill(q: NewBill) returns (r: Outcome<Id>)
      requires BillInv(bills, issuers, verified)
      modifies this
      ensures match RecordBill(old(View()), q)
        case Ok((t, x)) => r == Ok(x) && View() == t
        case Err(e) => r == Err(e) && View() == old(View())
      ensures Inv(old(View())) ==> Inv(View())
    {
      hide Inv, ResolveIssuer, ClearPeriod, WellFormed, BillOf, OneOwner, IssuerNamesUnique, OneBillPerRecord;
      hide BillLinks;
      if !WellFormed(q.projection) || q.verified !in verified { return Err(BillInvalid); }
      var existing := FindBillOf(bills, q.verified);
      if existing.Some? { return Ok(existing.value); }
      r := InsertBill(q);
      if r.Ok? && Inv(old(View())) { BillingProofs.RecordBillKeeps(old(View()), q); }
    }

    method MarkPaid(x: Id, actor: string, paidAt: Time) returns (error: Option<Error>)
      modifies this`bills
      ensures Did(old(View()), View(), Billing.MarkPaid(old(View()), x, actor, paidAt), error)
      ensures Inv(old(View())) ==> Inv(View())
    {
      hide Inv, BillCarriesAuthority, Strip;
      if Strip(actor) == "" { return Some(InvalidRequest); }
      if x !in bills || !BillCarriesAuthority(View(), x) { return Some(BillNotFound); }
      if !(bills[x].payment == Paid && bills[x].paidAt.Some?) {
        bills := bills[x := bills[x].(payment := Paid, paidAt := Some(paidAt), reviewer := Some(Strip(actor)))];
      }
      error := None;
      if Inv(old(View())) { BillingProofs.MarkPaidKeeps(old(View()), x, actor, paidAt); }
    }

    // ---------------------------------------------------------- activation

    /** First flush. */
    method RetireCohort(b: Id, approved: set<Id>, billed: set<Id>, active: Option<Id>, actor: string, now: Time)
      requires b in batches && approved == PriorApproved(View(), b) && billed == PriorBills(View(), b)
        && active == PriorActive(View(), b)
      modifies this
      ensures View() == RetirePrior(old(View()), b, actor, now)
    {
      hide PriorApproved, PriorBills, PriorActive, RetirePrior;
      ghost var s := View();
      PriorRowsExist(s, b);
      extractions := UpdateRows(extractions, approved, x => Supersede(x, actor, now));
      bills := UpdateRows(bills, billed, (x: BillRow) => x.(supersededAt := Some(now)));
      if active.Some? {
        var prior := batches[active.value];
        batches := batches[active.value := prior.(lifecycle := Retired, version := prior.version + 1)];
      }
      RetiredMaps(s, b, actor, now);
    }

    /** The rows of the excluded candidates, with the reason of their decision. */
    method ExcludeRows(ids: set<Id>, reasons: map<Id, Option<string>>, actor: string, now: Time)
      requires ids <= extractions.Keys && ids <= reasons.Keys
      modifies this`extractions
      ensures extractions == map x | x in old(extractions) ::
        if x in ids then Supersede(old(extractions)[x], actor, now).(reason := reasons[x]) else old(extractions)[x]
    {
      var todo := ids;
      while todo != {}
        invariant todo <= ids && extractions.Keys == old(extractions).Keys
        invariant forall x :: x in old(extractions) ==>
          extractions[x] == if x in ids && x !in todo
            then Supersede(old(extractions)[x], actor, now).(reason := reasons[x]) else old(extractions)[x]
        decreases todo
      {
        var x :| x in todo;
        todo := todo - {x};
        extractions := extractions[x := Supersede(extractions[x], actor, now).(reason := reasons[x])];
      }
    }

    method PublishExtractions(
      ghost s: Db, q: Activation, included: set<Id>, excluded: set<Id>, reasons: map<Id, Option<string>>)
      requires q.batch in s.batches && q.batch in batches && decisions == s.decisions
      requires ReasonsOf(s, q.batch, included, excluded, reasons) && included + excluded <= extractions.Keys
      modifies this`extractions
      ensures extractions == PublishCohort(s, old(View()), q).extractions
    {
      hide With, Latest, Strip;
      ghost var s1 := View();
      var actor := Strip(q.actor);
      extractions := UpdateRows(extractions, included, x => Approve(x, actor, q.now));
      ExcludeRows(excluded, reasons, actor, q.now);
      PublishedMap(s, s1, q, included, excluded, reasons, actor);
    }

    /** Second flush: `s` is the database the cohort was loaded from. */
    method PublishRows(
      ghost s: Db, q: Activation, included: set<Id>, excluded: set<Id>, reasons: map<Id, Option<string>>, empty: bool)
      requires q.batch in s.batches && q.batch in batches && decisions == s.decisions
      requires ReasonsOf(s, q.batch, included, excluded, reasons) && included + excluded <= extractions.Keys
      requires empty == (Members(s.extractions, q.batch) == {})
      modifies this
      ensures View() == PublishCohort(s, old(View()), q)
    {
      hide With, Members, Latest, Strip;
      ghost var s1 := View();
      PublishExtractions(s, q, included, excluded, reasons);
      var actor, batch := Strip(q.actor), batches[q.batch];
      batches := batches[q.batch := batch.(
        lifecycle := Active, version := batch.version + 1,
        vector := Some(q.vector), activatedBy := Some(actor), activatedAt := Some(q.now),
        includedCount := Some(|included|), excludedCount := Some(|excluded|),
        acceptedExclusions := excluded != {}, acceptedEmpty := empty)];
      documents := documents[batch.identity.document := Verified];
    }

    /** Third flush: one verified row per included financial candidate. */
    method InsertVerifiedRows(
      m: Mapping, ghost s: Db, q: Activation, document: Id, items: seq<Id>, facts: map<Id, Facts>)
      returns (error: Option<Error>)
      requires q.batch in s.batches && document == s.batches[q.batch].identity.document
        && items == FinancialItems(s, q.batch)
      requires forall e :: e in items ==>
        e in s.extractions && e in facts && facts[e] == CandidateFacts(m, s, q.batch, e)
      modifies this`verified
      ensures Did(old(View()), View(), InsertVerified(m, s, old(View()), q), error)
    {
      hide FinancialItems, CandidateFacts, FreshFor, Strip;
      if exists e :: e in items && facts[e].values.None? { return Some(Unsafe([])); }
      if !FreshFor(verified, items, q.drawn.verified) { return Some(Integrity); }
      FreshIsDrawn(verified, items, q.drawn.verified);
      ghost var rows := VerifiedRows(m, s, q, items);
      var actor := Strip(q.actor);
      assert items[..0] == [];
      for k := 0 to |items|
        invariant forall e :: e in items[..k] ==> e in items
        invariant verified == InsertRows(old(verified), items[..k], q.drawn.verified, rows)
      {
        var e := items[k];
        assert e in items && items[..k + 1][..k] == items[..k];
        verified := verified[q.drawn.verified[e] := VerifiedRow(document, e, facts[e].values.value, actor)];
      }
      assert items[..|items|] == items;
      error := None;
    }

    /** Record one bill and hand it the payment state of the bill it replaces. */
    method RecordNext(
      m: Mapping, ghost s: Db, q: Activation, e: Id, requests: map<Id, NewBill>,
      payments: map<Id, Option<(PaymentStatus, Option<Time>)>>)
      returns (error: Option<Error>)
      requires q.batch in s.batches && BillItem(m, s, q, e) && Requested(m, s, q, e, requests, payments)
      requires BillInv(bills, issuers, verified)
      modifies this
      ensures match RecordOne(m, s, old(View()), q, e)
        case Ok(t) => error.None? && View() == t && BillInv(bills, issuers, verified)
        case Err(x) => error == Some(x)
    {
      hide Inv, BillItem, BillRequest, RecordBill, PriorBill, BillInv;
      var request, payment := requests[e], payments[e];
      BillsStayValid(View(), request);
      var bill := RecordVerifiedBill(request);
      if bill.Err? { return Some(bill.error); }
      if payment.Some? {
        if bill.value !in bills { return Some(Integrity); }
        CohortBills.PaymentKeeps(View(), bill.value, payment.value);
        bills := bills[bill.value := bills[bill.value].(payment := payment.value.0, paidAt := payment.value.1)];
      }
      error := None;
    }

    /** The bills of the cohort; on an error the caller restores the tables. */
    method RecordBills(
      m: Mapping, ghost s: Db, q: Activation, items: seq<Id>, requests: map<Id, NewBill>,
      payments: map<Id, Option<(PaymentStatus, Option<Time>)>>)
      returns (error: Option<Error>)
      requires q.batch in s.batches && (forall e :: e in items ==> BillItem(m, s, q, e))
      requires forall e :: e in items ==> Requested(m, s, q, e, requests, payments)
      requires BillInv(bills, issuers, verified)
      modifies this
      ensures match RecordAll(m, s, old(View()), q, items)
        case Ok(t) => error.None? && View() == t
        case Err(x) => error == Some(x)
    {
      ghost var base := View();
      assert RecordAll(m, s, base, q, items[..0]) == Ok(base);
      hide BillInv, RecordOne, BillItem, RecordAll, Requested;
      for k := 0 to |items|
        invariant forall e :: e in items[..k] ==> e in items
        invariant RecordAll(m, s, base, q, items[..k]) == Ok(View()) && BillInv(bills, issuers, verified)
      {
        var e := items[k];
        assert e in items;
        RecordAllUnfolds(m, s, base, q, items, k);
        error := RecordNext(m, s, q, e, requests, payments);
        if error.Some? {
          RecordingStops(m, s, base, q, items, k + 1);
          return;
        }
      }
      assert items[..|items|] == items;
      error := None;
    }

    /** The authority and the bills that the new cohort would replace. */
    method LoadPrior(b: Id) returns (current: bool, active: Option<Id>, approved: set<Id>, billed: set<Id>)
      requires OneActive(batches) && b in batches
      ensures current == SourceIsCurrent(View(), b) && active == PriorActive(View(), b)
      ensures approved == PriorApproved(View(), b) && billed == PriorBills(View(), b)
    {
      hide OneActive, PriorActive, PriorApproved, PriorBills, SourceIsCurrent;
      current := CheckSource(View(), b);
      active := FindPriorActive(View(), b);
      approved := CollectPriorApproved(View(), b);
      billed := CollectPriorBills(View(), b, approved);
    }

    /** `_load_activation_state` */
    method LoadActivation(m: Mapping, b: Id) returns (loaded: Loaded)
      requires OneActive(batches) && RevisionsUnique(decisions) && BillInv(bills, issuers, verified) && b in batches
      ensures LoadedFrom(m, View(), b, loaded)
    {
      hide PriorBill, OneActive, RevisionsUnique, BillInv, PriorActive, PriorApproved, PriorBills;
      hide SourceIsCurrent, ActivationVector, CohortFaults, HeadTable, FactsOf;
      var current, active, approved, billed := LoadPrior(b);
      var facts, prior, vector, faults := LoadCandidates(m, b, current, active, approved);
      loaded := Loaded(current, active, approved, billed, facts, prior, vector, faults);
    }

    method LoadCandidates(m: Mapping, b: Id, current: bool, active: Option<Id>, approved: set<Id>)
      returns (facts: map<Id, Facts>, prior: map<Id, Option<Id>>, vector: Vector, faults: seq<Fault>)
      requires RevisionsUnique(decisions) && BillInv(bills, issuers, verified) && b in batches
      requires current == SourceIsCurrent(View(), b) && active == PriorActive(View(), b)
        && approved == PriorApproved(View(), b)
      ensures FactsOf(m, View(), b, facts) && prior.Keys == facts.Keys
        && (forall e :: e in prior ==> prior[e] == PriorBill(m, View(), b, e))
      ensures vector == ActivationVector(m, View(), b) && faults == CohortFaults(m, View(), b)
    {
      hide RevisionsUnique, BillInv, PriorActive, PriorApproved, SourceIsCurrent, ActivationVector;
      hide CohortFaults, HeadTable, CandidateFacts, ConflictFaults, PriorBill;
      facts := DeriveAll(m, View(), b);
      var conflicts;
      conflicts, prior := AttachConflicts(m, View(), b, facts, approved);
      var heads := BuildHeads(m, View(), b, facts, prior);
      vector := BuildVector(m, View(), b, heads, approved, active);
      faults := CollectFaults(m, View(), b, current, facts, conflicts);
    }

    /** What `activate` derives from the loaded state before it writes. */
    method PlanCohort(m: Mapping, q: Activation, l: Loaded) returns (plan: CohortPlan)
      requires q.batch in batches && LoadedFrom(m, View(), q.batch, l)
      ensures PlannedFrom(m, View(), q, plan)
    {
      hide LoadedFrom;
      var included, excluded := Chosen(View(), l.facts, Include), Chosen(View(), l.facts, Exclude);
      ChosenIs(m, View(), q.batch, l, Include);
      ChosenIs(m, View(), q.batch, l, Exclude);
      var reasons := Reasons(View(), l.facts, excluded);
      ReasonsAre(m, View(), q.batch, l, included, excluded);
      var items, bills' := PlanItems(m, q, l, included);
      plan := CohortPlan(included, excluded, reasons, l.facts == map[], items, bills');
      EmptyWhenNoFacts(m, View(), q.batch, l);
      hide Chosen, With, FinancialItems, BillItems, Reasons, ReasonsOf;
    }

    method PlanItems(m: Mapping, q: Activation, l: Loaded, included: set<Id>)
      returns (items: seq<Id>, billItems: seq<Id>)
      requires q.batch in batches && LoadedFrom(m, View(), q.batch, l) && included == With(View(), q.batch, Include)
      ensures items == FinancialItems(View(), q.batch) && billItems == BillItems(m, View(), q.batch)
    {
      hide With, LoadedFrom, IsFinancial, Ordered;
      items := ListIds(set e | e in included && e in extractions && IsFinancial(extractions[e]));
      ProjectedAre(m, View(), q.batch, l, items);
      billItems := ListIds(Projected(l.facts, items));
    }

    /** The first two flushes. */
    method SwitchCohort(m: Mapping, q: Activation, l: Loaded, plan: CohortPlan)
      requires ActivationProofs.Passes(m, View(), q) && q.batch in batches && LoadedFrom(m, View(), q.batch, l)
        && PlannedFrom(m, View(), q, plan)
      modifies this
      ensures View() == ActivationProofs.AfterPublish(m, old(View()), q)
    {
      hide ActivationProofs.Passes, LoadedFrom, PlannedFrom, RetirePrior, PublishCohort, PriorApproved;
      hide PriorBills, PriorActive, ReasonsOf, Members;
      ghost var s := View();
      PriorLoaded(m, s, q.batch, l);
      PlanIs(m, s, q, plan);
      CohortStays(m, s, q);
      RetireCohort(q.batch, l.approved, l.billed, l.active, Strip(q.actor), q.now);
      PublishRows(s, q, plan.included, plan.excluded, plan.reasons, plan.empty);
    }

    /** Everything `activate` writes; on an error the caller restores the tables. */
    method WriteActivation(m: Mapping, q: Activation, l: Loaded, plan: CohortPlan) returns (error: Option<Error>)
      requires ActivationProofs.Passes(m, View(), q) && q.batch in batches && LoadedFrom(m, View(), q.batch, l)
        && PlannedFrom(m, View(), q, plan)
      modifies this
      ensures match Review.Activate(m, old(View()), q)
        case Ok(t) => error.None? && View() == t
        case Err(x) => error == Some(x)
    {
      hide ActivationProofs.Passes, LoadedFrom, PlannedFrom, Review.Activate, ActivationProofs.AfterPublish;
      hide InsertVerified, RecordAll;
      hide CohortBills.FreshIds, FreshFor, BillInv, BillItem, Requested, FactsOf, CandidateFacts;
      ghost var s := View();
      var document := batches[q.batch].identity.document;
      var unused := FreshFor(bills, plan.billItems, q.drawn.bills)
        && FreshFor(issuers, plan.billItems, q.drawn.issuers);
      var requests, payments := RequestsOf(q, l.facts, plan.billItems), PaymentsOf(View(), l.prior, plan.billItems);
      PlanItemsAre(m, s, q, l, plan);
      ActivationTheorems.ActivateUnfolds(m, s, q);
      ActivationTheorems.FreshAfterPublish(m, s, q);
      FreshIdsAre(m, s, q, plan, unused);
      SwitchCohort(m, q, l, plan);
      error := InsertVerifiedRows(m, s, q, document, plan.items, l.facts);
      if error.Some? { return; }
      if !unused { return Some(Integrity); }
      ActivationTheorems.VerifiedBills(m, s, q);
      RequestsAre(m, s, q, l, plan);
      error := RecordBills(m, s, q, plan.billItems, requests, payments);
    }

    method WriteOrRestore(m: Mapping, q: Activation, l: Loaded) returns (error: Option<Error>)
      requires ActivationProofs.Passes(m, View(), q) && q.batch in batches && LoadedFrom(m, View(), q.batch, l)
      modifies this
      ensures Did(old(View()), View(), Review.Activate(m, old(View()), q), error)
    {
      hide ActivationProofs.Passes, Review.Activate, LoadedFrom, PlannedFrom;
      var plan := PlanCohort(m, q, l);
      var saved := View();
      error := WriteActivation(m, q, l, plan);
      if error.Some? { Restore(saved); }
    }

    method ActivateKnown(m: Mapping, q: Activation) returns (error: Option<Error>)
      requires Inv(View()) && Bounded(q.actor, 255) && q.expectedVersion >= 1
      requires q.batch in batches && batches[q.batch].identity.document in documents
      modifies this
      ensures Did(old(View()), View(), Review.Activate(m, old(View()), q), error)
    {
      hide Inv, ActivationGuard, Review.Activate, LoadedFrom, OneActive, RevisionsUnique, BillInv;
      hide ActivationRefused, Bounded;
      LoadingInvs(View());
      var l := LoadActivation(m, q.batch);
      GuardIs(m, View(), q, l);
      error := ActivationRefused(View(), q, l);
      if error.None? { error := WriteOrRestore(m, q, l); }
    }

    method Activate(m: Mapping, q: Activation) returns (error: Option<Error>)
      requires Inv(View())
      modifies this
      ensures Did(old(View()), View(), Review.Activate(m, old(View()), q), error)
      ensures Inv(View())
    {
      hide Inv, Review.Activate, Bounded;
      GuardStarts(m, View(), q);
      if !Bounded(q.actor, 255) || q.expectedVersion < 1 { return Some(InvalidRequest); }
      if q.batch !in batches || batches[q.batch].identity.document !in documents { return Some(NotFound); }
      error := ActivateKnown(m, q);
      if error.None? { ActivationTheorems.ActivateKeeps(m, old(View()), q); }
    }

    /** Roll back to the savepoint. */
    method Restore(saved: Db)
      modifies this
      ensures View() == saved
    {
      documents, files, intakes, batches, extractions := saved.documents, saved.files, saved.intakes, saved.batches,
        saved.extractions;
      decisions, chunks, verified, issuers, bills := saved.decisions, saved.chunks, saved.verified, saved.issuers,
        saved.bills;
    }

    // ---------------------------------------------------------- sources and intakes

    method CreateWithRaw(d: Id, f: Id, i: Id, sha256: string, state: IntakeState) returns (error: Option<Error>)
      modifies this
      ensures Did(old(View()), View(), Sources.CreateDocument(old(View()), d, f, i, sha256, state), error)
      ensures Inv(old(View())) ==> Inv(View())
    {
      hide Inv;
      if d in documents || f in files || i in intakes { return Some(Integrity); }
      documents := documents[d := Uploaded];
      files := files[f := SourceFile(d, 1, Original, sha256)];
      intakes := intakes[i := Intake(d, f, 1, sha256, state, 1)];
      error := None;
      if Inv(old(View())) { SourceProofs.CreateDocumentKeeps(old(View()), d, f, i, sha256, state); }
    }

    /** `_supersede_pending_extractions` */
    method SupersedePendingRows(d: Id, actor: string, now: Time)
      modifies this`extractions
      ensures extractions == Sources.SupersedePending(old(extractions), d, actor, now)
    {
      var pending := set x | x in extractions && extractions[x].content.document == d
        && extractions[x].status == Pending;
      extractions := UpdateRows(extractions, pending, x => Supersede(x, actor, now));
    }

    method WriteSource(d: Id, f: Id, i: Id, sha256: string, state: IntakeState, actor: string, now: Time, version: nat)
      modifies this
      ensures View() == Sources.SourceAppended(old(View()), d, f, i, version, sha256, state, actor, now)
    {
      hide Sources.SupersedePending, Sources.WithoutDocument;
      SupersedePendingRows(d, actor, now);
      chunks := Sources.WithoutDocument(chunks, d);
      files := files[f := SourceFile(d, version, Original, sha256)];
      intakes := intakes[i := Intake(d, f, version, sha256, state, 1)];
      documents := documents[d := NeedsReprocess];
    }

    method AppendRawSource(d: Id, f: Id, i: Id, sha256: string, state: IntakeState, actor: string, now: Time)
      returns (error: Option<Error>)
      modifies this
      ensures Did(old(View()), View(), Sources.AppendSource(old(View()), d, f, i, sha256, state, actor, now), error)
      ensures Inv(old(View())) ==> Inv(View())
    {
      hide Strip, Inv, Sources.SourceAppended, Sources.AppendGuard, Sources.NextVersion;
      error := Sources.AppendGuard(View(), d, f, i, sha256, actor);
      if error.None? {
        var version := FindNextVersion(files, d);
        WriteSource(d, f, i, sha256, state, Strip(actor), now, version);
        if Inv(old(View())) { SourceProofs.AppendSourceKeeps(old(View()), d, f, i, sha256, state, actor, now); }
      }
    }

    method TransitionIntake(i: Id, expectedVersion: int, state: IntakeState, reason: string)
      returns (error: Option<Error>)
      modifies this`intakes
      ensures Did(old(View()), View(), Sources.Transition(old(View()), i, expectedVersion, state, reason), error)
      ensures Inv(old(View())) ==> Inv(View())
    {
      hide Inv, Strip, Sources.Edge;
      if expectedVersion < 1 { return Some(InvalidRequest); }
      if i !in intakes || intakes[i].version != expectedVersion { return Some(StaleIntake); }
      if !Sources.Edge(intakes[i].state, state) { return Some(IllegalTransition); }
      if state == IntakeFailed && Strip(reason) == "" { return Some(InvalidRequest); }
      intakes := intakes[i := intakes[i].(state := state, version := intakes[i].version + 1)];
      error := None;
      if Inv(old(View())) { SourceProofs.TransitionKeeps(old(View()), i, expectedVersion, state, reason); }
    }

    // ---------------------------------------------------------- document-wide review

    method RejectExtraction(x: Id, reason: string, reviewer: string, now: Time) returns (error: Option<Error>)
      modifies this
      ensures Did(old(View()), View(), Legacy.RejectExtraction(old(View()), x, reason, reviewer, now), error)
      ensures Inv(old(View())) ==> Inv(View())
    {
      hide Inv, Strip;
      if Strip(reviewer) == "" || Strip(reason) == "" { return Some(InvalidRequest); }
      if x !in extractions { return Some(StaleExtraction); }
      var d := extractions[x].content.document;
      if d !in documents { return Some(NotFound); }
      if extractions[x].status != Pending { return Some(StaleExtraction); }
      extractions := extractions[x := Reject(extractions[x], Strip(reviewer), Strip(reason), now)];
      documents := documents[d := NeedsReprocess];
      error := None;
      if Inv(old(View())) { LegacyProofs.RejectExtractionKeeps(old(View()), x, reason, reviewer, now); }
    }

    method AddExtraction(x: Id, d: Id, payload: Payload, sourceVersion: Option<nat>, actor: string, now: Time)
      returns (error: Option<Error>)
      modifies this
      ensures Did(old(View()), View(), Legacy.AddExtraction(old(View()), x, d, payload, sourceVersion, actor, now),
        error)
      ensures Inv(old(View())) ==> Inv(View())
    {
      hide Inv, Strip, LatestOriginal, Sources.SupersedePending;
      if d !in documents { return Some(NotFound); }
      var f := FindLatestOriginal(files, d);
      if f.None? || (sourceVersion.Some? && files[f.value].version != sourceVersion.value) {
        return Some(SourceSuperseded);
      }
      if x in extractions { return Some(Integrity); }
      SupersedePendingRows(d, Strip(actor), now);
      extractions := extractions[x := Extraction(ExtractionContent(d, f.value, files[f.value].version, None, payload),
        Pending, 1, None, None, None)];
      documents := documents[d := InReview];
      error := None;
      if Inv(old(View())) { LegacyProofs.AddExtractionKeeps(old(View()), x, d, payload, sourceVersion, actor, now); }
    }

    method WritePromotion(q: Legacy.Promotion, d: Id, values: Values, reviewer: string)
      requires q.extraction in extractions
      modifies this
      ensures View() == Legacy.PromotedDb(old(View()), q, d, values, reviewer)
    {
      var others := set y | y in extractions && y != q.extraction && extractions[y].content.document == d
        && extractions[y].status == Approved;
      extractions := UpdateRows(extractions, others, x => Supersede(x, reviewer, q.now));
      extractions := extractions[q.extraction := Legacy.ApproveLegacy(extractions[q.extraction], reviewer, q.now)];
      assert extractions == Legacy.PromoteRows(old(extractions), q.extraction, d, reviewer, q.now);
      verified := verified[q.verified := VerifiedRow(d, q.extraction, values, reviewer)];
      documents := documents[d := Verified];
    }

    method Promote(m: Mapping, q: Legacy.Promotion) returns (error: Option<Error>)
      modifies this
      ensures Did(old(View()), View(), Legacy.Promote(m, old(View()), q), error)
      ensures Inv(old(View())) ==> Inv(View())
    {
      hide Inv, Legacy.PromotedDb, Strip;
      error := Legacy.PromotionGuard(m, View(), q);
      if error.Some? { return; }
      var values := Legacy.PromotedValues(m, View(), q);
      WritePromotion(q, extractions[q.extraction].content.document, values.value, Strip(q.reviewer));
      if Inv(old(View())) { LegacyProofs.PromoteKeeps(m, old(View()), q); }
    }
  }
}
