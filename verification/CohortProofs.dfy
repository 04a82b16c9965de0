/** What a fault-free cohort looks like, and how retiring the prior one leaves the document. */
module CohortProofs {
  import opened Basics
  import opened Model
  import opened Authority
  import opened Billing
  import opened Invariant
  import opened Review
  import opened RowOrder

  // ------------------------------------------------------------ fault-free cohorts

  ghost predicate Clean(m: Mapping, s: Db, b: Id, e: Id)
    requires b in s.batches
  {
    e in s.extractions && CandidateFacts(m, s, b, e).faults == [] && ConflictFaults(m, s, b, e) == []
  }

  lemma {:induction false} FaultFree(m: Mapping, s: Db, b: Id, order: seq<Id>)
    requires b in s.batches && (forall e :: e in order ==> e in s.extractions)
    ensures FaultsOf(m, s, b, order) == [] <==> forall e :: e in order ==> Clean(m, s, b, e)
  {
    hide CandidateFacts, ConflictFaults;
    if order != [] {
      FaultFree(m, s, b, order[1..]);
      var own, conflicts, rest := CandidateFacts(m, s, b, order[0]).faults, ConflictFaults(m, s, b, order[0]),
        FaultsOf(m, s, b, order[1..]);
      assert |own + conflicts + rest| == |own| + |conflicts| + |rest|;
      assert forall e :: e in order <==> e == order[0] || e in order[1..];
    }
  }

  /** The preview lists no error exactly when every part of the cohort is in order. */
  lemma CohortClean(m: Mapping, s: Db, b: Id)
    requires b in s.batches
    ensures CohortFaults(m, s, b) == [] <==>
      && Reviewable(s.batches[b].lifecycle) && SourceIsCurrent(s, b)
      && |Members(s.extractions, b)| == s.batches[b].identity.candidateCount
      && s.batches[b].identity.mapped + s.batches[b].identity.residual == s.batches[b].identity.candidateCount
      && forall e :: e in Members(s.extractions, b) ==> Clean(m, s, b, e)
  {
    hide Clean, SourceIsCurrent;
    FaultFree(m, s, b, Ordered(Members(s.extractions, b)));
  }

  /** A clean candidate is pending, decided at its current version and, when included, projectable. */
  lemma CleanMeans(m: Mapping, s: Db, b: Id, e: Id)
    requires b in s.batches && Clean(m, s, b, e)
    ensures s.extractions[e].status == Pending && s.extractions[e].content.lineage.Some?
    ensures Latest(s.decisions, b, e).Some?
    ensures var d := s.decisions[Latest(s.decisions, b, e).value];
      && d.expectedVersion == s.extractions[e].version
      && (d.action == Include && IsFinancial(s.extractions[e]) ==>
            var facts := CandidateFacts(m, s, b, e);
            facts.values.Some? && (facts.projection.Some? ==> facts.values.value.amount > 0.0))
  {
    hide ConflictFaults, Latest, Manifest;
  }

  /** Every member of a fault-free cohort is included or excluded, never both. */
  lemma CohortSplit(m: Mapping, s: Db, b: Id)
    requires b in s.batches && forall e :: e in Members(s.extractions, b) ==> Clean(m, s, b, e)
    ensures With(s, b, Include) + With(s, b, Exclude) == Members(s.extractions, b)
    ensures With(s, b, Include) !! With(s, b, Exclude)
    ensures |With(s, b, Include)| + |With(s, b, Exclude)| == |Members(s.extractions, b)|
  {
    hide Clean, Latest;
    forall e | e in Members(s.extractions, b) ensures Latest(s.decisions, b, e).Some? {
      CleanMeans(m, s, b, e);
    }
  }

  // ------------------------------------------------------------ the prior cohort

  /** Before activation, the approvals of a document are exactly what the activation retires. */
  lemma PriorIsEverything(s: Db, b: Id, x: Id)
    requires ReviewInv(s) && b in s.batches && Reviewable(s.batches[b].lifecycle)
    requires x in s.extractions
    ensures x in PriorApproved(s, b) <==>
      s.extractions[x].status == Approved && s.extractions[x].content.document == s.batches[b].identity.document
  {
    hide StatusInv, CountInv, SettledInv, EvidenceInv;
    if s.extractions[x].status == Approved && s.extractions[x].content.document == s.batches[b].identity.document
      && !IsLegacy(s.extractions[x]) {
      var a := s.extractions[x].content.lineage.value.batch;
      assert IsPriorActive(s, b, a);
    }
  }

  /** No approval and no active batch is left in the document. */
  ghost predicate Vacant(s: Db, document: Id) {
    && (forall x :: x in s.extractions && s.extractions[x].content.document == document ==>
         s.extractions[x].status != Approved)
    && (forall a :: a in s.batches && s.batches[a].identity.document == document ==> s.batches[a].lifecycle != Active)
  }

  lemma RetiredExtractions(s: Db, b: Id, actor: string, now: Time)
    requires ReviewInv(s) && b in s.batches && Reviewable(s.batches[b].lifecycle)
    ensures RetiresApproved(s.extractions, RetirePrior(s, b, actor, now).extractions, s.batches[b].identity.document)
  {
    hide PriorApproved, AuthorityInv, SettledInv, EvidenceInv, CountInv, MemberInv, OneActive;
    forall x | x in s.extractions ensures x in PriorApproved(s, b) <==>
      s.extractions[x].status == Approved && s.extractions[x].content.document == s.batches[b].identity.document
    {
      PriorIsEverything(s, b, x);
    }
  }

  lemma RetiredRows(p: map<Id, Extraction>, q: map<Id, Extraction>, verified: map<Id, VerifiedRow>, document: Id)
    requires RetiresApproved(p, q, document) && StatusInv(p) && VerifiedInv(verified, p)
    ensures StatusInv(q) && SameRows(p, q) && ExtractionsMove(p, q) && VerifiedInv(verified, q)
  {
  }

  /** `q` is `p` with active batches of the document retired. */
  ghost predicate RetiresActive(p: map<Id, Batch>, q: map<Id, Batch>, document: Id) {
    && p.Keys == q.Keys
    && (forall a :: a in p ==>
          q[a] == p[a]
            || (p[a].lifecycle == Active && p[a].identity.document == document
                 && q[a] == p[a].(lifecycle := Retired, version := p[a].version + 1)))
    && (forall a :: a in q && q[a].identity.document == document ==> q[a].lifecycle != Active)
  }

  lemma RetiredBatches(s: Db, b: Id, actor: string, now: Time)
    requires OneActive(s.batches) && b in s.batches && Reviewable(s.batches[b].lifecycle)
    ensures RetiresActive(s.batches, RetirePrior(s, b, actor, now).batches, s.batches[b].identity.document)
  {
    hide PriorApproved, PriorBills;
    var t := RetirePrior(s, b, actor, now);
    forall a | a in t.batches && t.batches[a].identity.document == s.batches[b].identity.document
      ensures t.batches[a].lifecycle != Active
    {
      assert s.batches[a].lifecycle == Active ==> IsPriorActive(s, b, a);
    }
  }

  lemma RetiresKeeps(s: Db, q: map<Id, Batch>, document: Id)
    requires RetiresActive(s.batches, q, document)
    requires OneActive(s.batches) && EvidenceInv(s.batches) && BatchSourceInv(s.batches, s.intakes)
    ensures BatchesMove(s.batches, q) && OneActive(q) && EvidenceInv(q) && BatchSourceInv(q, s.intakes)
  {
    RetiresEvidence(s.batches, q, document);
    hide EvidenceInv;
  }

  lemma RetiresEvidence(p: map<Id, Batch>, q: map<Id, Batch>, document: Id)
    requires RetiresActive(p, q, document) && EvidenceInv(p)
    ensures EvidenceInv(q)
  {
  }

  /** The same batches, where those that changed are no longer under review. */
  ghost predicate LeavesReview(p: map<Id, Batch>, q: map<Id, Batch>) {
    p.Keys == q.Keys && forall a :: a in p ==>
      q[a].identity == p[a].identity && (q[a] == p[a] || !Reviewable(q[a].lifecycle))
  }

  lemma BatchesFrame(
    decisions: map<Id, Decision>, extractions: map<Id, Extraction>, p: map<Id, Batch>, q: map<Id, Batch>)
    requires MemberInv(extractions, p) && CountInv(extractions, p) && ReadyInv(decisions, extractions, p)
    requires LeavesReview(p, q)
    ensures MemberInv(extractions, q) && CountInv(extractions, q) && ReadyInv(decisions, extractions, q)
  {
    hide Members, Decided;
  }

  /** `q` is `p` with every approval of the document superseded. */
  ghost predicate RetiresApproved(p: map<Id, Extraction>, q: map<Id, Extraction>, document: Id) {
    && p.Keys == q.Keys
    && forall x :: x in p ==>
         if p[x].status == Approved && p[x].content.document == document
         then q[x].content == p[x].content && q[x].status == Superseded && q[x].version == 3
         else q[x] == p[x]
  }

  lemma RetiredAuthority(
    p: map<Id, Extraction>, q: map<Id, Extraction>, before: map<Id, Batch>, after: map<Id, Batch>, document: Id)
    requires RetiresApproved(p, q, document) && RetiresActive(before, after, document)
    requires MemberInv(p, before) && AuthorityInv(p, before) && SettledInv(p, before)
    ensures AuthorityInv(q, after) && SettledInv(q, after)
  {
  }

  lemma RetiredBills(s: Db, b: Id, actor: string, now: Time)
    requires BillInv(s.bills, s.issuers, s.verified) && b in s.batches
    ensures var t := RetirePrior(s, b, actor, now);
      BillInv(t.bills, t.issuers, t.verified) && BillsMove(s.bills, t.bills)
  {
    hide PriorApproved, PriorActive, BillLinks, OneBillPerRecord;
    RetiredLinks(s, b, actor, now);
  }

  lemma RetiredLinks(s: Db, b: Id, actor: string, now: Time)
    requires BillLinks(s.bills, s.issuers, s.verified) && OneBillPerRecord(s.bills) && b in s.batches
    ensures var t := RetirePrior(s, b, actor, now);
      BillLinks(t.bills, t.issuers, t.verified) && OneBillPerRecord(t.bills)
  {
    hide PriorApproved, PriorActive, PriorBills;
  }

  lemma RetireShape(s: Db, b: Id, actor: string, now: Time)
    requires Inv(s) && b in s.batches && Reviewable(s.batches[b].lifecycle)
    ensures var t := RetirePrior(s, b, actor, now);
      && t == s.(extractions := t.extractions, batches := t.batches, bills := t.bills)
      && RetiresApproved(s.extractions, t.extractions, s.batches[b].identity.document)
      && RetiresActive(s.batches, t.batches, s.batches[b].identity.document)
  {
    hide ReadyInv, DecisionInv, VerifiedInv, BillInv, SourceInv, BatchSourceInv, DocumentInv, PriorApproved;
    hide PriorBills, PriorActive;
    hide RetiresApproved, RetiresActive, StatusInv, MemberInv, CountInv, OneActive, AuthorityInv, SettledInv;
    hide EvidenceInv;
    RetiredExtractions(s, b, actor, now);
    RetiredBatches(s, b, actor, now);
  }

  lemma RetiresFrames(
    p: map<Id, Extraction>, q: map<Id, Extraction>, before: map<Id, Batch>, after: map<Id, Batch>, document: Id)
    requires RetiresApproved(p, q, document) && RetiresActive(before, after, document)
    ensures SameRows(p, q) && LeavesReview(before, after)
  {
  }

  lemma RetiredFrames(s: Db, b: Id, actor: string, now: Time)
    requires Inv(s) && b in s.batches && Reviewable(s.batches[b].lifecycle)
    ensures var t := RetirePrior(s, b, actor, now);
      && MemberInv(t.extractions, t.batches) && CountInv(t.extractions, t.batches)
      && ReadyInv(t.decisions, t.extractions, t.batches) && DecisionInv(t.decisions, t.extractions)
  {
    hide RetirePrior, StatusInv, AuthorityInv, SettledInv, OneActive, EvidenceInv, VerifiedInv, BillInv;
    hide DecisionInv, SourceInv;
    hide DocumentInv, BatchSourceInv, MemberInv, CountInv, ReadyInv, LeavesReview, SameRows, RetiresApproved;
    hide RetiresActive;
    RetireShape(s, b, actor, now);
    var t := RetirePrior(s, b, actor, now);
    RetiresFrames(s.extractions, t.extractions, s.batches, t.batches, s.batches[b].identity.document);
    SameRowsFrame(s.extractions, t.extractions, s.batches, s.decisions);
    BatchesFrame(s.decisions, t.extractions, s.batches, t.batches);
  }

  /** The first flush: everything holds and the document has no authority left. */
  lemma RetirePriorKeeps(s: Db, b: Id, actor: string, now: Time)
    requires Inv(s) && b in s.batches && Reviewable(s.batches[b].lifecycle)
    ensures var t := RetirePrior(s, b, actor, now); Inv(t) && Evolves(s, t)
  {
    hide RetirePrior, StatusInv, AuthorityInv, SettledInv, OneActive, EvidenceInv, VerifiedInv, BillInv;
    hide DecisionInv, SourceInv;
    hide DocumentInv, BatchSourceInv, MemberInv, CountInv, ReadyInv, RetiresApproved, RetiresActive;
    hide ExtractionsMove, BatchesMove, BillsMove, IntakesMove, Grows;
    RetireShape(s, b, actor, now);
    RetiredFrames(s, b, actor, now);
    RetiredBills(s, b, actor, now);
    var t, d := RetirePrior(s, b, actor, now), s.batches[b].identity.document;
    EvolvesReflexive(s);
    RetiredRows(s.extractions, t.extractions, s.verified, d);
    RetiresKeeps(s, t.batches, d);
    RetiredAuthority(s.extractions, t.extractions, s.batches, t.batches, d);
  }

  lemma RetiredVacant(s: Db, b: Id, actor: string, now: Time)
    requires Inv(s) && b in s.batches && Reviewable(s.batches[b].lifecycle)
    ensures var t := RetirePrior(s, b, actor, now);
      Vacant(t, s.batches[b].identity.document) && b in t.batches && t.batches[b] == s.batches[b]
  {
    hide RetirePrior, Inv, RetiresApproved, RetiresActive, Vacant;
    RetireShape(s, b, actor, now);
    var t := RetirePrior(s, b, actor, now);
    RetiresVacates(s, t, b, s.batches[b].identity.document);
  }

  lemma RetiresVacates(s: Db, t: Db, b: Id, document: Id)
    requires RetiresApproved(s.extractions, t.extractions, document) && RetiresActive(s.batches, t.batches, document)
    requires b in s.batches && Reviewable(s.batches[b].lifecycle)
    ensures Vacant(t, document) && b in t.batches && t.batches[b] == s.batches[b]
  {
  }
}
