/** Staging decisions keeps linear chains and readiness. */
module DecisionProofs {
  import opened Basics
  import opened Model
  import opened Authority
  import opened Invariant
  import opened Review
  import opened Text

  lemma {:induction false} HighestRevision(decisions: map<Id, Decision>, ids: set<Id>) returns (top: Id)
    requires ids != {} && ids <= decisions.Keys
    ensures top in ids && forall x :: x in ids ==> decisions[x].revision <= decisions[top].revision
    decreases ids
  {
    var x :| x in ids;
    top := x;
    if ids != {x} {
      var rest := HighestRevision(decisions, ids - {x});
      if decisions[rest].revision > decisions[x].revision { top := rest; }
    }
  }

  /** A candidate has a latest decision exactly when it has any. */
  lemma LatestWhenDecided(decisions: map<Id, Decision>, b: Id, e: Id)
    ensures Latest(decisions, b, e).Some? <==>
      exists d :: d in decisions && decisions[d].batch == b && decisions[d].extraction == e
  {
    if exists d :: d in decisions && decisions[d].batch == b && decisions[d].extraction == e {
      var d :| d in decisions && decisions[d].batch == b && decisions[d].extraction == e;
      var ids := set c | c in decisions && decisions[c].batch == b && decisions[c].extraction == e;
      assert d in ids;
      var top := HighestRevision(decisions, ids);
      assert IsLatest(decisions, b, e, top);
    }
  }

  lemma DecidedWhenLatest(decisions: map<Id, Decision>, b: Id, e: Id)
    ensures e in Decided(decisions, b) <==> Latest(decisions, b, e).Some?
  {
    LatestWhenDecided(decisions, b, e);
  }

  lemma DecidedIsMember(decisions: map<Id, Decision>, extractions: map<Id, Extraction>, b: Id)
    requires DecisionInv(decisions, extractions)
    ensures Decided(decisions, b) <= Members(extractions, b)
  {
  }

  ghost predicate Bound(decisions: map<Id, Decision>, extractions: map<Id, Extraction>, d: Id)
    requires d in decisions
  {
    && decisions[d].extraction in extractions
    && InBatch(extractions[decisions[d].extraction], decisions[d].batch)
    && decisions[d].expectedVersion == 1
    && DecisionShape(decisions[d])
  }

  lemma RowLinks(staged: map<Id, Decision>, extractions: map<Id, Extraction>, id: Id, row: Decision)
    requires DecisionInv(staged, extractions) && id !in staged && Bound(staged[id := row], extractions, id)
    requires DecisionLinked(staged[id := row], id)
    requires forall x :: x in staged && staged[x].extraction == row.extraction ==> staged[x].revision < row.revision
    ensures DecisionInv(staged[id := row], extractions)
  {
    hide DecisionShape, DecisionLinked, InBatch;
    var r := staged[id := row];
    forall x | x in staged ensures DecisionLinked(r, x) {
      LinkStays(staged, r, x);
    }
  }

  lemma LinkStays(p: map<Id, Decision>, q: map<Id, Decision>, d: Id)
    requires Grows(p, q) && d in p && DecisionLinked(p, d)
    ensures DecisionLinked(q, d)
  {
  }

  lemma StageOneLinks(staged: map<Id, Decision>, extractions: map<Id, Extraction>, b: Id, d: Draft, actor: string)
    requires DecisionInv(staged, extractions) && DraftNormal(d) && d.id !in staged
    requires d.extraction in extractions && InBatch(extractions[d.extraction], b) && d.expectedVersion == 1
    requires var prior := Latest(staged, b, d.extraction);
      d.expectedRevision == if prior.Some? then staged[prior.value].revision else 0
    requires DecisionShape(DecisionRow(b, d, Latest(staged, b, d.extraction), actor))
    ensures DecisionInv(staged[d.id := DecisionRow(b, d, Latest(staged, b, d.extraction), actor)], extractions)
  {
    hide Strip, Bounded, DecisionShape;
    LatestWhenDecided(staged, b, d.extraction);
    var prior := Latest(staged, b, d.extraction);
    var row := DecisionRow(b, d, prior, actor);
    forall x | x in staged && staged[x].extraction == d.extraction ensures staged[x].revision < row.revision {
      assert staged[x].batch == b;
    }
    assert prior.Some? ==> DecisionLinked(staged, prior.value);
    hide DecisionInv, Latest;
    RowLinks(staged, extractions, d.id, row);
  }

  /** `r` is `p` with new revisions for `targets`, `firsts` of which had no decision before. */
  ghost predicate Extends(p: map<Id, Decision>, r: map<Id, Decision>, b: Id, targets: set<Id>, firsts: nat) {
    && Grows(p, r)
    && Decided(r, b) == Decided(p, b) + targets
    && (forall c :: c != b ==> Decided(r, c) == Decided(p, c))
    && |Decided(r, b)| == |Decided(p, b)| + firsts
  }

  lemma ExtendsTransitive(
    p: map<Id, Decision>, q: map<Id, Decision>, r: map<Id, Decision>, b: Id, t: set<Id>, u: set<Id>, n: nat, k: nat)
    requires Extends(p, q, b, t, n) && Extends(q, r, b, u, k)
    ensures Extends(p, r, b, t + u, n + k)
  {
    hide Decided;
  }

  lemma ExtendedByOne(staged: map<Id, Decision>, id: Id, row: Decision)
    requires id !in staged
    ensures Extends(staged, staged[id := row], row.batch, {row.extraction},
      if row.extraction in Decided(staged, row.batch) then 0 else 1)
  {
    var r := staged[id := row];
    forall c, e | e in Decided(staged, c) ensures e in Decided(r, c) {
      var d :| d in staged && staged[d].batch == c && staged[d].extraction == e;
      assert r[d] == staged[d];
    }
    assert r[id].extraction in Decided(r, row.batch);
    forall c, e | e in Decided(r, c) && !(c == row.batch && e == row.extraction) ensures e in Decided(staged, c) {
      var d :| d in r && r[d].batch == c && r[d].extraction == e;
      assert staged[d] == r[d];
    }
    assert Decided(r, row.batch) == Decided(staged, row.batch) + {row.extraction};
  }

  lemma StageOneKeeps(m: Mapping, s: Db, b: Id, staged: map<Id, Decision>, d: Draft, actor: string)
    requires StatusInv(s.extractions) && DecisionInv(staged, s.extractions)
    requires d.extraction in s.extractions && InBatch(s.extractions[d.extraction], b) && DraftNormal(d)
    requires StageOne(m, s, b, staged, d, actor).Ok?
    ensures var r := StageOne(m, s, b, staged, d, actor).value;
      DecisionInv(r, s.extractions) && Extends(staged, r, b, {d.extraction}, if d.expectedRevision == 0 then 1 else 0)
  {
    var prior := Latest(staged, b, d.extraction);
    var row := DecisionRow(b, d, prior, actor);
    DecidedWhenLatest(staged, b, d.extraction);
    StageOneLinks(staged, s.extractions, b, d, actor);
    ExtendedByOne(staged, d.id, row);
    if prior.Some? { assert DecisionLinked(staged, prior.value); }
    hide Extends, DecisionInv, Decided;
  }

  function Targets(drafts: seq<Draft>): set<Id> {
    set d | d in drafts :: d.extraction
  }

  lemma NothingStaged(p: map<Id, Decision>, b: Id)
    ensures Extends(p, p, b, Targets([]), FirstTimers([]))
  {
    assert Targets([]) == {};
  }

  lemma {:induction false} StageAllKeeps(m: Mapping, s: Db, b: Id, drafts: seq<Draft>, actor: string)
    requires StatusInv(s.extractions) && DecisionInv(s.decisions, s.extractions)
    requires forall d :: d in drafts ==>
      d.extraction in s.extractions && InBatch(s.extractions[d.extraction], b) && DraftNormal(d)
    requires StageAll(m, s, b, drafts, actor).Ok?
    ensures var r := StageAll(m, s, b, drafts, actor).value;
      DecisionInv(r, s.extractions) && Extends(s.decisions, r, b, Targets(drafts), FirstTimers(drafts))
  {
    hide DecisionInv, StatusInv, StageOne, Extends, DraftNormal, InBatch;
    if drafts != [] {
      var front, last := drafts[..|drafts| - 1], drafts[|drafts| - 1];
      assert forall d :: d in drafts <==> d in front || d == last;
      StageAllKeeps(m, s, b, front, actor);
      var r := StageAll(m, s, b, front, actor).value;
      StageOneKeeps(m, s, b, r, last, actor);
      var r' := StageOne(m, s, b, r, last, actor).value;
      var first := if last.expectedRevision == 0 then 1 else 0;
      ExtendsTransitive(s.decisions, r, r', b, Targets(front), {last.extraction}, FirstTimers(front), first);
      assert Targets(drafts) == Targets(front) + {last.extraction};
    } else {
      assert drafts == [];
      NothingStaged(s.decisions, b);
    }
  }

  lemma FullWhenCounted(a: set<Id>, b: set<Id>)
    requires a <= b
    ensures |a| == |b| <==> a == b
  {
    assert |b| == |a| + |b - a| by { assert b == a + (b - a); }
    if |a| == |b| { assert b - a == {}; }
  }

  /** The incremental count in `apply_decisions` tests that every candidate is decided. */
  lemma ReadyTest(m: Mapping, s: Db, b: Id, drafts: seq<Draft>, actor: string)
    requires StatusInv(s.extractions) && DecisionInv(s.decisions, s.extractions) && CountInv(s.extractions, s.batches)
    requires b in s.batches && forall d :: d in drafts ==>
      d.extraction in s.extractions && InBatch(s.extractions[d.extraction], b) && DraftNormal(d)
    requires StageAll(m, s, b, drafts, actor).Ok?
    ensures var n := s.batches[b].identity.candidateCount;
      |Decided(s.decisions, b)| + FirstTimers(drafts) == n <==>
      Decided(StageAll(m, s, b, drafts, actor).value, b) == Members(s.extractions, b)
  {
    StageAllKeeps(m, s, b, drafts, actor);
    hide StageAll, StatusInv, DraftNormal;
    DecidedIsMember(StageAll(m, s, b, drafts, actor).value, s.extractions, b);
    FullWhenCounted(Decided(StageAll(m, s, b, drafts, actor).value, b), Members(s.extractions, b));
  }

  lemma StagedReview(s: Db, b: Id, row: Batch)
    requires ReviewInv(s) && b in s.batches && Reviewable(s.batches[b].lifecycle) && Reviewable(row.lifecycle)
    requires row == s.batches[b].(lifecycle := row.lifecycle, version := s.batches[b].version + 1)
    ensures ReviewInv(s.(batches := s.batches[b := row])) && BatchesMove(s.batches, s.batches[b := row])
  {
    hide StatusInv, MemberInv, CountInv, AuthorityInv, SettledInv, Members;
    StagedMembers(s.extractions, s.batches, b, row);
  }

  lemma StagedMembers(extractions: map<Id, Extraction>, batches: map<Id, Batch>, b: Id, row: Batch)
    requires MemberInv(extractions, batches) && CountInv(extractions, batches) && AuthorityInv(extractions, batches)
      && SettledInv(extractions, batches)
    requires b in batches && Reviewable(batches[b].lifecycle) && Reviewable(row.lifecycle)
      && row.identity == batches[b].identity
    ensures var after := batches[b := row];
      MemberInv(extractions, after) && CountInv(extractions, after) && AuthorityInv(extractions, after)
        && SettledInv(extractions, after)
  {
    hide Members;
  }

  lemma StagedReady(s: Db, decisions: map<Id, Decision>, b: Id, row: Batch, targets: set<Id>, firsts: nat)
    requires ReadyInv(s.decisions, s.extractions, s.batches) && BatchSourceInv(s.batches, s.intakes)
    requires b in s.batches && row.identity == s.batches[b].identity
      && Extends(s.decisions, decisions, b, targets, firsts)
    requires row.lifecycle == ReadyToActivate <==>
      row.identity.candidateCount > 0 && Decided(decisions, b) == Members(s.extractions, b)
    ensures ReadyInv(decisions, s.extractions, s.batches[b := row]) && BatchSourceInv(s.batches[b := row], s.intakes)
  {
    hide Decided, Members;
  }

  /** What an accepted request looked like, and what it wrote. */
  lemma ApplyDecisionsShape(m: Mapping, s: Db, b: Id, v: int, drafts: seq<Draft>, actor: string)
    requires ApplyDecisions(m, s, b, v, drafts, actor).Ok?
    ensures b in s.batches && s.batches[b].version == v && Reviewable(s.batches[b].lifecycle)
    ensures drafts != [] && drafts[0].extraction in Members(s.extractions, b)
    ensures forall d :: d in drafts ==>
      d.extraction in s.extractions && InBatch(s.extractions[d.extraction], b) && DraftNormal(d)
    ensures StageAll(m, s, b, drafts, Strip(actor)).Ok?
    ensures var t := ApplyDecisions(m, s, b, v, drafts, actor).value;
      var ready := |Members(s.extractions, b)| == s.batches[b].identity.candidateCount
        && |Decided(s.decisions, b)| + FirstTimers(drafts) == s.batches[b].identity.candidateCount;
      t == s.(decisions := StageAll(m, s, b, drafts, Strip(actor)).value,
              batches := s.batches[b := s.batches[b].(lifecycle := if ready then ReadyToActivate
                else Open, version := v + 1)])
  {
    hide Strip, Bounded, StageAll, DraftNormal, Decided, FirstTimers;
    forall d | d in drafts
      ensures d.extraction in s.extractions && InBatch(s.extractions[d.extraction], b) && DraftNormal(d)
    {
      assert d.extraction in Members(s.extractions, b);
    }
    assert drafts[0] in drafts;
  }

  lemma ApplyDecisionsChains(m: Mapping, s: Db, b: Id, v: int, drafts: seq<Draft>, actor: string)
    requires Inv(s) && ApplyDecisions(m, s, b, v, drafts, actor).Ok?
    ensures var t := ApplyDecisions(m, s, b, v, drafts, actor).value;
      DecisionInv(t.decisions, s.extractions)
        && Extends(s.decisions, t.decisions, b, Targets(drafts), FirstTimers(drafts))
  {
    hide ApplyDecisions, DecisionInv, Extends, StageAll, DraftNormal, Strip, InBatch;
    ApplyDecisionsShape(m, s, b, v, drafts, actor);
    StageAllKeeps(m, s, b, drafts, Strip(actor));
  }

  /** The stored lifecycle is ready exactly when every candidate is decided. */
  lemma ApplyDecisionsReadiness(m: Mapping, s: Db, b: Id, v: int, drafts: seq<Draft>, actor: string)
    requires Inv(s) && ApplyDecisions(m, s, b, v, drafts, actor).Ok?
    ensures var t := ApplyDecisions(m, s, b, v, drafts, actor).value;
      && b in t.batches && Reviewable(t.batches[b].lifecycle) && t.batches[b].identity.candidateCount > 0
      && (t.batches[b].lifecycle == ReadyToActivate <==> Decided(t.decisions, b) == Members(s.extractions, b))
  {
    hide ApplyDecisions, DecisionInv, StageAll, DraftNormal, Strip, InBatch, Decided;
    ApplyDecisionsShape(m, s, b, v, drafts, actor);
    ReadyTest(m, s, b, drafts, Strip(actor));
  }

  lemma ApplyDecisionsBatches(m: Mapping, s: Db, b: Id, v: int, drafts: seq<Draft>, actor: string)
    requires Inv(s) && ApplyDecisions(m, s, b, v, drafts, actor).Ok?
    ensures var t := ApplyDecisions(m, s, b, v, drafts, actor).value;
      && ReviewInv(t) && BatchesMove(s.batches, t.batches)
      && ReadyInv(t.decisions, t.extractions, t.batches) && BatchSourceInv(t.batches, t.intakes)
  {
    hide ApplyDecisions, DecisionInv, StageAll, DraftNormal, Strip, Decided, Members, ReviewInv, BatchesMove, Extends;
    ApplyDecisionsShape(m, s, b, v, drafts, actor);
    var t := ApplyDecisions(m, s, b, v, drafts, actor).value;
    StagedReview(s, b, t.batches[b]);
    ReviewFrame(s.(batches := t.batches), t);
    ApplyDecisionsReady(m, s, b, v, drafts, actor);
  }

  lemma ApplyDecisionsReady(m: Mapping, s: Db, b: Id, v: int, drafts: seq<Draft>, actor: string)
    requires Inv(s) && ApplyDecisions(m, s, b, v, drafts, actor).Ok?
    ensures var t := ApplyDecisions(m, s, b, v, drafts, actor).value;
      ReadyInv(t.decisions, t.extractions, t.batches) && BatchSourceInv(t.batches, t.intakes)
  {
    hide ApplyDecisions, DecisionInv, StageAll, DraftNormal, Strip, Decided, Members, ReviewInv, Extends;
    hide ReadyInv, BatchSourceInv;
    ApplyDecisionsShape(m, s, b, v, drafts, actor);
    var t := ApplyDecisions(m, s, b, v, drafts, actor).value;
    ApplyDecisionsChains(m, s, b, v, drafts, actor);
    ApplyDecisionsReadiness(m, s, b, v, drafts, actor);
    StagedReady(s, t.decisions, b, t.batches[b], Targets(drafts), FirstTimers(drafts));
  }

  lemma ApplyDecisionsKeeps(m: Mapping, s: Db, b: Id, v: int, drafts: seq<Draft>, actor: string)
    requires Inv(s) && ApplyDecisions(m, s, b, v, drafts, actor).Ok?
    ensures var t := ApplyDecisions(m, s, b, v, drafts, actor).value; Inv(t) && Evolves(s, t)
  {
    hide StatusInv, MemberInv, OneActive, AuthorityInv, SettledInv, EvidenceInv, DecisionInv, ReadyInv;
    hide BatchSourceInv, CountInv;
    hide VerifiedInv, BillInv, DocumentInv, SourceInv, ExtractionsMove, BatchesMove, BillsMove, IntakesMove, Grows;
    hide StageAll, Decided, FirstTimers, Targets, ApplyDecisions, InBatch, DraftNormal, Strip;
    EvolvesReflexive(s);
    ApplyDecisionsShape(m, s, b, v, drafts, actor);
    ApplyDecisionsChains(m, s, b, v, drafts, actor);
    ApplyDecisionsBatches(m, s, b, v, drafts, actor);
  }
}
