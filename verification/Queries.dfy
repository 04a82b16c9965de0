/**
  The queries behind the repository methods, as loops over the rows.  Each is
  proved to return what its specification function names.
*/
module Queries {
  import opened Basics
  import opened Model
  import opened Authority
  import opened Billing
  import opened Invariant
  import opened Review
  import opened RowOrder
  import PreviewTheorems
  import Sources

  // ------------------------------------------------------------ single rows

  ghost predicate RevisionsUnique(decisions: map<Id, Decision>) {
    forall c, d :: c in decisions && d in decisions
      && decisions[c].extraction == decisions[d].extraction && decisions[c].revision == decisions[d].revision
      ==> c == d
  }

  predicate Decides(decisions: map<Id, Decision>, b: Id, e: Id, d: Id) {
    d in decisions && decisions[d].batch == b && decisions[d].extraction == e
  }

  /** `_latest_decisions`, for one candidate. */
  method FindLatest(decisions: map<Id, Decision>, b: Id, e: Id) returns (r: Option<Id>)
    requires RevisionsUnique(decisions)
    ensures r == Latest(decisions, b, e)
  {
    r := None;
    var todo := decisions.Keys;
    while todo != {}
      invariant todo <= decisions.Keys
      invariant r.None? ==> forall d :: d in decisions && d !in todo ==> !Decides(decisions, b, e, d)
      invariant r.Some? ==> Decides(decisions, b, e, r.value)
      invariant r.Some? ==> forall d :: d in decisions && d !in todo && Decides(decisions, b, e, d) ==>
        decisions[d].revision <= decisions[r.value].revision
      decreases todo
    {
      var d :| d in todo;
      todo := todo - {d};
      if Decides(decisions, b, e, d) && (r.None? || decisions[r.value].revision < decisions[d].revision) {
        r := Some(d);
      }
    }
    LatestIs(decisions, b, e, r);
  }

  lemma LatestIs(decisions: map<Id, Decision>, b: Id, e: Id, r: Option<Id>)
    requires RevisionsUnique(decisions)
    requires r.None? ==> forall d :: d in decisions ==> !Decides(decisions, b, e, d)
    requires r.Some? ==>
      Decides(decisions, b, e, r.value) && forall d :: d in decisions && Decides(decisions, b, e, d) ==>
        decisions[d].revision <= decisions[r.value].revision
    ensures r == Latest(decisions, b, e)
  {
    if r.Some? {
      assert IsLatest(decisions, b, e, r.value);
      var d := Latest(decisions, b, e).value;
      assert Decides(decisions, b, e, d);
    } else {
      forall d ensures !IsLatest(decisions, b, e, d) {
        assert d in decisions ==> !Decides(decisions, b, e, d);
      }
    }
  }

  predicate IsOriginal(files: map<Id, SourceFile>, document: Id, f: Id) {
    f in files && files[f].document == document && files[f].kind == Original
  }

  predicate Newer(files: map<Id, SourceFile>, f: Id, g: Id)
    requires f in files && g in files
  {
    files[g].version < files[f].version || (files[g].version == files[f].version && g < f)
  }

  /** `_latest_original` */
  method FindLatestOriginal(files: map<Id, SourceFile>, document: Id) returns (r: Option<Id>)
    ensures r == LatestOriginal(files, document)
  {
    r := None;
    var todo := files.Keys;
    while todo != {}
      invariant todo <= files.Keys
      invariant r.None? ==> forall g :: g in files && g !in todo ==> !IsOriginal(files, document, g)
      invariant r.Some? ==> IsOriginal(files, document, r.value)
      invariant r.Some? ==> forall g :: g in files && g !in todo && IsOriginal(files, document, g) ==>
        g == r.value || Newer(files, r.value, g)
      decreases todo
    {
      var f :| f in todo;
      todo := todo - {f};
      if IsOriginal(files, document, f) && (r.None? || Newer(files, f, r.value)) { r := Some(f); }
    }
    OriginalIs(files, document, r);
  }

  lemma OriginalIs(files: map<Id, SourceFile>, document: Id, r: Option<Id>)
    requires r.None? ==> forall g :: g in files ==> !IsOriginal(files, document, g)
    requires r.Some? ==>
      IsOriginal(files, document, r.value) && forall g :: g in files && IsOriginal(files, document, g) ==>
        g == r.value || Newer(files, r.value, g)
    ensures r == LatestOriginal(files, document)
  {
    if r.Some? {
      assert forall g :: g in files && files[g].document == document && files[g].kind == Original ==>
        IsOriginal(files, document, g);
      assert IsLatestOriginal(files, document, r.value);
      var g := LatestOriginal(files, document).value;
      assert IsOriginal(files, document, g);
    } else {
      forall g ensures !IsLatestOriginal(files, document, g) {
        assert g in files ==> !IsOriginal(files, document, g);
      }
    }
  }

  /** The active batch that an activation of `b` would retire. */
  method FindPriorActive(s: Db, b: Id) returns (r: Option<Id>)
    requires b in s.batches && OneActive(s.batches)
    ensures r == PriorActive(s, b)
  {
    r := None;
    var todo := s.batches.Keys;
    while todo != {}
      invariant todo <= s.batches.Keys
      invariant r.None? ==> forall a :: a in s.batches && a !in todo ==> !IsPriorActive(s, b, a)
      invariant r.Some? ==> IsPriorActive(s, b, r.value)
      decreases todo
    {
      var a :| a in todo;
      todo := todo - {a};
      if a != b && s.batches[a].lifecycle == Active
        && s.batches[a].identity.document == s.batches[b].identity.document {
        r := Some(a);
      }
    }
    if r.Some? {
      assert IsPriorActive(s, b, r.value);
      assert PriorActive(s, b).Some?;
    } else {
      assert forall a :: a in s.batches ==> !IsPriorActive(s, b, a);
      assert forall a :: IsPriorActive(s, b, a) ==> a in s.batches;
    }
  }

  method FindIssuer(issuers: map<Id, Issuer>, name: string) returns (r: Option<Id>)
    requires IssuerNamesUnique(issuers)
    ensures r == IssuerNamed(issuers, name)
  {
    r := None;
    var todo := issuers.Keys;
    while todo != {}
      invariant todo <= issuers.Keys
      invariant r.None? ==> forall i :: i in issuers && i !in todo ==> issuers[i].name != name
      invariant r.Some? ==> NamesIssuer(issuers, name, r.value)
      decreases todo
    {
      var i :| i in todo;
      todo := todo - {i};
      if issuers[i].name == name { r := Some(i); }
    }
    if r.Some? { assert NamesIssuer(issuers, name, IssuerNamed(issuers, name).value); }
  }

  method FindPeriodOwner(bills: map<Id, BillRow>, issuer: Id, period: nat) returns (r: Option<Id>)
    requires OneOwner(bills)
    ensures r == PeriodOwner(bills, issuer, period)
  {
    r := None;
    var todo := bills.Keys;
    while todo != {}
      invariant todo <= bills.Keys
      invariant r.None? ==> forall x :: x in bills && x !in todo ==> !OwnsPeriod(bills, issuer, period, x)
      invariant r.Some? ==> OwnsPeriod(bills, issuer, period, r.value)
      decreases todo
    {
      var x :| x in todo;
      todo := todo - {x};
      if Live(bills[x]) && bills[x].content.issuer == issuer && bills[x].content.period == period { r := Some(x); }
    }
    if r.Some? { assert OwnsPeriod(bills, issuer, period, PeriodOwner(bills, issuer, period).value); }
  }

  method FindBillOf(bills: map<Id, BillRow>, verified: Id) returns (r: Option<Id>)
    requires OneBillPerRecord(bills)
    ensures r == BillOf(bills, verified)
  {
    r := None;
    var todo := bills.Keys;
    while todo != {}
      invariant todo <= bills.Keys
      invariant r.None? ==> forall x :: x in bills && x !in todo ==> bills[x].content.verified != verified
      invariant r.Some? ==> r.value in bills && bills[r.value].content.verified == verified
      decreases todo
    {
      var x :| x in todo;
      todo := todo - {x};
      if bills[x].content.verified == verified { r := Some(x); }
    }
  }

  // ------------------------------------------------------------ sets of rows

  method CollectPriorApproved(s: Db, b: Id) returns (r: set<Id>)
    requires b in s.batches && OneActive(s.batches)
    ensures r == PriorApproved(s, b)
  {
    var active := FindPriorActive(s, b);
    r := {};
    var todo := s.extractions.Keys;
    while todo != {}
      invariant todo <= s.extractions.Keys
      invariant forall x :: x in r <==> x in s.extractions && x !in todo && x in PriorApproved(s, b)
      decreases todo
    {
      var x :| x in todo;
      todo := todo - {x};
      var row := s.extractions[x];
      if row.status == Approved
         && ((IsLegacy(row) && row.content.document == s.batches[b].identity.document)
              || (active.Some? && InBatch(row, active.value)))
      {
        r := r + {x};
      }
    }
  }

  method CollectPriorBills(s: Db, b: Id, approved: set<Id>) returns (r: set<Id>)
    requires b in s.batches && approved == PriorApproved(s, b)
    ensures r == PriorBills(s, b)
  {
    hide PriorApproved;
    r := {};
    var todo := s.bills.Keys;
    while todo != {}
      invariant todo <= s.bills.Keys
      invariant forall x :: x in r <==> x in s.bills && x !in todo && x in PriorBills(s, b)
      decreases todo
    {
      var x :| x in todo;
      todo := todo - {x};
      var bill := s.bills[x];
      if Live(bill) && bill.content.verified in s.verified && s.verified[bill.content.verified].extraction in approved {
        r := r + {x};
      }
    }
  }

  method CheckSource(s: Db, b: Id) returns (current: bool)
    requires b in s.batches
    ensures current == SourceIsCurrent(s, b)
  {
    var id := s.batches[b].identity;
    var latest := FindLatestOriginal(s.files, id.document);
    if latest != Some(id.sourceFile) { return false; }
    if id.intake !in s.intakes { return false; }
    var file, intake := s.files[id.sourceFile], s.intakes[id.intake];
    return file.version == id.sourceVersion && file.sha256 == id.sha256
      && intake.document == id.document && intake.sourceFile == id.sourceFile
      && intake.sourceVersion == id.sourceVersion && intake.sha256 == id.sha256 && intake.state == Processed;
  }

  // ------------------------------------------------------------ lists of rows

  /** Some retrieval order of a table. */
  method ListRows<T(==)>(table: map<Id, T>) returns (rows: seq<(Id, T)>)
    ensures Enumerates(rows, table)
  {
    rows := [];
    var todo := table.Keys;
    while todo != {}
      invariant todo <= table.Keys
      invariant forall i, j :: 0 <= i < j < |rows| ==> rows[i].0 != rows[j].0
      invariant forall i :: 0 <= i < |rows| ==>
        rows[i].0 in table && rows[i].0 !in todo && table[rows[i].0] == rows[i].1
      invariant forall k :: k in table && k !in todo ==> (k, table[k]) in rows
      decreases todo
    {
      var k :| k in todo;
      todo := todo - {k};
      rows := rows + [(k, table[k])];
    }
  }

  /** `order by id` */
  method ListIds(ids: set<Id>) returns (r: seq<Id>)
    ensures r == Ordered(ids)
  {
    var table := map e | e in ids :: true;
    var rows := ListRows(table);
    SortGivesListing(rows, table);
    r := KeysOf(SortRows(rows));
  }

  // ------------------------------------------------------------ activation state

  /** `_candidate_activation` */
  method DeriveFacts(m: Mapping, s: Db, b: Id, e: Id) returns (facts: Facts)
    requires e in s.extractions && RevisionsUnique(s.decisions)
    ensures facts == CandidateFacts(m, s, b, e)
  {
    hide VerifiedValues, RecurringProjection, Latest;
    var x := s.extractions[e];
    var decision := FindLatest(s.decisions, b, e);
    var faults := [];
    if x.content.lineage.None? { faults := faults + [LineageInvalid(e)]; }
    if x.status != Pending { faults := faults + [NotPending(e)]; }
    var plain := EffectiveSubtype(x, None);
    if decision.None? { return Facts(decision, None, plain, None, faults + [DecisionMissing(e)]); }
    var d := s.decisions[decision.value];
    if d.expectedVersion != x.version { return Facts(decision, None, plain, None, faults + [DecisionVersionStale(e)]); }
    if d.action == Exclude { return Facts(decision, None, plain, None, faults); }
    var accepted := DecisionAccepted(m, x, Include, d.corrections, d.subtype, None);
    if !accepted { faults := faults + [DecisionInvalid(e)]; }
    if x.content.payload != map[] && Manifest(s, b, e) == map[] { faults := faults + [SearchChunksMissing(e)]; }
    if !accepted || x.content.lineage.value.kind == GenericDocument {
      return Facts(decision, None, plain, None, faults);
    }
    var effective := EffectiveSubtype(x, d.subtype);
    var projection := if effective == Some(RecurringBill) then RecurringProjection(m, x, d.corrections) else None;
    return Facts(decision, VerifiedValues(m, x, d.corrections), effective, projection, faults);
  }

  ghost predicate FactsOf(m: Mapping, s: Db, b: Id, facts: map<Id, Facts>) {
    facts.Keys == Members(s.extractions, b) && forall e :: e in facts ==> facts[e] == CandidateFacts(m, s, b, e)
  }

  method DeriveAll(m: Mapping, s: Db, b: Id) returns (facts: map<Id, Facts>)
    requires RevisionsUnique(s.decisions)
    ensures FactsOf(m, s, b, facts)
  {
    hide CandidateFacts;
    facts := map[];
    var todo := Members(s.extractions, b);
    while todo != {}
      invariant facts.Keys + todo == Members(s.extractions, b) && facts.Keys !! todo
      invariant forall e :: e in facts ==> facts[e] == CandidateFacts(m, s, b, e)
      decreases todo
    {
      var e :| e in todo;
      todo := todo - {e};
      var f := DeriveFacts(m, s, b, e);
      facts := facts[e := f];
    }
  }

  /** The claim of a recurring candidate: issuer name and period. */
  function ClaimKey(p: Projection): (string, nat) {
    (p.issuerName, p.period)
  }

  predicate FactsRecur(f: Facts) {
    f.projection.Some? && f.faults == []
  }

  lemma RecursIs(m: Mapping, s: Db, b: Id, facts: map<Id, Facts>, e: Id)
    requires FactsOf(m, s, b, facts)
    ensures Recurs(m, s, b, e) <==> e in facts && FactsRecur(facts[e])
    ensures Recurs(m, s, b, e) ==> Claim(m, s, b, e) == facts[e].projection.value
  {
    hide CandidateFacts, Members;
  }

  /** `by_key`: the recurring candidates grouped by claim. */
  ghost predicate Grouped(facts: map<Id, Facts>, done: set<Id>, groups: map<(string, nat), set<Id>>) {
    && (forall e :: e in done && e in facts && FactsRecur(facts[e]) ==>
          ClaimKey(facts[e].projection.value) in groups && e in groups[ClaimKey(facts[e].projection.value)])
    && (forall k, e :: k in groups && e in groups[k] ==>
         e in done && e in facts && FactsRecur(facts[e]) && ClaimKey(facts[e].projection.value) == k)
  }

  method GroupClaims(facts: map<Id, Facts>) returns (groups: map<(string, nat), set<Id>>)
    ensures Grouped(facts, facts.Keys, groups)
  {
    groups := map[];
    var todo := facts.Keys;
    while todo != {}
      invariant todo <= facts.Keys && Grouped(facts, facts.Keys - todo, groups)
      decreases todo
    {
      var e :| e in todo;
      todo := todo - {e};
      if FactsRecur(facts[e]) {
        var key := ClaimKey(facts[e].projection.value);
        groups := groups[key := (if key in groups then groups[key] else {}) + {e}];
      }
    }
    assert facts.Keys - todo == facts.Keys;
  }

  lemma MoreThanOne(ids: set<Id>, e: Id)
    requires e in ids
    ensures |ids| > 1 <==> exists f :: f in ids && f != e
  {
    if |ids| > 1 {
      var rest := ids - {e};
      assert |rest| == |ids| - 1;
      var f :| f in rest;
    }
    if f :| f in ids && f != e {
      assert {e, f} <= ids;
      assert |ids - {e, f}| == |ids| - 2;
    }
  }

  lemma ClaimedTwiceIs(m: Mapping, s: Db, b: Id, facts: map<Id, Facts>, groups: map<(string, nat), set<Id>>, e: Id)
    requires FactsOf(m, s, b, facts) && Grouped(facts, facts.Keys, groups) && Recurs(m, s, b, e)
    requires e in facts && facts[e].projection.Some? && ClaimKey(facts[e].projection.value) in groups
    ensures ClaimedTwice(m, s, b, e) <==> |groups[ClaimKey(facts[e].projection.value)]| > 1
  {
    hide FactsOf, CandidateFacts, Recurs;
    var key := ClaimKey(facts[e].projection.value);
    RecursIs(m, s, b, facts, e);
    MoreThanOne(groups[key], e);
    forall f ensures (f != e && Recurs(m, s, b, f) && SameClaim(Claim(m, s, b, e), Claim(m, s, b, f))) <==>
      (f in groups[key] && f != e) {
      RecursIs(m, s, b, facts, f);
    }
  }

  method FindOwner(s: Db, p: Projection) returns (issuer: Option<Id>, owner: Option<Id>)
    requires BillInv(s.bills, s.issuers, s.verified)
    ensures issuer == IssuerNamed(s.issuers, p.issuerName) && owner == OwnerOf(s, p)
  {
    hide BillLinks, OneBillPerRecord;
    issuer := FindIssuer(s.issuers, p.issuerName);
    owner := None;
    if issuer.Some? { owner := FindPeriodOwner(s.bills, issuer.value, p.period); }
  }

  /** The conflicts of one candidate and the bill it would take over. */
  method AttachConflict(
    m: Mapping, s: Db, b: Id, facts: map<Id, Facts>, groups: map<(string, nat), set<Id>>, approved: set<Id>, e: Id)
    returns (conflicts: seq<Fault>, prior: Option<Id>)
    requires b in s.batches && FactsOf(m, s, b, facts) && Grouped(facts, facts.Keys, groups)
      && approved == PriorApproved(s, b)
    requires BillInv(s.bills, s.issuers, s.verified) && e in facts
    ensures conflicts == ConflictFaults(m, s, b, e) && prior == PriorBill(m, s, b, e)
  {
    hide FactsOf, CandidateFacts, BillInv, PriorApproved, Recurs;
    RecursIs(m, s, b, facts, e);
    if !FactsRecur(facts[e]) { return [], None; }
    var p := facts[e].projection.value;
    conflicts := [];
    ClaimedTwiceIs(m, s, b, facts, groups, e);
    if |groups[ClaimKey(p)]| > 1 { conflicts := conflicts + [DuplicateClaim(e)]; }
    hide ClaimedTwice, Grouped;
    var issuer, owner := FindOwner(s, p);
    if issuer.Some? && s.issuers[issuer.value].kind != p.issuerKind {
      return conflicts + [IssuerKindMismatch(e)], None;
    }
    if owner.None? { return conflicts, None; }
    var bill := s.bills[owner.value];
    if bill.content.document != s.batches[b].identity.document || bill.content.verified !in s.verified
       || s.verified[bill.content.verified].extraction !in approved
    {
      return conflicts + [ForeignOwner(e)], None;
    }
    return conflicts, owner;
  }

  /** What `_attach_recurring_conflicts` added for every candidate. */
  ghost predicate ConflictsOf(m: Mapping, s: Db, b: Id, conflicts: map<Id, seq<Fault>>, prior: map<Id, Option<Id>>)
    requires b in s.batches
  {
    && conflicts.Keys == Members(s.extractions, b) && prior.Keys == Members(s.extractions, b)
    && (forall e :: e in conflicts ==> conflicts[e] == ConflictFaults(m, s, b, e))
    && (forall e :: e in prior ==> prior[e] == PriorBill(m, s, b, e))
  }

  method AttachConflicts(m: Mapping, s: Db, b: Id, facts: map<Id, Facts>, approved: set<Id>)
    returns (conflicts: map<Id, seq<Fault>>, prior: map<Id, Option<Id>>)
    requires b in s.batches && FactsOf(m, s, b, facts) && approved == PriorApproved(s, b)
      && BillInv(s.bills, s.issuers, s.verified)
    ensures ConflictsOf(m, s, b, conflicts, prior)
  {
    assert facts.Keys == Members(s.extractions, b);
    hide FactsOf, CandidateFacts, BillInv, PriorApproved, ConflictFaults, PriorBill, Members;
    var groups := GroupClaims(facts);
    conflicts, prior := map[], map[];
    var todo := facts.Keys;
    while todo != {}
      invariant conflicts.Keys + todo == facts.Keys && prior.Keys == conflicts.Keys && conflicts.Keys !! todo
      invariant forall e :: e in conflicts ==> conflicts[e] == ConflictFaults(m, s, b, e)
      invariant forall e :: e in prior ==> prior[e] == PriorBill(m, s, b, e)
      decreases todo
    {
      var e :| e in todo;
      todo := todo - {e};
      var c, p := AttachConflict(m, s, b, facts, groups, approved, e);
      conflicts, prior := conflicts[e := c], prior[e := p];
    }
  }

  // ------------------------------------------------------------ the preview

  function HeadFrom(s: Db, b: Id, e: Id, facts: Facts, prior: Option<Id>): CandidateHead
    requires e in s.extractions && (facts.decision.Some? ==> facts.decision.value in s.decisions)
      && (prior.Some? ==> prior.value in s.bills)
  {
    var x := s.extractions[e];
    var d := if facts.decision.Some? then Some(s.decisions[facts.decision.value]) else None;
    CandidateHead(
      x.version, facts.decision, if d.Some? then d.value.revision else 0,
      if d.Some? then Some(d.value.action) else None,
      if x.content.lineage.Some? then Some(x.content.lineage.value.kind) else None,
      EffectiveSubtype(x, None), facts.effective,
      if d.Some? then d.value.corrections else None,
      if d.Some? then d.value.reason else None,
      Manifest(s, b, e), facts.projection, prior,
      if prior.Some? then Some(s.bills[prior.value].payment) else None,
      if prior.Some? then s.bills[prior.value].paidAt else None)
  }

  lemma FactsDecision(m: Mapping, s: Db, b: Id, e: Id)
    requires e in s.extractions
    ensures var d := CandidateFacts(m, s, b, e).decision; d.Some? ==> d.value in s.decisions
  {
    hide DecisionAccepted, Manifest, VerifiedValues, RecurringProjection, EffectiveSubtype;
  }

  method BuildHeads(m: Mapping, s: Db, b: Id, facts: map<Id, Facts>, prior: map<Id, Option<Id>>)
    returns (heads: map<Id, CandidateHead>)
    requires b in s.batches && FactsOf(m, s, b, facts) && prior.Keys == facts.Keys && forall e :: e in prior ==>
      prior[e] == PriorBill(m, s, b, e)
    ensures heads == HeadTable(m, s, b)
  {
    hide CandidateFacts, PriorBill, Manifest;
    heads := map[];
    var todo := facts.Keys;
    while todo != {}
      invariant heads.Keys + todo == facts.Keys && heads.Keys !! todo
      invariant forall e :: e in heads ==> e in s.extractions && heads[e] == HeadOf(m, s, b, e)
      decreases todo
    {
      var e :| e in todo;
      todo := todo - {e};
      FactsDecision(m, s, b, e);
      heads := heads[e := HeadFrom(s, b, e, facts[e], prior[e])];
    }
  }

  /** `_activation_preview_from_state`: the vector, from rows in whatever order they are listed. */
  method BuildVector(m: Mapping, s: Db, b: Id, heads: map<Id, CandidateHead>, approved: set<Id>, active: Option<Id>)
    returns (vector: Vector)
    requires b in s.batches && heads == HeadTable(m, s, b) && approved == PriorApproved(s, b)
      && active == PriorActive(s, b)
    ensures vector == ActivationVector(m, s, b)
  {
    assert forall x :: x in approved ==> x in s.extractions;
    var versions := map x | x in approved :: s.extractions[x].version;
    assert versions == ApprovedTable(s, b);
    hide PriorApproved, PriorActive, HeadTable, ApprovedTable, SortRows, HeadOfBatch;
    var candidates := ListRows(heads);
    var approvals := ListRows(versions);
    vector := Vector(
      HeadOfBatch(s, b), if active.Some? then Some((active.value, s.batches[active.value].version)) else None,
      SortRows(approvals), SortRows(candidates));
    PreviewTheorems.VectorIgnoresOrder(m, s, b, approvals, candidates);
    hide Enumerates, ActivationVector;
  }

  /** The errors that concern the batch as a whole. */
  function BatchFaults(batch: Batch, current: bool, candidates: nat): seq<Fault> {
    (if !Reviewable(batch.lifecycle) then [BatchNotReviewable] else [])
    + (if !current then [StaleSourceFault] else [])
    + (if candidates != batch.identity.candidateCount
      || batch.identity.mapped + batch.identity.residual != batch.identity.candidateCount
       then [ReconciliationMismatch] else [])
  }

  lemma FaultsSplit(m: Mapping, s: Db, b: Id)
    requires b in s.batches
    ensures (forall e :: e in Ordered(Members(s.extractions, b)) ==> e in s.extractions)
    ensures CohortFaults(m, s, b)
      == BatchFaults(s.batches[b], SourceIsCurrent(s, b), |Members(s.extractions, b)|)
         + FaultsOf(m, s, b, Ordered(Members(s.extractions, b)))
  {
    hide FaultsOf, SourceIsCurrent;
  }

  method CollectFaults(m: Mapping, s: Db, b: Id, current: bool, facts: map<Id, Facts>, conflicts: map<Id, seq<Fault>>)
    returns (faults: seq<Fault>)
    requires b in s.batches && FactsOf(m, s, b, facts) && current == SourceIsCurrent(s, b)
    requires conflicts.Keys == facts.Keys && forall e :: e in conflicts ==> conflicts[e] == ConflictFaults(m, s, b, e)
    ensures faults == CohortFaults(m, s, b)
  {
    hide CandidateFacts, ConflictFaults, SourceIsCurrent, FaultsOf, Members, BatchFaults, CohortFaults;
    FaultsSplit(m, s, b);
    var order := ListIds(facts.Keys);
    hide Ordered;
    faults := CandidateFaults(m, s, b, order, facts, conflicts);
    faults := BatchFaults(s.batches[b], current, |facts.Keys|) + faults;
  }

  /** The errors of the candidates, in order. */
  method CandidateFaults(
    m: Mapping, s: Db, b: Id, order: seq<Id>, facts: map<Id, Facts>, conflicts: map<Id, seq<Fault>>)
    returns (faults: seq<Fault>)
    requires b in s.batches && (forall e :: e in order ==> e in s.extractions && e in facts && e in conflicts)
    requires forall e :: e in order ==>
      facts[e] == CandidateFacts(m, s, b, e) && conflicts[e] == ConflictFaults(m, s, b, e)
    ensures faults == FaultsOf(m, s, b, order)
  {
    hide CandidateFacts, ConflictFaults;
    faults := [];
    assert order[0..] == order;
    for k := 0 to |order|
      invariant faults + FaultsOf(m, s, b, order[k..]) == FaultsOf(m, s, b, order)
    {
      var e := order[k];
      assert e in order && order[k..] == [e] + order[k + 1..];
      UnfoldFaults(m, s, b, e, order[k + 1..]);
      faults := faults + (facts[e].faults + conflicts[e]);
    }
  }

  lemma UnfoldFaults(m: Mapping, s: Db, b: Id, e: Id, rest: seq<Id>)
    requires b in s.batches && e in s.extractions && (forall f :: f in rest ==> f in s.extractions)
    ensures FaultsOf(m, s, b, [e] + rest)
      == (CandidateFacts(m, s, b, e).faults + ConflictFaults(m, s, b, e)) + FaultsOf(m, s, b, rest)
  {
    hide CandidateFacts, ConflictFaults;
    assert ([e] + rest)[1..] == rest;
  }

  // ------------------------------------------------------------ versions

  lemma {:induction false} MaxIsMember(ids: set<nat>)
    ensures ids != {} ==> Sources.MaxOf(ids) in ids
    ensures ids == {} ==> Sources.MaxOf(ids) == 0
    decreases ids
  {
    if ids != {} {
      forall x | x in ids ensures ids - {x} != {} ==> Sources.MaxOf(ids - {x}) in ids - {x} {
        MaxIsMember(ids - {x});
      }
      forall x | x in ids ensures ids - {x} == {} ==> Sources.MaxOf(ids - {x}) == 0 {
        MaxIsMember(ids - {x});
      }
    }
  }

  /** One more than the highest version of the document's files. */
  method FindNextVersion(files: map<Id, SourceFile>, document: Id) returns (version: nat)
    ensures version == Sources.NextVersion(files, document)
  {
    var highest: nat := 0;
    var todo := files.Keys;
    while todo != {}
      invariant todo <= files.Keys
      invariant forall f :: f in files && f !in todo && files[f].document == document ==> files[f].version <= highest
      invariant highest == 0 || exists f :: f in files && files[f].document == document && files[f].version == highest
      decreases todo
    {
      var f :| f in todo;
      todo := todo - {f};
      if files[f].document == document && files[f].version > highest { highest := files[f].version; }
    }
    ghost var versions := set f | f in files && files[f].document == document :: files[f].version;
    MaxIsMember(versions);
    version := highest + 1;
  }
}
