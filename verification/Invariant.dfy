/** What every reachable database satisfies, and how one database may follow another. */
module Invariant {
  import opened Basics
  import opened Model
  import opened Authority
  import opened Billing
  import opened Review

  // ------------------------------------------------------------ one database

  /** An extraction is pending exactly at version one and changes status at most twice. */
  ghost predicate StatusInv(extractions: map<Id, Extraction>) {
    forall x :: x in extractions ==>
      var row := extractions[x];
      && row.version >= 1
      && (row.status == Pending <==> row.version == 1)
      && (row.status == Approved ==> row.version == 2)
      && (row.status == Rejected ==> row.version == 2)
      && (row.status == Superseded ==> row.version <= 3)
  }

  /** Candidates are bound to an existing batch of their own document and source. */
  ghost predicate MemberInv(extractions: map<Id, Extraction>, batches: map<Id, Batch>) {
    forall x :: x in extractions && extractions[x].content.lineage.Some? ==>
      var b := extractions[x].content.lineage.value.batch;
      && b in batches
      && batches[b].identity.document == extractions[x].content.document
      && batches[b].identity.sourceFile == extractions[x].content.sourceFile
      && batches[b].identity.sourceVersion == extractions[x].content.sourceVersion
  }

  ghost predicate CountInv(extractions: map<Id, Extraction>, batches: map<Id, Batch>) {
    forall b :: b in batches ==> |Members(extractions, b)| == batches[b].identity.candidateCount
  }

  ghost predicate OneActive(batches: map<Id, Batch>) {
    forall a, b :: a in batches && b in batches && batches[a].lifecycle == Active && batches[b].lifecycle == Active
      && batches[a].identity.document == batches[b].identity.document
      ==> a == b
  }

  /** The approvals of a document are one legacy extraction or members of its active batch. */
  ghost predicate AuthorityInv(extractions: map<Id, Extraction>, batches: map<Id, Batch>) {
    forall x :: x in extractions && extractions[x].status == Approved ==>
      if IsLegacy(extractions[x]) then
        forall y :: y in extractions && extractions[y].status == Approved
          && extractions[y].content.document == extractions[x].content.document
          ==> y == x
      else
        var b := extractions[x].content.lineage.value.batch;
        b in batches && batches[b].lifecycle == Active
  }

  /** A batch that has left review has no pending member. */
  ghost predicate SettledInv(extractions: map<Id, Extraction>, batches: map<Id, Batch>) {
    forall x :: x in extractions && extractions[x].content.lineage.Some? && extractions[x].status == Pending ==>
      var b := extractions[x].content.lineage.value.batch;
      b in batches && Reviewable(batches[b].lifecycle)
  }

  /** The activation check constraints of the `extraction_batches` table. */
  ghost predicate EvidenceConstraints(b: Batch) {
    && (|| (b.vector.None? && b.activatedBy.None? && b.activatedAt.None? && b.includedCount.None?
            && b.excludedCount.None? && !b.acceptedExclusions && !b.acceptedEmpty)
        || (b.vector.Some? && b.activatedBy.Some? && b.activatedAt.Some? && b.includedCount.Some?
             && b.excludedCount.Some?))
    && (b.includedCount.Some? ==> b.includedCount.value >= 0)
    && (b.excludedCount.Some? ==> b.excludedCount.value >= 0)
    && (b.vector.Some? ==>
          && b.includedCount.value + b.excludedCount.value == b.identity.candidateCount
          && (b.acceptedEmpty <==> b.identity.candidateCount == 0)
          && (b.acceptedExclusions <==> b.excludedCount.value > 0))
  }

  ghost predicate EvidenceInv(batches: map<Id, Batch>) {
    forall b :: b in batches ==>
      && batches[b].version >= 1
      && EvidenceConstraints(batches[b])
      && (batches[b].vector.Some? <==> batches[b].lifecycle == Active || batches[b].lifecycle == Retired)
  }

  ghost predicate DecisionLinked(decisions: map<Id, Decision>, d: Id)
    requires d in decisions
  {
    var row := decisions[d];
    && row.revision >= 1
    && (row.revision == 1 <==> row.supersedes.None?)
    && (row.supersedes.Some? ==>
          && row.supersedes.value in decisions
          && decisions[row.supersedes.value].batch == row.batch
          && decisions[row.supersedes.value].extraction == row.extraction
          && decisions[row.supersedes.value].revision == row.revision - 1)
  }

  /** `candidate_review_decisions_action_payload_shape` */
  ghost predicate DecisionShape(d: Decision) {
    match d.action
    case Include => d.reason.None?
    case Exclude => d.corrections.None? && d.subtype.None? && d.reason.Some?
  }

  /** Decisions bind one exact candidate version and form linear chains. */
  ghost predicate DecisionInv(decisions: map<Id, Decision>, extractions: map<Id, Extraction>) {
    && (forall d :: d in decisions ==>
          && decisions[d].extraction in extractions
          && InBatch(extractions[decisions[d].extraction], decisions[d].batch)
          && decisions[d].expectedVersion == 1
          && DecisionShape(decisions[d])
          && DecisionLinked(decisions, d))
    && (forall c, d :: c in decisions && d in decisions
          && decisions[c].extraction == decisions[d].extraction && decisions[c].revision == decisions[d].revision
          ==> c == d)
  }

  /** A batch under review is ready exactly when it has candidates and all of them are decided. */
  ghost predicate ReadyInv(decisions: map<Id, Decision>, extractions: map<Id, Extraction>, batches: map<Id, Batch>) {
    forall b :: b in batches && Reviewable(batches[b].lifecycle) ==>
      (batches[b].lifecycle == ReadyToActivate <==>
        batches[b].identity.candidateCount > 0 && Decided(decisions, b) == Members(extractions, b))
  }

  /** Exactly the extractions that were approved outside the generic kind carry a verified row. */
  ghost predicate VerifiedInv(verified: map<Id, VerifiedRow>, extractions: map<Id, Extraction>) {
    && (forall v :: v in verified ==>
          && verified[v].extraction in extractions
          && var row := extractions[verified[v].extraction];
             && row.content.document == verified[v].document
             && (IsLegacy(row) || IsFinancial(row))
             && (row.status == Approved || (row.status == Superseded && row.version == 3)))
    && (forall v, w :: v in verified && w in verified && verified[v].extraction == verified[w].extraction ==> v == w)
    && (forall x :: x in extractions && extractions[x].status == Approved
          && (IsLegacy(extractions[x]) || IsFinancial(extractions[x]))
          ==> HasVerified(verified, x))
  }

  ghost predicate HasVerified(verified: map<Id, VerifiedRow>, x: Id) {
    exists v :: v in verified && verified[v].extraction == x
  }

  ghost predicate OneOwner(bills: map<Id, BillRow>) {
    forall x, y :: x in bills && y in bills && Live(bills[x]) && Live(bills[y])
      && bills[x].content.issuer == bills[y].content.issuer && bills[x].content.period == bills[y].content.period
      ==> x == y
  }

  ghost predicate IssuerNamesUnique(issuers: map<Id, Issuer>) {
    forall i, j :: i in issuers && j in issuers && issuers[i].name == issuers[j].name ==> i == j
  }

  ghost predicate OneBillPerRecord(bills: map<Id, BillRow>) {
    forall x, y :: x in bills && y in bills && bills[x].content.verified == bills[y].content.verified ==> x == y
  }

  /** A bill takes its document and amount from the verified record it is linked to. */
  ghost predicate BillLinks(bills: map<Id, BillRow>, issuers: map<Id, Issuer>, verified: map<Id, VerifiedRow>) {
    forall x :: x in bills ==>
      && bills[x].content.issuer in issuers
      && bills[x].content.verified in verified
      && bills[x].content.document == verified[bills[x].content.verified].document
      && bills[x].content.amount == verified[bills[x].content.verified].values.amount
  }

  ghost predicate BillInv(bills: map<Id, BillRow>, issuers: map<Id, Issuer>, verified: map<Id, VerifiedRow>) {
    && OneOwner(bills)
    && IssuerNamesUnique(issuers)
    && OneBillPerRecord(bills)
    && BillLinks(bills, issuers, verified)
  }

  /** File versions are unique per document and an intake describes one exact original. */
  ghost predicate SourceInv(files: map<Id, SourceFile>, intakes: map<Id, Intake>) {
    && (forall f, g ::
         f in files && g in files && files[f].document == files[g].document && files[f].version == files[g].version ==>
           f == g)
    && (forall i :: i in intakes ==>
          && intakes[i].version >= 1
          && intakes[i].sourceFile in files
          && files[intakes[i].sourceFile]
               == SourceFile(intakes[i].document, intakes[i].sourceVersion, Original, intakes[i].sha256))
    && (forall i, j :: i in intakes && j in intakes && intakes[i].sourceFile == intakes[j].sourceFile ==> i == j)
  }

  ghost predicate DocumentInv(documents: map<Id, DocumentStatus>, files: map<Id, SourceFile>) {
    forall f :: f in files ==> files[f].document in documents
  }

  ghost predicate BatchSourceInv(batches: map<Id, Batch>, intakes: map<Id, Intake>) {
    forall b :: b in batches ==>
      var id := batches[b].identity;
      && id.intake in intakes
      && intakes[id.intake].document == id.document && intakes[id.intake].sourceFile == id.sourceFile
      && intakes[id.intake].sourceVersion == id.sourceVersion && intakes[id.intake].sha256 == id.sha256
  }

  ghost predicate ReviewInv(s: Db) {
    && StatusInv(s.extractions)
    && MemberInv(s.extractions, s.batches)
    && CountInv(s.extractions, s.batches)
    && OneActive(s.batches)
    && AuthorityInv(s.extractions, s.batches)
    && SettledInv(s.extractions, s.batches)
    && EvidenceInv(s.batches)
  }

  ghost predicate Inv(s: Db) {
    && ReviewInv(s)
    && DecisionInv(s.decisions, s.extractions)
    && ReadyInv(s.decisions, s.extractions, s.batches)
    && VerifiedInv(s.verified, s.extractions)
    && BillInv(s.bills, s.issuers, s.verified)
    && DocumentInv(s.documents, s.files)
    && SourceInv(s.files, s.intakes)
    && BatchSourceInv(s.batches, s.intakes)
  }

  // ------------------------------------------------------------ one database after another

  /** Content never changes, every change raises the version, and `Rejected` and `Superseded` are final. */
  ghost predicate ExtractionMoves(p: Extraction, q: Extraction) {
    && q.content == p.content
    && (p == q
        || (&& q.version > p.version
            && (p.status == Pending || p.status == Approved)
            && q.status != Pending
            && (p.status == Approved ==> q.status == Superseded)))
  }

  /** Identity never changes, every change raises the version, and a batch leaves `Active` only by retiring. */
  ghost predicate BatchMoves(p: Batch, q: Batch) {
    && q.identity == p.identity
    && (p == q
        || (&& q.version > p.version
            && p.lifecycle != Retired && p.lifecycle != Refused
            && (p.lifecycle == Active ==> q == p.(lifecycle := Retired, version := p.version + 1))))
  }

  /** How far a bill has come: unpaid, paid without a time, paid; then the same superseded. */
  function Progress(p: BillRow): nat {
    (if p.payment != Paid then 0 else if p.paidAt.None? then 1 else 2) + (if Live(p) then 0 else 3)
  }

  ghost predicate BillMoves(p: BillRow, q: BillRow) {
    && q.content == p.content
    && (p == q || (Live(p) && Progress(q) > Progress(p)))
  }

  ghost predicate IntakeMoves(p: Intake, q: Intake) {
    && q.(state := p.state, version := p.version) == p
    && (p == q || q.version > p.version)
  }

  ghost predicate Grows<T>(p: map<Id, T>, q: map<Id, T>) {
    forall x :: x in p ==> x in q && q[x] == p[x]
  }

  ghost predicate ExtractionsMove(p: map<Id, Extraction>, q: map<Id, Extraction>) {
    forall x :: x in p ==> x in q && ExtractionMoves(p[x], q[x])
  }

  ghost predicate BatchesMove(p: map<Id, Batch>, q: map<Id, Batch>) {
    forall b :: b in p ==> b in q && BatchMoves(p[b], q[b])
  }

  ghost predicate BillsMove(p: map<Id, BillRow>, q: map<Id, BillRow>) {
    forall x :: x in p ==> x in q && BillMoves(p[x], q[x])
  }

  ghost predicate IntakesMove(p: map<Id, Intake>, q: map<Id, Intake>) {
    forall i :: i in p ==> i in q && IntakeMoves(p[i], q[i])
  }

  ghost predicate Evolves(s: Db, t: Db) {
    && ExtractionsMove(s.extractions, t.extractions)
    && BatchesMove(s.batches, t.batches)
    && BillsMove(s.bills, t.bills)
    && IntakesMove(s.intakes, t.intakes)
    && Grows(s.files, t.files) && Grows(s.decisions, t.decisions)
    && Grows(s.verified, t.verified) && Grows(s.issuers, t.issuers)
  }

  lemma EvolvesReflexive(s: Db)
    ensures Evolves(s, s)
  {
  }

  lemma EvolvesTransitive(s: Db, t: Db, u: Db)
    requires Evolves(s, t) && Evolves(t, u)
    ensures Evolves(s, u)
  {
    forall x | x in s.bills ensures x in u.bills && BillMoves(s.bills[x], u.bills[x]) {
      assert BillMoves(s.bills[x], t.bills[x]) && BillMoves(t.bills[x], u.bills[x]);
    }
  }

  // ------------------------------------------------------------ frames

  /** The same extraction rows, up to review state. */
  ghost predicate SameRows(p: map<Id, Extraction>, q: map<Id, Extraction>) {
    p.Keys == q.Keys && forall x :: x in p ==> q[x].content == p[x].content
  }

  lemma ReviewFrame(s: Db, t: Db)
    requires t.extractions == s.extractions && t.batches == s.batches
    ensures ReviewInv(s) <==> ReviewInv(t)
  {
    hide StatusInv, MemberInv, CountInv, OneActive, AuthorityInv, SettledInv, EvidenceInv;
  }

  lemma SameMembers(p: map<Id, Extraction>, q: map<Id, Extraction>, b: Id)
    requires SameRows(p, q)
    ensures Members(p, b) == Members(q, b)
  {
  }

  lemma SameRowsFrame(
    p: map<Id, Extraction>, q: map<Id, Extraction>, batches: map<Id, Batch>, decisions: map<Id, Decision>)
    requires SameRows(p, q)
    ensures MemberInv(p, batches) ==> MemberInv(q, batches)
    ensures CountInv(p, batches) ==> CountInv(q, batches)
    ensures DecisionInv(decisions, p) ==> DecisionInv(decisions, q)
    ensures ReadyInv(decisions, p, batches) ==> ReadyInv(decisions, q, batches)
  {
    forall b ensures Members(p, b) == Members(q, b) {
      SameMembers(p, q, b);
    }
  }
}
