/** The queries and the authority predicate every reader of verified records uses. */
module Authority {
  import opened Basics
  import opened Model

  predicate IsLegacy(x: Extraction) {
    x.content.lineage.None?
  }

  predicate InBatch(x: Extraction, b: Id) {
    x.content.lineage.Some? && x.content.lineage.value.batch == b
  }

  predicate IsFinancial(x: Extraction) {
    x.content.lineage.Some? && x.content.lineage.value.kind == Financial
  }

  function Members(extractions: map<Id, Extraction>, b: Id): set<Id> {
    set x | x in extractions && InBatch(extractions[x], b)
  }

  /** Only legacy approvals and the financial members of an active batch count. */
  predicate CarriesAuthority(extractions: map<Id, Extraction>, batches: map<Id, Batch>, x: Id)
    requires x in extractions
  {
    var row := extractions[x];
    && row.status == Approved
    && (|| IsLegacy(row)
        || (&& IsFinancial(row)
            && row.content.lineage.value.batch in batches
            && var batch := batches[row.content.lineage.value.batch];
               batch.identity.document == row.content.document && batch.lifecycle == Active))
  }

  predicate IsAuthoritative(s: Db, v: Id)
    requires v in s.verified
  {
    var row := s.verified[v];
    && row.extraction in s.extractions
    && s.extractions[row.extraction].content.document == row.document
    && CarriesAuthority(s.extractions, s.batches, row.extraction)
  }

  /** The verified rows that `restrict_to_active_verified` lets through. */
  function AuthoritativeVerified(s: Db): map<Id, VerifiedRow> {
    map v | v in s.verified && IsAuthoritative(s, v) :: s.verified[v]
  }

  predicate Reviewable(lifecycle: Lifecycle) {
    lifecycle == Open || lifecycle == ReadyToActivate
  }

  // Current originals

  ghost predicate IsLatestOriginal(files: map<Id, SourceFile>, document: Id, f: Id) {
    && f in files && files[f].document == document && files[f].kind == Original
    && forall g :: g in files && files[g].document == document && files[g].kind == Original
         ==> files[g].version < files[f].version || (files[g].version == files[f].version && g <= f)
  }

  ghost function LatestOriginal(files: map<Id, SourceFile>, document: Id): (r: Option<Id>)
    ensures r.Some? ==> IsLatestOriginal(files, document, r.value)
  {
    if f :| IsLatestOriginal(files, document, f) then Some(f) else None
  }
}
