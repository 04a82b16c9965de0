/** Document-wide extraction, rejection and approval keep the invariant. */
module LegacyProofs {
  import opened Basics
  import opened Model
  import opened Authority
  import opened Invariant
  import opened Legacy
  import opened Text
  import Billing
  import BillingProofs
  import Review
  import SourceProofs
  import opened Sources

  // ------------------------------------------------------------ add

  lemma LegacyAddedReview(s: Db, x: Id, row: Extraction)
    requires ReviewInv(s) && x !in s.extractions && IsLegacy(row) && row.status == Pending && row.version == 1
    ensures ReviewInv(s.(extractions := s.extractions[x := row]))
      && ExtractionsMove(s.extractions, s.extractions[x := row])
  {
    assert CountInv(s.extractions[x := row], s.batches) by {
      forall b ensures Members(s.extractions[x := row], b) == Members(s.extractions, b) {
      }
    }
  }

  lemma LegacyAddedOthers(s: Db, x: Id, row: Extraction)
    requires DecisionInv(s.decisions, s.extractions) && ReadyInv(s.decisions, s.extractions, s.batches)
      && VerifiedInv(s.verified, s.extractions)
    requires x !in s.extractions && IsLegacy(row) && row.status == Pending
    ensures var e := s.extractions[x := row];
      DecisionInv(s.decisions, e) && ReadyInv(s.decisions, e, s.batches) && VerifiedInv(s.verified, e)
  {
    hide DecisionLinked, DecisionShape;
    forall b ensures Members(s.extractions[x := row], b) == Members(s.extractions, b) {
    }
  }

  /** Superseding what is pending, as `add` and `append_raw_source` both do. */
  lemma SupersedeKeeps(s: Db, d: Id, actor: string, now: Time)
    requires Inv(s)
    ensures var t := s.(extractions := SupersedePending(s.extractions, d, actor, now)); Inv(t) && Evolves(s, t)
  {
    hide StatusInv, MemberInv, CountInv, OneActive, AuthorityInv, SettledInv, EvidenceInv, DecisionInv, ReadyInv;
    hide VerifiedInv, BillInv, DocumentInv, SourceInv, BatchSourceInv, ExtractionsMove, BatchesMove;
    hide BillsMove, IntakesMove, Grows;
    hide SupersedePending, SameRows;
    EvolvesReflexive(s);
    SourceProofs.SupersededPending(s, d, actor, now);
    SourceProofs.VerifiedSurvivesSupersede(s, d, actor, now);
    SameRowsFrame(s.extractions, SupersedePending(s.extractions, d, actor, now), s.batches, s.decisions);
  }

  lemma LegacyAddedKeeps(s: Db, x: Id, row: Extraction)
    requires Inv(s) && x !in s.extractions && IsLegacy(row) && row.status == Pending && row.version == 1
    ensures var t := s.(extractions := s.extractions[x := row]); Inv(t) && Evolves(s, t)
  {
    hide StatusInv, MemberInv, CountInv, OneActive, AuthorityInv, SettledInv, EvidenceInv, DecisionInv, ReadyInv;
    hide VerifiedInv, BillInv, DocumentInv, SourceInv, BatchSourceInv, ExtractionsMove, BatchesMove;
    hide BillsMove, IntakesMove, Grows;
    EvolvesReflexive(s);
    LegacyAddedReview(s, x, row);
    LegacyAddedOthers(s, x, row);
  }

  lemma AddExtractionKeeps(s: Db, x: Id, d: Id, payload: Payload, v: Option<nat>, actor: string, now: Time)
    requires Inv(s) && AddExtraction(s, x, d, payload, v, actor, now).Ok?
    ensures var t := AddExtraction(s, x, d, payload, v, actor, now).value; Inv(t) && Evolves(s, t)
  {
    hide Inv, Evolves, Strip;
    var f := LatestOriginal(s.files, d).value;
    var row := Extraction(ExtractionContent(d, f, s.files[f].version, None, payload), Pending, 1, None, None, None);
    var s1 := s.(extractions := SupersedePending(s.extractions, d, Strip(actor), now));
    var s2 := s1.(extractions := s1.extractions[x := row]);
    SupersedeKeeps(s, d, Strip(actor), now);
    LegacyAddedKeeps(s1, x, row);
    SourceProofs.SetStatusKeeps(s2, d, InReview);
    EvolvesTransitive(s, s1, s2);
    EvolvesTransitive(s, s2, s2.(documents := s2.documents[d := InReview]));
  }

  // ------------------------------------------------------------ reject

  lemma RejectedRow(p: map<Id, Extraction>, batches: map<Id, Batch>, x: Id, row: Extraction)
    requires StatusInv(p) && AuthorityInv(p, batches) && SettledInv(p, batches)
    requires x in p && p[x].status == Pending && row.status == Rejected && row.version == p[x].version + 1
      && row.content == p[x].content
    ensures var e := p[x := row];
      StatusInv(e) && AuthorityInv(e, batches) && SettledInv(e, batches) && SameRows(p, e) && ExtractionsMove(p, e)
  {
  }

  lemma RejectedReview(s: Db, x: Id, row: Extraction)
    requires ReviewInv(s)
    requires x in s.extractions && s.extractions[x].status == Pending && row.status == Rejected
      && row.version == s.extractions[x].version + 1
    requires row.content == s.extractions[x].content
    ensures var e := s.extractions[x := row];
      ReviewInv(s.(extractions := e)) && SameRows(s.extractions, e) && ExtractionsMove(s.extractions, e)
  {
    hide OneActive, EvidenceInv, StatusInv, MemberInv, CountInv, AuthorityInv, SettledInv, SameRows, ExtractionsMove;
    RejectedRow(s.extractions, s.batches, x, row);
    SameRowsFrame(s.extractions, s.extractions[x := row], s.batches, s.decisions);
  }

  lemma RejectedVerified(s: Db, x: Id, row: Extraction)
    requires VerifiedInv(s.verified, s.extractions)
    requires x in s.extractions && s.extractions[x].status == Pending && row.status == Rejected
    ensures VerifiedInv(s.verified, s.extractions[x := row])
  {
  }

  lemma RejectExtractionKeeps(s: Db, x: Id, reason: string, reviewer: string, now: Time)
    requires Inv(s) && RejectExtraction(s, x, reason, reviewer, now).Ok?
    ensures var t := RejectExtraction(s, x, reason, reviewer, now).value; Inv(t) && Evolves(s, t)
  {
    hide StatusInv, MemberInv, CountInv, OneActive, AuthorityInv, SettledInv, EvidenceInv, DecisionInv, ReadyInv, Strip;
    hide VerifiedInv, BillInv, SourceInv, BatchSourceInv, ExtractionsMove, BatchesMove, BillsMove;
    hide IntakesMove, Grows, SameRows;
    var row := Review.Reject(s.extractions[x], Strip(reviewer), Strip(reason), now);
    EvolvesReflexive(s);
    RejectedReview(s, x, row);
    RejectedVerified(s, x, row);
    SameRowsFrame(s.extractions, s.extractions[x := row], s.batches, s.decisions);
  }

  // ------------------------------------------------------------ promote

  /** `q` is `p` with legacy extraction `x` approved and every other approval of the document superseded. */
  ghost predicate Promotes(p: map<Id, Extraction>, q: map<Id, Extraction>, x: Id, document: Id) {
    && p.Keys == q.Keys && x in p && p[x].status == Pending && IsLegacy(p[x]) && p[x].content.document == document
    && forall y :: y in p ==>
         && q[y].content == p[y].content
         && (if y == x then q[y].status == Approved && q[y].version == p[y].version + 1
             else if p[y].content.document == document && p[y].status == Approved
             then q[y].status == Superseded && q[y].version == p[y].version + 1
             else q[y] == p[y])
  }

  lemma PromotesKeeps(p: map<Id, Extraction>, q: map<Id, Extraction>, batches: map<Id, Batch>, x: Id, document: Id)
    requires Promotes(p, q, x, document) && StatusInv(p) && AuthorityInv(p, batches) && SettledInv(p, batches)
    ensures StatusInv(q) && AuthorityInv(q, batches) && SettledInv(q, batches) && SameRows(p, q)
      && ExtractionsMove(p, q)
  {
  }

  lemma PromotedRows(m: Mapping, s: Db, q: Promotion)
    requires Promote(m, s, q).Ok?
    ensures q.extraction in s.extractions
    ensures Promotes(s.extractions, Promote(m, s, q).value.extractions, q.extraction,
      s.extractions[q.extraction].content.document)
  {
    hide Strip;
  }

  lemma PromotedReview(m: Mapping, s: Db, q: Promotion)
    requires ReviewInv(s) && Promote(m, s, q).Ok?
    ensures var t := Promote(m, s, q).value;
      && StatusInv(t.extractions) && AuthorityInv(t.extractions, s.batches) && SettledInv(t.extractions, s.batches)
      && SameRows(s.extractions, t.extractions) && ExtractionsMove(s.extractions, t.extractions)
  {
    hide Promote, Promotes, OneActive, EvidenceInv, CountInv, MemberInv, StatusInv, AuthorityInv, SettledInv;
    hide SameRows, ExtractionsMove;
    PromotedRows(m, s, q);
    PromotesKeeps(s.extractions, Promote(m, s, q).value.extractions, s.batches, q.extraction,
      s.extractions[q.extraction].content.document);
  }

  /** One pending extraction becomes approved; approved ones stay or are superseded; the rest is untouched. */
  ghost predicate Switches(p: map<Id, Extraction>, q: map<Id, Extraction>, x: Id) {
    && p.Keys == q.Keys && x in p && p[x].status == Pending && q[x].status == Approved && q[x].content == p[x].content
    && forall y :: y in p && y != x ==>
         q[y] == p[y]
           || (p[y].status == Approved && q[y].content == p[y].content && q[y].status == Superseded
                && q[y].version == 3)
  }

  lemma VerifiedSwitched(
    verified: map<Id, VerifiedRow>, p: map<Id, Extraction>, q: map<Id, Extraction>, x: Id, v: Id, row: VerifiedRow)
    requires VerifiedInv(verified, p) && Switches(p, q, x) && IsLegacy(p[x])
    requires v !in verified && row.extraction == x && row.document == p[x].content.document
    ensures VerifiedInv(verified[v := row], q) && Grows(verified, verified[v := row])
  {
    var r := verified[v := row];
    forall y | y in q && q[y].status == Approved && (IsLegacy(q[y]) || IsFinancial(q[y])) ensures HasVerified(r, y) {
      if y == x {
        assert r[v].extraction == y;
      } else {
        assert HasVerified(verified, y);
        var w :| w in verified && verified[w].extraction == y;
        assert r[w].extraction == y;
      }
    }
  }

  lemma PromotedVerified(m: Mapping, s: Db, q: Promotion)
    requires StatusInv(s.extractions) && VerifiedInv(s.verified, s.extractions) && Promote(m, s, q).Ok?
    ensures var t := Promote(m, s, q).value;
      VerifiedInv(t.verified, t.extractions) && Grows(s.verified, t.verified)
  {
    hide Strip, VerifiedInv, Grows;
    var t := Promote(m, s, q).value;
    VerifiedSwitched(s.verified, s.extractions, t.extractions, q.extraction, q.verified, t.verified[q.verified]);
  }

  lemma PromoteKeeps(m: Mapping, s: Db, q: Promotion)
    requires Inv(s) && Promote(m, s, q).Ok?
    ensures var t := Promote(m, s, q).value; Inv(t) && Evolves(s, t)
  {
    hide StatusInv, MemberInv, CountInv, OneActive, AuthorityInv, SettledInv, EvidenceInv, DecisionInv, ReadyInv, Strip;
    hide VerifiedInv, SourceInv, BatchSourceInv, ExtractionsMove, BatchesMove, BillsMove, IntakesMove, Grows, SameRows;
    hide OneOwner, IssuerNamesUnique, OneBillPerRecord, BillLinks;
    var t := Promote(m, s, q).value;
    EvolvesReflexive(s);
    PromotedReview(m, s, q);
    PromotedVerified(m, s, q);
    SameRowsFrame(s.extractions, t.extractions, s.batches, s.decisions);
    BillLinksGrow(s, t);
  }

  lemma BillLinksGrow(s: Db, t: Db)
    requires BillLinks(s.bills, s.issuers, s.verified) && Grows(s.verified, t.verified)
    ensures BillLinks(s.bills, s.issuers, t.verified)
  {
  }

  lemma ApproveExtractionKeeps(m: Mapping, s: Db, q: Promotion)
    requires Inv(s) && ApproveExtraction(m, s, q).Ok?
    ensures var t := ApproveExtraction(m, s, q).value; Inv(t) && Evolves(s, t)
  {
    hide Inv, Evolves, Strip, Billing.RecordBill;
    PromoteKeeps(m, s, q);
    if q.bill.Some? {
      var t := Promote(m, s, q).value;
      var p := m.projection(s.extractions[q.extraction].content.payload, q.corrections).value;
      var nb := Billing.NewBill(q.bill.value.0, q.bill.value.1, q.verified, p, Strip(q.reviewer), q.now);
      BillingProofs.RecordBillKeeps(t, nb);
      EvolvesTransitive(s, t, Billing.RecordBill(t, nb).value.0);
    }
  }
}
