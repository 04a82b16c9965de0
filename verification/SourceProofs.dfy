/** Source, intake and batch-creation steps keep the invariant. */
module SourceProofs {
  import opened Basics
  import opened Model
  import opened Authority
  import opened Invariant
  import opened Sources
  import opened Text

  // ------------------------------------------------------------ tables

  lemma NewSource(
    files: map<Id, SourceFile>, intakes: map<Id, Intake>, batches: map<Id, Batch>, f: Id, i: Id, row: SourceFile,
    state: IntakeState)
    requires SourceInv(files, intakes) && BatchSourceInv(batches, intakes)
    requires f !in files && i !in intakes && row.kind == Original
    requires forall g :: g in files && files[g].document == row.document ==> files[g].version < row.version
    ensures var intake := Intake(row.document, f, row.version, row.sha256, state, 1);
      && SourceInv(files[f := row], intakes[i := intake]) && BatchSourceInv(batches, intakes[i := intake])
      && IntakesMove(intakes, intakes[i := intake]) && Grows(files, files[f := row])
  {
  }

  lemma NewArtifact(files: map<Id, SourceFile>, intakes: map<Id, Intake>, f: Id, row: SourceFile)
    requires SourceInv(files, intakes)
    requires f !in files
    requires forall g :: g in files && files[g].document == row.document ==> files[g].version < row.version
    ensures SourceInv(files[f := row], intakes) && Grows(files, files[f := row])
  {
  }

  lemma MovedIntake(files: map<Id, SourceFile>, intakes: map<Id, Intake>, batches: map<Id, Batch>, i: Id, row: Intake)
    requires SourceInv(files, intakes) && BatchSourceInv(batches, intakes)
    requires i in intakes && IntakeMoves(intakes[i], row)
    ensures SourceInv(files, intakes[i := row]) && BatchSourceInv(batches, intakes[i := row])
    ensures IntakesMove(intakes, intakes[i := row])
  {
  }

  lemma SupersededRows(p: map<Id, Extraction>, batches: map<Id, Batch>, d: Id, actor: string, now: Time)
    requires StatusInv(p) && AuthorityInv(p, batches) && SettledInv(p, batches)
    ensures var e := SupersedePending(p, d, actor, now);
      StatusInv(e) && AuthorityInv(e, batches) && SettledInv(e, batches) && SameRows(p, e) && ExtractionsMove(p, e)
  {
  }

  lemma SupersededPending(s: Db, d: Id, actor: string, now: Time)
    requires Inv(s)
    ensures var e := SupersedePending(s.extractions, d, actor, now);
      ReviewInv(s.(extractions := e)) && SameRows(s.extractions, e) && ExtractionsMove(s.extractions, e)
  {
    hide DecisionInv, ReadyInv, VerifiedInv, BillInv, DocumentInv, SourceInv, BatchSourceInv, EvidenceInv, OneActive;
    hide StatusInv, MemberInv, CountInv, AuthorityInv, SettledInv, SameRows, ExtractionsMove, SupersedePending;
    SupersededRows(s.extractions, s.batches, d, actor, now);
    SameRowsFrame(s.extractions, SupersedePending(s.extractions, d, actor, now), s.batches, s.decisions);
  }

  lemma VerifiedSurvivesSupersede(s: Db, d: Id, actor: string, now: Time)
    requires VerifiedInv(s.verified, s.extractions)
    ensures VerifiedInv(s.verified, SupersedePending(s.extractions, d, actor, now))
  {
  }

  // ------------------------------------------------------------ steps

  lemma CreateDocumentKeeps(s: Db, d: Id, f: Id, i: Id, sha256: string, state: IntakeState)
    requires Inv(s)
    requires CreateDocument(s, d, f, i, sha256, state).Ok?
    ensures var t := CreateDocument(s, d, f, i, sha256, state).value; Inv(t) && Evolves(s, t)
  {
    hide StatusInv, MemberInv, CountInv, OneActive, AuthorityInv, SettledInv, EvidenceInv, DecisionInv, ReadyInv;
    hide VerifiedInv, BillInv, SourceInv, BatchSourceInv, ExtractionsMove, BatchesMove, BillsMove, IntakesMove, Grows;
    EvolvesReflexive(s);
    NewSource(s.files, s.intakes, s.batches, f, i, SourceFile(d, 1, Original, sha256), state);
  }

  lemma AppendSourceKeeps(s: Db, d: Id, f: Id, i: Id, sha256: string, state: IntakeState, actor: string, now: Time)
    requires Inv(s)
    requires AppendSource(s, d, f, i, sha256, state, actor, now).Ok?
    ensures var t := AppendSource(s, d, f, i, sha256, state, actor, now).value; Inv(t) && Evolves(s, t)
  {
    hide StatusInv, MemberInv, CountInv, OneActive, AuthorityInv, SettledInv, EvidenceInv, DecisionInv, ReadyInv;
    hide VerifiedInv, BillInv, SourceInv, BatchSourceInv, ExtractionsMove, BatchesMove, BillsMove, IntakesMove, Grows;
    hide SupersedePending, SameRows, Strip;
    EvolvesReflexive(s);
    SupersededPending(s, d, Strip(actor), now);
    VerifiedSurvivesSupersede(s, d, Strip(actor), now);
    SameRowsFrame(s.extractions, SupersedePending(s.extractions, d, Strip(actor), now), s.batches, s.decisions);
    NewSource(s.files, s.intakes, s.batches, f, i, SourceFile(d, NextVersion(s.files, d), Original, sha256), state);
  }

  lemma AddArtifactKeeps(s: Db, d: Id, f: Id, kind: FileKind, sha256: string, source: Id, version: nat)
    requires Inv(s)
    requires AddArtifact(s, d, f, kind, sha256, source, version).Ok?
    ensures var t := AddArtifact(s, d, f, kind, sha256, source, version).value; Inv(t) && Evolves(s, t)
  {
    hide StatusInv, MemberInv, CountInv, OneActive, AuthorityInv, SettledInv, EvidenceInv, DecisionInv, ReadyInv;
    hide VerifiedInv, BillInv, SourceInv, BatchSourceInv, ExtractionsMove, BatchesMove, BillsMove, IntakesMove, Grows;
    EvolvesReflexive(s);
    NewArtifact(s.files, s.intakes, f, SourceFile(d, NextVersion(s.files, d), kind, sha256));
  }

  lemma TransitionKeeps(s: Db, i: Id, v: int, state: IntakeState, reason: string)
    requires Inv(s)
    requires Transition(s, i, v, state, reason).Ok?
    ensures var t := Transition(s, i, v, state, reason).value; Inv(t) && Evolves(s, t)
  {
    hide StatusInv, MemberInv, CountInv, OneActive, AuthorityInv, SettledInv, EvidenceInv, DecisionInv, ReadyInv;
    hide VerifiedInv, BillInv, DocumentInv, SourceInv, BatchSourceInv, ExtractionsMove, BatchesMove;
    hide BillsMove, IntakesMove, Grows;
    EvolvesReflexive(s);
    MovedIntake(s.files, s.intakes, s.batches, i, s.intakes[i].(state := state, version := s.intakes[i].version + 1));
  }

  lemma SetStatusKeeps(s: Db, d: Id, status: DocumentStatus)
    requires Inv(s) && d in s.documents
    ensures var t := s.(documents := s.documents[d := status]); Inv(t) && Evolves(s, t)
  {
    hide StatusInv, MemberInv, CountInv, OneActive, AuthorityInv, SettledInv, EvidenceInv, DecisionInv, ReadyInv;
    hide VerifiedInv, BillInv, SourceInv, BatchSourceInv, ExtractionsMove, BatchesMove, BillsMove, IntakesMove, Grows;
    EvolvesReflexive(s);
  }

  lemma PrepareReprocessKeeps(s: Db, d: Id, actor: string, hasJob: bool)
    requires Inv(s)
    requires PrepareReprocess(s, d, actor, hasJob).Ok?
    ensures var t := PrepareReprocess(s, d, actor, hasJob).value; Inv(t) && Evolves(s, t)
  {
    hide Inv, Evolves, Transition, MayReprocess;
    SetStatusKeeps(s, d, NeedsReprocess);
    var i := IntakeOf(s, d, LatestOriginal(s.files, d).value).value;
    var t := s.(documents := s.documents[d := NeedsReprocess]);
    if s.intakes[i].state != Queued {
      TransitionKeeps(t, i, s.intakes[i].version, Queued, "processing_queued");
      EvolvesTransitive(s, t, Transition(t, i, s.intakes[i].version, Queued, "processing_queued").value);
    }
  }
}
