/** Every intake history is a path in the transition table, and its version counts the edges. */
module IntakeTheorems {
  import opened Basics
  import opened Model
  import opened Authority
  import opened Invariant
  import opened Sources
  import opened Text
  import ActivationTheorems
  import Billing
  import BillingProofs
  import DecisionProofs
  import Legacy
  import LegacyProofs
  import Protocol
  import RejectionProofs
  import Traces

  // ------------------------------------------------------------ one call

  /** The row after one edge of the transition table. */
  function Moved(intake: Intake, state: IntakeState): Intake {
    intake.(state := state, version := intake.version + 1)
  }

  /** What one call may do to an intake row; only storing a mapped batch takes two edges at once. */
  ghost predicate RowStep(p: Intake, q: Intake, mapped: bool) {
    || q == p
    || (q == Moved(p, q.state) && Edge(p.state, q.state))
    || (mapped && p.state == NeedsMapping && q == Moved(Moved(p, Processing), Processed))
  }

  /** Rows move by edges, and every new row starts at version one. */
  ghost predicate TableStep(p: map<Id, Intake>, q: map<Id, Intake>, mapped: bool) {
    && (forall i :: i in p ==> i in q && RowStep(p[i], q[i], mapped))
    && (forall i :: i in q && i !in p ==> q[i].version == 1)
  }

  predicate StoresMapping(step: Protocol.Step) {
    step.AddBatch? && !step.newBatch.direct
  }

  /** The call uploads a source whose intake is `i`, in this state. */
  predicate Uploads(step: Protocol.Step, i: Id, state: IntakeState) {
    (step.CreateDocument? || step.AppendSource?) && step.intake == i && step.state == state
  }

  lemma AfterBatchSteps(intake: Intake, direct: bool)
    ensures RowStep(intake, AfterBatch(intake, direct), !direct)
  {
  }

  lemma TransitionSteps(s: Db, i: Id, v: int, state: IntakeState, reason: string)
    requires Transition(s, i, v, state, reason).Ok?
    ensures var t := Transition(s, i, v, state, reason).value;
      TableStep(s.intakes, t.intakes, false) && t.intakes.Keys == s.intakes.Keys
  {
    hide Edge, Strip;
  }

  /** Every state but `queued` has an edge to `queued`. */
  lemma AlwaysRequeuable(state: IntakeState)
    ensures state != Queued ==> Edge(state, Queued)
  {
  }

  /** Reprocessing moves the current intake to `queued` by a legal edge whenever the document may be reprocessed. */
  lemma ReprocessIsLegal(s: Db, d: Id, actor: string, hasJob: bool)
    requires SourceInv(s.files, s.intakes) && d in s.documents && Strip(actor) != ""
    requires LatestOriginal(s.files, d).Some? && IntakeOf(s, d, LatestOriginal(s.files, d).value).Some?
    ensures var f := LatestOriginal(s.files, d).value; var i := IntakeOf(s, d, f).value;
      var r := PrepareReprocess(s, d, actor, hasJob);
      && (r.Ok? <==> MayReprocess(s, d, s.files[f].version, s.intakes[i].state, hasJob))
      && (r.Err? ==> r.error == ReprocessUnavailable)
      && (r.Ok? ==>
            && i in r.value.intakes && r.value.intakes[i].state == Queued
            && d in r.value.documents && r.value.documents[d] == NeedsReprocess
            && r.value.intakes[i].version == s.intakes[i].version + (if s.intakes[i].state == Queued then 0 else 1))
  {
    hide MayReprocess, Edge;
    AlwaysRequeuable(s.intakes[IntakeOf(s, d, LatestOriginal(s.files, d).value).value].state);
  }

  lemma ReprocessSteps(s: Db, d: Id, actor: string, hasJob: bool)
    requires PrepareReprocess(s, d, actor, hasJob).Ok?
    ensures var t := PrepareReprocess(s, d, actor, hasJob).value;
      TableStep(s.intakes, t.intakes, false) && t.intakes.Keys == s.intakes.Keys
  {
    hide MayReprocess, Transition, Edge;
    var i := IntakeOf(s, d, LatestOriginal(s.files, d).value).value;
    var t := s.(documents := s.documents[d := NeedsReprocess]);
    if s.intakes[i].state != Queued {
      TransitionSteps(t, i, s.intakes[i].version, Queued, "processing_queued");
    }
  }

  lemma NewBatchSteps(s: Db, q: NewBatch)
    requires AddBatch(s, q).Ok?
    ensures var t := AddBatch(s, q).value;
      TableStep(s.intakes, t.intakes, !q.direct) && t.intakes.Keys == s.intakes.Keys
  {
    hide RowStep, LatestOriginal, AfterBatch, InsertCandidates, DraftsStorable;
    forall i | i in s.intakes
      ensures RowStep(s.intakes[i], s.intakes[i], !q.direct) { SameRowSteps(s.intakes[i], !q.direct); }
    if q.identity.intake in s.intakes { AfterBatchSteps(s.intakes[q.identity.intake], q.direct); }
  }

  lemma SameRowSteps(intake: Intake, mapped: bool)
    ensures RowStep(intake, intake, mapped)
  {
  }

  lemma SourceSteps(s: Db, step: Protocol.Step, m: Mapping)
    requires Protocol.Succeeds(m, s, step) && (step.CreateDocument? || step.AppendSource? || step.AddArtifact?)
    ensures var t := Protocol.Apply(m, s, step).value;
      && TableStep(s.intakes, t.intakes, false)
      && forall i :: i in t.intakes && i !in s.intakes ==> Uploads(step, i, t.intakes[i].state)
  {
    hide LatestOriginal, SupersedePending, NextVersion, Strip, Edge;
  }

  lemma ApprovalKeepsIntakes(m: Mapping, s: Db, q: Legacy.Promotion)
    requires Inv(s) && Legacy.ApproveExtraction(m, s, q).Ok?
    ensures Legacy.ApproveExtraction(m, s, q).value.intakes == s.intakes
  {
    hide Inv, Strip;
    if q.bill.Some? {
      var t := Legacy.Promote(m, s, q).value;
      assert t.intakes == s.intakes;
      LegacyProofs.PromoteKeeps(m, s, q);
      var projection := m.projection(s.extractions[q.extraction].content.payload, q.corrections);
      hide Legacy.Promote;
      BillKeepsIntakes(t,
        Billing.NewBill(q.bill.value.0, q.bill.value.1, q.verified, projection.value, Strip(q.reviewer), q.now));
    }
  }

  lemma BillKeepsIntakes(s: Db, q: Billing.NewBill)
    requires Inv(s) && Billing.RecordBill(s, q).Ok?
    ensures Billing.RecordBill(s, q).value.0.intakes == s.intakes
  {
    hide Billing.RecordBill, ReviewInv, DecisionInv, ReadyInv, VerifiedInv, BillInv, DocumentInv, SourceInv;
    hide BatchSourceInv;
    BillingProofs.RecordBillTables(s, q);
  }

  lemma LegacyKeepsIntakes(s: Db, step: Protocol.Step, m: Mapping)
    requires Protocol.Succeeds(m, s, step)
      && (step.AddExtraction? || step.RejectExtraction? || step.MarkPaid? || step.SetStatus? || step.StageChunks?)
    ensures Protocol.Apply(m, s, step).value.intakes == s.intakes
  {
    hide LatestOriginal, SupersedePending, Strip, Billing.BillCarriesAuthority;
  }

  lemma ReviewKeepsIntakes(m: Mapping, s: Db, step: Protocol.Step)
    requires Inv(s) && Protocol.Succeeds(m, s, step)
      && (step.ApplyDecisions? || step.RejectBatch? || step.Activate? || step.Approve? || step.RecordBill?)
    ensures Protocol.Apply(m, s, step).value.intakes == s.intakes
  {
    hide Inv;
    match step
    case ApplyDecisions(b, v, drafts, actor) => DecisionProofs.ApplyDecisionsShape(m, s, b, v, drafts, actor);
    case RejectBatch(b, v, actor, reason, now) => RejectionProofs.RejectShape(s, b, v, actor, reason, now);
    case Activate(q) => ActivationTheorems.ActivatedTables(m, s, q);
    case Approve(q) => ApprovalKeepsIntakes(m, s, q);
    case RecordBill(q) => BillKeepsIntakes(s, q);
  }

  lemma SameTableSteps(p: map<Id, Intake>, mapped: bool)
    ensures TableStep(p, p, mapped)
  {
  }

  /** Only uploads, transitions, reprocessing and storing a batch touch an intake. */
  lemma OthersKeepIntakes(m: Mapping, s: Db, step: Protocol.Step)
    requires Inv(s) && Protocol.Succeeds(m, s, step)
    requires !step.CreateDocument? && !step.AppendSource? && !step.AddArtifact? && !step.MoveIntake?
      && !step.PrepareReprocess? && !step.AddBatch?
    ensures Protocol.Apply(m, s, step).value.intakes == s.intakes
  {
    hide Inv, Protocol.Apply;
    if step.ApplyDecisions? || step.RejectBatch? || step.Activate? || step.Approve? || step.RecordBill? {
      ReviewKeepsIntakes(m, s, step);
    } else {
      LegacyKeepsIntakes(s, step, m);
    }
  }

  ghost predicate IntakesStep(s: Db, step: Protocol.Step, t: Db) {
    && TableStep(s.intakes, t.intakes, StoresMapping(step))
    && forall i :: i in t.intakes && i !in s.intakes ==> Uploads(step, i, t.intakes[i].state)
  }

  lemma MovesStep(s: Db, step: Protocol.Step, m: Mapping)
    requires Protocol.Succeeds(m, s, step) && (step.MoveIntake? || step.PrepareReprocess? || step.AddBatch?)
    ensures var t := Protocol.Apply(m, s, step).value;
      TableStep(s.intakes, t.intakes, StoresMapping(step)) && t.intakes.Keys == s.intakes.Keys
  {
    match step
    case MoveIntake(i, v, state, reason) => TransitionSteps(s, i, v, state, reason);
    case PrepareReprocess(d, actor, hasJob) => ReprocessSteps(s, d, actor, hasJob);
    case AddBatch(q) => NewBatchSteps(s, q);
  }

  lemma SucceededSteps(m: Mapping, s: Db, step: Protocol.Step)
    requires Inv(s) && Protocol.Succeeds(m, s, step)
    ensures IntakesStep(s, step, Protocol.Apply(m, s, step).value)
  {
    hide Inv, Protocol.Apply, TableStep;
    if step.CreateDocument? || step.AppendSource? || step.AddArtifact? {
      SourceSteps(s, step, m);
    } else if step.MoveIntake? || step.PrepareReprocess? || step.AddBatch? {
      MovesStep(s, step, m);
    } else {
      OthersKeepIntakes(m, s, step);
      SameTableSteps(s.intakes, StoresMapping(step));
    }
  }

  /**
    One call, failed or not, leaves an intake row as it was, moves it over one
    edge and one version, or stores a mapped batch and moves it over two.  A row
    that appears was uploaded by this call, at version one.
  */
  lemma IntakeSteps(m: Mapping, s: Db, step: Protocol.Step, i: Id)
    requires Inv(s)
    ensures var t := Protocol.Next(m, s, step);
      && (i in s.intakes ==> i in t.intakes && RowStep(s.intakes[i], t.intakes[i], StoresMapping(step)))
      && (i in t.intakes && i !in s.intakes ==> t.intakes[i].version == 1 && Uploads(step, i, t.intakes[i].state))
  {
    hide Inv, Edge, Protocol.Apply;
    if Protocol.Succeeds(m, s, step) { SucceededSteps(m, s, step); }
  }

  // ------------------------------------------------------------ whole histories

  /** A path in the transition table. */
  ghost predicate IsPath(path: seq<IntakeState>) {
    path != [] && forall k :: 0 <= k < |path| - 1 ==> Edge(path[k], path[k + 1])
  }

  /** The state of the intake stands on the path, as many edges from its start as versions from `start`. */
  ghost predicate Visits(s: Db, i: Id, start: nat, path: seq<IntakeState>) {
    && i in s.intakes
    && start <= s.intakes[i].version < start + |path|
    && path[s.intakes[i].version - start] == s.intakes[i].state
  }

  ghost predicate Ends(s: Db, i: Id, start: nat, path: seq<IntakeState>) {
    Visits(s, i, start, path) && |path| == 1 + s.intakes[i].version - start
  }

  /** The path is the history of the intake from the `first` database of the run to its last. */
  ghost predicate Chronicles(
    m: Mapping, s: Db, steps: seq<Protocol.Step>, first: nat, i: Id, start: nat, path: seq<IntakeState>)
  {
    && IsPath(path)
    && (forall n :: first <= n <= |steps| ==> Visits(Protocol.Run(m, s, steps[..n]), i, start, path))
    && Ends(Protocol.Run(m, s, steps), i, start, path)
  }

  /** The edges that take one row to the next, after the state of the first. */
  function Between(p: Intake, q: Intake): seq<IntakeState> {
    if q == p then [] else if q.version == p.version + 1 then [q.state] else [Processing, q.state]
  }

  lemma PathExtends(path: seq<IntakeState>, p: Intake, q: Intake, mapped: bool)
    requires IsPath(path) && path[|path| - 1] == p.state && RowStep(p, q, mapped)
    ensures IsPath(path + Between(p, q))
    ensures |Between(p, q)| == q.version - p.version && (path + Between(p, q))[|path + Between(p, q)| - 1] == q.state
  {
  }

  lemma VisitsLonger(s: Db, i: Id, start: nat, path: seq<IntakeState>, more: seq<IntakeState>)
    requires Visits(s, i, start, path)
    ensures Visits(s, i, start, path + more)
  {
  }

  lemma PrefixRun(m: Mapping, s: Db, steps: seq<Protocol.Step>, k: nat, n: nat)
    requires n <= k <= |steps|
    ensures Protocol.Run(m, s, steps[..k][..n]) == Protocol.Run(m, s, steps[..n])
  {
    assert steps[..k][..n] == steps[..n];
  }

  /** The states an intake passes when a batch of its source is stored. */
  function BatchPath(state: IntakeState, direct: bool): seq<IntakeState> {
    if state == Processed then [Processed]
    else if direct then [Processing, Processed]
    else [NeedsMapping, Processing, Processed]
  }

  /**
    Storing a batch leaves the intake of its source processed and every other one
    alone.  A mapped source gets there over `processing`: two edges and two
    versions.  A request that replays a stored batch changes nothing.
  */
  lemma BatchTraced(s: Db, q: NewBatch)
    requires AddBatch(s, q).Ok?
    ensures var t, i := AddBatch(s, q).value, q.identity.intake;
      || t == s
      || (&& q.id !in s.batches && q.id in t.batches && i in s.intakes
          && var path := BatchPath(s.intakes[i].state, q.direct);
             && IsPath(path) && path[0] == s.intakes[i].state
             && t.intakes
                  == s.intakes[i := s.intakes[i].(state := Processed, version := s.intakes[i].version + |path| - 1)])
  {
    hide LatestOriginal, InsertCandidates, DraftsStorable;
  }

  lemma StepChronicled(
    m: Mapping, s: Db, steps: seq<Protocol.Step>, first: nat, i: Id, start: nat, path: seq<IntakeState>)
    returns (longer: seq<IntakeState>)
    requires Inv(s) && first < |steps|
    requires Chronicles(m, s, steps[..|steps| - 1], first, i, start, path)
    ensures Chronicles(m, s, steps, first, i, start, longer) && longer[0] == path[0]
  {
    hide Inv, Edge, Protocol.Next, RowStep;
    var front, step := steps[..|steps| - 1], steps[|steps| - 1];
    Traces.RunKeeps(m, s, front);
    IntakeSteps(m, Protocol.Run(m, s, front), step, i);
    var p, q := Protocol.Run(m, s, front).intakes[i], Protocol.Run(m, s, steps).intakes[i];
    PathExtends(path, p, q, StoresMapping(step));
    longer := path + Between(p, q);
    forall n | first <= n <= |steps| ensures Visits(Protocol.Run(m, s, steps[..n]), i, start, longer) {
      if n == |steps| {
        assert steps[..n] == steps;
      } else {
        PrefixRun(m, s, steps, |front|, n);
        VisitsLonger(Protocol.Run(m, s, front[..n]), i, start, path, Between(p, q));
      }
    }
  }

  /**
    From any database of a run on, the states an intake goes through are a path
    in the transition table that starts at its state there and takes one edge per
    version; every database in between stands on it at its own version.
  */
  lemma {:induction false} IntakeHistoryIsPath(m: Mapping, s: Db, steps: seq<Protocol.Step>, first: nat, i: Id)
    returns (path: seq<IntakeState>)
    requires Inv(s) && first <= |steps| && i in Protocol.Run(m, s, steps[..first]).intakes
    ensures var row := Protocol.Run(m, s, steps[..first]).intakes[i];
      Chronicles(m, s, steps, first, i, row.version, path) && path[0] == row.state
    decreases |steps|
  {
    hide Inv, Edge, Protocol.Next;
    if first == |steps| {
      assert steps[..|steps|] == steps;
      path := [Protocol.Run(m, s, steps).intakes[i].state];
    } else {
      var front := steps[..|steps| - 1];
      PrefixRun(m, s, steps, |front|, first);
      var shorter := IntakeHistoryIsPath(m, s, front, first, i);
      path := StepChronicled(m, s, steps, first, i, Protocol.Run(m, s, steps[..first]).intakes[i].version, shorter);
    }
  }

  /** The call of a run that uploaded an intake. */
  lemma {:induction false} UploadOf(m: Mapping, s: Db, steps: seq<Protocol.Step>, i: Id) returns (born: nat)
    requires Inv(s) && i !in s.intakes && i in Protocol.Run(m, s, steps).intakes
    ensures born < |steps| && i !in Protocol.Run(m, s, steps[..born]).intakes
      && i in Protocol.Run(m, s, steps[..born + 1]).intakes
    ensures var row := Protocol.Run(m, s, steps[..born + 1]).intakes[i];
      row.version == 1 && Uploads(steps[born], i, row.state)
    decreases |steps|
  {
    hide Inv, RowStep, Protocol.Next;
    var front := steps[..|steps| - 1];
    Traces.RunKeeps(m, s, front);
    if i in Protocol.Run(m, s, front).intakes {
      born := UploadOf(m, s, front, i);
      PrefixRun(m, s, steps, |front|, born);
      PrefixRun(m, s, steps, |front|, born + 1);
    } else {
      born := |steps| - 1;
      IntakeSteps(m, Protocol.Run(m, s, front), steps[born], i);
      assert steps[..|steps|] == steps;
    }
  }

  /**
    In every run from the empty database an intake's whole history is a path: it
    starts at the state its upload gave it, and its version is one plus the edges
    it took.
  */
  lemma HistoryFromUpload(m: Mapping, steps: seq<Protocol.Step>, i: Id) returns (born: nat, path: seq<IntakeState>)
    requires i in Protocol.Run(m, EMPTY, steps).intakes
    ensures born < |steps| && i !in Protocol.Run(m, EMPTY, steps[..born]).intakes
      && i in Protocol.Run(m, EMPTY, steps[..born + 1]).intakes
    ensures IsPath(path) && Uploads(steps[born], i, path[0])
    ensures |path| == Protocol.Run(m, EMPTY, steps).intakes[i].version
    ensures forall n :: born < n <= |steps| ==> Visits(Protocol.Run(m, EMPTY, steps[..n]), i, 1, path)
  {
    hide Inv, IsPath, Protocol.Next;
    Traces.EmptyInv();
    born := UploadOf(m, EMPTY, steps, i);
    path := IntakeHistoryIsPath(m, EMPTY, steps, born + 1, i);
  }
}
