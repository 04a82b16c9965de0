/**
  Retry chains of derivative jobs.  One document's jobs are the list of rows in
  insertion order, and a row's position stands for its id.
*/
module DerivativeRetry {
  import opened Basics

  datatype Kind = IndexDocument | EmbeddedMedia

  /** The exact immutable input of a derivative. */
  datatype Target = Target(kind: Kind, sourceVersion: nat, sha256: string)

  /** Idempotency keys: the canonical key of a target, the successor of a job, or any other text. */
  datatype Key = Primary(target: Target) | Recovery(failed: nat) | Other(text: string)

  datatype Status = Queued | Running | Done | Failed | Dead

  /** `stamp` is the creation and update time; it may tie. */
  datatype Job = Job(target: Option<Target>, key: Key, status: Status, stamp: nat)

  predicate IsFailed(status: Status) {
    status == Failed || status == Dead
  }

  predicate OfTarget(jobs: seq<Job>, t: Target, i: nat) {
    i < |jobs| && jobs[i].target == Some(t)
  }

  ghost predicate HasTarget(jobs: seq<Job>, t: Target) {
    exists i: nat :: OfTarget(jobs, t, i)
  }

  predicate HasKey(jobs: seq<Job>, key: Key) {
    exists i :: 0 <= i < |jobs| && jobs[i].key == key
  }

  /** `enqueue`: insert unless the document already has the key. */
  function Enqueue(jobs: seq<Job>, target: Option<Target>, key: Key, stamp: nat): seq<Job> {
    if HasKey(jobs, key) then jobs else jobs + [Job(target, key, Queued, stamp)]
  }

  // ------------------------------------------------------------ one retry

  /** The positions of the jobs of a target, in order. */
  function Group(jobs: seq<Job>, t: Target, n: nat): (r: seq<nat>)
    requires n <= |jobs|
    ensures forall i: nat :: i in r <==> i < n && OfTarget(jobs, t, i)
  {
    if n == 0 then [] else Group(jobs, t, n - 1) + (if OfTarget(jobs, t, n - 1) then [n - 1] else [])
  }

  function FailedOf(jobs: seq<Job>, group: seq<nat>): (r: seq<nat>)
    requires forall i: nat :: i in group ==> i < |jobs|
    ensures forall i: nat :: i in r <==> i in group && IsFailed(jobs[i].status)
  {
    if group == [] then []
    else
      assert group[0] in group && forall i: nat :: i in group <==> i == group[0] || i in group[1..];
      (if IsFailed(jobs[group[0]].status) then [group[0]] else []) + FailedOf(jobs, group[1..])
  }

  /** A successor of `i` is among the jobs of `group`. */
  predicate Succeeded(jobs: seq<Job>, group: seq<nat>, i: nat) {
    exists k: nat :: k in group && k < |jobs| && jobs[k].key == Recovery(i)
  }

  function LeavesOf(jobs: seq<Job>, group: seq<nat>, terminal: seq<nat>): (r: seq<nat>)
    ensures forall i: nat :: i in r <==> i in terminal && !Succeeded(jobs, group, i)
  {
    if terminal == [] then []
    else
      assert forall i: nat :: i in terminal <==> i == terminal[0] || i in terminal[1..];
      (if Succeeded(jobs, group, terminal[0]) then [] else [terminal[0]]) + LeavesOf(jobs, group, terminal[1..])
  }

  /** The job with the latest stamp; the id breaks ties. */
  function Newest(jobs: seq<Job>, ids: seq<nat>): (r: nat)
    requires ids != [] && forall i: nat :: i in ids ==> i < |jobs|
    ensures r in ids
  {
    assert ids[0] in ids && forall i: nat :: i in ids <==> i == ids[0] || i in ids[1..];
    if |ids| == 1 then ids[0]
    else
      var rest := Newest(jobs, ids[1..]);
      if jobs[rest].stamp < jobs[ids[0]].stamp || (jobs[rest].stamp == jobs[ids[0]].stamp && rest < ids[0]) then ids[0]
        else rest
  }

  /** `_latest_derivative_recovery_leaf` */
  function RecoveryLeaf(jobs: seq<Job>, group: seq<nat>, terminal: seq<nat>): (r: nat)
    requires terminal != [] && (forall i: nat :: i in terminal ==> i < |jobs|)
    ensures r in terminal
  {
    var leaves := LeavesOf(jobs, group, terminal);
    if leaves == [] then Newest(jobs, terminal) else Newest(jobs, leaves)
  }

  /** Some job of the group is queued, running or done. */
  predicate Resolved(jobs: seq<Job>, group: seq<nat>) {
    exists i: nat :: i in group && i < |jobs| && !IsFailed(jobs[i].status)
  }

  /** The retry of one target: `seen` are the jobs when the request began, `jobs` those now stored. */
  function RetryTarget(seen: seq<Job>, jobs: seq<Job>, t: Target, stamp: nat): seq<Job> {
    var group := Group(seen, t, |seen|);
    if Resolved(seen, group) then jobs
    else
      var terminal := FailedOf(seen, group);
      if terminal == [] then jobs
      else
        var failed := RecoveryLeaf(seen, group, terminal);
        if HasKey(seen, Recovery(failed)) then jobs
        else Enqueue(jobs, seen[failed].target, Recovery(failed), stamp)
  }

  function RetryTargets(seen: seq<Job>, jobs: seq<Job>, targets: seq<Target>, stamp: nat): seq<Job> {
    if targets == [] then jobs
    else RetryTarget(seen, RetryTargets(seen, jobs, targets[..|targets| - 1], stamp), targets[|targets| - 1], stamp)
  }

  /** The targets of the current source, in order of first appearance. */
  function TargetsOf(jobs: seq<Job>, version: nat): (r: seq<Target>)
    ensures forall t :: t in r <==> t.sourceVersion == version && HasTarget(jobs, t)
    ensures forall i, j :: 0 <= i < j < |r| ==> r[i] != r[j]
    decreases |jobs|
  {
    if jobs == [] then
      []
    else
      var older := jobs[..|jobs| - 1];
      var front, last := TargetsOf(older, version), jobs[|jobs| - 1].target;
      TargetsExtend(jobs, older);
      if last.Some? && last.value.sourceVersion == version && last.value !in front then front + [last.value] else front
  }

  lemma TargetsExtend(jobs: seq<Job>, older: seq<Job>)
    requires jobs != [] && older == jobs[..|jobs| - 1]
    ensures forall t :: HasTarget(jobs, t) <==> HasTarget(older, t) || jobs[|jobs| - 1].target == Some(t)
  {
    forall t ensures HasTarget(jobs, t) <==> HasTarget(older, t) || jobs[|jobs| - 1].target == Some(t) {
      if i: nat :| OfTarget(older, t, i) { assert OfTarget(jobs, t, i); }
      if jobs[|jobs| - 1].target == Some(t) { assert OfTarget(jobs, t, |jobs| - 1); }
      if i: nat :| OfTarget(jobs, t, i) { assert i < |jobs| - 1 ==> OfTarget(older, t, i); }
    }
  }

  function Retry(jobs: seq<Job>, version: nat, stamp: nat): seq<Job> {
    RetryTargets(jobs, jobs, TargetsOf(jobs, version), stamp)
  }

  // ------------------------------------------------------------ the loop

  class Queue {
    var jobs: seq<Job>

    constructor ()
      ensures jobs == []
    {
      jobs := [];
    }

    /** `retry_current_derivatives`: the new jobs and their ids. */
    method RetryCurrent(version: nat, stamp: nat) returns (queued: seq<nat>)
      modifies this
      ensures jobs == Retry(old(jobs), version, stamp)
      ensures |jobs| == |old(jobs)| + |queued| && forall k :: 0 <= k < |queued| ==> queued[k] == |old(jobs)| + k
    {
      hide Group, FailedOf, RecoveryLeaf, Resolved, HasKey, TargetsOf;
      var seen := jobs;
      queued := [];
      var targets := CollectTargets(seen, version);
      for k := 0 to |targets|
        invariant jobs == RetryTargets(seen, seen, targets[..k], stamp)
        invariant |jobs| == |seen| + |queued| && forall j :: 0 <= j < |queued| ==> queued[j] == |seen| + j
      {
        assert targets[..k + 1][..k] == targets[..k];
        var group := Group(seen, targets[k], |seen|);
        if Resolved(seen, group) { continue; }
        var terminal := FailedOf(seen, group);
        if terminal == [] { continue; }
        var failed := RecoveryLeaf(seen, group, terminal);
        if HasKey(seen, Recovery(failed)) { continue; }
        if !HasKey(jobs, Recovery(failed)) {
          queued := queued + [|jobs|];
          jobs := jobs + [Job(seen[failed].target, Recovery(failed), Queued, stamp)];
        }
      }
      assert targets[..|targets|] == targets;
    }
  }

  /** `_current_source_derivative_jobs`: the keys of the groups, as the loop inserts them. */
  method CollectTargets(seen: seq<Job>, version: nat) returns (targets: seq<Target>)
    ensures targets == TargetsOf(seen, version)
  {
    targets := [];
    for i := 0 to |seen|
      invariant targets == TargetsOf(seen[..i], version)
    {
      assert seen[..i + 1][..i] == seen[..i];
      var target := seen[i].target;
      if target.Some? && target.value.sourceVersion == version && target.value !in targets {
        targets := targets + [target.value];
      }
    }
    assert seen[..|seen|] == seen;
  }

  // ------------------------------------------------------------ histories

  datatype Event =
    | EnqueuePrimary(target: Target, stamp: nat)
    | EnqueueOther(text: string, stamp: nat)
    | Work(id: nat, status: Status, stamp: nat)
    | RetryAll(version: nat, stamp: nat)

  /** What workers do to a job: lease it, finish it, give it back or bury it. */
  predicate Moves(before: Status, after: Status) {
    (before == Queued && after == Running) || before == Running
  }

  function Next(jobs: seq<Job>, e: Event): seq<Job> {
    match e
    case EnqueuePrimary(t, stamp) => Enqueue(jobs, Some(t), Primary(t), stamp)
    case EnqueueOther(text, stamp) => Enqueue(jobs, None, Other(text), stamp)
    case Work(i, status, stamp) =>
      if i < |jobs| && Moves(jobs[i].status, status) then jobs[i := jobs[i].(status := status, stamp := stamp)]
        else jobs
    case RetryAll(version, stamp) => Retry(jobs, version, stamp)
  }

  function History(events: seq<Event>): seq<Job> {
    if events == [] then [] else Next(History(events[..|events| - 1]), events[|events| - 1])
  }

  // ------------------------------------------------------------ chains

  ghost predicate KeysUnique(jobs: seq<Job>) {
    forall i, j :: 0 <= i < j < |jobs| ==> jobs[i].key != jobs[j].key
  }

  /** A recovery job follows an earlier failed job of the same target; every other derivative has its canonical key. */
  ghost predicate Linked(jobs: seq<Job>, j: nat)
    requires j < |jobs|
  {
    match jobs[j].key
    case Recovery(f) => f < j && jobs[j].target.Some? && jobs[f].target == jobs[j].target && IsFailed(jobs[f].status)
    case Primary(t) => jobs[j].target == Some(t)
    case Other(_) => jobs[j].target.None?
  }

  /** All jobs of a target but the last have a successor. */
  ghost predicate Continued(jobs: seq<Job>) {
    forall i, j :: 0 <= i < j < |jobs| && jobs[i].target.Some? && jobs[i].target == jobs[j].target ==>
      HasKey(jobs, Recovery(i))
  }

  ghost predicate ChainInv(jobs: seq<Job>) {
    KeysUnique(jobs) && (forall j :: 0 <= j < |jobs| ==> Linked(jobs, j)) && Continued(jobs)
  }

  /** Every target with a job has its primary job. */
  lemma {:induction false} PrimaryExists(jobs: seq<Job>, t: Target, j: nat)
    requires ChainInv(jobs) && OfTarget(jobs, t, j)
    ensures HasKey(jobs, Primary(t))
    decreases j
  {
    assert Linked(jobs, j);
    if jobs[j].key.Recovery? { PrimaryExists(jobs, t, jobs[j].key.failed); }
  }

  lemma SuccessorOf(jobs: seq<Job>, t: Target, i: nat, j: nat)
    requires ChainInv(jobs) && OfTarget(jobs, t, i) && OfTarget(jobs, t, j) && i < j
    ensures IsFailed(jobs[i].status) && exists k: nat :: i < k && OfTarget(jobs, t, k) && jobs[k].key == Recovery(i)
  {
    assert HasKey(jobs, Recovery(i));
    var k :| 0 <= k < |jobs| && jobs[k].key == Recovery(i);
    assert Linked(jobs, k);
  }

  /** `j` is the last job of its target. */
  ghost predicate IsLast(jobs: seq<Job>, t: Target, j: nat) {
    OfTarget(jobs, t, j) && forall i: nat :: OfTarget(jobs, t, i) ==> i <= j
  }

  lemma {:induction false} LastExists(jobs: seq<Job>, t: Target, n: nat) returns (j: nat)
    requires n <= |jobs| && (exists i: nat :: i < n && OfTarget(jobs, t, i)) && forall i: nat ::
      OfTarget(jobs, t, i) ==> i < n
    ensures IsLast(jobs, t, j)
    decreases n
  {
    if OfTarget(jobs, t, n - 1) {
      j := n - 1;
    } else {
      j := LastExists(jobs, t, n - 1);
    }
  }

  /** The last job of a target has no successor. */
  lemma LastHasNone(jobs: seq<Job>, t: Target, j: nat)
    requires ChainInv(jobs) && IsLast(jobs, t, j)
    ensures !HasKey(jobs, Recovery(j))
  {
    forall k | 0 <= k < |jobs| ensures jobs[k].key != Recovery(j) {
      assert Linked(jobs, k);
      assert jobs[k].key == Recovery(j) ==> OfTarget(jobs, t, k);
    }
  }

  /** When all jobs of a target failed, the leaf picked for recovery is its last job, whatever the stamps. */
  lemma LeafIsLast(jobs: seq<Job>, t: Target, j: nat)
    requires ChainInv(jobs) && IsLast(jobs, t, j) && !Resolved(jobs, Group(jobs, t, |jobs|))
    ensures var group := Group(jobs, t, |jobs|);
      && FailedOf(jobs, group) != [] && (forall i: nat :: i in FailedOf(jobs, group) ==> i < |jobs|)
      && RecoveryLeaf(jobs, group, FailedOf(jobs, group)) == j
  {
    var group := Group(jobs, t, |jobs|);
    var terminal := FailedOf(jobs, group);
    assert j in group;
    assert IsFailed(jobs[j].status);
    assert j in terminal;
    LastHasNone(jobs, t, j);
    var leaves := LeavesOf(jobs, group, terminal);
    forall i: nat ensures i in leaves <==> i == j {
      if i in terminal && i != j {
        SuccessorOf(jobs, t, i, j);
        var k: nat :| i < k && OfTarget(jobs, t, k) && jobs[k].key == Recovery(i);
        assert k in group;
      }
    }
    assert leaves != [];
  }

  // ------------------------------------------------------------ every step keeps the chains

  lemma AddedPrimary(jobs: seq<Job>, t: Target, stamp: nat)
    requires ChainInv(jobs)
    ensures ChainInv(Enqueue(jobs, Some(t), Primary(t), stamp))
  {
    if !HasKey(jobs, Primary(t)) {
      forall i: nat | i < |jobs| ensures jobs[i].target != Some(t) {
        if OfTarget(jobs, t, i) { PrimaryExists(jobs, t, i); assert false; }
      }
      AppendKeeps(jobs, Job(Some(t), Primary(t), Queued, stamp));
    }
  }

  /** Appending a job with a new key that is linked keeps the chains, if its target's last job gets its successor. */
  lemma AppendKeeps(jobs: seq<Job>, job: Job)
    requires ChainInv(jobs) && !HasKey(jobs, job.key) && Linked(jobs + [job], |jobs|)
    requires forall i: nat :: i < |jobs| && jobs[i].target.Some? && jobs[i].target == job.target ==>
      HasKey(jobs + [job], Recovery(i))
    ensures ChainInv(jobs + [job])
  {
    var all := jobs + [job];
    forall j | 0 <= j < |all| ensures Linked(all, j) {
      if j < |jobs| { assert Linked(jobs, j); }
    }
    forall i, j | 0 <= i < j < |all| && all[i].target.Some? && all[i].target == all[j].target
      ensures HasKey(all, Recovery(i))
    {
      if j < |jobs| {
        var k :| 0 <= k < |jobs| && jobs[k].key == Recovery(i);
        assert all[k].key == Recovery(i);
      }
    }
  }

  lemma AddedOther(jobs: seq<Job>, text: string, stamp: nat)
    requires ChainInv(jobs)
    ensures ChainInv(Enqueue(jobs, None, Other(text), stamp))
  {
    if !HasKey(jobs, Other(text)) { AppendKeeps(jobs, Job(None, Other(text), Queued, stamp)); }
  }

  lemma WorkedOn(jobs: seq<Job>, i: nat, status: Status, stamp: nat)
    requires ChainInv(jobs) && i < |jobs| && Moves(jobs[i].status, status)
    ensures ChainInv(jobs[i := jobs[i].(status := status, stamp := stamp)])
  {
    var after := jobs[i := jobs[i].(status := status, stamp := stamp)];
    forall j | 0 <= j < |after| ensures Linked(after, j) {
      assert Linked(jobs, j);
    }
    forall k | HasKey(jobs, Recovery(k)) ensures HasKey(after, Recovery(k)) {
      var j :| 0 <= j < |jobs| && jobs[j].key == Recovery(k);
      assert after[j].key == Recovery(k);
    }
  }

  /** Every job of the target failed. */
  ghost predicate AllFailed(jobs: seq<Job>, t: Target) {
    forall i: nat :: OfTarget(jobs, t, i) ==> IsFailed(jobs[i].status)
  }

  lemma ResolvedMeans(jobs: seq<Job>, t: Target)
    ensures Resolved(jobs, Group(jobs, t, |jobs|)) <==> !AllFailed(jobs, t)
  {
    var group := Group(jobs, t, |jobs|);
    if !AllFailed(jobs, t) {
      var i: nat :| OfTarget(jobs, t, i) && !IsFailed(jobs[i].status);
      assert i in group;
    }
  }

  /** `jobs` is `seen` plus one queued successor for the last job of each failed target among `done`. */
  ghost predicate Extended(seen: seq<Job>, jobs: seq<Job>, done: seq<Target>) {
    && seen <= jobs
    && (forall j: nat :: |seen| <= j < |jobs| ==>
          && jobs[j].status == Queued && jobs[j].target.Some? && jobs[j].target.value in done
          && AllFailed(seen, jobs[j].target.value)
          && jobs[j].key.Recovery? && IsLast(seen, jobs[j].target.value, jobs[j].key.failed))
    && (forall t :: t in done && HasTarget(seen, t) && AllFailed(seen, t) ==>
         exists j: nat :: |seen| <= j && OfTarget(jobs, t, j))
  }

  lemma ExtendedLast(seen: seq<Job>, jobs: seq<Job>, done: seq<Target>, t: Target, j: nat)
    requires ChainInv(seen) && Extended(seen, jobs, done) && t !in done && IsLast(seen, t, j)
    ensures !HasKey(jobs, Recovery(j)) && IsLast(jobs, t, j)
  {
    LastHasNone(seen, t, j);
    forall k | 0 <= k < |jobs| ensures jobs[k].key != Recovery(j) {
      if k < |seen| { assert jobs[k] == seen[k]; }
    }
    forall i: nat | OfTarget(jobs, t, i) ensures i <= j {
      if i < |seen| { assert OfTarget(seen, t, i); }
    }
  }

  lemma ExtendedMore(seen: seq<Job>, jobs: seq<Job>, done: seq<Target>, t: Target)
    requires Extended(seen, jobs, done) && (HasTarget(seen, t) ==> !AllFailed(seen, t))
    ensures Extended(seen, jobs, done + [t])
  {
    assert forall u :: u in done ==> u in done + [t];
  }

  lemma ExtendedByOne(seen: seq<Job>, jobs: seq<Job>, done: seq<Target>, t: Target, j: nat, stamp: nat)
    requires Extended(seen, jobs, done) && IsLast(seen, t, j) && AllFailed(seen, t)
    ensures Extended(seen, jobs + [Job(Some(t), Recovery(j), Queued, stamp)], done + [t])
  {
    var all := jobs + [Job(Some(t), Recovery(j), Queued, stamp)];
    assert t in done + [t] && forall u :: u in done ==> u in done + [t];
    forall u | u in done + [t] && HasTarget(seen, u) && AllFailed(seen, u)
      ensures exists k: nat :: |seen| <= k && OfTarget(all, u, k)
    {
      if u == t {
        assert OfTarget(all, t, |jobs|);
      } else {
        assert u in done;
        var k: nat :| |seen| <= k && OfTarget(jobs, u, k);
        assert OfTarget(all, u, k);
      }
    }
  }

  lemma RetriedTarget(seen: seq<Job>, jobs: seq<Job>, done: seq<Target>, t: Target, stamp: nat)
    requires ChainInv(seen) && ChainInv(jobs) && Extended(seen, jobs, done) && t !in done
    ensures ChainInv(RetryTarget(seen, jobs, t, stamp)) && Extended(seen, RetryTarget(seen, jobs, t, stamp), done + [t])
  {
    hide ChainInv, Extended;
    var group := Group(seen, t, |seen|);
    ResolvedMeans(seen, t);
    if !AllFailed(seen, t) || !HasTarget(seen, t) {
      ExtendedMore(seen, jobs, done, t);
      if !HasTarget(seen, t) { NothingFailed(seen, t); }
    } else {
      var j := LastExists(seen, t, |seen|);
      LeafIsLast(seen, t, j);
      LastHasNone(seen, t, j);
      ExtendedLast(seen, jobs, done, t, j);
      ExtendedByOne(seen, jobs, done, t, j, stamp);
      SuccessorAppended(seen, jobs, done, t, j, stamp);
    }
  }

  lemma NothingFailed(seen: seq<Job>, t: Target)
    requires !HasTarget(seen, t)
    ensures FailedOf(seen, Group(seen, t, |seen|)) == []
  {
    NothingGrouped(seen, t, |seen|);
  }

  lemma {:induction false} NothingGrouped(jobs: seq<Job>, t: Target, n: nat)
    requires n <= |jobs| && !HasTarget(jobs, t)
    ensures Group(jobs, t, n) == []
  {
    if n > 0 {
      NothingGrouped(jobs, t, n - 1);
      assert !OfTarget(jobs, t, n - 1);
    }
  }

  lemma SuccessorAppended(seen: seq<Job>, jobs: seq<Job>, done: seq<Target>, t: Target, j: nat, stamp: nat)
    requires ChainInv(jobs) && seen <= jobs && IsLast(seen, t, j) && IsLast(jobs, t, j) && AllFailed(seen, t)
      && !HasKey(jobs, Recovery(j))
    ensures ChainInv(jobs + [Job(Some(t), Recovery(j), Queued, stamp)])
  {
    var job := Job(Some(t), Recovery(j), Queued, stamp);
    var all := jobs + [job];
    assert jobs[j] == seen[j];
    forall i: nat | i < |jobs| && jobs[i].target.Some? && jobs[i].target == job.target
      ensures HasKey(all, Recovery(i))
    {
      assert OfTarget(jobs, t, i);
      if i < j {
        SuccessorOf(jobs, t, i, j);
        var k: nat :| i < k && OfTarget(jobs, t, k) && jobs[k].key == Recovery(i);
        assert all[k].key == Recovery(i);
      } else {
        assert all[|jobs|].key == Recovery(i);
      }
    }
    AppendKeeps(jobs, job);
  }

  lemma {:induction false} RetriedTargets(seen: seq<Job>, targets: seq<Target>, stamp: nat)
    requires ChainInv(seen) && forall i, j :: 0 <= i < j < |targets| ==> targets[i] != targets[j]
    ensures var jobs := RetryTargets(seen, seen, targets, stamp); ChainInv(jobs) && Extended(seen, jobs, targets)
    decreases |targets|
  {
    hide ChainInv, RetryTarget;
    if targets != [] {
      hide Extended;
      var front, last := targets[..|targets| - 1], targets[|targets| - 1];
      RetriedTargets(seen, front, stamp);
      RetriedTarget(seen, RetryTargets(seen, seen, front, stamp), front, last, stamp);
      assert front + [last] == targets;
    }
  }

  lemma RetryKeeps(jobs: seq<Job>, version: nat, stamp: nat)
    requires ChainInv(jobs)
    ensures ChainInv(Retry(jobs, version, stamp))
      && Extended(jobs, Retry(jobs, version, stamp), TargetsOf(jobs, version))
  {
    hide ChainInv, Extended;
    RetriedTargets(jobs, TargetsOf(jobs, version), stamp);
  }

  lemma NextKeeps(jobs: seq<Job>, e: Event)
    requires ChainInv(jobs)
    ensures ChainInv(Next(jobs, e))
  {
    hide ChainInv, Retry, Enqueue;
    match e
    case EnqueuePrimary(t, stamp) => AddedPrimary(jobs, t, stamp);
    case EnqueueOther(text, stamp) => AddedOther(jobs, text, stamp);
    case Work(i, status, stamp) => if i < |jobs| && Moves(jobs[i].status, status) { WorkedOn(jobs, i, status, stamp); }
    case RetryAll(version, stamp) => RetryKeeps(jobs, version, stamp);
  }

  lemma {:induction false} HistoryKeeps(events: seq<Event>)
    ensures ChainInv(History(events))
  {
    if events != [] {
      hide ChainInv, Next;
      HistoryKeeps(events[..|events| - 1]);
      NextKeeps(History(events[..|events| - 1]), events[|events| - 1]);
    }
  }

  // ------------------------------------------------------------ what chains promise

  /** Each failed job has at most one successor. */
  lemma OneSuccessor(events: seq<Event>, f: nat, i: nat, j: nat)
    requires var jobs := History(events);
      i < |jobs| && j < |jobs| && jobs[i].key == Recovery(f) && jobs[j].key == Recovery(f)
    ensures i == j
  {
    HistoryKeeps(events);
    hide History;
  }

  /** Each target has at most one job that is not failed. */
  lemma OneLiveJob(events: seq<Event>, t: Target, i: nat, j: nat)
    requires var jobs := History(events);
      OfTarget(jobs, t, i) && OfTarget(jobs, t, j) && !IsFailed(jobs[i].status) && !IsFailed(jobs[j].status)
    ensures i == j
  {
    HistoryKeeps(events);
    hide History;
    var jobs := History(events);
    if i < j { SuccessorOf(jobs, t, i, j); }
    if j < i { SuccessorOf(jobs, t, j, i); }
  }

  /** A target whose jobs all failed has a leaf without successor, and a retry queues exactly one job for it. */
  lemma FailedTargetIsRetried(events: seq<Event>, t: Target, stamp: nat) returns (leaf: nat, next: nat)
    requires HasTarget(History(events), t) && AllFailed(History(events), t)
    ensures var jobs := History(events);
      && OfTarget(jobs, t, leaf) && !HasKey(jobs, Recovery(leaf))
      && var after := Retry(jobs, t.sourceVersion, stamp);
         && |jobs| <= next && OfTarget(after, t, next) && after[next].status == Queued
         && after[next].key == Recovery(leaf)
         && (forall i: nat :: |jobs| <= i && OfTarget(after, t, i) ==> i == next)
  {
    HistoryKeeps(events);
    hide History;
    var jobs := History(events);
    leaf := LastExists(jobs, t, |jobs|);
    LastHasNone(jobs, t, leaf);
    RetryKeeps(jobs, t.sourceVersion, stamp);
    hide Retry;
    var after := Retry(jobs, t.sourceVersion, stamp);
    assert t in TargetsOf(jobs, t.sourceVersion);
    next :| |jobs| <= next && OfTarget(after, t, next);
    forall i: nat | |jobs| <= i && OfTarget(after, t, i) ensures i == next {
      assert IsLast(jobs, t, after[i].key.failed) && IsLast(jobs, t, after[next].key.failed);
    }
  }

  lemma {:induction false} NothingToRetry(seen: seq<Job>, jobs: seq<Job>, targets: seq<Target>, stamp: nat)
    requires forall t :: t in targets ==> !AllFailed(seen, t)
    ensures RetryTargets(seen, jobs, targets, stamp) == jobs
    decreases |targets|
  {
    if targets != [] {
      assert targets[|targets| - 1] in targets;
      ResolvedMeans(seen, targets[|targets| - 1]);
      NothingToRetry(seen, jobs, targets[..|targets| - 1], stamp);
    }
  }

  /** An immediate second retry queues nothing. */
  lemma SecondRetryIsIdle(events: seq<Event>, version: nat, stamp: nat, again: nat)
    ensures var after := Retry(History(events), version, stamp); Retry(after, version, again) == after
  {
    HistoryKeeps(events);
    hide History;
    var jobs := History(events);
    RetryKeeps(jobs, version, stamp);
    hide RetryTargets, ChainInv;
    var after := Retry(jobs, version, stamp);
    forall t | t in TargetsOf(after, version) ensures !AllFailed(after, t) {
      NowLive(jobs, after, TargetsOf(jobs, version), version, t);
    }
    NothingToRetry(after, after, TargetsOf(after, version), again);
  }

  lemma NowLive(jobs: seq<Job>, after: seq<Job>, targets: seq<Target>, version: nat, t: Target)
    requires Extended(jobs, after, targets) && targets == TargetsOf(jobs, version) && t.sourceVersion == version
      && HasTarget(after, t)
    ensures !AllFailed(after, t)
  {
    var i: nat :| OfTarget(after, t, i);
    if i < |jobs| {
      assert OfTarget(jobs, t, i);
      assert t in targets;
      if AllFailed(jobs, t) {
        var j: nat :| |jobs| <= j && OfTarget(after, t, j);
        assert after[j].status == Queued;
      } else {
        var j: nat :| OfTarget(jobs, t, j) && !IsFailed(jobs[j].status);
        assert OfTarget(after, t, j) && after[j] == jobs[j];
      }
    } else {
      assert after[i].status == Queued;
    }
  }
}
