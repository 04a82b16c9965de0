/**
  The ordered migration runner: one transaction per file, a checksum table, and
  any number of processes that may crash at any point.  The list of files is the
  one `discover_migrations` returns, so its order is the filename order.
*/
module Migrations {
  import opened Basics
  import SplitSql

  /** SHA-256 is taken as injective, so the content stands for its own checksum. */
  datatype File = File(name: string, content: string)

  /** The committed database: the checksum table and every statement executed so far. */
  datatype Schema = Schema(table: map<string, string>, log: seq<string>)

  const BLANK := Schema(map[], [])

  function Statements(file: File): seq<string> {
    SplitSql.Split(file.content, 0, 0, SplitSql.Plain)
  }

  ghost predicate DistinctNames(files: seq<File>) {
    forall i, j :: 0 <= i < j < |files| ==> files[i].name != files[j].name
  }

  function Record(db: Schema, file: File): Schema {
    Schema(db.table[file.name := file.content], db.log + Statements(file))
  }

  /** The database after the first `n` files were applied, each once and in order. */
  function Applied(files: seq<File>, n: nat): Schema
    requires n <= |files|
  {
    if n == 0 then BLANK else Record(Applied(files, n - 1), files[n - 1])
  }

  lemma {:induction false} AppliedTable(files: seq<File>, n: nat)
    requires n <= |files| && DistinctNames(files)
    ensures forall i :: 0 <= i < |files| ==> (files[i].name in Applied(files, n).table <==> i < n)
    ensures forall i :: 0 <= i < n ==> Applied(files, n).table[files[i].name] == files[i].content
  {
    hide Statements;
    if n > 0 {
      AppliedTable(files, n - 1);
      assert forall i :: 0 <= i < |files| && i != n - 1 ==> files[i].name != files[n - 1].name;
    }
  }

  // ------------------------------------------------------------ one run

  datatype Outcome = Completed | ChecksumChanged(name: string) | Crashed

  datatype Result = Result(db: Schema, applied: seq<string>, outcome: Outcome)

  /** A run over the files from `k` on that crashes after `budget` transactions. */
  function RunFrom(db: Schema, files: seq<File>, k: nat, budget: nat, applied: seq<string>): Result
    requires k <= |files|
    decreases |files| - k
  {
    if k == |files| then Result(db, applied, Completed)
    else if budget == 0 then Result(db, applied, Crashed)
    else
      var file := files[k];
      if file.name in db.table then
        if db.table[file.name] != file.content then Result(db, applied, ChecksumChanged(file.name))
        else RunFrom(db, files, k + 1, budget - 1, applied)
      else RunFrom(Record(db, file), files, k + 1, budget - 1, applied + [file.name])
  }

  class Database {
    var table: map<string, string>
    var log: seq<string>

    ghost function View(): Schema
      reads this
    {
      Schema(table, log)
    }

    constructor ()
      ensures View() == BLANK
    {
      table, log := map[], [];
    }

    /** One transaction: execute the statements of the file and insert its row. */
    method Apply(file: File)
      modifies this
      ensures View() == Record(old(View()), file)
    {
      hide SplitSql.Split;
      var statements := SplitSql.SplitScript(file.content);
      for i := 0 to |statements|
        invariant table == old(table) && log == old(log) + statements[..i]
      {
        log := log + [statements[i]];
      }
      assert statements[..|statements|] == statements;
      table := table[file.name := file.content];
    }

    method RunMigrations(files: seq<File>, budget: nat) returns (applied: seq<string>, outcome: Outcome)
      modifies this
      ensures Result(View(), applied, outcome) == RunFrom(old(View()), files, 0, budget, [])
    {
      hide Record;
      applied := [];
      var left := budget;
      for k := 0 to |files|
        invariant RunFrom(View(), files, k, left, applied) == RunFrom(old(View()), files, 0, budget, [])
      {
        if left == 0 { return applied, Crashed; }
        left := left - 1;
        var file := files[k];
        if file.name in table {
          if table[file.name] != file.content { return applied, ChecksumChanged(file.name); }
          continue;
        }
        Apply(file);
        applied := applied + [file.name];
      }
      outcome := Completed;
    }
  }

  function Names(files: seq<File>, lo: nat, hi: nat): seq<string>
    requires lo <= hi <= |files|
    decreases hi
  {
    if lo == hi then [] else Names(files, lo, hi - 1) + [files[hi - 1].name]
  }

  lemma {:induction false} NamesFromFront(files: seq<File>, lo: nat, hi: nat)
    requires lo < hi <= |files|
    ensures Names(files, lo, hi) == [files[lo].name] + Names(files, lo + 1, hi)
    decreases hi
  {
    if lo + 1 < hi { NamesFromFront(files, lo, hi - 1); }
  }

  /** How far a run with this budget gets when `n` files are already applied. */
  function Reached(files: seq<File>, n: nat, k: nat, budget: nat): (r: nat)
    requires n <= |files|
    ensures n <= r <= |files|
  {
    var last := if k + budget < |files| then k + budget else |files|;
    if last < n then n else last
  }

  /** From any prefix of applied files, a run applies exactly the missing ones it reaches, in order. */
  lemma {:induction false} RunExtends(files: seq<File>, n: nat, k: nat, budget: nat, applied: seq<string>)
    requires DistinctNames(files) && k <= n <= |files|
    ensures var m := Reached(files, n, k, budget);
      RunFrom(Applied(files, n), files, k, budget, applied)
      == Result(Applied(files, m), applied + Names(files, n, m), if k + budget < |files| then Crashed else Completed)
    decreases |files| - k
  {
    hide Record, DistinctNames;
    var m := Reached(files, n, k, budget);
    if k == |files| || budget == 0 {
      assert applied + Names(files, n, n) == applied;
    } else {
      AppliedTable(files, n);
      if k < n {
        RunExtends(files, n, k + 1, budget - 1, applied);
      } else {
        RunExtends(files, n + 1, k + 1, budget - 1, applied + [files[k].name]);
        NamesAppended(files, n, m, applied);
      }
    }
  }

  lemma NamesAppended(files: seq<File>, n: nat, m: nat, applied: seq<string>)
    requires n < m <= |files|
    ensures applied + Names(files, n, m) == applied + [files[n].name] + Names(files, n + 1, m)
  {
    NamesFromFront(files, n, m);
  }

  /** Runs one after the other, each crashing after its budget or completing. */
  function RunAll(db: Schema, files: seq<File>, budgets: seq<nat>): Schema {
    if budgets == [] then db
    else RunFrom(RunAll(db, files, budgets[..|budgets| - 1]), files, 0, budgets[|budgets| - 1], []).db
  }

  /**
    Whatever the crashes, every file was applied at most once and in order; one
    full run completes the list for good.
  */
  lemma {:induction false} CrashesAreHarmless(files: seq<File>, budgets: seq<nat>) returns (n: nat)
    requires DistinctNames(files)
    ensures n <= |files| && RunAll(BLANK, files, budgets) == Applied(files, n)
    ensures (exists b :: b in budgets && b >= |files|) ==> n == |files|
    ensures RunFrom(Applied(files, |files|), files, 0, |files|, []) == Result(Applied(files, |files|), [], Completed)
    decreases |budgets|
  {
    hide RunFrom, Statements;
    RunExtends(files, |files|, 0, |files|, []);
    n := 0;
    if budgets != [] {
      var front, last := budgets[..|budgets| - 1], budgets[|budgets| - 1];
      var k := CrashesAreHarmless(files, front);
      RunExtends(files, k, 0, last, []);
      n := Reached(files, k, 0, last);
      assert forall b :: b in budgets ==> b in front || b == last;
    }
  }

  // ------------------------------------------------------------ concurrent runs

  /**
    Where a process stands: between transactions, or inside the transaction of
    one file with the checksum row it read.
  */
  datatype Phase = Idle | Between(next: nat) | Inside(next: nat, row: Option<string>)

  datatype System = System(db: Schema, phases: map<nat, Phase>, holder: Option<nat>)

  datatype Event = Acquire(p: nat) | Select(p: nat) | Commit(p: nat) | Finish(p: nat) | Crash(p: nat)

  function PhaseOf(s: System, p: nat): Phase {
    if p in s.phases then s.phases[p] else Idle
  }

  function Leave(s: System, p: nat): System {
    s.(phases := s.phases[p := Idle], holder := if s.holder == Some(p) then None else s.holder)
  }

  /** A run starts by taking the advisory lock on PostgreSQL; SQLite runs start without one. */
  function Start(s: System, locking: bool, p: nat): System {
    if PhaseOf(s, p) != Idle || (locking && s.holder.Some?) then s
    else s.(phases := s.phases[p := Between(0)], holder := if locking then Some(p) else s.holder)
  }

  function ReadRow(s: System, files: seq<File>, p: nat): System {
    match PhaseOf(s, p)
    case Between(k) =>
      if k < |files| then
        var row := if files[k].name in s.db.table then Some(s.db.table[files[k].name]) else None;
        s.(phases := s.phases[p := Inside(k, row)])
      else s
    case _ => s
  }

  /** The rest of a transaction: skip, refuse, or execute and insert the row, which its primary key may reject. */
  function Finalize(s: System, files: seq<File>, p: nat): System {
    match PhaseOf(s, p)
    case Inside(k, row) =>
      if k >= |files| then s
      else if row.Some? then
        if row.value != files[k].content then Leave(s, p) else s.(phases := s.phases[p := Between(k + 1)])
      else if files[k].name in s.db.table then Leave(s, p)
      else s.(db := Record(s.db, files[k]), phases := s.phases[p := Between(k + 1)])
    case _ => s
  }

  function Next(s: System, files: seq<File>, locking: bool, e: Event): System {
    match e
    case Acquire(p) => Start(s, locking, p)
    case Select(p) => ReadRow(s, files, p)
    case Commit(p) => Finalize(s, files, p)
    case Finish(p) => if PhaseOf(s, p) == Between(|files|) then Leave(s, p) else s
    case Crash(p) => Leave(s, p)
  }

  function Trace(s: System, files: seq<File>, locking: bool, events: seq<Event>): System {
    if events == [] then s
      else Next(Trace(s, files, locking, events[..|events| - 1]), files, locking, events[|events| - 1])
  }

  /** A process that got past a file has seen it recorded; a row read inside a transaction is still there. */
  ghost predicate PhaseInv(files: seq<File>, n: nat, phase: Phase)
    requires n <= |files|
  {
    match phase
    case Idle => true
    case Between(k) => k <= n
    case Inside(k, row) => k <= n && k < |files| && (row.Some? ==> k < n && row.value == files[k].content)
  }

  ghost predicate SystemInv(files: seq<File>, n: nat, s: System) {
    && n <= |files| && s.db == Applied(files, n)
    && forall p :: p in s.phases ==> PhaseInv(files, n, s.phases[p])
  }

  lemma {:induction false} NextKeeps(files: seq<File>, n: nat, s: System, locking: bool, e: Event) returns (n': nat)
    requires DistinctNames(files) && SystemInv(files, n, s)
    ensures n <= n' <= n + 1 && SystemInv(files, n', Next(s, files, locking, e))
  {
    hide Statements;
    AppliedTable(files, n);
    n' := n;
    if e.Commit? && PhaseOf(s, e.p).Inside? && PhaseOf(s, e.p).row.None?
      && files[PhaseOf(s, e.p).next].name !in s.db.table {
      n' := n + 1;
    }
  }

  /**
    Under any interleaving and any crashes, the database holds the first files,
    each applied exactly once and in order.
  */
  lemma {:induction false} InterleavingsAreHarmless(files: seq<File>, locking: bool, events: seq<Event>)
    returns (n: nat)
    requires DistinctNames(files)
    ensures SystemInv(files, n, Trace(System(BLANK, map[], None), files, locking, events))
    decreases |events|
  {
    n := 0;
    if events != [] {
      hide Next, SystemInv;
      var k := InterleavingsAreHarmless(files, locking, events[..|events| - 1]);
      n := NextKeeps(files, k, Trace(System(BLANK, map[], None), files, locking, events[..|events| - 1]), locking,
        events[|events| - 1]);
    }
  }

  /** A run that finishes leaves every file applied. */
  lemma FinishedMeansApplied(files: seq<File>, n: nat, s: System, p: nat)
    requires SystemInv(files, n, s) && PhaseOf(s, p) == Between(|files|)
    ensures s.db == Applied(files, |files|)
  {
  }

  /** Only the lock holder runs, and what it read is still true. */
  ghost predicate LockInv(files: seq<File>, n: nat, s: System) {
    && SystemInv(files, n, s)
    && (forall p :: p in s.phases && s.phases[p] != Idle ==> s.holder == Some(p))
    && (forall p :: p in s.phases && s.phases[p].Inside? && s.phases[p].row.None? ==> s.phases[p].next == n)
  }

  lemma {:induction false} NextKeepsLock(files: seq<File>, n: nat, s: System, e: Event) returns (n': nat)
    requires DistinctNames(files) && LockInv(files, n, s)
    ensures n <= n' <= n + 1 && LockInv(files, n', Next(s, files, true, e))
    ensures e.Commit? && PhaseOf(s, e.p).Inside? && PhaseOf(s, e.p).row.None? ==>
      files[PhaseOf(s, e.p).next].name !in s.db.table
  {
    hide Record;
    AppliedTable(files, n);
    n' := n;
    if e.Commit? && PhaseOf(s, e.p).Inside? && PhaseOf(s, e.p).row.None? {
      n' := n + 1;
    }
  }

  lemma {:induction false} LockedTrace(files: seq<File>, events: seq<Event>) returns (n: nat)
    requires DistinctNames(files)
    ensures LockInv(files, n, Trace(System(BLANK, map[], None), files, true, events))
    decreases |events|
  {
    n := 0;
    if events != [] {
      hide Next, LockInv;
      var k := LockedTrace(files, events[..|events| - 1]);
      n := NextKeepsLock(files, k, Trace(System(BLANK, map[], None), files, true, events[..|events| - 1]),
        events[|events| - 1]);
    }
  }

  /** Process `p` is about to insert a row that is already there. */
  predicate Collides(s: System, files: seq<File>, p: nat) {
    match PhaseOf(s, p)
    case Inside(k, row) => k < |files| && row.None? && files[k].name in s.db.table
    case _ => false
  }

  /** With the lock, no commit ever meets a row another process inserted, whatever the interleaving and the crashes. */
  lemma LockedNeverCollides(files: seq<File>, events: seq<Event>, p: nat)
    requires DistinctNames(files)
    ensures !Collides(Trace(System(BLANK, map[], None), files, true, events), files, p)
  {
    var n := LockedTrace(files, events);
    hide Trace;
    AppliedTable(files, n);
  }

  /** Without it two processes that read the same file as missing collide, on any list of files. */
  lemma UnlockedCollides(files: seq<File>) returns (events: seq<Event>, p: nat)
    requires files != []
    ensures Collides(Trace(System(BLANK, map[], None), files, false, events), files, p)
  {
    var start := System(BLANK, map[], None);
    events, p := [], 1;
    var s0 := Trace(start, files, false, events);
    events := Extend(start, files, events, Acquire(0));
    events := Extend(start, files, events, Acquire(1));
    events := Extend(start, files, events, Select(0));
    events := Extend(start, files, events, Select(1));
    hide Trace, Record;
    var s4 := Trace(start, files, false, events);
    assert s0 == start && PhaseOf(s4, 0) == PhaseOf(s4, 1) == Inside(0, None);
    events := Extend(start, files, events, Commit(0));
    RecordedName(s4.db, files[0]);
  }

  lemma Extend(s: System, files: seq<File>, events: seq<Event>, e: Event) returns (longer: seq<Event>)
    ensures Trace(s, files, false, longer) == Next(Trace(s, files, false, events), files, false, e)
  {
    longer := events + [e];
    assert longer[..|longer| - 1] == events;
  }

  lemma RecordedName(db: Schema, file: File)
    ensures file.name in Record(db, file).table
  {
  }

  // ------------------------------------------------------------ a changed checksum

  /** File `i` was recorded under another checksum. */
  ghost predicate Changed(db: Schema, files: seq<File>, i: nat) {
    i < |files| && files[i].name in db.table && db.table[files[i].name] != files[i].content
  }

  ghost predicate StuckBefore(phase: Phase, files: seq<File>, i: nat)
    requires i < |files|
  {
    match phase
    case Idle => true
    case Between(k) => k <= i
    case Inside(k, row) => k <= i && (k == i ==> row.Some? && row.value != files[i].content)
  }

  ghost predicate StoppedAt(files: seq<File>, i: nat, before: Schema, s: System) {
    && Changed(s.db, files, i)
    && (forall p :: p in s.phases ==> StuckBefore(s.phases[p], files, i))
    && (forall j :: i <= j < |files| ==> (files[j].name in s.db.table <==> files[j].name in before.table))
  }

  lemma {:induction false} ChangedStays(files: seq<File>, i: nat, before: Schema, s: System, locking: bool, e: Event)
    requires DistinctNames(files) && StoppedAt(files, i, before, s)
    ensures StoppedAt(files, i, before, Next(s, files, locking, e))
  {
    hide Statements;
  }

  /** No run gets past a file whose checksum changed, so no later file is applied. */
  lemma {:induction false} ChangedChecksumStops(files: seq<File>, i: nat, db: Schema, locking: bool, events: seq<Event>)
    requires DistinctNames(files) && Changed(db, files, i)
    ensures StoppedAt(files, i, db, Trace(System(db, map[], None), files, locking, events))
    decreases |events|
  {
    if events != [] {
      hide Next, StoppedAt;
      ChangedChecksumStops(files, i, db, locking, events[..|events| - 1]);
      ChangedStays(files, i, db, Trace(System(db, map[], None), files, locking, events[..|events| - 1]), locking,
        events[|events| - 1]);
    }
  }
}
