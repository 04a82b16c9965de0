/**
  Upload idempotency: sessions reserve a key, bind it to the intake they create,
  and commit or roll back, in any interleaving.  The set of keys a session
  believes it owns outlives its transactions, so it can be stale.
*/
module Uploads {
  import opened Basics

  type Key = nat
  type Id = nat
  type SessionId = nat

  datatype Row = Row(sha256: string, intent: string, intake: Option<Id>)

  /** A source intake that carries an upload key. */
  datatype KeyedIntake = KeyedIntake(key: Key, sha256: string, intent: string)

  /** The ownership hints of one session and the writes of its open transaction. */
  datatype Session = Session(owned: set<Key>, rows: map<Key, Row>, intakes: map<Id, KeyedIntake>)

  /**
    The committed rows, the sessions, and the locks that last until the end of a
    transaction: one advisory lock per key on PostgreSQL, one writer on SQLite.
  */
  datatype State = State(
    rows: map<Key, Row>, intakes: map<Id, KeyedIntake>, sessions: map<SessionId, Session>,
    locks: map<Key, SessionId>, writer: Option<SessionId>)

  datatype Engine = Postgres | Sqlite

  datatype Outcome = New | Replay(intake: Id) | Conflict | Blocked | Refused

  const INITIAL := State(map[], map[], map[], map[], None)

  function SessionOf(st: State, s: SessionId): Session {
    if s in st.sessions then st.sessions[s] else Session({}, map[], map[])
  }

  /** A transaction reads its own writes over what is committed. */
  function Visible(st: State, s: SessionId, key: Key): Option<Row> {
    if key in SessionOf(st, s).rows then Some(SessionOf(st, s).rows[key])
    else if key in st.rows then Some(st.rows[key])
    else None
  }

  function VisibleIntake(st: State, s: SessionId, id: Id): Option<KeyedIntake> {
    if id in SessionOf(st, s).intakes then Some(SessionOf(st, s).intakes[id])
    else if id in st.intakes then Some(st.intakes[id])
    else None
  }

  // ------------------------------------------------------------ locks

  predicate CanLock(engine: Engine, st: State, s: SessionId, key: Key) {
    match engine
    case Postgres => key in st.locks ==> st.locks[key] == s
    case Sqlite => st.writer.Some? ==> st.writer.value == s
  }

  predicate Holds(engine: Engine, st: State, s: SessionId, key: Key) {
    match engine
    case Postgres => key in st.locks && st.locks[key] == s
    case Sqlite => st.writer == Some(s)
  }

  function Lock(engine: Engine, st: State, s: SessionId, key: Key): State {
    match engine
    case Postgres => st.(locks := st.locks[key := s])
    case Sqlite => st.(writer := Some(s))
  }

  function Unlock(st: State, s: SessionId): State {
    st.(locks := map k | k in st.locks && st.locks[k] != s :: st.locks[k],
        writer := if st.writer == Some(s) then None else st.writer)
  }

  // ------------------------------------------------------------ steps

  /** What an existing reservation answers. */
  function Resolve(st: State, s: SessionId, key: Key, row: Row, sha256: string, intent: string, hinted: bool): Outcome {
    if row.sha256 != sha256 || row.intent != intent then Conflict
    else if row.intake.None? then (if hinted then New else Conflict)
    else
      var intake := VisibleIntake(st, s, row.intake.value);
      if intake.None? || intake.value.key != key then Conflict else Replay(row.intake.value)
  }

  /** The hint counts only while the reservation it refers to can still be read. */
  predicate Hinted(st: State, s: SessionId, key: Key) {
    key in SessionOf(st, s).owned && Visible(st, s, key).Some?
  }

  /** On SQLite a hinted key is only read; everything else takes the lock first. */
  predicate NeedsLock(engine: Engine, st: State, s: SessionId, key: Key) {
    engine == Postgres || !Hinted(st, s, key)
  }

  function Put(st: State, s: SessionId, session: Session): State {
    st.(sessions := st.sessions[s := session])
  }

  /** `reserve_upload_idempotency` */
  function Reserve(
    engine: Engine, st: State, s: SessionId, key: Key, sha256: string, intent: string): (State, Outcome)
  {
    if NeedsLock(engine, st, s, key) && !CanLock(engine, st, s, key) then (st, Blocked)
    else
      var hinted := Hinted(st, s, key);
      var session := SessionOf(st, s);
      var pruned := if hinted then session else session.(owned := session.owned - {key});
      var st1 := Put(if NeedsLock(engine, st, s, key) then Lock(engine, st, s, key) else st, s, pruned);
      match Visible(st, s, key)
      case None =>
        (Put(st1, s, pruned.(owned := pruned.owned + {key}, rows := pruned.rows[key := Row(sha256, intent, None)])),
          New)
      case Some(row) =>
        (st1, Resolve(st, s, key, row, sha256, intent, hinted))
  }

  /** The drawn id is used by no committed and no pending intake. */
  predicate FreshId(st: State, id: Id) {
    id !in st.intakes && forall s :: s in st.sessions ==> id !in st.sessions[s].intakes
  }

  predicate KeyTaken(st: State, s: SessionId, key: Key) {
    (exists i :: i in st.intakes && st.intakes[i].key == key)
    || (exists i :: i in SessionOf(st, s).intakes && SessionOf(st, s).intakes[i].key == key)
  }

  /** `create_source_companion` with a key: reserve it as new, insert the intake and bind the reservation to it. */
  function Bind(
    engine: Engine, st: State, s: SessionId, key: Key, sha256: string, intent: string, id: Id): (State, Outcome)
  {
    var (st1, outcome) := Reserve(engine, st, s, key, sha256, intent);
    if outcome != New then (st1, Refused)
    else if !CanLock(engine, st1, s, key) then (st1, Blocked)
    else
      var st2 := Lock(engine, st1, s, key);
      var row := Visible(st2, s, key);
      if row.None? || row.value.sha256 != sha256 || row.value.intent != intent || row.value.intake.Some?
         || KeyTaken(st2, s, key) || !FreshId(st2, id)
      then (st2, Refused)
      else
        var session := SessionOf(st2, s);
        (Put(st2, s, session.(rows := session.rows[key := row.value.(intake := Some(id))],
                              intakes := session.intakes[id := KeyedIntake(key, sha256, intent)])), New)
  }

  function Commit(st: State, s: SessionId): State {
    var session := SessionOf(st, s);
    Unlock(Put(st.(rows := st.rows + session.rows, intakes := st.intakes + session.intakes),
               s, Session(session.owned, map[], map[])), s)
  }

  function Rollback(st: State, s: SessionId): State {
    Unlock(Put(st, s, Session(SessionOf(st, s).owned, map[], map[])), s)
  }

  datatype Step =
    | DoReserve(s: SessionId, key: Key, sha256: string, intent: string)
    | DoBind(s: SessionId, key: Key, sha256: string, intent: string, id: Id)
    | DoCommit(s: SessionId)
    | DoRollback(s: SessionId)

  function Next(engine: Engine, st: State, step: Step): State {
    match step
    case DoReserve(s, key, sha, intent) => Reserve(engine, st, s, key, sha, intent).0
    case DoBind(s, key, sha, intent, id) => Bind(engine, st, s, key, sha, intent, id).0
    case DoCommit(s) => Commit(st, s)
    case DoRollback(s) => Rollback(st, s)
  }

  function Run(engine: Engine, steps: seq<Step>): State {
    if steps == [] then INITIAL else Next(engine, Run(engine, steps[..|steps| - 1]), steps[|steps| - 1])
  }

  // ------------------------------------------------------------ the repository

  /** The server side as the repository methods change it. */
  class Server {
    const engine: Engine
    var rows: map<Key, Row>
    var intakes: map<Id, KeyedIntake>
    var sessions: map<SessionId, Session>
    var locks: map<Key, SessionId>
    var writer: Option<SessionId>

    function View(): State
      reads this
    {
      State(rows, intakes, sessions, locks, writer)
    }

    constructor (engine: Engine)
      ensures View() == INITIAL && this.engine == engine
    {
      this.engine := engine;
      rows, intakes, sessions, locks, writer := map[], map[], map[], map[], None;
    }

    method TakeLock(s: SessionId, key: Key)
      modifies this`locks, this`writer
      ensures View() == Lock(engine, old(View()), s, key)
    {
      if engine == Postgres { locks := locks[key := s]; } else { writer := Some(s); }
    }

    method ReserveKey(s: SessionId, key: Key, sha256: string, intent: string) returns (outcome: Outcome)
      modifies this
      ensures (View(), outcome) == Reserve(engine, old(View()), s, key, sha256, intent)
    {
      hide Resolve;
      ghost var before := View();
      var session := SessionOf(View(), s);
      var reservation := Visible(View(), s, key);
      var hinted := key in session.owned && reservation.Some?;
      if engine == Postgres || !hinted {
        if !CanLock(engine, View(), s, key) { return Blocked; }
        TakeLock(s, key);
      }
      if !hinted { session := session.(owned := session.owned - {key}); }
      sessions := sessions[s := session];
      if reservation.None? {
        session := session.(owned := session.owned + {key}, rows := session.rows[key := Row(sha256, intent, None)]);
        sessions := sessions[s := session];
        return New;
      }
      ResolveReads(before, View(), s, key, reservation.value, sha256, intent, hinted);
      return Resolve(View(), s, key, reservation.value, sha256, intent, hinted);
    }

    method BindIntake(s: SessionId, key: Key, sha256: string, intent: string, id: Id) returns (outcome: Outcome)
      modifies this
      ensures (View(), outcome) == Bind(engine, old(View()), s, key, sha256, intent, id)
    {
      hide Reserve, KeyTaken, FreshId;
      outcome := ReserveKey(s, key, sha256, intent);
      if outcome != New { return Refused; }
      if !CanLock(engine, View(), s, key) { return Blocked; }
      TakeLock(s, key);
      var row := Visible(View(), s, key);
      if row.None? || row.value.sha256 != sha256 || row.value.intent != intent || row.value.intake.Some?
         || KeyTaken(View(), s, key) || !FreshId(View(), id)
      {
        return Refused;
      }
      var session := SessionOf(View(), s);
      session := session.(rows := session.rows[key := row.value.(intake := Some(id))],
                          intakes := session.intakes[id := KeyedIntake(key, sha256, intent)]);
      sessions := sessions[s := session];
    }
  }

  /** Resolving a reservation only reads the intakes. */
  lemma ResolveReads(
    st: State, st': State, s: SessionId, key: Key, row: Row, sha256: string, intent: string, hinted: bool)
    requires st'.intakes == st.intakes && SessionOf(st', s).intakes == SessionOf(st, s).intakes
    ensures Resolve(st, s, key, row, sha256, intent, hinted) == Resolve(st', s, key, row, sha256, intent, hinted)
  {
  }

  // ------------------------------------------------------------ invariant

  /** Committed reservations and committed intakes name each other. */
  ghost predicate Paired(rows: map<Key, Row>, intakes: map<Id, KeyedIntake>) {
    && (forall k :: k in rows && rows[k].intake.Some? ==>
          rows[k].intake.value in intakes
            && intakes[rows[k].intake.value] == KeyedIntake(k, rows[k].sha256, rows[k].intent))
    && (forall i :: i in intakes ==> intakes[i].key in rows && rows[intakes[i].key].intake == Some(i))
  }

  /** What a transaction wrote is paired, locked, and only ever binds a reservation that is not bound yet. */
  ghost predicate SessionInv(engine: Engine, st: State, s: SessionId)
    requires s in st.sessions
  {
    var session := st.sessions[s];
    && Paired(session.rows, session.intakes)
    && (forall k :: k in session.rows ==> Holds(engine, st, s, k))
    && (forall k :: k in session.rows && k in st.rows ==> st.rows[k] == session.rows[k].(intake := None))
    && (forall i :: i in session.intakes ==> i !in st.intakes)
  }

  ghost predicate Separate(st: State) {
    forall s, t, i :: s in st.sessions && t in st.sessions && s != t && i in st.sessions[s].intakes ==>
      i !in st.sessions[t].intakes
  }

  ghost predicate StateInv(engine: Engine, st: State) {
    && Paired(st.rows, st.intakes)
    && (forall s :: s in st.sessions ==> SessionInv(engine, st, s))
    && Separate(st)
  }

  // ------------------------------------------------------------ every step keeps it

  lemma LockKeeps(engine: Engine, st: State, s: SessionId, key: Key)
    requires StateInv(engine, st) && CanLock(engine, st, s, key)
    ensures StateInv(engine, Lock(engine, st, s, key)) && Holds(engine, Lock(engine, st, s, key), s, key)
  {
    hide Paired;
    var st' := Lock(engine, st, s, key);
    forall t | t in st'.sessions ensures SessionInv(engine, st', t) {
      assert SessionInv(engine, st, t);
    }
  }

  /** Replacing one session keeps the invariant if the session itself is in order. */
  lemma PutKeeps(engine: Engine, st: State, s: SessionId, session: Session)
    requires StateInv(engine, st) && SessionInv(engine, Put(st, s, session), s)
    requires forall t, i :: t in st.sessions && t != s && i in session.intakes ==> i !in st.sessions[t].intakes
    ensures StateInv(engine, Put(st, s, session))
  {
    hide Paired;
    var st' := Put(st, s, session);
    forall t | t in st'.sessions && t != s ensures SessionInv(engine, st', t) {
      assert SessionInv(engine, st, t);
    }
  }

  lemma OwnInv(engine: Engine, st: State, s: SessionId)
    requires StateInv(engine, st)
    ensures SessionInv(engine, Put(st, s, SessionOf(st, s)), s)
    ensures forall t, i :: t in st.sessions && t != s && i in SessionOf(st, s).intakes ==> i !in st.sessions[t].intakes
  {
    hide Paired;
    if s in st.sessions { assert SessionInv(engine, st, s); } else { NothingPaired(); }
  }

  lemma NothingPaired()
    ensures Paired(map[], map[])
  {
  }

  /** Only the hints changed. */
  lemma HintsKeep(engine: Engine, st: State, s: SessionId, owned: set<Key>)
    requires StateInv(engine, st)
    ensures StateInv(engine, Put(st, s, SessionOf(st, s).(owned := owned)))
  {
    hide Paired, StateInv;
    OwnInv(engine, st, s);
    PutKeeps(engine, st, s, SessionOf(st, s).(owned := owned));
  }

  lemma PairedInsert(rows: map<Key, Row>, intakes: map<Id, KeyedIntake>, key: Key, row: Row)
    requires Paired(rows, intakes) && key !in rows && row.intake.None?
    ensures Paired(rows[key := row], intakes)
  {
  }

  lemma InsertKeeps(engine: Engine, st: State, s: SessionId, key: Key, row: Row, owned: set<Key>)
    requires StateInv(engine, st) && Holds(engine, st, s, key) && Visible(st, s, key).None? && row.intake.None?
    ensures var session := SessionOf(st, s);
      StateInv(engine, Put(st, s, session.(owned := owned, rows := session.rows[key := row])))
  {
    hide Paired, StateInv;
    OwnInv(engine, st, s);
    var session := SessionOf(st, s);
    PairedInsert(session.rows, session.intakes, key, row);
    PutKeeps(engine, st, s, session.(owned := owned, rows := session.rows[key := row]));
  }

  lemma ReserveKeeps(engine: Engine, st: State, s: SessionId, key: Key, sha256: string, intent: string)
    requires StateInv(engine, st)
    ensures StateInv(engine, Reserve(engine, st, s, key, sha256, intent).0)
  {
    hide StateInv, Resolve;
    if NeedsLock(engine, st, s, key) && !CanLock(engine, st, s, key) {
    } else {
      var locked := if NeedsLock(engine, st, s, key) then Lock(engine, st, s, key) else st;
      if NeedsLock(engine, st, s, key) { LockKeeps(engine, st, s, key); }
      var session := SessionOf(st, s);
      var owned := if Hinted(st, s, key) then session.owned else session.owned - {key};
      HintsKeep(engine, locked, s, owned);
      var st1 := Put(locked, s, session.(owned := owned));
      assert session.(owned := session.owned) == session;
      if Visible(st, s, key).None? {
        InsertKeeps(engine, st1, s, key, Row(sha256, intent, None), owned + {key});
      }
    }
  }

  lemma PairedBind(rows: map<Key, Row>, intakes: map<Id, KeyedIntake>, key: Key, row: Row, id: Id)
    requires Paired(rows, intakes) && row.intake.None? && id !in intakes
    requires forall i :: i in intakes ==> intakes[i].key != key
    ensures Paired(rows[key := row.(intake := Some(id))], intakes[id := KeyedIntake(key, row.sha256, row.intent)])
  {
  }

  lemma BindRowKeeps(engine: Engine, st: State, s: SessionId, key: Key, row: Row, id: Id)
    requires StateInv(engine, st) && Holds(engine, st, s, key) && Visible(st, s, key) == Some(row) && row.intake.None?
    requires !KeyTaken(st, s, key) && FreshId(st, id)
    ensures var session := SessionOf(st, s);
      StateInv(engine, Put(st, s, session.(rows := session.rows[key := row.(intake := Some(id))],
                                           intakes := session.intakes[id := KeyedIntake(key, row.sha256, row.intent)])))
  {
    hide Paired, StateInv;
    OwnInv(engine, st, s);
    var session := SessionOf(st, s);
    PairedBind(session.rows, session.intakes, key, row, id);
    PutKeeps(engine, st, s, session.(rows := session.rows[key := row.(intake := Some(id))],
                                     intakes := session.intakes[id := KeyedIntake(key, row.sha256, row.intent)]));
  }

  lemma BindKeeps(engine: Engine, st: State, s: SessionId, key: Key, sha256: string, intent: string, id: Id)
    requires StateInv(engine, st)
    ensures StateInv(engine, Bind(engine, st, s, key, sha256, intent, id).0)
  {
    hide StateInv, Reserve;
    ReserveKeeps(engine, st, s, key, sha256, intent);
    var (st1, outcome) := Reserve(engine, st, s, key, sha256, intent);
    if outcome == New && CanLock(engine, st1, s, key) {
      LockKeeps(engine, st1, s, key);
      var st2 := Lock(engine, st1, s, key);
      var row := Visible(st2, s, key);
      if row.Some? && row.value.sha256 == sha256 && row.value.intent == intent && row.value.intake.None?
        && !KeyTaken(st2, s, key) && FreshId(st2, id) {
        BindRowKeeps(engine, st2, s, key, row.value, id);
      }
    }
  }

  lemma UnlockKeeps(engine: Engine, st: State, s: SessionId)
    requires StateInv(engine, st) && s in st.sessions && st.sessions[s].rows == map[]
    ensures StateInv(engine, Unlock(st, s))
  {
    hide Paired;
    var st' := Unlock(st, s);
    forall t | t in st'.sessions ensures SessionInv(engine, st', t) {
      assert SessionInv(engine, st, t);
    }
  }

  lemma RollbackKeeps(engine: Engine, st: State, s: SessionId)
    requires StateInv(engine, st)
    ensures StateInv(engine, Rollback(st, s))
  {
    hide StateInv, Paired;
    var empty := Session(SessionOf(st, s).owned, map[], map[]);
    NothingPaired();
    PutKeeps(engine, st, s, empty);
    UnlockKeeps(engine, Put(st, s, empty), s);
  }

  lemma PairedMerge(
    rows: map<Key, Row>, intakes: map<Id, KeyedIntake>, rows': map<Key, Row>, intakes': map<Id, KeyedIntake>)
    requires Paired(rows, intakes) && Paired(rows', intakes')
    requires forall k :: k in rows && k in rows' ==> rows[k].intake.None?
    requires forall i :: i in intakes ==> i !in intakes'
    ensures Paired(rows + rows', intakes + intakes')
  {
  }

  function Merge(st: State, s: SessionId): State {
    var session := SessionOf(st, s);
    Put(st.(rows := st.rows + session.rows, intakes := st.intakes + session.intakes), s,
      Session(session.owned, map[], map[]))
  }

  lemma OtherAfterMerge(engine: Engine, st: State, s: SessionId, t: SessionId)
    requires StateInv(engine, st) && t in st.sessions && s != t
    ensures SessionInv(engine, Merge(st, s), t)
  {
    LocksExclude(engine, st, s, t);
    OwnInv(engine, st, s);
    assert SessionInv(engine, st, t);
    hide Paired, Separate;
  }

  lemma MergedTables(engine: Engine, st: State, s: SessionId)
    requires StateInv(engine, st)
    ensures Paired(Merge(st, s).rows, Merge(st, s).intakes)
  {
    hide Paired, Separate;
    OwnInv(engine, st, s);
    PairedMerge(st.rows, st.intakes, SessionOf(st, s).rows, SessionOf(st, s).intakes);
  }

  lemma MergedSelf(engine: Engine, st: State, s: SessionId)
    ensures s in Merge(st, s).sessions && SessionInv(engine, Merge(st, s), s)
  {
    NothingPaired();
    hide Paired;
  }

  lemma MergedSeparate(st: State, s: SessionId)
    requires Separate(st)
    ensures Separate(Merge(st, s))
  {
  }

  /** The committed tables after the transaction, with its own session emptied. */
  lemma MergeKeeps(engine: Engine, st: State, s: SessionId)
    requires StateInv(engine, st)
    ensures StateInv(engine, Merge(st, s))
  {
    hide Paired, Separate, SessionInv;
    MergedTables(engine, st, s);
    MergedSelf(engine, st, s);
    MergedSeparate(st, s);
    forall t | t in Merge(st, s).sessions ensures SessionInv(engine, Merge(st, s), t) {
      if t != s { OtherAfterMerge(engine, st, s, t); }
    }
  }

  /** Two sessions never write the same key. */
  lemma LocksExclude(engine: Engine, st: State, s: SessionId, t: SessionId)
    requires StateInv(engine, st) && s != t && t in st.sessions
    ensures forall k :: k in SessionOf(st, s).rows ==> k !in st.sessions[t].rows
  {
    hide Paired;
    if s in st.sessions { assert SessionInv(engine, st, s) && SessionInv(engine, st, t); }
  }

  lemma CommitKeeps(engine: Engine, st: State, s: SessionId)
    requires StateInv(engine, st)
    ensures StateInv(engine, Commit(st, s))
  {
    hide StateInv;
    MergeKeeps(engine, st, s);
    UnlockKeeps(engine, Merge(st, s), s);
  }

  lemma NextKeeps(engine: Engine, st: State, step: Step)
    requires StateInv(engine, st)
    ensures StateInv(engine, Next(engine, st, step))
  {
    hide StateInv, Reserve, Bind, Commit, Rollback;
    match step
    case DoReserve(s, key, sha, intent) => ReserveKeeps(engine, st, s, key, sha, intent);
    case DoBind(s, key, sha, intent, id) => BindKeeps(engine, st, s, key, sha, intent, id);
    case DoCommit(s) => CommitKeeps(engine, st, s);
    case DoRollback(s) => RollbackKeeps(engine, st, s);
  }

  lemma {:induction false} RunKeeps(engine: Engine, steps: seq<Step>)
    ensures StateInv(engine, Run(engine, steps))
  {
    if steps != [] {
      hide StateInv, Next;
      RunKeeps(engine, steps[..|steps| - 1]);
      NextKeeps(engine, Run(engine, steps[..|steps| - 1]), steps[|steps| - 1]);
    }
  }

  // ------------------------------------------------------------ what uploads promise

  /** At most one committed intake carries a key. */
  lemma OneIntakePerKey(engine: Engine, steps: seq<Step>, i: Id, j: Id)
    requires var st := Run(engine, steps); i in st.intakes && j in st.intakes && st.intakes[i].key == st.intakes[j].key
    ensures i == j
  {
    RunKeeps(engine, steps);
    hide Run, SessionInv;
  }

  /**
    A bound committed reservation answers every session the same: its own
    content replays it, anything else conflicts.
  */
  lemma BoundKeyAnswers(engine: Engine, steps: seq<Step>, s: SessionId, key: Key, sha256: string, intent: string)
    requires var st := Run(engine, steps); key in st.rows && st.rows[key].intake.Some?
    ensures var st := Run(engine, steps);
      var row, outcome := st.rows[key], Reserve(engine, st, s, key, sha256, intent).1;
      outcome == Blocked || outcome == if sha256 == row.sha256 && intent == row.intent then Replay(row.intake.value)
        else Conflict
  {
    RunKeeps(engine, steps);
    var st := Run(engine, steps);
    hide Run;
    NotInSession(engine, st, s, key);
    hide StateInv;
  }

  lemma NotInSession(engine: Engine, st: State, s: SessionId, key: Key)
    requires StateInv(engine, st) && key in st.rows && st.rows[key].intake.Some?
    ensures key !in SessionOf(st, s).rows && Visible(st, s, key) == Some(st.rows[key])
    ensures VisibleIntake(st, s, st.rows[key].intake.value)
      == Some(KeyedIntake(key, st.rows[key].sha256, st.rows[key].intent))
  {
    if s in st.sessions { assert SessionInv(engine, st, s); }
  }

  /** Whatever happens next, a bound reservation stays bound to the same intake. */
  lemma BoundStays(engine: Engine, st: State, step: Step, key: Key)
    requires StateInv(engine, st) && key in st.rows && st.rows[key].intake.Some?
    ensures key in Next(engine, st, step).rows && Next(engine, st, step).rows[key] == st.rows[key]
  {
    hide StateInv, Reserve;
    match step
    case DoCommit(s) => NotInSession(engine, st, s, key);
    case DoReserve(s, k, sha, intent) => ReserveCommitsNothing(engine, st, s, k, sha, intent);
    case DoBind(s, k, sha, intent, id) => ReserveCommitsNothing(engine, st, s, k, sha, intent);
    case DoRollback(s) =>
  }

  /** However a run goes on, a bound reservation stays bound to the same intake. */
  lemma {:induction false} BoundForever(engine: Engine, steps: seq<Step>, more: seq<Step>, key: Key)
    requires key in Run(engine, steps).rows && Run(engine, steps).rows[key].intake.Some?
    ensures key in Run(engine, steps + more).rows && Run(engine, steps + more).rows[key] == Run(engine, steps).rows[key]
    decreases |more|
  {
    hide Next;
    if more == [] {
      assert steps + more == steps;
    } else {
      var front, last := more[..|more| - 1], more[|more| - 1];
      assert (steps + more)[..|steps + more| - 1] == steps + front && (steps + more)[|steps + more| - 1] == last;
      BoundForever(engine, steps, front, key);
      RunKeeps(engine, steps + front);
      BoundStays(engine, Run(engine, steps + front), last, key);
    }
  }

  lemma ReserveCommitsNothing(engine: Engine, st: State, s: SessionId, key: Key, sha256: string, intent: string)
    ensures Reserve(engine, st, s, key, sha256, intent).0.rows == st.rows
  {
    hide Resolve;
  }

  /** Exactly when a key that another transaction committed is answered as new. */
  lemma NewForCommittedKey(engine: Engine, st: State, s: SessionId, key: Key, sha256: string, intent: string)
    requires key in st.rows && key !in SessionOf(st, s).rows
    ensures Reserve(engine, st, s, key, sha256, intent).1 == New <==>
      && (engine == Sqlite || CanLock(engine, st, s, key))
      && st.rows[key] == Row(sha256, intent, None) && key in SessionOf(st, s).owned
  {
  }

  /** A transaction that commits leaves no reservation of its own unbound, as the upload routes do. */
  ghost predicate Binds(st: State, step: Step) {
    step.DoCommit? ==> forall k :: k in SessionOf(st, step.s).rows ==> SessionOf(st, step.s).rows[k].intake.Some?
  }

  ghost predicate AlwaysBinds(engine: Engine, steps: seq<Step>) {
    forall n :: 0 <= n < |steps| ==> Binds(Run(engine, steps[..n]), steps[n])
  }

  lemma {:induction false} CommittedIsBound(engine: Engine, steps: seq<Step>)
    requires AlwaysBinds(engine, steps)
    ensures forall k :: k in Run(engine, steps).rows ==> Run(engine, steps).rows[k].intake.Some?
  {
    if steps != [] {
      var front, last := steps[..|steps| - 1], steps[|steps| - 1];
      forall n | 0 <= n < |front| ensures Binds(Run(engine, front[..n]), front[n]) {
        assert front[..n] == steps[..n];
      }
      CommittedIsBound(engine, front);
      assert Binds(Run(engine, front), last);
      hide Run, AlwaysBinds;
      StepBinds(engine, Run(engine, front), last);
    }
  }

  lemma StepBinds(engine: Engine, st: State, step: Step)
    requires Binds(st, step) && forall k :: k in st.rows ==> st.rows[k].intake.Some?
    ensures forall k :: k in Next(engine, st, step).rows ==> Next(engine, st, step).rows[k].intake.Some?
  {
    if step.DoBind? {
      ReserveCommitsNothing(engine, st, step.s, step.key, step.sha256, step.intent);
      hide Reserve;
    } else if step.DoReserve? {
      ReserveCommitsNothing(engine, st, step.s, step.key, step.sha256, step.intent);
      hide Reserve;
    }
  }

  /** When every commit binds what it reserved, a stale hint never makes a committed key look new. */
  lemma StaleHintIsHarmless(engine: Engine, steps: seq<Step>, s: SessionId, key: Key, sha256: string, intent: string)
    requires AlwaysBinds(engine, steps) && key in Run(engine, steps).rows
    ensures Reserve(engine, Run(engine, steps), s, key, sha256, intent).1 != New
  {
    CommittedIsBound(engine, steps);
    hide Run;
    BoundKeyAnswers(engine, steps, s, key, sha256, intent);
  }

  /**
    Without that discipline the hint does harm: after rolling back its own
    reservation, a session takes another session's committed but unbound key for new.
  */
  lemma StaleHintCanMislead(key: Key, sha256: string, intent: string)
    ensures var st := Run(Postgres,
      [DoReserve(1, key, sha256, intent), DoRollback(1), DoReserve(2, key, sha256, intent), DoCommit(2)]);
      key in st.rows && key !in SessionOf(st, 1).rows && Reserve(Postgres, st, 1, key, sha256, intent).1 == New
  {
    var a, b, c, d := DoReserve(1, key, sha256, intent), DoRollback(1), DoReserve(2, key, sha256, intent), DoCommit(2);
    var st1 := Next(Postgres, INITIAL, a);
    assert st1.sessions[1] == Session({key}, map[key := Row(sha256, intent, None)], map[]);
    var st2 := Next(Postgres, st1, b);
    assert st2.sessions[1] == Session({key}, map[], map[]) && st2.rows == map[] && key !in st2.locks;
    var st3 := Next(Postgres, st2, c);
    assert st3.sessions[2] == Session({key}, map[key := Row(sha256, intent, None)], map[]);
    var st4 := Next(Postgres, st3, d);
    assert st4.rows[key] == Row(sha256, intent, None) && st4.sessions[1] == st2.sessions[1] && key !in st4.locks;
    NewForCommittedKey(Postgres, st4, 1, key, sha256, intent);
    hide Next;
    FourSteps(Postgres, a, b, c, d);
  }

  lemma FourSteps(engine: Engine, a: Step, b: Step, c: Step, d: Step)
    ensures Run(engine, [a, b, c, d]) == Next(engine, Next(engine, Next(engine, Next(engine, INITIAL, a), b), c), d)
  {
    hide Next, Run;
    LastStep(engine, [], a);
    LastStep(engine, [a], b);
    LastStep(engine, [a, b], c);
    LastStep(engine, [a, b, c], d);
    assert [] + [a] == [a] && [a] + [b] == [a, b] && [a, b] + [c] == [a, b, c] && [a, b, c] + [d] == [a, b, c, d];
    assert Run(engine, []) == INITIAL by { NoSteps(engine); }
  }

  lemma NoSteps(engine: Engine)
    ensures Run(engine, []) == INITIAL
  {
  }

  lemma LastStep(engine: Engine, steps: seq<Step>, step: Step)
    ensures Run(engine, steps + [step]) == Next(engine, Run(engine, steps), step)
  {
    assert (steps + [step])[..|steps|] == steps;
  }
}
