/** The two tables of the service as values, the SQL statements that change them, and
    the outbox rows their triggers append. */
module Tables {
  import opened Domain

  datatype StepId = StepId(sessionId: string, key: StepKey)

  datatype Tables = Tables(sessions: map<string, Session>, steps: map<StepId, StepStatus>)

  const EMPTY := Tables(map[], map[])

  /** A row as the triggers see it; a step row carries its step_key. */
  datatype Row =
    | SessionRow(id: string, session: Session)
    | StepRow(step: StepId, status: StepStatus)

  datatype Operation = Created | Updated | Deactivated

  datatype OutboxEvent = OutboxEvent(aggregateId: string, operation: Operation, payload: Row)

  function AggregateId(row: Row): string {
    match row
    case SessionRow(id, _) => id
    case StepRow(step, _) => step.sessionId
  }

  /** emit_registration_outbox_event: one event per changed row. */
  function Emit(operation: Operation, row: Row): OutboxEvent {
    OutboxEvent(AggregateId(row), operation, row)
  }

  // ----- Statements

  datatype Statement =
    | InsertSession(id: string, row: Session)
    | InsertStep(step: StepId, status: StepStatus)
    | SetSessionStatus(id: string, to: SessionStatus)
    | SetSessionStatusIf(id: string, to: SessionStatus, from: SessionStatus)
    | SetStepStatus(step: StepId, status: StepStatus)
    | DeleteSession(id: string)
    | DeleteStep(step: StepId)

  /** The primary key and the two unique indexes of the session table. */
  predicate MayInsert(t: Tables, id: string, row: Session) {
    && id !in t.sessions
    && forall other :: other in t.sessions ==>
         t.sessions[other].email != row.email && t.sessions[other].username != row.username
  }

  function Execute(t: Tables, q: Statement): Tables {
    match q
    case InsertSession(id, row) => if MayInsert(t, id, row) then t.(sessions := t.sessions[id := row]) else t
    case InsertStep(step, status) => if step !in t.steps then t.(steps := t.steps[step := status]) else t
    case SetSessionStatus(id, to) =>
      if id in t.sessions then t.(sessions := t.sessions[id := t.sessions[id].(status := to)]) else t
    case SetSessionStatusIf(id, to, from) =>
      if id in t.sessions && t.sessions[id].status == from
      then t.(sessions := t.sessions[id := t.sessions[id].(status := to)]) else t
    case SetStepStatus(step, status) =>
      if step in t.steps && !(t.steps[step] == StepCompleted && status == StepInProgress)
      then t.(steps := t.steps[step := status]) else t
    case DeleteSession(id) => t.(sessions := t.sessions - {id})
    case DeleteStep(step) => t.(steps := t.steps - {step})
  }

  /** The events the row triggers append when a statement runs: none when it fails or
      matches no row. */
  function Emitted(t: Tables, q: Statement): seq<OutboxEvent> {
    match q
    case InsertSession(id, row) => if MayInsert(t, id, row) then [Emit(Created, SessionRow(id, row))] else []
    case InsertStep(step, status) => if step !in t.steps then [Emit(Created, StepRow(step, status))] else []
    case SetSessionStatus(id, to) =>
      if id in t.sessions then [Emit(Updated, SessionRow(id, t.sessions[id].(status := to)))] else []
    case SetSessionStatusIf(id, to, from) =>
      if id in t.sessions && t.sessions[id].status == from
      then [Emit(Updated, SessionRow(id, t.sessions[id].(status := to)))] else []
    case SetStepStatus(step, status) =>
      if step in t.steps && !(t.steps[step] == StepCompleted && status == StepInProgress)
      then [Emit(Updated, StepRow(step, status))] else []
    case DeleteSession(id) =>
      if id in t.sessions then [Emit(Deactivated, SessionRow(id, t.sessions[id]))] else []
    case DeleteStep(step) =>
      if step in t.steps then [Emit(Deactivated, StepRow(step, t.steps[step]))] else []
  }

  // ----- Consumers

  /** A consumer's view: upsert on created and updated, remove on deactivated. */
  function Apply(t: Tables, e: OutboxEvent): Tables {
    match e.payload
    case SessionRow(id, row) =>
      t.(sessions := if e.operation == Deactivated then t.sessions - {id} else t.sessions[id := row])
    case StepRow(step, status) =>
      t.(steps := if e.operation == Deactivated then t.steps - {step} else t.steps[step := status])
  }

  function Replay(outbox: seq<OutboxEvent>): Tables {
    if outbox == [] then EMPTY
    else Apply(Replay(outbox[..|outbox| - 1]), outbox[|outbox| - 1])
  }

  lemma ReplayAppend(outbox: seq<OutboxEvent>, e: OutboxEvent)
    ensures Replay(outbox + [e]) == Apply(Replay(outbox), e)
  {
    assert (outbox + [e])[..|outbox|] == outbox;
  }

  lemma DeleteAbsent<K, V>(m: map<K, V>, k: K)
    requires k !in m
    ensures m - {k} == m
  {
  }

  /** A statement emits at most one event, and that event carries its whole effect. */
  lemma StatementApplies(t: Tables, q: Statement)
    ensures Emitted(t, q) == [] ==> Execute(t, q) == t
    ensures Emitted(t, q) != [] ==> |Emitted(t, q)| == 1 && Apply(t, Emitted(t, q)[0]) == Execute(t, q)
  {
    hide MayInsert;
    match q {
      case DeleteSession(id) => if id !in t.sessions { DeleteAbsent(t.sessions, id); }
      case DeleteStep(step) => if step !in t.steps { DeleteAbsent(t.steps, step); }
      case _ =>
    }
  }

  /** One statement: replaying what its triggers append lands on its result. */
  lemma StatementReplays(outbox: seq<OutboxEvent>, q: Statement)
    ensures Replay(outbox + Emitted(Replay(outbox), q)) == Execute(Replay(outbox), q)
  {
    hide Replay, Emitted, Execute, Apply;
    var t := Replay(outbox);
    var emitted := Emitted(t, q);
    StatementApplies(t, q);
    if emitted == [] {
      assert outbox + emitted == outbox;
    } else {
      assert emitted == [emitted[0]];
      ReplayAppend(outbox, emitted[0]);
    }
  }

  // ----- What an event says about its row

  predicate HasRow(t: Tables, row: Row) {
    match row
    case SessionRow(id, _) => id in t.sessions
    case StepRow(step, _) => step in t.steps
  }

  predicate StoresRow(t: Tables, row: Row) {
    match row
    case SessionRow(id, session) => id in t.sessions && t.sessions[id] == session
    case StepRow(step, status) => step in t.steps && t.steps[step] == status
  }

  /** The event is filed under its row's session_id, and its operation tells whether the
      row is new, was there, or has just been removed as it was. */
  predicate Filed(t: Tables, e: OutboxEvent) {
    && e.aggregateId == (match e.payload case SessionRow(id, _) => id case StepRow(step, _) => step.sessionId)
    && (e.operation == Created <==> !HasRow(t, e.payload))
    && (e.operation == Deactivated ==> StoresRow(t, e.payload))
  }

  /** Every event is filed properly over what the events before it amount to. */
  ghost predicate WellFiled(outbox: seq<OutboxEvent>) {
    forall k :: 0 <= k < |outbox| ==> Filed(Replay(outbox[..k]), outbox[k])
  }

  lemma {:induction false} FiledAppend(outbox: seq<OutboxEvent>, e: OutboxEvent)
    requires WellFiled(outbox) && Filed(Replay(outbox), e)
    ensures WellFiled(outbox + [e])
  {
    hide Replay, Filed;
    forall k | 0 <= k < |outbox + [e]| ensures Filed(Replay((outbox + [e])[..k]), (outbox + [e])[k]) {
      assert (outbox + [e])[..k] == outbox[..k];
      assert outbox[..|outbox|] == outbox;
    }
  }

  lemma StatementFiled(t: Tables, q: Statement)
    ensures forall e :: e in Emitted(t, q) ==> Filed(t, e)
    ensures forall e :: e in Emitted(t, q) && e.operation != Deactivated ==> StoresRow(Execute(t, q), e.payload)
    ensures forall e :: e in Emitted(t, q) && e.operation == Deactivated ==> !HasRow(Execute(t, q), e.payload)
  {
  }

  // ----- Unique indexes

  /** At most one session per email and per username. */
  predicate Unique(t: Tables) {
    forall a, b :: a in t.sessions && b in t.sessions && a != b ==>
      t.sessions[a].email != t.sessions[b].email && t.sessions[a].username != t.sessions[b].username
  }

  lemma ExecuteUnique(t: Tables, q: Statement)
    requires Unique(t)
    ensures Unique(Execute(t, q))
  {
  }

  // ----- Lookups before a registration

  /** A registration that still reserves its email and username in the lookups. */
  predicate Unfinished(row: Session) {
    row.status != Failed && row.status != Completed
  }

  ghost predicate EmailHeld(t: Tables, email: string) {
    exists id :: id in t.sessions && t.sessions[id].email == email && Unfinished(t.sessions[id])
  }

  ghost predicate UsernameHeld(t: Tables, username: string) {
    exists id :: id in t.sessions && t.sessions[id].username == username && Unfinished(t.sessions[id])
  }

  // ----- Runs of statements

  datatype LoggedTables = LoggedTables(tables: Tables, outbox: seq<OutboxEvent>)

  /** Any number of callers, in any interleaving of their statements. */
  function RunStatements(db: LoggedTables, qs: seq<Statement>): LoggedTables {
    if qs == [] then db
    else
      var before := RunStatements(db, qs[..|qs| - 1]);
      var q := qs[|qs| - 1];
      LoggedTables(Execute(before.tables, q), before.outbox + Emitted(before.tables, q))
  }

  /** The log always replays to the tables, whatever statements run. */
  lemma {:induction false} OutboxReplays(db: LoggedTables, qs: seq<Statement>)
    requires Replay(db.outbox) == db.tables
    ensures Replay(RunStatements(db, qs).outbox) == RunStatements(db, qs).tables
  {
    if qs != [] {
      OutboxReplays(db, qs[..|qs| - 1]);
      StatementReplays(RunStatements(db, qs[..|qs| - 1]).outbox, qs[|qs| - 1]);
    }
  }

  /** Whatever statements run, every event is filed under its row's session and says
      whether the row was inserted, updated or deleted. */
  lemma {:induction false} OutboxFiled(db: LoggedTables, qs: seq<Statement>)
    requires Replay(db.outbox) == db.tables && WellFiled(db.outbox)
    ensures WellFiled(RunStatements(db, qs).outbox)
  {
    if qs != [] {
      hide Replay, Filed, WellFiled, Execute, Emitted;
      var before, q := RunStatements(db, qs[..|qs| - 1]), qs[|qs| - 1];
      OutboxFiled(db, qs[..|qs| - 1]);
      OutboxReplays(db, qs[..|qs| - 1]);
      var emitted := Emitted(before.tables, q);
      StatementApplies(before.tables, q);
      StatementFiled(before.tables, q);
      if emitted == [] {
        assert before.outbox + emitted == before.outbox;
      } else {
        assert emitted == [emitted[0]];
        FiledAppend(before.outbox, emitted[0]);
      }
    }
  }

  lemma {:induction false} IndexesHold(db: LoggedTables, qs: seq<Statement>)
    requires Unique(db.tables)
    ensures Unique(RunStatements(db, qs).tables)
  {
    if qs != [] {
      IndexesHold(db, qs[..|qs| - 1]);
      ExecuteUnique(RunStatements(db, qs[..|qs| - 1]).tables, qs[|qs| - 1]);
    }
  }

  // ----- The migration

  lemma {:induction false} SeedsSession(t: Tables, outbox: seq<OutboxEvent>, ids: set<string>, id: string)
    requires id in ids && ids <= t.sessions.Keys
    requires Replay(outbox) == Tables(t.sessions - ids, map[])
    requires WellFiled(outbox)
    ensures Replay(outbox + [Emit(Created, SessionRow(id, t.sessions[id]))]) == Tables(t.sessions - (ids - {id}), map[])
    ensures WellFiled(outbox + [Emit(Created, SessionRow(id, t.sessions[id]))])
  {
    hide Replay, WellFiled;
    FiledAppend(outbox, Emit(Created, SessionRow(id, t.sessions[id])));
    ReplayAppend(outbox, Emit(Created, SessionRow(id, t.sessions[id])));
    assert (t.sessions - ids)[id := t.sessions[id]] == t.sessions - (ids - {id});
  }

  lemma {:induction false} SeedsStep(t: Tables, outbox: seq<OutboxEvent>, steps: set<StepId>, step: StepId)
    requires step in steps && steps <= t.steps.Keys
    requires Replay(outbox) == Tables(t.sessions, t.steps - steps) && WellFiled(outbox)
    ensures Replay(outbox + [Emit(Created, StepRow(step, t.steps[step]))])
            == Tables(t.sessions, t.steps - (steps - {step}))
    ensures WellFiled(outbox + [Emit(Created, StepRow(step, t.steps[step]))])
  {
    hide Replay, WellFiled;
    FiledAppend(outbox, Emit(Created, StepRow(step, t.steps[step])));
    ReplayAppend(outbox, Emit(Created, StepRow(step, t.steps[step])));
    assert (t.steps - steps)[step := t.steps[step]] == t.steps - (steps - {step});
  }

  lemma NothingLeft<K, V>(m: map<K, V>)
    ensures m - {} == m && m - m.Keys == map[]
  {
  }

  method SeedSessions(t: Tables) returns (outbox: seq<OutboxEvent>)
    ensures Replay(outbox) == Tables(t.sessions, map[]) && WellFiled(outbox)
    ensures forall e :: e in outbox ==> e.operation == Created
  {
    NothingLeft(t.sessions);
    outbox := [];
    var ids := t.sessions.Keys;
    while ids != {}
      invariant ids <= t.sessions.Keys
      invariant Replay(outbox) == Tables(t.sessions - ids, map[]) && WellFiled(outbox)
      invariant forall e :: e in outbox ==> e.operation == Created
      decreases ids
    {
      hide Replay, WellFiled;
      var id :| id in ids;
      SeedsSession(t, outbox, ids, id);
      outbox := outbox + [Emit(Created, SessionRow(id, t.sessions[id]))];
      ids := ids - {id};
    }
  }

  /** The migration's seeding: INSERT ... SELECT appends a created event for each row
      that existed before the triggers, in whatever order the SELECT yields. */
  method Seed(t: Tables) returns (outbox: seq<OutboxEvent>)
    ensures Replay(outbox) == t && WellFiled(outbox)
    ensures forall e :: e in outbox ==> e.operation == Created
  {
    hide Replay, WellFiled;
    outbox := SeedSessions(t);
    NothingLeft(t.steps);
    var steps := t.steps.Keys;
    while steps != {}
      invariant steps <= t.steps.Keys
      invariant Replay(outbox) == Tables(t.sessions, t.steps - steps) && WellFiled(outbox)
      invariant forall e :: e in outbox ==> e.operation == Created
      decreases steps
    {
      var step :| step in steps;
      SeedsStep(t, outbox, steps, step);
      outbox := outbox + [Emit(Created, StepRow(step, t.steps[step]))];
      steps := steps - {step};
    }
  }

  /** From the migration on, over rows that existed before it and any statements by any
      callers, folding the outbox in insertion order yields exactly the tables. */
  method MigrateAndRun(t: Tables, qs: seq<Statement>) returns (db: LoggedTables)
    ensures Replay(db.outbox) == db.tables && WellFiled(db.outbox)
    ensures db.tables == RunStatements(LoggedTables(t, []), qs).tables
  {
    var outbox := Seed(t);
    db := RunStatements(LoggedTables(t, outbox), qs);
    OutboxReplays(LoggedTables(t, outbox), qs);
    OutboxFiled(LoggedTables(t, outbox), qs);
    TablesIgnoreOutbox(t, outbox, [], qs);
  }

  lemma {:induction false} TablesIgnoreOutbox(t: Tables, a: seq<OutboxEvent>, b: seq<OutboxEvent>, qs: seq<Statement>)
    ensures RunStatements(LoggedTables(t, a), qs).tables == RunStatements(LoggedTables(t, b), qs).tables
  {
    if qs != [] {
      hide Execute, Emitted;
      TablesIgnoreOutbox(t, a, b, qs[..|qs| - 1]);
    }
  }
}
