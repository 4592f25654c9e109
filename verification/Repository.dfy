/** The database with its triggers, and the session and step repositories. */
module Repository {
  import opened Domain
  import T = Tables
  import opened Saga
  import opened SagaSolo

  /** Decides which calls to the outside world fail. */
  class Environment {
    var script: Script

    constructor (script: Script)
      ensures this.script == script
    {
      this.script := script;
    }

    method Call() returns (c: Choice)
      modifies this
      ensures c == Head(old(script)) && script == Tail(old(script))
    {
      c := if script == [] then Ok else script[0];
      script := if script == [] then [] else script[1..];
    }
  }

  /** PostgreSQL after both migrations: every changed row appends an outbox event. */
  class Database {
    var sessions: map<string, Session>
    var steps: map<T.StepId, StepStatus>
    var outbox: seq<T.OutboxEvent>

    ghost function Value(): T.Tables
      reads this
    {
      T.Tables(sessions, steps)
    }

    /** The outbox replays to the tables, and the unique indexes hold. */
    ghost predicate Valid()
      reads this
    {
      T.Replay(outbox) == Value() && T.Unique(Value())
    }

    /** Runs the second migration over rows that exist already. */
    constructor (existing: T.Tables)
      requires T.Unique(existing)
      ensures Valid() && Value() == existing
    {
      var seeded := T.Seed(existing);
      sessions, steps, outbox := existing.sessions, existing.steps, seeded;
    }

    method EmitOutbox(operation: T.Operation, row: T.Row)
      modifies this`outbox
      ensures outbox == old(outbox) + [T.Emit(operation, row)]
    {
      outbox := outbox + [T.OutboxEvent(T.AggregateId(row), operation, row)];
    }

    /** Executes one statement with its row triggers; false is a constraint violation. */
    method Exec(q: T.Statement) returns (ok: bool)
      requires Valid()
      modifies this
      ensures Valid()
      ensures Value() == T.Execute(old(Value()), q)
      ensures outbox == old(outbox) + T.Emitted(old(Value()), q)
      ensures ok <==> !(q.InsertSession? && !T.MayInsert(old(Value()), q.id, q.row))
                      && !(q.InsertStep? && q.step in old(steps))
    {
      ghost var before, log := Value(), outbox;
      ok := true;
      match q {
        case InsertSession(id, row) =>
          var taken := id in sessions
            || exists other | other in sessions ::
              sessions[other].email == row.email || sessions[other].username == row.username;
          if taken {
            ok := false;
          } else {
            sessions := sessions[id := row];
            EmitOutbox(T.Created, T.SessionRow(id, row));
          }
        case InsertStep(step, status) =>
          if step in steps {
            ok := false;
          } else {
            steps := steps[step := status];
            EmitOutbox(T.Created, T.StepRow(step, status));
          }
        case SetSessionStatus(id, to) =>
          if id in sessions {
            sessions := sessions[id := sessions[id].(status := to)];
            EmitOutbox(T.Updated, T.SessionRow(id, sessions[id]));
          }
        case SetSessionStatusIf(id, to, from) =>
          if id in sessions && sessions[id].status == from {
            sessions := sessions[id := sessions[id].(status := to)];
            EmitOutbox(T.Updated, T.SessionRow(id, sessions[id]));
          }
        case SetStepStatus(step, status) =>
          if step in steps && !(steps[step] == StepCompleted && status == StepInProgress) {
            steps := steps[step := status];
            EmitOutbox(T.Updated, T.StepRow(step, status));
          }
        case DeleteSession(id) =>
          if id in sessions { EmitOutbox(T.Deactivated, T.SessionRow(id, sessions[id])); }
          sessions := sessions - {id};
        case DeleteStep(step) =>
          if step in steps { EmitOutbox(T.Deactivated, T.StepRow(step, steps[step])); }
          steps := steps - {step};
      }
      assert Value() == T.Execute(before, q);
      assert outbox == log + T.Emitted(before, q);
      Replays(before, log, q);
    }

    lemma Replays(before: T.Tables, log: seq<T.OutboxEvent>, q: T.Statement)
      requires T.Replay(log) == before && T.Unique(before)
      ensures T.Replay(log + T.Emitted(before, q)) == T.Execute(before, q)
      ensures T.Unique(T.Execute(before, q))
    {
      T.StatementReplays(log, q);
      T.ExecuteUnique(before, q);
    }
  }

  // ----- Rows of one session

  function SessionOf(t: T.Tables, id: string): Option<Session> {
    if id in t.sessions then Some(t.sessions[id]) else None
  }

  function StepsOf(t: T.Tables, id: string): Steps {
    map k: StepKey | T.StepId(id, k) in t.steps :: t.steps[T.StepId(id, k)]
  }

  datatype ListedStep = ListedStep(key: StepKey, status: StepStatus)

  /** `ORDER BY step_key`. */
  const KEY_ORDER: seq<StepKey> :=
    [AuthCreatePending, VerifyEmailCode, MailSendCode, ActivateUser, UserCreateProfile]

  /** The rows hold the table, each key once. */
  predicate Lists(rows: seq<ListedStep>, steps: Steps) {
    && (forall r :: r in rows ==> r.key in steps && steps[r.key] == r.status)
    && (forall k :: k in steps ==> ListedStep(k, steps[k]) in rows)
  }

  /** The loop over the rows, with its early exit, whatever the order of the rows. */
  method AggregateRows(rows: seq<ListedStep>) returns (status: SessionStatus)
    ensures status == Failed <==> exists r :: r in rows && r.status == StepFailed
    ensures status == CodeSent <==> forall r :: r in rows ==> r.status == StepCompleted
    ensures status == Failed || status == CodeSent || status == InProgress
  {
    status := InProgress;
    var allCompleted := true;
    var i := 0;
    while i < |rows|
      invariant 0 <= i <= |rows|
      invariant status == InProgress
      invariant forall j :: 0 <= j < i ==> rows[j].status != StepFailed
      invariant allCompleted <==> forall j :: 0 <= j < i ==> rows[j].status == StepCompleted
    {
      if rows[i].status == StepFailed {
        status := Failed;
        allCompleted := false;
        assert rows[i] in rows;
        break;
      }
      if rows[i].status != StepCompleted {
        allCompleted := false;
      }
      i := i + 1;
    }
    if allCompleted {
      status := CodeSent;
    }
  }

  /** The loop computes the order-independent aggregate of the table. */
  lemma RowsAggregate(rows: seq<ListedStep>, steps: Steps)
    requires Lists(rows, steps)
    ensures HasFailed(steps) <==> exists r :: r in rows && r.status == StepFailed
    ensures AllCompleted(steps) <==> forall r :: r in rows ==> r.status == StepCompleted
  {
    if HasFailed(steps) {
      var k :| k in steps && steps[k] == StepFailed;
      assert ListedStep(k, steps[k]) in rows;
    }
    if forall r :: r in rows ==> r.status == StepCompleted {
      forall k | k in steps ensures steps[k] == StepCompleted { assert ListedStep(k, steps[k]) in rows; }
    }
  }

  /** What ReconcileStatus returns and leaves behind, and the calls it makes. */
  function Reconciled(t: T.Tables, id: string, script: Script): (Option<SessionStatus>, T.Tables, Script) {
    var s1, s2, s3 := Tail(script), Tail(Tail(script)), Tail(Tail(Tail(script)));
    if Head(script).Err? || id !in t.sessions then (None, t, s1)
    else if Head(s1).Err? then (None, t, s2)
    else if Head(s2).Err? then (None, t, s3)
    else
      var status := Aggregate(StepsOf(t, id));
      (Some(status), T.Execute(t, T.SetSessionStatus(id, status)), s3)
  }

  datatype Lookup = LookupError | NotFound | Found(row: Session)

  class SagaRepository {
    const db: Database
    const env: Environment

    constructor (db: Database, env: Environment)
      ensures this.db == db && this.env == env
    {
      this.db, this.env := db, env;
    }

    /** One statement that may fail without effect. */
    method Write(q: T.Statement) returns (ok: bool)
      requires db.Valid()
      modifies db, env
      ensures db.Valid()
      ensures env.script == Tail(old(env.script))
      ensures db.Value() == if Head(old(env.script)).Ok? then T.Execute(old(db.Value()), q) else old(db.Value())
      ensures ok <==> Head(old(env.script)).Ok?
                      && !(q.InsertSession? && !T.MayInsert(old(db.Value()), q.id, q.row))
                      && !(q.InsertStep? && q.step in old(db.steps))
    {
      var c := env.Call();
      if c.Err? { return false; }
      ok := db.Exec(q);
    }

    method GetByID(id: string) returns (row: Option<Session>)
      modifies env
      ensures env.script == Tail(old(env.script))
      ensures row == if Head(old(env.script)).Ok? then SessionOf(db.Value(), id) else None
    {
      var c := env.Call();
      if c.Err? || id !in db.sessions { return None; }
      row := Some(db.sessions[id]);
    }

    method GetByEmail(email: string) returns (r: Lookup)
      modifies env
      ensures env.script == Tail(old(env.script))
      ensures r == LookupError <==> Head(old(env.script)).Err?
      ensures r.Found? ==> exists id :: id in db.sessions && db.sessions[id] == r.row && r.row.email == email
      ensures r == NotFound ==> forall id :: id in db.sessions ==> db.sessions[id].email != email
    {
      var c := env.Call();
      if c.Err? { return LookupError; }
      if id :| id in db.sessions && db.sessions[id].email == email { return Found(db.sessions[id]); }
      r := NotFound;
    }

    method GetByUsername(username: string) returns (r: Lookup)
      modifies env
      ensures env.script == Tail(old(env.script))
      ensures r == LookupError <==> Head(old(env.script)).Err?
      ensures r.Found? ==> exists id :: id in db.sessions && db.sessions[id] == r.row && r.row.username == username
      ensures r == NotFound ==> forall id :: id in db.sessions ==> db.sessions[id].username != username
    {
      var c := env.Call();
      if c.Err? { return LookupError; }
      if id :| id in db.sessions && db.sessions[id].username == username { return Found(db.sessions[id]); }
      r := NotFound;
    }

    /** Compare-and-set; None is an error. */
    method ClaimCompleted(id: string) returns (claimed: Option<bool>)
      requires db.Valid()
      modifies db, env
      ensures db.Valid() && env.script == Tail(old(env.script))
      ensures claimed == (if Head(old(env.script)).Err? then None
                          else Some(id in old(db.sessions) && old(db.sessions)[id].status == Completed))
      ensures db.Value() == if claimed == Some(true)
                            then T.Execute(old(db.Value()), T.SetSessionStatus(id, TokensClaimed)) else old(db.Value())
    {
      var c := env.Call();
      if c.Err? { return None; }
      claimed := Some(id in db.sessions && db.sessions[id].status == Completed);
      var _ := db.Exec(T.SetSessionStatusIf(id, TokensClaimed, Completed));
    }

    method ListBySessionID(id: string) returns (rows: seq<ListedStep>)
      ensures Lists(rows, StepsOf(db.Value(), id))
    {
      rows := [];
      var i := 0;
      while i < |KEY_ORDER|
        invariant 0 <= i <= |KEY_ORDER|
        invariant forall r :: r in rows ==>
          T.StepId(id, r.key) in db.steps && db.steps[T.StepId(id, r.key)] == r.status
        invariant forall j :: 0 <= j < i && T.StepId(id, KEY_ORDER[j]) in db.steps ==>
          ListedStep(KEY_ORDER[j], db.steps[T.StepId(id, KEY_ORDER[j])]) in rows
      {
        var step := T.StepId(id, KEY_ORDER[i]);
        if step in db.steps {
          rows := rows + [ListedStep(KEY_ORDER[i], db.steps[step])];
        }
        i := i + 1;
      }
      forall k | k in StepsOf(db.Value(), id) ensures ListedStep(k, StepsOf(db.Value(), id)[k]) in rows {
        assert KEY_ORDER[0] == AuthCreatePending && KEY_ORDER[1] == VerifyEmailCode && KEY_ORDER[2] == MailSendCode
          && KEY_ORDER[3] == ActivateUser && KEY_ORDER[4] == UserCreateProfile;
        match k {
          case AuthCreatePending => assert KEY_ORDER[0] == k;
          case VerifyEmailCode => assert KEY_ORDER[1] == k;
          case MailSendCode => assert KEY_ORDER[2] == k;
          case ActivateUser => assert KEY_ORDER[3] == k;
          case UserCreateProfile => assert KEY_ORDER[4] == k;
        }
      }
    }

    /** Lock the row, read the steps, write their aggregate, commit. */
    method ReconcileStatus(id: string) returns (status: Option<SessionStatus>)
      requires db.Valid()
      modifies db, env
      ensures db.Valid()
      ensures (status, db.Value(), env.script) == Reconciled(old(db.Value()), id, old(env.script))
    {
      var session := GetByID(id);
      if session.None? { return None; }
      var c := env.Call();
      if c.Err? { return None; }
      var rows := ListBySessionID(id);
      var aggregate := AggregateRows(rows);
      RowsAggregate(rows, StepsOf(db.Value(), id));
      var ok := Write(T.SetSessionStatus(id, aggregate));
      status := if ok then Some(aggregate) else None;
    }
  }
}
