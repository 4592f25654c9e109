/** The registration service as it is written: methods that call the repositories,
    brokers and other services in sequence.  Each is proved to do exactly what its
    process in the state machine does when it runs alone, call failures included, and to
    leave behind the outcome stated for it without control points. */
module Service {
  import opened Domain
  import T = Tables
  import opened Saga
  import opened SagaSolo
  import opened SagaOutcomes
  import opened Repository

  // ----- One session's rows under a statement

  /** The rows of all other sessions. */
  function Elsewhere(t: T.Tables, id: string): T.Tables {
    T.Tables(map k | k in t.sessions && k != id :: t.sessions[k], map s | s in t.steps && s.sessionId != id ::
      t.steps[s])
  }

  predicate Views(t: T.Tables, t': T.Tables, id: string, session: Option<Session>, steps: Steps) {
    SessionOf(t', id) == session && StepsOf(t', id) == steps && Elsewhere(t', id) == Elsewhere(t, id)
  }

  lemma SessionsChange(t: T.Tables, id: string, row: Session)
    ensures Views(t, t.(sessions := t.sessions[id := row]), id, Some(row), StepsOf(t, id))
  {
  }

  lemma StepsChange(t: T.Tables, id: string, key: StepKey, status: StepStatus)
    ensures Views(t, t.(steps := t.steps[T.StepId(id, key) := status]), id, SessionOf(t, id),
            StepsOf(t, id)[key := status])
  {
    var t' := t.(steps := t.steps[T.StepId(id, key) := status]);
    StepsOfChange(t, id, key, status);
    assert Elsewhere(t', id).steps == Elsewhere(t, id).steps;
  }

  lemma StepsOfChange(t: T.Tables, id: string, key: StepKey, status: StepStatus)
    ensures StepsOf(t.(steps := t.steps[T.StepId(id, key) := status]), id) == StepsOf(t, id)[key := status]
  {
  }

  lemma SessionWriteView(t: T.Tables, id: string, status: SessionStatus)
    ensures Views(t, T.Execute(t, T.SetSessionStatus(id, status)), id, UpdatedSession(SessionOf(t, id), status),
            StepsOf(t, id))
  {
    hide Elsewhere, StepsOf;
    if id in t.sessions { SessionsChange(t, id, t.sessions[id].(status := status)); }
  }

  lemma StepWriteView(t: T.Tables, id: string, key: StepKey, status: StepStatus)
    ensures Views(t, T.Execute(t, T.SetStepStatus(T.StepId(id, key), status)), id, SessionOf(t, id),
            UpdatedStep(StepsOf(t, id), key, status))
  {
    StepPresent(t, id, key);
    hide Elsewhere, StepsOf;
    StepsChange(t, id, key, status);
  }

  lemma StepPresent(t: T.Tables, id: string, key: StepKey)
    ensures key in StepsOf(t, id) <==> T.StepId(id, key) in t.steps
    ensures key in StepsOf(t, id) ==> StepsOf(t, id)[key] == t.steps[T.StepId(id, key)]
  {
  }

  lemma StepInsertView(t: T.Tables, id: string, key: StepKey, status: StepStatus)
    requires T.StepId(id, key) !in t.steps
    ensures Views(t, T.Execute(t, T.InsertStep(T.StepId(id, key), status)), id, SessionOf(t, id),
            StepsOf(t, id)[key := status])
  {
    hide Elsewhere, StepsOf, Views;
    StepsChange(t, id, key, status);
  }

  lemma StepInsertRefused(t: T.Tables, step: T.StepId, status: StepStatus)
    requires step in t.steps
    ensures T.Execute(t, T.InsertStep(step, status)) == t
  {
  }

  lemma SessionInsertView(t: T.Tables, id: string, row: Session)
    requires T.MayInsert(t, id, row)
    ensures Views(t, T.Execute(t, T.InsertSession(id, row)), id, Some(row), StepsOf(t, id))
    ensures SessionOf(t, id) == None
  {
    hide Elsewhere, StepsOf, Views;
    SessionsChange(t, id, row);
  }

  /** What the code does not store of a session: its publications, what was observed of
      it, and who inserted its rows. */
  datatype Trace = Trace(userSent: bool, authSent: bool, log: seq<Effect>, creator: Option<nat>, verifier: Option<nat>)

  /** Nothing was published or observed. */
  predicate SameTrace(x: Trace, y: Trace) {
    y.userSent == x.userSent && y.authSent == x.authSent && y.log == x.log && y.verifier == x.verifier
  }

  function TraceIn(traces: map<string, Trace>, sid: string): Trace {
    if sid in traces then traces[sid] else Trace(false, false, [], None, None)
  }

  /** A session as the state machine sees it, from the tables, the notified sessions and
      the traces. */
  function MemIn(t: T.Tables, notified: set<string>, traces: map<string, Trace>, realtime: bool, sid: string): Shared {
    var x := TraceIn(traces, sid);
    Shared(SessionOf(t, sid), StepsOf(t, sid), None, sid in notified, realtime,
           x.userSent, x.authSent, x.log, x.creator, x.verifier)
  }

  /** What concerns the other sessions decides how each of them looks. */
  lemma RestDecides(t: T.Tables, notified: set<string>, traces: map<string, Trace>, realtime: bool, sid: string,
    other: string)
    requires other != sid
    ensures MemIn(Elsewhere(t, sid), notified - {sid}, traces - {sid}, realtime, other)
            == MemIn(t, notified, traces, realtime, other)
  {
    assert StepsOf(Elsewhere(t, sid), other) == StepsOf(t, other);
  }

  // ----- Start's answers

  datatype ConflictState = IncompleteState | CompletedState

  datatype StartOutcome =
    | StartError
    | StartConflict(state: ConflictState, usernameTaken: bool, emailTaken: bool)
    | StartAccepted(session: Session)

  /** ToIncompleteConflictResult. */
  function IncompleteConflict(byEmail: Lookup, byUsername: Lookup): (r: Option<StartOutcome>) {
    var emailTaken := byEmail.Found? && T.Unfinished(byEmail.row);
    var usernameTaken := byUsername.Found? && T.Unfinished(byUsername.row);
    if emailTaken || usernameTaken then Some(StartConflict(IncompleteState, usernameTaken, emailTaken)) else None
  }

  /** ToCompletedConflictResult. */
  function CompletedConflict(emailTaken: bool, usernameTaken: bool): Option<StartOutcome> {
    if emailTaken || usernameTaken then Some(StartConflict(CompletedState, usernameTaken, emailTaken)) else None
  }

  /** No check stands in the way of a registration. */
  ghost predicate Clear(t: T.Tables, row: Session, emailTaken: bool, usernameTaken: bool) {
    !T.EmailHeld(t, row.email) && !T.UsernameHeld(t, row.username) && !emailTaken && !usernameTaken
  }

  /** A conflict reports what is taken: by unfinished registrations first, then by the
      user and auth services. */
  ghost predicate ConflictFits(t: T.Tables, row: Session, emailTaken: bool, usernameTaken: bool, r: StartOutcome) {
    && r.StartConflict?
    && (r.usernameTaken || r.emailTaken)
    && match r.state
       case IncompleteState =>
         r.emailTaken == T.EmailHeld(t, row.email) && r.usernameTaken == T.UsernameHeld(t, row.username)
       case CompletedState =>
         && r.emailTaken == emailTaken && r.usernameTaken == usernameTaken
         && !T.EmailHeld(t, row.email) && !T.UsernameHeld(t, row.username)
  }

  /** The answers of a Start whose calls all succeed. */
  ghost predicate Answers(t: T.Tables, sid: string, row: Session, emailTaken: bool, usernameTaken: bool,
    r: StartOutcome) {
    if !Clear(t, row, emailTaken, usernameTaken) then ConflictFits(t, row, emailTaken, usernameTaken, r)
    else r == if T.MayInsert(t, sid, row) then StartAccepted(row) else StartError
  }

  /** What the checks answer, or None to go on.  Calls: the two lookups, the two remote
      checks; a conflict with an unfinished registration is answered before the latter. */
  ghost function LookupOutcome(t: T.Tables, row: Session, emailTaken: bool, usernameTaken: bool, script: Script)
    : Option<StartOutcome>
  {
    if CallAt(script, 0).Err? || CallAt(script, 1).Err? then Some(StartError)
    else if T.EmailHeld(t, row.email) || T.UsernameHeld(t, row.username) then
      Some(StartConflict(IncompleteState, T.UsernameHeld(t, row.username), T.EmailHeld(t, row.email)))
    else if CallAt(script, 2).Err? || CallAt(script, 3).Err? then Some(StartError)
    else if emailTaken || usernameTaken then Some(StartConflict(CompletedState, usernameTaken, emailTaken))
    else None
  }

  /** The conflict checks let a registration through that the unique indexes then
      refuse exactly when a failed or completed session, which the lookups ignore,
      still holds its email or username (or the session id is in use). */
  lemma RefusedAfterChecks(t: T.Tables, sid: string, row: Session)
    requires !T.EmailHeld(t, row.email) && !T.UsernameHeld(t, row.username)
    ensures !T.MayInsert(t, sid, row)
            <==> sid in t.sessions
                 || exists id :: id in t.sessions && !T.Unfinished(t.sessions[id])
                                 && (t.sessions[id].email == row.email || t.sessions[id].username == row.username)
  {
  }

  /** The order of createStartSteps. */
  const START_STEPS: seq<StepKey> := [UserCreateProfile, AuthCreatePending, MailSendCode]

  function WithSteps(t: T.Tables, sid: string, k: nat): T.Tables
    requires k <= 3
  {
    if k == 0 then t
    else
      var before := WithSteps(t, sid, k - 1);
      before.(steps := before.steps[T.StepId(sid, START_STEPS[k - 1]) := StepPending])
  }

  /** No step row of the session is left over. */
  predicate NoSteps(t: T.Tables, sid: string) {
    forall step :: step in t.steps ==> step.sessionId != sid
  }

  lemma StepStillAbsent(t: T.Tables, sid: string, k: nat)
    requires k < 3 && NoSteps(t, sid)
    ensures T.StepId(sid, START_STEPS[k]) !in WithSteps(t, sid, k).steps
  {
  }

  /** The rows of a registration whose Start has created everything. */
  function Registered(t: T.Tables, sid: string, row: Session): T.Tables {
    WithSteps(t.(sessions := t.sessions[sid := row]), sid, 3)
  }

  /** How many of the first `k` step rows are inserted: up to the first call that fails or
      whose row is there already. */
  function StepsInserted(t: T.Tables, sid: string, script: Script, k: nat): (f: nat)
    requires k <= 3
    ensures f <= k
  {
    if k == 0 then 0
    else
      var f := StepsInserted(t, sid, script, k - 1);
      if f == k - 1 && CallAt(script, f).Ok? && T.StepId(sid, START_STEPS[f]) !in t.steps then k else f
  }

  lemma {:induction false} StopsInserting(t: T.Tables, sid: string, script: Script, f: nat, k: nat)
    requires f < k <= 3 && StepsInserted(t, sid, script, f) == f
    requires CallAt(script, f).Err? || T.StepId(sid, START_STEPS[f]) in t.steps
    ensures StepsInserted(t, sid, script, k) == f
  {
    if f + 1 < k { StopsInserting(t, sid, script, f, k - 1); }
  }

  lemma {:induction false} StepsBefore(t: T.Tables, sid: string, j: nat, k: nat)
    requires j <= k < 3
    ensures var step := T.StepId(sid, START_STEPS[k]); step in WithSteps(t, sid, j).steps <==> step in t.steps
  {
    if j > 0 { StepsBefore(t, sid, j - 1, k); }
  }

  /** The rows of a registration that passed the checks, and whether it was accepted.
      Calls: insert the session and three steps, hash the password. */
  function CreationOutcome(t: T.Tables, sid: string, row: Session, script: Script): (T.Tables, bool) {
    if CallAt(script, 0).Err? || !T.MayInsert(t, sid, row) then (t, false)
    else
      var created := t.(sessions := t.sessions[sid := row]);
      var f := StepsInserted(created, sid, From(script, 1), 3);
      (WithSteps(created, sid, f), f == 3 && CallAt(script, 4).Ok?)
  }

  /** A whole Start: its answer and the tables it leaves, whatever fails. */
  ghost function RegistrationOutcome(t: T.Tables, sid: string, row: Session, emailTaken: bool, usernameTaken: bool,
    script: Script): (T.Tables, StartOutcome)
  {
    var answer := LookupOutcome(t, row, emailTaken, usernameTaken, script);
    var (created, accepted) := CreationOutcome(t, sid, row, From(script, 4));
    if answer.Some? then (t, answer.value) else (created, if accepted then StartAccepted(row) else StartError)
  }

  /** The control points of the three step insertions and of what follows them. */
  const START_PCS: seq<StartPc> := [InsertUserStep, InsertAuthStep, InsertMailStep, SpawnDispatch]

  predicate NoFailures(script: Script) {
    forall k :: 0 <= k < |script| ==> script[k] == Ok
  }

  lemma NextSucceeds()
    ensures forall s: Script {:trigger Tail(s)} :: NoFailures(s) ==> Head(s) == Ok && NoFailures(Tail(s))
  {
    forall s: Script | NoFailures(s) ensures Head(s) == Ok && NoFailures(Tail(s)) {
      if s != [] { assert s[0] == Ok; }
    }
  }

  class RegistrationService {
    const repo: SagaRepository
    const realtime: bool
    var codeSentNotified: set<string>
    ghost var traces: map<string, Trace>

    constructor (repo: SagaRepository, realtime: bool)
      ensures this.repo == repo && this.realtime == realtime
      ensures codeSentNotified == {} && traces == map[]
    {
      this.repo, this.realtime := repo, realtime;
      codeSentNotified, traces := {}, map[];
    }

    ghost predicate Valid()
      reads this, repo.db
    {
      repo.db.Valid()
    }

    ghost function TraceOf(sid: string): Trace
      reads this
    {
      TraceIn(traces, sid)
    }

    /** The state machine's view of one session. */
    ghost function Mem(sid: string): Shared
      reads this, repo.db
    {
      MemIn(repo.db.Value(), codeSentNotified, traces, realtime, sid)
    }

    /** Everything about the other sessions. */
    ghost function Rest(sid: string): (T.Tables, set<string>, map<string, Trace>)
      reads this, repo.db
    {
      (Elsewhere(repo.db.Value(), sid), codeSentNotified - {sid}, traces - {sid})
    }

    ghost method Observe(sid: string, e: Effect)
      modifies this`traces
      ensures Rest(sid) == old(Rest(sid)) && (old(Valid()) ==> Valid())
      ensures Mem(sid) == Logged(old(Mem(sid)), e)
    {
      traces := traces[sid := TraceOf(sid).(log := TraceOf(sid).log + [e])];
      assert traces - {sid} == old(traces) - {sid};
    }

    // ----- Single calls

    method UpdateStep(sid: string, key: StepKey, status: StepStatus) returns (ok: bool)
      requires Valid()
      modifies repo.db, repo.env
      ensures Valid() && Rest(sid) == old(Rest(sid))
      ensures ok <==> Head(old(repo.env.script)).Ok?
      ensures repo.env.script == Tail(old(repo.env.script))
      ensures Mem(sid) == if ok then WroteStep(old(Mem(sid)), key, status) else old(Mem(sid))
    {
      hide T.Execute, T.Emitted, T.Replay, T.Unique, Elsewhere, StepsOf, SessionOf, UpdatedStep;
      ghost var t := repo.db.Value();
      ok := repo.Write(T.SetStepStatus(T.StepId(sid, key), status));
      StepWriteView(t, sid, key, status);
    }

    method UpdateSession(sid: string, status: SessionStatus) returns (ok: bool)
      requires Valid()
      modifies this`traces, repo.db, repo.env
      ensures Valid() && Rest(sid) == old(Rest(sid))
      ensures ok <==> Head(old(repo.env.script)).Ok?
      ensures repo.env.script == Tail(old(repo.env.script))
      ensures Mem(sid) == if ok then WroteSession(old(Mem(sid)), status) else old(Mem(sid))
    {
      hide T.Execute, T.Emitted, T.Replay, T.Unique, Elsewhere, StepsOf, SessionOf, UpdatedSession;
      ghost var t := repo.db.Value();
      ok := repo.Write(T.SetSessionStatus(sid, status));
      SessionWriteView(t, sid, status);
      if ok { Observe(sid, SessionWritten(status)); }
    }

    method InsertStep(sid: string, key: StepKey, status: StepStatus) returns (ok: bool)
      requires Valid()
      modifies repo.db, repo.env
      ensures Valid() && Rest(sid) == old(Rest(sid))
      ensures ok <==> Head(old(repo.env.script)).Ok? && key !in old(Mem(sid)).steps
      ensures repo.env.script == Tail(old(repo.env.script))
      ensures Mem(sid) == if ok then old(Mem(sid)).(steps := old(Mem(sid)).steps[key := status]) else old(Mem(sid))
      ensures var t := old(repo.db.Value());
              repo.db.Value() == if ok then t.(steps := t.steps[T.StepId(sid, key) := status]) else t
    {
      hide T.Emitted, T.Replay, T.Unique, Elsewhere, StepsOf, SessionOf;
      ghost var t := repo.db.Value();
      StepPresent(t, sid, key);
      ok := repo.Write(T.InsertStep(T.StepId(sid, key), status));
      if T.StepId(sid, key) !in t.steps { StepInsertView(t, sid, key, status); }
        else { StepInsertRefused(t, T.StepId(sid, key), status); }
    }

    method GetSession(sid: string) returns (row: Option<Session>)
      requires Valid()
      modifies repo.env
      ensures Valid() && Rest(sid) == old(Rest(sid)) && Mem(sid) == old(Mem(sid))
      ensures repo.env.script == Tail(old(repo.env.script))
      ensures row == if Head(old(repo.env.script)).Ok? then old(Mem(sid)).session else None
    {
      row := repo.GetByID(sid);
    }

    /** A call to another service or a publication, observed when it is made
        (`attempt`) or when it succeeds. */
    method CallOut(sid: string, ghost e: Effect, attempt: bool) returns (c: Choice)
      requires Valid()
      modifies this`traces, repo.env
      ensures Valid() && Rest(sid) == old(Rest(sid))
      ensures c == Head(old(repo.env.script)) && repo.env.script == Tail(old(repo.env.script))
      ensures Mem(sid) == if attempt || c.Ok? then Logged(old(Mem(sid)), e) else old(Mem(sid))
    {
      c := repo.env.Call();
      if attempt || c.Ok? { Observe(sid, e); }
    }

    /** Publishes registration.failed; an error is only logged. */
    method PublishFailure(sid: string, ghost i: nat)
      requires Valid()
      modifies this`traces, repo.env
      ensures Valid() && Rest(sid) == old(Rest(sid))
      ensures repo.env.script == Tail(old(repo.env.script))
      ensures Mem(sid) == Logged(old(Mem(sid)), FailedEvent(i, Head(old(repo.env.script)).Ok?))
    {
      var c := repo.env.Call();
      Observe(sid, FailedEvent(i, c.Ok?));
    }

    // ----- Compensation and reconciliation

    method CompensateRegistrationFailure(sid: string, given: string, ghost i: nat) returns (ok: bool)
      requires Valid()
      modifies this`traces, repo.db, repo.env
      ensures Valid() && Rest(sid) == old(Rest(sid))
      ensures Call(Mem(sid), ok, repo.env.script)
              == RunCompensate(old(Mem(sid)), i, given, ReadSession, old(repo.env.script))
      ensures Call(Mem(sid), ok, repo.env.script)
              == CompensationOutcome(old(Mem(sid)), i, given, old(repo.env.script))
    {
      hide Valid, Rest, Mem, RunCompensate, CompensationOutcome, WroteSession, Logged;
      CompensationRuns(Mem(sid), i, given, repo.env.script);
      CompensateNext(Mem(sid), i, given, ReadSession, repo.env.script);
      var session := GetSession(sid);
      if session.None? { return false; }
      var userId := if given == "" then session.value.userId else given;
      CompensateNext(Mem(sid), i, given, WriteFailed(userId), repo.env.script);
      var written := UpdateSession(sid, Failed);
      if !written { return false; }
      if userId != "" {
        CompensateNext(Mem(sid), i, given, CompensatePc.DeactivateUser(userId), repo.env.script);
        var _ := CallOut(sid, UserDeactivated(i, userId), true);    // an error is only logged
        CompensateNext(Mem(sid), i, given, CompensatePc.DeactivateAuth(userId), repo.env.script);
        var _ := CallOut(sid, AuthDeactivated(i, userId), true);    // likewise
      }
      CompensateNext(Mem(sid), i, given, PublishFailed, repo.env.script);
      PublishFailure(sid, i);
      ok := true;
    }

    method Reconcile(sid: string) returns (status: Option<SessionStatus>)
      requires Valid()
      modifies this`traces, repo.db, repo.env
      ensures Valid() && Rest(sid) == old(Rest(sid))
      ensures var m, script := old(Mem(sid)), old(repo.env.script);
              var s1, s2, s3 := Tail(script), Tail(Tail(script)), Tail(Tail(Tail(script)));
              var seen := Logged(m, SnapshotTaken(m.steps));
              (status, Mem(sid), repo.env.script)
              == if Head(script).Err? || m.session.None? then (None, m, s1)
                 else if Head(s1).Err? then (None, m, s2)
                 else if Head(s2).Err? then (None, seen, s3)
                 else (Some(Aggregate(m.steps)), WroteSession(seen, Aggregate(m.steps)), s3)
    {
      hide T.Execute, T.Emitted, T.Replay, T.Unique, Elsewhere, StepsOf, UpdatedSession, Aggregate;
      ghost var m, t, script := Mem(sid), repo.db.Value(), repo.env.script;
      status := repo.ReconcileStatus(sid);
      if status.Some? { SessionWriteView(t, sid, status.value); }
      if Head(script).Ok? && m.session.Some? && Head(Tail(script)).Ok? {
        Observe(sid, SnapshotTaken(m.steps));
      }
      if status.Some? { Observe(sid, SessionWritten(status.value)); }
    }

    method SyncSessionStatus(sid: string, ghost i: nat) returns (ok: bool)
      requires Valid()
      modifies this`traces, repo.db, repo.env
      ensures Valid() && Rest(sid) == old(Rest(sid))
      ensures Call(Mem(sid), ok, repo.env.script) == RunSync(old(Mem(sid)), i, Lock, old(repo.env.script))
      ensures Call(Mem(sid), ok, repo.env.script) == SyncOutcome(old(Mem(sid)), i, old(repo.env.script))
    {
      hide Valid, Rest, Mem, RunSync, RunCompensate, SyncOutcome, CompensationOutcome, WroteSession, Logged, Aggregate;
      MemFacts(sid);
      SyncEnds(Mem(sid), i, repo.env.script);
      SyncUnfolds(Mem(sid), i, repo.env.script);
      var status := Reconcile(sid);
      if status.None? { return false; }
      if status.value == Failed {
        SyncRunsCompensate(Mem(sid), i, ReadSession, repo.env.script);
        ok := CompensateRegistrationFailure(sid, "", i);
      } else {
        ok := true;
      }
    }

    /** The rows of one session, or None on an error. */
    method ListSteps(sid: string) returns (rows: Option<seq<ListedStep>>)
      requires Valid()
      modifies repo.env
      ensures Valid() && Rest(sid) == old(Rest(sid)) && Mem(sid) == old(Mem(sid))
      ensures repo.env.script == Tail(old(repo.env.script))
      ensures rows.Some? <==> Head(old(repo.env.script)).Ok?
      ensures rows.Some? ==> Lists(rows.value, old(Mem(sid)).steps)
    {
      var c := repo.env.Call();
      if c.Err? { return None; }
      var listed := repo.ListBySessionID(sid);
      rows := Some(listed);
    }

    /** syncSessionStatus over repositories without ReconcileStatus: it polls the steps
        up to three times.  On an unchanging step list it reaches the verdicts of
        ReconcileStatus on failed and complete lists, and leaves an incomplete session
        untouched instead of writing `in_progress`. */
    method SyncByPolling(sid: string, ghost i: nat) returns (ok: bool)
      requires Valid()
      modifies this`traces, repo.db, repo.env
      ensures Valid() && Rest(sid) == old(Rest(sid))
      ensures var m, script := old(Mem(sid)), old(repo.env.script);
              if Head(script).Err? then !ok && Mem(sid) == m
              else
                match Aggregate(m.steps)
                case Failed => Call(Mem(sid), ok, repo.env.script) == CompensationOutcome(m, i, "", Tail(script))
                case CodeSent => ok == Head(Tail(script)).Ok? && Mem(sid) == if ok then WroteSession(m, CodeSent) else m
                case _ => Mem(sid) == m && (ok <==> Head(Tail(script)).Ok? && Head(Tail(Tail(script))).Ok?)
    {
      hide Valid, Rest, Mem, RunCompensate, CompensationOutcome, WroteSession, Lists;
      ghost var m, script := Mem(sid), repo.env.script;
      var attempt := 0;
      while true
        invariant 0 <= attempt <= 2
        invariant Valid() && Rest(sid) == old(Rest(sid)) && Mem(sid) == m
        invariant attempt > 0 ==> Head(script).Ok? && Aggregate(m.steps) == InProgress
        invariant attempt > 1 ==> Head(Tail(script)).Ok?
        invariant repo.env.script == if attempt == 0 then script else if attempt == 1 then Tail(script)
          else Tail(Tail(script))
        decreases 2 - attempt
      {
        var rows := ListSteps(sid);
        if rows.None? { return false; }
        var verdict := AggregateRows(rows.value);
        RowsAggregate(rows.value, m.steps);
        if verdict == Failed {
          ok := CompensateRegistrationFailure(sid, "", i);
          return;
        }
        if verdict == CodeSent { break; }
        if attempt == 2 { return true; }
        attempt := attempt + 1;
      }
      ok := UpdateSession(sid, CodeSent);
    }

    // ----- Result handlers

    lemma MemFacts(sid: string)
      ensures Mem(sid).realtime == realtime && Mem(sid).lock == None
    {
    }

    ghost function Here(sid: string, p: Proc): Solo
      reads this, repo.db, repo.env
    {
      Solo(Mem(sid), p, repo.env.script)
    }

    /** The solo run `start` of a result handler ends in this service's state with `ok`. */
    ghost predicate HandlerEnds(start: Solo, i: nat, n: nat, sid: string, ok: bool)
      reads this, repo.db
    {
      var end := RunSolo(i, n, start);
      end.mem == Mem(sid) && end.proc.Handler? && end.proc.handler == HandlerDone(ok)
    }

    /** codeSentNotified.LoadOrStore and the notification. */
    method NotifyCodeSent(sid: string)
      requires Valid()
      modifies this`traces, this`codeSentNotified
      ensures Valid() && Rest(sid) == old(Rest(sid))
      ensures var m := old(Mem(sid));
              Mem(sid) == if m.notified then m else Logged(m.(notified := true), CodeSentNotified)
    {
      if sid in codeSentNotified { return; }
      codeSentNotified := codeSentNotified + {sid};
      Observe(sid, CodeSentNotified);
      assert codeSentNotified - {sid} == old(codeSentNotified) - {sid};
    }

    method PublishCodeSentIfReady(sid: string, ghost p: Proc, ghost i: nat, ghost n: nat) returns (ok: bool)
      requires Valid() && p.Handler? && p.handler == ReadReady
      modifies this`traces, this`codeSentNotified, repo.env
      ensures Valid() && Rest(sid) == old(Rest(sid))
      ensures HandlerEnds(old(Here(sid, p)), i, n, sid, ok)
      ensures (Mem(sid), ok) == ReadyOutcome(old(Mem(sid)), old(repo.env.script))
    {
      hide Valid, Rest, Mem, RunSolo, ReadyOutcome, Logged;
      ReadyEnds(Mem(sid), i, n, p, repo.env.script);
      ghost var notify := Solo(Mem(sid), p.(handler := Notify), Tail(repo.env.script));
      MemFacts(sid);
      SoloNext(i, n, Here(sid, p));
      SoloNext(i, n, notify);
      SoloEnds(i, n);
      if !realtime { return true; }
      var session := GetSession(sid);
      if session.None? { return false; }
      if session.value.status != CodeSent { return true; }
      NotifyCodeSent(sid);
      ok := true;
    }

    /** After the step writes: reconcile, compensate if a step failed, notify. */
    method FinishHandler(sid: string, ghost p: Proc, ghost i: nat, ghost n: nat) returns (ok: bool)
      requires Valid() && p.Handler? && p.handler == HandlerSync(Lock)
      modifies this`traces, this`codeSentNotified, repo.db, repo.env
      ensures Valid() && Rest(sid) == old(Rest(sid))
      ensures HandlerEnds(old(Here(sid, p)), i, n, sid, ok)
    {
      hide Valid, Rest, Mem, RunSolo, RunSync;
      HandlerRunsSync(Mem(sid), i, n, p, repo.env.script);
      SoloEnds(i, n);
      var synced := SyncSessionStatus(sid, i);
      if !synced { return false; }
      ok := PublishCodeSentIfReady(sid, p.(handler := ReadReady), i, n);
    }

    method FailHandler(sid: string, ghost p: Proc, userId: string, ghost i: nat, ghost n: nat) returns (ok: bool)
      requires Valid() && p.Handler? && p.handler == DirectCompensate(ReadSession) && p.userId == userId
      modifies this`traces, repo.db, repo.env
      ensures Valid() && Rest(sid) == old(Rest(sid))
      ensures HandlerEnds(old(Here(sid, p)), i, n, sid, ok)
    {
      hide Valid, Rest, Mem, RunSolo, RunCompensate;
      HandlerRunsCompensate(Mem(sid), i, n, p, repo.env.script);
      SoloEnds(i, n);
      ok := CompensateRegistrationFailure(sid, userId, i);
    }

    method HandleUserCreateResult(sid: string, success: bool, userId: string, ghost i: nat, ghost n: nat)
      returns (ok: bool)
      requires Valid()
      modifies this`traces, this`codeSentNotified, repo.db, repo.env
      ensures Valid() && Rest(sid) == old(Rest(sid))
      ensures HandlerEnds(old(Here(sid, Handler(UserResult, success, userId, WriteStep))), i, n, sid, ok)
      ensures (Mem(sid), ok)
              == HandlerOutcome(old(Mem(sid)), i, UserResult, success, userId, old(repo.env.script))
    {
      hide Valid, Rest, Mem, RunSolo, HandlerOutcome, WroteStep;
      MemFacts(sid);
      HandlerRunsTo(Mem(sid), i, n, UserResult, success, userId, repo.env.script);
      ghost var p := Handler(UserResult, success, userId, WriteStep);
      SoloNext(i, n, Here(sid, p));
      SoloEnds(i, n);
      var written := UpdateStep(sid, UserCreateProfile, if success then StepCompleted else StepFailed);
      if !written { return false; }
      if success {
        ok := FinishHandler(sid, p.(handler := HandlerSync(Lock)), i, n);
      } else {
        ok := FailHandler(sid, p.(handler := DirectCompensate(ReadSession)), userId, i, n);
      }
    }

    method HandleAuthCreatePendingResult(sid: string, success: bool, userId: string, ghost i: nat, ghost n: nat)
      returns (ok: bool)
      requires Valid()
      modifies this`traces, this`codeSentNotified, repo.db, repo.env
      ensures Valid() && Rest(sid) == old(Rest(sid))
      ensures HandlerEnds(old(Here(sid, Handler(AuthResult, success, userId, WriteStep))), i, n, sid, ok)
      ensures (Mem(sid), ok)
              == HandlerOutcome(old(Mem(sid)), i, AuthResult, success, userId, old(repo.env.script))
    {
      hide Valid, Rest, Mem, RunSolo, HandlerOutcome, WroteStep;
      MemFacts(sid);
      HandlerRunsTo(Mem(sid), i, n, AuthResult, success, userId, repo.env.script);
      ghost var p := Handler(AuthResult, success, userId, WriteStep);
      SoloNext(i, n, Here(sid, p));
      SoloEnds(i, n);
      var written := UpdateStep(sid, AuthCreatePending, if success then StepCompleted else StepFailed);
      if !written { return false; }
      if !success {
        ok := FailHandler(sid, p.(handler := DirectCompensate(ReadSession)), userId, i, n);
        return;
      }
      SoloNext(i, n, Here(sid, p.(handler := ActivateMail)));
      var activated := UpdateStep(sid, MailSendCode, StepInProgress);
      if !activated { return false; }
      ok := FinishHandler(sid, p.(handler := HandlerSync(Lock)), i, n);
    }

    method HandleMailSendResult(sid: string, success: bool, userId: string, ghost i: nat, ghost n: nat)
      returns (ok: bool)
      requires Valid()
      modifies this`traces, this`codeSentNotified, repo.db, repo.env
      ensures Valid() && Rest(sid) == old(Rest(sid))
      ensures HandlerEnds(old(Here(sid, Handler(MailResult, success, userId, WriteStep))), i, n, sid, ok)
      ensures (Mem(sid), ok)
              == HandlerOutcome(old(Mem(sid)), i, MailResult, success, userId, old(repo.env.script))
    {
      hide Valid, Rest, Mem, RunSolo, HandlerOutcome, WroteStep, Logged;
      MemFacts(sid);
      HandlerRunsTo(Mem(sid), i, n, MailResult, success, userId, repo.env.script);
      ghost var p := Handler(MailResult, success, userId, WriteStep);
      SoloNext(i, n, Here(sid, p));
      SoloEnds(i, n);
      var written := UpdateStep(sid, MailSendCode, if success then StepCompleted else StepFailed);
      if !written { return false; }
      if !success {
        ok := FailHandler(sid, p.(handler := DirectCompensate(ReadSession)), userId, i, n);
        return;
      }
      SoloNext(i, n, Here(sid, p.(handler := PublishCodeSent)));
      var published := CallOut(sid, CodeSentEvent, false);
      if published.Err? { return false; }
      ok := FinishHandler(sid, p.(handler := HandlerSync(Lock)), i, n);
    }

    // ----- Start

    /** An answer, or None to go on; every answer leaves the tables alone. */
    method LookupStartConflict(row: Session, emailTaken: bool, usernameTaken: bool) returns (r: Option<StartOutcome>)
      requires Valid()
      modifies repo.env
      ensures NoFailures(old(repo.env.script)) ==> NoFailures(repo.env.script) && r != Some(StartError)
      ensures r.None? ==> Clear(repo.db.Value(), row, emailTaken, usernameTaken)
      ensures r.Some? && r.value != StartError ==>
                ConflictFits(repo.db.Value(), row, emailTaken, usernameTaken, r.value)
      ensures r == LookupOutcome(repo.db.Value(), row, emailTaken, usernameTaken, old(repo.env.script))
      ensures r.None? ==> repo.env.script == From(old(repo.env.script), 4)
    {
      NextSucceeds();
      CallByCall(repo.env.script);
      assert repo.env.script == From(repo.env.script, 0);
      var byEmail := repo.GetByEmail(row.email);
      if byEmail == LookupError { return Some(StartError); }
      var byUsername := repo.GetByUsername(row.username);
      if byUsername == LookupError { return Some(StartError); }
      r := IncompleteConflict(byEmail, byUsername);
      if r.Some? { return; }
      var c := repo.env.Call();
      if c.Err? { return Some(StartError); }
      c := repo.env.Call();
      if c.Err? { return Some(StartError); }
      r := CompletedConflict(emailTaken, usernameTaken);
    }

    ghost predicate StartEnds(start: Solo, i: nat, n: nat, sid: string, ok: bool)
      reads this, repo.db
    {
      var end := RunSolo(i, n, start);
      end.mem == Mem(sid) && end.proc.StartCall? && end.proc.start == StartDone(ok)
    }

    ghost method SetCreator(sid: string, owner: nat)
      modifies this`traces
      ensures Rest(sid) == old(Rest(sid)) && (old(Valid()) ==> Valid())
      ensures Mem(sid) == old(Mem(sid)).(creator := Some(owner))
      ensures SameTrace(old(TraceOf(sid)), TraceOf(sid))
    {
      traces := traces[sid := TraceOf(sid).(creator := Some(owner))];
      assert traces - {sid} == old(traces) - {sid};
    }

    /** createStartSession. */
    method InsertSession(sid: string, row: Session, ghost i: nat) returns (ok: bool)
      requires Valid()
      modifies this`traces, repo.db, repo.env
      ensures Valid() && Rest(sid) == old(Rest(sid)) && repo.env.script == Tail(old(repo.env.script))
      ensures ok <==> Head(old(repo.env.script)).Ok? && T.MayInsert(old(repo.db.Value()), sid, row)
      ensures var m := old(Mem(sid));
              Mem(sid) == if ok then m.(session := Some(row), creator := Some(i)) else m
      ensures var t := old(repo.db.Value()); repo.db.Value() == if ok then t.(sessions := t.sessions[sid := row]) else t
      ensures ok ==> old(Mem(sid)).session.None?
      ensures SameTrace(old(TraceOf(sid)), TraceOf(sid))
    {
      hide T.MayInsert, T.Emitted, T.Replay, T.Unique, Elsewhere, StepsOf;
      ghost var t := repo.db.Value();
      ok := repo.Write(T.InsertSession(sid, row));
      if ok {
        SessionInsertView(t, sid, row);
        SetCreator(sid, i);
      }
    }

    lemma MemSteps(sid: string, key: StepKey)
      ensures key in Mem(sid).steps <==> T.StepId(sid, key) in repo.db.Value().steps
    {
      StepPresent(repo.db.Value(), sid, key);
    }

    method CreateStartSteps(sid: string, ghost row: Session, ghost i: nat, ghost n: nat) returns (ok: bool)
      requires Valid()
      modifies repo.db, repo.env
      ensures Valid() && Rest(sid) == old(Rest(sid))
      ensures RunSolo(i, n, old(Here(sid, StartCall(row, InsertUserStep))))
              == RunSolo(i, n, Here(sid, StartCall(row, if ok then SpawnDispatch else StartDone(false))))
      ensures ok ==> repo.db.Value() == WithSteps(old(repo.db.Value()), sid, 3)
      ensures NoFailures(old(repo.env.script)) ==>
                NoFailures(repo.env.script) && (NoSteps(old(repo.db.Value()), sid) ==> ok)
      ensures var t, script := old(repo.db.Value()), old(repo.env.script);
              var f := StepsInserted(t, sid, script, 3);
              && repo.db.Value() == WithSteps(t, sid, f) && (ok <==> f == 3)
              && (ok ==> repo.env.script == From(script, 3))
    {
      hide Valid, Rest, Mem, RunSolo, NoFailures, NoSteps, T.Execute, From, CallAt, Head, Tail;
      ghost var t, script := repo.db.Value(), repo.env.script;
      CallByCall(script);
      var k := 0;
      while k < |START_STEPS|
        invariant 0 <= k <= |START_STEPS|
        invariant Valid() && Rest(sid) == old(Rest(sid))
        invariant RunSolo(i, n, old(Here(sid, StartCall(row, InsertUserStep))))
          == RunSolo(i, n, Here(sid, StartCall(row, START_PCS[k])))
        invariant repo.db.Value() == WithSteps(t, sid, k)
        invariant StepsInserted(t, sid, script, k) == k && repo.env.script == From(script, k)
        invariant NoFailures(script) ==> NoFailures(repo.env.script)
      {
        NextSucceeds();
        InsertionPc(k);
        SoloNext(i, n, Here(sid, StartCall(row, START_PCS[k])));
        StepsBefore(t, sid, k, k);
        if NoSteps(t, sid) { StepStillAbsent(t, sid, k); }
        MemSteps(sid, START_STEPS[k]);
        var created := InsertStep(sid, START_STEPS[k], StepPending);
        if !created {
          StopsInserting(t, sid, script, k, 3);
          return false;
        }
        k := k + 1;
      }
      ok := true;
    }

    /** From the INSERT of the session to the spawning of the dispatch. */
    method CreateRegistration(sid: string, row: Session, ghost i: nat, ghost n: nat) returns (ok: bool)
      requires Valid()
      modifies this`traces, repo.db, repo.env
      ensures Valid() && Rest(sid) == old(Rest(sid))
      ensures ok ==> T.MayInsert(old(repo.db.Value()), sid, row)
      ensures ok ==> repo.db.Value() == Registered(old(repo.db.Value()), sid, row)
      ensures if T.MayInsert(old(repo.db.Value()), sid, row)
              then StartEnds(old(Here(sid, StartCall(row, StartPc.InsertSession))), i, n, sid, ok)
              else repo.db.Value() == old(repo.db.Value()) && Mem(sid) == old(Mem(sid))
      ensures var t := old(repo.db.Value());
              T.MayInsert(t, sid, row) && NoSteps(t, sid) && NoFailures(old(repo.env.script)) ==> ok
      ensures (repo.db.Value(), ok) == CreationOutcome(old(repo.db.Value()), sid, row, old(repo.env.script))
      ensures SameTrace(old(TraceOf(sid)), TraceOf(sid))
    {
      hide Valid, Rest, Mem, RunSolo, NoFailures, T.MayInsert, WithSteps, StepsInserted, From, CallAt, Head, Tail;
      ghost var script := repo.env.script;
      CallByCall(script);
      CallsFrom(script, 1);
      assert script == From(script, 0);
      NextSucceeds();
      SoloEnds(i, n);
      SoloNext(i, n, Here(sid, StartCall(row, StartPc.InsertSession)));
      var created := InsertSession(sid, row, i);
      if !created { return false; }
      ok := CreateStartSteps(sid, row, i, n);
      if !ok { return; }
      SoloNext(i, n, Here(sid, StartCall(row, SpawnDispatch)));
      var hashed := CallService(sid);
      if hashed.Err? { return false; }
      SetCreator(sid, n);
    }

    /** A refused Start is a run whose first lookup fails; the three checks of an
        accepted one all pass. */
    lemma StartRefused(sid: string, row: Session, i: nat, n: nat)
      ensures StartEnds(Solo(Mem(sid), StartCall(row, LookupEmail), [Err]), i, n, sid, false)
    {
      hide Mem, RunSolo;
      SoloNext(i, n, Solo(Mem(sid), StartCall(row, LookupEmail), [Err]));
      SoloEnds(i, n);
    }

    lemma StartPasses(m: Shared, row: Session, script: Script, i: nat, n: nat)
      ensures RunSolo(i, n, Solo(m, StartCall(row, LookupEmail), [Ok, Ok, Ok] + script))
              == RunSolo(i, n, Solo(m, StartCall(row, StartPc.InsertSession), script))
    {
      hide RunSolo;
      SoloNext(i, n, Solo(m, StartCall(row, LookupEmail), [Ok, Ok, Ok] + script));
      assert ([Ok, Ok, Ok] + script)[1..] == [Ok, Ok] + script;
      SoloNext(i, n, Solo(m, StartCall(row, LookupUsername), [Ok, Ok] + script));
      assert ([Ok, Ok] + script)[1..] == [Ok] + script;
      SoloNext(i, n, Solo(m, StartCall(row, CheckAvailability), [Ok] + script));
      assert ([Ok] + script)[1..] == script;
    }

    /** The remote services answer `emailTaken` and `usernameTaken`.  Whatever fails,
        the session's rows change as in a run of the state machine; `script` tells which. */
    method Start(sid: string, row: Session, emailTaken: bool, usernameTaken: bool, ghost i: nat, ghost n: nat)
      returns (outcome: StartOutcome, ghost script: Script)
      requires Valid()
      modifies this`traces, repo.db, repo.env
      ensures Valid() && Rest(sid) == old(Rest(sid))
      ensures StartEnds(Solo(old(Mem(sid)), StartCall(row, LookupEmail), script), i, n, sid, outcome.StartAccepted?)
      ensures var t := old(repo.db.Value());
              && (outcome.StartAccepted? ==> outcome.session == row && T.MayInsert(t, sid, row)
                                             && Clear(t, row, emailTaken, usernameTaken)
                                             && repo.db.Value() == Registered(t, sid, row))
              && (outcome.StartConflict? ==> ConflictFits(t, row, emailTaken, usernameTaken, outcome))
              && (outcome.StartConflict? || !T.MayInsert(t, sid, row) ==> repo.db.Value() == t)
              && (NoFailures(old(repo.env.script)) && NoSteps(t, sid) ==>
                    Answers(t, sid, row, emailTaken, usernameTaken, outcome))
      ensures (repo.db.Value(), outcome)
              == RegistrationOutcome(old(repo.db.Value()), sid, row, emailTaken, usernameTaken, old(repo.env.script))
      ensures SameTrace(old(TraceOf(sid)), TraceOf(sid))
    {
      hide Valid, Rest, Mem, RunSolo, NoFailures, T.Execute, WithSteps, CreationOutcome, LookupOutcome;
      StartRefused(sid, row, i, n);
      script := [Err];
      var conflict := LookupStartConflict(row, emailTaken, usernameTaken);
      if conflict.Some? { return conflict.value, script; }
      StartPasses(Mem(sid), row, repo.env.script, i, n);
      script := if T.MayInsert(repo.db.Value(), sid, row) then [Ok, Ok, Ok] + repo.env.script else [Err];
      var created := CreateRegistration(sid, row, i, n);
      outcome := if created then StartAccepted(row) else StartError;
    }

    // ----- Verification

    ghost predicate VerifyEnds(start: Solo, i: nat, n: nat, sid: string, answer: Option<SessionStatus>)
      reads this, repo.db
    {
      var end := RunSolo(i, n, start);
      end.mem == Mem(sid) && end.proc.VerifyCall? && end.proc.verify == VerifyDone(answer)
    }

    ghost method SetVerifier(sid: string, owner: nat)
      modifies this`traces
      ensures Rest(sid) == old(Rest(sid)) && (old(Valid()) ==> Valid())
      ensures Mem(sid) == old(Mem(sid)).(verifier := Some(owner))
    {
      traces := traces[sid := TraceOf(sid).(verifier := Some(owner))];
      assert traces - {sid} == old(traces) - {sid};
    }

    /** Creates the verification steps; the completion runs as its own process.  None is
        an error. */
    method VerifyEmail(sid: string, clientId: string, ghost i: nat, ghost n: nat)
      returns (answer: Option<SessionStatus>)
      requires Valid()
      modifies this`traces, repo.db, repo.env
      ensures Valid() && Rest(sid) == old(Rest(sid))
      ensures VerifyEnds(old(Here(sid, VerifyCall(clientId, ReadForVerify))), i, n, sid, answer)
      ensures (Mem(sid), answer) == VerifyOutcome(old(Mem(sid)), i, n, clientId, old(repo.env.script))
    {
      hide Valid, Rest, Mem, RunSolo, RunSync, VerifyOutcome, Logged, WroteSession;
      MemFacts(sid);
      VerifyRunsTo(Mem(sid), i, n, clientId, repo.env.script);
      ghost var p := VerifyCall(clientId, ReadForVerify);
      SoloNext(i, n, Here(sid, p));
      SoloEnds(i, n);
      var session := GetSession(sid);
      if session.None? || session.value.clientId != clientId { return None; }
      if session.value.status == Completed { return Some(Completed); }
      if session.value.status == InProgress {
        VerifyRunsSync(Mem(sid), i, n, p.(verify := VerifySync(Lock)), repo.env.script);
        var synced := SyncSessionStatus(sid, i);
        if !synced { return None; }
        SoloNext(i, n, Here(sid, p.(verify := RereadForVerify)));
        session := GetSession(sid);
        if session.None? { return None; }
      }
      if session.value.status != CodeSent { return None; }
      answer := BeginVerification(sid, p.(verify := InsertVerify), i, n);
    }

    method BeginVerification(sid: string, ghost p: Proc, ghost i: nat, ghost n: nat)
      returns (answer: Option<SessionStatus>)
      requires Valid() && p.VerifyCall? && p.verify == VerifyPc.InsertVerify
      modifies this`traces, repo.db, repo.env
      ensures Valid() && Rest(sid) == old(Rest(sid))
      ensures VerifyEnds(old(Here(sid, p)), i, n, sid, answer)
    {
      hide Valid, Rest, Mem, RunSolo, Logged, WroteSession;
      SoloNext(i, n, Here(sid, p));
      SoloEnds(i, n);
      var created := InsertStep(sid, VerifyEmailCode, StepInProgress);
      if !created { return None; }
      SetVerifier(sid, i);
      Observe(sid, VerifyInserted);
      answer := ContinueVerification(sid, p.(verify := VerifyPc.InsertActivate), i, n);
    }

    method ContinueVerification(sid: string, ghost p: Proc, ghost i: nat, ghost n: nat)
      returns (answer: Option<SessionStatus>)
      requires Valid() && p.VerifyCall? && p.verify == VerifyPc.InsertActivate
      modifies this`traces, repo.db, repo.env
      ensures Valid() && Rest(sid) == old(Rest(sid))
      ensures VerifyEnds(old(Here(sid, p)), i, n, sid, answer)
    {
      hide Valid, Rest, Mem, RunSolo, Logged, WroteSession;
      SoloNext(i, n, Here(sid, p));
      SoloEnds(i, n);
      var created := InsertStep(sid, ActivateUser, StepPending);
      if !created { return None; }
      answer := LaunchVerification(sid, p.(verify := SetVerifying), i, n);
    }

    method LaunchVerification(sid: string, ghost p: Proc, ghost i: nat, ghost n: nat)
      returns (answer: Option<SessionStatus>)
      requires Valid() && p.VerifyCall? && p.verify == SetVerifying
      modifies this`traces, repo.db, repo.env
      ensures Valid() && Rest(sid) == old(Rest(sid))
      ensures VerifyEnds(old(Here(sid, p)), i, n, sid, answer)
    {
      hide Valid, Rest, Mem, RunSolo, Logged, WroteSession;
      SoloNext(i, n, Here(sid, p));
      SoloEnds(i, n);
      var written := UpdateSession(sid, VerifyingEmail);
      if !written { return None; }
      SoloNext(i, n, Here(sid, p.(verify := Launch)));
      SetVerifier(sid, n);
      var _ := CallOut(sid, Launched, true);
      answer := Some(VerifyingEmail);
    }

    ghost predicate CompletionEnds(start: Solo, i: nat, n: nat, sid: string)
      reads this, repo.db
    {
      RunSolo(i, n, start).mem == Mem(sid)
    }

    /** A call to another service that is only observed when it succeeds. */
    method CallService(sid: string) returns (c: Choice)
      requires Valid()
      modifies repo.env
      ensures Valid() && Rest(sid) == old(Rest(sid)) && Mem(sid) == old(Mem(sid))
      ensures c == Head(old(repo.env.script)) && repo.env.script == Tail(old(repo.env.script))
    {
      c := repo.env.Call();
    }

    /** The goroutine that verifies the code, activates the user and completes. */
    method CompleteEmailVerification(sid: string, ghost i: nat, ghost n: nat)
      requires Valid()
      modifies this`traces, repo.db, repo.env
      ensures Valid() && Rest(sid) == old(Rest(sid))
      ensures CompletionEnds(old(Here(sid, Completion(CallVerify))), i, n, sid)
      ensures Mem(sid) == CompletionOutcome(old(Mem(sid)), i, old(repo.env.script)).0
    {
      hide Valid, Rest, Mem, RunSolo, CompletionOutcome, WroteStep, WroteSession, Logged;
      CompletionRunsTo(Mem(sid), i, n, repo.env.script);
      SoloNext(i, n, Here(sid, Completion(CallVerify)));
      var verified := CallOut(sid, CodeVerified, false);
      if verified.Err? {
        FailEmailVerification(sid, false, i, n);
        return;
      }
      SoloNext(i, n, Here(sid, Completion(MarkVerified)));
      var ok := UpdateStep(sid, VerifyEmailCode, StepCompleted);
      if !ok {
        FailEmailVerification(sid, false, i, n);
        return;
      }
      SoloNext(i, n, Here(sid, Completion(SetActivating)));
      ok := UpdateSession(sid, ActivatingUser);
      if !ok {
        FailEmailVerification(sid, true, i, n);
        return;
      }
      Activate(sid, i, n);
    }

    method Activate(sid: string, ghost i: nat, ghost n: nat)
      requires Valid()
      modifies this`traces, repo.db, repo.env
      ensures Valid() && Rest(sid) == old(Rest(sid))
      ensures CompletionEnds(old(Here(sid, Completion(MarkActivating))), i, n, sid)
    {
      hide Valid, Rest, Mem, RunSolo, WroteStep, WroteSession, Logged;
      SoloNext(i, n, Here(sid, Completion(MarkActivating)));
      var ok := UpdateStep(sid, ActivateUser, StepInProgress);
      if !ok {
        FailEmailVerification(sid, true, i, n);
        return;
      }
      SoloNext(i, n, Here(sid, Completion(CallActivate)));
      var activated := CallActivateUser(sid);
      if activated.Err? {
        FailEmailVerification(sid, true, i, n);
        return;
      }
      MarkActivatedUser(sid, i, n);
    }

    method MarkActivatedUser(sid: string, ghost i: nat, ghost n: nat)
      requires Valid()
      modifies this`traces, repo.db, repo.env
      ensures Valid() && Rest(sid) == old(Rest(sid))
      ensures CompletionEnds(old(Here(sid, Completion(MarkActivated))), i, n, sid)
    {
      hide Valid, Rest, Mem, RunSolo, WroteStep, WroteSession, Logged;
      SoloNext(i, n, Here(sid, Completion(MarkActivated)));
      var ok := UpdateStep(sid, ActivateUser, StepCompleted);
      if !ok {
        FailEmailVerification(sid, true, i, n);
        return;
      }
      Complete(sid, i, n);
    }

    method CallActivateUser(sid: string) returns (c: Choice)
      requires Valid()
      modifies this`traces, repo.env
      ensures Valid() && Rest(sid) == old(Rest(sid))
      ensures c == Head(old(repo.env.script)) && repo.env.script == Tail(old(repo.env.script))
      ensures var called := Logged(old(Mem(sid)), ActivateCalled);
              Mem(sid) == if c.Ok? then Logged(called, ActivateSucceeded) else called
    {
      c := repo.env.Call();
      Observe(sid, ActivateCalled);
      if c.Ok? { Observe(sid, ActivateSucceeded); }
    }

    method Complete(sid: string, ghost i: nat, ghost n: nat)
      requires Valid()
      modifies this`traces, repo.db, repo.env
      ensures Valid() && Rest(sid) == old(Rest(sid))
      ensures CompletionEnds(old(Here(sid, Completion(SetCompleted))), i, n, sid)
    {
      hide Valid, Rest, Mem, RunSolo, WroteSession, Logged;
      SoloNext(i, n, Here(sid, Completion(SetCompleted)));
      SoloEnds(i, n);
      var ok := UpdateSession(sid, Completed);
      if !ok {
        FailEmailVerification(sid, true, i, n);
        return;
      }
      SoloNext(i, n, Here(sid, Completion(PublishCompleted)));
      var _ := CallOut(sid, CompletedEvent, false);
    }

    /** Both writes and both deactivations are attempted, whatever fails. */
    method FailEmailVerification(sid: string, activate: bool, ghost i: nat, ghost n: nat)
      requires Valid()
      modifies this`traces, repo.db, repo.env
      ensures Valid() && Rest(sid) == old(Rest(sid))
      ensures CompletionEnds(old(Here(sid, Completion(FailVerification(activate)))), i, n, sid)
      ensures Mem(sid) == FailureOutcome(old(Mem(sid)), i, if activate then ActivateUser else VerifyEmailCode,
                                         old(repo.env.script))
    {
      hide Valid, Rest, Mem, RunSolo, FailureOutcome, WroteStep, WroteSession, Logged;
      FailureEnds(Mem(sid), i, n, activate, repo.env.script);
      SoloNext(i, n, Here(sid, Completion(FailVerification(activate))));
      var _ := UpdateStep(sid, if activate then ActivateUser else VerifyEmailCode, StepFailed);
      SoloNext(i, n, Here(sid, Completion(FailVerificationSession)));
      var _ := UpdateSession(sid, Failed);
      UndoVerification(sid, i, n);
    }

    method UndoVerification(sid: string, ghost i: nat, ghost n: nat)
      requires Valid()
      modifies this`traces, repo.env
      ensures Valid() && Rest(sid) == old(Rest(sid))
      ensures CompletionEnds(old(Here(sid, Completion(UndoUser))), i, n, sid)
    {
      hide Valid, Rest, Mem, RunSolo, Logged, SessionUser, StepStart, StepDispatch, StepHandler, StepVerify,
        StepStatusCall;
      SoloNext(i, n, Here(sid, Completion(UndoUser)));
      var _ := CallOut(sid, UserDeactivated(i, SessionUser(Mem(sid))), true);
      UndoRegistrationAuth(sid, i, n);
    }

    method UndoRegistrationAuth(sid: string, ghost i: nat, ghost n: nat)
      requires Valid()
      modifies this`traces, repo.env
      ensures Valid() && Rest(sid) == old(Rest(sid))
      ensures CompletionEnds(old(Here(sid, Completion(UndoAuth))), i, n, sid)
    {
      hide Valid, Rest, Mem, RunSolo, Logged, SessionUser, StepStart, StepDispatch, StepHandler, StepVerify,
        StepStatusCall;
      SoloNext(i, n, Here(sid, Completion(UndoAuth)));
      SoloEnds(i, n);
      var _ := CallOut(sid, AuthDeactivated(i, SessionUser(Mem(sid))), true);
      SoloNext(i, n, Here(sid, Completion(PublishVerificationFailed)));
      PublishFailure(sid, i);
    }

    // ----- Dispatch

    ghost predicate DispatchEnds(start: Solo, i: nat, n: nat, sid: string)
      reads this, repo.db
    {
      RunSolo(i, n, start).mem == Mem(sid)
    }

    ghost method Sent(sid: string, command: Result)
      requires command == UserResult || command == AuthResult
      modifies this`traces
      ensures Rest(sid) == old(Rest(sid)) && (old(Valid()) ==> Valid())
      ensures Mem(sid) == if command == UserResult then old(Mem(sid)).(userSent := true)
              else old(Mem(sid)).(authSent := true)
    {
      var x := TraceOf(sid);
      traces := traces[sid := if command == UserResult then x.(userSent := true) else x.(authSent := true)];
      assert traces - {sid} == old(traces) - {sid};
    }

    method DispatchStartCommands(sid: string, ghost i: nat, ghost n: nat)
      requires Valid()
      modifies this`traces, repo.db, repo.env
      ensures Valid() && Rest(sid) == old(Rest(sid))
      ensures DispatchEnds(old(Here(sid, Dispatch(MarkSession))), i, n, sid)
      ensures Mem(sid) == DispatchOutcome(old(Mem(sid)), old(repo.env.script))
    {
      hide Valid, Rest, Mem, RunSolo, DispatchOutcome, WroteStep, WroteSession;
      DispatchRunsTo(Mem(sid), i, n, repo.env.script);
      SoloNext(i, n, Here(sid, Dispatch(MarkSession)));
      SoloEnds(i, n);
      var ok := UpdateSession(sid, InProgress);
      if !ok { return; }
      SoloNext(i, n, Here(sid, Dispatch(MarkUser)));
      ok := UpdateStep(sid, UserCreateProfile, StepInProgress);
      if !ok { return; }
      SoloNext(i, n, Here(sid, Dispatch(MarkAuth)));
      ok := UpdateStep(sid, AuthCreatePending, StepInProgress);
      if !ok { return; }
      SendCommands(sid, i, n);
    }

    method SendCommands(sid: string, ghost i: nat, ghost n: nat)
      requires Valid()
      modifies this`traces, repo.db, repo.env
      ensures Valid() && Rest(sid) == old(Rest(sid))
      ensures DispatchEnds(old(Here(sid, Dispatch(SendUser))), i, n, sid)
    {
      hide Valid, Rest, Mem, RunSolo, WroteStep, WroteSession;
      SoloNext(i, n, Here(sid, Dispatch(SendUser)));
      SoloEnds(i, n);
      var c := CallService(sid);
      Sent(sid, UserResult);
      if c.Err? {
        FailStartStep(sid, UserResult, i, n);
        return;
      }
      SoloNext(i, n, Here(sid, Dispatch(SendAuth)));
      c := CallService(sid);
      Sent(sid, AuthResult);
      if c.Err? { FailStartStep(sid, AuthResult, i, n); }
    }

    method FailStartStep(sid: string, lost: Result, ghost i: nat, ghost n: nat)
      requires Valid()
      modifies this`traces, repo.db, repo.env
      ensures Valid() && Rest(sid) == old(Rest(sid))
      ensures DispatchEnds(old(Here(sid, Dispatch(FailStep(lost)))), i, n, sid)
      ensures Mem(sid) == StartFailure(old(Mem(sid)), match lost case UserResult => UserCreateProfile
                                       case AuthResult => AuthCreatePending case MailResult => MailSendCode,
                                       old(repo.env.script))
    {
      hide Valid, Rest, Mem, RunSolo, StartFailure, WroteStep, WroteSession;
      StartFailureEnds(Mem(sid), i, n, lost, repo.env.script);
      SoloNext(i, n, Here(sid, Dispatch(FailStep(lost))));
      SoloEnds(i, n);
      var written := UpdateStep(sid, lost.Key(), StepFailed);
      SoloNext(i, n, Here(sid, Dispatch(FailSession(lost, written))));
      var _ := UpdateSession(sid, Failed);
    }

    ghost predicate StatusEnds(start: Solo, i: nat, n: nat, sid: string, answer: Option<SessionStatus>)
      reads this, repo.db
    {
      var end := RunSolo(i, n, start);
      end.mem == Mem(sid) && end.proc.StatusCall? && end.proc.status == StatusDone(answer)
    }

    /** None is an error; `completed` is answered only by the caller that claims it. */
    method GetRegistrationStatus(sid: string, clientId: string, ghost i: nat, ghost n: nat)
      returns (answer: Option<SessionStatus>)
      requires Valid()
      modifies this`traces, repo.db, repo.env
      ensures Valid() && Rest(sid) == old(Rest(sid))
      ensures StatusEnds(old(Here(sid, StatusCall(clientId, ReadForStatus))), i, n, sid, answer)
      ensures var m, script := old(Mem(sid)), old(repo.env.script);
              if CallAt(script, 0).Err? || m.session.None? || m.session.value.clientId != clientId then
                answer == None && Mem(sid) == m
              else if m.session.value.status != Completed then
                answer == Some(m.session.value.status) && Mem(sid) == m
              else if CallAt(script, 1).Err? then answer == None && Mem(sid) == m
              else
                && answer == Some(Completed)
                && Mem(sid) == m.(session := Some(m.session.value.(status := TokensClaimed)),
                     log := m.log + [SessionWritten(TokensClaimed), TokenReturned])
    {
      hide Valid, Rest, Mem, RunSolo, Logged, WroteSession, UpdatedSession;
      StatusRunsTo(Mem(sid), i, n, clientId, repo.env.script);
      ghost var p := StatusCall(clientId, ReadForStatus);
      SoloNext(i, n, Here(sid, p));
      SoloEnds(i, n);
      var session := GetSession(sid);
      if session.None? || session.value.clientId != clientId { return None; }
      if session.value.status != Completed { return Some(session.value.status); }
      SoloNext(i, n, Here(sid, p.(status := Claim)));
      var claimed := ClaimCompleted(sid);
      if claimed.None? { return None; }
      answer := Some(if claimed.value then Completed else TokensClaimed);
    }

    method ClaimCompleted(sid: string) returns (claimed: Option<bool>)
      requires Valid()
      modifies this`traces, repo.db, repo.env
      ensures Valid() && Rest(sid) == old(Rest(sid)) && repo.env.script == Tail(old(repo.env.script))
      ensures claimed == if Head(old(repo.env.script)).Err? then None else Some(HasStatus(old(Mem(sid)), Completed))
      ensures Mem(sid) == if claimed == Some(true)
                          then Logged(WroteSession(old(Mem(sid)), TokensClaimed), TokenReturned) else old(Mem(sid))
    {
      hide T.Execute, T.Emitted, T.Replay, T.Unique, Elsewhere, StepsOf, UpdatedSession;
      ghost var t := repo.db.Value();
      claimed := repo.ClaimCompleted(sid);
      SessionWriteView(t, sid, TokensClaimed);
      if claimed == Some(true) { Observe(sid, SessionWritten(TokensClaimed)); Observe(sid, TokenReturned); }
    }
  }

  lemma InsertionPc(k: nat)
    requires k < 3
    ensures forall m: Shared, row: Session, i: nat, n: nat,
            c: Choice {:trigger Step(m, i, n, StartCall(row, START_PCS[k]), c)} ::
              Step(m, i, n, StartCall(row, START_PCS[k]), c)
              == Inserting(m, StartCall(row, START_PCS[k]), c, START_STEPS[k], START_PCS[k + 1])
    ensures !START_PCS[k].StartDone?
  {
  }
}
