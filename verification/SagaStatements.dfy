/** Every step of the saga runs at most one SQL statement, and changes the session's
    rows exactly as that statement does.  A step that waits for the session's row lock is
    one that takes it with SELECT ... FOR UPDATE, or one that updates the session row
    while it does not hold the lock itself. */
module SagaStatements {
  import opened Domain
  import opened Saga
  import opened SagaStructure
  import T = Tables

  function CompensateStatement(sid: string, pc: CompensatePc): Option<T.Statement> {
    if pc.WriteFailed? then Some(T.SetSessionStatus(sid, Failed)) else None
  }

  function SyncStatement(sid: string, pc: SyncPc): Option<T.Statement> {
    match pc
    case Commit(snapshot) => Some(T.SetSessionStatus(sid, Aggregate(snapshot)))
    case Compensate(comp) => CompensateStatement(sid, comp)
    case _ => None
  }

  function StartStatement(sid: string, row: Session, pc: StartPc): Option<T.Statement> {
    match pc
    case InsertSession => Some(T.InsertSession(sid, row))
    case InsertUserStep => Some(T.InsertStep(T.StepId(sid, UserCreateProfile), StepPending))
    case InsertAuthStep => Some(T.InsertStep(T.StepId(sid, AuthCreatePending), StepPending))
    case InsertMailStep => Some(T.InsertStep(T.StepId(sid, MailSendCode), StepPending))
    case _ => None
  }

  function DispatchStatement(sid: string, pc: DispatchPc): Option<T.Statement> {
    match pc
    case MarkSession => Some(T.SetSessionStatus(sid, InProgress))
    case MarkUser => Some(T.SetStepStatus(T.StepId(sid, UserCreateProfile), StepInProgress))
    case MarkAuth => Some(T.SetStepStatus(T.StepId(sid, AuthCreatePending), StepInProgress))
    case FailStep(lost) => Some(T.SetStepStatus(T.StepId(sid, lost.Key()), StepFailed))
    case FailSession(_, _) => Some(T.SetSessionStatus(sid, Failed))
    case _ => None
  }

  function HandlerStatement(sid: string, p: Proc): Option<T.Statement>
    requires p.Handler?
  {
    match p.handler
    case WriteStep =>
      Some(T.SetStepStatus(T.StepId(sid, p.result.Key()), if p.success then StepCompleted else StepFailed))
    case ActivateMail => Some(T.SetStepStatus(T.StepId(sid, MailSendCode), StepInProgress))
    case DirectCompensate(comp) => CompensateStatement(sid, comp)
    case HandlerSync(sync) => SyncStatement(sid, sync)
    case _ => None
  }

  function VerifyStatement(sid: string, pc: VerifyPc): Option<T.Statement> {
    match pc
    case VerifySync(sync) => SyncStatement(sid, sync)
    case InsertVerify => Some(T.InsertStep(T.StepId(sid, VerifyEmailCode), StepInProgress))
    case InsertActivate => Some(T.InsertStep(T.StepId(sid, ActivateUser), StepPending))
    case SetVerifying => Some(T.SetSessionStatus(sid, VerifyingEmail))
    case _ => None
  }

  function CompletionStatement(sid: string, pc: CompletionPc): Option<T.Statement> {
    match pc
    case MarkVerified => Some(T.SetStepStatus(T.StepId(sid, VerifyEmailCode), StepCompleted))
    case SetActivating => Some(T.SetSessionStatus(sid, ActivatingUser))
    case MarkActivating => Some(T.SetStepStatus(T.StepId(sid, ActivateUser), StepInProgress))
    case MarkActivated => Some(T.SetStepStatus(T.StepId(sid, ActivateUser), StepCompleted))
    case SetCompleted => Some(T.SetSessionStatus(sid, Completed))
    case FailVerification(activate) =>
      Some(T.SetStepStatus(T.StepId(sid, if activate then ActivateUser else VerifyEmailCode), StepFailed))
    case FailVerificationSession => Some(T.SetSessionStatus(sid, Failed))
    case _ => None
  }

  /** The statement at a process's control point. */
  function StatementAt(sid: string, p: Proc): Option<T.Statement> {
    match p
    case StartCall(row, pc) => StartStatement(sid, row, pc)
    case Dispatch(pc) => DispatchStatement(sid, pc)
    case Handler(_, _, _, _) => HandlerStatement(sid, p)
    case VerifyCall(_, pc) => VerifyStatement(sid, pc)
    case Completion(pc) => CompletionStatement(sid, pc)
    case StatusCall(_, pc) => if pc.Claim? then Some(T.SetSessionStatusIf(sid, TokensClaimed, Completed)) else None
  }

  /** The statement a step executes: none when the call fails. */
  function StatementOf(sid: string, p: Proc, c: Choice): Option<T.Statement> {
    if c.Err? then None else StatementAt(sid, p)
  }

  /** What a statement does to the rows of the session it is about; the unique indexes
      of the other sessions are the caller's business. */
  function LocalExecute(session: Option<Session>, steps: Steps, q: T.Statement): (Option<Session>, Steps) {
    match q
    case InsertSession(_, row) => (if session.None? then Some(row) else session, steps)
    case InsertStep(step, status) => (session, if step.key in steps then steps else steps[step.key := status])
    case SetSessionStatus(_, to) => (UpdatedSession(session, to), steps)
    case SetSessionStatusIf(_, to, from) =>
      (if session.Some? && session.value.status == from then UpdatedSession(session, to) else session, steps)
    case SetStepStatus(step, status) => (session, UpdatedStep(steps, step.key, status))
    case DeleteSession(_) => (None, steps)
    case DeleteStep(step) => (session, steps - {step.key})
  }

  /** The step leaves the rows that its statement leaves. */
  predicate Runs(m: Shared, m': Shared, q: Option<T.Statement>) {
    (m'.session, m'.steps) == if q.None? then (m.session, m.steps) else LocalExecute(m.session, m.steps, q.value)
  }

  lemma WritesRun(sid: string, m: Shared)
    ensures forall k, st :: Runs(m, WroteStep(m, k, st), Some(T.SetStepStatus(T.StepId(sid, k), st)))
    ensures forall st :: Runs(m, WroteSession(m, st), Some(T.SetSessionStatus(sid, st)))
    ensures forall e :: Runs(m, Logged(m, e), None)
    ensures forall e, e' :: Runs(m, Logged(Logged(m, e), e'), None)
    ensures Runs(m, m, None) && Runs(m, m.(userSent := true), None) && Runs(m, m.(authSent := true), None)
  {
  }

  lemma CompensateRuns(sid: string, m: Shared, i: nat, given: string, pc: CompensatePc, c: Choice)
    ensures Runs(m, StepCompensate(m, i, given, pc, c).0, if c.Err? then None else CompensateStatement(sid, pc))
  {
  }

  lemma SyncRuns(sid: string, m: Shared, i: nat, pc: SyncPc, c: Choice)
    ensures Runs(m, StepSync(m, i, pc, c).0, if c.Err? then None else SyncStatement(sid, pc))
  {
    hide StepCompensate, CompensateStatement, Aggregate;
    if pc.Compensate? { CompensateRuns(sid, m, i, "", pc.comp, c); }
  }

  lemma StartRuns(sid: string, m: Shared, i: nat, n: nat, p: Proc, c: Choice)
    requires p.StartCall?
    ensures Runs(m, StepStart(m, i, n, p, c).mem, if c.Err? then None else StartStatement(sid, p.row, p.start))
  {
    hide Runs;
    StartKinds(sid, m, i, n, p.row);
    InsertRuns(sid, m, UserCreateProfile, StepPending);
    InsertRuns(sid, m, AuthCreatePending, StepPending);
    InsertRuns(sid, m, MailSendCode, StepPending);
  }

  lemma StartKinds(sid: string, m: Shared, i: nat, n: nat, row: Session)
    ensures Runs(m, m, None) && Runs(m, m.(creator := Some(n)), None)
    ensures m.session.Some? ==> Runs(m, m, Some(T.InsertSession(sid, row)))
    ensures m.session.None? ==>
              Runs(m, m.(session := Some(row), creator := Some(i)), Some(T.InsertSession(sid, row)))
  {
  }

  lemma DispatchRuns(sid: string, m: Shared, p: Proc, c: Choice)
    requires p.Dispatch?
    ensures Runs(m, StepDispatch(m, p, c).mem, if c.Err? then None else DispatchStatement(sid, p.dispatch))
  {
    hide Runs, WroteStep, WroteSession;
    WritesRun(sid, m);
  }

  lemma HandlerRuns(sid: string, m: Shared, i: nat, p: Proc, c: Choice)
    requires p.Handler?
    ensures Runs(m, StepHandler(m, i, p, c).mem, if c.Err? then None else HandlerStatement(sid, p))
  {
    hide StepCompensate, StepSync, CompensateStatement, SyncStatement, UpdatedStep;
    match p.handler {
      case DirectCompensate(comp) => CompensateRuns(sid, m, i, p.userId, comp, c);
      case HandlerSync(sync) => SyncRuns(sid, m, i, sync, c);
      case _ =>
    }
  }

  lemma VerifyInserts(sid: string, m: Shared, i: nat)
    ensures VerifyEmailCode !in m.steps ==>
              Runs(m,
                   Logged(m.(steps := m.steps[VerifyEmailCode := StepInProgress], verifier := Some(i)), VerifyInserted),
                   Some(T.InsertStep(T.StepId(sid, VerifyEmailCode), StepInProgress)))
    ensures VerifyEmailCode in m.steps ==>
              Runs(m, m, Some(T.InsertStep(T.StepId(sid, VerifyEmailCode), StepInProgress)))
  {
  }

  lemma InsertRuns(sid: string, m: Shared, key: StepKey, status: StepStatus)
    ensures Runs(m, if key in m.steps then m else m.(steps := m.steps[key := status]),
                 Some(T.InsertStep(T.StepId(sid, key), status)))
  {
  }

  lemma LaunchRuns(m: Shared, n: nat)
    ensures Runs(m, Logged(m.(verifier := Some(n)), Launched), None)
  {
  }

  lemma VerifyRuns(sid: string, m: Shared, i: nat, n: nat, p: Proc, c: Choice)
    requires p.VerifyCall?
    ensures Runs(m, StepVerify(m, i, n, p, c).mem, if c.Err? then None else VerifyStatement(sid, p.verify))
  {
    hide StepSync, SyncStatement, Runs, WroteSession, Logged;
    WritesRun(sid, m);
    match p.verify {
      case InsertVerify => VerifyInserts(sid, m, i);
      case Launch => LaunchRuns(m, n);
      case InsertActivate => InsertRuns(sid, m, ActivateUser, StepPending);
      case _ =>
    }
    if p.verify.VerifySync? { SyncRuns(sid, m, i, p.verify.sync, c); }
  }

  lemma CompletionRuns(sid: string, m: Shared, i: nat, p: Proc, c: Choice)
    requires p.Completion?
    ensures Runs(m, StepCompletion(m, i, p, c).mem, if c.Err? then None else CompletionStatement(sid, p.completion))
  {
    hide Runs, WroteStep, WroteSession, Logged, SessionUser;
    WritesRun(sid, m);
  }

  lemma StatusRuns(sid: string, m: Shared, p: Proc, c: Choice)
    requires p.StatusCall?
    ensures Runs(m, StepStatusCall(m, p, c).mem, StatementOf(sid, p, c))
  {
  }

  lemma StepRuns(sid: string, m: Shared, i: nat, n: nat, p: Proc, c: Choice)
    ensures Runs(m, Step(m, i, n, p, c).mem, StatementOf(sid, p, c))
  {
    hide Runs, StartStatement, DispatchStatement, HandlerStatement, VerifyStatement, CompletionStatement, StepStart,
      StepDispatch, StepHandler, StepVerify, StepCompletion, StepStatusCall;
    match p {
      case StartCall(_, _) => StartRuns(sid, m, i, n, p, c);
      case Dispatch(_) => DispatchRuns(sid, m, p, c);
      case Handler(_, _, _, _) => HandlerRuns(sid, m, i, p, c);
      case VerifyCall(_, _) => VerifyRuns(sid, m, i, n, p, c);
      case Completion(_) => CompletionRuns(sid, m, i, p, c);
      case StatusCall(_, _) => StatusRuns(sid, m, p, c);
    }
  }

  /** The process is at a SELECT ... FOR UPDATE of the session row. */
  predicate Locking(p: Proc) {
    match p
    case Handler(_, _, _, HandlerSync(sync)) => sync.Lock?
    case VerifyCall(_, VerifySync(sync)) => sync.Lock?
    case _ => false
  }

  predicate UpdatesSession(q: Option<T.Statement>) {
    q.Some? && (q.value.SetSessionStatus? || q.value.SetSessionStatusIf?)
  }

  /** The steps that wait for the row lock are exactly those that take it, and the updates
      of the session row by processes that do not hold it. */
  lemma LockedStatements(sid: string, p: Proc)
    ensures NeedsRowLock(p) <==> Locking(p) || (UpdatesSession(StatementAt(sid, p)) && !HoldsLock(p))
  {
    hide Aggregate;
  }
}
