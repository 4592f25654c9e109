/** The registration saga of one session as a concurrent state machine.

    Every SQL statement, remote call and publication is one atomic step, and any
    number of service calls, result deliveries and goroutines run interleaved. */
module Saga {
  import opened Domain

  /** What the outside world, or an auditor of the database, can observe. */
  datatype Effect =
    | SnapshotTaken(steps: Steps)             // step rows read by ReconcileStatus
    | SessionWritten(status: SessionStatus)   // a session status committed
    | CodeSentEvent | CodeSentNotified
    | VerifyInserted                          // the verify step's row inserted
    | Launched                                // completeEmailVerification started
    | CodeVerified                            // auth-service accepted the code
    | ActivateCalled | ActivateSucceeded
    | CompletedEvent
    | FailedEvent(caller: nat, sent: bool)    // registration.failed published, or its publication failed
    | TokenReturned                           // GetRegistrationStatus answered `completed`
    | UserDeactivated(caller: nat, userId: string)
    | AuthDeactivated(caller: nat, userId: string)

  /** State shared by all processes of one session.  `lock` is the row lock that
      ReconcileStatus holds from its SELECT ... FOR UPDATE to its commit.
      `userSent` and `authSent` say that a command's publication was attempted.
      `creator` and `verifier` are auxiliary: no transition reads them.  They name the
      process whose INSERT created the session row, or the verify step row. */
  datatype Shared = Shared(
    session: Option<Session>,
    steps: Steps,
    lock: Option<nat>,
    notified: bool,
    realtime: bool,
    userSent: bool,
    authSent: bool,
    log: seq<Effect>,
    creator: Option<nat>,
    verifier: Option<nat>)

  datatype StartPc =
    | LookupEmail | LookupUsername | CheckAvailability
    | InsertSession | InsertUserStep | InsertAuthStep | InsertMailStep
    | SpawnDispatch | StartDone(ok: bool)

  datatype DispatchPc =
    | MarkSession | MarkUser | MarkAuth | SendUser | SendAuth
    | FailStep(lost: Result) | FailSession(lost: Result, stepWritten: bool)
    | DispatchDone(ok: bool, unsent: Option<Result>)   // `unsent`: the command whose publication failed

  /** compensateRegistrationFailure. */
  datatype CompensatePc =
    | ReadSession | WriteFailed(userId: string) | DeactivateUser(userId: string)
    | DeactivateAuth(userId: string) | PublishFailed

  /** syncSessionStatus through ReconcileStatus. */
  datatype SyncPc =
    | Lock | Snapshot | Commit(snapshot: Steps) | Compensate(comp: CompensatePc)

  datatype HandlerPc =
    | WriteStep | ActivateMail | PublishCodeSent
    | DirectCompensate(comp: CompensatePc)
    | HandlerSync(sync: SyncPc)
    | ReadReady | Notify | HandlerDone(ok: bool)

  datatype VerifyPc =
    | ReadForVerify | VerifySync(sync: SyncPc) | RereadForVerify
    | InsertVerify | InsertActivate | SetVerifying | Launch
    | VerifyDone(answer: Option<SessionStatus>)   // None is an error

  datatype CompletionPc =
    | CallVerify | MarkVerified | SetActivating | MarkActivating | CallActivate
    | MarkActivated | SetCompleted | PublishCompleted
    | FailVerification(activate: bool) | FailVerificationSession
    | UndoUser | UndoAuth | PublishVerificationFailed | CompletionDone(ok: bool)

  datatype StatusPc = ReadForStatus | Claim | StatusDone(answer: Option<SessionStatus>)

  /** The three result topics. */
  datatype Result = UserResult | AuthResult | MailResult {
    function Key(): StepKey {
      match this
      case UserResult => UserCreateProfile
      case AuthResult => AuthCreatePending
      case MailResult => MailSendCode
    }
  }

  datatype Proc =
    | StartCall(row: Session, start: StartPc)
    | Dispatch(dispatch: DispatchPc)
    | Handler(result: Result, success: bool, userId: string, handler: HandlerPc)
    | VerifyCall(clientId: string, verify: VerifyPc)
    | Completion(completion: CompletionPc)
    | StatusCall(clientId: string, status: StatusPc)

  datatype State = State(mem: Shared, procs: seq<Proc>)

  /** Whether the call made by a step succeeds. */
  datatype Choice = Ok | Err

  /** One event of a run: the environment starts a process, a process takes a
      step, or the broker redelivers a result whose handler returned an error. */
  datatype Event = Spawn(proc: Proc) | Run(i: nat, choice: Choice) | Redeliver(j: nat)

  /** Effect of one step: shared state, the process's next control point, and the
      goroutine it starts, if any. */
  datatype Move = Move(mem: Shared, proc: Proc, spawned: Option<Proc>)

  function Logged(m: Shared, e: Effect): Shared {
    m.(log := m.log + [e])
  }

  function WroteSession(m: Shared, status: SessionStatus): Shared {
    Logged(m.(session := UpdatedSession(m.session, status)), SessionWritten(status))
  }

  function WroteStep(m: Shared, key: StepKey, status: StepStatus): Shared {
    m.(steps := UpdatedStep(m.steps, key, status))
  }

  predicate HasStatus(m: Shared, status: SessionStatus) {
    m.session.Some? && m.session.value.status == status
  }

  // ----- Start and its dispatch goroutine

  function StepStart(m: Shared, i: nat, n: nat, p: Proc, c: Choice): Move
    requires p.StartCall?
  {
    var stop := Move(m, p.(start := StartDone(false)), None);
    match p.start
    case StartDone(_) => Move(m, p, None)
    case SpawnDispatch =>                   // after hashing the password
      if c.Err? then stop
      else Move(m.(creator := Some(n)), p.(start := StartDone(true)), Some(Dispatch(MarkSession)))
    case LookupEmail => if c.Err? then stop else Move(m, p.(start := LookupUsername), None)
    case LookupUsername => if c.Err? then stop else Move(m, p.(start := CheckAvailability), None)
    case CheckAvailability => if c.Err? then stop else Move(m, p.(start := InsertSession), None)
    case InsertSession =>
      if c.Err? || m.session.Some? then stop
      else Move(m.(session := Some(p.row), creator := Some(i)), p.(start := InsertUserStep), None)
    case InsertUserStep => Inserting(m, p, c, UserCreateProfile, InsertAuthStep)
    case InsertAuthStep => Inserting(m, p, c, AuthCreatePending, InsertMailStep)
    case InsertMailStep => Inserting(m, p, c, MailSendCode, SpawnDispatch)
  }

  function Inserting(m: Shared, p: Proc, c: Choice, key: StepKey, next: StartPc): Move
    requires p.StartCall?
  {
    if c.Err? || key in m.steps then Move(m, p.(start := StartDone(false)), None)
    else Move(m.(steps := m.steps[key := StepPending]), p.(start := next), None)
  }

  function StepDispatch(m: Shared, p: Proc, c: Choice): Move
    requires p.Dispatch?
  {
    match p.dispatch
    case MarkSession =>
      if c.Err? then Move(m, Dispatch(DispatchDone(false, None)), None)
      else Move(WroteSession(m, InProgress), Dispatch(MarkUser), None)
    case MarkUser =>
      if c.Err? then Move(m, Dispatch(DispatchDone(false, None)), None)
      else Move(WroteStep(m, UserCreateProfile, StepInProgress), Dispatch(MarkAuth), None)
    case MarkAuth =>
      if c.Err? then Move(m, Dispatch(DispatchDone(false, None)), None)
      else Move(WroteStep(m, AuthCreatePending, StepInProgress), Dispatch(SendUser), None)
    case SendUser =>
      Move(m.(userSent := true), Dispatch(if c.Err? then FailStep(UserResult) else SendAuth), None)
    case SendAuth =>
      Move(m.(authSent := true),
           Dispatch(if c.Err? then FailStep(AuthResult) else DispatchDone(true, None)), None)
    case FailStep(lost) =>
      Move(if c.Err? then m else WroteStep(m, lost.Key(), StepFailed), Dispatch(FailSession(lost, c.Ok?)), None)
    case FailSession(lost, stepWritten) =>
      if c.Err? then Move(m, Dispatch(DispatchDone(false, Some(lost))), None)
      else Move(WroteSession(m, Failed), Dispatch(DispatchDone(stepWritten, Some(lost))), None)
    case DispatchDone(_, _) => Move(m, p, None)
  }

  // ----- Shared procedures

  /** Where a called procedure stands after a step. */
  datatype Progress<+P> = At(pc: P) | Returned(ok: bool)

  function StepCompensate(m: Shared, i: nat, given: string, pc: CompensatePc, c: Choice)
    : (Shared, Progress<CompensatePc>)
  {
    match pc
    case ReadSession =>
      if c.Err? || m.session.None? then (m, Returned(false))
      else (m, At(WriteFailed(if given == "" then m.session.value.userId else given)))
    case WriteFailed(uid) =>
      if c.Err? then (m, Returned(false))
      else (WroteSession(m, Failed), At(if uid == "" then PublishFailed else DeactivateUser(uid)))
    case DeactivateUser(uid) => (Logged(m, UserDeactivated(i, uid)), At(DeactivateAuth(uid)))
    case DeactivateAuth(uid) => (Logged(m, AuthDeactivated(i, uid)), At(PublishFailed))
    case PublishFailed => (Logged(m, FailedEvent(i, c.Ok?)), Returned(true))
  }

  function StepSync(m: Shared, i: nat, pc: SyncPc, c: Choice): (Shared, Progress<SyncPc>) {
    match pc
    case Lock =>
      if c.Err? || m.session.None? then (m, Returned(false))
      else (m.(lock := Some(i)), At(Snapshot))
    case Snapshot =>
      if c.Err? then (m.(lock := None), Returned(false))
      else (Logged(m, SnapshotTaken(m.steps)), At(Commit(m.steps)))
    case Commit(snapshot) =>
      if c.Err? then (m.(lock := None), Returned(false))
      else
        var status := Aggregate(snapshot);
        (WroteSession(m.(lock := None), status),
         if status == Failed then At(Compensate(ReadSession)) else Returned(true))
    case Compensate(comp) =>
      var (m', next) := StepCompensate(m, i, "", comp, c);
      (m', match next case At(comp') => At(Compensate(comp')) case Returned(ok) => Returned(ok))
  }

  // ----- Result handlers

  function StepHandler(m: Shared, i: nat, p: Proc, c: Choice): Move
    requires p.Handler?
  {
    match p.handler
    case WriteStep =>
      if c.Err? then Move(m, p.(handler := HandlerDone(false)), None)
      else if !p.success then
        Move(WroteStep(m, p.result.Key(), StepFailed), p.(handler := DirectCompensate(ReadSession)), None)
      else
        Move(WroteStep(m, p.result.Key(), StepCompleted),
             p.(handler := match p.result
                           case UserResult => HandlerSync(Lock)
                           case AuthResult => ActivateMail
                           case MailResult => PublishCodeSent),
             None)
    case ActivateMail =>
      if c.Err? then Move(m, p.(handler := HandlerDone(false)), None)
      else Move(WroteStep(m, MailSendCode, StepInProgress), p.(handler := HandlerSync(Lock)), None)
    case PublishCodeSent =>
      if c.Err? then Move(m, p.(handler := HandlerDone(false)), None)
      else Move(Logged(m, CodeSentEvent), p.(handler := HandlerSync(Lock)), None)
    case DirectCompensate(comp) =>
      var (m', next) := StepCompensate(m, i, p.userId, comp, c);
      Move(m', p.(handler := match next
                             case At(comp') => DirectCompensate(comp')
                             case Returned(ok) => HandlerDone(ok)), None)
    case HandlerSync(sync) =>
      var (m', next) := StepSync(m, i, sync, c);
      Move(m', p.(handler := match next
                             case At(sync') => HandlerSync(sync')
                             case Returned(ok) => if ok then ReadReady else HandlerDone(false)), None)
    case ReadReady =>
      Move(m, p.(handler := if !m.realtime then HandlerDone(true)
                            else if c.Err? || m.session.None? then HandlerDone(false)
                            else if HasStatus(m, CodeSent) then Notify
                            else HandlerDone(true)), None)
    case Notify =>
      Move(if m.notified then m else Logged(m.(notified := true), CodeSentNotified),
           p.(handler := HandlerDone(true)), None)
    case HandlerDone(_) => Move(m, p, None)
  }

  // ----- VerifyEmail and its completion goroutine

  function StepVerify(m: Shared, i: nat, n: nat, p: Proc, c: Choice): Move
    requires p.VerifyCall?
  {
    var stop := Move(m, p.(verify := VerifyDone(None)), None);
    match p.verify
    case ReadForVerify =>
      if c.Err? || m.session.None? || m.session.value.clientId != p.clientId then stop
      else if HasStatus(m, Completed) then Move(m, p.(verify := VerifyDone(Some(Completed))), None)
      else if HasStatus(m, InProgress) then Move(m, p.(verify := VerifySync(Lock)), None)
      else if HasStatus(m, CodeSent) then Move(m, p.(verify := InsertVerify), None)
      else stop
    case VerifySync(sync) =>
      var (m', next) := StepSync(m, i, sync, c);
      Move(m', p.(verify := match next
                            case At(sync') => VerifySync(sync')
                            case Returned(ok) => if ok then RereadForVerify else VerifyDone(None)), None)
    case RereadForVerify =>
      if c.Err? || !HasStatus(m, CodeSent) then stop
      else Move(m, p.(verify := InsertVerify), None)
    case InsertVerify =>
      if c.Err? || VerifyEmailCode in m.steps then stop
      else Move(Logged(m.(steps := m.steps[VerifyEmailCode := StepInProgress], verifier := Some(i)), VerifyInserted),
                p.(verify := InsertActivate), None)
    case InsertActivate =>
      if c.Err? || ActivateUser in m.steps then stop
      else Move(m.(steps := m.steps[ActivateUser := StepPending]), p.(verify := SetVerifying), None)
    case SetVerifying =>
      if c.Err? then stop
      else Move(WroteSession(m, VerifyingEmail), p.(verify := Launch), None)
    case Launch =>
      Move(Logged(m.(verifier := Some(n)), Launched), p.(verify := VerifyDone(Some(VerifyingEmail))),
           Some(Completion(CallVerify)))
    case VerifyDone(_) => Move(m, p, None)
  }

  function StepCompletion(m: Shared, i: nat, p: Proc, c: Choice): Move
    requires p.Completion?
  {
    match p.completion
    case CallVerify =>
      if c.Err? then Move(m, Completion(FailVerification(false)), None)
      else Move(Logged(m, CodeVerified), Completion(MarkVerified), None)
    case MarkVerified =>
      if c.Err? then Move(m, Completion(FailVerification(false)), None)
      else Move(WroteStep(m, VerifyEmailCode, StepCompleted), Completion(SetActivating), None)
    case SetActivating =>
      if c.Err? then Move(m, Completion(FailVerification(true)), None)
      else Move(WroteSession(m, ActivatingUser), Completion(MarkActivating), None)
    case MarkActivating =>
      if c.Err? then Move(m, Completion(FailVerification(true)), None)
      else Move(WroteStep(m, ActivateUser, StepInProgress), Completion(CallActivate), None)
    case CallActivate =>
      var m' := Logged(m, ActivateCalled);
      if c.Err? then Move(m', Completion(FailVerification(true)), None)
      else Move(Logged(m', ActivateSucceeded), Completion(MarkActivated), None)
    case MarkActivated =>
      if c.Err? then Move(m, Completion(FailVerification(true)), None)
      else Move(WroteStep(m, ActivateUser, StepCompleted), Completion(SetCompleted), None)
    case SetCompleted =>
      if c.Err? then Move(m, Completion(FailVerification(true)), None)
      else Move(WroteSession(m, Completed), Completion(PublishCompleted), None)
    case PublishCompleted =>
      Move(if c.Err? then m else Logged(m, CompletedEvent), Completion(CompletionDone(true)), None)
    case FailVerification(activate) =>
      var key := if activate then ActivateUser else VerifyEmailCode;
      Move(if c.Err? then m else WroteStep(m, key, StepFailed), Completion(FailVerificationSession), None)
    case FailVerificationSession =>
      Move(if c.Err? then m else WroteSession(m, Failed), Completion(UndoUser), None)
    case UndoUser => Move(Logged(m, UserDeactivated(i, SessionUser(m))), Completion(UndoAuth), None)
    case UndoAuth =>
      Move(Logged(m, AuthDeactivated(i, SessionUser(m))), Completion(PublishVerificationFailed), None)
    case PublishVerificationFailed =>
      Move(Logged(m, FailedEvent(i, c.Ok?)), Completion(CompletionDone(false)), None)
    case CompletionDone(_) => Move(m, p, None)
  }

  function SessionUser(m: Shared): string {
    if m.session.Some? then m.session.value.userId else ""
  }

  // ----- GetRegistrationStatus

  function StepStatusCall(m: Shared, p: Proc, c: Choice): Move
    requires p.StatusCall?
  {
    match p.status
    case ReadForStatus =>
      if c.Err? || m.session.None? || m.session.value.clientId != p.clientId
      then Move(m, p.(status := StatusDone(None)), None)
      else Move(m, p.(status := if HasStatus(m, Completed) then Claim else StatusDone(Some(m.session.value.status))),
        None)
    case Claim =>
      if c.Err? then Move(m, p.(status := StatusDone(None)), None)
      else if HasStatus(m, Completed) then
        Move(Logged(WroteSession(m, TokensClaimed), TokenReturned), p.(status := StatusDone(Some(Completed))), None)
      else Move(m, p.(status := StatusDone(Some(TokensClaimed))), None)
    case StatusDone(_) => Move(m, p, None)
  }

  // ----- Scheduling

  /** A step of process `i`; a goroutine it starts becomes process `n`. */
  function Step(m: Shared, i: nat, n: nat, p: Proc, c: Choice): Move {
    match p
    case StartCall(_, _) => StepStart(m, i, n, p, c)
    case Dispatch(_) => StepDispatch(m, p, c)
    case Handler(_, _, _, _) => StepHandler(m, i, p, c)
    case VerifyCall(_, _) => StepVerify(m, i, n, p, c)
    case Completion(_) => StepCompletion(m, i, p, c)
    case StatusCall(_, _) => StepStatusCall(m, p, c)
  }

  predicate CompensateWrites(pc: CompensatePc) { pc.WriteFailed? }

  predicate SyncWrites(pc: SyncPc) {
    pc.Lock? || (pc.Compensate? && CompensateWrites(pc.comp))
  }

  /** Steps that need the session row's lock: every status update other than the
      commit of the reconciliation that already holds it. */
  predicate NeedsRowLock(p: Proc) {
    match p
    case StartCall(_, _) => false
    case Dispatch(pc) => pc.MarkSession? || pc.FailSession?
    case Handler(_, _, _, pc) =>
      || (pc.DirectCompensate? && CompensateWrites(pc.comp))
      || (pc.HandlerSync? && SyncWrites(pc.sync))
    case VerifyCall(_, pc) => pc.SetVerifying? || (pc.VerifySync? && SyncWrites(pc.sync))
    case Completion(pc) => pc.SetActivating? || pc.SetCompleted? || pc.FailVerificationSession?
    case StatusCall(_, pc) => pc.Claim?
  }

  /** A process the environment may start.  Results answer commands, so they exist
      only once the command's publication was attempted. */
  predicate MaySpawn(m: Shared, p: Proc) {
    match p
    case StartCall(row, pc) => pc == LookupEmail && row.userId != "" && row.status == Started
    case Handler(result, _, _, pc) =>
      pc == WriteStep && (if result == UserResult then m.userSent else m.authSent)
    case VerifyCall(_, pc) => pc == ReadForVerify
    case StatusCall(_, pc) => pc == ReadForStatus
    case Dispatch(_) => false
    case Completion(_) => false
  }

  predicate Enabled(s: State, e: Event) {
    match e
    case Spawn(p) => MaySpawn(s.mem, p)
    case Run(i, c) =>
      i < |s.procs| && (c.Ok? && NeedsRowLock(s.procs[i]) ==> s.mem.lock == None)
    case Redeliver(j) =>
      j < |s.procs| && s.procs[j].Handler? && s.procs[j].handler == HandlerDone(false)
  }

  /** Executes one event; an event that is not enabled changes nothing. */
  function Exec(s: State, e: Event): State {
    if !Enabled(s, e) then s
    else
      match e
      case Spawn(p) => State(s.mem, s.procs + [p])
      case Run(i, c) =>
        var move := Step(s.mem, i, |s.procs|, s.procs[i], c);
        var procs := s.procs[i := move.proc];
        State(move.mem, match move.spawned case None => procs case Some(q) => procs + [q])
      case Redeliver(j) =>
        State(s.mem, s.procs[j := s.procs[j].(handler := WriteStep)])
  }

  function Init(realtime: bool): State {
    State(Shared(None, map[], None, false, realtime, false, false, [], None, None), [])
  }

  /** The state after a sequence of events. */
  function After(s: State, events: seq<Event>): State {
    if events == [] then s
    else Exec(After(s, events[..|events| - 1]), events[|events| - 1])
  }

  lemma AfterLast(s: State, init: seq<Event>, e: Event)
    ensures After(s, init + [e]) == Exec(After(s, init), e)
  {
    hide Exec;
    assert (init + [e])[..|init|] == init;
  }

  /** Runs compose. */
  lemma {:induction false} AfterMore(s: State, first: seq<Event>, rest: seq<Event>)
    ensures After(s, first + rest) == After(After(s, first), rest)
  {
    hide Exec;
    if rest == [] {
      assert first + rest == first;
    } else {
      AfterMore(s, first, rest[..|rest| - 1]);
      assert (first + rest)[..|first + rest| - 1] == first + rest[..|rest| - 1];
    }
  }
}
