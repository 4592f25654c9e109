/** Concrete families of runs. */
module SagaScenarios {
  // Two of them show why hypotheses of the positive results are needed: mail re-activation
  // breaks quiescent consistency, and a duplicate result drives a session that is being
  // verified back to `in_progress`.  In a third a registration succeeds.

  import opened Domain
  import opened Saga
  import opened SagaStructure
  import opened SagaVerification
  import opened SagaQuiescence
  import opened SagaLastWrite
  import opened SagaAgreement
  import opened SagaFalls
  import opened SagaClaims

  lemma Then(s0: State, events: seq<Event>, s: State, e: Event) returns (more: seq<Event>)
    requires After(s0, events) == s
    ensures After(s0, more) == Exec(s, e) && events <= more
  {
    hide Exec;
    AfterLast(s0, events, e);
    more := events + [e];
  }

  /** Process `i` takes a step that spawns nothing. */
  lemma Step1(s0: State, events: seq<Event>, m: Shared, procs: seq<Proc>, i: nat) returns (more: seq<Event>)
    requires After(s0, events) == State(m, procs) && i < |procs| && m.lock in {None, Some(i)}
    requires NeedsRowLock(procs[i]) ==> m.lock == None
    requires Step(m, i, |procs|, procs[i], Ok).spawned.None?
    ensures var v := Step(m, i, |procs|, procs[i], Ok); After(s0, more) == State(v.mem, procs[i := v.proc])
    ensures events <= more
  {
    hide Step, NeedsRowLock, After;
    more := Then(s0, events, State(m, procs), Run(i, Ok));
  }

  const PENDING: Steps :=
    map[UserCreateProfile := StepPending, AuthCreatePending := StepPending, MailSendCode := StepPending]

  function JustStarted(row: Session, realtime: bool): Shared {
    Shared(Some(row), PENDING, None, false, realtime, false, false, [], Some(1), None)
  }

  lemma StartCompletes(row: Session, realtime: bool) returns (events: seq<Event>)
    requires row.userId != "" && row.status == Started
    ensures After(Init(realtime), events)
            == State(JustStarted(row, realtime), [StartCall(row, StartDone(true)), Dispatch(MarkSession)])
  {
    hide After, NeedsRowLock;
    var s0 := Init(realtime);
    var m := s0.mem;
    events := [];
    AfterNothing(s0);
    events := Then(s0, events, s0, Spawn(StartCall(row, LookupEmail)));
    events := Step1(s0, events, m, [StartCall(row, LookupEmail)], 0);
    events := Step1(s0, events, m, [StartCall(row, LookupUsername)], 0);
    events := Step1(s0, events, m, [StartCall(row, CheckAvailability)], 0);
    events := Step1(s0, events, m, [StartCall(row, InsertSession)], 0);
    m := m.(session := Some(row), creator := Some(0));
    events := StartInserts3(s0, events, m, row);
    events := Then(s0, events, State(m.(steps := PENDING), [StartCall(row, SpawnDispatch)]), Run(0, Ok));
  }

  lemma AfterNothing(s: State)
    ensures After(s, []) == s
  {
  }

  lemma StartInserts3(s0: State, events: seq<Event>, m: Shared, row: Session) returns (more: seq<Event>)
    requires After(s0, events) == State(m, [StartCall(row, InsertUserStep)]) && m.steps == map[] && m.lock == None
    ensures After(s0, more) == State(m.(steps := PENDING), [StartCall(row, SpawnDispatch)])
  {
    hide After, NeedsRowLock;
    more := Step1(s0, events, m, [StartCall(row, InsertUserStep)], 0);
    var m1 := m.(steps := map[UserCreateProfile := StepPending]);
    more := Step1(s0, more, m1, [StartCall(row, InsertAuthStep)], 0);
    var m2 := m.(steps := map[UserCreateProfile := StepPending, AuthCreatePending := StepPending]);
    more := Step1(s0, more, m2, [StartCall(row, InsertMailStep)], 0);
  }

  const SENT: Steps :=
    map[UserCreateProfile := StepInProgress, AuthCreatePending := StepInProgress, MailSendCode := StepPending]

  /** After a dispatch that published both commands. */
  function Dispatched(row: Session, realtime: bool): Shared {
    Shared(Some(row.(status := InProgress)), SENT, None, false, realtime, true, true, [SessionWritten(InProgress)],
      Some(1), None)
  }

  function Callers(row: Session): seq<Proc> {
    [StartCall(row, StartDone(true)), Dispatch(DispatchDone(true, None))]
  }

  lemma DispatchCompletes(row: Session, realtime: bool) returns (events: seq<Event>)
    requires row.userId != "" && row.status == Started
    ensures After(Init(realtime), events) == State(Dispatched(row, realtime), Callers(row))
  {
    hide After, NeedsRowLock;
    var s0, caller, m := Init(realtime), StartCall(row, StartDone(true)), JustStarted(row, realtime);
    events := StartCompletes(row, realtime);
    events := Step1(s0, events, m, [caller, Dispatch(MarkSession)], 1);
    m := WroteSession(m, InProgress);
    events := Step1(s0, events, m, [caller, Dispatch(MarkUser)], 1);
    m := WroteStep(m, UserCreateProfile, StepInProgress);
    events := Step1(s0, events, m, [caller, Dispatch(MarkAuth)], 1);
    m := WroteStep(m, AuthCreatePending, StepInProgress);
    events := Step1(s0, events, m, [caller, Dispatch(SendUser)], 1);
    m := m.(userSent := true);
    events := Step1(s0, events, m, [caller, Dispatch(SendAuth)], 1);
    assert m.steps == SENT && m.(authSent := true) == Dispatched(row, realtime);
  }

  function MailFailure(pc: HandlerPc): Proc { Handler(MailResult, false, "", pc) }

  function AuthSuccess(pc: HandlerPc): Proc { Handler(AuthResult, true, "", pc) }

  /** The mail failure has been recorded; its compensation has yet to run. */
  function MailFailed(row: Session, realtime: bool): Shared {
    Dispatched(row, realtime).(steps := SENT[MailSendCode := StepFailed])
  }

  lemma MailFails(row: Session, realtime: bool) returns (events: seq<Event>)
    requires row.userId != "" && row.status == Started
    ensures After(Init(realtime), events)
            == State(MailFailed(row, realtime), Callers(row)
              + [MailFailure(DirectCompensate(ReadSession)), AuthSuccess(WriteStep)])
  {
    hide After, NeedsRowLock;
    var s0, m := Init(realtime), Dispatched(row, realtime);
    events := DispatchCompletes(row, realtime);
    events := Then(s0, events, State(m, Callers(row)), Spawn(MailFailure(WriteStep)));
    events := Step1(s0, events, m, Callers(row) + [MailFailure(WriteStep)], 2);
    var procs := Callers(row) + [MailFailure(DirectCompensate(ReadSession))];
    assert (Callers(row) + [MailFailure(WriteStep)])[2 := MailFailure(DirectCompensate(ReadSession))] == procs;
    events := Then(s0, events, State(MailFailed(row, realtime), procs), Spawn(AuthSuccess(WriteStep)));
    assert procs + [AuthSuccess(WriteStep)]
      == Callers(row) + [MailFailure(DirectCompensate(ReadSession)), AuthSuccess(WriteStep)];
  }

  const REVIVED: Steps :=
    map[UserCreateProfile := StepInProgress, AuthCreatePending := StepCompleted, MailSendCode := StepInProgress]

  function MailRevived(row: Session, realtime: bool): Shared {
    Dispatched(row, realtime).(steps := REVIVED,
      log := [SessionWritten(InProgress), SnapshotTaken(REVIVED), SessionWritten(InProgress)])
  }

  lemma RevivedAggregate()
    ensures Aggregate(REVIVED) == InProgress
  {
    assert REVIVED[UserCreateProfile] == StepInProgress;
  }

  lemma AuthRevives(row: Session, realtime: bool) returns (events: seq<Event>)
    requires row.userId != "" && row.status == Started
    ensures After(Init(realtime), events)
            == State(MailRevived(row, realtime), Callers(row)
              + [MailFailure(DirectCompensate(ReadSession)), AuthSuccess(HandlerDone(true))])
  {
    hide After, NeedsRowLock, Aggregate, Callers;
    var s0, m := Init(realtime), MailFailed(row, realtime);
    var waiting := Callers(row) + [MailFailure(DirectCompensate(ReadSession))];
    CallersLength(row);
    events := MailFails(row, realtime);
    assert Callers(row) + [MailFailure(DirectCompensate(ReadSession)), AuthSuccess(WriteStep)]
      == waiting + [AuthSuccess(WriteStep)];
    events := Step1(s0, events, m, waiting + [AuthSuccess(WriteStep)], 3);
    m := WroteStep(m, AuthCreatePending, StepCompleted);
    Replaced(waiting, AuthSuccess(WriteStep), AuthSuccess(ActivateMail));
    events := Step1(s0, events, m, waiting + [AuthSuccess(ActivateMail)], 3);
    m := WroteStep(m, MailSendCode, StepInProgress);
    assert m.steps == REVIVED;
    Replaced(waiting, AuthSuccess(ActivateMail), AuthSuccess(HandlerSync(Lock)));
    RevivedAggregate();
    events := Reconciles(s0, events, m, waiting, AuthSuccess(HandlerSync(Lock)));
    assert WroteSession(Logged(m, SnapshotTaken(REVIVED)), InProgress) == MailRevived(row, realtime);
    assert waiting + [AuthSuccess(HandlerDone(true))]
      == Callers(row) + [MailFailure(DirectCompensate(ReadSession)), AuthSuccess(HandlerDone(true))];
  }

  lemma CallersLength(row: Session)
    ensures |Callers(row)| == 2
  {
  }

  lemma Replaced(procs: seq<Proc>, p: Proc, q: Proc)
    ensures (procs + [p])[|procs| := q] == procs + [q]
  {
  }

  /** A handler's reconciliation, from its lock to its end, when no step has failed and
      there is nothing to notify. */
  lemma Reconciles(s0: State, events: seq<Event>, m: Shared, waiting: seq<Proc>, p: Proc) returns (more: seq<Event>)
    requires p.Handler? && p.handler == HandlerSync(Lock) && After(s0, events) == State(m, waiting + [p])
    requires m.lock == None && m.session.Some? && Aggregate(m.steps) != Failed
    requires Aggregate(m.steps) == InProgress || !m.realtime
    ensures After(s0, more)
            == State(WroteSession(Logged(m, SnapshotTaken(m.steps)), Aggregate(m.steps)), waiting
              + [p.(handler := HandlerDone(true))])
    ensures events <= more
  {
    hide After, NeedsRowLock, Aggregate;
    var i := |waiting|;
    SnapshotsUnlocked(p);
    more := Step1(s0, events, m, waiting + [p], i);
    Replaced(waiting, p, p.(handler := HandlerSync(Snapshot)));
    var locked := m.(lock := Some(i));
    more := Step1(s0, more, locked, waiting + [p.(handler := HandlerSync(Snapshot))], i);
    Replaced(waiting, p.(handler := HandlerSync(Snapshot)), p.(handler := HandlerSync(Commit(m.steps))));
    more := Commits(s0, more, Logged(locked, SnapshotTaken(m.steps)), waiting, p);
    assert Logged(locked, SnapshotTaken(m.steps)).(lock := None) == Logged(m, SnapshotTaken(m.steps));
  }

  lemma Commits(s0: State, events: seq<Event>, m: Shared, waiting: seq<Proc>, p: Proc) returns (more: seq<Event>)
    requires p.Handler? && After(s0, events) == State(m, waiting + [p.(handler := HandlerSync(Commit(m.steps)))])
    requires m.lock == Some(|waiting|) && m.session.Some? && Aggregate(m.steps) != Failed
    requires Aggregate(m.steps) == InProgress || !m.realtime
    ensures After(s0, more)
            == State(WroteSession(m.(lock := None), Aggregate(m.steps)), waiting + [p.(handler := HandlerDone(true))])
    ensures events <= more
  {
    hide After, NeedsRowLock, Aggregate;
    var i, q := |waiting|, p.(handler := HandlerSync(Commit(m.steps)));
    SnapshotsUnlocked(p);
    more := Step1(s0, events, m, waiting + [q], i);
    Replaced(waiting, q, p.(handler := ReadReady));
    var done := WroteSession(m.(lock := None), Aggregate(m.steps));
    more := Step1(s0, more, done, waiting + [p.(handler := ReadReady)], i);
    Replaced(waiting, p.(handler := ReadReady), p.(handler := HandlerDone(true)));
  }

  lemma SnapshotsUnlocked(p: Proc)
    requires p.Handler?
    ensures !NeedsRowLock(p.(handler := HandlerSync(Snapshot))) && !NeedsRowLock(p.(handler := ReadReady))
    ensures forall snapshot :: !NeedsRowLock(p.(handler := HandlerSync(Commit(snapshot))))
  {
  }

  /** With agreeing results, each handled once, an auth success handled between a mail
      failure and its compensation re-activates the failed mail step: when all handlers
      have settled the session is `failed` although the steps say `in_progress`. */
  lemma RevivedMailDisagrees(row: Session, realtime: bool) returns (events: seq<Event>)
    requires row.userId != "" && row.status == Started
    ensures var s := After(Init(realtime), events);
            && Settled(s.procs) && Agree(s.procs) && Live(s.mem) && VerifyEmailCode !in s.mem.steps
            && HasStatus(s.mem, Failed) && Aggregate(s.mem.steps) == InProgress
            && WrittenOver(realtime, events) != Failed
  {
    hide After, NeedsRowLock, Aggregate, WrittenOver;
    var s0, m := Init(realtime), MailRevived(row, realtime);
    events := AuthRevives(row, realtime);
    events := Step1(s0, events, m, Callers(row)
      + [MailFailure(DirectCompensate(ReadSession)), AuthSuccess(HandlerDone(true))], 2);
    events := Compensates(s0, events, m, row);
    RevivedAggregate();
    SettledAgreesIff(realtime, events);
  }

  lemma Compensates(s0: State, events: seq<Event>, m: Shared, row: Session) returns (more: seq<Event>)
    requires row.userId != "" && m.lock == None && m.session.Some? && m.session.value.userId == row.userId
    requires After(s0, events)
            == State(m, (Callers(row) + [MailFailure(DirectCompensate(ReadSession)), AuthSuccess(HandlerDone(true))])
                                           [2 := MailFailure(DirectCompensate(WriteFailed(row.userId)))])
    ensures var s := After(s0, more);
            && s.procs == Callers(row) + [MailFailure(HandlerDone(true)), AuthSuccess(HandlerDone(true))]
            && s.mem.steps == m.steps && s.mem.session == Some(m.session.value.(status := Failed))
  {
    hide After, NeedsRowLock, Callers;
    CallersLength(row);
    var end := AuthSuccess(HandlerDone(true));
    var uid := row.userId;
    var procs := Callers(row) + [MailFailure(DirectCompensate(WriteFailed(uid))), end];
    assert (Callers(row) + [MailFailure(DirectCompensate(ReadSession)), end])[2 :=
      MailFailure(DirectCompensate(WriteFailed(uid)))] == procs;
    more := Step1(s0, events, m, procs, 2);
    var m1 := WroteSession(m, Failed);
    var p1 := procs[2 := MailFailure(DirectCompensate(CompensatePc.DeactivateUser(uid)))];
    more := Step1(s0, more, m1, p1, 2);
    var m2 := Logged(m1, UserDeactivated(2, uid));
    var p2 := p1[2 := MailFailure(DirectCompensate(CompensatePc.DeactivateAuth(uid)))];
    more := Step1(s0, more, m2, p2, 2);
    var m3 := Logged(m2, AuthDeactivated(2, uid));
    var p3 := p2[2 := MailFailure(DirectCompensate(PublishFailed))];
    more := Step1(s0, more, m3, p3, 2);
    assert p3[2 := MailFailure(HandlerDone(true))] == Callers(row) + [MailFailure(HandlerDone(true)), end];
  }

  // ----- Successful registrations

  function UserSuccess(pc: HandlerPc): Proc { Handler(UserResult, true, "", pc) }

  function Reconciliation(m: Shared): Shared {
    WroteSession(Logged(m, SnapshotTaken(m.steps)), Aggregate(m.steps))
  }

  /** A user success, from its delivery to its end. */
  lemma UserHandled(s0: State, events: seq<Event>, m: Shared, procs: seq<Proc>) returns (more: seq<Event>)
    requires After(s0, events) == State(m, procs) && m.lock == None && m.session.Some? && m.userSent
    requires var steps := UpdatedStep(m.steps, UserCreateProfile, StepCompleted);
             Aggregate(steps) != Failed && (Aggregate(steps) == InProgress || !m.realtime)
    ensures After(s0, more)
            == State(Reconciliation(WroteStep(m, UserCreateProfile, StepCompleted)), procs
              + [UserSuccess(HandlerDone(true))])
    ensures events <= more
  {
    hide After, NeedsRowLock, Aggregate;
    more := Then(s0, events, State(m, procs), Spawn(UserSuccess(WriteStep)));
    more := Step1(s0, more, m, procs + [UserSuccess(WriteStep)], |procs|);
    Replaced(procs, UserSuccess(WriteStep), UserSuccess(HandlerSync(Lock)));
    more := Reconciles(s0, more, WroteStep(m, UserCreateProfile, StepCompleted), procs, UserSuccess(HandlerSync(Lock)));
  }

  /** An auth success, from its delivery to its end. */
  lemma AuthHandled(s0: State, events: seq<Event>, m: Shared, procs: seq<Proc>) returns (more: seq<Event>)
    requires After(s0, events) == State(m, procs) && m.lock == None && m.session.Some? && m.authSent && !m.realtime
    requires Aggregate(UpdatedStep(UpdatedStep(m.steps, AuthCreatePending, StepCompleted), MailSendCode,
            StepInProgress)) != Failed
    ensures After(s0, more)
            == State(Reconciliation(WroteStep(WroteStep(m, AuthCreatePending, StepCompleted), MailSendCode,
              StepInProgress)),
                     procs + [AuthSuccess(HandlerDone(true))])
    ensures events <= more
  {
    hide After, NeedsRowLock, Aggregate, UpdatedStep;
    more := Then(s0, events, State(m, procs), Spawn(AuthSuccess(WriteStep)));
    more := Step1(s0, more, m, procs + [AuthSuccess(WriteStep)], |procs|);
    Replaced(procs, AuthSuccess(WriteStep), AuthSuccess(ActivateMail));
    var m1 := WroteStep(m, AuthCreatePending, StepCompleted);
    more := Step1(s0, more, m1, procs + [AuthSuccess(ActivateMail)], |procs|);
    Replaced(procs, AuthSuccess(ActivateMail), AuthSuccess(HandlerSync(Lock)));
    more := Reconciles(s0, more, WroteStep(m1, MailSendCode, StepInProgress), procs, AuthSuccess(HandlerSync(Lock)));
  }

  function MailSuccess(pc: HandlerPc): Proc { Handler(MailResult, true, "", pc) }

  /** A mail success, from its delivery to its end. */
  lemma MailHandled(s0: State, events: seq<Event>, m: Shared, procs: seq<Proc>) returns (more: seq<Event>)
    requires After(s0, events) == State(m, procs) && m.lock == None && m.session.Some? && m.authSent && !m.realtime
    requires Aggregate(UpdatedStep(m.steps, MailSendCode, StepCompleted)) != Failed
    ensures After(s0, more)
            == State(Reconciliation(Logged(WroteStep(m, MailSendCode, StepCompleted), CodeSentEvent)), procs
              + [MailSuccess(HandlerDone(true))])
    ensures events <= more
  {
    hide After, NeedsRowLock, Aggregate, UpdatedStep;
    more := Then(s0, events, State(m, procs), Spawn(MailSuccess(WriteStep)));
    more := Step1(s0, more, m, procs + [MailSuccess(WriteStep)], |procs|);
    Replaced(procs, MailSuccess(WriteStep), MailSuccess(PublishCodeSent));
    var m1 := WroteStep(m, MailSendCode, StepCompleted);
    more := Step1(s0, more, m1, procs + [MailSuccess(PublishCodeSent)], |procs|);
    Replaced(procs, MailSuccess(PublishCodeSent), MailSuccess(HandlerSync(Lock)));
    more := Reconciles(s0, more, Logged(m1, CodeSentEvent), procs, MailSuccess(HandlerSync(Lock)));
  }

  const COMPLETED: Steps :=
    map[UserCreateProfile := StepCompleted, AuthCreatePending := StepCompleted, MailSendCode := StepCompleted]

  lemma AggregatesOnTheWay()
    ensures Aggregate(SENT[UserCreateProfile := StepCompleted]) == InProgress
    ensures Aggregate(REVIVED[UserCreateProfile := StepCompleted]) == InProgress
    ensures Aggregate(COMPLETED) == CodeSent
    ensures Aggregate(COMPLETED[VerifyEmailCode := StepInProgress][ActivateUser := StepPending]) == InProgress
  {
    assert SENT[UserCreateProfile := StepCompleted][MailSendCode] == StepPending;
    assert REVIVED[UserCreateProfile := StepCompleted][MailSendCode] == StepInProgress;
    assert COMPLETED[VerifyEmailCode := StepInProgress][ActivateUser := StepPending][ActivateUser] == StepPending;
  }

  /** All three results succeed: the session is `code_sent`. */
  lemma CodeIsSent(row: Session) returns (events: seq<Event>, m: Shared, procs: seq<Proc>)
    requires row.userId != "" && row.status == Started
    ensures After(Init(false), events) == State(m, procs) && m.lock == None && m.userSent && !m.realtime
    ensures m.session == Some(row.(status := CodeSent)) && m.steps == COMPLETED && |procs| == 5
    ensures procs
            == Callers(row)
            + [UserSuccess(HandlerDone(true)), AuthSuccess(HandlerDone(true)), MailSuccess(HandlerDone(true))]
  {
    hide After, NeedsRowLock, Aggregate;
    AggregatesOnTheWay();
    events := DispatchCompletes(row, false);
    m, procs := Dispatched(row, false), Callers(row);
    events := UserHandled(Init(false), events, m, procs);
    m, procs := Reconciliation(WroteStep(m, UserCreateProfile, StepCompleted)), procs
      + [UserSuccess(HandlerDone(true))];
    assert WroteStep(WroteStep(m, AuthCreatePending, StepCompleted), MailSendCode, StepInProgress).steps
      == REVIVED[UserCreateProfile := StepCompleted];
    events := AuthHandled(Init(false), events, m, procs);
    m, procs := Reconciliation(WroteStep(WroteStep(m, AuthCreatePending, StepCompleted), MailSendCode,
      StepInProgress)), procs + [AuthSuccess(HandlerDone(true))];
    assert WroteStep(m, MailSendCode, StepCompleted).steps == COMPLETED;
    events := MailHandled(Init(false), events, m, procs);
    m, procs := Reconciliation(Logged(WroteStep(m, MailSendCode, StepCompleted), CodeSentEvent)), procs
      + [MailSuccess(HandlerDone(true))];
  }

  /** Every registration can succeed: there is a run in which its verification is
      launched, its user activated and its tokens handed out. */
  lemma {:induction false} RegistrationSucceeds(row: Session) returns (events: seq<Event>)
    requires row.userId != "" && row.status == Started
    ensures var m := After(Init(false), events).mem;
            && HasStatus(m, TokensClaimed) && Count(m, TokenReturned) == 1
            && Count(m, VerifyInserted) == 1 && Launched in m.log && ActivateSucceeded in m.log
  {
    hide After, Count;
    var sent, m, procs := CodeIsSent(row);
    events := VerifiesAndClaims(false, sent);
    TokenClaimAtMostOnce(false, events);
    StatusJustifiesSteps(false, events);
  }

  // ----- A duplicate result during verification

  /** VerifyEmail, up to its status write. */
  lemma Verifies(s0: State, events: seq<Event>, m: Shared, procs: seq<Proc>) returns (more: seq<Event>, m': Shared)
    requires After(s0, events) == State(m, procs) && m.lock == None && m.session.Some? && HasStatus(m, CodeSent)
    requires m.steps == COMPLETED
    ensures After(s0, more) == State(m', procs + [VerifyCall(m.session.value.clientId, Launch)]) && events <= more
    ensures m'.session == Some(m.session.value.(status := VerifyingEmail)) && m'.lock == None
    ensures m'.steps == COMPLETED[VerifyEmailCode := StepInProgress][ActivateUser := StepPending]
    ensures m'.userSent == m.userSent && m'.realtime == m.realtime
  {
    hide After, NeedsRowLock;
    var i, id := |procs|, m.session.value.clientId;
    more := Then(s0, events, State(m, procs), Spawn(VerifyCall(id, ReadForVerify)));
    more := Step1(s0, more, m, procs + [VerifyCall(id, ReadForVerify)], i);
    Replaced(procs, VerifyCall(id, ReadForVerify), VerifyCall(id, InsertVerify));
    more := Step1(s0, more, m, procs + [VerifyCall(id, InsertVerify)], i);
    Replaced(procs, VerifyCall(id, InsertVerify), VerifyCall(id, InsertActivate));
    m' := Logged(m.(steps := m.steps[VerifyEmailCode := StepInProgress], verifier := Some(i)), VerifyInserted);
    more := Step1(s0, more, m', procs + [VerifyCall(id, InsertActivate)], i);
    Replaced(procs, VerifyCall(id, InsertActivate), VerifyCall(id, SetVerifying));
    m' := m'.(steps := m'.steps[ActivateUser := StepPending]);
    more := Step1(s0, more, m', procs + [VerifyCall(id, SetVerifying)], i);
    Replaced(procs, VerifyCall(id, SetVerifying), VerifyCall(id, Launch));
    m' := WroteSession(m', VerifyingEmail);
  }

  /** For every registration: a duplicate user success, handled without any failure after
      VerifyEmail has set `verifying_email`, moves the status back to `in_progress`. */
  lemma {:induction false} DuplicateRegresses(row: Session) returns (early: seq<Event>, late: seq<Event>)
    requires row.userId != "" && row.status == Started
    ensures early <= late
    ensures HasStatus(After(Init(false), early).mem, VerifyingEmail)
    ensures var s := After(Init(false), late);
            HasStatus(s.mem, InProgress) && Agree(s.procs) && Settled(s.procs) && !HasFailed(s.mem.steps)
    ensures exists t :: |early| <= t < |late| && Lowers(After(Init(false), late[..t]), late[t])
  {
    hide After, NeedsRowLock, Aggregate, Lowers;
    var events, m, procs := CodeIsSent(row);
    var m': Shared;
    early, m' := Verifies(Init(false), events, m, procs);
    AggregatesOnTheWay();
    assert UpdatedStep(m'.steps, UserCreateProfile, StepCompleted) == m'.steps;
    late := UserHandled(Init(false), early, m', procs + [VerifyCall(row.clientId, Launch)]);
    FallHasLowering(false, early, late);
  }
}
