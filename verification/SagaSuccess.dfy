/** Runs in which every result is a success: the outcome is a function of the set of
    results alone, and the client hears `code_sent` exactly once. */
module SagaSuccess {
  import opened Domain
  import opened Saga
  import opened SagaStructure
  import opened SagaVerification
  import opened SagaProgress
  import opened SagaQuiescence
  import opened SagaAgreement

  /** No result reports a failure and no command was lost. */
  predicate AllSucceed(procs: seq<Proc>) {
    forall j :: 0 <= j < |procs| ==> Succeeds(procs[j])
  }

  predicate Succeeds(q: Proc) {
    VerdictOf(q).Some? ==> VerdictOf(q).value.success
  }

  predicate SyncGood(m: Shared, pc: SyncPc) {
    && !pc.Compensate?
    && (pc.Commit? ==>
          && !HasFailed(pc.snapshot)
          && (AllCompleted(pc.snapshot) ==> AllCompleted(m.steps))
          && (HasStatus(m, CodeSent) ==> AllCompleted(pc.snapshot)))
  }

  predicate PastWrite(pc: HandlerPc) {
    !pc.WriteStep? && pc != HandlerDone(false)
  }

  /** What a process has done to the step table still stands. */
  predicate Good(m: Shared, q: Proc) {
    match q
    case Handler(result, _, _, pc) =>
      && !pc.DirectCompensate?
      && (pc.ActivateMail? ==> result.AuthResult?)
      && (pc.HandlerSync? ==> SyncGood(m, pc.sync))
      && (PastWrite(pc) ==> HasStep(m, result.Key(), StepCompleted))
      && (PastWrite(pc) && result.AuthResult? && !pc.ActivateMail? ==> !HasStep(m, MailSendCode, StepPending))
      && (pc.Notify? ==> AllCompleted(m.steps))
    case VerifyCall(_, pc) => pc.VerifySync? ==> SyncGood(m, pc.sync)
    case Dispatch(pc) =>
      && (pc == DispatchDone(true, None) ==> Live(m))
      && (pc.MarkAuth? || pc.SendUser? || pc.SendAuth? || pc == DispatchDone(true, None) ==>
            !HasStep(m, UserCreateProfile, StepPending))
      && (pc.SendUser? || pc.SendAuth? || pc == DispatchDone(true, None) ==>
            !HasStep(m, AuthCreatePending, StepPending))
    case _ => true
  }

  predicate HasResult(procs: seq<Proc>, r: Result) {
    exists j :: 0 <= j < |procs| && IsResult(procs[j], r)
  }

  predicate IsResult(q: Proc, r: Result) {
    q.Handler? && q.result == r
  }

  /** A process that will still observe `code_sent` and notify. */
  predicate WillNotify(m: Shared, q: Proc) {
    q.Handler?
    && (Owes(q)
        || (Holding(q).Some? && AllCompleted(Holding(q).value))
        || ((q.handler.ReadReady? || q.handler.Notify?) && HasStatus(m, CodeSent)))
  }

  predicate SomeWillNotify(m: Shared, procs: seq<Proc>) {
    exists j :: 0 <= j < |procs| && WillNotify(m, procs[j])
  }

  predicate TableExplained(m: Shared, procs: seq<Proc>) {
    && !HasFailed(m.steps) && !HasStatus(m, Failed)
    && (forall r: Result :: HasStep(m, r.Key(), StepCompleted) ==> HasResult(procs, r))
    && (HasStep(m, MailSendCode, StepInProgress) ==> HasResult(procs, AuthResult))
    && (Live(m) ==> exists j :: 0 <= j < |procs| && procs[j].Dispatch?)
  }

  predicate NoticeExplained(m: Shared, procs: seq<Proc>) {
    && (HasStatus(m, CodeSent) || m.notified ==> AllCompleted(m.steps))
    && (m.notified ==> Live(m))
    && (AllCompleted(m.steps) && Live(m) && m.realtime && !m.notified ==> SomeWillNotify(m, procs))
  }

  predicate Succeeding(s: State) {
    AllSucceed(s.procs) && VerifyEmailCode !in s.mem.steps ==>
      && (forall j :: 0 <= j < |s.procs| ==> Good(s.mem, s.procs[j]))
      && TableExplained(s.mem, s.procs)
      && NoticeExplained(s.mem, s.procs)
  }

  // ----- What steps do to the table in a success-only run

  /** Rows stay, completed rows stay completed, nothing fails, nothing new appears. */
  predicate Forward(m: Shared, m': Shared) {
    && Advanced(m.steps, m'.steps)
    && !HasFailed(m'.steps)
    && (Live(m) ==> forall k :: k in m'.steps ==> k in m.steps)
  }

  lemma ForwardKeeps(m: Shared, m': Shared)
    requires Forward(m, m') && !HasFailed(m.steps)
    ensures forall k :: HasStep(m, k, StepCompleted) ==> HasStep(m', k, StepCompleted)
    ensures forall k :: k in m.steps && !HasStep(m, k, StepPending) ==> !HasStep(m', k, StepPending)
    ensures Live(m) && AllCompleted(m.steps) ==> AllCompleted(m'.steps)
  {
    forall k | k in m.steps && !HasStep(m, k, StepPending) ensures !HasStep(m', k, StepPending) {
      assert Rank(m.steps[k]) <= Rank(m'.steps[k]);
    }
  }

  /** Changing the session status takes the row lock. */
  lemma SessionWriteTakesLock(m: Shared, i: nat, n: nat, p: Proc, c: Choice)
    requires Placed(m, i, p) && (c.Ok? && NeedsRowLock(p) ==> m.lock == None)
    ensures var m' := Step(m, i, n, p, c).mem;
            m'.session == m.session || m.session.None? || m.lock == None || m.lock == Some(i)
  {
    hide StepStart, StepDispatch, StepHandler, StepVerify, StepCompletion, StepStatusCall, Placed;
    if !NeedsRowLock(p) || c.Err? {
      match p {
        case StartCall(_, _) => StartWriteTakesLock(m, i, n, p, c);
        case Dispatch(_) => DispatchWriteTakesLock(m, p, c);
        case Handler(_, _, _, _) => HandlerWriteTakesLock(m, i, p, c);
        case VerifyCall(_, _) => VerifyWriteTakesLock(m, i, n, p, c);
        case Completion(_) => CompletionWriteTakesLock(m, i, p, c);
        case StatusCall(_, _) => StatusWriteTakesLock(m, p, c);
      }
    }
  }

  lemma StartWriteTakesLock(m: Shared, i: nat, n: nat, p: Proc, c: Choice)
    requires p.StartCall?
    ensures var m' := StepStart(m, i, n, p, c).mem; m'.session == m.session || m.session.None?
  {
  }

  lemma DispatchWriteTakesLock(m: Shared, p: Proc, c: Choice)
    requires p.Dispatch? && (!NeedsRowLock(p) || c.Err?)
    ensures StepDispatch(m, p, c).mem.session == m.session
  {
  }

  lemma CompensateWriteTakesLock(m: Shared, i: nat, given: string, pc: CompensatePc, c: Choice)
    requires !CompensateWrites(pc) || c.Err?
    ensures StepCompensate(m, i, given, pc, c).0.session == m.session
  {
  }

  lemma SyncWriteTakesLock(m: Shared, i: nat, pc: SyncPc, c: Choice)
    requires !SyncWrites(pc) || c.Err?
    ensures StepSync(m, i, pc, c).0.session == m.session || pc.Commit?
  {
    hide StepCompensate;
    if pc.Compensate? { CompensateWriteTakesLock(m, i, "", pc.comp, c); }
  }

  lemma HandlerWriteTakesLock(m: Shared, i: nat, p: Proc, c: Choice)
    requires p.Handler? && (!NeedsRowLock(p) || c.Err?) && Placed(m, i, p)
    ensures StepHandler(m, i, p, c).mem.session == m.session || m.lock == Some(i)
  {
    hide StepCompensate, StepSync;
    match p.handler {
      case DirectCompensate(comp) => CompensateWriteTakesLock(m, i, p.userId, comp, c);
      case HandlerSync(sync) => SyncWriteTakesLock(m, i, sync, c);
      case _ =>
    }
  }

  lemma VerifyWriteTakesLock(m: Shared, i: nat, n: nat, p: Proc, c: Choice)
    requires p.VerifyCall? && (!NeedsRowLock(p) || c.Err?) && Placed(m, i, p)
    ensures StepVerify(m, i, n, p, c).mem.session == m.session || m.lock == Some(i)
  {
    hide StepSync;
    if p.verify.VerifySync? { SyncWriteTakesLock(m, i, p.verify.sync, c); }
  }

  lemma CompletionWriteTakesLock(m: Shared, i: nat, p: Proc, c: Choice)
    requires p.Completion? && (!NeedsRowLock(p) || c.Err?)
    ensures StepCompletion(m, i, p, c).mem.session == m.session
  {
    hide WroteSession, WroteStep, Logged, SessionUser;
    SessionStays(m);
  }

  lemma SessionStays(m: Shared)
    ensures forall k, st :: WroteStep(m, k, st).session == m.session
    ensures forall e :: Logged(m, e).session == m.session
    ensures forall e, e' :: Logged(Logged(m, e), e').session == m.session
  {
  }

  lemma StatusWriteTakesLock(m: Shared, p: Proc, c: Choice)
    requires p.StatusCall? && (!NeedsRowLock(p) || c.Err?)
    ensures StepStatusCall(m, p, c).mem.session == m.session
  {
  }

  /** Without failures nobody writes `failed`. */
  lemma NoFailedWrite(m: Shared, i: nat, n: nat, p: Proc, c: Choice)
    requires Good(m, p) && Succeeds(p) && !p.Completion? && Placed(m, i, p)
    ensures var m' := Step(m, i, n, p, c).mem; m'.session == m.session || !HasStatus(m', Failed)
  {
    hide StepStart, StepDispatch, StepHandler, StepVerify, StepStatusCall;
    match p {
      case StartCall(_, _) => StartNotFailed(m, i, n, p, c);
      case Dispatch(_) => DispatchNotFailed(m, p, c);
      case Handler(_, _, _, _) => HandlerNotFailed(m, i, p, c);
      case VerifyCall(_, _) => VerifyNotFailed(m, i, n, p, c);
      case StatusCall(_, _) => StatusNotFailed(m, p, c);
    }
  }

  lemma StartNotFailed(m: Shared, i: nat, n: nat, p: Proc, c: Choice)
    requires p.StartCall? && (p.start.InsertSession? ==> p.row.status == Started)
    ensures var m' := StepStart(m, i, n, p, c).mem; m'.session == m.session || !HasStatus(m', Failed)
  {
  }

  lemma DispatchNotFailed(m: Shared, p: Proc, c: Choice)
    requires p.Dispatch? && Succeeds(p)
    ensures var m' := StepDispatch(m, p, c).mem; m'.session == m.session || !HasStatus(m', Failed)
  {
  }

  lemma SyncNotFailed(m: Shared, i: nat, pc: SyncPc, c: Choice)
    requires SyncGood(m, pc)
    ensures var (m', next) := StepSync(m, i, pc, c);
            && (m'.session == m.session || !HasStatus(m', Failed))
            && (next.At? ==> !next.pc.Compensate?)
  {
    hide HasFailed, AllCompleted;
  }

  lemma HandlerNotFailed(m: Shared, i: nat, p: Proc, c: Choice)
    requires p.Handler? && Good(m, p)
    ensures var m' := StepHandler(m, i, p, c).mem; m'.session == m.session || !HasStatus(m', Failed)
  {
    hide StepSync, StepCompensate, SyncGood, UpdatedStep;
    if p.handler.HandlerSync? { SyncNotFailed(m, i, p.handler.sync, c); }
  }

  lemma VerifyNotFailed(m: Shared, i: nat, n: nat, p: Proc, c: Choice)
    requires p.VerifyCall? && Good(m, p)
    ensures var m' := StepVerify(m, i, n, p, c).mem; m'.session == m.session || !HasStatus(m', Failed)
  {
    hide StepSync, SyncGood;
    if p.verify.VerifySync? { SyncNotFailed(m, i, p.verify.sync, c); }
  }

  lemma StatusNotFailed(m: Shared, p: Proc, c: Choice)
    requires p.StatusCall?
    ensures var m' := StepStatusCall(m, p, c).mem; m'.session == m.session || !HasStatus(m', Failed)
  {
  }

  // ----- A process keeps what it has achieved

  predicate Ground(m: Shared, v: Move) {
    && Forward(m, v.mem) && !HasFailed(m.steps)
    && (HasStatus(m, CodeSent) ==> AllCompleted(m.steps))
    && HasInitialSteps(m.steps) && Live(m)
  }

  lemma SyncStaysGood(m: Shared, i: nat, pc: SyncPc, c: Choice)
    requires SyncGood(m, pc) && !HasFailed(m.steps) && (HasStatus(m, CodeSent) ==> AllCompleted(m.steps))
    ensures var (m', next) := StepSync(m, i, pc, c);
            m'.steps == m.steps && (next.At? ==> SyncGood(m', next.pc))
  {
    hide HasFailed, AllCompleted;
    SyncNotFailed(m, i, pc, c);
  }

  lemma HandlerStaysGood(m: Shared, i: nat, p: Proc, c: Choice)
    requires p.Handler? && Good(m, p) && Succeeds(p) && Ground(m, StepHandler(m, i, p, c))
    ensures Good(StepHandler(m, i, p, c).mem, StepHandler(m, i, p, c).proc)
  {
    var v := StepHandler(m, i, p, c);
    ForwardKeeps(m, v.mem);
    hide StepSync, StepCompensate, SyncGood, Forward, AllCompleted, HasFailed;
    match p.handler {
      case HandlerSync(sync) =>
        SyncStaysGood(m, i, sync, c);
        var (m', next) := StepSync(m, i, sync, c);
        if next.At? { assert v.proc.handler == HandlerSync(next.pc); }
      case WriteStep => assert SyncGood(v.mem, Lock) by { LockGood(v.mem); }
      case ActivateMail => assert SyncGood(v.mem, Lock) by { LockGood(v.mem); }
      case PublishCodeSent => assert SyncGood(v.mem, Lock) by { LockGood(v.mem); }
      case _ =>
    }
  }

  lemma LockGood(m: Shared)
    ensures SyncGood(m, Lock)
  {
  }

  lemma VerifyStaysGood(m: Shared, i: nat, n: nat, p: Proc, c: Choice)
    requires p.VerifyCall? && Good(m, p)
    requires p.verify.VerifySync? ==> Ground(m, StepVerify(m, i, n, p, c))
    ensures Good(StepVerify(m, i, n, p, c).mem, StepVerify(m, i, n, p, c).proc)
  {
    var v := StepVerify(m, i, n, p, c);
    hide StepSync, SyncGood, Forward, AllCompleted, HasFailed;
    LockGood(v.mem);
    if p.verify.VerifySync? {
      SyncStaysGood(m, i, p.verify.sync, c);
      var (m', next) := StepSync(m, i, p.verify.sync, c);
      if next.At? { assert v.proc.verify == VerifySync(next.pc); }
    }
  }

  lemma DispatchStaysGood(m: Shared, i: nat, p: Proc, c: Choice)
    requires p.Dispatch? && Good(m, p) && Succeeds(p) && CalmAt(m, p) && Placed(m, i, p)
    requires !p.dispatch.MarkSession? ==> Ground(m, StepDispatch(m, p, c)) || StepDispatch(m, p, c).mem == m
    ensures Good(StepDispatch(m, p, c).mem, StepDispatch(m, p, c).proc)
  {
    hide AllCompleted, HasFailed, Calm;
    if Ground(m, StepDispatch(m, p, c)) { ForwardKeeps(m, StepDispatch(m, p, c).mem); }
  }

  lemma GoodLasts(m: Shared, m': Shared, j: nat, q: Proc)
    requires Good(m, q) && Forward(m, m') && !HasFailed(m.steps)
    requires Grounded(m) && Placed(m, j, q) && (Live(m) ==> Live(m'))
    requires Holding(q).Some? ==> m'.session == m.session
    ensures Good(m', q)
  {
    ForwardKeeps(m, m');
    hide Forward, AllCompleted, HasFailed;
  }

  lemma LiveLasts(m: Shared, i: nat, n: nat, p: Proc, c: Choice)
    requires Grounded(m) && Placed(m, i, p) && i < n && m.lock != Some(n)
    requires c.Ok? && NeedsRowLock(p) ==> m.lock == None
    ensures Live(m) ==> Live(Step(m, i, n, p, c).mem)
    ensures Grounded(Step(m, i, n, p, c).mem)
  {
    hide Step, Grounded, Placed, NeedsRowLock;
    StepFine(m, i, n, p, c);
  }

  /** Only the dispatch's first write makes a session live, with all steps pending. */
  lemma LiveByDispatch(m: Shared, i: nat, n: nat, p: Proc, c: Choice)
    requires Grounded(m) && Placed(m, i, p) && !Live(m) && Live(Step(m, i, n, p, c).mem)
    ensures p.Dispatch? && Step(m, i, n, p, c).proc.Dispatch?
    ensures !AllCompleted(Step(m, i, n, p, c).mem.steps)
  {
    hide StepDispatch, StepStart, StepVerify, StepStatusCall;
    match p {
      case Dispatch(_) => DispatchMakesLive(m, i, p, c);
      case StartCall(_, _) => StartMakesNoneLive(m, i, n, p, c);
      case VerifyCall(_, _) => ReadMakesNoneLive(m, i, n, p, c);
      case StatusCall(_, _) => StatusMakesNoneLive(m, i, p, c);
      case _ =>
    }
  }

  lemma DispatchMakesLive(m: Shared, i: nat, p: Proc, c: Choice)
    requires p.Dispatch? && Placed(m, i, p) && !Live(m) && Live(StepDispatch(m, p, c).mem)
    ensures StepDispatch(m, p, c).proc.Dispatch? && !AllCompleted(StepDispatch(m, p, c).mem.steps)
  {
    assert p.dispatch.MarkSession?;
    assert m.steps[UserCreateProfile] == StepPending;
  }

  lemma StartMakesNoneLive(m: Shared, i: nat, n: nat, p: Proc, c: Choice)
    requires p.StartCall? && Placed(m, i, p) && !Live(m)
    ensures !Live(StepStart(m, i, n, p, c).mem)
  {
  }

  lemma ReadMakesNoneLive(m: Shared, i: nat, n: nat, p: Proc, c: Choice)
    requires p.VerifyCall? && Placed(m, i, p) && !Live(m)
    ensures !Live(StepVerify(m, i, n, p, c).mem)
  {
  }

  lemma StatusMakesNoneLive(m: Shared, i: nat, p: Proc, c: Choice)
    requires p.StatusCall? && Placed(m, i, p) && !Live(m)
    ensures !Live(StepStatusCall(m, p, c).mem)
  {
  }

  // ----- Every completed row has its result

  /** A row newly completed, or a mail row newly in progress, is the acting handler's. */
  predicate Attributed(m: Shared, v: Move) {
    && (forall r: Result :: HasStep(v.mem, r.Key(), StepCompleted) ==>
          HasStep(m, r.Key(), StepCompleted) || IsResult(v.proc, r))
    && (HasStep(v.mem, MailSendCode, StepInProgress) ==>
          HasStep(m, MailSendCode, StepInProgress) || IsResult(v.proc, AuthResult))
  }

  lemma SameStepsAttributed(m: Shared, v: Move)
    requires v.mem.steps == m.steps
    ensures Attributed(m, v)
  {
  }

  lemma WriteAttributed(m: Shared, v: Move, key: StepKey, status: StepStatus)
    requires v.mem == WroteStep(m, key, status)
    requires status == StepCompleted ==> v.proc.Handler? && v.proc.result.Key() == key
    requires status == StepInProgress && key == MailSendCode ==> IsResult(v.proc, AuthResult)
    ensures Attributed(m, v)
  {
  }

  lemma InsertAttributed(m: Shared, v: Move, key: StepKey, status: StepStatus)
    requires v.mem.steps == m.steps[key := status] && (status == StepInProgress ==> key == VerifyEmailCode)
    requires status != StepCompleted
    ensures Attributed(m, v)
  {
  }

  lemma HandlerAttributed(m: Shared, i: nat, p: Proc, c: Choice)
    requires p.Handler? && Good(m, p) && Succeeds(p)
    ensures Attributed(m, StepHandler(m, i, p, c))
  {
    var v := StepHandler(m, i, p, c);
    hide Attributed, StepSync, StepCompensate, WroteStep, SyncGood;
    match p.handler {
      case WriteStep =>
        if c.Err? { SameStepsAttributed(m, v); } else { WriteAttributed(m, v, p.result.Key(), StepCompleted); }
      case ActivateMail =>
        if c.Err? { SameStepsAttributed(m, v); } else { WriteAttributed(m, v, MailSendCode, StepInProgress); }
      case HandlerSync(sync) => SyncKeepsSteps(m, i, sync, c); SameStepsAttributed(m, v);
      case _ => SameStepsAttributed(m, v);
    }
  }

  lemma VerifyAttributed(m: Shared, i: nat, n: nat, p: Proc, c: Choice)
    requires p.VerifyCall?
    ensures Attributed(m, StepVerify(m, i, n, p, c))
  {
    var v := StepVerify(m, i, n, p, c);
    hide Attributed, StepSync;
    if v.mem.steps == m.steps { SameStepsAttributed(m, v); }
    else {
      match p.verify {
        case VerifySync(sync) => SyncKeepsSteps(m, i, sync, c);
        case InsertVerify => InsertAttributed(m, v, VerifyEmailCode, StepInProgress);
        case InsertActivate => InsertAttributed(m, v, ActivateUser, StepPending);
        case _ =>
      }
    }
  }

  lemma StartAttributed(m: Shared, i: nat, n: nat, p: Proc, c: Choice)
    requires p.StartCall?
    ensures Attributed(m, StepStart(m, i, n, p, c))
  {
    var v := StepStart(m, i, n, p, c);
    hide Attributed;
    if v.mem.steps == m.steps { SameStepsAttributed(m, v); }
    else {
      match p.start {
        case InsertUserStep => InsertAttributed(m, v, UserCreateProfile, StepPending);
        case InsertAuthStep => InsertAttributed(m, v, AuthCreatePending, StepPending);
        case InsertMailStep => InsertAttributed(m, v, MailSendCode, StepPending);
        case _ =>
      }
    }
  }

  lemma DispatchAttributed(m: Shared, p: Proc, c: Choice)
    requires p.Dispatch?
    ensures Attributed(m, StepDispatch(m, p, c))
  {
    var v := StepDispatch(m, p, c);
    hide Attributed, WroteStep;
    if c.Err? || p.dispatch.SendUser? || p.dispatch.SendAuth? { SameStepsAttributed(m, v); }
    else {
      match p.dispatch {
        case MarkUser => WriteAttributed(m, v, UserCreateProfile, StepInProgress);
        case MarkAuth => WriteAttributed(m, v, AuthCreatePending, StepInProgress);
        case FailStep(lost) => WriteAttributed(m, v, lost.Key(), StepFailed);
        case _ => SameStepsAttributed(m, v);
      }
    }
  }

  lemma StepAttributed(m: Shared, i: nat, n: nat, p: Proc, c: Choice)
    requires Good(m, p) && Succeeds(p) && !p.Completion?
    ensures Attributed(m, Step(m, i, n, p, c))
  {
    hide Attributed, StepStart, StepDispatch, StepHandler, StepVerify;
    match p {
      case StartCall(_, _) => StartAttributed(m, i, n, p, c);
      case Dispatch(_) => DispatchAttributed(m, p, c);
      case Handler(_, _, _, _) => HandlerAttributed(m, i, p, c);
      case VerifyCall(_, _) => VerifyAttributed(m, i, n, p, c);
      case StatusCall(_, _) => SameStepsAttributed(m, Step(m, i, n, p, c));
    }
  }

  // ----- The notification

  /** The process that will notify makes progress towards it. */
  lemma OwnWillNotify(m: Shared, i: nat, p: Proc, c: Choice)
    requires p.Handler? && WillNotify(m, p) && Good(m, p) && Succeeds(p) && m.realtime && AllCompleted(m.steps)
    requires m.session.Some?
    requires !HasStatus(m, Failed)
    requires var v := StepHandler(m, i, p, c);
             Booked(m, i, p, v) && !v.mem.notified && !HasStatus(v.mem, Failed) && AllCompleted(v.mem.steps)
    ensures WillNotify(StepHandler(m, i, p, c).mem, StepHandler(m, i, p, c).proc)
  {
    var v := StepHandler(m, i, p, c);
    hide StepCompensate, AllCompleted, HasFailed, UpdatedStep, SyncGood;
    if Owes(p) {
      hide StepSync;
      assert Owes(v.proc) || (v.proc.Handler? && Holds(v.proc, v.mem.steps));
      assert v.proc.Handler?;
    } else if Holding(p).Some? {
      CommitReports(m, p.handler.sync.snapshot);
    } else {
      hide StepSync;
    }
  }

  lemma CommitReports(m: Shared, snapshot: Steps)
    requires AllCompleted(snapshot)
    ensures HasFailed(snapshot) || Aggregate(snapshot) == CodeSent
  {
  }

  /** A change that notifies nobody. */
  predicate Quiet(m: Shared, m': Shared) {
    && m'.realtime == m.realtime && m'.notified == m.notified
    && Count(m', CodeSentNotified) == Count(m, CodeSentNotified)
  }

  /** Only the LoadOrStore that finds no entry notifies the client. */
  predicate NoticeKept(m: Shared, p: Proc, v: Move) {
    if p.Handler? && p.handler.Notify? then
      && v.mem.realtime == m.realtime && v.mem.notified && v.mem.steps == m.steps
      && Count(v.mem, CodeSentNotified) == Count(m, CodeSentNotified) + (if m.notified then 0 else 1)
    else
      Quiet(m, v.mem)
  }

  lemma LoggedQuiet(m: Shared, e: Effect)
    requires e != CodeSentNotified
    ensures Quiet(m, Logged(m, e))
  {
  }

  lemma WroteSessionQuiet(m: Shared, st: SessionStatus)
    ensures Quiet(m, WroteSession(m, st))
  {
  }

  lemma TwiceLoggedQuiet(m: Shared, e: Effect, e': Effect)
    requires e != CodeSentNotified && e' != CodeSentNotified
    ensures Quiet(m, Logged(Logged(m, e), e'))
  {
    LoggedQuiet(m, e);
    LoggedQuiet(Logged(m, e), e');
  }

  lemma QuietWrites(m: Shared)
    ensures forall m': Shared {:trigger Quiet(m, m')} ::
      m'.log == m.log && m'.realtime == m.realtime && m'.notified == m.notified ==> Quiet(m, m')
    ensures forall k, st :: Quiet(m, WroteStep(m, k, st))
    ensures forall st :: Quiet(m, WroteSession(m, st))
    ensures forall e :: e != CodeSentNotified ==> Quiet(m, Logged(m, e))
  {
    hide Logged, WroteSession;
    forall st ensures Quiet(m, WroteSession(m, st)) { WroteSessionQuiet(m, st); }
    forall e | e != CodeSentNotified ensures Quiet(m, Logged(m, e)) { LoggedQuiet(m, e); }
  }

  lemma CompensateKeepsNotice(m: Shared, i: nat, given: string, pc: CompensatePc, c: Choice)
    ensures Quiet(m, StepCompensate(m, i, given, pc, c).0)
  {
    hide Quiet, WroteSession, Logged;
    QuietWrites(m);
  }

  lemma SyncKeepsNotice(m: Shared, i: nat, pc: SyncPc, c: Choice)
    ensures Quiet(m, StepSync(m, i, pc, c).0)
  {
    hide StepCompensate, Quiet, Aggregate;
    QuietWrites(m);
    match pc {
      case Compensate(comp) => CompensateKeepsNotice(m, i, "", comp, c);
      case Commit(snapshot) => CommitQuiet(m, Aggregate(snapshot));
      case _ =>
    }
  }

  lemma CommitQuiet(m: Shared, status: SessionStatus)
    ensures Quiet(m, WroteSession(m.(lock := None), status))
  {
  }

  lemma NotifyNotifies(m: Shared, p: Proc, c: Choice, i: nat)
    requires p.Handler? && p.handler.Notify?
    ensures NoticeKept(m, p, StepHandler(m, i, p, c))
  {
  }

  lemma HandlerKeepsNotice(m: Shared, i: nat, p: Proc, c: Choice)
    requires p.Handler?
    ensures NoticeKept(m, p, StepHandler(m, i, p, c))
  {
    hide StepCompensate, StepSync, WroteStep, Quiet;
    QuietWrites(m);
    match p.handler {
      case DirectCompensate(comp) => CompensateKeepsNotice(m, i, p.userId, comp, c);
      case HandlerSync(sync) => SyncKeepsNotice(m, i, sync, c);
      case Notify => NotifyNotifies(m, p, c, i);
      case _ =>
    }
  }

  lemma VerifyKeepsNotice(m: Shared, i: nat, n: nat, p: Proc, c: Choice)
    requires p.VerifyCall?
    ensures NoticeKept(m, p, StepVerify(m, i, n, p, c))
  {
    hide StepSync, WroteSession, Quiet;
    QuietWrites(m);
    match p.verify {
      case VerifySync(sync) => SyncKeepsNotice(m, i, sync, c);
      case InsertVerify => InsertQuiet(m, i);
      case Launch => LaunchQuiet(m, n);
      case _ =>
    }
  }

  lemma InsertQuiet(m: Shared, i: nat)
    ensures Quiet(m,
            Logged(m.(steps := m.steps[VerifyEmailCode := StepInProgress], verifier := Some(i)), VerifyInserted))
  {
  }

  lemma LaunchQuiet(m: Shared, n: nat)
    ensures Quiet(m, Logged(m.(verifier := Some(n)), Launched))
  {
  }

  lemma CompletionKeepsNotice(m: Shared, i: nat, p: Proc, c: Choice)
    requires p.Completion?
    ensures NoticeKept(m, p, StepCompletion(m, i, p, c))
  {
    hide WroteStep, WroteSession, Logged, Quiet, SessionUser;
    QuietWrites(m);
    TwiceLoggedQuiet(m, ActivateCalled, ActivateSucceeded);
  }

  lemma ClaimQuiet(m: Shared)
    ensures Quiet(m, Logged(WroteSession(m, TokensClaimed), TokenReturned))
  {
    WroteSessionQuiet(m, TokensClaimed);
    LoggedQuiet(WroteSession(m, TokensClaimed), TokenReturned);
  }

  lemma OthersKeepNotice(m: Shared, i: nat, n: nat, p: Proc, c: Choice)
    requires p.StartCall? || p.Dispatch? || p.StatusCall?
    ensures NoticeKept(m, p, Step(m, i, n, p, c))
  {
    hide WroteStep, WroteSession, Logged, Quiet;
    QuietWrites(m);
    ClaimQuiet(m);
  }

  lemma StepKeepsNotice(m: Shared, i: nat, n: nat, p: Proc, c: Choice)
    ensures NoticeKept(m, p, Step(m, i, n, p, c))
  {
    hide NoticeKept, StepStart, StepDispatch, StepHandler, StepVerify, StepCompletion, StepStatusCall;
    match p {
      case Handler(_, _, _, _) => HandlerKeepsNotice(m, i, p, c);
      case VerifyCall(_, _) => VerifyKeepsNotice(m, i, n, p, c);
      case Completion(_) => CompletionKeepsNotice(m, i, p, c);
      case _ => OthersKeepNotice(m, i, n, p, c);
    }
  }

  // ----- Whole runs

  lemma SucceededBefore(s: State, e: Event)
    requires AllSucceed(Exec(s, e).procs)
    ensures AllSucceed(s.procs)
  {
    hide Exec, VerdictOf;
    ExecKeepsVerdicts(s, e);
    forall j | 0 <= j < |s.procs| ensures Succeeds(s.procs[j]) { assert Succeeds(Exec(s, e).procs[j]); }
  }

  lemma NothingFails(s: State, i: nat, c: Choice)
    requires Structured(s) && Verified(s) && Accounted(s) && Enabled(s, Run(i, c))
    requires !HasFailed(s.mem.steps)
    requires var s' := Exec(s, Run(i, c));
             VerifyEmailCode !in s'.mem.steps && ActivateUser !in s'.mem.steps && Succeeds(s'.procs[i])
    ensures !HasFailed(Exec(s, Run(i, c)).mem.steps)
  {
    var s' := Exec(s, Run(i, c));
    forall key | key in s'.mem.steps ensures s'.mem.steps[key] != StepFailed {
      hide Exec, Structured, Verified, Accounted, Enabled;
      RunFair(s, i, c, key);
    }
  }

  /** What the earlier results say about one step of a success-only run. */
  predicate Known(m: Shared, i: nat, p: Proc, v: Move) {
    && Forward(m, v.mem) && Booked(m, i, p, v) && Attributed(m, v) && NoticeKept(m, p, v)
    && (Live(m) ==> Live(v.mem))
    && (Live(v.mem) && !Live(m) ==> p.Dispatch? && v.proc.Dispatch? && !AllCompleted(v.mem.steps))
    && (v.mem.session == m.session || m.session.None? || m.lock == None || m.lock == Some(i))
    && (v.mem.session == m.session || !HasStatus(v.mem, Failed))
  }

  lemma KeysAreInitial(m: Shared, m': Shared)
    requires Grounded(m) && VerifyEmailCode !in m'.steps && ActivateUser !in m'.steps
    ensures Live(m) ==> forall k :: k in m'.steps ==> k in m.steps
  {
    forall k | k in m'.steps && Live(m) ensures k in m.steps {
      match k { case UserCreateProfile => case AuthCreatePending => case MailSendCode => case _ => }
    }
  }

  lemma StepKnown(s: State, i: nat, c: Choice)
    requires Structured(s) && Verified(s) && Accounted(s) && Succeeding(s) && Enabled(s, Run(i, c))
    requires var s' := Exec(s, Run(i, c));
             VerifyEmailCode !in s'.mem.steps && ActivateUser !in s'.mem.steps && AllSucceed(s'.procs)
    ensures Known(s.mem, i, s.procs[i], Step(s.mem, i, |s.procs|, s.procs[i], c))
    ensures AllSucceed(s.procs) && VerifyEmailCode !in s.mem.steps && !s.procs[i].Completion?
  {
    var e, m, n, p := Run(i, c), s.mem, |s.procs|, s.procs[i];
    var v := Step(m, i, n, p, c);
    hide Step, Advanced, Booked, Attributed, NoticeKept, Live, Tallied, Justified, Placed, Grounded, CompletionStage,
      NoticeExplained, Current, Aggregate, AllCompleted, Succeeds, Good, HasFailed, NeedsRowLock, CalmAt;
    KeysStay(s, e);
    SucceededBefore(s, e);
    assert Owned(m, i, p) && Good(m, p) && Succeeds(p) && CalmAt(m, p);
    assert Succeeds(Exec(s, e).procs[i]);
    NothingFails(s, i, c);
    StepAdvances(m, i, n, p, c);
    KeysAreInitial(m, v.mem);
    StepBooked(m, i, n, p, c);
    StepAttributed(m, i, n, p, c);
    StepKeepsNotice(m, i, n, p, c);
    LiveLasts(m, i, n, p, c);
    if !Live(m) && Live(v.mem) { LiveByDispatch(m, i, n, p, c); }
    SessionWriteTakesLock(m, i, n, p, c);
    NoFailedWrite(m, i, n, p, c);
  }

  lemma OwnStepGood(s: State, i: nat, c: Choice)
    requires Structured(s) && Succeeding(s) && Accounted(s) && Enabled(s, Run(i, c))
    requires VerifyEmailCode !in s.mem.steps && AllSucceed(s.procs)
    requires Known(s.mem, i, s.procs[i], Step(s.mem, i, |s.procs|, s.procs[i], c)) && !s.procs[i].Completion?
    ensures var v := Step(s.mem, i, |s.procs|, s.procs[i], c);
            Good(v.mem, v.proc) && (v.spawned.Some? ==> Good(v.mem, v.spawned.value))
  {
    var m, n, p := s.mem, |s.procs|, s.procs[i];
    assert Good(m, p) && Succeeds(p) && CalmAt(m, p) && Placed(m, i, p);
    hide StepStart, StepHandler, StepVerify, StepDispatch, StepStatusCall, Forward, Booked, Attributed, NoticeKept,
      Good, AllCompleted, HasFailed, Aggregate, Succeeds, CalmAt;
    SpawnedGood(m, i, n, p, c);
    match p {
      case Handler(_, _, _, _) => HandlerStaysGood(m, i, p, c);
      case VerifyCall(_, pc) => VerifyStaysGood(m, i, n, p, c);
      case Dispatch(_) => DispatchOwnGood(s, i, c);
      case _ =>
    }
  }

  lemma DispatchOwnGood(s: State, i: nat, c: Choice)
    requires Structured(s) && Succeeding(s) && Accounted(s) && Enabled(s, Run(i, c)) && s.procs[i].Dispatch?
    requires VerifyEmailCode !in s.mem.steps && AllSucceed(s.procs)
    requires Known(s.mem, i, s.procs[i], Step(s.mem, i, |s.procs|, s.procs[i], c))
    ensures var v := StepDispatch(s.mem, s.procs[i], c); Good(v.mem, v.proc)
  {
    var m, p := s.mem, s.procs[i];
    assert Good(m, p) && Succeeds(p) && CalmAt(m, p) && Placed(m, i, p);
    hide StepDispatch, Forward, Booked, Attributed, NoticeKept, Good, AllCompleted, HasFailed, Aggregate, CalmAt;
    if p.dispatch.DispatchDone? {
      DispatchDoneStays(m, p, c);
    } else {
      DispatchStaysGood(m, i, p, c);
    }
  }

  lemma DispatchDoneStays(m: Shared, p: Proc, c: Choice)
    requires p.Dispatch? && p.dispatch.DispatchDone?
    ensures StepDispatch(m, p, c).mem == m && StepDispatch(m, p, c).proc == p
  {
  }

  lemma SpawnedGood(m: Shared, i: nat, n: nat, p: Proc, c: Choice)
    ensures var v := Step(m, i, n, p, c);
            && (v.spawned.Some? ==> Good(v.mem, v.spawned.value))
            && (p.StartCall? ==> v.proc.StartCall?) && (p.StatusCall? ==> v.proc.StatusCall?)
  {
    hide StepSync, StepCompensate;
  }

  lemma OthersStayGood(s: State, i: nat, c: Choice, j: nat)
    requires Structured(s) && Succeeding(s) && Enabled(s, Run(i, c)) && j < |s.procs| && j != i
    requires VerifyEmailCode !in s.mem.steps && AllSucceed(s.procs)
    requires Known(s.mem, i, s.procs[i], Step(s.mem, i, |s.procs|, s.procs[i], c))
    ensures Good(Step(s.mem, i, |s.procs|, s.procs[i], c).mem, s.procs[j])
  {
    var m, q := s.mem, s.procs[j];
    var v := Step(m, i, |s.procs|, s.procs[i], c);
    hide Step, Good, Placed, Grounded, Forward, Booked, Attributed, NoticeKept, Holding, HasFailed, NoticeExplained;
    if Holding(q).Some? { OnlyLockHolderHolds(m, j, q); }
    GoodLasts(m, v.mem, j, q);
  }

  lemma TableStaysExplained(m: Shared, procs: seq<Proc>, i: nat, v: Move, procs': seq<Proc>)
    requires TableExplained(m, procs) && i < |procs| && Known(m, i, procs[i], v)
    requires |procs| <= |procs'| && procs'[i] == v.proc
    requires forall j :: 0 <= j < |procs| && j != i ==> procs'[j] == procs[j]
    requires forall r :: IsResult(procs[i], r) ==> IsResult(v.proc, r)
    requires procs[i].Dispatch? ==> v.proc.Dispatch?
    ensures TableExplained(v.mem, procs')
  {
    hide Booked, NoticeKept, HasFailed, AllCompleted, Advanced;
    forall r | HasResult(procs, r) || IsResult(v.proc, r) ensures HasResult(procs', r) {
      if IsResult(v.proc, r) { assert IsResult(procs'[i], r); } else {
        var j :| 0 <= j < |procs| && IsResult(procs[j], r);
        assert IsResult(procs'[j], r);
      }
    }
    if Live(v.mem) {
      if Live(m) {
        var j :| 0 <= j < |procs| && procs[j].Dispatch?;
        assert procs'[j].Dispatch?;
      } else {
        assert procs'[i].Dispatch?;
      }
    }
    assert !HasFailed(v.mem.steps);
  }

  /** A session status of `code_sent` or a sent notification has all steps behind it. */
  lemma CodeSentStaysJustified(m: Shared, procs: seq<Proc>, i: nat, v: Move)
    requires NoticeExplained(m, procs) && TableExplained(m, procs) && i < |procs|
    requires Known(m, i, procs[i], v) && Good(m, procs[i])
    ensures HasStatus(v.mem, CodeSent) || v.mem.notified ==> AllCompleted(v.mem.steps)
  {
    ForwardKeeps(m, v.mem);
    hide Forward, HasFailed, Attributed, SomeWillNotify;
  }

  lemma NotifierFound(procs: seq<Proc>, m: Shared, j: nat)
    requires j < |procs| && WillNotify(m, procs[j])
    ensures SomeWillNotify(m, procs)
  {
  }

  /** Another process's intent to notify survives. */
  lemma OthersWillNotify(m: Shared, i: nat, p: Proc, v: Move, q: Proc)
    requires Known(m, i, p, v) && Good(m, p) && WillNotify(m, q)
    requires Live(m) && Live(v.mem) && AllCompleted(v.mem.steps) && !HasFailed(v.mem.steps)
    ensures WillNotify(v.mem, q)
  {
    hide Forward, HasFailed, Attributed, AllCompleted;
    assert Aggregate(v.mem.steps) == CodeSent;
  }

  /** A table that just became complete was completed by a handler still on its way. */
  lemma CompleterWillNotify(m: Shared, i: nat, p: Proc, v: Move)
    requires Known(m, i, p, v) && Live(m) && Live(v.mem)
    requires !AllCompleted(m.steps) && AllCompleted(v.mem.steps)
    requires Grounded(m) && VerifyEmailCode !in v.mem.steps && ActivateUser !in v.mem.steps
    ensures WillNotify(v.mem, v.proc)
  {
    assert Owes(v.proc);
    var k :| k in m.steps && m.steps[k] != StepCompleted;
    assert k in v.mem.steps && v.mem.steps[k] == StepCompleted;
    match k {
      case UserCreateProfile => assert IsResult(v.proc, UserResult) by { assert UserResult.Key() == k; }
      case AuthCreatePending => assert IsResult(v.proc, AuthResult) by { assert AuthResult.Key() == k; }
      case MailSendCode => assert IsResult(v.proc, MailResult) by { assert MailResult.Key() == k; }
      case _ =>
    }
  }

  lemma NoticeStaysExplained(s: State, i: nat, c: Choice)
    requires Structured(s) && Verified(s) && Accounted(s) && Succeeding(s) && Enabled(s, Run(i, c))
    requires var s' := Exec(s, Run(i, c));
             VerifyEmailCode !in s'.mem.steps && ActivateUser !in s'.mem.steps && AllSucceed(s'.procs)
    requires VerifyEmailCode !in s.mem.steps && AllSucceed(s.procs)
    requires Known(s.mem, i, s.procs[i], Step(s.mem, i, |s.procs|, s.procs[i], c))
    ensures NoticeExplained(Exec(s, Run(i, c)).mem, Exec(s, Run(i, c)).procs)
  {
    var m, n, p, s' := s.mem, |s.procs|, s.procs[i], Exec(s, Run(i, c));
    var v := Step(m, i, n, p, c);
    assert Good(m, p) && TableExplained(m, s.procs) && NoticeExplained(m, s.procs);
    assert Grounded(m) && Placed(m, i, p);
    hide Step, Good, Placed, Grounded, WillNotify, Current, HasFailed, AllCompleted, Aggregate, Verified, Accounted,
      Succeeding;
    CodeSentStaysJustified(m, s.procs, i, v);
    if v.mem.notified { NotifiedIsLive(m, i, p, v); }
    if AllCompleted(v.mem.steps) && Live(v.mem) && v.mem.realtime && !v.mem.notified {
      if AllCompleted(m.steps) {
        var j :| 0 <= j < n && WillNotify(m, s.procs[j]);
        if j == i {
          HandlerStep(m, i, n, p, c);
          OwnNotifier(m, i, p, c);
        } else {
          OthersWillNotify(m, i, p, v, s.procs[j]);
          assert s'.procs[j] == s.procs[j];
        }
        NotifierFound(s'.procs, v.mem, j);
      } else {
        CompleterWillNotify(m, i, p, v);
        NotifierFound(s'.procs, v.mem, i);
      }
    }
  }

  lemma HandlerStep(m: Shared, i: nat, n: nat, p: Proc, c: Choice)
    requires WillNotify(m, p)
    ensures p.Handler? && Step(m, i, n, p, c) == StepHandler(m, i, p, c)
  {
  }

  lemma NotifiedIsLive(m: Shared, i: nat, p: Proc, v: Move)
    requires Known(m, i, p, v) && Grounded(m) && Placed(m, i, p) && (m.notified ==> Live(m))
    ensures v.mem.notified ==> Live(v.mem)
  {
    hide Forward, Booked, Attributed, AllCompleted;
  }

  lemma OwnNotifier(m: Shared, i: nat, p: Proc, c: Choice)
    requires p.Handler? && WillNotify(m, p) && Good(m, p) && m.realtime && AllCompleted(m.steps) && Live(m)
    requires !HasStatus(m, Failed)
    requires var v := StepHandler(m, i, p, c);
             Known(m, i, p, v) && !v.mem.notified && AllCompleted(v.mem.steps)
    requires Succeeds(p)
    ensures WillNotify(StepHandler(m, i, p, c).mem, StepHandler(m, i, p, c).proc)
  {
    hide StepHandler, WillNotify, Good, Forward, Booked, Attributed, NoticeKept, AllCompleted, Succeeds;
    OwnWillNotify(m, i, p, c);
  }

  lemma RunSucceeding(s: State, i: nat, c: Choice)
    requires Structured(s) && Verified(s) && Accounted(s) && Succeeding(s) && Enabled(s, Run(i, c))
    ensures Succeeding(Exec(s, Run(i, c)))
  {
    var s', m, n, p := Exec(s, Run(i, c)), s.mem, |s.procs|, s.procs[i];
    var v := Step(m, i, n, p, c);
    if AllSucceed(s'.procs) && VerifyEmailCode !in s'.mem.steps {
      ExecVerified(s, Run(i, c));
      assert ActivateUser !in s'.mem.steps;
      hide Step, Good, Known, TableExplained, NoticeExplained, Placed, Grounded, Owned, Justified, Current, Aggregate;
      StepKnown(s, i, c);
      OwnStepGood(s, i, c);
      forall j | 0 <= j < n && j != i ensures Good(v.mem, s.procs[j]) { OthersStayGood(s, i, c, j); }
      NoticeStaysExplained(s, i, c);
      StepKeepsKind(m, i, n, p, c);
      TableStaysExplained(m, s.procs, i, v, s'.procs);
    }
  }

  lemma StepKeepsKind(m: Shared, i: nat, n: nat, p: Proc, c: Choice)
    ensures var v := Step(m, i, n, p, c);
            (p.Dispatch? ==> v.proc.Dispatch?) && forall r :: IsResult(p, r) ==> IsResult(v.proc, r)
  {
    hide StepSync, StepCompensate;
  }

  lemma SpawnSucceeding(s: State, q: Proc)
    requires Structured(s) && Succeeding(s) && Enabled(s, Spawn(q))
    ensures Succeeding(Exec(s, Spawn(q)))
  {
    var s' := Exec(s, Spawn(q));
    hide HasFailed, AllCompleted, Placed, Grounded;
    forall j | 0 <= j < |s.procs| && AllSucceed(s'.procs) ensures Succeeds(s.procs[j]) { assert Succeeds(s'.procs[j]); }
    forall r | HasResult(s.procs, r) ensures HasResult(s'.procs, r) {
      var j :| 0 <= j < |s.procs| && IsResult(s.procs[j], r);
      assert IsResult(s'.procs[j], r);
    }
    if j :| 0 <= j < |s.procs| && WillNotify(s.mem, s.procs[j]) { assert WillNotify(s'.mem, s'.procs[j]); }
    if j :| 0 <= j < |s.procs| && s.procs[j].Dispatch? { assert s'.procs[j].Dispatch?; }
  }

  lemma RedeliverSucceeding(s: State, i: nat)
    requires Structured(s) && Succeeding(s) && Enabled(s, Redeliver(i))
    ensures Succeeding(Exec(s, Redeliver(i)))
  {
    var s' := Exec(s, Redeliver(i));
    hide HasFailed, AllCompleted, Placed, Grounded;
    forall j | 0 <= j < |s.procs| && AllSucceed(s'.procs) ensures Succeeds(s.procs[j]) { assert Succeeds(s'.procs[j]); }
    forall r | HasResult(s.procs, r) ensures HasResult(s'.procs, r) {
      var j :| 0 <= j < |s.procs| && IsResult(s.procs[j], r);
      assert IsResult(s'.procs[j], r);
    }
    assert WillNotify(s'.mem, s'.procs[i]);
    if j :| 0 <= j < |s.procs| && s.procs[j].Dispatch? { assert s'.procs[j].Dispatch?; }
  }

  lemma ExecSucceeding(s: State, e: Event)
    requires Structured(s) && Verified(s) && Accounted(s) && Succeeding(s)
    ensures Succeeding(Exec(s, e))
  {
    if Enabled(s, e) {
      hide Step, Succeeding, Structured, Verified, Accounted, MaySpawn;
      match e {
        case Spawn(q) => SpawnSucceeding(s, q);
        case Run(i, c) => RunSucceeding(s, i, c);
        case Redeliver(j) => RedeliverSucceeding(s, j);
      }
    }
  }

  lemma {:induction false} AlwaysSucceeding(realtime: bool, events: seq<Event>)
    ensures Succeeding(After(Init(realtime), events))
  {
    if events != [] {
      hide Succeeding, Accounted, Verified, Structured, Exec;
      var init := events[..|events| - 1];
      AlwaysStructured(realtime, init);
      AlwaysVerified(realtime, init);
      AlwaysAccounted(realtime, init);
      AlwaysSucceeding(realtime, init);
      ExecSucceeding(After(Init(realtime), init), events[|events| - 1]);
    }
  }

  // ----- Results

  /** The results whose handlers ran. */
  function ResultsOf(procs: seq<Proc>): set<Result> {
    set j | 0 <= j < |procs| && procs[j].Handler? :: procs[j].result
  }

  /** The step table that a set of successful results leads to. */
  function ClosedForm(results: set<Result>): Steps {
    map[
      UserCreateProfile := if UserResult in results then StepCompleted else StepInProgress,
      AuthCreatePending := if AuthResult in results then StepCompleted else StepInProgress,
      MailSendCode := if MailResult in results then StepCompleted
                      else if AuthResult in results then StepInProgress else StepPending]
  }

  /** Convergence.  Whatever the interleaving, order, duplication and redelivery of
      success results, once they are settled the step table is a closed form of the
      set of results alone, and the status is `code_sent` iff all three arrived. */
  lemma SuccessConverges(realtime: bool, events: seq<Event>)
    requires var s := After(Init(realtime), events);
             AllSucceed(s.procs) && Settled(s.procs) && Live(s.mem) && VerifyEmailCode !in s.mem.steps
    ensures var s := After(Init(realtime), events);
            && s.mem.steps == ClosedForm(ResultsOf(s.procs))
            && HasStatus(s.mem, if ResultsOf(s.procs) == {UserResult, AuthResult, MailResult} then CodeSent
              else InProgress)
  {
    var s := After(Init(realtime), events);
    hide After;
    AlwaysStructured(realtime, events);
    AlwaysVerified(realtime, events);
    AlwaysSucceeding(realtime, events);
    QuiescentStatus(realtime, events);
    TableConverges(s);
    StatusConverges(s);
  }

  lemma ResultSettled(s: State, r: Result)
    requires Structured(s) && Succeeding(s) && AllSucceed(s.procs) && Settled(s.procs)
            && VerifyEmailCode !in s.mem.steps
    ensures r in ResultsOf(s.procs) <==> HasStep(s.mem, r.Key(), StepCompleted)
    ensures AuthResult in ResultsOf(s.procs) ==> !HasStep(s.mem, MailSendCode, StepPending)
    ensures HasStep(s.mem, MailSendCode, StepInProgress) ==> AuthResult in ResultsOf(s.procs)
  {
    hide Placed, Grounded, NoticeExplained, HasFailed;
    if r in ResultsOf(s.procs) {
      var j :| 0 <= j < |s.procs| && s.procs[j].Handler? && s.procs[j].result == r;
      assert Good(s.mem, s.procs[j]);
    }
    if AuthResult in ResultsOf(s.procs) {
      var j :| 0 <= j < |s.procs| && s.procs[j].Handler? && s.procs[j].result == AuthResult;
      assert Good(s.mem, s.procs[j]);
    }
    if HasResult(s.procs, r) {
      var j :| 0 <= j < |s.procs| && IsResult(s.procs[j], r);
      assert s.procs[j].result in ResultsOf(s.procs);
    }
    if HasResult(s.procs, AuthResult) {
      var j :| 0 <= j < |s.procs| && IsResult(s.procs[j], AuthResult);
      assert s.procs[j].result in ResultsOf(s.procs);
    }
  }

  lemma DispatchSettled(s: State)
    requires Structured(s) && Succeeding(s) && AllSucceed(s.procs) && Settled(s.procs)
            && VerifyEmailCode !in s.mem.steps
    requires Live(s.mem)
    ensures !HasStep(s.mem, UserCreateProfile, StepPending) && !HasStep(s.mem, AuthCreatePending, StepPending)
  {
    hide Placed, Grounded, NoticeExplained, HasFailed;
    var j :| 0 <= j < |s.procs| && s.procs[j].Dispatch?;
    assert Good(s.mem, s.procs[j]) && Succeeds(s.procs[j]);
    assert s.procs[j].dispatch == DispatchDone(true, None);
  }

  lemma TableConverges(s: State)
    requires Structured(s) && Verified(s) && Succeeding(s) && AllSucceed(s.procs) && Settled(s.procs)
    requires Live(s.mem) && VerifyEmailCode !in s.mem.steps
    ensures s.mem.steps == ClosedForm(ResultsOf(s.procs))
  {
    var m := s.mem;
    ResultSettled(s, UserResult);
    ResultSettled(s, AuthResult);
    ResultSettled(s, MailResult);
    DispatchSettled(s);
    assert !HasFailed(m.steps) && Grounded(m) && ActivateUser !in m.steps;
    assert UserResult.Key() == UserCreateProfile && AuthResult.Key() == AuthCreatePending
      && MailResult.Key() == MailSendCode;
    hide ResultsOf, Succeeding, Settled, Structured, Verified, AllSucceed;
    assert m.steps.Keys == {UserCreateProfile, AuthCreatePending, MailSendCode} by {
      forall k | k in m.steps ensures k in {UserCreateProfile, AuthCreatePending, MailSendCode} {
        match k { case UserCreateProfile => case AuthCreatePending => case MailSendCode => case _ => }
      }
    }
  }

  lemma StatusConverges(s: State)
    requires Succeeding(s) && AllSucceed(s.procs) && VerifyEmailCode !in s.mem.steps
    requires s.mem.steps == ClosedForm(ResultsOf(s.procs))
    requires HasStatus(s.mem, Aggregate(s.mem.steps)) || HasStatus(s.mem, Failed)
    ensures HasStatus(s.mem, if ResultsOf(s.procs) == {UserResult, AuthResult, MailResult} then CodeSent
            else InProgress)
  {
    var steps, rs := s.mem.steps, ResultsOf(s.procs);
    assert !HasFailed(steps) && !HasStatus(s.mem, Failed);
    hide ResultsOf, Succeeding;
    assert AllCompleted(steps) <==> UserResult in rs && AuthResult in rs && MailResult in rs by {
      assert AllCompleted(steps) ==>
        steps[UserCreateProfile] == StepCompleted && steps[AuthCreatePending] == StepCompleted
          && steps[MailSendCode] == StepCompleted;
    }
    assert UserResult in rs && AuthResult in rs && MailResult in rs <==> rs == {UserResult, AuthResult, MailResult} by {
      if UserResult in rs && AuthResult in rs && MailResult in rs {
        forall r | r in rs ensures r in {UserResult, AuthResult,
          MailResult} { match r { case UserResult => case AuthResult => case MailResult => } }
      }
    }
  }

  // ----- One notification

  predicate Told(m: Shared) {
    Count(m, CodeSentNotified) == (if m.notified then 1 else 0)
  }

  lemma ExecTold(s: State, e: Event)
    requires Told(s.mem)
    ensures Told(Exec(s, e).mem) && Exec(s, e).mem.realtime == s.mem.realtime
  {
    hide Step;
    if e.Run? && Enabled(s, e) {
      StepKeepsNotice(s.mem, e.i, |s.procs|, s.procs[e.i], e.choice);
    }
  }

  lemma {:induction false} AlwaysTold(realtime: bool, events: seq<Event>)
    ensures Told(After(Init(realtime), events).mem) && After(Init(realtime), events).mem.realtime == realtime
  {
    if events != [] {
      hide Told, Exec;
      AlwaysTold(realtime, events[..|events| - 1]);
      ExecTold(After(Init(realtime), events[..|events| - 1]), events[|events| - 1]);
    }
  }

  /** In every run whatsoever the client is told `code_sent` at most once. */
  lemma {:induction false} CodeSentAtMostOnce(realtime: bool, events: seq<Event>)
    ensures Count(After(Init(realtime), events).mem, CodeSentNotified) <= 1
  {
    AlwaysTold(realtime, events);
  }

  /** In a settled success-only run with a realtime publisher, the client has been
      told exactly once if all three results arrived, whichever handler saw it, and
      not at all before that. */
  lemma CodeSentExactlyOnce(events: seq<Event>)
    requires var s := After(Init(true), events);
             AllSucceed(s.procs) && Settled(s.procs) && Live(s.mem) && VerifyEmailCode !in s.mem.steps
    ensures var s := After(Init(true), events);
            Count(s.mem, CodeSentNotified)
            == (if ResultsOf(s.procs) == {UserResult, AuthResult, MailResult} then 1 else 0)
  {
    var s := After(Init(true), events);
    hide After, ResultsOf, ClosedForm;
    AlwaysTold(true, events);
    AlwaysSucceeding(true, events);
    SuccessConverges(true, events);
    NoticeConverges(s);
  }

  lemma NoticeConverges(s: State)
    requires Succeeding(s) && AllSucceed(s.procs) && Settled(s.procs) && VerifyEmailCode !in s.mem.steps
    requires Live(s.mem) && s.mem.realtime && s.mem.steps == ClosedForm(ResultsOf(s.procs))
    ensures s.mem.notified <==> ResultsOf(s.procs) == {UserResult, AuthResult, MailResult}
  {
    var steps, rs := s.mem.steps, ResultsOf(s.procs);
    assert NoticeExplained(s.mem, s.procs);
    forall j | 0 <= j < |s.procs| && HasStatus(s.mem, CodeSent) ensures !WillNotify(s.mem, s.procs[j]) { }
    hide ResultsOf, Succeeding;
    assert AllCompleted(steps) <==> UserResult in rs && AuthResult in rs && MailResult in rs by {
      assert AllCompleted(steps) ==>
        steps[UserCreateProfile] == StepCompleted && steps[AuthCreatePending] == StepCompleted
          && steps[MailSendCode] == StepCompleted;
    }
    assert UserResult in rs && AuthResult in rs && MailResult in rs <==> rs == {UserResult, AuthResult, MailResult} by {
      if UserResult in rs && AuthResult in rs && MailResult in rs {
        forall r | r in rs ensures r in {UserResult, AuthResult,
          MailResult} { match r { case UserResult => case AuthResult => case MailResult => } }
      }
    }
    if j :| 0 <= j < |s.procs| && WillNotify(s.mem, s.procs[j]) { assert s.procs[j].handler == HandlerDone(true); }
  }
}
