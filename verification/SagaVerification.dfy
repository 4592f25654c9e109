/** At-most-once verification and token claim.  Both rest on the primary key of
    the verify step row and on compare-and-set, never on the session status, which
    a late reconciliation may move backwards. */
module SagaVerification {
  import opened Domain
  import opened Saga
  import opened SagaStructure

  function Count(m: Shared, e: Effect): nat {
    multiset(m.log)[e]
  }

  predicate StatusIn(m: Shared, statuses: set<SessionStatus>) {
    m.session.Some? && m.session.value.status in statuses
  }

  /** Nothing that only a verification does has happened. */
  predicate Untouched(m: Shared) {
    && Count(m, ActivateCalled) == 0
    && Count(m, SessionWritten(Completed)) == 0
    && Count(m, CompletedEvent) == 0
    && !StatusIn(m, {ActivatingUser, Completed, TokensClaimed})
  }

  predicate HasStep(m: Shared, key: StepKey, status: StepStatus) {
    key in m.steps && m.steps[key] == status
  }

  /** What a session status promises about the verification. */
  predicate Justified(m: Shared) {
    && (HasStep(m, VerifyEmailCode, StepCompleted) ==> Count(m, CodeVerified) > 0)
    && (StatusIn(m, {ActivatingUser}) ==> HasStep(m, VerifyEmailCode, StepCompleted))
    && (StatusIn(m, {Completed, TokensClaimed}) ==>
          && HasStep(m, VerifyEmailCode, StepCompleted)
          && HasStep(m, ActivateUser, StepCompleted)
          && Count(m, ActivateSucceeded) > 0 && Count(m, Launched) == 1)
  }

  predicate Tallied(m: Shared) {
    && (m.verifier.None? <==> VerifyEmailCode !in m.steps)
    && (m.verifier.None? ==> Untouched(m) && Count(m, Launched) == 0 && ActivateUser !in m.steps)
    && Count(m, Launched) <= 1
    && Count(m, ActivateCalled) <= 1
    && Count(m, VerifyInserted) == (if m.verifier.None? then 0 else 1)
    && Count(m, SessionWritten(Completed)) <= Count(m, VerifyInserted)
    && Count(m, CompletedEvent) <= 1
    && Count(m, TokenReturned) + (if StatusIn(m, {Completed}) then 1 else 0) <= Count(m, SessionWritten(Completed))
  }

  /** How far a completion goroutine has come, and what it may still do. */
  predicate CompletionStage(m: Shared, pc: CompletionPc) {
    && Count(m, Launched) == 1
    && VerifyEmailCode in m.steps && ActivateUser in m.steps
    && match pc
       case CallVerify => Untouched(m) && HasStep(m, VerifyEmailCode, StepInProgress)
       case MarkVerified =>
         Untouched(m) && HasStep(m, VerifyEmailCode, StepInProgress) && Count(m, CodeVerified) > 0
       case SetActivating => Untouched(m) && HasStep(m, VerifyEmailCode, StepCompleted)
       case MarkActivating => Activating(m) && Count(m, ActivateCalled) == 0
       case CallActivate => Activating(m) && Count(m, ActivateCalled) == 0
       case MarkActivated => Activating(m) && Count(m, ActivateSucceeded) > 0
       case SetCompleted =>
         Activating(m) && Count(m, ActivateSucceeded) > 0 && HasStep(m, ActivateUser, StepCompleted)
       case PublishCompleted => Count(m, CompletedEvent) == 0
       case FailVerification(activate) => if activate then Activating(m) else Untouched(m)
       case _ => true
  }

  predicate Activating(m: Shared) {
    && HasStep(m, VerifyEmailCode, StepCompleted)
    && Count(m, SessionWritten(Completed)) == 0
    && Count(m, CompletedEvent) == 0
    && !StatusIn(m, {Completed, TokensClaimed})
  }

  /** A process that acts on a verification owns the verify step row. */
  predicate Owned(m: Shared, j: nat, q: Proc) {
    match q
    case VerifyCall(_, pc) =>
      pc.InsertActivate? || pc.SetVerifying? || pc.Launch? ==>
        && m.verifier == Some(j) && Untouched(m) && Count(m, Launched) == 0
        && (pc.InsertActivate? <==> ActivateUser !in m.steps)
        && HasStep(m, VerifyEmailCode, StepInProgress)
    case Completion(pc) => m.verifier == Some(j) && CompletionStage(m, pc)
    case _ => true
  }

  predicate Verified(s: State) {
    && Tallied(s.mem) && Justified(s.mem)
    && forall j :: 0 <= j < |s.procs| ==> Owned(s.mem, j, s.procs[j])
  }

  /** A step by a process that owns no verification. */
  predicate Bystander(m: Shared, m': Shared) {
    && m'.verifier == m.verifier
    && (forall k :: k == VerifyEmailCode || k == ActivateUser ==>
          (k in m'.steps <==> k in m.steps) && (k in m.steps ==> m'.steps[k] == m.steps[k]))
    && Count(m', VerifyInserted) == Count(m, VerifyInserted)
    && Count(m', Launched) == Count(m, Launched)
    && Count(m', CodeVerified) == Count(m, CodeVerified)
    && Count(m', ActivateCalled) == Count(m, ActivateCalled)
    && Count(m', ActivateSucceeded) == Count(m, ActivateSucceeded)
    && Count(m', SessionWritten(Completed)) == Count(m, SessionWritten(Completed))
    && Count(m', CompletedEvent) == Count(m, CompletedEvent)
    && (m'.session == m.session
        || !StatusIn(m', {ActivatingUser, Completed, TokensClaimed})
        || (StatusIn(m, {Completed}) && StatusIn(m', {TokensClaimed})))
    && Count(m', TokenReturned) + (if StatusIn(m', {Completed}) then 1 else 0)
       <= Count(m, TokenReturned) + (if StatusIn(m, {Completed}) then 1 else 0)
  }

  lemma BystanderKeepsGlobal(m: Shared, m': Shared)
    requires Bystander(m, m') && Tallied(m) && Justified(m)
    ensures Tallied(m') && Justified(m')
  {
  }

  lemma BystanderKeepsOwned(m: Shared, m': Shared, j: nat, q: Proc)
    requires Bystander(m, m') && Tallied(m) && Justified(m) && Owned(m, j, q)
    ensures Owned(m', j, q)
  {
  }

  // ----- Steps that own no verification

  predicate Harmless(status: SessionStatus) {
    status == InProgress || status == Failed || status == CodeSent
  }

  predicate Minor(e: Effect) {
    match e
    case SessionWritten(status) => Harmless(status)
    case SnapshotTaken(_) => true
    case CodeSentEvent => true
    case CodeSentNotified => true
    case FailedEvent(_, _) => true
    case UserDeactivated(_, _) => true
    case AuthDeactivated(_, _) => true
    case _ => false
  }

  lemma StepWriteBystander(m: Shared, k: StepKey, st: StepStatus)
    requires k != VerifyEmailCode && k != ActivateUser
    ensures Bystander(m, WroteStep(m, k, st))
  {
  }

  lemma SessionWriteBystander(m: Shared, st: SessionStatus)
    requires Harmless(st)
    ensures Bystander(m, WroteSession(m, st))
  {
  }

  lemma LoggedBystander(m: Shared, e: Effect)
    requires Minor(e)
    ensures Bystander(m, Logged(m, e))
  {
  }

  lemma HarmlessWrites(m: Shared)
    ensures forall m': Shared {:trigger Bystander(m, m')} ::
      m'.log == m.log && m'.steps == m.steps && m'.session == m.session && m'.verifier == m.verifier
      ==> Bystander(m, m')
    ensures forall k, st :: k != VerifyEmailCode && k != ActivateUser ==> Bystander(m, WroteStep(m, k, st))
    ensures forall st :: Harmless(st) ==> Bystander(m, WroteSession(m, st))
    ensures forall e :: Minor(e) ==> Bystander(m, Logged(m, e))
  {
    hide WroteStep, WroteSession, Logged, Minor, Harmless;
    forall k, st | k != VerifyEmailCode && k != ActivateUser ensures Bystander(m, WroteStep(m, k, st)) {
      StepWriteBystander(m, k, st);
    }
    forall st | Harmless(st) ensures Bystander(m, WroteSession(m, st)) { SessionWriteBystander(m, st); }
    forall e | Minor(e) ensures Bystander(m, Logged(m, e)) { LoggedBystander(m, e); }
  }

  lemma CompensateBystander(m: Shared, i: nat, given: string, pc: CompensatePc, c: Choice)
    ensures Bystander(m, StepCompensate(m, i, given, pc, c).0)
  {
    hide Bystander, WroteSession, Logged;
    HarmlessWrites(m);
  }

  lemma SyncBystander(m: Shared, i: nat, pc: SyncPc, c: Choice)
    ensures Bystander(m, StepSync(m, i, pc, c).0)
  {
    hide Bystander, StepCompensate, Aggregate;
    HarmlessWrites(m);
    HarmlessWrites(m.(lock := None));
    match pc {
      case Compensate(comp) => CompensateBystander(m, i, "", comp, c);
      case Commit(snapshot) => CommitBystander(m, snapshot);
      case _ =>
    }
  }

  lemma CommitBystander(m: Shared, snapshot: Steps)
    ensures Bystander(m, WroteSession(m.(lock := None), Aggregate(snapshot)))
  {
  }

  lemma HandlerBystander(m: Shared, i: nat, p: Proc, c: Choice)
    requires p.Handler?
    ensures Bystander(m, StepHandler(m, i, p, c).mem)
  {
    hide Bystander, StepCompensate, StepSync, WroteStep;
    HarmlessWrites(m);
    HarmlessWrites(m.(notified := true));
    match p.handler {
      case DirectCompensate(comp) => CompensateBystander(m, i, p.userId, comp, c);
      case HandlerSync(sync) => SyncBystander(m, i, sync, c);
      case Notify => NotifyBystander(m);
      case _ =>
    }
  }

  lemma NotifyBystander(m: Shared)
    ensures Bystander(m, Logged(m.(notified := true), CodeSentNotified))
  {
  }

  lemma InsertBystander(m: Shared, key: StepKey)
    requires key != VerifyEmailCode && key != ActivateUser
    ensures Bystander(m, m.(steps := m.steps[key := StepPending]))
  {
  }

  lemma CreateBystander(m: Shared, i: nat, row: Session)
    requires m.session.None? && row.status == Started
    ensures Bystander(m, m.(session := Some(row), creator := Some(i)))
  {
  }

  lemma StartBystander(m: Shared, i: nat, n: nat, p: Proc, c: Choice)
    requires p.StartCall? && (p.start.InsertSession? ==> p.row.status == Started)
    ensures Bystander(m, StepStart(m, i, n, p, c).mem)
  {
    hide Bystander;
    HarmlessWrites(m);
    match p.start {
      case InsertSession => if m.session.None? && c.Ok? { CreateBystander(m, i, p.row); }
      case InsertUserStep => InsertBystander(m, UserCreateProfile);
      case InsertAuthStep => InsertBystander(m, AuthCreatePending);
      case InsertMailStep => InsertBystander(m, MailSendCode);
      case _ =>
    }
  }

  lemma DispatchBystander(m: Shared, p: Proc, c: Choice)
    requires p.Dispatch?
    ensures Bystander(m, StepDispatch(m, p, c).mem)
  {
    hide Bystander, WroteSession, WroteStep;
    HarmlessWrites(m);
  }

  lemma ClaimBystander(m: Shared)
    requires HasStatus(m, Completed)
    ensures Bystander(m, Logged(WroteSession(m, TokensClaimed), TokenReturned))
  {
    hide Count;
    forall e {
      ClaimCount(m, e);
    }
  }

  lemma ClaimCount(m: Shared, e: Effect)
    ensures Count(Logged(WroteSession(m, TokensClaimed), TokenReturned), e)
            == Count(m, e) + (if e == SessionWritten(TokensClaimed) || e == TokenReturned then 1 else 0)
  {
  }

  lemma StatusBystander(m: Shared, p: Proc, c: Choice)
    requires p.StatusCall?
    ensures Bystander(m, StepStatusCall(m, p, c).mem)
  {
    hide Bystander, WroteSession, Logged;
    HarmlessWrites(m);
    if HasStatus(m, Completed) { ClaimBystander(m); }
  }

  predicate OwnerPc(pc: VerifyPc) {
    pc.InsertVerify? || pc.InsertActivate? || pc.SetVerifying? || pc.Launch?
  }

  lemma VerifyBystander(m: Shared, i: nat, n: nat, p: Proc, c: Choice)
    requires p.VerifyCall? && !OwnerPc(p.verify)
    ensures Bystander(m, StepVerify(m, i, n, p, c).mem)
  {
    hide Bystander, StepSync;
    HarmlessWrites(m);
    if p.verify.VerifySync? { SyncBystander(m, i, p.verify.sync, c); }
  }

  // ----- Steps of the owner of a verification

  predicate OwnerStepFine(m: Shared, i: nat, n: nat, v: Move) {
    && (m.verifier == None || m.verifier == Some(i))
    && Tallied(v.mem) && Justified(v.mem) && Owned(v.mem, i, v.proc)
    && (v.spawned.Some? ==> Owned(v.mem, n, v.spawned.value))
  }

  lemma OthersOwnNothing(m: Shared, m': Shared, i: nat, j: nat, q: Proc)
    requires (m.verifier == None || m.verifier == Some(i)) && i != j && Owned(m, j, q)
    ensures Owned(m', j, q)
  {
  }

  predicate OwnerStepOrStop(m: Shared, i: nat, n: nat, v: Move) {
    OwnerStepFine(m, i, n, v)
    || (v.mem == m && v.proc.VerifyCall? && v.proc.verify.VerifyDone? && v.spawned.None?)
  }

  lemma InsertVerifyFine(m: Shared, i: nat, n: nat, p: Proc, c: Choice)
    requires p.VerifyCall? && p.verify.InsertVerify?
    requires Tallied(m) && Justified(m) && Owned(m, i, p)
    ensures OwnerStepOrStop(m, i, n, StepVerify(m, i, n, p, c))
  {
  }

  lemma InsertActivateFine(m: Shared, i: nat, n: nat, p: Proc, c: Choice)
    requires p.VerifyCall? && p.verify.InsertActivate?
    requires Tallied(m) && Justified(m) && Owned(m, i, p)
    ensures OwnerStepOrStop(m, i, n, StepVerify(m, i, n, p, c))
  {
  }

  lemma SetVerifyingFine(m: Shared, i: nat, n: nat, p: Proc, c: Choice)
    requires p.VerifyCall? && p.verify.SetVerifying?
    requires Tallied(m) && Justified(m) && Owned(m, i, p)
    ensures OwnerStepOrStop(m, i, n, StepVerify(m, i, n, p, c))
  {
  }

  lemma LaunchFine(m: Shared, i: nat, n: nat, p: Proc, c: Choice)
    requires p.VerifyCall? && p.verify.Launch?
    requires Tallied(m) && Justified(m) && Owned(m, i, p)
    ensures OwnerStepOrStop(m, i, n, StepVerify(m, i, n, p, c))
  {
  }

  lemma VerifyOwnerStep(m: Shared, i: nat, n: nat, p: Proc, c: Choice)
    requires p.VerifyCall? && OwnerPc(p.verify)
    requires Tallied(m) && Justified(m) && Owned(m, i, p)
    ensures OwnerStepOrStop(m, i, n, StepVerify(m, i, n, p, c))
  {
    hide StepVerify, Tallied, Justified, Owned, OwnerStepOrStop;
    match p.verify {
      case InsertVerify => InsertVerifyFine(m, i, n, p, c);
      case InsertActivate => InsertActivateFine(m, i, n, p, c);
      case SetVerifying => SetVerifyingFine(m, i, n, p, c);
      case Launch => LaunchFine(m, i, n, p, c);
    }
  }

  lemma CallVerifyFine(m: Shared, i: nat, n: nat, p: Proc, c: Choice)
    requires p.Completion? && p.completion.CallVerify?
    requires Tallied(m) && Justified(m) && Owned(m, i, p)
    ensures OwnerStepFine(m, i, n, StepCompletion(m, i, p, c))
  {
  }

  lemma MarkVerifiedFine(m: Shared, i: nat, n: nat, p: Proc, c: Choice)
    requires p.Completion? && p.completion.MarkVerified?
    requires Tallied(m) && Justified(m) && Owned(m, i, p)
    ensures OwnerStepFine(m, i, n, StepCompletion(m, i, p, c))
  {
  }

  lemma SetActivatingFine(m: Shared, i: nat, n: nat, p: Proc, c: Choice)
    requires p.Completion? && p.completion.SetActivating?
    requires Tallied(m) && Justified(m) && Owned(m, i, p)
    ensures OwnerStepFine(m, i, n, StepCompletion(m, i, p, c))
  {
  }

  lemma MarkActivatingFine(m: Shared, i: nat, n: nat, p: Proc, c: Choice)
    requires p.Completion? && p.completion.MarkActivating?
    requires Tallied(m) && Justified(m) && Owned(m, i, p)
    ensures OwnerStepFine(m, i, n, StepCompletion(m, i, p, c))
  {
  }

  lemma CallActivateFine(m: Shared, i: nat, n: nat, p: Proc, c: Choice)
    requires p.Completion? && p.completion.CallActivate?
    requires Tallied(m) && Justified(m) && Owned(m, i, p)
    ensures OwnerStepFine(m, i, n, StepCompletion(m, i, p, c))
  {
  }

  lemma MarkActivatedFine(m: Shared, i: nat, n: nat, p: Proc, c: Choice)
    requires p.Completion? && p.completion.MarkActivated?
    requires Tallied(m) && Justified(m) && Owned(m, i, p)
    ensures OwnerStepFine(m, i, n, StepCompletion(m, i, p, c))
  {
  }

  lemma SetCompletedFine(m: Shared, i: nat, n: nat, p: Proc, c: Choice)
    requires p.Completion? && p.completion.SetCompleted?
    requires Tallied(m) && Justified(m) && Owned(m, i, p)
    ensures OwnerStepFine(m, i, n, StepCompletion(m, i, p, c))
  {
  }

  lemma PublishCompletedFine(m: Shared, i: nat, n: nat, p: Proc, c: Choice)
    requires p.Completion? && p.completion.PublishCompleted?
    requires Tallied(m) && Justified(m) && Owned(m, i, p)
    ensures OwnerStepFine(m, i, n, StepCompletion(m, i, p, c))
  {
  }

  lemma FailVerificationFine(m: Shared, i: nat, n: nat, p: Proc, c: Choice)
    requires p.Completion? && p.completion.FailVerification?
    requires Tallied(m) && Justified(m) && Owned(m, i, p)
    ensures OwnerStepFine(m, i, n, StepCompletion(m, i, p, c))
  {
  }

  predicate Undoing(pc: CompletionPc) {
    pc.FailVerificationSession? || pc.UndoUser? || pc.UndoAuth? || pc.PublishVerificationFailed? || pc.CompletionDone?
  }

  lemma UndoingFine(m: Shared, i: nat, n: nat, pc: CompletionPc, v: Move)
    requires Tallied(m) && Justified(m) && Owned(m, i, Completion(pc)) && Bystander(m, v.mem)
    requires v.proc.Completion? && Undoing(v.proc.completion) && v.spawned.None?
    ensures OwnerStepFine(m, i, n, v)
  {
    BystanderKeepsGlobal(m, v.mem);
  }

  lemma CompletionUndoes(m: Shared, i: nat, n: nat, p: Proc, c: Choice)
    requires p.Completion? && Undoing(p.completion)
    requires Tallied(m) && Justified(m) && Owned(m, i, p)
    ensures OwnerStepFine(m, i, n, StepCompletion(m, i, p, c))
  {
    hide Bystander, WroteSession, Logged, Tallied, Justified, Owned, OwnerStepFine, SessionUser;
    HarmlessWrites(m);
    UndoingFine(m, i, n, p.completion, StepCompletion(m, i, p, c));
  }

  lemma CompletionStep(m: Shared, i: nat, n: nat, p: Proc, c: Choice)
    requires p.Completion? && Tallied(m) && Justified(m) && Owned(m, i, p)
    ensures OwnerStepFine(m, i, n, StepCompletion(m, i, p, c))
  {
    hide StepCompletion, Tallied, Justified, Owned, OwnerStepFine;
    match p.completion {
      case FailVerification(_) => FailVerificationFine(m, i, n, p, c);
      case CallVerify => CallVerifyFine(m, i, n, p, c);
      case MarkVerified => MarkVerifiedFine(m, i, n, p, c);
      case SetActivating => SetActivatingFine(m, i, n, p, c);
      case MarkActivating => MarkActivatingFine(m, i, n, p, c);
      case CallActivate => CallActivateFine(m, i, n, p, c);
      case MarkActivated => MarkActivatedFine(m, i, n, p, c);
      case SetCompleted => SetCompletedFine(m, i, n, p, c);
      case PublishCompleted => PublishCompletedFine(m, i, n, p, c);
      case _ => CompletionUndoes(m, i, n, p, c);
    }
  }

  // ----- Whole runs

  lemma StepsOfOthers(m: Shared, i: nat, n: nat, p: Proc, c: Choice)
    requires Placed(m, i, p) && !p.Completion? && (p.VerifyCall? ==> !OwnerPc(p.verify))
    ensures Bystander(m, Step(m, i, n, p, c).mem)
  {
    hide Bystander, StepStart, StepDispatch, StepHandler, StepVerify, StepStatusCall;
    match p {
      case StartCall(_, _) => StartBystander(m, i, n, p, c);
      case Dispatch(_) => DispatchBystander(m, p, c);
      case Handler(_, _, _, _) => HandlerBystander(m, i, p, c);
      case VerifyCall(_, _) => VerifyBystander(m, i, n, p, c);
      case StatusCall(_, _) => StatusBystander(m, p, c);
    }
  }

  /** Processes other than a completion move to control points that own nothing,
      except a verify call past its first INSERT. */
  lemma BystanderOwnsNothing(m: Shared, i: nat, n: nat, p: Proc, c: Choice)
    requires !p.Completion? && (p.VerifyCall? ==> !OwnerPc(p.verify))
    ensures var v := Step(m, i, n, p, c);
            forall m', k :: Owned(m', k, v.proc) && (v.spawned.Some? ==> Owned(m', k, v.spawned.value))
  {
    hide StepSync, StepCompensate;
  }

  lemma OwnerStep(m: Shared, i: nat, n: nat, p: Proc, c: Choice)
    requires p.Completion? || (p.VerifyCall? && OwnerPc(p.verify))
    requires Tallied(m) && Justified(m) && Owned(m, i, p)
    ensures var v := Step(m, i, n, p, c);
            OwnerStepFine(m, i, n, v)
            || (v.mem == m && Owned(m, i, v.proc) && v.spawned.None?)
  {
    hide StepCompletion, StepVerify, OwnerStepFine, Tallied, Justified;
    if p.Completion? { CompletionStep(m, i, n, p, c); } else { VerifyOwnerStep(m, i, n, p, c); }
  }

  lemma OwnerStepParts(m: Shared, i: nat, n: nat, v: Move)
    requires OwnerStepFine(m, i, n, v)
    ensures m.verifier == None || m.verifier == Some(i)
    ensures Tallied(v.mem) && Justified(v.mem) && Owned(v.mem, i, v.proc)
    ensures v.spawned.Some? ==> Owned(v.mem, n, v.spawned.value)
  {
  }

  lemma RunVerified(s: State, i: nat, c: Choice)
    requires Structured(s) && Verified(s) && Enabled(s, Run(i, c))
    ensures Verified(Exec(s, Run(i, c)))
  {
    hide Step, Bystander, Tallied, Justified, Owned, OwnerStepFine, Placed, Grounded;
    var m, p, n := s.mem, s.procs[i], |s.procs|;
    var v := Step(m, i, n, p, c);
    var s' := Exec(s, Run(i, c));
    if p.Completion? || (p.VerifyCall? && OwnerPc(p.verify)) {
      OwnerStep(m, i, n, p, c);
      if OwnerStepFine(m, i, n, v) { OwnerStepParts(m, i, n, v); }
      forall j | 0 <= j < n && j != i ensures Owned(v.mem, j, s.procs[j]) {
        if OwnerStepFine(m, i, n, v) { OthersOwnNothing(m, v.mem, i, j, s.procs[j]); }
      }
    } else {
      StepsOfOthers(m, i, n, p, c);
      BystanderKeepsGlobal(m, v.mem);
      BystanderOwnsNothing(m, i, n, p, c);
      forall j | 0 <= j < n && j != i ensures Owned(v.mem, j, s.procs[j]) {
        BystanderKeepsOwned(m, v.mem, j, s.procs[j]);
      }
    }
  }

  lemma ExecVerified(s: State, e: Event)
    requires Structured(s) && Verified(s)
    ensures Verified(Exec(s, e))
  {
    match e {
      case Spawn(p) =>
      case Run(i, c) => hide Step; if Enabled(s, e) { RunVerified(s, i, c); }
      case Redeliver(j) =>
    }
  }

  lemma {:induction false} AlwaysVerified(realtime: bool, events: seq<Event>)
    ensures Verified(After(Init(realtime), events))
  {
    if events != [] {
      hide Verified, Structured, Exec;
      var before := After(Init(realtime), events[..|events| - 1]);
      AlwaysStructured(realtime, events[..|events| - 1]);
      AlwaysVerified(realtime, events[..|events| - 1]);
      ExecVerified(before, events[|events| - 1]);
    }
  }

  /** In every run, at most one completion goroutine starts, so at most one
      activation call is made and at most one completed event is published. */
  lemma {:induction false} VerificationAtMostOnce(realtime: bool, events: seq<Event>)
    ensures var m := After(Init(realtime), events).mem;
            && Count(m, Launched) <= 1
            && Count(m, ActivateCalled) <= 1
            && Count(m, CompletedEvent) <= 1
  {
    AlwaysVerified(realtime, events);
  }

  /** In every run, `completed` is answered at most once, and never while it is
      still the stored status: answers, plus one if the status is `completed`, are
      bounded by the writes of `completed`, these by the inserts of the verify step, of
      which there is at most one. */
  lemma {:induction false} TokenClaimAtMostOnce(realtime: bool, events: seq<Event>)
    ensures var m := After(Init(realtime), events).mem;
            Count(m, TokenReturned) + (if HasStatus(m, Completed) then 1 else 0)
            <= Count(m, SessionWritten(Completed)) <= Count(m, VerifyInserted) <= 1
  {
    AlwaysVerified(realtime, events);
  }

  /** A completed or claimed session has both verification steps completed and an
      activation call that succeeded; an activating one has its verify step
      completed; and that step is completed only if auth-service accepted the code. */
  lemma {:induction false} StatusJustifiesSteps(realtime: bool, events: seq<Event>)
    ensures var m := After(Init(realtime), events).mem;
            && (HasStatus(m, Completed) || HasStatus(m, TokensClaimed) ==>
                  && HasStep(m, VerifyEmailCode, StepCompleted) && HasStep(m, ActivateUser, StepCompleted)
                  && ActivateSucceeded in m.log && Launched in m.log)
            && (HasStatus(m, ActivatingUser) ==> HasStep(m, VerifyEmailCode, StepCompleted))
            && (HasStep(m, VerifyEmailCode, StepCompleted) ==> CodeVerified in m.log)
  {
    AlwaysVerified(realtime, events);
  }
}
