/** The forward-only saga: when service calls do not overlap, each result is handled
    once and failures are neither lost nor overwritten, the session status only climbs,
    or drops to `failed` for good. */
module SagaForward {
  import opened Domain
  import opened Saga
  import opened SagaStructure
  import opened SagaVerification
  import opened SagaAgreement
  import opened SagaFalls
  import opened SagaStatements

  // ----- The hypotheses

  /** A service call in progress; the dispatch and completion goroutines are not calls. */
  predicate Active(q: Proc) {
    match q
    case StartCall(_, pc) => !pc.LookupEmail? && !pc.StartDone?
    case Handler(_, _, _, pc) => !pc.WriteStep? && !pc.HandlerDone?
    case VerifyCall(_, pc) => !pc.ReadForVerify? && !pc.VerifyDone?
    case StatusCall(_, pc) => pc.Claim?
    case _ => false
  }

  /** No process takes a step within another's service call, no result is redelivered,
      no auth success re-activates a failed mail step, and the write that records an
      unpublished command as a failed step succeeds. */
  predicate Orderly(s: State, e: Event) {
    && !e.Redeliver?
    && !ReactivatesMail(s, e)
    && (e.Run? && Enabled(s, e) ==>
          && (forall j :: 0 <= j < |s.procs| && j != e.i ==> !Active(s.procs[j]))
          && !(s.procs[e.i].Dispatch? && s.procs[e.i].dispatch.FailStep? && e.choice.Err?))
  }

  predicate OrderlyRun(s: State, events: seq<Event>) {
    forall t :: 0 <= t < |events| ==> Orderly(After(s, events[..t]), events[t])
  }

  predicate SameResult(p: Proc, q: Proc) {
    p.Handler? && q.Handler? && p.result == q.result
  }

  predicate HandledOnce(procs: seq<Proc>) {
    forall j, k :: 0 <= j < |procs| && 0 <= k < |procs| && SameResult(procs[j], procs[k]) ==> j == k
  }

  // ----- The invariant

  predicate SuccessOf(q: Proc, r: Result) {
    q.Handler? && q.result == r && q.success && !q.handler.WriteStep?
  }

  predicate HasSuccess(procs: seq<Proc>, r: Result) {
    exists j :: 0 <= j < |procs| && SuccessOf(procs[j], r)
  }

  /** All three results have been handled, with success. */
  predicate Graduated(procs: seq<Proc>) {
    HasSuccess(procs, UserResult) && HasSuccess(procs, AuthResult) && HasSuccess(procs, MailResult)
  }

  /** Results are still being handled. */
  predicate Early(m: Shared) {
    HasStatus(m, InProgress) || (HasStatus(m, Failed) && HasFailed(m.steps))
  }

  predicate SyncReady(m: Shared, pc: SyncPc) {
    && Early(m)
    && (pc.Commit? ==> pc.snapshot == m.steps)
    && (pc.Compensate? ==> HasFailed(m.steps))
  }

  /** What a process relies on for its next write of the session status. */
  predicate Ready(m: Shared, q: Proc) {
    match q
    case Handler(_, _, _, pc) =>
      && (pc.ActivateMail? || pc.PublishCodeSent? || pc.DirectCompensate? ==> Early(m))
      && (pc.DirectCompensate? ==> HasFailed(m.steps))
      && (pc.HandlerSync? ==> SyncReady(m, pc.sync))
    case VerifyCall(_, pc) =>
      && (pc.VerifySync? ==> SyncReady(m, pc.sync))
      && (pc.InsertVerify? || pc.InsertActivate? || pc.SetVerifying? ==> HasStatus(m, CodeSent))
      && (pc.Launch? ==> HasStatus(m, VerifyingEmail))
    case Completion(pc) =>
      && (pc.CallVerify? || pc.MarkVerified? || pc.SetActivating? ==> HasStatus(m, VerifyingEmail))
      && (pc.MarkActivating? || pc.CallActivate? || pc.MarkActivated? || pc.SetCompleted?
        ==> HasStatus(m, ActivatingUser))
    case Dispatch(pc) => pc.FailSession? ==> pc.stepWritten && HasFailed(m.steps)
    case _ => true
  }

  predicate PastResults(m: Shared) {
    m.session.Some? && 2 <= Height(m.session.value.status) <= 6
  }

  predicate Explained(s: State) {
    && (forall r: Result :: HasStep(s.mem, r.Key(), StepCompleted) ==> HasSuccess(s.procs, r))
    && (PastResults(s.mem) || VerifyEmailCode in s.mem.steps ==> Graduated(s.procs))
    && (HasStatus(s.mem, Failed) ==> HasFailed(s.mem.steps) || Graduated(s.procs))
  }

  predicate Onward(s: State) {
    Explained(s) && forall j :: 0 <= j < |s.procs| ==> Ready(s.mem, s.procs[j])
  }

  // ----- One process's own step

  /** Who may write the session status, by the status found. */
  predicate MayWrite(m: Shared, p: Proc) {
    p.Completion? || p.Dispatch? || HasStatus(m, CodeSent) || HasStatus(m, Completed) || Early(m)
  }

  predicate OwnFine(m: Shared, p: Proc, v: Move) {
    && Climbs(m, v.mem)
    && Ready(v.mem, v.proc) && (v.spawned.Some? ==> Ready(v.mem, v.spawned.value))
    && (m.session.Some? && v.mem.session != m.session ==> MayWrite(m, p))
    && (HasStatus(v.mem, Failed) ==> HasStatus(m, Failed) || HasFailed(v.mem.steps) || p.Completion?)
    && (PastResults(v.mem) ==> PastResults(m) || (AllCompleted(m.steps) && HasInitialSteps(m.steps)))
    && (VerifyEmailCode in v.mem.steps ==> VerifyEmailCode in m.steps || HasStatus(m, CodeSent))
  }

  /** A step that leaves the status alone. */
  predicate Unmoved(m: Shared, m': Shared) {
    m'.session == m.session && (VerifyEmailCode in m'.steps ==> VerifyEmailCode in m.steps)
  }

  lemma WritesUnmoved(m: Shared)
    ensures Unmoved(m, m) && Unmoved(m, m.(userSent := true)) && Unmoved(m, m.(authSent := true))
    ensures forall k, st :: Unmoved(m, WroteStep(m, k, st))
    ensures forall e :: Unmoved(m, Logged(m, e))
    ensures forall e, e' :: Unmoved(m, Logged(Logged(m, e), e'))
    ensures forall n :: Unmoved(m, Logged(m.(verifier := Some(n)), Launched))
  {
  }

  lemma UnmovedFine(m: Shared, p: Proc, v: Move)
    requires Unmoved(m, v.mem)
    requires Ready(v.mem, v.proc) && (v.spawned.Some? ==> Ready(v.mem, v.spawned.value))
    ensures OwnFine(m, p, v)
  {
    hide HasFailed, AllCompleted, Ready;
  }

  lemma CompensateForward(m: Shared, i: nat, given: string, pc: CompensatePc, c: Choice)
    requires Early(m) && HasFailed(m.steps)
    ensures var m' := StepCompensate(m, i, given, pc, c).0;
            Early(m') && m'.steps == m.steps && Climbs(m, m')
  {
    hide HasFailed;
  }

  lemma SyncForward(m: Shared, i: nat, pc: SyncPc, c: Choice)
    requires SyncReady(m, pc) && HasInitialSteps(m.steps)
    ensures var (m', next) := StepSync(m, i, pc, c);
            && m'.steps == m.steps && Climbs(m, m')
            && (next.At? ==> SyncReady(m', next.pc))
            && (HasStatus(m', Failed) ==> HasStatus(m, Failed) || HasFailed(m.steps))
            && (PastResults(m') ==> AllCompleted(m.steps))
  {
    hide StepCompensate, HasFailed, AllCompleted;
    if pc.Compensate? { CompensateForward(m, i, "", pc.comp, c); }
  }

  lemma HandlerSyncs(m: Shared, i: nat, p: Proc, c: Choice)
    requires p.Handler? && Ready(m, p) && HasInitialSteps(m.steps)
    requires p.handler.HandlerSync? || p.handler.DirectCompensate?
    ensures OwnFine(m, p, StepHandler(m, i, p, c))
  {
    hide StepCompensate, StepSync, HasFailed, AllCompleted;
    match p.handler {
      case DirectCompensate(comp) => CompensateForward(m, i, p.userId, comp, c);
      case HandlerSync(sync) => SyncForward(m, i, sync, c);
    }
  }

  lemma MarkKeepsFailed(steps: Steps, key: StepKey)
    requires HasFailed(steps) && !(key in steps && steps[key] == StepFailed)
    ensures HasFailed(UpdatedStep(steps, key, StepInProgress))
  {
    var k :| k in steps && steps[k] == StepFailed;
    assert UpdatedStep(steps, key, StepInProgress)[k] == StepFailed;
  }

  lemma HandlerMarks(m: Shared, i: nat, p: Proc, c: Choice)
    requires p.Handler? && Ready(m, p) && p.handler.ActivateMail? && !HasStep(m, MailSendCode, StepFailed)
    ensures OwnFine(m, p, StepHandler(m, i, p, c))
  {
    hide StepCompensate, StepSync, HasFailed, AllCompleted;
    if HasFailed(m.steps) { MarkKeepsFailed(m.steps, MailSendCode); }
  }

  lemma HandlerReports(m: Shared, i: nat, p: Proc, c: Choice)
    requires p.Handler? && Ready(m, p)
    requires p.handler.PublishCodeSent? || p.handler.ReadReady? || p.handler.Notify? || p.handler.HandlerDone?
    ensures OwnFine(m, p, StepHandler(m, i, p, c))
  {
    hide StepCompensate, StepSync, HasFailed, AllCompleted, WroteStep, OwnFine;
    UnmovedFine(m, p, StepHandler(m, i, p, c));
  }

  lemma HandlerForward(m: Shared, i: nat, p: Proc, c: Choice)
    requires p.Handler? && Ready(m, p) && HasInitialSteps(m.steps)
    requires p.handler.WriteStep? ==>
               Early(m) && (HasFailed(m.steps) ==> HasFailed(StepHandler(m, i, p, c).mem.steps))
    requires p.handler.ActivateMail? ==> !HasStep(m, MailSendCode, StepFailed)
    ensures OwnFine(m, p, StepHandler(m, i, p, c))
  {
    hide OwnFine, Ready, StepHandler, HasFailed;
    match p.handler {
      case WriteStep => WriteForward(m, i, p, c);
      case DirectCompensate(_) => HandlerSyncs(m, i, p, c);
      case HandlerSync(_) => HandlerSyncs(m, i, p, c);
      case ActivateMail => HandlerMarks(m, i, p, c);
      case _ => HandlerReports(m, i, p, c);
    }
  }

  lemma WriteForward(m: Shared, i: nat, p: Proc, c: Choice)
    requires p.Handler? && p.handler.WriteStep? && Early(m) && HasInitialSteps(m.steps)
    requires HasFailed(m.steps) ==> HasFailed(StepHandler(m, i, p, c).mem.steps)
    ensures OwnFine(m, p, StepHandler(m, i, p, c))
  {
    hide StepCompensate, StepSync, HasFailed, AllCompleted;
    FailedWriteShows(m, p.result.Key());
  }

  lemma VerifyReadsForward(m: Shared, i: nat, n: nat, p: Proc, c: Choice)
    requires p.VerifyCall? && Ready(m, p)
    requires p.verify.ReadForVerify? || p.verify.RereadForVerify? || p.verify.Launch? || p.verify.VerifyDone?
    ensures OwnFine(m, p, StepVerify(m, i, n, p, c))
  {
    hide StepSync, HasFailed, AllCompleted, Logged, OwnFine;
    WritesUnmoved(m);
    UnmovedFine(m, p, StepVerify(m, i, n, p, c));
  }

  lemma VerifyWrites(m: Shared, i: nat, n: nat, p: Proc, c: Choice)
    requires p.VerifyCall? && Ready(m, p)
    requires p.verify.InsertVerify? || p.verify.InsertActivate? || p.verify.SetVerifying?
    ensures OwnFine(m, p, StepVerify(m, i, n, p, c))
  {
    hide StepSync, HasFailed, AllCompleted;
  }

  lemma VerifySyncs(m: Shared, i: nat, n: nat, p: Proc, c: Choice)
    requires p.VerifyCall? && Ready(m, p) && p.verify.VerifySync? && HasInitialSteps(m.steps)
    ensures OwnFine(m, p, StepVerify(m, i, n, p, c))
  {
    hide StepSync, HasFailed, AllCompleted;
    SyncForward(m, i, p.verify.sync, c);
  }

  lemma VerifyForward(m: Shared, i: nat, n: nat, p: Proc, c: Choice)
    requires p.VerifyCall? && Ready(m, p)
    requires p.verify.VerifySync? ==> HasInitialSteps(m.steps)
    ensures OwnFine(m, p, StepVerify(m, i, n, p, c))
  {
    hide OwnFine, Ready, StepVerify;
    match p.verify {
      case VerifySync(_) => VerifySyncs(m, i, n, p, c);
      case InsertVerify => VerifyWrites(m, i, n, p, c);
      case InsertActivate => VerifyWrites(m, i, n, p, c);
      case SetVerifying => VerifyWrites(m, i, n, p, c);
      case _ => VerifyReadsForward(m, i, n, p, c);
    }
  }

  lemma CompletionWrites(m: Shared, i: nat, p: Proc, c: Choice)
    requires p.Completion? && Ready(m, p) && VerifyEmailCode in m.steps
    requires p.completion.SetActivating? || p.completion.SetCompleted? || p.completion.FailVerificationSession?
    ensures OwnFine(m, p, StepCompletion(m, i, p, c))
  {
    hide HasFailed, AllCompleted, SessionUser;
  }

  lemma CompletionMarks(m: Shared, i: nat, p: Proc, c: Choice)
    requires p.Completion? && Ready(m, p)
    requires !(p.completion.SetActivating? || p.completion.SetCompleted? || p.completion.FailVerificationSession?)
    ensures OwnFine(m, p, StepCompletion(m, i, p, c))
  {
    hide HasFailed, AllCompleted, SessionUser, WroteStep, Logged, OwnFine;
    WritesUnmoved(m);
    UnmovedFine(m, p, StepCompletion(m, i, p, c));
  }

  lemma CompletionForward(m: Shared, i: nat, p: Proc, c: Choice)
    requires p.Completion? && Ready(m, p) && VerifyEmailCode in m.steps
    ensures OwnFine(m, p, StepCompletion(m, i, p, c))
  {
    hide OwnFine, Ready, StepCompletion;
    if p.completion.SetActivating? || p.completion.SetCompleted? || p.completion.FailVerificationSession? {
      CompletionWrites(m, i, p, c);
    } else {
      CompletionMarks(m, i, p, c);
    }
  }

  lemma DispatchWrites(m: Shared, i: nat, p: Proc, c: Choice)
    requires p.Dispatch? && Ready(m, p) && Placed(m, i, p) && Grounded(m)
    requires p.dispatch.MarkSession? || p.dispatch.FailSession?
    ensures OwnFine(m, p, StepDispatch(m, p, c))
  {
    hide HasFailed, AllCompleted;
  }

  lemma DispatchForward(m: Shared, i: nat, p: Proc, c: Choice)
    requires p.Dispatch? && Ready(m, p) && Placed(m, i, p) && Grounded(m)
    requires !(p.dispatch.FailStep? && c.Err?)
    ensures OwnFine(m, p, StepDispatch(m, p, c))
  {
    if p.dispatch.MarkSession? || p.dispatch.FailSession? {
      DispatchWrites(m, i, p, c);
    } else {
      hide HasFailed, AllCompleted, WroteStep, OwnFine;
      WritesUnmoved(m);
      if p.dispatch.FailStep? { FailedWriteShows(m, p.dispatch.lost.Key()); }
      UnmovedFine(m, p, StepDispatch(m, p, c));
    }
  }

  lemma StartForward(m: Shared, i: nat, n: nat, p: Proc, c: Choice)
    requires p.StartCall? && (Creating(p.start) || p.start.StartDone? || p.row.status == Started)
    ensures OwnFine(m, p, StepStart(m, i, n, p, c))
  {
    hide HasFailed, AllCompleted;
  }

  lemma StatusForward(m: Shared, p: Proc, c: Choice)
    requires p.StatusCall?
    ensures OwnFine(m, p, StepStatusCall(m, p, c))
  {
    hide HasFailed, AllCompleted;
  }

  lemma StepForward(m: Shared, i: nat, n: nat, p: Proc, c: Choice)
    requires Ready(m, p) && Placed(m, i, p) && Grounded(m) && Owned(m, i, p)
    requires p.Handler? && p.handler.WriteStep? ==>
               Early(m) && (HasFailed(m.steps) ==> HasFailed(Step(m, i, n, p, c).mem.steps))
    requires p.Handler? && p.handler.ActivateMail? ==> !HasStep(m, MailSendCode, StepFailed)
    requires p.Dispatch? && p.dispatch.FailStep? ==> c.Ok?
    ensures OwnFine(m, p, Step(m, i, n, p, c))
  {
    hide OwnFine, Ready, Early, HasFailed, StepStart, StepDispatch, StepHandler, StepVerify, StepCompletion,
      StepStatusCall;
    match p {
      case StartCall(_, _) => StartForward(m, i, n, p, c);
      case Dispatch(_) => DispatchForward(m, i, p, c);
      case Handler(_, _, _, _) => HandlerForward(m, i, p, c);
      case VerifyCall(_, _) => VerifyForward(m, i, n, p, c);
      case Completion(_) => CompletionForward(m, i, p, c);
      case StatusCall(_, _) => StatusForward(m, p, c);
    }
  }

  // ----- Successes and completed steps

  /** An initial step is completed only by a successful result. */
  lemma CompletedBySuccess(m: Shared, i: nat, n: nat, p: Proc, c: Choice, r: Result)
    requires HasStep(Step(m, i, n, p, c).mem, r.Key(), StepCompleted)
    ensures HasStep(m, r.Key(), StepCompleted) || SuccessOf(Step(m, i, n, p, c).proc, r)
  {
    hide Step, StatementOf, SuccessOf;
    StepRuns("", m, i, n, p, c);
    CompletingStatement(p, c, r);
    if p.Handler? && p.handler.WriteStep? && p.success && c.Ok? { WritePasses(m, i, n, p, c); }
  }

  lemma CompletingStatement(p: Proc, c: Choice, r: Result)
    ensures var q := StatementOf("", p, c);
            q.Some? && q.value.SetStepStatus? && q.value.step.key == r.Key() && q.value.status == StepCompleted ==>
              c.Ok? && p.Handler? && p.handler.WriteStep? && p.success && p.result == r
    ensures var q := StatementOf("", p, c); q.Some? && q.value.InsertStep? ==> q.value.status != StepCompleted
    ensures var q := StatementOf("", p, c); q.Some? ==> !q.value.DeleteStep?
  {
  }

  lemma WritePasses(m: Shared, i: nat, n: nat, p: Proc, c: Choice)
    requires p.Handler? && p.handler.WriteStep? && p.success && c.Ok?
    ensures SuccessOf(Step(m, i, n, p, c).proc, p.result)
  {
    hide UpdatedStep;
  }

  lemma SuccessStays(m: Shared, i: nat, n: nat, p: Proc, c: Choice)
    requires p.Handler?
    ensures var q := Step(m, i, n, p, c).proc;
            q.Handler? && q.result == p.result && q.success == p.success
              && (!p.handler.WriteStep? ==> !q.handler.WriteStep?)
  {
    hide StepSync, StepCompensate, UpdatedStep;
  }

  lemma RunKeepsSuccess(s: State, i: nat, c: Choice, r: Result)
    requires Enabled(s, Run(i, c)) && HasSuccess(s.procs, r)
    ensures HasSuccess(Exec(s, Run(i, c)).procs, r)
  {
    hide Step, NeedsRowLock;
    var j :| 0 <= j < |s.procs| && SuccessOf(s.procs[j], r);
    var s' := Exec(s, Run(i, c));
    if j == i { SuccessStays(s.mem, i, |s.procs|, s.procs[i], c); }
    assert SuccessOf(s'.procs[j], r);
  }

  lemma RunKeepsGraduation(s: State, i: nat, c: Choice)
    requires Enabled(s, Run(i, c)) && Graduated(s.procs)
    ensures Graduated(Exec(s, Run(i, c)).procs)
  {
    hide Exec, HasSuccess;
    RunKeepsSuccess(s, i, c, UserResult);
    RunKeepsSuccess(s, i, c, AuthResult);
    RunKeepsSuccess(s, i, c, MailResult);
  }

  lemma OnceBefore(s: State, e: Event)
    requires HandledOnce(Exec(s, e).procs)
    ensures HandledOnce(s.procs)
  {
    hide Step, NeedsRowLock;
    var s' := Exec(s, e);
    if e.Run? && Enabled(s, e) && s.procs[e.i].Handler? {
      SuccessStays(s.mem, e.i, |s.procs|, s.procs[e.i], e.choice);
    }
    forall j, k | 0 <= j < |s.procs| && 0 <= k < |s.procs| && SameResult(s.procs[j], s.procs[k]) ensures j == k {
      assert SameResult(s'.procs[j], s'.procs[k]);
    }
  }

  // ----- One event

  /** The write of a result finds the session early. */
  lemma ResultsComeEarly(s: State, i: nat)
    requires Structured(s) && Explained(s) && HandledOnce(s.procs)
    requires i < |s.procs| && s.procs[i].Handler? && s.procs[i].handler.WriteStep?
    ensures Early(s.mem) && !Graduated(s.procs) && VerifyEmailCode !in s.mem.steps
  {
    hide HasFailed;
    assert Placed(s.mem, i, s.procs[i]);
    assert forall j :: 0 <= j < |s.procs| && j != i ==> !SameResult(s.procs[i], s.procs[j]);
  }

  /** A command whose publication failed has no success, so its session has not graduated. */
  lemma AccusedNotGraduated(procs: seq<Proc>, j: nat)
    requires Agree(procs) && j < |procs| && procs[j].Dispatch? && procs[j].dispatch.FailSession?
    ensures !Graduated(procs)
  {
    assert forall k :: 0 <= k < |procs| ==> Compatible(procs[j], procs[k]);
  }

  lemma DispatchSessionWrites(m: Shared, i: nat, n: nat, p: Proc, c: Choice)
    requires p.Dispatch? && Step(m, i, n, p, c).mem.session != m.session
    ensures p.dispatch.MarkSession? || p.dispatch.FailSession?
  {
    hide UpdatedStep;
  }

  lemma OthersReady(s: State, i: nat, c: Choice, j: nat)
    requires Structured(s) && Verified(s) && Explained(s) && Agree(s.procs)
    requires i < |s.procs| && j < |s.procs| && i != j && !Active(s.procs[j]) && Ready(s.mem, s.procs[j])
    requires var v := Step(s.mem, i, |s.procs|, s.procs[i], c);
             && OwnFine(s.mem, s.procs[i], v)
             && (VerifyEmailCode in v.mem.steps || (HasFailed(s.mem.steps) ==> HasFailed(v.mem.steps)))
    ensures Ready(Step(s.mem, i, |s.procs|, s.procs[i], c).mem, s.procs[j])
  {
    hide Step, HasFailed, AllCompleted, Graduated, Agree, Grounded, Tallied, Justified;
    var m, p, q := s.mem, s.procs[i], s.procs[j];
    var v := Step(m, i, |s.procs|, p, c);
    assert Owned(m, i, p) && Owned(m, j, q) && Placed(m, i, p);
    if q.Dispatch? && q.dispatch.FailSession? { AccusedNotGraduated(s.procs, j); }
    if q.Completion? && p.Dispatch? && v.mem.session != m.session {
      DispatchSessionWrites(m, i, |s.procs|, p, c);
      if p.dispatch.FailSession? { AccusedNotGraduated(s.procs, i); }
    }
  }

  lemma RunExplained(s: State, i: nat, c: Choice)
    requires Structured(s) && Verified(s) && Explained(s) && Enabled(s, Run(i, c))
    requires OwnFine(s.mem, s.procs[i], Step(s.mem, i, |s.procs|, s.procs[i], c))
    requires VerifyEmailCode in Exec(s, Run(i, c)).mem.steps || FailureLasts(s, Run(i, c))
    ensures Explained(Exec(s, Run(i, c)))
  {
    hide Step, HasFailed, NeedsRowLock, Ready, Grounded, Placed, Tallied, Justified, HasSuccess, SuccessOf;
    var m, p, s' := s.mem, s.procs[i], Exec(s, Run(i, c));
    assert Owned(m, i, p);
    forall r: Result | HasStep(s'.mem, r.Key(), StepCompleted) ensures HasSuccess(s'.procs, r) {
      CompletedBySuccess(m, i, |s.procs|, p, c, r);
      if HasStep(m, r.Key(), StepCompleted) { RunKeepsSuccess(s, i, c, r); } else { HasOne(s'.procs, i, r); }
    }
    if Graduated(s.procs) { RunKeepsGraduation(s, i, c); }
    if AllCompleted(m.steps) && HasInitialSteps(m.steps) { CompleteIsGraduated(s); }
  }

  lemma HasOne(procs: seq<Proc>, j: nat, r: Result)
    requires j < |procs| && SuccessOf(procs[j], r)
    ensures HasSuccess(procs, r)
  {
  }

  lemma CompleteIsGraduated(s: State)
    requires Explained(s) && AllCompleted(s.mem.steps) && HasInitialSteps(s.mem.steps)
    ensures Graduated(s.procs)
  {
    hide HasSuccess, HasFailed;
    assert HasStep(s.mem, UserResult.Key(), StepCompleted);
    assert HasStep(s.mem, AuthResult.Key(), StepCompleted);
    assert HasStep(s.mem, MailResult.Key(), StepCompleted);
  }

  lemma RunOnward(s: State, i: nat, c: Choice)
    requires Structured(s) && Verified(s) && Onward(s) && Enabled(s, Run(i, c)) && Orderly(s, Run(i, c))
    requires HandledOnce(s.procs) && Agree(s.procs)
    requires VerifyEmailCode in Exec(s, Run(i, c)).mem.steps || FailureLasts(s, Run(i, c))
    ensures Onward(Exec(s, Run(i, c))) && Climbs(s.mem, Exec(s, Run(i, c)).mem)
  {
    hide Step, HasFailed, NeedsRowLock, Placed, Grounded, Tallied, Justified, HandledOnce, Agree, Ready, Explained,
      Active, Early;
    var m, p, n := s.mem, s.procs[i], |s.procs|;
    var v := Step(m, i, n, p, c);
    if p.Handler? && p.handler.WriteStep? {
      ResultsComeEarly(s, i);
      WriteInsertsNothing(m, i, n, p, c);
    }
    StepForward(m, i, n, p, c);
    RunExplained(s, i, c);
    forall j | 0 <= j < n && j != i ensures Ready(v.mem, s.procs[j]) { OthersReady(s, i, c, j); }
  }

  lemma WriteInsertsNothing(m: Shared, i: nat, n: nat, p: Proc, c: Choice)
    requires p.Handler? && VerifyEmailCode !in m.steps
    ensures VerifyEmailCode !in Step(m, i, n, p, c).mem.steps
  {
    hide Step;
    StepRuns("", m, i, n, p, c);
  }

  // ----- Whole runs

  lemma EventOnward(s: State, e: Event)
    requires Structured(s) && Verified(s) && Onward(s) && Orderly(s, e)
    requires HandledOnce(s.procs) && Agree(s.procs)
    requires VerifyEmailCode in Exec(s, e).mem.steps || FailureLasts(s, e)
    ensures Onward(Exec(s, e)) && Climbs(s.mem, Exec(s, e).mem)
  {
    if Enabled(s, e) {
      match e {
        case Run(i, c) => RunOnward(s, i, c);
        case Spawn(p) => hide HasFailed, Agree, HandledOnce; SpawnOnward(s, p);
        case Redeliver(j) =>
      }
    }
  }

  lemma SpawnOnward(s: State, p: Proc)
    requires Onward(s) && Enabled(s, Spawn(p))
    ensures Onward(Exec(s, Spawn(p)))
  {
    hide HasFailed;
    var s' := Exec(s, Spawn(p));
    assert forall r :: HasSuccess(s.procs, r) ==> HasSuccess(s'.procs, r) by {
      forall r | HasSuccess(s.procs, r) ensures HasSuccess(s'.procs, r) {
        var j :| 0 <= j < |s.procs| && SuccessOf(s.procs[j], r);
        HasOne(s'.procs, j, r);
      }
    }
  }

  lemma {:induction false} OrderlyBefore(s: State, init: seq<Event>, e: Event)
    requires OrderlyRun(s, init + [e])
    ensures OrderlyRun(s, init) && Orderly(After(s, init), e)
  {
    hide After, Orderly;
    var events := init + [e];
    assert events[..|init|] == init && events[|init|] == e;
    forall t | 0 <= t < |init| ensures Orderly(After(s, init[..t]), init[t]) {
      assert init[..t] == events[..t] && init[t] == events[t];
    }
  }

  /** Before verification failures last, because results agree. */
  lemma {:induction false} FailureLastsUntilVerified(realtime: bool, init: seq<Event>, e: Event)
    requires var s := After(Init(realtime), init); Agree(Exec(s, e).procs) && !ReactivatesMail(s, e)
    ensures var s := After(Init(realtime), init);
            VerifyEmailCode in Exec(s, e).mem.steps || FailureLasts(s, e)
  {
    hide After, Exec, Agree, ReactivatesMail, FailureLasts;
    if VerifyEmailCode !in Exec(After(Init(realtime), init), e).mem.steps { LastFailureLasts(realtime, init, e); }
  }

  lemma {:induction false} AlwaysOnward(realtime: bool, events: seq<Event>)
    requires OrderlyRun(Init(realtime), events)
    requires var s := After(Init(realtime), events); HandledOnce(s.procs) && Agree(s.procs)
    ensures Onward(After(Init(realtime), events))
    ensures events != [] ==>
              Climbs(After(Init(realtime), events[..|events| - 1]).mem, After(Init(realtime), events).mem)
  {
    hide Onward, Exec, Orderly, HandledOnce, Agree, Structured, Verified, FailureLasts, Climbs, ReactivatesMail,
      OrderlyRun;
    if events == [] {
      InitOnward(realtime);
    } else {
      var init, e := events[..|events| - 1], events[|events| - 1];
      var s := After(Init(realtime), init);
      assert events == init + [e];
      OrderlyBefore(Init(realtime), init, e);
      OnceBefore(s, e);
      AgreedBefore(s, e);
      AlwaysOnward(realtime, init);
      AlwaysStructured(realtime, init);
      AlwaysVerified(realtime, init);
      OrderlyRespects(s, e);
      FailureLastsUntilVerified(realtime, init, e);
      EventOnward(s, e);
    }
  }

  lemma InitOnward(realtime: bool)
    ensures Onward(Init(realtime))
  {
  }

  lemma OrderlyRespects(s: State, e: Event)
    requires Orderly(s, e)
    ensures !ReactivatesMail(s, e)
  {
    hide Enabled, Active;
  }

  /** Forward only.  If service calls do not overlap (goroutines run between them), each
      result is handled once, an unpublished command gets no success, mail never fails
      before the auth success and a failed step is recorded, then from any point of a run
      to any later one the status climbs started < in_progress < code_sent < verifying <
      activating < completed < claimed, or has dropped to `failed`, which it never leaves. */
  lemma {:induction false} ForwardOnly(realtime: bool, events: seq<Event>, t: nat)
    requires t <= |events| && OrderlyRun(Init(realtime), events)
    requires var s := After(Init(realtime), events); HandledOnce(s.procs) && Agree(s.procs)
    ensures Climbs(After(Init(realtime), events[..t]).mem, After(Init(realtime), events).mem)
  {
    hide Exec, Orderly, HandledOnce, Agree, OrderlyRun;
    if t == |events| {
      assert events[..t] == events;
    } else {
      var init, e := events[..|events| - 1], events[|events| - 1];
      assert events == init + [e] && init[..t] == events[..t];
      OrderlyBefore(Init(realtime), init, e);
      OnceBefore(After(Init(realtime), init), e);
      AgreedBefore(After(Init(realtime), init), e);
      ForwardOnly(realtime, init, t);
      AlwaysOnward(realtime, events);
    }
  }

  /** In other words: under these hypotheses none of the lowering writes happens. */
  lemma {:induction false} OrderlyNeverLowers(realtime: bool, events: seq<Event>)
    requires OrderlyRun(Init(realtime), events)
    requires var s := After(Init(realtime), events); HandledOnce(s.procs) && Agree(s.procs)
    ensures NeverLowers(realtime, events)
  {
    hide After, Orderly, HandledOnce, Agree, OrderlyRun, Lowers, NeverLowers;
    if events == [] {
      NothingLowered(realtime);
    } else {
      var init, e := events[..|events| - 1], events[|events| - 1];
      assert events == init + [e];
      AfterLast(Init(realtime), init, e);
      OrderlyBefore(Init(realtime), init, e);
      OnceBefore(After(Init(realtime), init), e);
      AgreedBefore(After(Init(realtime), init), e);
      OrderlyNeverLowers(realtime, init);
      AlwaysOnward(realtime, events);
      StatusFallsIff(realtime, init, e);
      NeverLowersLonger(realtime, init, e);
    }
  }

  lemma NothingLowered(realtime: bool)
    ensures NeverLowers(realtime, [])
  {
  }

  lemma {:induction false} NeverLowersLonger(realtime: bool, init: seq<Event>, e: Event)
    requires NeverLowers(realtime, init) && !Lowers(After(Init(realtime), init), e)
    ensures NeverLowers(realtime, init + [e])
  {
    hide After, Lowers;
    var events := init + [e];
    forall t | 0 <= t < |events| ensures !Lowers(After(Init(realtime), events[..t]), events[t]) {
      if t < |init| { assert init[..t] == events[..t] && init[t] == events[t]; } else { assert events[..t] == init; }
    }
  }
}
