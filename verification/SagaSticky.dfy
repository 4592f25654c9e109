/** A failed step stays failed until a success for that step overwrites it, so the
    failure sticks for every result handled in between. */
module SagaSticky {
  import opened Domain
  import opened Saga
  import opened SagaStructure
  import opened SagaVerification
  import opened SagaGate
  import opened SagaQuiescence
  import opened SagaCompensation
  import opened SagaStatements

  // ----- Before any command is sent nothing has failed or completed

  predicate Pristine(m: Shared) {
    Calm(m) && VerifyEmailCode !in m.steps && !Opened(m.log)
  }

  predicate FailingDispatch(q: Proc) {
    q.Dispatch? && (q.dispatch.FailStep? || q.dispatch.FailSession?)
  }

  predicate Unsent(s: State) {
    && (!Commanded(s.mem) ==> Pristine(s.mem))
    && forall j :: 0 <= j < |s.procs| && FailingDispatch(s.procs[j]) ==> Commanded(s.mem)
  }

  lemma CalmNotComplete(m: Shared, m': Shared)
    requires Calm(m) && !Opened(m.log) && Honest(m, m')
    ensures !Opened(m'.log)
  {
  }

  /** The statements that run before any command is sent only insert pending steps and
      mark them in progress. */
  lemma EarlyStatement(m: Shared, p: Proc, c: Choice)
    requires !p.Handler? && !p.Completion? && !FailingDispatch(p)
    requires p.VerifyCall? ==> !OwnerPc(p.verify)
    ensures var q := StatementOf("", p, c);
            q.Some? ==>
              match q.value
              case InsertStep(step, status) => status == StepPending && step.key != VerifyEmailCode
              case SetStepStatus(step, status) => status == StepInProgress
              case DeleteStep(_) => false
              case _ => true
  {
    hide Aggregate;
  }

  lemma PristineStep(m: Shared, i: nat, n: nat, p: Proc, c: Choice)
    requires Pristine(m) && !p.Handler? && !p.Completion? && !FailingDispatch(p)
    requires p.VerifyCall? ==> !OwnerPc(p.verify)
    ensures Pristine(Step(m, i, n, p, c).mem)
  {
    hide Step, StatementOf, Opened, Honest;
    StepRuns("", m, i, n, p, c);
    EarlyStatement(m, p, c);
    StepHonest(m, i, n, p, c);
    CalmNotComplete(m, Step(m, i, n, p, c).mem);
  }

  lemma FailingIsCommanded(m: Shared, i: nat, n: nat, p: Proc, c: Choice)
    requires FailingDispatch(p) ==> Commanded(m)
    ensures var v := Step(m, i, n, p, c);
            && (FailingDispatch(v.proc) ==> Commanded(v.mem)) && (v.spawned.Some? ==> !FailingDispatch(v.spawned.value))
            && (Commanded(m) ==> Commanded(v.mem))
  {
    hide StepHandler, StepVerify, StepStart, StepCompletion, StepStatusCall;
    if !p.Dispatch? { OthersKeepCommands(m, i, n, p, c); }
  }

  predicate SameCommands(m: Shared, m': Shared) {
    m'.userSent == m.userSent && m'.authSent == m.authSent
  }

  lemma WritesKeepCommands(m: Shared)
    ensures SameCommands(m, m)
    ensures forall k, st :: SameCommands(m, WroteStep(m, k, st))
    ensures forall st :: SameCommands(m, WroteSession(m, st))
    ensures forall e :: SameCommands(m, Logged(m, e))
    ensures forall e, e' :: SameCommands(m, Logged(Logged(m, e), e'))
  {
  }

  lemma CompensateKeepsCommands(m: Shared, i: nat, given: string, pc: CompensatePc, c: Choice)
    ensures SameCommands(m, StepCompensate(m, i, given, pc, c).0)
  {
    hide WroteSession, Logged, SameCommands;
    WritesKeepCommands(m);
  }

  lemma SyncKeepsCommands(m: Shared, i: nat, pc: SyncPc, c: Choice)
    ensures SameCommands(m, StepSync(m, i, pc, c).0)
  {
    hide StepCompensate, UpdatedSession, Aggregate;
    if pc.Compensate? { CompensateKeepsCommands(m, i, "", pc.comp, c); }
  }

  lemma HandlerKeepsCommands(m: Shared, i: nat, p: Proc, c: Choice)
    requires p.Handler?
    ensures var v := StepHandler(m, i, p, c); SameCommands(m, v.mem) && !FailingDispatch(v.proc) && v.spawned.None?
  {
    hide StepCompensate, StepSync, UpdatedStep;
    match p.handler {
      case DirectCompensate(comp) => CompensateKeepsCommands(m, i, p.userId, comp, c);
      case HandlerSync(sync) => SyncKeepsCommands(m, i, sync, c);
      case _ =>
    }
  }

  lemma VerifyKeepsCommands(m: Shared, i: nat, n: nat, p: Proc, c: Choice)
    requires p.VerifyCall?
    ensures var v := StepVerify(m, i, n, p, c);
            SameCommands(m, v.mem) && !FailingDispatch(v.proc)
              && (v.spawned.Some? ==> !FailingDispatch(v.spawned.value))
  {
    hide StepSync, UpdatedSession;
    if p.verify.VerifySync? { SyncKeepsCommands(m, i, p.verify.sync, c); }
  }

  lemma CompletionKeepsCommands(m: Shared, i: nat, p: Proc, c: Choice)
    requires p.Completion?
    ensures var v := StepCompletion(m, i, p, c); SameCommands(m, v.mem) && !FailingDispatch(v.proc) && v.spawned.None?
  {
    hide WroteStep, WroteSession, Logged, SessionUser, SameCommands;
    WritesKeepCommands(m);
  }

  lemma StartKeepsCommands(m: Shared, i: nat, n: nat, p: Proc, c: Choice)
    requires p.StartCall?
    ensures var v := StepStart(m, i, n, p, c);
            SameCommands(m, v.mem) && !FailingDispatch(v.proc)
              && (v.spawned.Some? ==> !FailingDispatch(v.spawned.value))
  {
  }

  lemma OthersKeepCommands(m: Shared, i: nat, n: nat, p: Proc, c: Choice)
    requires !p.Dispatch?
    ensures var v := Step(m, i, n, p, c);
            && !FailingDispatch(v.proc) && (v.spawned.Some? ==> !FailingDispatch(v.spawned.value))
            && SameCommands(m, v.mem)
  {
    hide StepStart, StepHandler, StepVerify, StepCompletion, WroteSession, Logged, FailingDispatch;
    match p {
      case StartCall(_, _) => StartKeepsCommands(m, i, n, p, c);
      case Handler(_, _, _, _) => HandlerKeepsCommands(m, i, p, c);
      case VerifyCall(_, _) => VerifyKeepsCommands(m, i, n, p, c);
      case Completion(_) => CompletionKeepsCommands(m, i, p, c);
      case StatusCall(_, _) => StatusKeepsCommands(m, p, c);
    }
  }

  lemma StatusKeepsCommands(m: Shared, p: Proc, c: Choice)
    requires p.StatusCall?
    ensures var v := StepStatusCall(m, p, c); SameCommands(m, v.mem) && !FailingDispatch(v.proc) && v.spawned.None?
  {
  }

  lemma RunUnsent(s: State, i: nat, c: Choice)
    requires Structured(s) && Verified(s) && Gated(s) && Unsent(s) && Enabled(s, Run(i, c))
    ensures Unsent(Exec(s, Run(i, c)))
  {
    hide Step, Pristine, Grounded, Tallied, Justified, NeedsRowLock, Opened, LaunchesGated;
    var m, p, n := s.mem, s.procs[i], |s.procs|;
    var v := Step(m, i, n, p, c);
    assert Placed(m, i, p) && Owned(m, i, p) && Knows(m, p);
    FailingIsCommanded(m, i, n, p, c);
    if !Commanded(v.mem) {
      assert !Commanded(m);
      PristineParts(m);
      PristineStep(m, i, n, p, c);
    }
  }

  lemma PristineParts(m: Shared)
    requires Pristine(m)
    ensures VerifyEmailCode !in m.steps && !Opened(m.log)
  {
  }

  lemma ExecUnsent(s: State, e: Event)
    requires Structured(s) && Verified(s) && Gated(s) && Unsent(s)
    ensures Unsent(Exec(s, e))
  {
    match e {
      case Spawn(p) => hide Pristine;
      case Run(i, c) => hide Step; if Enabled(s, e) { RunUnsent(s, i, c); }
      case Redeliver(j) => hide Pristine;
    }
  }

  lemma {:induction false} AlwaysUnsent(realtime: bool, events: seq<Event>)
    ensures Unsent(After(Init(realtime), events))
  {
    if events != [] {
      hide Unsent, Structured, Verified, Gated, Exec;
      AlwaysUnsent(realtime, events[..|events| - 1]);
      AlwaysStructured(realtime, events[..|events| - 1]);
      AlwaysVerified(realtime, events[..|events| - 1]);
      AlwaysGated(realtime, events[..|events| - 1]);
      ExecUnsent(After(Init(realtime), events[..|events| - 1]), events[|events| - 1]);
    }
  }

  // ----- What overwrites a failed step

  /** The event writes a success for the step, or activates the mail step. */
  predicate Overwrites(s: State, e: Event, key: StepKey) {
    && e.Run? && e.choice.Ok? && e.i < |s.procs| && s.procs[e.i].Handler?
    && ((s.procs[e.i].handler.WriteStep? && s.procs[e.i].success && s.procs[e.i].result.Key() == key)
        || (s.procs[e.i].handler.ActivateMail? && key == MailSendCode))
  }

  predicate Initial(key: StepKey) {
    key == UserCreateProfile || key == AuthCreatePending || key == MailSendCode
  }

  /** The statements that could touch an initial step that is there already. */
  lemma OverwritingStatement(p: Proc, c: Choice, key: StepKey)
    requires Initial(key)
    ensures var q := StatementOf("", p, c);
            && (q.Some? && q.value.SetStepStatus? && q.value.step.key == key && q.value.status != StepFailed ==>
                  || (p.Dispatch? && (p.dispatch.MarkUser? || p.dispatch.MarkAuth?))
                  || (c.Ok? && p.Handler? && p.handler.WriteStep? && p.success && p.result.Key() == key)
                  || (c.Ok? && p.Handler? && p.handler.ActivateMail? && key == MailSendCode))
            && (q.Some? ==> !q.value.DeleteStep?)
  {
    hide Aggregate;
  }

  lemma FailureStays(s: State, e: Event, key: StepKey)
    requires Structured(s) && Unsent(s) && Initial(key)
    requires HasStep(s.mem, key, StepFailed) && !Overwrites(s, e, key)
    ensures HasStep(Exec(s, e).mem, key, StepFailed)
  {
    hide Step, Grounded, NeedsRowLock, MaySpawn, Opened, StatementOf;
    if e.Run? && Enabled(s, e) {
      var m, p, n := s.mem, s.procs[e.i], |s.procs|;
      assert Placed(m, e.i, p);
      StepRuns("", m, e.i, n, p, e.choice);
      OverwritingStatement(p, e.choice, key);
    }
  }

  predicate NotOverwritten(realtime: bool, before: seq<Event>, after: seq<Event>, key: StepKey) {
    forall t :: 0 <= t < |after| ==> !Overwrites(After(Init(realtime), before + after[..t]), after[t], key)
  }

  lemma {:induction false} FailureStaysOn(realtime: bool, before: seq<Event>, after: seq<Event>, key: StepKey, t: nat)
    requires Initial(key) && HasStep(After(Init(realtime), before).mem, key, StepFailed)
    requires NotOverwritten(realtime, before, after, key) && t <= |after|
    ensures HasStep(After(Init(realtime), before + after[..t]).mem, key, StepFailed)
  {
    hide After, Exec, Overwrites, Structured, Unsent, HasStep;
    if t == 0 {
      assert before + after[..0] == before;
    } else {
      FailureStaysOn(realtime, before, after, key, t - 1);
      var events, e := before + after[..t - 1], after[t - 1];
      assert before + after[..t] == events + [e];
      AfterLast(Init(realtime), events, e);
      AlwaysStructured(realtime, events);
      AlwaysUnsent(realtime, events);
      FailureStays(After(Init(realtime), events), e, key);
    }
  }

  /** Once an initial step is failed, by a result or by the dispatch, and until a success
      for that step (or, for mail, an auth success) overwrites it, every handler that
      finishes without a repository error, first delivered or redelivered since or not
      yet at its reads then, has had the user and its auth record deactivated, has
      published registration.failed unless that call failed, and before verification the
      session is failed. */
  lemma {:induction false} FailedStepSticks(realtime: bool, before: seq<Event>, after: seq<Event>, key: StepKey, j: nat)
    requires Initial(key) && HasStep(After(Init(realtime), before).mem, key, StepFailed)
    requires NotOverwritten(realtime, before, after, key)
    requires var s := After(Init(realtime), before + after);
             && j < |s.procs| && j !in Stale(realtime, before, after)
             && s.procs[j].Handler? && s.procs[j].handler == HandlerDone(true)
    ensures var s := After(Init(realtime), before + after);
            && s.mem.session.Some?
            && var uid := UndoneUser(s.mem, s.procs[j]);
            && uid != "" && UserDeactivated(j, uid) in s.mem.log && AuthDeactivated(j, uid) in s.mem.log
            && (FailedEvent(j, true) in s.mem.log || FailedEvent(j, false) in s.mem.log)
            && (VerifyEmailCode !in s.mem.steps ==> HasStatus(s.mem, Failed))
  {
    hide After, Overwrites, NotOverwritten, Stale;
    forall t | 0 <= t <= |after| ensures HasFailed(After(Init(realtime), before + after[..t]).mem.steps) {
      FailureStaysOn(realtime, before, after, key, t);
      FailedKey(After(Init(realtime), before + after[..t]).mem, key);
    }
    FailureSticks(realtime, before, after, j);
  }

  lemma FailedKey(m: Shared, key: StepKey)
    requires HasStep(m, key, StepFailed)
    ensures HasFailed(m.steps)
  {
  }
}
