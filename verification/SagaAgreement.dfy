/** Quiescent consistency: a settled status and its steps agree. */
module SagaAgreement {
  // When failures last, a settled session's status is exactly the aggregate of its steps;
  // and failures last when results for one step agree and no auth success re-activates a
  // failed mail step.

  import opened Domain
  import opened Saga
  import opened SagaStructure
  import opened SagaVerification
  import opened SagaProgress
  import opened SagaQuiescence
  import opened SagaLastWrite

  // ----- A `failed` status has a failed step behind it

  predicate SyncSeen(m: Shared, pc: SyncPc) {
    && (pc.Compensate? ==> HasFailed(m.steps))
    && (pc.Commit? && HasFailed(pc.snapshot) ==> HasFailed(m.steps))
  }

  /** The process acts on a failure that is still in the table. */
  predicate FailureSeen(m: Shared, q: Proc) {
    match q
    case Handler(_, _, _, pc) =>
      && (pc.DirectCompensate? ==> HasFailed(m.steps))
      && (pc.HandlerSync? ==> SyncSeen(m, pc.sync))
    case VerifyCall(_, pc) => pc.VerifySync? ==> SyncSeen(m, pc.sync)
    case Dispatch(pc) => pc.FailSession? && pc.stepWritten ==> HasFailed(m.steps)
    case _ => true
  }

  predicate LostWrite(q: Proc) {
    q.Dispatch? && q.dispatch.DispatchDone? && !q.dispatch.ok
  }

  predicate Blamed(s: State) {
    VerifyEmailCode !in s.mem.steps ==>
      && (forall j :: 0 <= j < |s.procs| ==> FailureSeen(s.mem, s.procs[j]))
      && (HasStatus(s.mem, Failed) ==>
            HasFailed(s.mem.steps) || exists j :: 0 <= j < |s.procs| && LostWrite(s.procs[j]))
  }

  /** A step that writes `failed` acts on a failure, or loses a step write. */
  predicate StepBlamed(m: Shared, v: Move) {
    && FailureSeen(v.mem, v.proc)
    && (v.mem.session == m.session || !HasStatus(v.mem, Failed) || HasFailed(v.mem.steps) || LostWrite(v.proc))
    && (v.spawned.Some? ==> FailureSeen(v.mem, v.spawned.value))
  }

  lemma FailedWriteShows(m: Shared, key: StepKey)
    requires key in m.steps
    ensures HasFailed(WroteStep(m, key, StepFailed).steps)
  {
    assert WroteStep(m, key, StepFailed).steps[key] == StepFailed;
  }

  lemma SyncBlamed(m: Shared, i: nat, pc: SyncPc, c: Choice)
    requires SyncSeen(m, pc)
    ensures var (m', next) := StepSync(m, i, pc, c);
            && m'.steps == m.steps
            && (next.At? ==> SyncSeen(m', next.pc))
            && (m'.session == m.session || !HasStatus(m', Failed) || HasFailed(m'.steps))
  {
    hide StepCompensate, HasFailed, AllCompleted;
    SyncKeepsSteps(m, i, pc, c);
  }

  lemma HandlerBlamed(m: Shared, i: nat, p: Proc, c: Choice)
    requires p.Handler? && HasInitialSteps(m.steps) && FailureSeen(m, p)
    requires HasFailed(m.steps) ==> HasFailed(StepHandler(m, i, p, c).mem.steps)
    ensures StepBlamed(m, StepHandler(m, i, p, c))
  {
    hide StepCompensate, StepSync, HasFailed, UpdatedStep;
    match p.handler {
      case WriteStep => FailedWriteShows(m, p.result.Key());
      case DirectCompensate(comp) => CompensateKeepsSteps(m, i, p.userId, comp, c);
      case HandlerSync(sync) =>
        SyncBlamed(m, i, sync, c);
        var (m', next) := StepSync(m, i, sync, c);
        if next.At? { assert StepHandler(m, i, p, c).proc.handler == HandlerSync(next.pc); }
      case _ =>
    }
  }

  lemma VerifySyncBlamed(m: Shared, i: nat, n: nat, p: Proc, c: Choice)
    requires p.VerifyCall? && FailureSeen(m, p) && p.verify.VerifySync?
    ensures StepBlamed(m, StepVerify(m, i, n, p, c))
  {
    hide StepSync, HasFailed;
    SyncBlamed(m, i, p.verify.sync, c);
    var (m', next) := StepSync(m, i, p.verify.sync, c);
    if next.At? { assert StepVerify(m, i, n, p, c).proc.verify == VerifySync(next.pc); }
  }

  lemma VerifyBlamed(m: Shared, i: nat, n: nat, p: Proc, c: Choice)
    requires p.VerifyCall? && !p.verify.VerifySync?
    ensures StepBlamed(m, StepVerify(m, i, n, p, c))
  {
    hide StepSync, HasFailed;
  }

  lemma DispatchBlamed(m: Shared, i: nat, p: Proc, c: Choice)
    requires p.Dispatch? && FailureSeen(m, p) && Placed(m, i, p) && Grounded(m)
    ensures StepBlamed(m, StepDispatch(m, p, c))
  {
    hide HasFailed, UpdatedStep;
    if p.dispatch.FailStep? { FailedWriteShows(m, p.dispatch.lost.Key()); }
  }

  lemma StepsBlamed(m: Shared, i: nat, n: nat, p: Proc, c: Choice)
    requires FailureSeen(m, p) && Placed(m, i, p) && Grounded(m) && Owned(m, i, p)
    requires HasFailed(m.steps) ==> HasFailed(Step(m, i, n, p, c).mem.steps)
    requires VerifyEmailCode !in m.steps
    ensures StepBlamed(m, Step(m, i, n, p, c))
  {
    hide StepHandler, StepVerify, StepDispatch, StepStart, StepStatusCall, StepBlamed, HasFailed;
    match p {
      case Handler(_, _, _, _) => HandlerBlamed(m, i, p, c);
      case VerifyCall(_, pc) =>
        if pc.VerifySync? { VerifySyncBlamed(m, i, n, p, c); } else { VerifyBlamed(m, i, n, p, c); }
      case Dispatch(_) => DispatchBlamed(m, i, p, c);
      case Completion(_) =>
      case StartCall(_, _) => StartBlamed(m, i, n, p, c);
      case StatusCall(_, _) => StatusBlamed(m, p, c);
    }
  }

  lemma StartBlamed(m: Shared, i: nat, n: nat, p: Proc, c: Choice)
    requires p.StartCall? && Placed(m, i, p)
    ensures StepBlamed(m, StepStart(m, i, n, p, c))
  {
    hide HasFailed;
  }

  lemma StatusBlamed(m: Shared, p: Proc, c: Choice)
    requires p.StatusCall?
    ensures StepBlamed(m, StepStatusCall(m, p, c))
  {
    hide HasFailed;
  }

  lemma SeenLasts(m: Shared, m': Shared, q: Proc)
    requires FailureSeen(m, q) && (HasFailed(m.steps) ==> HasFailed(m'.steps))
    ensures FailureSeen(m', q)
  {
    hide HasFailed;
  }

  predicate FailureLasts(s: State, e: Event) {
    HasFailed(s.mem.steps) ==> HasFailed(Exec(s, e).mem.steps)
  }

  lemma RunBlamed(s: State, i: nat, c: Choice)
    requires Structured(s) && Verified(s) && Blamed(s) && Enabled(s, Run(i, c))
    requires FailureLasts(s, Run(i, c))
    ensures Blamed(Exec(s, Run(i, c)))
  {
    var e := Run(i, c);
    var s', m, n := Exec(s, e), s.mem, |s.procs|;
    hide Step, FailureSeen, HasFailed, Placed, Grounded, Owned, Tallied, Justified, HasStatus, LostWrite;
    if VerifyEmailCode !in s'.mem.steps {
      assert VerifyEmailCode !in m.steps by { KeysStay(s, e); }
      StepsBlamed(m, i, n, s.procs[i], c);
      StepKeepsStatus(m, s'.mem);
      forall j | 0 <= j < n && j != i ensures FailureSeen(s'.mem, s'.procs[j]) {
        SeenLasts(m, s'.mem, s.procs[j]);
      }
      if j :| 0 <= j < n && LostWrite(s.procs[j]) {
        LostStaysLost(m, i, n, s.procs[j], c);
        assert LostWrite(s'.procs[j]);
      }
      if LostWrite(s'.procs[i]) { assert exists j :: 0 <= j < |s'.procs| && LostWrite(s'.procs[j]); }
    }
  }

  lemma StepKeepsStatus(m: Shared, m': Shared)
    ensures m'.session == m.session ==> HasStatus(m', Failed) == HasStatus(m, Failed)
  {
  }

  lemma LostStaysLost(m: Shared, i: nat, n: nat, q: Proc, c: Choice)
    requires LostWrite(q)
    ensures LostWrite(Step(m, i, n, q, c).proc)
  {
  }

  lemma ExecBlamed(s: State, e: Event)
    requires Structured(s) && Verified(s) && Blamed(s) && FailureLasts(s, e)
    ensures Blamed(Exec(s, e))
  {
    if Enabled(s, e) {
      if e.Run? {
        RunBlamed(s, e.i, e.choice);
      } else {
        hide HasFailed;
        var s' := Exec(s, e);
        assert s'.mem == s.mem;
        if j :| 0 <= j < |s.procs| && LostWrite(s.procs[j]) { assert LostWrite(s'.procs[j]); }
      }
    }
  }

  predicate FailuresLast(s: State, events: seq<Event>) {
    forall t :: 0 <= t < |events| ==> FailureLasts(After(s, events[..t]), events[t])
  }

  lemma {:induction false} FailuresLastBefore(s: State, init: seq<Event>, e: Event)
    requires FailuresLast(s, init + [e])
    ensures FailuresLast(s, init) && FailureLasts(After(s, init), e)
  {
    hide After, FailureLasts;
    var events := init + [e];
    assert events[..|init|] == init && events[|init|] == e;
    forall t | 0 <= t < |init| ensures FailureLasts(After(s, init[..t]), init[t]) {
      assert init[..t] == events[..t] && init[t] == events[t];
    }
  }

  lemma {:induction false} AlwaysBlamed(realtime: bool, events: seq<Event>)
    requires FailuresLast(Init(realtime), events)
    ensures Blamed(After(Init(realtime), events))
  {
    if events != [] {
      hide Blamed, Verified, Structured, Exec, FailureLasts, FailuresLast;
      var init, e := events[..|events| - 1], events[|events| - 1];
      assert events == init + [e];
      FailuresLastBefore(Init(realtime), init, e);
      AlwaysStructured(realtime, init);
      AlwaysVerified(realtime, init);
      AlwaysBlamed(realtime, init);
      ExecBlamed(After(Init(realtime), init), e);
    }
  }

  /** Quiescent consistency.  In every run that never loses a failure, once handlers
      have settled and before verification starts, the session status equals the
      aggregate of the step table. */
  lemma {:induction false} QuiescentConsistency(realtime: bool, events: seq<Event>)
    requires FailuresLast(Init(realtime), events)
    requires var s := After(Init(realtime), events);
             Settled(s.procs) && Live(s.mem) && VerifyEmailCode !in s.mem.steps
    ensures var m := After(Init(realtime), events).mem;
            HasStatus(m, Aggregate(m.steps))
  {
    hide After, HasFailed, FailuresLast, AllCompleted, Live, WrittenOver;
    AlwaysBlamed(realtime, events);
    SettledAgreesIff(realtime, events);
  }

  // ----- When failures last

  /** What a result, or a command that could not be published, says of its step. */
  datatype Verdict = Verdict(result: Result, success: bool)

  function VerdictOf(q: Proc): Option<Verdict> {
    match q
    case Handler(result, success, _, _) => Some(Verdict(result, success))
    case Dispatch(FailStep(lost)) => Some(Verdict(lost, false))
    case Dispatch(FailSession(lost, _)) => Some(Verdict(lost, false))
    case Dispatch(DispatchDone(_, unsent)) =>
      if unsent.Some? then Some(Verdict(unsent.value, false)) else None
    case _ => None
  }

  /** All results for one step say the same, and a step whose command could not be
      published gets no success. */
  predicate Agree(procs: seq<Proc>) {
    forall i, j :: 0 <= i < |procs| && 0 <= j < |procs| ==> Compatible(procs[i], procs[j])
  }

  predicate Compatible(p: Proc, q: Proc) {
    VerdictOf(p).Some? && VerdictOf(q).Some? && VerdictOf(p).value.result == VerdictOf(q).value.result
    ==> VerdictOf(p).value.success == VerdictOf(q).value.success
  }

  /** The event activates the mail step although mail has failed. */
  predicate ReactivatesMail(s: State, e: Event) {
    && e.Run? && Enabled(s, e)
    && s.procs[e.i].Handler? && s.procs[e.i].handler.ActivateMail?
    && HasStep(s.mem, MailSendCode, StepFailed)
  }

  predicate MailFailureRespected(s: State, events: seq<Event>) {
    forall t :: 0 <= t < |events| ==> !ReactivatesMail(After(s, events[..t]), events[t])
  }

  predicate Accuses(q: Proc, key: StepKey) {
    VerdictOf(q).Some? && VerdictOf(q).value.result.Key() == key && !VerdictOf(q).value.success
  }

  /** A failed initial step was failed by a verdict. */
  predicate Accused(s: State) {
    VerifyEmailCode !in s.mem.steps ==>
      forall key :: HasStep(s.mem, key, StepFailed) && key != ActivateUser ==>
        exists j :: 0 <= j < |s.procs| && Accuses(s.procs[j], key)
  }

  lemma VerdictStays(m: Shared, i: nat, n: nat, p: Proc, c: Choice)
    requires VerdictOf(p).Some?
    ensures VerdictOf(Step(m, i, n, p, c).proc) == VerdictOf(p)
  {
    hide StepSync, StepCompensate;
  }

  lemma ExecKeepsVerdicts(s: State, e: Event)
    ensures var s' := Exec(s, e);
            |s.procs| <= |s'.procs|
            && forall j ::
              0 <= j < |s.procs| && VerdictOf(s.procs[j]).Some? ==> VerdictOf(s'.procs[j]) == VerdictOf(s.procs[j])
  {
    hide Step;
    if e.Run? && Enabled(s, e) {
      if VerdictOf(s.procs[e.i]).Some? { VerdictStays(s.mem, e.i, |s.procs|, s.procs[e.i], e.choice); }
    }
  }

  lemma AgreedBefore(s: State, e: Event)
    requires Agree(Exec(s, e).procs)
    ensures Agree(s.procs)
  {
    hide Exec, VerdictOf;
    ExecKeepsVerdicts(s, e);
    var s' := Exec(s, e);
    forall i, j | 0 <= i < |s.procs| && 0 <= j < |s.procs| ensures Compatible(s.procs[i], s.procs[j]) {
      assert Compatible(s'.procs[i], s'.procs[j]);
    }
  }

  /** The step writes of one process: which rows it may fail, and which it may revive. */
  predicate FairWrite(m: Shared, p: Proc, v: Move) {
    forall key :: key != VerifyEmailCode && key != ActivateUser ==>
      && (HasStep(v.mem, key, StepFailed) ==> HasStep(m, key, StepFailed) || Accuses(v.proc, key))
      && (HasStep(m, key, StepFailed) ==>
            || HasStep(v.mem, key, StepFailed)
            || (p.Handler? && p.success && p.result.Key() == key)
            || (p.Handler? && p.handler.ActivateMail? && key == MailSendCode))
  }

  lemma HandlerWritesFairly(m: Shared, i: nat, p: Proc, c: Choice)
    requires p.Handler?
    ensures FairWrite(m, p, StepHandler(m, i, p, c))
  {
    hide StepSync, StepCompensate;
    match p.handler {
      case DirectCompensate(comp) => CompensateKeepsSteps(m, i, p.userId, comp, c);
      case HandlerSync(sync) => SyncKeepsSteps(m, i, sync, c);
      case _ =>
    }
  }

  lemma SameStepsFair(m: Shared, p: Proc, v: Move)
    requires v.mem.steps == m.steps
    ensures FairWrite(m, p, v)
  {
  }

  lemma InsertFair(m: Shared, p: Proc, v: Move, key: StepKey)
    requires key !in m.steps && v.mem.steps == m.steps[key := StepPending]
    ensures FairWrite(m, p, v)
  {
  }

  lemma MarkFair(m: Shared, p: Proc, v: Move, key: StepKey)
    requires Calm(m) && v.mem == WroteStep(m, key, StepInProgress)
    ensures FairWrite(m, p, v)
  {
  }

  lemma FailFair(m: Shared, p: Proc, v: Move, key: StepKey)
    requires Accuses(v.proc, key) && v.mem == WroteStep(m, key, StepFailed)
    ensures FairWrite(m, p, v)
  {
  }

  lemma DispatchWritesFairly(m: Shared, p: Proc, c: Choice)
    requires p.Dispatch? && CalmAt(m, p)
    ensures FairWrite(m, p, StepDispatch(m, p, c))
  {
    hide FairWrite, WroteStep;
    var v := StepDispatch(m, p, c);
    if c.Err? || p.dispatch.SendUser? || p.dispatch.SendAuth? { SameStepsFair(m, p, v); }
    else {
      match p.dispatch {
        case MarkUser => MarkFair(m, p, v, UserCreateProfile);
        case MarkAuth => MarkFair(m, p, v, AuthCreatePending);
        case FailStep(lost) => FailFair(m, p, v, lost.Key());
        case _ => SameStepsFair(m, p, v);
      }
    }
  }

  lemma StartWritesFairly(m: Shared, i: nat, n: nat, p: Proc, c: Choice)
    requires p.StartCall?
    ensures FairWrite(m, p, StepStart(m, i, n, p, c))
  {
    hide FairWrite;
    var v := StepStart(m, i, n, p, c);
    match p.start {
      case InsertUserStep => InsertingFair(m, p, c, UserCreateProfile, InsertAuthStep);
      case InsertAuthStep => InsertingFair(m, p, c, AuthCreatePending, InsertMailStep);
      case InsertMailStep => InsertingFair(m, p, c, MailSendCode, SpawnDispatch);
      case _ => SameStepsFair(m, p, v);
    }
  }

  lemma InsertingFair(m: Shared, p: Proc, c: Choice, key: StepKey, next: StartPc)
    requires p.StartCall?
    ensures FairWrite(m, p, Inserting(m, p, c, key, next))
  {
    hide FairWrite;
    var v := Inserting(m, p, c, key, next);
    if c.Err? || key in m.steps { SameStepsFair(m, p, v); } else { InsertFair(m, p, v, key); }
  }

  lemma VerifyWritesFairly(m: Shared, i: nat, n: nat, p: Proc, c: Choice)
    requires p.VerifyCall?
    ensures FairWrite(m, p, StepVerify(m, i, n, p, c))
  {
    hide StepSync;
    if p.verify.VerifySync? { SyncKeepsSteps(m, i, p.verify.sync, c); }
  }

  lemma StepWritesFairly(m: Shared, i: nat, n: nat, p: Proc, c: Choice)
    requires !p.Completion? && CalmAt(m, p)
    ensures FairWrite(m, p, Step(m, i, n, p, c))
  {
    hide FairWrite, StepStart, StepDispatch, StepHandler, StepVerify;
    match p {
      case StartCall(_, _) => StartWritesFairly(m, i, n, p, c);
      case Dispatch(_) => DispatchWritesFairly(m, p, c);
      case Handler(_, _, _, _) => HandlerWritesFairly(m, i, p, c);
      case VerifyCall(_, _) => VerifyWritesFairly(m, i, n, p, c);
      case StatusCall(_, _) => StatusWritesFairly(m, p, c);
    }
  }

  lemma StatusWritesFairly(m: Shared, p: Proc, c: Choice)
    requires p.StatusCall?
    ensures FairWrite(m, p, StepStatusCall(m, p, c))
  {
  }

  lemma RunFair(s: State, i: nat, c: Choice, key: StepKey)
    requires Structured(s) && Verified(s) && Accounted(s) && Enabled(s, Run(i, c))
    requires VerifyEmailCode !in Exec(s, Run(i, c)).mem.steps
    requires key != VerifyEmailCode && key != ActivateUser
    ensures var s' := Exec(s, Run(i, c));
            && VerifyEmailCode !in s.mem.steps
            && (HasStep(s'.mem, key, StepFailed) ==> HasStep(s.mem, key, StepFailed) || Accuses(s'.procs[i], key))
            && (HasStep(s.mem, key, StepFailed) ==>
                  || HasStep(s'.mem, key, StepFailed)
                  || (s.procs[i].Handler? && s.procs[i].success && s.procs[i].result.Key() == key)
                  || ReactivatesMail(s, Run(i, c)))
  {
    hide Step, Placed, Grounded, Tallied, Justified, Current, Aggregate, Accuses, HasStep;
    KeysStay(s, Run(i, c));
    var p := s.procs[i];
    assert Owned(s.mem, i, p) && CalmAt(s.mem, p);
    StepWritesFairly(s.mem, i, |s.procs|, p, c);
  }

  lemma ExecAccused(s: State, e: Event)
    requires Structured(s) && Verified(s) && Accounted(s) && Accused(s)
    ensures Accused(Exec(s, e))
  {
    var s' := Exec(s, e);
    hide Exec, Structured, Verified, Accounted, HasStep, VerdictOf;
    if VerifyEmailCode !in s'.mem.steps {
      assert VerifyEmailCode !in s.mem.steps by { KeysStay(s, e); }
      ExecKeepsVerdicts(s, e);
      forall key | HasStep(s'.mem, key, StepFailed) && key != ActivateUser
        ensures exists j :: 0 <= j < |s'.procs| && Accuses(s'.procs[j], key)
      {
        FailedHasAccuser(s, e, key);
        if HasStep(s.mem, key, StepFailed) {
          var j :| 0 <= j < |s.procs| && Accuses(s.procs[j], key);
          assert Accuses(s'.procs[j], key);
        }
      }
    }
  }

  lemma FailedHasAccuser(s: State, e: Event, key: StepKey)
    requires Structured(s) && Verified(s) && Accounted(s)
    requires VerifyEmailCode !in Exec(s, e).mem.steps && key != ActivateUser
    requires HasStep(Exec(s, e).mem, key, StepFailed)
    ensures HasStep(s.mem, key, StepFailed)
            || exists j :: 0 <= j < |Exec(s, e).procs| && Accuses(Exec(s, e).procs[j], key)
  {
    hide Step, Structured, Verified, Accounted, Accuses;
    if e.Run? && Enabled(s, e) { RunFair(s, e.i, e.choice, key); }
  }

  lemma NoReviver(s: State, i: nat, key: StepKey)
    requires Agree(s.procs) && i < |s.procs|
    requires exists j :: 0 <= j < |s.procs| && Accuses(s.procs[j], key)
    ensures !(s.procs[i].Handler? && s.procs[i].success && s.procs[i].result.Key() == key)
  {
    var j :| 0 <= j < |s.procs| && Accuses(s.procs[j], key);
    assert Compatible(s.procs[i], s.procs[j]);
  }

  /** With agreeing results and no re-activation of mail, a failed step stays failed. */
  lemma FailedStaysFailed(s: State, e: Event, key: StepKey)
    requires Structured(s) && Verified(s) && Accounted(s) && Accused(s)
    requires Agree(Exec(s, e).procs) && !ReactivatesMail(s, e)
    requires VerifyEmailCode !in Exec(s, e).mem.steps
    requires HasStep(s.mem, key, StepFailed) && key != VerifyEmailCode && key != ActivateUser
    ensures HasStep(Exec(s, e).mem, key, StepFailed)
  {
    hide Step, Structured, Verified, Accounted, ReactivatesMail;
    if e.Run? && Enabled(s, e) {
      RunFair(s, e.i, e.choice, key);
      AgreedBefore(s, e);
      NoReviver(s, e.i, key);
    }
  }

  lemma StepFailureLasts(s: State, e: Event)
    requires Structured(s) && Verified(s) && Accounted(s) && Accused(s)
    requires Agree(Exec(s, e).procs) && !ReactivatesMail(s, e)
    requires VerifyEmailCode !in Exec(s, e).mem.steps && ActivateUser !in s.mem.steps
    ensures FailureLasts(s, e)
  {
    hide Exec, Structured, Verified, Accounted, Accused, Agree, ReactivatesMail;
    KeysStay(s, e);
    if HasFailed(s.mem.steps) {
      var key :| key in s.mem.steps && s.mem.steps[key] == StepFailed;
      FailedStaysFailed(s, e, key);
      assert Exec(s, e).mem.steps[key] == StepFailed;
    }
  }

  lemma AccusedStep(realtime: bool, init: seq<Event>, e: Event)
    requires Accused(After(Init(realtime), init))
    ensures Accused(Exec(After(Init(realtime), init), e))
  {
    hide Accused, Verified, Structured, Accounted, Exec;
    AlwaysStructured(realtime, init);
    AlwaysVerified(realtime, init);
    AlwaysAccounted(realtime, init);
    ExecAccused(After(Init(realtime), init), e);
  }

  lemma {:induction false} AlwaysAccused(realtime: bool, events: seq<Event>)
    ensures Accused(After(Init(realtime), events))
  {
    if events != [] {
      hide Accused, Exec;
      AlwaysAccused(realtime, events[..|events| - 1]);
      AccusedStep(realtime, events[..|events| - 1], events[|events| - 1]);
    }
  }

  lemma LastFailureLasts(realtime: bool, init: seq<Event>, e: Event)
    requires var s := After(Init(realtime), init);
             Agree(Exec(s, e).procs) && !ReactivatesMail(s, e) && VerifyEmailCode !in Exec(s, e).mem.steps
    ensures var s := After(Init(realtime), init);
            FailureLasts(s, e) && Agree(s.procs) && VerifyEmailCode !in s.mem.steps
  {
    var s := After(Init(realtime), init);
    hide Accused, Structured, Exec, Agree, ReactivatesMail, FailureLasts, After, Owned, Justified, Accounted;
    AlwaysStructured(realtime, init);
    AlwaysVerified(realtime, init);
    AlwaysAccounted(realtime, init);
    AlwaysAccused(realtime, init);
    KeysStay(s, e);
    AgreedBefore(s, e);
    StepFailureLasts(s, e);
  }

  lemma RespectedBefore(s: State, init: seq<Event>, e: Event)
    requires MailFailureRespected(s, init + [e])
    ensures MailFailureRespected(s, init) && !ReactivatesMail(After(s, init), e)
  {
    hide After, ReactivatesMail;
    var events := init + [e];
    assert events[..|init|] == init && events[|init|] == e;
    forall t | 0 <= t < |init| ensures !ReactivatesMail(After(s, init[..t]), init[t]) {
      assert init[..t] == events[..t] && init[t] == events[t];
    }
  }

  lemma {:induction false} FailuresLastLonger(s: State, init: seq<Event>, e: Event)
    requires FailuresLast(s, init) && FailureLasts(After(s, init), e)
    ensures FailuresLast(s, init + [e])
  {
    hide After, FailureLasts;
    var events := init + [e];
    assert events[..|init|] == init;
    forall t | 0 <= t < |events| ensures FailureLasts(After(s, events[..t]), events[t]) {
      if t < |init| { assert init[..t] == events[..t] && init[t] == events[t]; }
    }
  }

  lemma {:induction false} AgreementKeepsFailures(realtime: bool, events: seq<Event>)
    requires Agree(After(Init(realtime), events).procs)
    requires MailFailureRespected(Init(realtime), events)
    requires VerifyEmailCode !in After(Init(realtime), events).mem.steps
    ensures FailuresLast(Init(realtime), events)
  {
    hide After, Exec, Agree, ReactivatesMail, FailureLasts, MailFailureRespected;
    if events != [] {
      var init, e := events[..|events| - 1], events[|events| - 1];
      assert events == init + [e];
      AfterLast(Init(realtime), init, e);
      RespectedBefore(Init(realtime), init, e);
      LastFailureLasts(realtime, init, e);
      AgreementKeepsFailures(realtime, init);
      FailuresLastLonger(Init(realtime), init, e);
    }
  }

  /** Quiescent consistency from what the callers can see: any number of results, in
      any order, with any redeliveries, that agree step by step, and no write that
      re-activates mail after a mail failure. */
  lemma {:induction false} AgreedResultsSettle(realtime: bool, events: seq<Event>)
    requires Agree(After(Init(realtime), events).procs)
    requires MailFailureRespected(Init(realtime), events)
    requires var s := After(Init(realtime), events);
             Settled(s.procs) && Live(s.mem) && VerifyEmailCode !in s.mem.steps
    ensures var m := After(Init(realtime), events).mem;
            HasStatus(m, Aggregate(m.steps))
  {
    hide After, Aggregate, Agree, Settled, FailuresLast, MailFailureRespected, Live;
    AgreementKeepsFailures(realtime, events);
    QuiescentConsistency(realtime, events);
  }
}
