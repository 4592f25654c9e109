/** Step rows never disappear, and move forward unless a failure is involved. */
module SagaProgress {
  import opened Domain
  import opened Saga

  function Rank(status: StepStatus): nat {
    match status
    case StepPending => 0
    case StepInProgress => 1
    case StepCompleted => 2
    case StepFailed => 3
  }

  predicate Advanced(before: Steps, after: Steps) {
    forall k :: k in before ==>
      k in after && (before[k] == StepFailed || Rank(before[k]) <= Rank(after[k]))
  }

  lemma WriteAdvances(steps: Steps, key: StepKey, status: StepStatus)
    requires status != StepPending
    ensures Advanced(steps, UpdatedStep(steps, key, status))
  {
  }

  lemma InsertAdvances(steps: Steps, key: StepKey, status: StepStatus)
    requires key !in steps
    ensures Advanced(steps, steps[key := status])
  {
  }

  lemma WritesAdvance(m: Shared)
    ensures Advanced(m.steps, m.steps)
    ensures forall key, status :: status != StepPending ==> Advanced(m.steps, WroteStep(m, key, status).steps)
  {
    hide Advanced;
    forall key, status | status != StepPending
      ensures Advanced(m.steps, WroteStep(m, key, status).steps)
    {
      WriteAdvances(m.steps, key, status);
    }
    assert Advanced(m.steps, m.steps) by { SameAdvances(m.steps); }
  }

  lemma SameAdvances(steps: Steps)
    ensures Advanced(steps, steps)
  {
  }

  lemma SyncKeepsSteps(m: Shared, i: nat, pc: SyncPc, c: Choice)
    ensures StepSync(m, i, pc, c).0.steps == m.steps
  {
  }

  lemma CompensateKeepsSteps(m: Shared, i: nat, given: string, pc: CompensatePc, c: Choice)
    ensures StepCompensate(m, i, given, pc, c).0.steps == m.steps
  {
  }

  lemma VerifyAdvances(m: Shared, i: nat, n: nat, p: Proc, c: Choice)
    requires p.VerifyCall?
    ensures Advanced(m.steps, StepVerify(m, i, n, p, c).mem.steps)
  {
    hide Advanced, StepSync;
    WritesAdvance(m);
    match p.verify {
      case VerifySync(sync) => SyncKeepsSteps(m, i, sync, c);
      case InsertVerify =>
        if VerifyEmailCode !in m.steps { InsertAdvances(m.steps, VerifyEmailCode, StepInProgress); }
      case InsertActivate =>
        if ActivateUser !in m.steps { InsertAdvances(m.steps, ActivateUser, StepPending); }
      case _ =>
    }
  }

  lemma HandlerAdvances(m: Shared, i: nat, p: Proc, c: Choice)
    requires p.Handler?
    ensures Advanced(m.steps, StepHandler(m, i, p, c).mem.steps)
  {
    hide Advanced, StepSync, StepCompensate, WroteStep;
    WritesAdvance(m);
    match p.handler {
      case DirectCompensate(comp) => CompensateKeepsSteps(m, i, p.userId, comp, c);
      case HandlerSync(sync) => SyncKeepsSteps(m, i, sync, c);
      case _ =>
    }
  }

  lemma CompletionAdvances(m: Shared, i: nat, p: Proc, c: Choice)
    requires p.Completion?
    ensures Advanced(m.steps, StepCompletion(m, i, p, c).mem.steps)
  {
    hide Advanced, WroteStep;
    WritesAdvance(m);
  }

  lemma StartAdvances(m: Shared, i: nat, n: nat, p: Proc, c: Choice)
    requires p.StartCall?
    ensures Advanced(m.steps, StepStart(m, i, n, p, c).mem.steps)
  {
    hide Advanced;
    WritesAdvance(m);
    match p.start {
      case InsertUserStep => if UserCreateProfile !in m.steps { InsertAdvances(m.steps, UserCreateProfile,
        StepPending); }
      case InsertAuthStep => if AuthCreatePending !in m.steps { InsertAdvances(m.steps, AuthCreatePending,
        StepPending); }
      case InsertMailStep => if MailSendCode !in m.steps { InsertAdvances(m.steps, MailSendCode, StepPending); }
      case _ =>
    }
  }

  lemma StepAdvances(m: Shared, i: nat, n: nat, p: Proc, c: Choice)
    ensures Advanced(m.steps, Step(m, i, n, p, c).mem.steps)
  {
    hide Advanced, StepStart, StepHandler, StepVerify, StepCompletion, WroteStep;
    WritesAdvance(m);
    match p {
      case StartCall(_, _) => StartAdvances(m, i, n, p, c);
      case Handler(_, _, _, _) => HandlerAdvances(m, i, p, c);
      case VerifyCall(_, _) => VerifyAdvances(m, i, n, p, c);
      case Completion(_) => CompletionAdvances(m, i, p, c);
      case _ =>
    }
  }

  lemma ExecAdvances(s: State, e: Event)
    ensures Advanced(s.mem.steps, Exec(s, e).mem.steps)
  {
    hide Advanced, Step;
    SameAdvances(s.mem.steps);
    if e.Run? && Enabled(s, e) {
      StepAdvances(s.mem, e.i, |s.procs|, s.procs[e.i], e.choice);
    }
  }

  /** Along any events during which no step is failed, every row stays and its rank
      pending < in_progress < completed never decreases. */
  lemma {:induction false} StepProgress(s: State, events: seq<Event>)
    requires forall t :: 0 <= t <= |events| ==> !HasFailed(After(s, events[..t]).mem.steps)
    ensures Advanced(s.mem.steps, After(s, events).mem.steps)
    ensures forall k :: k in s.mem.steps ==>
              k in After(s, events).mem.steps
              && Rank(s.mem.steps[k]) <= Rank(After(s, events).mem.steps[k]) <= 2
  {
    var last := After(s, events).mem.steps;
    assert events[..|events|] == events;
    if events != [] {
      var init := events[..|events| - 1];
      forall t | 0 <= t <= |init| ensures !HasFailed(After(s, init[..t]).mem.steps) {
        assert init[..t] == events[..t];
      }
      StepProgress(s, init);
      ExecAdvances(After(s, init), events[|events| - 1]);
    }
  }
}
