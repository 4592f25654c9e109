/** A verification that loses a write halfway can never be taken up again. */
module SagaAbandoned {
  import opened Domain
  import opened Saga
  import opened SagaStructure
  import opened SagaVerification

  /** Between the INSERT of the verify step and the launch. */
  predicate Insisting(q: Proc) {
    q.VerifyCall? && (q.verify.InsertActivate? || q.verify.SetVerifying? || q.verify.Launch?)
  }

  /** The verify step exists, nothing was launched, and no call is about to. */
  predicate Abandoned(s: State) {
    && VerifyEmailCode in s.mem.steps
    && Count(s.mem, Launched) == 0 && Untouched(s.mem)
    && forall j :: 0 <= j < |s.procs| ==> !Insisting(s.procs[j])
  }

  lemma NobodyInsists(m: Shared, i: nat, n: nat, p: Proc, c: Choice)
    requires VerifyEmailCode in m.steps && !Insisting(p) && !p.Completion?
    ensures var v := Step(m, i, n, p, c);
            && !Insisting(v.proc) && (v.spawned.Some? ==> !Insisting(v.spawned.value))
            && (p.VerifyCall? && p.verify.InsertVerify? ==> v.mem == m)
  {
    hide StepSync, StepCompensate, StepStart, StepHandler, StepDispatch, StepStatusCall;
    if !p.VerifyCall? { KindsStay(m, i, n, p, c); }
  }

  lemma KindsStay(m: Shared, i: nat, n: nat, p: Proc, c: Choice)
    requires !p.VerifyCall?
    ensures var v := Step(m, i, n, p, c); !v.proc.VerifyCall? && (v.spawned.Some? ==> !v.spawned.value.VerifyCall?)
  {
    hide StepSync, StepCompensate, UpdatedStep, UpdatedSession, SessionUser;
  }

  lemma RunAbandoned(s: State, i: nat, c: Choice)
    requires Structured(s) && Verified(s) && Abandoned(s) && Enabled(s, Run(i, c))
    ensures Abandoned(Exec(s, Run(i, c)))
  {
    hide Step, Placed, Grounded, Tallied, Justified, Insisting, NeedsRowLock;
    var m, p, n := s.mem, s.procs[i], |s.procs|;
    assert Owned(m, i, p) && Placed(m, i, p);
    NobodyInsists(m, i, n, p, c);
    if !(p.VerifyCall? && p.verify.InsertVerify?) {
      NotOwner(p);
      StepsOfOthers(m, i, n, p, c);
    }
  }

  lemma NotOwner(p: Proc)
    ensures !Insisting(p) && p.VerifyCall? && !p.verify.InsertVerify? ==> !OwnerPc(p.verify)
  {
  }

  lemma ExecAbandoned(s: State, e: Event)
    requires Structured(s) && Verified(s) && Abandoned(s)
    ensures Abandoned(Exec(s, e))
  {
    match e {
      case Spawn(p) =>
      case Run(i, c) => hide Step; if Enabled(s, e) { RunAbandoned(s, i, c); }
      case Redeliver(j) =>
    }
  }

  /** The second or third write of a VerifyEmail fails: its verification is abandoned. */
  lemma {:induction false} LostWriteAbandons(realtime: bool, events: seq<Event>, i: nat)
    requires var s := After(Init(realtime), events);
             i < |s.procs| && s.procs[i].VerifyCall?
               && (s.procs[i].verify.InsertActivate? || s.procs[i].verify.SetVerifying?)
    ensures Abandoned(After(Init(realtime), events + [Run(i, Err)]))
  {
    hide After;
    var s := After(Init(realtime), events);
    AlwaysVerified(realtime, events);
    AfterLast(Init(realtime), events, Run(i, Err));
    forall j | 0 <= j < |s.procs| && j != i ensures !Insisting(s.procs[j]) {
      assert Owned(s.mem, i, s.procs[i]) && Owned(s.mem, j, s.procs[j]);
    }
  }

  /** Abandoned for good: whatever is called later, however often VerifyEmail is retried,
      no completion is launched, ActivateUser is never called and the session never
      becomes completed. */
  lemma {:induction false} AbandonedForever(realtime: bool, events: seq<Event>, later: seq<Event>)
    requires Abandoned(After(Init(realtime), events))
    ensures var s := After(Init(realtime), events + later);
            && Abandoned(s)
            && Count(s.mem, Launched) == 0 && Count(s.mem, ActivateCalled) == 0
            && !HasStatus(s.mem, Completed) && !HasStatus(s.mem, TokensClaimed)
  {
    hide Exec, Structured, Verified;
    if later == [] {
      assert events + later == events;
    } else {
      var init, e := later[..|later| - 1], later[|later| - 1];
      assert events + later == (events + init) + [e];
      AbandonedForever(realtime, events, init);
      AlwaysStructured(realtime, events + init);
      AlwaysVerified(realtime, events + init);
      AfterLast(Init(realtime), events + init, e);
      ExecAbandoned(After(Init(realtime), events + init), e);
    }
  }
}
