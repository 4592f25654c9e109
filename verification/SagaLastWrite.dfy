/** Exactly when a settled status agrees with the steps: when the last status write
    agreed with the step table it was written over. */
module SagaLastWrite {
  import opened Domain
  import opened Saga
  import opened SagaStructure
  import opened SagaVerification
  import opened SagaQuiescence

  /** The step logged a write of the session status. */
  predicate Wrote(m: Shared, m': Shared) {
    exists k :: |m.log| <= k < |m'.log| && m'.log[k].SessionWritten?
  }

  /** The aggregate of the step table at the last write of the session status. */
  ghost function WrittenOver(realtime: bool, events: seq<Event>): SessionStatus {
    if events == [] then Started
    else
      var before, after := After(Init(realtime), events[..|events| - 1]).mem, After(Init(realtime), events).mem;
      if Wrote(before, after) then Aggregate(after.steps) else WrittenOver(realtime, events[..|events| - 1])
  }

  // ----- Status changes are logged, and debts are paid by a write

  predicate Logs(m: Shared, p: Proc, v: Move) {
    && (v.mem.session == m.session || Wrote(m, v.mem) || p.StartCall?)
    && (OwesOrHolds(p) && !OwesOrHolds(v.proc) ==> Wrote(m, v.mem))
  }

  lemma WritesLogged(m: Shared)
    ensures forall st :: Wrote(m, WroteSession(m, st))
    ensures forall st :: Wrote(m, WroteSession(m.(lock := None), st))
    ensures Wrote(m, Logged(WroteSession(m, TokensClaimed), TokenReturned))
  {
    forall st ensures Wrote(m, WroteSession(m, st)) && Wrote(m, WroteSession(m.(lock := None), st)) {
      assert WroteSession(m, st).log[|m.log|] == SessionWritten(st);
      assert WroteSession(m.(lock := None), st).log[|m.log|] == SessionWritten(st);
    }
    assert Logged(WroteSession(m, TokensClaimed), TokenReturned).log[|m.log|] == SessionWritten(TokensClaimed);
  }

  lemma CompensateLogs(m: Shared, i: nat, given: string, pc: CompensatePc, c: Choice)
    ensures var (m', next) := StepCompensate(m, i, given, pc, c);
            && (m'.session == m.session || Wrote(m, m'))
            && (pc.WriteFailed? && next.At? ==> Wrote(m, m'))
  {
    hide WroteSession, Wrote;
    WritesLogged(m);
  }

  lemma SyncLogs(m: Shared, i: nat, pc: SyncPc, c: Choice)
    ensures var (m', next) := StepSync(m, i, pc, c);
            && (m'.session == m.session || Wrote(m, m'))
            && (pc.Commit? && (next.At? || next.ok) ==> Wrote(m, m'))
  {
    hide StepCompensate, WroteSession, Wrote, Aggregate;
    WritesLogged(m);
    if pc.Compensate? { CompensateLogs(m, i, "", pc.comp, c); }
  }

  lemma HandlerLogs(m: Shared, i: nat, p: Proc, c: Choice)
    requires p.Handler?
    ensures Logs(m, p, StepHandler(m, i, p, c))
  {
    hide StepCompensate, StepSync, Wrote, UpdatedStep;
    match p.handler {
      case DirectCompensate(comp) =>
        CompensateLogs(m, i, p.userId, comp, c);
        CompensateReturns(m, i, p.userId, comp, c);
      case HandlerSync(sync) =>
        SyncLogs(m, i, sync, c);
        SyncReturns(m, i, sync, c);
      case _ =>
    }
  }

  /** Before its write a procedure returns with an error or not at all. */
  lemma CompensateReturns(m: Shared, i: nat, given: string, pc: CompensatePc, c: Choice)
    ensures var next := StepCompensate(m, i, given, pc, c).1;
            && (pc.ReadSession? ==> next == Returned(false) || (next.At? && next.pc.WriteFailed?))
            && (pc.WriteFailed? ==> next == Returned(false) || next.At?)
  {
  }

  lemma SyncReturns(m: Shared, i: nat, pc: SyncPc, c: Choice)
    ensures var next := StepSync(m, i, pc, c).1;
            && (pc.Lock? ==> next == Returned(false) || next == At(Snapshot))
            && (pc.Snapshot? ==> next == Returned(false) || (next.At? && next.pc.Commit?))
            && (pc.Commit? && next.Returned? && !next.ok ==> c.Err?)
  {
    hide StepCompensate, Aggregate;
  }

  lemma VerifyLogs(m: Shared, i: nat, n: nat, p: Proc, c: Choice)
    requires p.VerifyCall?
    ensures Logs(m, p, StepVerify(m, i, n, p, c))
  {
    hide StepSync, WroteSession, Wrote;
    WritesLogged(m);
    if p.verify.VerifySync? { SyncLogs(m, i, p.verify.sync, c); }
  }

  lemma CompletionLogs(m: Shared, i: nat, p: Proc, c: Choice)
    requires p.Completion?
    ensures Logs(m, p, StepCompletion(m, i, p, c))
  {
    hide WroteSession, WroteStep, Logged, Wrote, SessionUser;
    WritesLogged(m);
    SessionKept(m);
  }

  lemma SessionKept(m: Shared)
    ensures forall k, st :: WroteStep(m, k, st).session == m.session
    ensures forall e :: Logged(m, e).session == m.session
    ensures forall e, e' :: Logged(Logged(m, e), e').session == m.session
  {
  }

  lemma DispatchLogs(m: Shared, p: Proc, c: Choice)
    requires p.Dispatch?
    ensures Logs(m, p, StepDispatch(m, p, c))
  {
    hide WroteSession, WroteStep, Wrote;
    WritesLogged(m);
    SessionKept(m);
  }

  lemma StatusLogs(m: Shared, p: Proc, c: Choice)
    requires p.StatusCall?
    ensures Logs(m, p, StepStatusCall(m, p, c))
  {
    hide WroteSession, Logged, Wrote;
    WritesLogged(m);
  }

  lemma StepLogs(m: Shared, i: nat, n: nat, p: Proc, c: Choice)
    ensures Logs(m, p, Step(m, i, n, p, c))
  {
    hide Wrote, StepStart, StepDispatch, StepHandler, StepVerify, StepCompletion, StepStatusCall;
    match p {
      case StartCall(_, _) =>
      case Dispatch(_) => DispatchLogs(m, p, c);
      case Handler(_, _, _, _) => HandlerLogs(m, i, p, c);
      case VerifyCall(_, _) => VerifyLogs(m, i, n, p, c);
      case Completion(_) => CompletionLogs(m, i, p, c);
      case StatusCall(_, _) => StatusLogs(m, p, c);
    }
  }

  // ----- The aggregate is the one last written over, or somebody owes a write

  predicate Settling(s: State, written: SessionStatus) {
    VerifyEmailCode !in s.mem.steps && Live(s.mem) ==>
      Aggregate(s.mem.steps) == written || SomeOwesOrHolds(s.procs)
  }

  /** A Start call makes no session live. */
  lemma StartsAreNotLive(m: Shared, i: nat, n: nat, p: Proc, c: Choice)
    requires p.StartCall? && Placed(m, i, p) && !Live(m)
    ensures !Live(Step(m, i, n, p, c).mem)
  {
  }

  lemma RunSettling(s: State, i: nat, c: Choice, written: SessionStatus)
    requires Structured(s) && Verified(s) && Accounted(s) && Settling(s, written) && Enabled(s, Run(i, c))
    requires !Wrote(s.mem, Exec(s, Run(i, c)).mem)
    ensures Settling(Exec(s, Run(i, c)), written)
  {
    var s', m, p, n := Exec(s, Run(i, c)), s.mem, s.procs[i], |s.procs|;
    if VerifyEmailCode !in s'.mem.steps && Live(s'.mem) {
      hide Step, Current, CalmAt, Placed, Grounded, Booked, Owned, Tallied, Justified, Aggregate, Wrote, Owes,
        OwesOrHolds, SomeOwesOrHolds;
      KeysStay(s, Run(i, c));
      assert CalmAt(m, p) && Placed(m, i, p) && Owned(m, i, p);
      StepLogs(m, i, n, p, c);
      if p.StartCall? && !Live(m) { StartsAreNotLive(m, i, n, p, c); }
      StepBooked(m, i, n, p, c);
      BookedAggregate(m, i, p, Step(m, i, n, p, c));
      DebtsCarryOver(s, i, c);
      OwesIsOwesOrHolds(s'.procs[i]);
    }
  }

  lemma BookedAggregate(m: Shared, i: nat, p: Proc, v: Move)
    requires Booked(m, i, p, v) && Live(v.mem)
    ensures Aggregate(v.mem.steps) == Aggregate(m.steps) || Owes(v.proc)
  {
  }

  lemma ExecSettling(s: State, e: Event, written: SessionStatus)
    requires Structured(s) && Verified(s) && Accounted(s) && Settling(s, written)
    ensures var s' := Exec(s, e);
            Settling(s', if Wrote(s.mem, s'.mem) then Aggregate(s'.mem.steps) else written)
  {
    hide Step, Aggregate, Wrote, Structured, Verified, Accounted, MaySpawn;
    var s' := Exec(s, e);
    if e.Run? && Enabled(s, e) {
      if !Wrote(s.mem, s'.mem) { RunSettling(s, e.i, e.choice, written); }
    } else if Enabled(s, e) {
      if k :| 0 <= k < |s.procs| && OwesOrHolds(s.procs[k]) {
        assert OwesOrHolds(s'.procs[k]);
      }
    }
  }

  lemma {:induction false} AlwaysSettling(realtime: bool, events: seq<Event>)
    ensures Settling(After(Init(realtime), events), WrittenOver(realtime, events))
  {
    if events == [] {
    } else {
      hide Settling, Structured, Verified, Accounted, Exec, Wrote, Aggregate;
      var init := events[..|events| - 1];
      AlwaysStructured(realtime, init);
      AlwaysVerified(realtime, init);
      AlwaysAccounted(realtime, init);
      AlwaysSettling(realtime, init);
      ExecSettling(After(Init(realtime), init), events[|events| - 1], WrittenOver(realtime, init));
    }
  }

  /** Quiescent consistency, exactly.  In every settled run before verification the
      status agrees with the steps if and only if the last status write agreed with the
      step table it was written over; and it disagrees if and only if that write set
      `failed` over a table whose aggregate was not. */
  lemma {:induction false} SettledAgreesIff(realtime: bool, events: seq<Event>)
    requires var s := After(Init(realtime), events);
             Settled(s.procs) && Live(s.mem) && VerifyEmailCode !in s.mem.steps
    ensures var m := After(Init(realtime), events).mem;
            && (HasStatus(m, Aggregate(m.steps)) <==> HasStatus(m, WrittenOver(realtime, events)))
            && (!HasStatus(m, Aggregate(m.steps)) <==> HasStatus(m, Failed) && WrittenOver(realtime, events) != Failed)
  {
    hide After, Aggregate, WrittenOver;
    AlwaysSettling(realtime, events);
    QuiescentStatus(realtime, events);
    NobodyOwes(After(Init(realtime), events).procs);
  }

  lemma NobodyOwes(procs: seq<Proc>)
    requires Settled(procs)
    ensures !SomeOwesOrHolds(procs)
  {
  }
}
