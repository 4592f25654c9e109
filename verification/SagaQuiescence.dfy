/** Before verification starts, the session status and the step table agree
    whenever no result handler and no dispatch is in flight. */
module SagaQuiescence {
  import opened Domain
  import opened Saga
  import opened SagaStructure
  import opened SagaVerification
  import opened SagaProgress

  function SyncSnapshot(pc: SyncPc): Option<Steps> {
    if pc.Commit? then Some(pc.snapshot) else None
  }

  /** The snapshot a process is about to commit. */
  function Holding(q: Proc): Option<Steps> {
    match q
    case Handler(_, _, _, pc) => if pc.HandlerSync? then SyncSnapshot(pc.sync) else None
    case VerifyCall(_, pc) => if pc.VerifySync? then SyncSnapshot(pc.sync) else None
    case _ => None
  }

  predicate Holds(q: Proc, steps: Steps) {
    Holding(q).Some? && Holding(q).value == steps
  }

  /** The process may have changed a step and has yet to account for it in the
      session status, by a snapshot or by writing `failed`. */
  predicate Owes(q: Proc) {
    match q
    case Handler(_, _, _, pc) =>
      (match pc
       case WriteStep => true
       case ActivateMail => true
       case PublishCodeSent => true
       case DirectCompensate(comp) => comp.ReadSession? || comp.WriteFailed?
       case HandlerSync(sync) => sync.Lock? || sync.Snapshot?
       case HandlerDone(ok) => !ok
       case _ => false)
    case Dispatch(pc) => pc.FailStep? || pc.FailSession? || (pc.DispatchDone? && !pc.ok)
    case _ => false
  }

  predicate OwesOrHolds(q: Proc) {
    Owes(q) || (q.Handler? && Holding(q).Some?)
  }

  /** No process has touched the step table since Start filled it. */
  predicate Calm(m: Shared) {
    forall k :: k in m.steps ==> m.steps[k] == StepPending || m.steps[k] == StepInProgress
  }

  predicate CalmAt(m: Shared, q: Proc) {
    q.Dispatch? && (q.dispatch.MarkUser? || q.dispatch.MarkAuth? || q.dispatch.SendUser?) ==> Calm(m)
  }

  predicate SomeOwes(procs: seq<Proc>) {
    exists k :: 0 <= k < |procs| && Owes(procs[k])
  }

  predicate SomeOwesOrHolds(procs: seq<Proc>) {
    exists k :: 0 <= k < |procs| && OwesOrHolds(procs[k])
  }

  predicate Current(m: Shared, procs: seq<Proc>, q: Proc) {
    Holding(q).Some? && Aggregate(Holding(q).value) != Aggregate(m.steps) ==> SomeOwes(procs)
  }

  predicate Accounted(s: State) {
    VerifyEmailCode !in s.mem.steps ==>
      && (forall j :: 0 <= j < |s.procs| ==> CalmAt(s.mem, s.procs[j]) && Current(s.mem, s.procs, s.procs[j]))
      && (Live(s.mem) ==>
            HasStatus(s.mem, Aggregate(s.mem.steps)) || HasStatus(s.mem, Failed) || SomeOwesOrHolds(s.procs))
  }

  /** What one step does to the account: a changed aggregate is owed, and a debt is
      paid only by a snapshot of the current table or by writing `failed`. */
  predicate Booked(m: Shared, i: nat, p: Proc, v: Move) {
    && (Aggregate(v.mem.steps) == Aggregate(m.steps) || Owes(v.proc) || !Live(v.mem))
    && (Owes(p) ==>
          || Owes(v.proc)
          || (v.proc.Handler? && Holds(v.proc, v.mem.steps))
          || (HasStatus(v.mem, Failed) && m.lock == None))
    && (Holding(v.proc).Some? ==> Holds(v.proc, v.mem.steps))
    && (p.Handler? && Holding(p).Some? ==> Owes(v.proc) || HasStatus(v.mem, Aggregate(Holding(p).value)))
    && Reported(m, p, v)
    && (v.mem.steps == m.steps || Commanded(m) || m.creator == Some(i))
    && CalmAt(v.mem, v.proc)
  }

  /** What a step may write to the session status. */
  predicate Reported(m: Shared, p: Proc, v: Move) {
    && (Live(v.mem) && !Live(m) ==> HasStatus(v.mem, Aggregate(v.mem.steps)))
    && (v.mem.session == m.session
        || !Live(v.mem)
        || HasStatus(v.mem, Failed)
        || HasStatus(v.mem, Aggregate(v.mem.steps))
        || (Holding(p).Some? && HasStatus(v.mem, Aggregate(Holding(p).value)) && v.mem.steps == m.steps))
  }

  /** Moves that leave the account alone. */
  predicate Neutral(m: Shared, v: Move) {
    && v.mem.steps == m.steps && v.mem.session == m.session
    && !Owes(v.proc) && Holding(v.proc) == None && !v.proc.Dispatch?
  }

  lemma NeutralBooked(m: Shared, i: nat, p: Proc, v: Move)
    requires Neutral(m, v) && !Owes(p) && !(p.Handler? && Holding(p).Some?)
    ensures Booked(m, i, p, v)
  {
  }

  lemma CalmAggregate(m: Shared)
    requires Calm(m) && HasInitialSteps(m.steps)
    ensures Aggregate(m.steps) == InProgress
  {
    assert m.steps[UserCreateProfile] != StepCompleted;
  }

  lemma CompensateBooked(m: Shared, i: nat, given: string, pc: CompensatePc, c: Choice)
    requires Live(m)
    ensures var (m', next) := StepCompensate(m, i, given, pc, c);
            && m'.steps == m.steps
            && match pc
               case ReadSession => m' == m && (next == Returned(false) || (next.At? && next.pc.WriteFailed?))
               case WriteFailed(_) =>
                 if c.Err? then m' == m && next == Returned(false)
                 else HasStatus(m', Failed) && next.At? && !next.pc.ReadSession? && !next.pc.WriteFailed?
               case _ =>
                 && m'.session == m.session
                 && next != Returned(false)
                 && (next.At? ==> !next.pc.ReadSession? && !next.pc.WriteFailed?)
  {
  }

  lemma SyncBooked(m: Shared, i: nat, pc: SyncPc, c: Choice)
    requires Live(m)
    ensures var (m', next) := StepSync(m, i, pc, c);
            && m'.steps == m.steps
            && (pc.Lock? || pc.Snapshot? ==>
                  m'.session == m.session && (next.Returned? ==> !next.ok)
                  && (next.At? ==> next.pc.Snapshot? || (next.pc.Commit? && next.pc.snapshot == m.steps)))
            && (pc.Commit? ==>
                  && (next.At? ==> next.pc.Compensate?)
                  && ((m'.session == m.session && next == Returned(false))
                      || (HasStatus(m', Aggregate(pc.snapshot)) && next != Returned(false))))
            && (pc.Compensate? ==>
                  && (m'.session == m.session || HasStatus(m', Failed))
                  && (next.At? ==> next.pc.Compensate?))
  {
    hide Aggregate, StepCompensate;
    if pc.Compensate? { CompensateBooked(m, i, "", pc.comp, c); }
  }

  /** A handler that owes after the step pays nothing and reports nothing. */
  lemma OwingBooked(m: Shared, i: nat, p: Proc, v: Move)
    requires v.proc.Handler? && Owes(v.proc) && v.mem.session == m.session
    requires v.mem.steps == m.steps || Commanded(m)
    ensures Booked(m, i, p, v)
  {
  }

  lemma HandlerWritesBooked(m: Shared, i: nat, p: Proc, c: Choice)
    requires p.Handler? && Commanded(m)
    requires p.handler.WriteStep? || p.handler.ActivateMail? || p.handler.PublishCodeSent?
    ensures Booked(m, i, p, StepHandler(m, i, p, c))
  {
    hide Booked, UpdatedStep;
    OwingBooked(m, i, p, StepHandler(m, i, p, c));
  }

  lemma HandlerCompensateBooked(m: Shared, i: nat, p: Proc, c: Choice)
    requires p.Handler? && Live(m) && p.handler.DirectCompensate?
    requires c.Ok? && NeedsRowLock(p) ==> m.lock == None
    ensures Booked(m, i, p, StepHandler(m, i, p, c))
  {
    hide StepCompensate, Aggregate;
    CompensateBooked(m, i, p.userId, p.handler.comp, c);
  }

  lemma HandlerSyncBooked(m: Shared, i: nat, p: Proc, c: Choice)
    requires p.Handler? && Live(m) && p.handler.HandlerSync?
    ensures Booked(m, i, p, StepHandler(m, i, p, c))
  {
    hide StepSync, Aggregate;
    SyncBooked(m, i, p.handler.sync, c);
    var (m', next) := StepSync(m, i, p.handler.sync, c);
    var v := StepHandler(m, i, p, c);
    if next.At? {
      assert v.proc.handler == HandlerSync(next.pc) && v.mem == m';
    } else {
      assert v.proc.handler == if next.ok then ReadReady else HandlerDone(false);
    }
  }

  lemma HandlerBooked(m: Shared, i: nat, p: Proc, c: Choice)
    requires p.Handler? && Live(m) && Commanded(m)
    requires c.Ok? && NeedsRowLock(p) ==> m.lock == None
    ensures Booked(m, i, p, StepHandler(m, i, p, c))
  {
    hide Booked, StepCompensate, StepSync, UpdatedStep;
    match p.handler {
      case WriteStep => HandlerWritesBooked(m, i, p, c);
      case ActivateMail => HandlerWritesBooked(m, i, p, c);
      case PublishCodeSent => HandlerWritesBooked(m, i, p, c);
      case DirectCompensate(_) => HandlerCompensateBooked(m, i, p, c);
      case HandlerSync(_) => HandlerSyncBooked(m, i, p, c);
      case _ => HandlerEndsBooked(m, i, p, c);
    }
  }

  lemma HandlerEndsBooked(m: Shared, i: nat, p: Proc, c: Choice)
    requires p.Handler? && (p.handler.ReadReady? || p.handler.Notify? || p.handler.HandlerDone?)
    ensures Booked(m, i, p, StepHandler(m, i, p, c))
  {
  }

  lemma DispatchMarksBooked(m: Shared, i: nat, p: Proc, c: Choice)
    requires p.Dispatch? && Grounded(m) && Placed(m, i, p) && CalmAt(m, p)
    requires p.dispatch.MarkSession? || p.dispatch.MarkUser? || p.dispatch.MarkAuth?
    ensures Booked(m, i, p, StepDispatch(m, p, c))
  {
    hide Aggregate;
    var v := StepDispatch(m, p, c);
    assert Calm(m) && Calm(v.mem) && HasInitialSteps(m.steps);
    CalmAggregate(m);
    CalmAggregate(v.mem);
  }

  lemma DispatchFailsBooked(m: Shared, i: nat, p: Proc, c: Choice)
    requires p.Dispatch? && Grounded(m) && Placed(m, i, p) && CalmAt(m, p)
    requires p.dispatch.FailStep? || p.dispatch.FailSession?
    requires c.Ok? && NeedsRowLock(p) ==> m.lock == None
    ensures Booked(m, i, p, StepDispatch(m, p, c))
  {
    hide Aggregate, UpdatedStep;
  }

  lemma DispatchEndsBooked(m: Shared, i: nat, p: Proc, c: Choice)
    requires p.Dispatch? && Grounded(m) && Placed(m, i, p) && CalmAt(m, p)
    requires !(p.dispatch.MarkSession? || p.dispatch.MarkUser? || p.dispatch.MarkAuth?)
    requires c.Ok? && NeedsRowLock(p) ==> m.lock == None
    ensures Booked(m, i, p, StepDispatch(m, p, c))
  {
    hide Aggregate, UpdatedStep, UpdatedSession, Grounded, HasInitialSteps;
    if p.dispatch.FailStep? || p.dispatch.FailSession? { DispatchFailsBooked(m, i, p, c); }
  }

  lemma VerifySyncBooked(m: Shared, i: nat, n: nat, p: Proc, c: Choice)
    requires p.VerifyCall? && p.verify.VerifySync? && Live(m)
    ensures Booked(m, i, p, StepVerify(m, i, n, p, c))
  {
    hide StepSync, Aggregate;
    SyncBooked(m, i, p.verify.sync, c);
    var (m', next) := StepSync(m, i, p.verify.sync, c);
    var v := StepVerify(m, i, n, p, c);
    if next.At? { assert v.proc.verify == VerifySync(next.pc) && v.mem == m'; }
  }

  lemma VerifyBooked(m: Shared, i: nat, n: nat, p: Proc, c: Choice)
    requires p.VerifyCall? && !p.verify.VerifySync? && Owned(m, i, p)
    requires VerifyEmailCode !in StepVerify(m, i, n, p, c).mem.steps
    ensures Booked(m, i, p, StepVerify(m, i, n, p, c))
  {
    hide Booked, StepSync;
    NeutralBooked(m, i, p, StepVerify(m, i, n, p, c));
  }

  lemma StatusBooked(m: Shared, i: nat, p: Proc, c: Choice)
    requires p.StatusCall? && Justified(m)
    requires VerifyEmailCode !in StepStatusCall(m, p, c).mem.steps
    ensures Booked(m, i, p, StepStatusCall(m, p, c))
  {
    hide Booked;
    NeutralBooked(m, i, p, StepStatusCall(m, p, c));
  }

  lemma StartBooked(m: Shared, i: nat, n: nat, p: Proc, c: Choice)
    requires p.StartCall? && Placed(m, i, p) && Grounded(m)
    ensures Booked(m, i, p, StepStart(m, i, n, p, c))
  {
    hide Aggregate;
  }

  lemma StepBooked(m: Shared, i: nat, n: nat, p: Proc, c: Choice)
    requires Grounded(m) && Placed(m, i, p) && Owned(m, i, p) && Justified(m) && CalmAt(m, p)
    requires c.Ok? && NeedsRowLock(p) ==> m.lock == None
    requires VerifyEmailCode !in Step(m, i, n, p, c).mem.steps
    ensures Booked(m, i, p, Step(m, i, n, p, c))
  {
    hide Booked, StepStart, StepDispatch, StepHandler, StepVerify, StepStatusCall, StepCompletion;
    match p {
      case Dispatch(pc) =>
        if pc.MarkSession? || pc.MarkUser? || pc.MarkAuth? {
          DispatchMarksBooked(m, i, p, c);
        } else {
          DispatchEndsBooked(m, i, p, c);
        }
      case Handler(_, _, _, _) => HandlerBooked(m, i, p, c);
      case VerifyCall(_, pc) =>
        if pc.VerifySync? { VerifySyncBooked(m, i, n, p, c); } else { VerifyBooked(m, i, n, p, c); }
      case Completion(_) => CompletionAdvances(m, i, p, c);
      case StatusCall(_, _) => StatusBooked(m, i, p, c);
      case StartCall(_, _) => StartBooked(m, i, n, p, c);
    }
  }

  // ----- Whole runs

  /** Debts of other processes survive a step; the step's own debt survives or is paid. */
  lemma DebtsCarryOver(s: State, i: nat, c: Choice)
    requires Enabled(s, Run(i, c))
    ensures var s' := Exec(s, Run(i, c));
            && (SomeOwes(s.procs) ==> SomeOwes(s'.procs) || Owes(s.procs[i]))
            && (SomeOwesOrHolds(s.procs) ==> SomeOwesOrHolds(s'.procs) || OwesOrHolds(s.procs[i]))
            && (Owes(s'.procs[i]) ==> SomeOwes(s'.procs))
            && (OwesOrHolds(s'.procs[i]) ==> SomeOwesOrHolds(s'.procs))
            && (SomeOwes(s'.procs) ==> SomeOwesOrHolds(s'.procs))
  {
    hide Step, Owes, OwesOrHolds;
    var s' := Exec(s, Run(i, c));
    assert forall k :: 0 <= k < |s.procs| && k != i ==> s'.procs[k] == s.procs[k];
    if k :| 0 <= k < |s.procs| && Owes(s.procs[k]) && k != i { assert Owes(s'.procs[k]); }
    if k :| 0 <= k < |s.procs| && OwesOrHolds(s.procs[k]) && k != i { assert OwesOrHolds(s'.procs[k]); }
    if k :| 0 <= k < |s'.procs| && Owes(s'.procs[k]) {
      assert OwesOrHolds(s'.procs[k]) by { OwesIsOwesOrHolds(s'.procs[k]); }
    }
  }

  lemma OwesIsOwesOrHolds(q: Proc)
    ensures Owes(q) ==> OwesOrHolds(q)
  {
  }

  lemma OnlyLockHolderHolds(m: Shared, j: nat, q: Proc)
    requires Placed(m, j, q) && Holding(q).Some?
    ensures m.lock == Some(j)
    ensures Grounded(m) ==> Live(m)
  {
  }

  lemma OthersStayCalm(m: Shared, i: nat, p: Proc, v: Move, j: nat, q: Proc)
    requires Booked(m, i, p, v) && Placed(m, j, q) && CalmAt(m, q) && i != j
    ensures CalmAt(v.mem, q)
  {
  }

  lemma OthersStayCurrent(s: State, i: nat, c: Choice, j: nat)
    requires Structured(s) && Enabled(s, Run(i, c)) && j < |s.procs| && j != i
    requires Structured(Exec(s, Run(i, c)))
    requires Current(s.mem, s.procs, s.procs[j])
    requires Booked(s.mem, i, s.procs[i], Step(s.mem, i, |s.procs|, s.procs[i], c))
    ensures var s' := Exec(s, Run(i, c)); Current(s'.mem, s'.procs, s.procs[j])
  {
    hide Step, Aggregate, SomeOwes, SomeOwesOrHolds, Placed, Grounded, Holding, Owes;
    var q, s' := s.procs[j], Exec(s, Run(i, c));
    DebtsCarryOver(s, i, c);
    if Holding(q).Some? {
      OnlyLockHolderHolds(s.mem, j, q);
      assert s'.procs[j] == q && Placed(s'.mem, j, q);
      OnlyLockHolderHolds(s'.mem, j, q);
      assert Placed(s'.mem, i, s'.procs[i]);
      if Holding(s'.procs[i]).Some? { OnlyLockHolderHolds(s'.mem, i, s'.procs[i]); }
    }
  }

  lemma StatusStaysAccounted(s: State, i: nat, c: Choice)
    requires Structured(s) && Accounted(s) && Enabled(s, Run(i, c))
    requires VerifyEmailCode !in s.mem.steps
    requires Booked(s.mem, i, s.procs[i], Step(s.mem, i, |s.procs|, s.procs[i], c))
    ensures var s' := Exec(s, Run(i, c));
            Live(s'.mem) ==>
              HasStatus(s'.mem, Aggregate(s'.mem.steps)) || HasStatus(s'.mem, Failed) || SomeOwesOrHolds(s'.procs)
  {
    hide Step, Aggregate, SomeOwes, SomeOwesOrHolds, Placed, Grounded, Holding, Owes, CalmAt;
    var p := s.procs[i];
    DebtsCarryOver(s, i, c);
    assert Current(s.mem, s.procs, p);
    HoldersOweNothing(p);
  }

  lemma HoldersOweNothing(q: Proc)
    ensures Holding(q).Some? ==> !Owes(q)
  {
  }

  lemma RunAccounted(s: State, i: nat, c: Choice)
    requires Structured(s) && Verified(s) && Accounted(s) && Enabled(s, Run(i, c))
    ensures Accounted(Exec(s, Run(i, c)))
  {
    var e := Run(i, c);
    var s', m, p, n := Exec(s, e), s.mem, s.procs[i], |s.procs|;
    if VerifyEmailCode !in s'.mem.steps {
      hide Step, Current, CalmAt, Placed, Grounded, Booked, Owned, Tallied, Justified, Advanced, Aggregate, Live,
        HasStatus, SomeOwesOrHolds;
      assert VerifyEmailCode !in m.steps by { KeysStay(s, e); }
      ExecStructured(s, e);
      StepBooked(m, i, n, p, c);
      StatusStaysAccounted(s, i, c);
      forall j | 0 <= j < |s'.procs|
        ensures CalmAt(s'.mem, s'.procs[j]) && Current(s'.mem, s'.procs, s'.procs[j])
      {
        if j == i {
          OwnStepCurrent(m, i, p, Step(m, i, n, p, c), s'.procs);
        } else if j < n {
          OthersStayCalm(m, i, p, Step(m, i, n, p, c), j, s.procs[j]);
          OthersStayCurrent(s, i, c, j);
        } else {
          SpawnedCurrent(m, i, n, p, c, s'.procs);
        }
      }
    }
  }

  lemma KeysStay(s: State, e: Event)
    ensures forall k :: k in s.mem.steps ==> k in Exec(s, e).mem.steps
  {
    hide Exec;
    ExecAdvances(s, e);
  }

  lemma OwnStepCurrent(m: Shared, i: nat, p: Proc, v: Move, procs: seq<Proc>)
    requires Booked(m, i, p, v)
    ensures CalmAt(v.mem, v.proc) && Current(v.mem, procs, v.proc)
  {
  }

  lemma SpawnedCurrent(m: Shared, i: nat, n: nat, p: Proc, c: Choice, procs: seq<Proc>)
    ensures var v := Step(m, i, n, p, c);
            v.spawned.Some? ==> CalmAt(v.mem, v.spawned.value) && Current(v.mem, procs, v.spawned.value)
  {
    hide StepSync, StepCompensate, Aggregate;
  }

  lemma SpawnAccounted(s: State, q: Proc)
    requires Accounted(s) && MaySpawn(s.mem, q)
    ensures Accounted(Exec(s, Spawn(q)))
  {
    hide Aggregate;
    var s' := Exec(s, Spawn(q));
    if k :| 0 <= k < |s.procs| && Owes(s.procs[k]) { assert Owes(s'.procs[k]); }
    if k :| 0 <= k < |s.procs| && OwesOrHolds(s.procs[k]) { assert OwesOrHolds(s'.procs[k]); }
  }

  lemma RedeliverAccounted(s: State, i: nat)
    requires Accounted(s) && Enabled(s, Redeliver(i))
    ensures Accounted(Exec(s, Redeliver(i)))
  {
    hide Aggregate;
    var s' := Exec(s, Redeliver(i));
    assert Owes(s'.procs[i]) && OwesOrHolds(s'.procs[i]);
  }

  lemma ExecAccounted(s: State, e: Event)
    requires Structured(s) && Verified(s) && Accounted(s)
    ensures Accounted(Exec(s, e))
  {
    if Enabled(s, e) {
      hide Step, Accounted, MaySpawn;
      match e {
        case Spawn(q) => SpawnAccounted(s, q);
        case Run(i, c) => RunAccounted(s, i, c);
        case Redeliver(j) => RedeliverAccounted(s, j);
      }
    }
  }

  lemma {:induction false} AlwaysAccounted(realtime: bool, events: seq<Event>)
    ensures Accounted(After(Init(realtime), events))
  {
    if events != [] {
      hide Accounted, Verified, Structured, Exec;
      var init := events[..|events| - 1];
      AlwaysStructured(realtime, init);
      AlwaysVerified(realtime, init);
      AlwaysAccounted(realtime, init);
      ExecAccounted(After(Init(realtime), init), events[|events| - 1]);
    }
  }

  /** No handler or dispatch is in flight or waits for a redelivery, and none ended
      in a repository error. */
  predicate Settled(procs: seq<Proc>) {
    forall j :: 0 <= j < |procs| ==>
      && (procs[j].Handler? ==> procs[j].handler == HandlerDone(true))
      && (procs[j].Dispatch? ==> procs[j].dispatch.DispatchDone? && procs[j].dispatch.ok)
  }

  /** Whatever the results and their order: once handlers have settled and before
      verification starts, the status is the aggregate of the steps or `failed`. */
  lemma QuiescentStatus(realtime: bool, events: seq<Event>)
    requires var s := After(Init(realtime), events);
             Settled(s.procs) && Live(s.mem) && VerifyEmailCode !in s.mem.steps
    ensures var m := After(Init(realtime), events).mem;
            HasStatus(m, Aggregate(m.steps)) || HasStatus(m, Failed)
  {
    hide After, Aggregate;
    AlwaysAccounted(realtime, events);
  }
}
