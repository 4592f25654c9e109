/** Who holds the row lock, who created the rows, and when a session is live.
    The invariants are local: a fact about one process and the shared state that
    its own steps establish and no step of another process destroys. */
module SagaStructure {
  import opened Domain
  import opened Saga

  predicate SyncHoldsLock(pc: SyncPc) { pc.Snapshot? || pc.Commit? }

  /** A process between SELECT ... FOR UPDATE and the commit or rollback. */
  predicate HoldsLock(p: Proc) {
    match p
    case Handler(_, _, _, pc) => pc.HandlerSync? && SyncHoldsLock(pc.sync)
    case VerifyCall(_, pc) => pc.VerifySync? && SyncHoldsLock(pc.sync)
    case _ => false
  }

  /** The session exists and its dispatch has begun. */
  predicate Live(m: Shared) {
    m.session.Some? && m.session.value.status != Started
  }

  predicate Commanded(m: Shared) {
    m.userSent || m.authSent
  }

  /** The step rows a creating Start call has inserted so far. */
  function Inserted(pc: StartPc): Steps {
    match pc
    case InsertAuthStep => map[UserCreateProfile := StepPending]
    case InsertMailStep => map[UserCreateProfile := StepPending, AuthCreatePending := StepPending]
    case SpawnDispatch =>
      map[UserCreateProfile := StepPending, AuthCreatePending := StepPending, MailSendCode := StepPending]
    case _ => map[]
  }

  predicate Creating(pc: StartPc) {
    pc.InsertUserStep? || pc.InsertAuthStep? || pc.InsertMailStep? || pc.SpawnDispatch?
  }

  predicate Grounded(m: Shared) {
    && (m.session.None? ==> m.steps == map[])
    && (m.session.Some? ==> m.session.value.userId != "")
    && (Live(m) ==> HasInitialSteps(m.steps))
    && (Commanded(m) ==> Live(m))
  }

  predicate Placed(m: Shared, j: nat, q: Proc) {
    && (HoldsLock(q) <==> m.lock == Some(j))
    && match q
       case StartCall(row, pc) =>
         && (pc.StartDone? || Creating(pc) || (row.userId != "" && row.status == Started))
         && (Creating(pc) ==>
               m.creator == Some(j) && HasStatus(m, Started) && m.steps == Inserted(pc))
       case Dispatch(pc) =>
         && (pc.MarkSession? ==> HasStatus(m, Started) && m.steps == Inserted(SpawnDispatch))
         && (!pc.DispatchDone? ==> m.creator == Some(j))
         && (!pc.DispatchDone? && !pc.MarkSession? ==> Live(m))
         && (pc.MarkUser? || pc.MarkAuth? || pc.SendUser? ==> !Commanded(m))
       case Handler(_, _, _, _) => Commanded(m)
       case VerifyCall(_, pc) => pc.ReadForVerify? || pc.VerifyDone? || Live(m)
       case Completion(_) => Live(m)
       case StatusCall(_, pc) => pc.Claim? ==> Live(m)
  }

  predicate Structured(s: State) {
    && Grounded(s.mem)
    && (s.mem.lock.Some? ==> s.mem.lock.value < |s.procs|)
    && forall j :: 0 <= j < |s.procs| ==> Placed(s.mem, j, s.procs[j])
  }

  /** Process `i`, which did or did not hold the row lock, leaves the locks of others alone. */
  predicate LockMove(m: Shared, m': Shared, i: nat, held: bool) {
    m'.lock == m.lock || (m.lock == None && m'.lock == Some(i)) || (held && m'.lock == None)
  }

  /** How the steps of process `i` may change what other processes rely on. */
  predicate Gentle(m: Shared, m': Shared, i: nat, p: Proc) {
    && LockMove(m, m', i, HoldsLock(p))
    && (m'.creator == m.creator || m.session.None? || m.creator == Some(i))
    && (m'.session == m.session || m.session.None? || (Live(m') && (Live(m) || m.creator == Some(i))))
    && (m.session.Some? ==> m'.session.Some? && m'.session.value.userId == m.session.value.userId)
    && (m'.steps == m.steps || Live(m) || m.creator == Some(i))
    && (Commanded(m) ==> Commanded(m'))
    && (Commanded(m') ==> Commanded(m) || m.creator == Some(i))
  }

  predicate OwnStepFine(m: Shared, i: nat, n: nat, p: Proc, v: Move) {
    && Gentle(m, v.mem, i, p)
    && Grounded(v.mem)
    && Placed(v.mem, i, v.proc)
    && (v.spawned.Some? ==> Placed(v.mem, n, v.spawned.value))
  }

  lemma StartReads(m: Shared, i: nat, n: nat, p: Proc, c: Choice)
    requires p.StartCall? && Grounded(m) && Placed(m, i, p)
    requires p.start.StartDone? || p.start.LookupEmail? || p.start.LookupUsername? || p.start.CheckAvailability?
    ensures OwnStepFine(m, i, n, p, StepStart(m, i, n, p, c))
  {
  }

  lemma StartCreates(m: Shared, i: nat, n: nat, p: Proc, c: Choice)
    requires p.StartCall? && Grounded(m) && Placed(m, i, p)
    requires p.start.InsertSession? || p.start.InsertUserStep?
    ensures OwnStepFine(m, i, n, p, StepStart(m, i, n, p, c))
  {
  }

  lemma StartInserts(m: Shared, i: nat, n: nat, p: Proc, c: Choice)
    requires p.StartCall? && Grounded(m) && Placed(m, i, p)
    requires p.start.InsertAuthStep? || p.start.InsertMailStep?
    ensures OwnStepFine(m, i, n, p, StepStart(m, i, n, p, c))
  {
  }

  lemma StartSpawns(m: Shared, i: nat, n: nat, p: Proc, c: Choice)
    requires p.StartCall? && Grounded(m) && Placed(m, i, p) && i < n && m.lock != Some(n)
    requires p.start.SpawnDispatch?
    ensures OwnStepFine(m, i, n, p, StepStart(m, i, n, p, c))
  {
  }

  lemma StartFine(m: Shared, i: nat, n: nat, p: Proc, c: Choice)
    requires p.StartCall? && Grounded(m) && Placed(m, i, p) && i < n && m.lock != Some(n)
    ensures OwnStepFine(m, i, n, p, StepStart(m, i, n, p, c))
  {
    hide OwnStepFine, Grounded, Placed, StepStart;
    match p.start {
      case InsertSession => StartCreates(m, i, n, p, c);
      case InsertUserStep => StartCreates(m, i, n, p, c);
      case InsertAuthStep => StartInserts(m, i, n, p, c);
      case InsertMailStep => StartInserts(m, i, n, p, c);
      case SpawnDispatch => StartSpawns(m, i, n, p, c);
      case _ => StartReads(m, i, n, p, c);
    }
  }

  lemma DispatchBegins(m: Shared, i: nat, n: nat, p: Proc, c: Choice)
    requires p.Dispatch? && Grounded(m) && Placed(m, i, p)
    requires p.dispatch.MarkSession? || p.dispatch.MarkUser? || p.dispatch.MarkAuth?
    ensures OwnStepFine(m, i, n, p, StepDispatch(m, p, c))
  {
  }

  lemma DispatchSends(m: Shared, i: nat, n: nat, p: Proc, c: Choice)
    requires p.Dispatch? && Grounded(m) && Placed(m, i, p)
    requires p.dispatch.SendUser? || p.dispatch.SendAuth? || p.dispatch.DispatchDone?
    ensures OwnStepFine(m, i, n, p, StepDispatch(m, p, c))
  {
  }

  lemma DispatchFails(m: Shared, i: nat, n: nat, p: Proc, c: Choice)
    requires p.Dispatch? && Grounded(m) && Placed(m, i, p)
    requires p.dispatch.FailStep? || p.dispatch.FailSession?
    ensures OwnStepFine(m, i, n, p, StepDispatch(m, p, c))
  {
  }

  lemma DispatchFine(m: Shared, i: nat, n: nat, p: Proc, c: Choice)
    requires p.Dispatch? && Grounded(m) && Placed(m, i, p)
    ensures OwnStepFine(m, i, n, p, StepDispatch(m, p, c))
  {
    hide OwnStepFine, Grounded, Placed, StepDispatch;
    match p.dispatch {
      case MarkSession => DispatchBegins(m, i, n, p, c);
      case MarkUser => DispatchBegins(m, i, n, p, c);
      case MarkAuth => DispatchBegins(m, i, n, p, c);
      case FailStep(_) => DispatchFails(m, i, n, p, c);
      case FailSession(_, _) => DispatchFails(m, i, n, p, c);
      case _ => DispatchSends(m, i, n, p, c);
    }
  }

  /** A change made on behalf of a live session that inserts no initial rows. */
  predicate LiveChange(m: Shared, m': Shared) {
    && Live(m) && Live(m')
    && m'.session.value.userId == m.session.value.userId
    && (HasInitialSteps(m.steps) ==> HasInitialSteps(m'.steps))
    && m'.creator == m.creator
    && m'.userSent == m.userSent && m'.authSent == m.authSent
  }

  /** Live and with the lock and the initial rows as before. */
  predicate Keeps(m: Shared, m': Shared) {
    LiveChange(m, m') && m'.lock == m.lock
  }

  lemma WritesKeep(m: Shared)
    requires Live(m)
    ensures Keeps(m, m)
    ensures forall k, st :: Keeps(m, WroteStep(m, k, st))
    ensures forall st :: st != Started ==> Keeps(m, WroteSession(m, st))
    ensures forall e :: Keeps(m, Logged(m, e))
    ensures forall e, e' :: Keeps(m, Logged(Logged(m, e), e'))
    ensures Keeps(m, Logged(m.(notified := true), CodeSentNotified))
  {
  }

  lemma CompensateStays(m: Shared, i: nat, given: string, pc: CompensatePc, c: Choice)
    requires Live(m)
    ensures Keeps(m, StepCompensate(m, i, given, pc, c).0)
  {
    hide WroteSession, Logged, Keeps;
    WritesKeep(m);
  }

  predicate SyncKept(m: Shared, i: nat, pc: SyncPc, m': Shared, next: Progress<SyncPc>) {
    && LiveChange(m, m')
    && LockMove(m, m', i, SyncHoldsLock(pc))
    && (m'.lock == Some(i) <==> next.At? && SyncHoldsLock(next.pc))
  }

  lemma SyncStays(m: Shared, i: nat, pc: SyncPc, c: Choice)
    requires Live(m)
    requires SyncHoldsLock(pc) <==> m.lock == Some(i)
    requires c.Ok? && SyncWrites(pc) ==> m.lock == None
    ensures var (m', next) := StepSync(m, i, pc, c); SyncKept(m, i, pc, m', next)
  {
    hide StepCompensate;
    if pc.Compensate? { CompensateStays(m, i, "", pc.comp, c); }
  }

  /** For a live process only the lock needs attention. */
  predicate LiveMove(m: Shared, i: nat, p: Proc, v: Move) {
    && LiveChange(m, v.mem)
    && LockMove(m, v.mem, i, HoldsLock(p))
    && (HoldsLock(v.proc) <==> v.mem.lock == Some(i))
    && (v.spawned.None? || v.spawned == Some(Completion(CallVerify)))
    && match v.proc
       case Handler(_, _, _, _) => p.Handler?
       case VerifyCall(_, _) => true
       case Completion(_) => true
       case _ => false
  }

  lemma LiveMoveFine(m: Shared, i: nat, n: nat, p: Proc, v: Move)
    requires Grounded(m) && Placed(m, i, p) && i < n && m.lock != Some(n)
    requires LiveMove(m, i, p, v)
    ensures OwnStepFine(m, i, n, p, v)
  {
  }

  lemma HandlerStays(m: Shared, i: nat, p: Proc, c: Choice)
    requires p.Handler? && Live(m) && (HoldsLock(p) <==> m.lock == Some(i))
    requires c.Ok? && NeedsRowLock(p) ==> m.lock == None
    ensures LiveMove(m, i, p, StepHandler(m, i, p, c))
  {
    hide StepCompensate, StepSync, WroteStep, Logged, LiveChange;
    WritesKeep(m);
    match p.handler {
      case DirectCompensate(comp) => CompensateStays(m, i, p.userId, comp, c);
      case HandlerSync(sync) => SyncStays(m, i, sync, c);
      case _ =>
    }
  }

  lemma VerifyStays(m: Shared, i: nat, n: nat, p: Proc, c: Choice)
    requires p.VerifyCall? && Live(m) && (HoldsLock(p) <==> m.lock == Some(i))
    requires c.Ok? && NeedsRowLock(p) ==> m.lock == None
    ensures LiveMove(m, i, p, StepVerify(m, i, n, p, c))
  {
    hide StepSync, WroteSession, Logged, LiveChange;
    WritesKeep(m);
    match p.verify {
      case VerifySync(sync) => SyncStays(m, i, sync, c);
      case InsertVerify => InsertKeeps(m, VerifyEmailCode, StepInProgress, Some(i));
      case InsertActivate => InsertKeeps(m, ActivateUser, StepPending, m.verifier);
      case Launch => LaunchKeeps(m, Some(n));
      case _ =>
    }
  }

  lemma InsertKeeps(m: Shared, key: StepKey, status: StepStatus, verifier: Option<nat>)
    requires Live(m)
    ensures Keeps(m, Logged(m.(steps := m.steps[key := status], verifier := verifier), VerifyInserted))
    ensures Keeps(m, m.(steps := m.steps[key := status]))
  {
  }

  lemma LaunchKeeps(m: Shared, verifier: Option<nat>)
    requires Live(m)
    ensures Keeps(m, Logged(m.(verifier := verifier), Launched))
  {
  }

  lemma CompletionStays(m: Shared, i: nat, p: Proc, c: Choice)
    requires p.Completion? && Live(m)
    ensures var v := StepCompletion(m, i, p, c);
            Keeps(m, v.mem) && v.proc.Completion? && v.spawned.None?
  {
    hide WroteStep, WroteSession, Logged, Keeps;
    WritesKeep(m);
  }

  lemma LiveFine(m: Shared, i: nat, n: nat, p: Proc, c: Choice)
    requires Grounded(m) && Placed(m, i, p) && i < n && m.lock != Some(n)
    requires p.Handler? || p.Completion? || (p.VerifyCall? && Live(m))
    requires c.Ok? && NeedsRowLock(p) ==> m.lock == None
    ensures OwnStepFine(m, i, n, p, Step(m, i, n, p, c))
  {
    hide OwnStepFine, StepHandler, StepVerify, StepCompletion, LiveChange, NeedsRowLock;
    match p {
      case Handler(_, _, _, _) => HandlerStays(m, i, p, c);
      case VerifyCall(_, _) => VerifyStays(m, i, n, p, c);
      case Completion(_) => CompletionStays(m, i, p, c);
    }
    LiveMoveFine(m, i, n, p, Step(m, i, n, p, c));
  }

  lemma VerifyReads(m: Shared, i: nat, n: nat, p: Proc, c: Choice)
    requires p.VerifyCall? && Grounded(m) && Placed(m, i, p) && !Live(m)
    ensures OwnStepFine(m, i, n, p, StepVerify(m, i, n, p, c))
  {
  }

  lemma StatusFine(m: Shared, i: nat, n: nat, p: Proc, c: Choice)
    requires p.StatusCall? && Grounded(m) && Placed(m, i, p)
    ensures OwnStepFine(m, i, n, p, StepStatusCall(m, p, c))
  {
  }

  /** A gentle change disturbs no other process. */
  lemma OthersUndisturbed(m: Shared, m': Shared, i: nat, p: Proc, j: nat, q: Proc)
    requires Gentle(m, m', i, p) && Placed(m, i, p) && Placed(m, j, q) && i != j
    requires Grounded(m) && Grounded(m')
    ensures Placed(m', j, q)
  {
  }

  lemma StepFine(m: Shared, i: nat, n: nat, p: Proc, c: Choice)
    requires Grounded(m) && Placed(m, i, p) && i < n && m.lock != Some(n)
    requires c.Ok? && NeedsRowLock(p) ==> m.lock == None
    ensures OwnStepFine(m, i, n, p, Step(m, i, n, p, c))
  {
    hide OwnStepFine, StepStart, StepDispatch, StepHandler, StepVerify, StepCompletion, StepStatusCall, Grounded,
      Placed;
    match p {
      case StartCall(_, _) => StartFine(m, i, n, p, c);
      case Dispatch(_) => DispatchFine(m, i, n, p, c);
      case StatusCall(_, _) => StatusFine(m, i, n, p, c);
      case VerifyCall(_, _) => if Live(m) { LiveFine(m, i, n, p, c); } else { VerifyReads(m, i, n, p, c); }
      case _ => LiveFine(m, i, n, p, c);
    }
  }

  lemma RunStructured(s: State, i: nat, c: Choice)
    requires Structured(s) && Enabled(s, Run(i, c))
    ensures Structured(Exec(s, Run(i, c)))
  {
    hide Step, OwnStepFine, Grounded, Placed, Gentle;
    var m, p, n := s.mem, s.procs[i], |s.procs|;
    var v := Step(m, i, n, p, c);
    StepFine(m, i, n, p, c);
    OwnStepParts(m, i, n, p, v);
    var s' := Exec(s, Run(i, c));
    forall j | 0 <= j < |s'.procs| ensures Placed(v.mem, j, s'.procs[j]) {
      if j != i && j < n {
        OthersUndisturbed(m, v.mem, i, p, j, s.procs[j]);
      }
    }
  }

  lemma OwnStepParts(m: Shared, i: nat, n: nat, p: Proc, v: Move)
    requires OwnStepFine(m, i, n, p, v)
    ensures Gentle(m, v.mem, i, p) && Grounded(v.mem) && Placed(v.mem, i, v.proc)
    ensures v.spawned.Some? ==> Placed(v.mem, n, v.spawned.value)
    ensures v.mem.lock == m.lock || v.mem.lock == None || v.mem.lock == Some(i)
  {
  }

  lemma ExecStructured(s: State, e: Event)
    requires Structured(s)
    ensures Structured(Exec(s, e))
  {
    match e {
      case Spawn(p) =>
      case Run(i, c) => hide Step; if Enabled(s, e) { RunStructured(s, i, c); }
      case Redeliver(j) =>
    }
  }

  /** Every reachable state is structured. */
  lemma {:induction false} AlwaysStructured(realtime: bool, events: seq<Event>)
    ensures Structured(After(Init(realtime), events))
  {
    if events != [] {
      hide Structured, Exec;
      AlwaysStructured(realtime, events[..|events| - 1]);
      ExecStructured(After(Init(realtime), events[..|events| - 1]), events[|events| - 1]);
    }
  }
}
