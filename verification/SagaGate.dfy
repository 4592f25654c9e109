/** No verification without a reconciliation that saw every step completed. */
module SagaGate {
  import opened Domain
  import opened Saga
  import opened SagaStructure

  /** A reconciliation's snapshot that opens the gate. */
  predicate Opens(e: Effect) {
    e.SnapshotTaken? && HasInitialSteps(e.steps) && AllCompleted(e.steps)
  }

  predicate Opened(log: seq<Effect>) {
    exists k :: 0 <= k < |log| && Opens(log[k])
  }

  predicate SyncKnows(m: Shared, pc: SyncPc) {
    pc.Commit? && AllCompleted(pc.snapshot) ==> Opened(m.log)
  }

  predicate Knows(m: Shared, q: Proc) {
    match q
    case Handler(_, _, _, pc) => pc.HandlerSync? ==> SyncKnows(m, pc.sync)
    case VerifyCall(_, pc) =>
      && (pc.VerifySync? ==> SyncKnows(m, pc.sync))
      && (pc.InsertVerify? || pc.InsertActivate? || pc.SetVerifying? || pc.Launch? ==> Opened(m.log))
    case _ => true
  }

  predicate LaunchesGated(log: seq<Effect>) {
    forall k :: 0 <= k < |log| && log[k] == Launched ==> Opened(log[..k])
  }

  predicate Gated(s: State) {
    && (HasStatus(s.mem, CodeSent) ==> Opened(s.mem.log))
    && LaunchesGated(s.mem.log)
    && forall j :: 0 <= j < |s.procs| ==> Knows(s.mem, s.procs[j])
  }

  /** The log only grows, and whatever could reach `code_sent` knows the gate is open. */
  predicate GateKept(m: Shared, m': Shared) {
    && (Opened(m.log) ==> Opened(m'.log))
    && (HasStatus(m', CodeSent) ==> HasStatus(m, CodeSent) || Opened(m.log))
    && LaunchesGated(m'.log)
  }

  lemma AppendKeeps(m: Shared, e: Effect)
    requires LaunchesGated(m.log) && (e == Launched ==> Opened(m.log))
    ensures Opened(m.log) ==> Opened(m.log + [e])
    ensures Opens(e) ==> Opened(m.log + [e])
    ensures LaunchesGated(m.log + [e])
  {
    var log := m.log + [e];
    assert log[|m.log|] == e;
    if Opened(m.log) {
      var k :| 0 <= k < |m.log| && Opens(m.log[k]);
      assert log[k] == m.log[k];
    }
    forall k | 0 <= k < |log| && log[k] == Launched ensures Opened(log[..k]) {
      if k < |m.log| { assert log[k] == m.log[k] && log[..k] == m.log[..k]; } else { assert log[..k] == m.log; }
    }
  }

  lemma LoggedKeeps(m: Shared)
    requires LaunchesGated(m.log)
    ensures forall m': Shared {:trigger GateKept(m, m')} ::
      m'.log == m.log && (m'.session == m.session || !HasStatus(m', CodeSent)) ==> GateKept(m, m')
    ensures forall k, st :: GateKept(m, WroteStep(m, k, st))
    ensures forall e :: e != Launched ==> GateKept(m, Logged(m, e))
    ensures forall st :: st != CodeSent ==> GateKept(m, WroteSession(m, st))
  {
    forall e | e != Launched ensures GateKept(m, Logged(m, e)) { AppendKeeps(m, e); }
    forall st | st != CodeSent ensures GateKept(m, WroteSession(m, st)) { AppendKeeps(m, SessionWritten(st)); }
  }

  lemma CompensateGated(m: Shared, i: nat, given: string, pc: CompensatePc, c: Choice)
    requires LaunchesGated(m.log)
    ensures GateKept(m, StepCompensate(m, i, given, pc, c).0)
  {
    hide GateKept, WroteSession, Logged, LaunchesGated;
    LoggedKeeps(m);
  }

  lemma SnapshotGated(m: Shared)
    requires LaunchesGated(m.log) && HasInitialSteps(m.steps)
    ensures AllCompleted(m.steps) ==> Opened(m.log + [SnapshotTaken(m.steps)])
  {
    AppendKeeps(m, SnapshotTaken(m.steps));
  }

  lemma CommitGated(m: Shared, snapshot: Steps)
    requires LaunchesGated(m.log) && (AllCompleted(snapshot) ==> Opened(m.log))
    ensures GateKept(m, WroteSession(m.(lock := None), Aggregate(snapshot)))
  {
    AppendKeeps(m, SessionWritten(Aggregate(snapshot)));
  }

  lemma SyncGated(m: Shared, i: nat, pc: SyncPc, c: Choice)
    requires LaunchesGated(m.log) && HasInitialSteps(m.steps) && SyncKnows(m, pc)
    ensures var (m', next) := StepSync(m, i, pc, c);
            GateKept(m, m') && (next.At? ==> SyncKnows(m', next.pc))
  {
    hide GateKept, StepCompensate, LaunchesGated, Opened, WroteSession;
    LoggedKeeps(m);
    match pc {
      case Compensate(comp) => CompensateGated(m, i, "", comp, c);
      case Commit(snapshot) => CommitGated(m, snapshot);
      case Snapshot => SnapshotGated(m);
      case _ =>
    }
  }

  predicate StepGated(m: Shared, v: Move) {
    && GateKept(m, v.mem) && Knows(v.mem, v.proc)
    && (v.spawned.Some? ==> Knows(v.mem, v.spawned.value))
  }

  lemma NotifyGated(m: Shared)
    requires LaunchesGated(m.log)
    ensures GateKept(m, Logged(m.(notified := true), CodeSentNotified))
  {
    AppendKeeps(m, CodeSentNotified);
  }

  lemma HandlerGated(m: Shared, i: nat, p: Proc, c: Choice)
    requires p.Handler? && LaunchesGated(m.log) && HasInitialSteps(m.steps) && Knows(m, p)
    ensures StepGated(m, StepHandler(m, i, p, c))
  {
    hide GateKept, StepCompensate, StepSync, LaunchesGated, Opened, WroteStep;
    LoggedKeeps(m);
    match p.handler {
      case DirectCompensate(comp) => CompensateGated(m, i, p.userId, comp, c);
      case HandlerSync(sync) => SyncGated(m, i, sync, c);
      case Notify => NotifyGated(m);
      case _ =>
    }
  }

  lemma VerifyGated(m: Shared, i: nat, n: nat, p: Proc, c: Choice)
    requires p.VerifyCall? && LaunchesGated(m.log) && Knows(m, p)
    requires p.verify.VerifySync? ==> HasInitialSteps(m.steps)
    requires HasStatus(m, CodeSent) ==> Opened(m.log)
    ensures StepGated(m, StepVerify(m, i, n, p, c))
  {
    hide GateKept, StepSync, LaunchesGated, Opened, WroteSession;
    LoggedKeeps(m);
    match p.verify {
      case VerifySync(sync) => SyncGated(m, i, sync, c);
      case SetVerifying => SessionWriteGated(m, VerifyingEmail);
      case InsertVerify => InsertGated(m, i);
      case InsertActivate => GateKeptElsewhere(m, m.(steps := m.steps[ActivateUser := StepPending]));
      case Launch => LaunchGated(m, n);
      case _ =>
    }
  }

  lemma InsertGated(m: Shared, i: nat)
    requires LaunchesGated(m.log)
    ensures var m' :=
            Logged(m.(steps := m.steps[VerifyEmailCode := StepInProgress], verifier := Some(i)), VerifyInserted);
            GateKept(m, m') && (Opened(m.log) ==> Opened(m'.log))
  {
    AppendKeeps(m, VerifyInserted);
  }

  lemma GateKeptElsewhere(m: Shared, m': Shared)
    requires LaunchesGated(m.log) && m'.log == m.log && (m'.session == m.session || !HasStatus(m', CodeSent))
    ensures GateKept(m, m') && (Opened(m.log) ==> Opened(m'.log))
  {
  }

  lemma SessionWriteGated(m: Shared, status: SessionStatus)
    requires LaunchesGated(m.log) && status != CodeSent
    ensures GateKept(m, WroteSession(m, status)) && (Opened(m.log) ==> Opened(WroteSession(m, status).log))
  {
    AppendKeeps(m, SessionWritten(status));
  }

  lemma LaunchGated(m: Shared, n: nat)
    requires LaunchesGated(m.log) && Opened(m.log)
    ensures GateKept(m, Logged(m.(verifier := Some(n)), Launched))
  {
    AppendKeeps(m, Launched);
  }

  lemma CompletionGated(m: Shared, i: nat, p: Proc, c: Choice)
    requires p.Completion? && LaunchesGated(m.log)
    ensures StepGated(m, StepCompletion(m, i, p, c))
  {
    hide GateKept, LaunchesGated, WroteStep, WroteSession, Logged, SessionUser;
    LoggedKeeps(m);
    if p.completion.CallActivate? { ActivateGated(m); }
  }

  lemma ActivateGated(m: Shared)
    requires LaunchesGated(m.log)
    ensures GateKept(m, Logged(Logged(m, ActivateCalled), ActivateSucceeded))
  {
    AppendKeeps(m, ActivateCalled);
    AppendKeeps(Logged(m, ActivateCalled), ActivateSucceeded);
  }

  lemma StartGated(m: Shared, i: nat, n: nat, p: Proc, c: Choice)
    requires p.StartCall? && (p.start.InsertSession? ==> p.row.status == Started)
    requires LaunchesGated(m.log)
    ensures StepGated(m, StepStart(m, i, n, p, c))
  {
    hide GateKept, LaunchesGated, Opened;
    LoggedKeeps(m);
  }

  lemma OtherGated(m: Shared, i: nat, n: nat, p: Proc, c: Choice)
    requires p.StartCall? || p.Dispatch? || p.StatusCall?
    requires p.StartCall? && p.start.InsertSession? ==> p.row.status == Started
    requires LaunchesGated(m.log)
    ensures StepGated(m, Step(m, i, n, p, c))
  {
    hide GateKept, LaunchesGated, WroteStep, WroteSession, Logged, Opened, StepStart;
    LoggedKeeps(m);
    if p.StartCall? { StartGated(m, i, n, p, c); }
    if p.StatusCall? { ClaimGated(m); }
  }

  lemma ClaimGated(m: Shared)
    requires LaunchesGated(m.log)
    ensures GateKept(m, Logged(WroteSession(m, TokensClaimed), TokenReturned))
  {
    AppendKeeps(m, SessionWritten(TokensClaimed));
    AppendKeeps(WroteSession(m, TokensClaimed), TokenReturned);
  }

  lemma StepsGated(m: Shared, i: nat, n: nat, p: Proc, c: Choice)
    requires Grounded(m) && Placed(m, i, p) && LaunchesGated(m.log) && Knows(m, p)
    requires HasStatus(m, CodeSent) ==> Opened(m.log)
    ensures StepGated(m, Step(m, i, n, p, c))
  {
    hide StepGated, Opened, LaunchesGated, StepHandler, StepVerify, StepCompletion, StepStart, StepDispatch,
      StepStatusCall;
    match p {
      case Handler(_, _, _, _) => HandlerGated(m, i, p, c);
      case VerifyCall(_, _) => VerifyGated(m, i, n, p, c);
      case Completion(_) => CompletionGated(m, i, p, c);
      case _ => OtherGated(m, i, n, p, c);
    }
  }

  lemma KnowledgeLasts(m: Shared, m': Shared, q: Proc)
    requires GateKept(m, m') && Knows(m, q)
    ensures Knows(m', q)
  {
  }

  lemma RunGated(s: State, i: nat, c: Choice)
    requires Structured(s) && Gated(s) && Enabled(s, Run(i, c))
    ensures Gated(Exec(s, Run(i, c)))
  {
    hide Step, Knows, Placed, Grounded, Opened, LaunchesGated;
    var m, n := s.mem, |s.procs|;
    var v := Step(m, i, n, s.procs[i], c);
    StepsGated(m, i, n, s.procs[i], c);
    forall j | 0 <= j < n && j != i ensures Knows(v.mem, s.procs[j]) {
      KnowledgeLasts(m, v.mem, s.procs[j]);
    }
  }

  lemma ExecGated(s: State, e: Event)
    requires Structured(s) && Gated(s)
    ensures Gated(Exec(s, e))
  {
    match e {
      case Spawn(p) =>
      case Run(i, c) => hide Step; if Enabled(s, e) { RunGated(s, i, c); }
      case Redeliver(j) =>
    }
  }

  lemma {:induction false} AlwaysGated(realtime: bool, events: seq<Event>)
    ensures Gated(After(Init(realtime), events))
  {
    if events != [] {
      hide Gated, Structured, Exec;
      var before := After(Init(realtime), events[..|events| - 1]);
      AlwaysStructured(realtime, events[..|events| - 1]);
      AlwaysGated(realtime, events[..|events| - 1]);
      ExecGated(before, events[|events| - 1]);
    }
  }

  /** In every run, including failures and duplicates, each launch of a verification
      is preceded by a reconciliation snapshot in which all step rows, the three
      initial ones among them, were completed together. */
  lemma VerificationGate(realtime: bool, events: seq<Event>, k: nat)
    requires var log := After(Init(realtime), events).mem.log; k < |log| && log[k] == Launched
    ensures var log := After(Init(realtime), events).mem.log;
            exists j :: 0 <= j < k && log[j].SnapshotTaken?
                        && HasInitialSteps(log[j].steps) && AllCompleted(log[j].steps)
  {
    AlwaysGated(realtime, events);
    var log := After(Init(realtime), events).mem.log;
    var j :| 0 <= j < |log[..k]| && Opens(log[..k][j]);
    assert log[j] == log[..k][j];
  }

  // ----- Snapshots are real

  /** The log only grows, and a snapshot noted by a step is the table it found. */
  predicate Honest(m: Shared, m': Shared) {
    && |m.log| <= |m'.log| && m'.log[..|m.log|] == m.log
    && forall k :: |m.log| <= k < |m'.log| && m'.log[k].SnapshotTaken? ==> m'.log[k].steps == m.steps
  }

  lemma LoggedHonest(m: Shared, e: Effect)
    requires !e.SnapshotTaken? || e.steps == m.steps
    ensures Honest(m, Logged(m, e))
    ensures forall e': Effect :: !e'.SnapshotTaken? ==> Honest(m, Logged(Logged(m, e), e'))
  {
  }

  lemma SameLogHonest(m: Shared, m': Shared)
    requires m'.log == m.log
    ensures Honest(m, m')
  {
  }

  lemma WritesHonest(m: Shared)
    ensures forall m': Shared {:trigger Honest(m, m')} :: m'.log == m.log ==> Honest(m, m')
    ensures forall k, st :: Honest(m, WroteStep(m, k, st))
    ensures forall st :: Honest(m, WroteSession(m, st))
    ensures forall e: Effect :: !e.SnapshotTaken? || e.steps == m.steps ==> Honest(m, Logged(m, e))
    ensures Honest(m, Logged(Logged(m, ActivateCalled), ActivateSucceeded))
    ensures Honest(m, Logged(WroteSession(m, TokensClaimed), TokenReturned))
  {
    hide Honest;
    forall m': Shared | m'.log == m.log ensures Honest(m, m') { SameLogHonest(m, m'); }
    forall e: Effect | !e.SnapshotTaken? || e.steps == m.steps ensures Honest(m, Logged(m, e)) { LoggedHonest(m, e); }
    forall st ensures Honest(m, WroteSession(m, st)) { WriteHonest(m, st); }
    LoggedHonest(m, ActivateCalled);
    ClaimHonest(m);
  }

  lemma WriteHonest(m: Shared, st: SessionStatus)
    ensures Honest(m, WroteSession(m, st))
  {
  }

  lemma ClaimHonest(m: Shared)
    ensures Honest(m, Logged(WroteSession(m, TokensClaimed), TokenReturned))
  {
  }

  lemma CompensateHonest(m: Shared, i: nat, given: string, pc: CompensatePc, c: Choice)
    ensures Honest(m, StepCompensate(m, i, given, pc, c).0)
  {
    hide Honest, WroteSession, Logged;
    WritesHonest(m);
  }

  lemma SyncHonest(m: Shared, i: nat, pc: SyncPc, c: Choice)
    ensures Honest(m, StepSync(m, i, pc, c).0)
  {
    hide StepCompensate, Aggregate, UpdatedSession;
    if pc.Compensate? { CompensateHonest(m, i, "", pc.comp, c); }
  }

  lemma HandlerHonest(m: Shared, i: nat, p: Proc, c: Choice)
    requires p.Handler?
    ensures Honest(m, StepHandler(m, i, p, c).mem)
  {
    hide Honest, StepCompensate, StepSync, WroteStep;
    WritesHonest(m);
    match p.handler {
      case DirectCompensate(comp) => CompensateHonest(m, i, p.userId, comp, c);
      case HandlerSync(sync) => SyncHonest(m, i, sync, c);
      case Notify => NotifyHonest(m);
      case _ =>
    }
  }

  lemma NotifyHonest(m: Shared)
    ensures Honest(m, Logged(m.(notified := true), CodeSentNotified))
  {
  }

  lemma VerifyHonest(m: Shared, i: nat, n: nat, p: Proc, c: Choice)
    requires p.VerifyCall?
    ensures Honest(m, StepVerify(m, i, n, p, c).mem)
  {
    hide Honest, StepSync, WroteSession;
    WritesHonest(m);
    match p.verify {
      case VerifySync(sync) => SyncHonest(m, i, sync, c);
      case InsertVerify => InsertHonest(m, i);
      case Launch => LaunchHonest(m, n);
      case _ =>
    }
  }

  lemma InsertHonest(m: Shared, i: nat)
    ensures Honest(m,
            Logged(m.(steps := m.steps[VerifyEmailCode := StepInProgress], verifier := Some(i)), VerifyInserted))
  {
  }

  lemma LaunchHonest(m: Shared, n: nat)
    ensures Honest(m, Logged(m.(verifier := Some(n)), Launched))
  {
  }

  lemma CompletionHonest(m: Shared, i: nat, p: Proc, c: Choice)
    requires p.Completion?
    ensures Honest(m, StepCompletion(m, i, p, c).mem)
  {
    hide Honest, WroteStep, WroteSession, Logged, SessionUser;
    WritesHonest(m);
  }

  lemma StepHonest(m: Shared, i: nat, n: nat, p: Proc, c: Choice)
    ensures Honest(m, Step(m, i, n, p, c).mem)
  {
    hide Honest, StepHandler, StepVerify, StepCompletion, WroteStep, WroteSession, Logged;
    WritesHonest(m);
    match p {
      case Handler(_, _, _, _) => HandlerHonest(m, i, p, c);
      case VerifyCall(_, _) => VerifyHonest(m, i, n, p, c);
      case Completion(_) => CompletionHonest(m, i, p, c);
      case _ =>
    }
  }

  lemma ExecHonest(s: State, e: Event)
    ensures Honest(s.mem, Exec(s, e).mem)
  {
    hide Step, NeedsRowLock;
    if e.Run? && Enabled(s, e) { StepHonest(s.mem, e.i, |s.procs|, s.procs[e.i], e.choice); }
  }

  /** Every snapshot in the log is the step table at some earlier point of the run. */
  lemma {:induction false} SnapshotsAreReal(realtime: bool, events: seq<Event>, k: nat) returns (t: nat)
    requires var log := After(Init(realtime), events).mem.log; k < |log| && log[k].SnapshotTaken?
    ensures t < |events|
    ensures After(Init(realtime), events[..t]).mem.steps == After(Init(realtime), events).mem.log[k].steps
    ensures |After(Init(realtime), events[..t]).mem.log| <= k
  {
    hide Exec;
    var init := events[..|events| - 1];
    var m, m' := After(Init(realtime), init).mem, After(Init(realtime), events).mem;
    ExecHonest(After(Init(realtime), init), events[|events| - 1]);
    if k < |m.log| {
      assert m'.log[..|m.log|][k] == m'.log[k];
      t := SnapshotsAreReal(realtime, init, k);
      assert init[..t] == events[..t];
    } else {
      t := |init|;
    }
  }

  /** Before each launch there was a moment at which the step table itself had all its
      rows, the three initial ones among them, completed together. */
  lemma GateOpenedInTable(realtime: bool, events: seq<Event>, k: nat) returns (t: nat)
    requires var log := After(Init(realtime), events).mem.log; k < |log| && log[k] == Launched
    ensures t < |events|
    ensures var m := After(Init(realtime), events[..t]).mem;
            HasInitialSteps(m.steps) && AllCompleted(m.steps) && |m.log| < k
  {
    hide After;
    VerificationGate(realtime, events, k);
    var log := After(Init(realtime), events).mem.log;
    var j :| 0 <= j < k && log[j].SnapshotTaken? && HasInitialSteps(log[j].steps) && AllCompleted(log[j].steps);
    t := SnapshotsAreReal(realtime, events, j);
  }
}
