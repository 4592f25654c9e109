/** A failed step keeps the session failed, and every handler that finishes after the
    failure has compensated it: both deactivations issued, registration.failed published. */
module SagaCompensation {
  import opened Domain
  import opened Saga
  import opened SagaStructure
  import opened SagaVerification
  import opened SagaQuiescence
  import opened SagaSuccess

  // ----- The log only grows

  predicate Grows(m: Shared, m': Shared) {
    m.log <= m'.log
  }

  lemma WritesGrow(m: Shared)
    ensures forall m': Shared {:trigger Grows(m, m')} :: m'.log == m.log ==> Grows(m, m')
    ensures forall k, st :: Grows(m, WroteStep(m, k, st))
    ensures forall st :: Grows(m, WroteSession(m, st))
    ensures forall e :: Grows(m, Logged(m, e))
    ensures forall e, e' :: Grows(m, Logged(Logged(m, e), e'))
    ensures Grows(m, Logged(WroteSession(m, TokensClaimed), TokenReturned))
  {
  }

  lemma CompensateGrows(m: Shared, i: nat, given: string, pc: CompensatePc, c: Choice)
    ensures Grows(m, StepCompensate(m, i, given, pc, c).0)
  {
    hide Grows, WroteSession, Logged;
    WritesGrow(m);
  }

  lemma SyncGrows(m: Shared, i: nat, pc: SyncPc, c: Choice)
    ensures Grows(m, StepSync(m, i, pc, c).0)
  {
    hide Grows, StepCompensate, Aggregate;
    WritesGrow(m);
    match pc {
      case Compensate(comp) => CompensateGrows(m, i, "", comp, c);
      case Commit(snapshot) => CommitGrows(m, Aggregate(snapshot));
      case _ =>
    }
  }

  lemma CommitGrows(m: Shared, status: SessionStatus)
    ensures Grows(m, WroteSession(m.(lock := None), status))
  {
  }

  lemma HandlerGrows(m: Shared, i: nat, p: Proc, c: Choice)
    requires p.Handler?
    ensures Grows(m, StepHandler(m, i, p, c).mem)
  {
    hide Grows, StepCompensate, StepSync, WroteStep;
    WritesGrow(m);
    match p.handler {
      case DirectCompensate(comp) => CompensateGrows(m, i, p.userId, comp, c);
      case HandlerSync(sync) => SyncGrows(m, i, sync, c);
      case Notify => NotifyGrows(m);
      case _ =>
    }
  }

  lemma NotifyGrows(m: Shared)
    ensures Grows(m, Logged(m.(notified := true), CodeSentNotified))
  {
  }

  lemma VerifyGrows(m: Shared, i: nat, n: nat, p: Proc, c: Choice)
    requires p.VerifyCall?
    ensures Grows(m, StepVerify(m, i, n, p, c).mem)
  {
    hide Grows, StepSync, WroteSession;
    WritesGrow(m);
    match p.verify {
      case VerifySync(sync) => SyncGrows(m, i, sync, c);
      case InsertVerify => InsertGrows(m, i);
      case Launch => LaunchGrows(m, n);
      case _ =>
    }
  }

  lemma InsertGrows(m: Shared, i: nat)
    ensures Grows(m,
            Logged(m.(steps := m.steps[VerifyEmailCode := StepInProgress], verifier := Some(i)), VerifyInserted))
  {
  }

  lemma LaunchGrows(m: Shared, n: nat)
    ensures Grows(m, Logged(m.(verifier := Some(n)), Launched))
  {
  }

  lemma CompletionGrows(m: Shared, i: nat, p: Proc, c: Choice)
    requires p.Completion?
    ensures Grows(m, StepCompletion(m, i, p, c).mem)
  {
    hide Grows, WroteStep, WroteSession, Logged, SessionUser;
    WritesGrow(m);
  }

  lemma StepGrows(m: Shared, i: nat, n: nat, p: Proc, c: Choice)
    ensures Grows(m, Step(m, i, n, p, c).mem)
  {
    hide Grows, StepHandler, StepVerify, StepCompletion, WroteStep, WroteSession, Logged;
    WritesGrow(m);
    match p {
      case Handler(_, _, _, _) => HandlerGrows(m, i, p, c);
      case VerifyCall(_, _) => VerifyGrows(m, i, n, p, c);
      case Completion(_) => CompletionGrows(m, i, p, c);
      case _ =>
    }
  }

  // ----- Handlers started after the failure

  /** The user a handler deactivates: the one a failed result names, else the session's. */
  function UndoneUser(m: Shared, q: Proc): string
    requires m.session.Some? && q.Handler?
  {
    if !q.success && q.userId != "" then q.userId else m.session.value.userId
  }

  predicate Target(m: Shared, q: Proc, uid: string) {
    uid != "" && m.session.Some? && q.Handler? && uid == UndoneUser(m, q)
  }

  /** The handler has written `failed` and had its user and its auth record deactivated. */
  predicate BothIssued(m: Shared, j: nat, q: Proc) {
    && m.session.Some? && q.Handler? && UndoneUser(m, q) != "" && SessionWritten(Failed) in m.log
    && UserDeactivated(j, UndoneUser(m, q)) in m.log && AuthDeactivated(j, UndoneUser(m, q)) in m.log
  }

  /** Process `j` has published registration.failed, or the publication failed. */
  predicate Announced(m: Shared, j: nat) {
    FailedEvent(j, true) in m.log || FailedEvent(j, false) in m.log
  }

  predicate CompensateOnTrack(m: Shared, j: nat, q: Proc, pc: CompensatePc) {
    match pc
    case ReadSession => true
    case WriteFailed(uid) => Target(m, q, uid)
    case DeactivateUser(uid) => Target(m, q, uid) && SessionWritten(Failed) in m.log
    case DeactivateAuth(uid) =>
      Target(m, q, uid) && SessionWritten(Failed) in m.log && UserDeactivated(j, uid) in m.log
    case PublishFailed => BothIssued(m, j, q)
  }

  /** A handler takes the path its result asks for. */
  predicate Routed(q: Proc) {
    q.Handler? ==>
      match q.handler
      case DirectCompensate(_) => !q.success
      case WriteStep => true
      case HandlerDone(_) => true
      case _ => q.success
  }

  lemma StepRouted(m: Shared, i: nat, n: nat, p: Proc, c: Choice)
    requires Routed(p)
    ensures var v := Step(m, i, n, p, c); Routed(v.proc) && (v.spawned.Some? ==> Routed(v.spawned.value))
  {
    hide StepSync, StepCompensate, WroteStep, WroteSession, Logged;
  }

  predicate AllRouted(s: State) {
    forall j :: 0 <= j < |s.procs| ==> Routed(s.procs[j])
  }

  lemma {:induction false} AlwaysRouted(realtime: bool, events: seq<Event>)
    ensures AllRouted(After(Init(realtime), events))
  {
    if events != [] {
      var before, e := After(Init(realtime), events[..|events| - 1]), events[|events| - 1];
      AlwaysRouted(realtime, events[..|events| - 1]);
      hide Step;
      if e.Run? && e.i < |before.procs| { StepRouted(before.mem, e.i, |before.procs|, before.procs[e.i], e.choice); }
    }
  }

  /** A handler started after a failure that lasts heads for both deactivations and the
      publication of registration.failed. */
  predicate OnTrack(m: Shared, j: nat, q: Proc) {
    && Routed(q)
    && (q.Handler? ==>
          match q.handler
          case DirectCompensate(comp) => CompensateOnTrack(m, j, q, comp)
          case HandlerSync(Commit(snapshot)) => HasFailed(snapshot)
          case HandlerSync(Compensate(comp)) => CompensateOnTrack(m, j, q, comp)
          case ReadReady => BothIssued(m, j, q) && Announced(m, j)
          case Notify => BothIssued(m, j, q) && Announced(m, j)
          case HandlerDone(ok) => ok ==> BothIssued(m, j, q) && Announced(m, j)
          case _ => true)
  }

  lemma CompensateStaysOnTrack(m: Shared, j: nat, q: Proc, given: string, pc: CompensatePc, c: Choice)
    requires q.Handler? && CompensateOnTrack(m, j, q, pc) && Grounded(m) && Live(m)
    requires given == if q.success then "" else q.userId
    ensures var (m', next) := StepCompensate(m, j, given, pc, c);
            (next.At? ==> CompensateOnTrack(m', j, q, next.pc))
            && (next.Returned? && next.ok ==> BothIssued(m', j, q) && Announced(m', j))
  {
  }

  /** What a process said and whom it targets survives log growth. */
  lemma OnTrackLasts(m: Shared, m': Shared, j: nat, q: Proc)
    requires OnTrack(m, j, q) && Grows(m, m')
    requires m.session.Some? ==> m'.session.Some? && m'.session.value.userId == m.session.value.userId
    ensures OnTrack(m', j, q)
  {
    hide HasFailed;
    IssuedLasts(m, m', j, q);
  }

  lemma IssuedLasts(m: Shared, m': Shared, j: nat, q: Proc)
    requires Grows(m, m')
    requires m.session.Some? ==> m'.session.Some? && m'.session.value.userId == m.session.value.userId
    ensures BothIssued(m, j, q) ==> BothIssued(m', j, q)
    ensures Announced(m, j) ==> Announced(m', j)
    ensures forall e :: e in m.log ==> e in m'.log
  {
  }

  lemma HandlerStaysOnTrack(m: Shared, j: nat, q: Proc, c: Choice)
    requires q.Handler? && OnTrack(m, j, q) && Grounded(m) && Live(m) && HasFailed(m.steps)
    ensures OnTrack(StepHandler(m, j, q, c).mem, j, StepHandler(m, j, q, c).proc)
  {
    var v := StepHandler(m, j, q, c);
    hide StepCompensate, HasFailed, CompensateOnTrack, BothIssued, UpdatedStep, Grounded;
    match q.handler {
      case DirectCompensate(comp) =>
        Renamed(v.mem, j, q, v.proc);
        CompensateStaysOnTrack(m, j, q, q.userId, comp, c);
      case HandlerSync(Compensate(comp)) =>
        Renamed(v.mem, j, q, v.proc);
        CompensateStaysOnTrack(m, j, q, "", comp, c);
      case HandlerSync(Commit(snapshot)) => StartsOnTrack(v.mem, j, v.proc);
      case WriteStep => StartsOnTrack(v.mem, j, v.proc);
      case ReadReady => Renamed(v.mem, j, q, v.proc);
      case Notify =>
        Renamed(v.mem, j, q, v.proc);
        IssuedLasts(m, v.mem, j, q);
      case _ =>
    }
  }

  lemma StartsOnTrack(m: Shared, j: nat, q: Proc)
    ensures CompensateOnTrack(m, j, q, ReadSession)
  {
  }

  lemma Renamed(m: Shared, j: nat, q: Proc, q': Proc)
    requires q.Handler? && q'.Handler? && q.userId == q'.userId && q.success == q'.success
    ensures forall pc :: CompensateOnTrack(m, j, q, pc) ==> CompensateOnTrack(m, j, q', pc)
    ensures BothIssued(m, j, q) ==> BothIssued(m, j, q')
  {
  }

  // ----- The status stays failed

  /** A handler that has written its verdict to the session. */
  predicate Paid(q: Proc) {
    q.Handler? &&
    match q.handler
    case DirectCompensate(comp) => !comp.ReadSession? && !comp.WriteFailed?
    case HandlerSync(sync) => sync.Compensate?
    case ReadReady => true
    case Notify => true
    case HandlerDone(ok) => ok
    case _ => false
  }

  /** `stale` are the processes the claim is not about. */
  predicate SomePaid(procs: seq<Proc>, stale: set<nat>) {
    exists j :: 0 <= j < |procs| && j !in stale && Paid(procs[j])
  }

  predicate HoldsFailure(q: Proc) {
    Holding(q).Some? ==> HasFailed(Holding(q).value)
  }

  predicate Pinned(s: State, stale: set<nat>) {
    SomePaid(s.procs, stale) && VerifyEmailCode !in s.mem.steps ==>
      && HasStatus(s.mem, Failed)
      && forall k :: 0 <= k < |s.procs| ==> HoldsFailure(s.procs[k])
  }

  lemma FirstPayment(m: Shared, i: nat, p: Proc, c: Choice)
    requires p.Handler? && OnTrack(m, i, p) && Live(m) && Placed(m, i, p)
    requires c.Ok? && NeedsRowLock(p) ==> m.lock == None
    requires !Paid(p) && Paid(StepHandler(m, i, p, c).proc)
    ensures var v := StepHandler(m, i, p, c);
            HasStatus(v.mem, Failed) && (m.lock == None || m.lock == Some(i)) && Holding(v.proc) == None
  {
    hide UpdatedStep, AllCompleted, HasFailed;
    match p.handler {
      case DirectCompensate(comp) =>
        hide StepCompensate;
        CompensateBooked(m, i, p.userId, comp, c);
      case HandlerSync(Commit(snapshot)) => assert Aggregate(snapshot) == Failed;
      case HandlerSync(sync) =>
        hide StepSync;
        SyncBooked(m, i, sync, c);
      case _ =>
    }
  }

  lemma OldPayment(m: Shared, i: nat, p: Proc, v: Move)
    requires Booked(m, i, p, v) && HasStatus(m, Failed) && HoldsFailure(p)
    requires HasFailed(v.mem.steps) && Live(m) && Live(v.mem)
    ensures HasStatus(v.mem, Failed) && HoldsFailure(v.proc)
  {
    hide AllCompleted;
  }

  predicate Context(s: State) {
    Structured(s) && Verified(s) && Accounted(s)
  }

  lemma RunPinned(s: State, i: nat, c: Choice, stale: set<nat>)
    requires Context(s) && Pinned(s, stale) && Enabled(s, Run(i, c))
    requires i !in stale ==> OnTrack(s.mem, i, s.procs[i])
    requires HasFailed(Exec(s, Run(i, c)).mem.steps)
    ensures Pinned(Exec(s, Run(i, c)), stale)
  {
    var s', m, n, p := Exec(s, Run(i, c)), s.mem, |s.procs|, s.procs[i];
    var v := Step(m, i, n, p, c);
    if SomePaid(s'.procs, stale) && VerifyEmailCode !in s'.mem.steps {
      hide Step, StepHandler, HasFailed, OnTrack, Placed, Grounded, Booked, Owned, Tallied, Justified, Current, CalmAt,
        Aggregate, Paid, Holding, HoldsFailure, CompletionStage;
      KeysStay(s, Run(i, c));
      assert Owned(m, i, p) && CalmAt(m, p) && Placed(m, i, p);
      StepBooked(m, i, n, p, c);
      LiveLasts(m, i, n, p, c);
      FreshHoldNothing(m, i, n, p, c);
      var j :| 0 <= j < |s'.procs| && j !in stale && Paid(s'.procs[j]);
      if SomePaid(s.procs, stale) {
        FailedIsLive(m);
        OldPayment(m, i, p, v);
      } else {
        assert forall k :: 0 <= k < n && k !in stale ==> !Paid(s.procs[k]);
        assert j == i && !Paid(p);
        PaidIsHandler(m, i, n, p, c);
        FirstPayment(m, i, p, c);
        forall k | 0 <= k < n && k != i ensures HoldsFailure(s.procs[k]) {
          assert Placed(m, k, s.procs[k]);
          NoOtherHolder(m, i, k, s.procs[k]);
        }
        NoneHoldsFailure(v.proc);
      }
    }
  }

  lemma FailedIsLive(m: Shared)
    requires HasStatus(m, Failed)
    ensures Live(m)
  {
  }

  lemma NoneHoldsFailure(q: Proc)
    ensures Holding(q) == None ==> HoldsFailure(q)
  {
  }

  lemma NoOtherHolder(m: Shared, i: nat, k: nat, q: Proc)
    requires Placed(m, k, q) && k != i && (m.lock == None || m.lock == Some(i))
    ensures HoldsFailure(q)
  {
    hide HasFailed;
  }

  /** Goroutines start owing nothing, and only handlers pay. */
  lemma FreshHoldNothing(m: Shared, i: nat, n: nat, p: Proc, c: Choice)
    ensures var v := Step(m, i, n, p, c);
            v.spawned.Some? ==> !Paid(v.spawned.value) && HoldsFailure(v.spawned.value)
  {
    hide StepSync, StepCompensate, HasFailed;
  }

  lemma PaidIsHandler(m: Shared, i: nat, n: nat, p: Proc, c: Choice)
    requires Paid(Step(m, i, n, p, c).proc) && Placed(m, i, p) && Grounded(m)
    ensures p.Handler? && Step(m, i, n, p, c) == StepHandler(m, i, p, c) && Live(m)
  {
    hide StepSync, StepCompensate, HasFailed, AllCompleted, UpdatedStep;
  }

  predicate Tracked(s: State, stale: set<nat>) {
    && (forall k :: k in stale ==> k < |s.procs|)
    && Pinned(s, stale)
    && forall j :: 0 <= j < |s.procs| && j !in stale ==> OnTrack(s.mem, j, s.procs[j])
  }

  lemma RunTracked(s: State, i: nat, c: Choice, stale: set<nat>)
    requires Context(s) && Tracked(s, stale) && Enabled(s, Run(i, c))
    requires HasFailed(s.mem.steps) && HasFailed(Exec(s, Run(i, c)).mem.steps)
    ensures Tracked(Exec(s, Run(i, c)), stale)
  {
    var s', m, n, p := Exec(s, Run(i, c)), s.mem, |s.procs|, s.procs[i];
    var v := Step(m, i, n, p, c);
    RunPinned(s, i, c, stale);
    StepGrows(m, i, n, p, c);
    assert Placed(m, i, p) && Grounded(m);
    StepFine(m, i, n, p, c);
    hide StepStart, StepDispatch, StepHandler, StepVerify, StepCompletion, StepStatusCall, HasFailed, OnTrack, Placed,
      Grounded, Pinned, Verified, Accounted, Grows;
    forall j | 0 <= j < |s'.procs| && j !in stale ensures OnTrack(s'.mem, j, s'.procs[j]) {
      if j < n && j != i {
        OnTrackLasts(m, v.mem, j, s.procs[j]);
      } else if j == i && p.Handler? {
        HandlerIsLive(m, i, p);
        HandlerStaysOnTrack(m, i, p, c);
      } else {
        NonHandlerOnTrack(m, i, n, p, c, j);
      }
    }
  }

  lemma HandlerIsLive(m: Shared, i: nat, p: Proc)
    requires Placed(m, i, p) && Grounded(m) && p.Handler?
    ensures Live(m)
  {
  }

  lemma NonHandlerOnTrack(m: Shared, i: nat, n: nat, p: Proc, c: Choice, j: nat)
    ensures var v := Step(m, i, n, p, c);
            && (v.spawned.Some? ==> OnTrack(v.mem, j, v.spawned.value))
            && (!p.Handler? ==> OnTrack(v.mem, j, v.proc))
  {
    hide StepSync, StepCompensate, HasFailed;
  }

  /** A redelivered handler is no longer stale. */
  function StillStale(s: State, e: Event, stale: set<nat>): set<nat> {
    if e.Redeliver? && Enabled(s, e) then stale - {e.j} else stale
  }

  lemma ExecTracked(s: State, e: Event, stale: set<nat>)
    requires Context(s) && Tracked(s, stale)
    requires HasFailed(s.mem.steps) && HasFailed(Exec(s, e).mem.steps)
    ensures Tracked(Exec(s, e), StillStale(s, e, stale))
  {
    if Enabled(s, e) {
      if e.Run? {
        hide Step, HasFailed, Context, Tracked;
        RunTracked(s, e.i, e.choice, stale);
      } else {
        hide HasFailed, Context, Holding;
        var s', stale' := Exec(s, e), StillStale(s, e, stale);
        assert s'.mem == s.mem;
        if j :| 0 <= j < |s'.procs| && j !in stale' && Paid(s'.procs[j]) {
          assert j < |s.procs| && Paid(s.procs[j]) && j !in stale;
        }
        assert HoldsFailure(s'.procs[if e.Spawn? then |s.procs| else e.j]) by {
          NoneHoldsFailure(s'.procs[if e.Spawn? then |s.procs| else e.j]);
          NewcomersHoldNothing(s, e);
        }
      }
    }
  }

  lemma NewcomersHoldNothing(s: State, e: Event)
    requires Enabled(s, e) && !e.Run?
    ensures Holding(Exec(s, e).procs[if e.Spawn? then |s.procs| else e.j]) == None
  {
  }

  /** From `before` on, some step is failed after every event of `after`. */
  predicate FailureHolds(realtime: bool, before: seq<Event>, after: seq<Event>) {
    forall t :: 0 <= t <= |after| ==> HasFailed(After(Init(realtime), before + after[..t]).mem.steps)
  }

  lemma {:induction false} AlwaysContext(realtime: bool, events: seq<Event>)
    ensures Context(After(Init(realtime), events))
  {
    hide After;
    AlwaysStructured(realtime, events);
    AlwaysVerified(realtime, events);
    AlwaysAccounted(realtime, events);
  }

  lemma {:induction false} AppendEvent(s: State, before: seq<Event>, after: seq<Event>)
    requires after != []
    ensures After(s, before + after) == Exec(After(s, before + after[..|after| - 1]), after[|after| - 1])
  {
    hide Exec;
    var events := before + after;
    assert events[..|events| - 1] == before + after[..|after| - 1];
  }

  lemma FailureHeldBefore(realtime: bool, before: seq<Event>, init: seq<Event>, e: Event)
    requires FailureHolds(realtime, before, init + [e])
    ensures FailureHolds(realtime, before, init)
    ensures HasFailed(After(Init(realtime), before + init).mem.steps)
    ensures HasFailed(After(Init(realtime), before + (init + [e])).mem.steps)
  {
    hide After, HasFailed;
    var after := init + [e];
    assert after[..|init|] == init && after[..|after|] == after;
    forall t | 0 <= t <= |init| ensures HasFailed(After(Init(realtime), before + init[..t]).mem.steps) {
      assert init[..t] == after[..t];
    }
    assert HasFailed(After(Init(realtime), before + after[..|init|]).mem.steps);
    assert HasFailed(After(Init(realtime), before + after[..|after|]).mem.steps);
  }

  /** A handler that has not yet read the steps or the session it is going to write. */
  predicate Unread(q: Proc) {
    q.Handler? &&
    match q.handler
    case HandlerSync(sync) => sync.Lock? || sync.Snapshot?
    case DirectCompensate(comp) => comp.ReadSession?
    case HandlerDone(ok) => !ok
    case ReadReady => false
    case Notify => false
    case _ => true
  }

  /** The processes at `before` that were further on, less those redelivered since. */
  function Stale(realtime: bool, before: seq<Event>, after: seq<Event>): set<nat> {
    if after == [] then
      var procs := After(Init(realtime), before).procs;
      set j | 0 <= j < |procs| && !Unread(procs[j])
    else
      var init, e := after[..|after| - 1], after[|after| - 1];
      StillStale(After(Init(realtime), before + init), e, Stale(realtime, before, init))
  }

  lemma TrackedFrom(realtime: bool, before: seq<Event>)
    ensures Tracked(After(Init(realtime), before + []), Stale(realtime, before, []))
  {
    hide After, HasFailed;
    assert before + [] == before;
    AlwaysRouted(realtime, before);
  }

  lemma {:induction false} AlwaysTracked(realtime: bool, before: seq<Event>, after: seq<Event>)
    requires FailureHolds(realtime, before, after)
    ensures Tracked(After(Init(realtime), before + after), Stale(realtime, before, after))
  {
    if after == [] {
      TrackedFrom(realtime, before);
    } else {
      hide After, Exec, HasFailed, Tracked, Context, FailureHolds, StillStale;
      var init, e := after[..|after| - 1], after[|after| - 1];
      assert after == init + [e];
      FailureHeldBefore(realtime, before, init, e);
      AlwaysTracked(realtime, before, init);
      AlwaysContext(realtime, before + init);
      AppendEvent(Init(realtime), before, after);
      ExecTracked(After(Init(realtime), before + init), e, Stale(realtime, before, init));
    }
  }

  /** Sticky failure with compensation.  Once a failed step is in the table and from
      then on the table is never without one, every handler that finishes without a
      repository error, unless it had read the steps before, has had the user and its
      auth record deactivated, however those calls end, has published registration.failed
      unless that call failed, and before verification starts the session is left failed.
      Results first delivered before the failure count as soon as they are redelivered. */
  lemma {:induction false} FailureSticks(realtime: bool, before: seq<Event>, after: seq<Event>, j: nat)
    requires FailureHolds(realtime, before, after)
    requires var s := After(Init(realtime), before + after);
             && j < |s.procs| && j !in Stale(realtime, before, after)
             && s.procs[j].Handler? && s.procs[j].handler == HandlerDone(true)
    ensures var s := After(Init(realtime), before + after);
            && s.mem.session.Some?
            && var uid := UndoneUser(s.mem, s.procs[j]);
            && uid != "" && UserDeactivated(j, uid) in s.mem.log && AuthDeactivated(j, uid) in s.mem.log
            && (FailedEvent(j, true) in s.mem.log || FailedEvent(j, false) in s.mem.log)
            && (VerifyEmailCode !in s.mem.steps ==> HasStatus(s.mem, Failed))
  {
    hide After, FailureHolds, Stale;
    AlwaysTracked(realtime, before, after);
    var s := After(Init(realtime), before + after);
    assert OnTrack(s.mem, j, s.procs[j]) && Paid(s.procs[j]);
  }
}
