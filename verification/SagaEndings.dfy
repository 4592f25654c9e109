/** What calls, handlers and goroutines that have ended leave behind, in every run: whom
    they answered, whom they deactivated, what they published. */
module SagaEndings {
  import opened Domain
  import opened Saga
  import opened SagaStructure
  import opened SagaVerification
  import opened SagaStarts
  import opened SagaCompensation
  import opened SagaSticky

  // ----- Notes of publications and of handed out tokens

  /** The next step of the process publishes registration.failed. */
  predicate Publishing(p: Proc) {
    match p
    case Handler(_, _, _, DirectCompensate(comp)) => comp.PublishFailed?
    case Handler(_, _, _, HandlerSync(Compensate(comp))) => comp.PublishFailed?
    case VerifyCall(_, VerifySync(Compensate(comp))) => comp.PublishFailed?
    case Completion(pc) => pc.PublishVerificationFailed?
    case _ => false
  }

  /** A GetRegistrationStatus that has answered `completed`. */
  predicate HandedOut(p: Proc) {
    p.StatusCall? && p.status == StatusDone(Some(Completed))
  }

  predicate Watched(e: Effect) { e.FailedEvent? || e.TokenReturned? }

  /** The one watched effect of a step, if it has one. */
  ghost predicate Notes(m: Shared, m': Shared, note: Option<Effect>) {
    forall e: Effect {:trigger Watched(e)} ::
      Watched(e) ==> Count(m', e) == Count(m, e) + (if note == Some(e) then 1 else 0)
  }

  function NoteOf(i: nat, p: Proc, c: Choice, p': Proc): Option<Effect> {
    if Publishing(p) then Some(FailedEvent(i, c.Ok?))
    else if HandedOut(p') && !HandedOut(p) then Some(TokenReturned)
    else None
  }

  lemma WritesNoted(m: Shared)
    ensures forall m': Shared {:trigger Notes(m, m', None)} :: m'.log == m.log ==> Notes(m, m', None)
    ensures forall k, st :: Notes(m, WroteStep(m, k, st), None)
    ensures forall st :: Notes(m, WroteSession(m, st), None)
    ensures forall e: Effect :: Notes(m, Logged(m, e), if Watched(e) then Some(e) else None)
  {
  }

  lemma CompensateNotes(m: Shared, i: nat, given: string, pc: CompensatePc, c: Choice)
    ensures Notes(m, StepCompensate(m, i, given, pc, c).0,
            if pc.PublishFailed? then Some(FailedEvent(i, c.Ok?)) else None)
  {
    hide Notes, WroteSession, Logged;
    WritesNoted(m);
  }

  lemma SyncNotes(m: Shared, i: nat, pc: SyncPc, c: Choice)
    ensures Notes(m, StepSync(m, i, pc, c).0,
            if pc.Compensate? && pc.comp.PublishFailed? then Some(FailedEvent(i, c.Ok?)) else None)
  {
    hide Notes, StepCompensate, Aggregate;
    WritesNoted(m);
    match pc {
      case Compensate(comp) => CompensateNotes(m, i, "", comp, c);
      case Commit(snapshot) => CommitNotes(m, Aggregate(snapshot));
      case _ =>
    }
  }

  lemma CommitNotes(m: Shared, status: SessionStatus)
    ensures Notes(m, WroteSession(m.(lock := None), status), None)
  {
  }

  lemma HandlerNotes(m: Shared, i: nat, p: Proc, c: Choice)
    requires p.Handler?
    ensures var v := StepHandler(m, i, p, c); Notes(m, v.mem, NoteOf(i, p, c, v.proc))
  {
    hide Notes, StepSync, StepCompensate, WroteStep, Logged;
    WritesNoted(m);
    match p.handler {
      case DirectCompensate(comp) => CompensateNotes(m, i, p.userId, comp, c);
      case HandlerSync(sync) => SyncNotes(m, i, sync, c);
      case Notify => NotifyNoted(m);
      case _ =>
    }
  }

  lemma NotifyNoted(m: Shared)
    ensures Notes(m, Logged(m.(notified := true), CodeSentNotified), None)
  {
  }

  lemma VerifyNotes(m: Shared, i: nat, n: nat, p: Proc, c: Choice)
    requires p.VerifyCall?
    ensures var v := StepVerify(m, i, n, p, c); Notes(m, v.mem, NoteOf(i, p, c, v.proc))
  {
    hide Notes, StepSync, WroteSession;
    WritesNoted(m);
    match p.verify {
      case VerifySync(sync) => SyncNotes(m, i, sync, c);
      case InsertVerify => InsertNoted(m, i);
      case Launch => LaunchNoted(m, n);
      case _ =>
    }
  }

  lemma InsertNoted(m: Shared, i: nat)
    ensures Notes(m,
            Logged(m.(steps := m.steps[VerifyEmailCode := StepInProgress], verifier := Some(i)), VerifyInserted), None)
  {
  }

  lemma LaunchNoted(m: Shared, n: nat)
    ensures Notes(m, Logged(m.(verifier := Some(n)), Launched), None)
  {
  }

  lemma CompletionNotes(m: Shared, i: nat, p: Proc, c: Choice)
    requires p.Completion?
    ensures var v := StepCompletion(m, i, p, c); Notes(m, v.mem, NoteOf(i, p, c, v.proc))
  {
    hide Notes, WroteStep, WroteSession, Logged, SessionUser;
    WritesNoted(m);
    ActivationNoted(m);
  }

  lemma ActivationNoted(m: Shared)
    ensures Notes(m, Logged(Logged(m, ActivateCalled), ActivateSucceeded), None)
  {
  }

  lemma OtherNotes(m: Shared, i: nat, n: nat, p: Proc, c: Choice)
    requires !p.Handler? && !p.VerifyCall? && !p.Completion?
    ensures var v := Step(m, i, n, p, c); Notes(m, v.mem, NoteOf(i, p, c, v.proc))
  {
    hide Notes, WroteStep, WroteSession, Logged;
    WritesNoted(m);
    ClaimNoted(m);
  }

  lemma ClaimNoted(m: Shared)
    ensures Notes(m, Logged(WroteSession(m, TokensClaimed), TokenReturned), Some(TokenReturned))
  {
    ClaimAdds(m);
  }

  lemma ClaimAdds(m: Shared)
    ensures forall e :: Count(Logged(WroteSession(m, TokensClaimed), TokenReturned), e)
                        == Count(m, e) + (if e == SessionWritten(TokensClaimed) || e == TokenReturned then 1 else 0)
  {
    forall e { ClaimCount(m, e); }
  }

  lemma StepNoted(m: Shared, i: nat, n: nat, p: Proc, c: Choice)
    ensures var v := Step(m, i, n, p, c); Notes(m, v.mem, NoteOf(i, p, c, v.proc))
  {
    hide Notes, NoteOf, StepHandler, StepVerify, StepCompletion, StepStart, StepDispatch, StepStatusCall;
    match p {
      case Handler(_, _, _, _) => HandlerNotes(m, i, p, c);
      case VerifyCall(_, _) => VerifyNotes(m, i, n, p, c);
      case Completion(_) => CompletionNotes(m, i, p, c);
      case _ => OtherNotes(m, i, n, p, c);
    }
  }

  /** The event is process `j`'s attempt to publish registration.failed, and `sent` its outcome. */
  predicate Announces(s: State, e: Event, j: nat, sent: bool) {
    e.Run? && e.i == j && j < |s.procs| && Publishing(s.procs[j]) && e.choice.Ok? == sent
  }

  lemma ExecNotes(s: State, e: Event, j: nat, sent: bool)
    ensures Count(Exec(s, e).mem, FailedEvent(j, sent))
            == Count(s.mem, FailedEvent(j, sent)) + (if Announces(s, e, j, sent) then 1 else 0)
  {
    hide Step, Publishing, Count;
    if e.Run? && e.i < |s.procs| {
      var m, p, n := s.mem, s.procs[e.i], |s.procs|;
      StepNoted(m, e.i, n, p, e.choice);
      assert Watched(FailedEvent(j, sent));
      PublishingUnblocked(p);
    }
  }

  lemma PublishingUnblocked(p: Proc)
    ensures Publishing(p) ==> !NeedsRowLock(p)
  {
  }

  lemma NothingYet(realtime: bool)
    ensures After(Init(realtime), []) == Init(realtime)
  {
  }

  /** How often process `j` has called the broker with registration.failed, with this outcome. */
  ghost function Announcements(realtime: bool, events: seq<Event>, j: nat, sent: bool): nat {
    if events == [] then 0
    else
      var init := events[..|events| - 1];
      Announcements(realtime, init, j, sent)
      + if Announces(After(Init(realtime), init), events[|events| - 1], j, sent) then 1 else 0
  }

  /** The log holds exactly the publications of registration.failed that were attempted,
      each with its outcome. */
  lemma {:induction false} AnnouncementsNoted(realtime: bool, events: seq<Event>, j: nat, sent: bool)
    ensures Count(After(Init(realtime), events).mem, FailedEvent(j, sent)) == Announcements(realtime, events, j, sent)
  {
    hide Exec, Announces;
    if events != [] {
      var init, e := events[..|events| - 1], events[|events| - 1];
      AnnouncementsNoted(realtime, init, j, sent);
      ExecNotes(After(Init(realtime), init), e, j, sent);
    }
  }

  // ----- Tokens go to one call each

  function Holders(procs: seq<Proc>): set<nat> {
    set j | 0 <= j < |procs| && HandedOut(procs[j])
  }

  /** A call that has handed out tokens has ended. */
  lemma HandedOutStays(m: Shared, i: nat, n: nat, p: Proc, c: Choice)
    ensures var v := Step(m, i, n, p, c);
            && (HandedOut(p) ==> HandedOut(v.proc))
            && (v.spawned.Some? ==> !HandedOut(v.spawned.value))
            && (Publishing(p) ==> !HandedOut(v.proc))
  {
    hide StepSync, StepCompensate, WroteStep, WroteSession, Logged;
  }

  lemma ExecHolders(s: State, e: Event)
    requires |Holders(s.procs)| == Count(s.mem, TokenReturned)
    ensures |Holders(Exec(s, e).procs)| == Count(Exec(s, e).mem, TokenReturned)
  {
    hide Step, Publishing, Count, NeedsRowLock;
    var s' := Exec(s, e);
    if e.Run? && Enabled(s, e) {
      var m, p, n := s.mem, s.procs[e.i], |s.procs|;
      StepNoted(m, e.i, n, p, e.choice);
      assert Watched(TokenReturned);
      HandedOutStays(m, e.i, n, p, e.choice);
      var i := e.i;
      if HandedOut(s'.procs[i]) && !HandedOut(p) {
        assert Holders(s'.procs) == Holders(s.procs) + {i};
      } else {
        assert Holders(s'.procs) == Holders(s.procs);
      }
    } else {
      assert Holders(s'.procs) == Holders(s.procs);
    }
  }

  /** Every handing out of tokens is the answer of one call, and every answer of
      `completed` handed them out. */
  lemma {:induction false} TokensAnswered(realtime: bool, events: seq<Event>)
    ensures var s := After(Init(realtime), events); |Holders(s.procs)| == Count(s.mem, TokenReturned)
  {
    hide Exec, Count;
    if events == [] {
      NothingYet(realtime);
      assert Holders([]) == {};
      NoneReturned(realtime);
    } else {
      TokensAnswered(realtime, events[..|events| - 1]);
      ExecHolders(After(Init(realtime), events[..|events| - 1]), events[|events| - 1]);
    }
  }

  lemma NoneReturned(realtime: bool)
    ensures Count(Init(realtime).mem, TokenReturned) == 0
  {
  }

  // ----- What has ended has done its work

  predicate IsClient(m: Shared, clientId: string) {
    m.session.Some? && m.session.value.clientId == clientId
  }

  /** Process `j` has had the session's user deactivated. */
  predicate UserUndone(m: Shared, j: nat) {
    m.session.Some? && UserDeactivated(j, m.session.value.userId) in m.log
  }

  predicate AuthUndone(m: Shared, j: nat) {
    m.session.Some? && AuthDeactivated(j, m.session.value.userId) in m.log
  }

  /** What process `j` has left in the log and the flags so far. */
  predicate Done(m: Shared, j: nat, q: Proc) {
    match q
    case StartCall(_, _) => true
    case Dispatch(pc) => DispatchHasDone(m, pc)
    case Handler(_, _, _, pc) => Routed(q) && HandlerHasDone(m, j, q)
    case VerifyCall(clientId, pc) => VerifyHasDone(m, clientId, pc)
    case Completion(pc) => CompletionHasDone(m, j, pc)
    case StatusCall(clientId, pc) =>
      && (pc.Claim? || (pc.StatusDone? && pc.answer.Some?) ==> IsClient(m, clientId))
      && (pc == StatusDone(Some(Completed)) ==> SessionWritten(TokensClaimed) in m.log)
  }

  predicate VerifyHasDone(m: Shared, clientId: string, pc: VerifyPc) {
    match pc
    case ReadForVerify => true
    case Launch => IsClient(m, clientId) && SessionWritten(VerifyingEmail) in m.log
    case VerifyDone(answer) =>
      && (answer.Some? ==> IsClient(m, clientId) && (answer.value == Completed || answer.value == VerifyingEmail))
      && (answer == Some(VerifyingEmail) ==> SessionWritten(VerifyingEmail) in m.log && Launched in m.log)
    case _ => IsClient(m, clientId)
  }

  predicate DispatchHasDone(m: Shared, pc: DispatchPc) {
    && (!pc.MarkSession? && !pc.DispatchDone? ==> SessionWritten(InProgress) in m.log)
    && (pc.SendAuth? ==> m.userSent)
    && match pc
       case FailStep(lost) => SentUpTo(m, lost)
       case FailSession(lost, _) => SentUpTo(m, lost)
       case DispatchDone(ok, unsent) =>
         && (ok || unsent.Some? ==> SessionWritten(InProgress) in m.log)
         && (ok && unsent.None? ==> m.userSent && m.authSent)
         && (unsent.Some? ==> SentUpTo(m, unsent.value))
         && (ok && unsent.Some? ==> SessionWritten(Failed) in m.log)
       case _ => true
  }

  /** The commands up to this one have been attempted. */
  predicate SentUpTo(m: Shared, command: Result) {
    m.userSent && (command == UserResult || (command == AuthResult && m.authSent))
  }

  predicate HandlerHasDone(m: Shared, j: nat, q: Proc)
    requires q.Handler?
  {
    match q.handler
    case DirectCompensate(comp) => CompensateOnTrack(m, j, q, comp)
    case HandlerSync(Compensate(comp)) => CompensateOnTrack(m, j, q, comp)
    case HandlerDone(ok) => ok && !q.success ==> BothIssued(m, j, q) && Announced(m, j)
    case _ => true
  }

  predicate CompletionHasDone(m: Shared, j: nat, pc: CompletionPc) {
    match pc
    case MarkVerified => CodeVerified in m.log
    case SetActivating => CodeVerified in m.log
    case MarkActivating => CodeVerified in m.log && SessionWritten(ActivatingUser) in m.log
    case CallActivate => CodeVerified in m.log && SessionWritten(ActivatingUser) in m.log
    case MarkActivated => Activated(m)
    case SetCompleted => Activated(m)
    case PublishCompleted => Activated(m) && SessionWritten(Completed) in m.log
    case UndoAuth => UserUndone(m, j)
    case PublishVerificationFailed => UserUndone(m, j) && AuthUndone(m, j)
    case CompletionDone(ok) =>
      if ok then Activated(m) && SessionWritten(Completed) in m.log
      else UserUndone(m, j) && AuthUndone(m, j) && Announced(m, j)
    case _ => true
  }

  predicate Activated(m: Shared) {
    CodeVerified in m.log && SessionWritten(ActivatingUser) in m.log && ActivateSucceeded in m.log
  }

  /** Nothing noted is lost. */
  predicate Remembers(m: Shared, m': Shared) {
    && Grows(m, m')
    && (m.session.Some? ==> m'.session.Some? && SameIdentity(m.session.value, m'.session.value))
    && (m.userSent ==> m'.userSent) && (m.authSent ==> m'.authSent)
  }

  lemma DoneLasts(m: Shared, m': Shared, j: nat, q: Proc)
    requires Done(m, j, q) && Remembers(m, m')
    ensures Done(m', j, q)
  {
    hide Grows, Routed;
    StillLogged(m, m');
  }

  lemma StillLogged(m: Shared, m': Shared)
    requires Grows(m, m')
    ensures forall e :: e in m.log ==> e in m'.log
  {
  }

  lemma StepRemembers(m: Shared, i: nat, n: nat, p: Proc, c: Choice)
    ensures Remembers(m, Step(m, i, n, p, c).mem)
  {
    StepGrows(m, i, n, p, c);
    if m.session.Some? { StatementsKeepIdentity("", m, i, n, p, c); }
    SentStays(m, i, n, p, c);
  }

  lemma SentStays(m: Shared, i: nat, n: nat, p: Proc, c: Choice)
    ensures var m' := Step(m, i, n, p, c).mem; (m.userSent ==> m'.userSent) && (m.authSent ==> m'.authSent)
  {
    hide StepStart, StepHandler, StepVerify, StepCompletion, StepStatusCall, WroteStep, WroteSession;
    if p.Dispatch? { DispatchFlags(m, p, c); } else { OthersKeepCommands(m, i, n, p, c); }
  }

  lemma DispatchFlags(m: Shared, p: Proc, c: Choice)
    requires p.Dispatch?
    ensures var m' := StepDispatch(m, p, c).mem; (m.userSent ==> m'.userSent) && (m.authSent ==> m'.authSent)
  {
    hide UpdatedSession, UpdatedStep;
  }

  lemma DispatchDoes(m: Shared, i: nat, p: Proc, c: Choice)
    requires p.Dispatch? && Done(m, i, p)
    ensures var v := StepDispatch(m, p, c); Done(v.mem, i, v.proc) && v.proc.Dispatch?
  {
    hide UpdatedSession, UpdatedStep;
  }

  lemma HandlerDoes(m: Shared, i: nat, p: Proc, c: Choice)
    requires p.Handler? && Done(m, i, p) && Grounded(m) && Live(m)
    ensures var v := StepHandler(m, i, p, c); Done(v.mem, i, v.proc)
  {
    hide StepCompensate, CompensateOnTrack, BothIssued, Announced, UpdatedStep, Grounded, WroteSession;
    var v := StepHandler(m, i, p, c);
    StartsOnTrack(v.mem, i, v.proc);
    match p.handler {
      case DirectCompensate(comp) =>
        Renamed(v.mem, i, p, v.proc);
        CompensateStaysOnTrack(m, i, p, p.userId, comp, c);
        var next := StepCompensate(m, i, p.userId, comp, c).1;
        if next.At? { assert CompensateOnTrack(v.mem, i, v.proc, next.pc); }
      case HandlerSync(Compensate(comp)) =>
        Renamed(v.mem, i, p, v.proc);
        CompensateStaysOnTrack(m, i, p, "", comp, c);
      case _ =>
    }
  }

  lemma VerifyDoes(m: Shared, i: nat, n: nat, p: Proc, c: Choice)
    requires p.VerifyCall? && Done(m, i, p)
    ensures var v := StepVerify(m, i, n, p, c);
            Done(v.mem, i, v.proc) && (v.spawned.Some? ==> Done(v.mem, n, v.spawned.value))
  {
    StepRemembers(m, i, n, p, c);
    hide StepSync, UpdatedSession, Grows;
  }

  lemma VerificationDoes(m: Shared, i: nat, p: Proc, c: Choice)
    requires p.Completion? && Done(m, i, p)
    requires p.completion.CallVerify? || p.completion.MarkVerified? || p.completion.SetActivating?
             || p.completion.MarkActivating?
    ensures var v := StepCompletion(m, i, p, c); Done(v.mem, i, v.proc)
  {
    hide UpdatedStep, UpdatedSession;
  }

  lemma ActivationDoes(m: Shared, i: nat, p: Proc, c: Choice)
    requires p.Completion? && Done(m, i, p)
    requires p.completion.CallActivate? || p.completion.MarkActivated? || p.completion.SetCompleted?
             || p.completion.PublishCompleted?
    ensures var v := StepCompletion(m, i, p, c); Done(v.mem, i, v.proc)
  {
    hide UpdatedStep, UpdatedSession;
  }

  lemma UndoingDoes(m: Shared, i: nat, p: Proc, c: Choice)
    requires p.Completion? && Done(m, i, p) && Live(m)
    requires p.completion.FailVerification? || p.completion.FailVerificationSession? || p.completion.UndoUser?
             || p.completion.UndoAuth? || p.completion.PublishVerificationFailed? || p.completion.CompletionDone?
    ensures var v := StepCompletion(m, i, p, c); Done(v.mem, i, v.proc)
  {
    hide UpdatedStep, UpdatedSession;
  }

  lemma CompletionDoes(m: Shared, i: nat, p: Proc, c: Choice)
    requires p.Completion? && Done(m, i, p) && Live(m)
    ensures var v := StepCompletion(m, i, p, c); Done(v.mem, i, v.proc) && v.spawned.None?
  {
    hide StepCompletion, Done;
    CompletionKeepsCommands(m, i, p, c);
    match p.completion {
      case CallVerify => VerificationDoes(m, i, p, c);
      case MarkVerified => VerificationDoes(m, i, p, c);
      case SetActivating => VerificationDoes(m, i, p, c);
      case MarkActivating => VerificationDoes(m, i, p, c);
      case CallActivate => ActivationDoes(m, i, p, c);
      case MarkActivated => ActivationDoes(m, i, p, c);
      case SetCompleted => ActivationDoes(m, i, p, c);
      case PublishCompleted => ActivationDoes(m, i, p, c);
      case _ => UndoingDoes(m, i, p, c);
    }
  }

  lemma StatusDoes(m: Shared, i: nat, p: Proc, c: Choice)
    requires p.StatusCall? && Done(m, i, p)
    ensures var v := StepStatusCall(m, p, c); Done(v.mem, i, v.proc)
  {
  }

  lemma StepDoes(m: Shared, i: nat, n: nat, p: Proc, c: Choice)
    requires Done(m, i, p) && Grounded(m) && Placed(m, i, p)
    ensures var v := Step(m, i, n, p, c);
            Done(v.mem, i, v.proc) && (v.spawned.Some? ==> Done(v.mem, n, v.spawned.value))
  {
    hide StepHandler, StepVerify, StepCompletion, StepStatusCall, StepStart, StepDispatch, Done, Grounded;
    match p {
      case StartCall(_, _) => StartDoes(m, i, n, p, c);
      case Dispatch(_) => DispatchDoes(m, i, p, c); DispatchSpawnsNothing(m, p, c);
      case Handler(_, _, _, _) => HandlerIsLive(m, i, p); HandlerDoes(m, i, p, c); HandlerKeepsCommands(m, i, p, c);
      case VerifyCall(_, _) => VerifyDoes(m, i, n, p, c);
      case Completion(_) => CompletionDoes(m, i, p, c);
      case StatusCall(_, _) => StatusDoes(m, i, p, c); StatusSpawnsNothing(m, p, c);
    }
  }

  lemma StartDoes(m: Shared, i: nat, n: nat, p: Proc, c: Choice)
    requires p.StartCall?
    ensures var v := StepStart(m, i, n, p, c);
            Done(v.mem, i, v.proc) && (v.spawned.Some? ==> Done(v.mem, n, v.spawned.value))
  {
  }

  lemma DispatchSpawnsNothing(m: Shared, p: Proc, c: Choice)
    requires p.Dispatch?
    ensures StepDispatch(m, p, c).spawned.None?
  {
  }

  lemma StatusSpawnsNothing(m: Shared, p: Proc, c: Choice)
    requires p.StatusCall?
    ensures StepStatusCall(m, p, c).spawned.None?
  {
  }

  predicate AllDone(s: State) {
    forall j :: 0 <= j < |s.procs| ==> Done(s.mem, j, s.procs[j])
  }

  lemma RunDone(s: State, i: nat, c: Choice)
    requires Structured(s) && AllDone(s) && Enabled(s, Run(i, c))
    ensures AllDone(Exec(s, Run(i, c)))
  {
    hide Step, Done, Placed, Grounded, Remembers, NeedsRowLock;
    var m, p, n := s.mem, s.procs[i], |s.procs|;
    var v, s' := Step(m, i, n, p, c), Exec(s, Run(i, c));
    assert Placed(m, i, p);
    StepDoes(m, i, n, p, c);
    StepRemembers(m, i, n, p, c);
    forall j | 0 <= j < |s'.procs| ensures Done(s'.mem, j, s'.procs[j]) {
      if j != i && j < n { DoneLasts(m, v.mem, j, s.procs[j]); }
    }
  }

  lemma ExecDone(s: State, e: Event)
    requires Structured(s) && AllDone(s)
    ensures AllDone(Exec(s, e))
  {
    match e {
      case Spawn(p) =>
      case Run(i, c) => hide Step, AllDone; if Enabled(s, e) { RunDone(s, i, c); }
      case Redeliver(j) =>
    }
  }

  lemma {:induction false} AlwaysDone(realtime: bool, events: seq<Event>)
    ensures AllDone(After(Init(realtime), events))
  {
    if events != [] {
      hide AllDone, Structured, Exec;
      AlwaysStructured(realtime, events[..|events| - 1]);
      AlwaysDone(realtime, events[..|events| - 1]);
      ExecDone(After(Init(realtime), events[..|events| - 1]), events[|events| - 1]);
    }
  }

  // ----- The endings, one theorem per kind of process

  /** A verification that failed, at whatever exit, has had the session's user and its
      auth record deactivated and has called the broker with registration.failed. */
  lemma {:induction false} FailedCompletionUndoes(realtime: bool, events: seq<Event>, j: nat)
    requires var s := After(Init(realtime), events);
             j < |s.procs| && s.procs[j] == Completion(CompletionDone(false))
    ensures var m := After(Init(realtime), events).mem;
            && m.session.Some?
            && UserDeactivated(j, m.session.value.userId) in m.log
            && AuthDeactivated(j, m.session.value.userId) in m.log
            && (FailedEvent(j, true) in m.log || FailedEvent(j, false) in m.log)
  {
    hide After;
    AlwaysDone(realtime, events);
    assert Done(After(Init(realtime), events).mem, j, Completion(CompletionDone(false)));
  }

  /** One that succeeded has had the code accepted and the user activated, and has
      written both statuses. */
  lemma {:induction false} CompletionCompletes(realtime: bool, events: seq<Event>, j: nat)
    requires var s := After(Init(realtime), events);
             j < |s.procs| && s.procs[j] == Completion(CompletionDone(true))
    ensures var log := After(Init(realtime), events).mem.log;
            && CodeVerified in log && SessionWritten(ActivatingUser) in log
            && ActivateSucceeded in log && SessionWritten(Completed) in log
  {
    hide After;
    AlwaysDone(realtime, events);
    assert Done(After(Init(realtime), events).mem, j, Completion(CompletionDone(true)));
  }

  /** The handler of a failed result that ended without a repository error has marked the
      session failed, had the user the result names (or else the session's) and its auth
      record deactivated, and called the broker with registration.failed. */
  lemma {:induction false} FailedResultCompensates(realtime: bool, events: seq<Event>, j: nat, result: Result,
    userId: string)
    requires var s := After(Init(realtime), events);
             j < |s.procs| && s.procs[j] == Handler(result, false, userId, HandlerDone(true))
    ensures var m := After(Init(realtime), events).mem;
            && m.session.Some?
            && SessionWritten(Failed) in m.log
            && var uid := if userId == "" then m.session.value.userId else userId;
            && UserDeactivated(j, uid) in m.log && AuthDeactivated(j, uid) in m.log
            && (FailedEvent(j, true) in m.log || FailedEvent(j, false) in m.log)
  {
    hide After;
    AlwaysDone(realtime, events);
    assert Done(After(Init(realtime), events).mem, j, Handler(result, false, userId, HandlerDone(true)));
  }

  /** A dispatch that ended without error has marked the session and sent both commands;
      one whose command could not be sent has sent none after it. */
  lemma {:induction false} DispatchedCommands(realtime: bool, events: seq<Event>, j: nat, ok: bool,
    unsent: Option<Result>)
    requires var s := After(Init(realtime), events);
             j < |s.procs| && s.procs[j] == Dispatch(DispatchDone(ok, unsent)) && (ok || unsent.Some?)
    ensures var m := After(Init(realtime), events).mem;
            && SessionWritten(InProgress) in m.log && m.userSent
            && (unsent != Some(UserResult) ==> m.authSent)
            && (ok && unsent.Some? ==> SessionWritten(Failed) in m.log)
  {
    hide After;
    AlwaysDone(realtime, events);
    assert Done(After(Init(realtime), events).mem, j, Dispatch(DispatchDone(ok, unsent)));
  }

  /** Only the session's client is told its status or verifies its email. */
  lemma {:induction false} OnlyTheClient(realtime: bool, events: seq<Event>, j: nat, clientId: string,
    answer: SessionStatus)
    requires var s := After(Init(realtime), events);
             && j < |s.procs|
             && (s.procs[j] == StatusCall(clientId, StatusDone(Some(answer)))
                 || s.procs[j] == VerifyCall(clientId, VerifyDone(Some(answer))))
    ensures var m := After(Init(realtime), events).mem;
            m.session.Some? && m.session.value.clientId == clientId
  {
    hide After;
    AlwaysDone(realtime, events);
    var s := After(Init(realtime), events);
    assert Done(s.mem, j, s.procs[j]);
  }

  /** Nobody else gets past the first read of a VerifyEmail. */
  lemma {:induction false} OnlyTheClientVerifies(realtime: bool, events: seq<Event>, j: nat)
    requires var s := After(Init(realtime), events);
             && j < |s.procs| && s.procs[j].VerifyCall?
             && !s.procs[j].verify.ReadForVerify? && !s.procs[j].verify.VerifyDone?
    ensures var s := After(Init(realtime), events);
            s.mem.session.Some? && s.mem.session.value.clientId == s.procs[j].clientId
  {
    hide After;
    AlwaysDone(realtime, events);
    var s := After(Init(realtime), events);
    assert Done(s.mem, j, s.procs[j]);
  }

  /** Every handing out of tokens is the `completed` answered to one call, and each such
      call was the session's client's. */
  lemma {:induction false} TokensGoToTheClient(realtime: bool, events: seq<Event>)
    ensures var s := After(Init(realtime), events);
            && |Holders(s.procs)| == Count(s.mem, TokenReturned)
            && forall j :: j in Holders(s.procs) ==>
                 s.mem.session.Some? && s.procs[j].clientId == s.mem.session.value.clientId
  {
    hide After, Count;
    TokensAnswered(realtime, events);
    var s := After(Init(realtime), events);
    forall j | j in Holders(s.procs)
      ensures s.mem.session.Some? && s.procs[j].clientId == s.mem.session.value.clientId
    {
      OnlyTheClient(realtime, events, j, s.procs[j].clientId, Completed);
    }
  }

  // ----- Answers were stored

  /** At some point of the run this was the session's status. */
  ghost predicate WasStored(realtime: bool, events: seq<Event>, status: SessionStatus) {
    exists t :: 0 <= t <= |events| && HasStatus(After(Init(realtime), events[..t]).mem, status)
  }

  /** What the process has read of the session was stored. */
  ghost predicate HasRead(realtime: bool, events: seq<Event>, q: Proc) {
    && (q.StatusCall? && q.status.Claim? ==> WasStored(realtime, events, Completed))
    && (q.StatusCall? && q.status.StatusDone? && q.status.answer.Some? ==>
          || WasStored(realtime, events, q.status.answer.value)
          || (q.status.answer.value == TokensClaimed && WasStored(realtime, events, Completed)))
    && (q.VerifyCall? && q.verify == VerifyDone(Some(Completed)) ==> WasStored(realtime, events, Completed))
  }

  lemma {:induction false} StoredBefore(realtime: bool, events: seq<Event>, e: Event, status: SessionStatus)
    ensures WasStored(realtime, events, status) ==> WasStored(realtime, events + [e], status)
    ensures HasStatus(After(Init(realtime), events).mem, status) ==> WasStored(realtime, events + [e], status)
  {
    hide After, HasStatus;
    assert forall t :: 0 <= t <= |events| ==> (events + [e])[..t] == events[..t];
    assert events[..|events|] == events;
    if HasStatus(After(Init(realtime), events).mem, status) {
      assert HasStatus(After(Init(realtime), (events + [e])[..|events|]).mem, status);
    }
    if WasStored(realtime, events, status) {
      var t :| 0 <= t <= |events| && HasStatus(After(Init(realtime), events[..t]).mem, status);
      assert HasStatus(After(Init(realtime), (events + [e])[..t]).mem, status);
    }
  }

  /** A step that comes to an answer reads it from the row, or has read it before. */
  lemma StepReads(m: Shared, i: nat, n: nat, p: Proc, c: Choice)
    ensures var v := Step(m, i, n, p, c);
            && (v.proc.StatusCall? && v.proc.status.Claim? ==> v.proc == p || HasStatus(m, Completed))
            && (v.proc.StatusCall? && v.proc.status.StatusDone? && v.proc.status.answer.Some? ==>
                  || v.proc == p || HasStatus(m, v.proc.status.answer.value)
                  || (v.proc.status.answer.value == TokensClaimed && p.StatusCall? && p.status.Claim?))
            && (v.proc.VerifyCall? && v.proc.verify == VerifyDone(Some(Completed)) ==>
                  v.proc == p || HasStatus(m, Completed))
            && (v.spawned.Some? ==> !v.spawned.value.StatusCall? && !v.spawned.value.VerifyCall?)
  {
    hide StepSync, StepCompensate, WroteStep, WroteSession, Logged;
  }

  /** Every answered status was stored at some time: `tokens_claimed` also stands for a
      `completed` that was read but could not be claimed any more. */
  lemma {:induction false} AnswersWereStored(realtime: bool, events: seq<Event>, j: nat)
    requires j < |After(Init(realtime), events).procs|
    ensures HasRead(realtime, events, After(Init(realtime), events).procs[j])
  {
    if events != [] {
      hide After, Step, WasStored, HasStatus;
      var init, e := events[..|events| - 1], events[|events| - 1];
      assert events == init + [e];
      AfterLast(Init(realtime), init, e);
      var s := After(Init(realtime), init);
      forall status { StoredBefore(realtime, init, e, status); }
      if j < |s.procs| { AnswersWereStored(realtime, init, j); }
      if e.Run? && e.i < |s.procs| { StepReads(s.mem, e.i, |s.procs|, s.procs[e.i], e.choice); }
    }
  }
}
