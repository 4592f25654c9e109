/** When a session can still hand out its tokens, and that it does when nothing fails. */
module SagaClaims {
  import opened Domain
  import opened Saga
  import opened SagaStructure
  import opened SagaVerification
  import opened SagaGate
  import opened SagaQuiescence
  import opened SagaSolo
  import opened SagaAbandoned

  // ----- A VerifyEmail without failures gets through exactly once

  lemma VerifyRefused(m: Shared, i: nat, n: nat)
    requires HasStatus(m, CodeSent) && VerifyEmailCode in m.steps
    ensures var call := VerifyCall(m.session.value.clientId, ReadForVerify);
            RunSolo(i, n, Solo(m, call, [])) == Solo(m, call.(verify := VerifyDone(None)), [])
  {
    hide RunSolo, Left;
    var call := VerifyCall(m.session.value.clientId, ReadForVerify);
    SoloNext(i, n, Solo(m, call, []));
    SoloNext(i, n, Solo(m, call.(verify := InsertVerify), []));
    SoloEnd(i, n, Solo(m, call.(verify := VerifyDone(None)), []));
  }

  lemma SoloEnd(i: nat, n: nat, r: Solo)
    requires Finished(r.proc)
    ensures RunSolo(i, n, r) == r && Spawning(i, n, r) == None
  {
  }

  /** After the INSERT of the verify step. */
  function VerifyRow(m: Shared, i: nat): Shared {
    Logged(m.(steps := m.steps[VerifyEmailCode := StepInProgress], verifier := Some(i)), VerifyInserted)
  }

  /** What is left of a VerifyEmail after its first INSERT. */
  function Launching(m: Shared, n: nat, pc: VerifyPc): Shared {
    var m1 := if pc.InsertActivate? then m.(steps := m.steps[ActivateUser := StepPending]) else m;
    var m2 := if pc.Launch? then m1 else WroteSession(m1, VerifyingEmail);
    Logged(m2.(verifier := Some(n)), Launched)
  }

  lemma InsistingPasses(m: Shared, i: nat, n: nat, p: Proc)
    requires Insisting(p) && m.session.Some? && (p.verify.InsertActivate? ==> ActivateUser !in m.steps)
    ensures RunSolo(i, n, Solo(m, p, []))
            == Solo(Launching(m, n, p.verify), p.(verify := VerifyDone(Some(VerifyingEmail))), [])
    decreases Left(p)
  {
    hide RunSolo, Left;
    SoloNext(i, n, Solo(m, p, []));
    match p.verify {
      case InsertActivate =>
        var m1 := m.(steps := m.steps[ActivateUser := StepPending]);
        SoloNext(i, n, Solo(m1, p.(verify := SetVerifying), []));
        SoloNext(i, n, Solo(WroteSession(m1, VerifyingEmail), p.(verify := Launch), []));
      case SetVerifying =>
        SoloNext(i, n, Solo(WroteSession(m, VerifyingEmail), p.(verify := Launch), []));
      case Launch =>
    }
    SoloEnd(i, n, Solo(Launching(m, n, p.verify), p.(verify := VerifyDone(Some(VerifyingEmail))), []));
  }

  lemma VerifyPasses(m: Shared, i: nat, n: nat)
    requires HasStatus(m, CodeSent) && VerifyEmailCode !in m.steps && ActivateUser !in m.steps
    ensures var call := VerifyCall(m.session.value.clientId, ReadForVerify);
            RunSolo(i, n, Solo(m, call, []))
            == Solo(Launching(VerifyRow(m, i), n, InsertActivate), call.(verify := VerifyDone(Some(VerifyingEmail))),
              [])
  {
    hide RunSolo, Left;
    var call := VerifyCall(m.session.value.clientId, ReadForVerify);
    SoloNext(i, n, Solo(m, call, []));
    SoloNext(i, n, Solo(m, call.(verify := InsertVerify), []));
    InsistingPasses(VerifyRow(m, i), i, n, call.(verify := InsertActivate));
  }

  /** In every reachable `code_sent` session a VerifyEmail by its client, none of whose
      calls fails, launches the verification if and only if there is no verify step yet;
      otherwise it changes nothing and answers with an error. */
  lemma {:induction false} VerifyLaunchesIff(realtime: bool, events: seq<Event>, i: nat, n: nat)
    requires HasStatus(After(Init(realtime), events).mem, CodeSent)
    ensures var m := After(Init(realtime), events).mem;
            var end := RunSolo(i, n, Solo(m, VerifyCall(m.session.value.clientId, ReadForVerify), []));
            && end.proc.VerifyCall?
            && (end.proc.verify == VerifyDone(Some(VerifyingEmail)) <==> VerifyEmailCode !in m.steps)
            && (VerifyEmailCode !in m.steps ==>
                  HasStatus(end.mem, VerifyingEmail) && Count(end.mem, Launched) == Count(m, Launched) + 1)
            && (VerifyEmailCode in m.steps ==> end.mem == m && end.proc.verify == VerifyDone(None))
  {
    hide After, RunSolo;
    AlwaysVerified(realtime, events);
    var m := After(Init(realtime), events).mem;
    if VerifyEmailCode in m.steps {
      VerifyRefused(m, i, n);
    } else {
      VerifyPasses(m, i, n);
    }
  }

  // ----- A completion without failures completes, and its session's tokens are claimed

  /** The completion has not failed and has yet to write `completed`. */
  predicate Completing(q: Proc) {
    q.Completion? &&
    match q.completion
    case CallVerify => true
    case MarkVerified => true
    case SetActivating => true
    case MarkActivating => true
    case CallActivate => true
    case MarkActivated => true
    case SetCompleted => true
    case _ => false
  }

  predicate SameClient(m: Shared, m': Shared) {
    && m.session.Some? && m'.session.Some? && m'.session.value.clientId == m.session.value.clientId
    && m'.lock == m.lock && Count(m', TokenReturned) == Count(m, TokenReturned)
  }

  lemma LoggedKeepsClient(m: Shared, e: Effect)
    requires m.session.Some? && e != TokenReturned
    ensures SameClient(m, Logged(m, e)) && HasStatus(Logged(m, e), m.session.value.status)
  {
  }

  lemma WriteKeepsClient(m: Shared, st: SessionStatus)
    requires m.session.Some?
    ensures SameClient(m, WroteSession(m, st)) && HasStatus(WroteSession(m, st), st)
  {
  }

  lemma SameClientTwice(m: Shared, m1: Shared, m2: Shared)
    requires SameClient(m, m1) && SameClient(m1, m2)
    ensures SameClient(m, m2)
  {
  }

  lemma WritesKeepClient(m: Shared)
    requires m.session.Some?
    ensures forall k, st :: SameClient(m, WroteStep(m, k, st))
    ensures forall st :: SameClient(m, WroteSession(m, st)) && HasStatus(WroteSession(m, st), st)
    ensures forall e :: e != TokenReturned ==> SameClient(m, Logged(m, e))
    ensures SameClient(m, Logged(Logged(m, ActivateCalled), ActivateSucceeded))
  {
    hide Logged, WroteSession, HasStatus;
    forall st ensures SameClient(m, WroteSession(m, st))
      && HasStatus(WroteSession(m, st), st) { WriteKeepsClient(m, st); }
    forall e: Effect | e != TokenReturned ensures SameClient(m, Logged(m, e)) { LoggedKeepsClient(m, e); }
    LoggedKeepsClient(Logged(m, ActivateCalled), ActivateSucceeded);
    SameClientTwice(m, Logged(m, ActivateCalled), Logged(Logged(m, ActivateCalled), ActivateSucceeded));
  }

  lemma CompletingStep(m: Shared, j: nat, n: nat, p: Proc)
    requires Completing(p) && m.session.Some?
    ensures var v := Step(m, j, n, p, Ok);
            && SameClient(m, v.mem) && v.proc.Completion?
            && (Completing(v.proc) || (v.proc.completion == PublishCompleted && HasStatus(v.mem, Completed)))
  {
    hide WroteStep, WroteSession, Logged, SameClient, HasStatus;
    WritesKeepClient(m);
  }

  lemma {:induction false} CompletionReaches(m: Shared, j: nat, n: nat, p: Proc)
    requires Completing(p) && m.session.Some?
    ensures var end := RunSolo(j, n, Solo(m, p, [])); HasStatus(end.mem, Completed) && SameClient(m, end.mem)
    decreases Left(p)
  {
    hide RunSolo, Step, Left, HasStatus;
    var v := Step(m, j, n, p, Ok);
    CompletingStep(m, j, n, p);
    StepProgresses(m, j, n, p, Ok);
    SoloNext(j, n, Solo(m, p, []));
    if Completing(v.proc) {
      CompletionReaches(v.mem, j, n, v.proc);
    } else {
      Publishes(v.mem, j, n, v.proc);
    }
  }

  lemma Publishes(m: Shared, j: nat, n: nat, p: Proc)
    requires p.Completion? && p.completion == PublishCompleted && m.session.Some?
    ensures var end := RunSolo(j, n, Solo(m, p, []));
            (HasStatus(m, Completed) ==> HasStatus(end.mem, Completed)) && SameClient(m, end.mem)
  {
    hide RunSolo, Left;
    SoloNext(j, n, Solo(m, p, []));
    SoloEnd(j, n, Solo(Logged(m, CompletedEvent), Completion(CompletionDone(true)), []));
  }

  lemma ClaimPasses(m: Shared, i: nat, n: nat)
    requires HasStatus(m, Completed)
    ensures var call := StatusCall(m.session.value.clientId, ReadForStatus);
            RunSolo(i, n, Solo(m, call, []))
            == Solo(Logged(WroteSession(m, TokensClaimed), TokenReturned),
              call.(status := StatusDone(Some(Completed))), [])
  {
    hide RunSolo, Left, WroteSession, Logged;
    var call := StatusCall(m.session.value.clientId, ReadForStatus);
    SoloNext(i, n, Solo(m, call, []));
    SoloNext(i, n, Solo(m, call.(status := Claim), []));
    SoloEnd(i, n,
      Solo(Logged(WroteSession(m, TokensClaimed), TokenReturned), call.(status := StatusDone(Some(Completed))), []));
  }

  // ----- Continuations of a run

  lemma LockReleased(m: Shared, j: nat, n: nat, p: Proc)
    requires HoldsLock(p)
    ensures var v := Step(m, j, n, p, Err);
            v.mem == m.(lock := None) && v.spawned.None? && !Insisting(p) && !Completing(p)
  {
  }

  /** Whoever holds the row lock may fail and release it. */
  lemma Unlocked(realtime: bool, events: seq<Event>) returns (more: seq<Event>)
    ensures events <= more
    ensures var s, s' := After(Init(realtime), events), After(Init(realtime), more);
            && s'.mem == s.mem.(lock := None) && |s'.procs| == |s.procs|
            && forall k ::
              0 <= k < |s.procs| && (Insisting(s.procs[k]) || Completing(s.procs[k])) ==> s'.procs[k] == s.procs[k]
  {
    hide After, Step, Grounded, NeedsRowLock, Insisting, Completing, HoldsLock;
    var s := After(Init(realtime), events);
    more := events;
    if s.mem.lock.Some? {
      var j := s.mem.lock.value;
      AlwaysStructured(realtime, events);
      assert Placed(s.mem, j, s.procs[j]);
      LockReleased(s.mem, j, |s.procs|, s.procs[j]);
      AfterLast(Init(realtime), events, Run(j, Err));
      more := events + [Run(j, Err)];
    }
  }

  /** A completed session's client claims its tokens. */
  lemma Claims(realtime: bool, events: seq<Event>) returns (more: seq<Event>)
    requires var m := After(Init(realtime), events).mem; HasStatus(m, Completed) && m.lock == None
    ensures events <= more
    ensures var m, m' := After(Init(realtime), events).mem, After(Init(realtime), more).mem;
            HasStatus(m', TokensClaimed) && Count(m', TokenReturned) == Count(m, TokenReturned) + 1
  {
    hide After, RunSolo, Spawning;
    var s := After(Init(realtime), events);
    ClaimPasses(s.mem, |s.procs|, |s.procs| + 1);
    more := Called(realtime, events, StatusCall(s.mem.session.value.clientId, ReadForStatus), []);
  }

  /** A completion that has not failed completes, and the client claims. */
  lemma CompletesAndClaims(realtime: bool, events: seq<Event>, j: nat) returns (more: seq<Event>)
    requires var s := After(Init(realtime), events);
             s.mem.session.Some? && s.mem.lock == None && j < |s.procs| && Completing(s.procs[j])
    ensures events <= more
    ensures var m, m' := After(Init(realtime), events).mem, After(Init(realtime), more).mem;
            HasStatus(m', TokensClaimed) && Count(m', TokenReturned) == Count(m, TokenReturned) + 1
  {
    hide After, RunSolo, Spawning, Completing, Count;
    var s := After(Init(realtime), events);
    CompletionReaches(s.mem, j, |s.procs|, s.procs[j]);
    more := Resumed(realtime, events, j, []);
    more := Claims(realtime, more);
  }

  /** A VerifyEmail past its first INSERT goes on, and so does what it launches. */
  lemma InsistsAndClaims(realtime: bool, events: seq<Event>, j: nat) returns (more: seq<Event>)
    requires var s := After(Init(realtime), events); s.mem.lock == None && j < |s.procs| && Insisting(s.procs[j])
    ensures events <= more
    ensures var m, m' := After(Init(realtime), events).mem, After(Init(realtime), more).mem;
            HasStatus(m', TokensClaimed) && Count(m', TokenReturned) == Count(m, TokenReturned) + 1
  {
    hide After, RunSolo, Spawning, Count, Launching, Grounded, Tallied, Justified;
    var s := After(Init(realtime), events);
    AlwaysVerified(realtime, events);
    AlwaysStructured(realtime, events);
    assert Owned(s.mem, j, s.procs[j]) && Placed(s.mem, j, s.procs[j]);
    InsistingPasses(s.mem, j, |s.procs|, s.procs[j]);
    VerifySpawnsCompletion(j, |s.procs|, Solo(s.mem, s.procs[j], []));
    LaunchKeepsClient(s.mem, |s.procs|, s.procs[j].verify);
    more := Resumed(realtime, events, j, []);
    more := CompletesAndClaims(realtime, more, |s.procs|);
  }

  lemma LaunchKeepsClient(m: Shared, n: nat, pc: VerifyPc)
    requires m.session.Some?
    ensures SameClient(m, Launching(m, n, pc))
  {
  }

  /** A first VerifyEmail gets through to the tokens. */
  lemma VerifiesAndClaims(realtime: bool, events: seq<Event>) returns (more: seq<Event>)
    requires var m := After(Init(realtime), events).mem;
             HasStatus(m, CodeSent) && m.lock == None && VerifyEmailCode !in m.steps
    ensures events <= more
    ensures var m, m' := After(Init(realtime), events).mem, After(Init(realtime), more).mem;
            HasStatus(m', TokensClaimed) && Count(m', TokenReturned) == Count(m, TokenReturned) + 1
  {
    hide After, RunSolo, Spawning, Count, Launching;
    var s := After(Init(realtime), events);
    var i, call := |s.procs|, VerifyCall(s.mem.session.value.clientId, ReadForVerify);
    AlwaysVerified(realtime, events);
    VerifyPasses(s.mem, i, i + 1);
    VerifySpawnsCompletion(i, i + 1, Solo(s.mem, call, []));
    LaunchKeepsClient(VerifyRow(s.mem, i), i + 1, InsertActivate);
    RowKeepsClient(s.mem, i);
    more := Called(realtime, events, call, []);
    more := CompletesAndClaims(realtime, more, i + 1);
  }

  lemma RowKeepsClient(m: Shared, i: nat)
    requires m.session.Some?
    ensures SameClient(m, VerifyRow(m, i))
  {
  }

  // ----- Sessions whose tokens cannot be handed out any more

  /** The verify step is there, `completed` is not the status, and no call or completion
      is on its way to writing it. */
  predicate Exhausted(s: State) {
    && VerifyEmailCode in s.mem.steps
    && !HasStatus(s.mem, Completed)
    && forall j :: 0 <= j < |s.procs| ==> !Insisting(s.procs[j]) && !Completing(s.procs[j])
  }

  lemma LogCounts(m: Shared, m': Shared, e: Effect)
    requires Honest(m, m')
    ensures Count(m, e) <= Count(m', e)
  {
    assert m'.log == m.log + m'.log[|m.log|..];
  }

  predicate StaysUnclaimed(m: Shared, m': Shared) {
    !HasStatus(m', Completed) && Count(m', TokenReturned) == Count(m, TokenReturned)
  }

  lemma LoggedStays(m: Shared, e: Effect)
    requires !HasStatus(m, Completed) && e != TokenReturned
    ensures StaysUnclaimed(m, Logged(m, e))
  {
  }

  lemma FailedWriteStays(m: Shared)
    ensures StaysUnclaimed(m, WroteSession(m, Failed))
  {
  }

  lemma UndoingStays(m: Shared)
    requires !HasStatus(m, Completed)
    ensures StaysUnclaimed(m, m)
    ensures forall k, st :: StaysUnclaimed(m, WroteStep(m, k, st))
    ensures forall e :: e != TokenReturned ==> StaysUnclaimed(m, Logged(m, e))
    ensures StaysUnclaimed(m, WroteSession(m, Failed))
  {
    hide Logged, WroteSession;
    forall e: Effect | e != TokenReturned ensures StaysUnclaimed(m, Logged(m, e)) { LoggedStays(m, e); }
    FailedWriteStays(m);
  }

  lemma FailedCompletionStays(m: Shared, i: nat, n: nat, p: Proc, c: Choice)
    requires p.Completion? && !Completing(p) && !HasStatus(m, Completed)
    ensures var v := Step(m, i, n, p, c);
            v.proc.Completion? && !Completing(v.proc) && v.spawned.None? && StaysUnclaimed(m, v.mem)
  {
    hide WroteStep, WroteSession, Logged, StaysUnclaimed, SessionUser;
    UndoingStays(m);
  }

  lemma NoneCompletes(m: Shared, i: nat, n: nat, p: Proc, c: Choice)
    requires !p.Completion? && !Insisting(p)
    ensures var v := Step(m, i, n, p, c);
            !Completing(v.proc) && (v.spawned.Some? ==> !Completing(v.spawned.value))
  {
    hide StepSync, StepCompensate, UpdatedStep, UpdatedSession;
  }

  lemma BystanderClaims(m: Shared, m': Shared)
    requires Bystander(m, m') && !HasStatus(m, Completed) && Count(m, TokenReturned) <= Count(m', TokenReturned)
    ensures !HasStatus(m', Completed) && Count(m', TokenReturned) == Count(m, TokenReturned)
  {
  }

  lemma RunExhausted(s: State, i: nat, c: Choice)
    requires Structured(s) && Exhausted(s) && Enabled(s, Run(i, c))
    ensures var s' := Exec(s, Run(i, c));
            Exhausted(s') && Count(s'.mem, TokenReturned) == Count(s.mem, TokenReturned)
  {
    hide Step, Placed, Grounded, Insisting, Completing, NeedsRowLock, Bystander, HasStatus, Count, Honest;
    var m, p, n := s.mem, s.procs[i], |s.procs|;
    var v := Step(m, i, n, p, c);
    assert Placed(m, i, p);
    KeysStay(s, Run(i, c));
    if p.Completion? {
      FailedCompletionStays(m, i, n, p, c);
      NotInsisting(v.proc);
    } else {
      NobodyInsists(m, i, n, p, c);
      NoneCompletes(m, i, n, p, c);
      if !(p.VerifyCall? && p.verify.InsertVerify?) {
        NotOwner(p);
        StepsOfOthers(m, i, n, p, c);
        StepHonest(m, i, n, p, c);
        LogCounts(m, v.mem, TokenReturned);
        BystanderClaims(m, v.mem);
      }
    }
  }

  lemma NotInsisting(q: Proc)
    ensures q.Completion? ==> !Insisting(q)
  {
  }

  lemma ExecExhausted(s: State, e: Event)
    requires Structured(s) && Exhausted(s)
    ensures var s' := Exec(s, e);
            Exhausted(s') && Count(s'.mem, TokenReturned) == Count(s.mem, TokenReturned)
  {
    match e {
      case Spawn(p) =>
      case Run(i, c) => hide Step; if Enabled(s, e) { RunExhausted(s, i, c); }
      case Redeliver(j) =>
    }
  }

  lemma {:induction false} ExhaustedForever(realtime: bool, events: seq<Event>, late: seq<Event>)
    requires Exhausted(After(Init(realtime), events)) && events <= late
    ensures var s, s' := After(Init(realtime), events), After(Init(realtime), late);
            Exhausted(s') && Count(s'.mem, TokenReturned) == Count(s.mem, TokenReturned)
  {
    hide After, Structured, Exhausted, Exec;
    assert |late| == |events| ==> late == events;
    if |events| < |late| {
      var init, e := late[..|late| - 1], late[|late| - 1];
      assert late == init + [e];
      ExhaustedForever(realtime, events, init);
      AlwaysStructured(realtime, init);
      AfterLast(Init(realtime), init, e);
      ExecExhausted(After(Init(realtime), init), e);
    }
  }

  /** A session that is not over, once its code was sent or its verify step inserted, has
      a continuation in which its tokens are handed out. */
  lemma {:induction false} TokensWithinReach(realtime: bool, events: seq<Event>) returns (late: seq<Event>)
    requires var s := After(Init(realtime), events);
             !Exhausted(s) && (VerifyEmailCode in s.mem.steps || HasStatus(s.mem, CodeSent))
    ensures events <= late
    ensures var m, m' := After(Init(realtime), events).mem, After(Init(realtime), late).mem;
            HasStatus(m', TokensClaimed) && Count(m', TokenReturned) == Count(m, TokenReturned) + 1
  {
    hide After, Completing, Insisting;
    var s := After(Init(realtime), events);
    AlwaysStructured(realtime, events);
    var free := Unlocked(realtime, events);
    if HasStatus(s.mem, Completed) {
      late := Claims(realtime, free);
    } else if VerifyEmailCode !in s.mem.steps {
      late := VerifiesAndClaims(realtime, free);
    } else {
      var j :| 0 <= j < |s.procs| && (Insisting(s.procs[j]) || Completing(s.procs[j]));
      if Insisting(s.procs[j]) {
        late := InsistsAndClaims(realtime, free, j);
      } else {
        CompletingIsLive(s, j);
        late := CompletesAndClaims(realtime, free, j);
      }
    }
  }

  lemma CompletingIsLive(s: State, j: nat)
    requires Structured(s) && j < |s.procs| && Completing(s.procs[j])
    ensures s.mem.session.Some?
  {
    assert Placed(s.mem, j, s.procs[j]);
  }

  /** Exactly when a session can still hand out its tokens.  Once its code was sent or its
      verify step inserted, some continuation hands them out if and only if the verify
      step is missing, or `completed` is stored, or a VerifyEmail past its first INSERT
      or a completion that has not failed is still under way. */
  lemma {:induction false} ClaimableIff(realtime: bool, events: seq<Event>)
    requires var m := After(Init(realtime), events).mem; VerifyEmailCode in m.steps || HasStatus(m, CodeSent)
    ensures (exists late :: events <= late
                            && Count(After(Init(realtime), late).mem, TokenReturned)
                               > Count(After(Init(realtime), events).mem, TokenReturned))
            <==> !Exhausted(After(Init(realtime), events))
  {
    hide After, Exhausted, Count;
    var s := After(Init(realtime), events);
    if Exhausted(s) {
      forall late | events <= late
        ensures Count(After(Init(realtime), late).mem, TokenReturned) == Count(s.mem, TokenReturned)
      {
        ExhaustedForever(realtime, events, late);
      }
    } else {
      var late := TokensWithinReach(realtime, events);
    }
  }

  /** An abandoned verification is over. */
  lemma AbandonedIsExhausted(realtime: bool, events: seq<Event>)
    requires Abandoned(After(Init(realtime), events))
    ensures Exhausted(After(Init(realtime), events))
  {
    hide After;
    AlwaysVerified(realtime, events);
    var s := After(Init(realtime), events);
    forall j | 0 <= j < |s.procs| ensures !Completing(s.procs[j]) { assert Owned(s.mem, j, s.procs[j]); }
  }
}
