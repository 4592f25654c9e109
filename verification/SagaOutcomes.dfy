/** What each call of the service leaves behind when it runs alone. */
module SagaOutcomes {
  // For every stored row and every pattern of call failures: the rows, the answer and the
  // exact log, stated without control points.  The processes are proved to end there.

  import opened Domain
  import opened Saga
  import opened SagaStructure
  import opened SagaVerification
  import opened SagaSolo

  // ----- Scripts by position

  /** Whether the call at this position, counted from 0, succeeds. */
  function CallAt(script: Script, k: nat): Choice {
    if k < |script| then script[k] else Ok
  }

  /** What is left of the script after so many calls. */
  function From(script: Script, k: nat): Script {
    if k <= |script| then script[k..] else []
  }

  /** The first of `n` calls that fails, or `n`. */
  function FirstFailure(script: Script, n: nat): (f: nat)
    ensures f <= n
    ensures forall k :: 0 <= k < f ==> CallAt(script, k).Ok?
    ensures f < n ==> CallAt(script, f).Err?
  {
    if n == 0 then 0
    else
      var f := FirstFailure(script, n - 1);
      if f == n - 1 && CallAt(script, f).Ok? then n else f
  }

  /** The calls one by one. */
  lemma CallByCall(script: Script)
    ensures From(script, 0) == script
    ensures forall k: nat {:trigger Head(From(script, k))} :: Head(From(script, k)) == CallAt(script, k)
    ensures forall k: nat {:trigger Tail(From(script, k))} :: Tail(From(script, k)) == From(script, k + 1)
  {
  }

  /** Positions counted from the `j`-th call on. */
  lemma CallsFrom(script: Script, j: nat)
    ensures forall k: nat {:trigger From(From(script, j), k)} :: From(From(script, j), k) == From(script, j + k)
    ensures forall k: nat {:trigger CallAt(From(script, j), k)} :: CallAt(From(script, j), k) == CallAt(script, j + k)
  {
  }

  // ----- Compensation

  /** The two deactivations of a user, if one is known. */
  function Deactivations(i: nat, userId: string): seq<Effect> {
    if userId == "" then [] else [UserDeactivated(i, userId), AuthDeactivated(i, userId)]
  }

  /** Calls: read the session, write `failed`, deactivate twice, publish. */
  function CompensationOutcome(m: Shared, i: nat, given: string, script: Script): Call {
    if CallAt(script, 0).Err? || m.session.None? then Call(m, false, From(script, 1))
    else if CallAt(script, 1).Err? then Call(m, false, From(script, 2))
    else
      var row := m.session.value;
      var userId := if given == "" then row.userId else given;
      var last := if userId == "" then 2 else 4;
      Call(m.(session := Some(row.(status := Failed)),
              log := m.log + [SessionWritten(Failed)] + Deactivations(i, userId)
              + [FailedEvent(i, CallAt(script, last).Ok?)]),
           true, From(script, last + 1))
  }

  lemma UndoingRuns(m: Shared, i: nat, given: string, userId: string, script: Script, k: nat)
    ensures var pc := if userId == "" then PublishFailed else CompensatePc.DeactivateUser(userId);
            var last := if userId == "" then k else k + 2;
            RunCompensate(m, i, given, pc, From(script, k))
            == Call(m.(log := m.log + Deactivations(i, userId) + [FailedEvent(i, CallAt(script, last).Ok?)]), true,
              From(script, last + 1))
  {
    hide RunCompensate, From, CallAt, Head, Tail;
    CallByCall(script);
    if userId == "" {
      CompensateNext(m, i, given, PublishFailed, From(script, k));
      assert m.log + Deactivations(i, userId) == m.log;
    } else {
      var m1 := Logged(m, UserDeactivated(i, userId));
      var m2 := Logged(m1, AuthDeactivated(i, userId));
      CompensateNext(m, i, given, CompensatePc.DeactivateUser(userId), From(script, k));
      CompensateNext(m1, i, given, CompensatePc.DeactivateAuth(userId), From(script, k + 1));
      CompensateNext(m2, i, given, PublishFailed, From(script, k + 2));
      assert m2.log == m.log + Deactivations(i, userId);
    }
  }

  lemma {:induction false} CompensationRuns(m: Shared, i: nat, given: string, script: Script)
    ensures RunCompensate(m, i, given, ReadSession, script) == CompensationOutcome(m, i, given, script)
  {
    hide RunCompensate, From, CallAt, Head, Tail, Deactivations;
    CallByCall(script);
    CompensateNext(m, i, given, ReadSession, From(script, 0));
    if CallAt(script, 0).Ok? && m.session.Some? {
      var userId := if given == "" then m.session.value.userId else given;
      CompensateNext(m, i, given, WriteFailed(userId), From(script, 1));
      UndoingRuns(WroteSession(m, Failed), i, given, userId, script, 2);
    }
  }

  // ----- Reconciliation and the code-sent notice

  /** Calls: lock and read the session, read the steps, commit. */
  function SyncOutcome(m: Shared, i: nat, script: Script): Call {
    var status := Aggregate(m.steps);
    if CallAt(script, 0).Err? || m.session.None? then Call(m, false, From(script, 1))
    else if CallAt(script, 1).Err? then Call(m, false, From(script, 2))
    else if CallAt(script, 2).Err? then Call(m.(log := m.log + [SnapshotTaken(m.steps)]), false, From(script, 3))
    else
      var written := m.(session := Some(m.session.value.(status := status)),
                        log := m.log + [SnapshotTaken(m.steps), SessionWritten(status)]);
      if status == Failed then CompensationOutcome(written, i, "", From(script, 3))
      else Call(written, true, From(script, 3))
  }

  lemma SyncEnds(m: Shared, i: nat, script: Script)
    requires m.lock == None
    ensures RunSync(m, i, Lock, script) == SyncOutcome(m, i, script)
  {
    hide RunSync, RunCompensate, CompensationOutcome, Aggregate, From, CallAt, Head, Tail;
    CallByCall(script);
    SyncUnfolds(m, i, script);
    var status := Aggregate(m.steps);
    assert m.log + [SnapshotTaken(m.steps)] + [SessionWritten(status)]
        == m.log + [SnapshotTaken(m.steps), SessionWritten(status)];
    if status == Failed {
      var written := WroteSession(Logged(m, SnapshotTaken(m.steps)), Failed);
      SyncRunsCompensate(written, i, ReadSession, From(script, 3));
      CompensationRuns(written, i, "", From(script, 3));
    }
  }

  /** publishCodeSentIfReady: one read, and at most one notice in the life of the service. */
  function ReadyOutcome(m: Shared, script: Script): (Shared, bool) {
    if !m.realtime then (m, true)
    else if CallAt(script, 0).Err? || m.session.None? then (m, false)
    else if m.session.value.status == CodeSent && !m.notified then
      (m.(notified := true, log := m.log + [CodeSentNotified]), true)
    else (m, true)
  }

  lemma ReadyEnds(m: Shared, i: nat, n: nat, p: Proc, script: Script)
    requires p.Handler? && p.handler == ReadReady
    ensures var (m', ok) := ReadyOutcome(m, script);
            var end := RunSolo(i, n, Solo(m, p, script));
            end.mem == m' && end.proc == p.(handler := HandlerDone(ok))
  {
    hide RunSolo, From, CallAt, Head, Tail;
    CallByCall(script);
    SoloNext(i, n, Solo(m, p, From(script, 0)));
    SoloNext(i, n, Solo(m, p.(handler := Notify), From(script, 1)));
    SoloEnds(i, n);
  }

  lemma SoloEnds(i: nat, n: nat)
    ensures forall r: Solo {:trigger RunSolo(i, n, r)} :: Finished(r.proc) ==> RunSolo(i, n, r) == r
  {
  }

  /** What follows a handler's step writes. */
  function FinishOutcome(m: Shared, i: nat, script: Script): (Shared, bool) {
    var synced := SyncOutcome(m, i, script);
    if synced.ok then ReadyOutcome(synced.mem, synced.script) else (synced.mem, false)
  }

  lemma FinishEnds(m: Shared, i: nat, n: nat, p: Proc, script: Script)
    requires p.Handler? && p.handler == HandlerSync(Lock) && m.lock == None
    ensures var (m', ok) := FinishOutcome(m, i, script);
            var end := RunSolo(i, n, Solo(m, p, script));
            end.mem == m' && end.proc == p.(handler := HandlerDone(ok))
  {
    hide RunSolo, RunSync, SyncOutcome, ReadyOutcome;
    HandlerRunsSync(m, i, n, p, script);
    SyncEnds(m, i, script);
    var synced := SyncOutcome(m, i, script);
    SoloEnds(i, n);
    if synced.ok { ReadyEnds(synced.mem, i, n, p.(handler := ReadReady), synced.script); }
  }

  // ----- Result handlers

  /** The first call writes the step; on success the second one, if any, activates the
      mail step (auth) or publishes the code-sent event (mail). */
  function HandlerOutcome(m: Shared, i: nat, result: Result, success: bool, userId: string, script: Script)
    : (Shared, bool)
  {
    var key :=
      match result
      case UserResult => UserCreateProfile
      case AuthResult => AuthCreatePending
      case MailResult => MailSendCode;
    var written := m.(steps := UpdatedStep(m.steps, key, if success then StepCompleted else StepFailed));
    if CallAt(script, 0).Err? then (m, false)
    else if !success then
      var undone := CompensationOutcome(written, i, userId, From(script, 1));
      (undone.mem, undone.ok)
    else if result == UserResult then FinishOutcome(written, i, From(script, 1))
    else if CallAt(script, 1).Err? then (written, false)
    else if result == AuthResult then
      FinishOutcome(written.(steps := UpdatedStep(written.steps, MailSendCode, StepInProgress)), i, From(script, 2))
    else FinishOutcome(written.(log := written.log + [CodeSentEvent]), i, From(script, 2))
  }

  lemma {:induction false} HandlerRunsTo(m: Shared, i: nat, n: nat, result: Result, success: bool, userId: string,
    script: Script)
    requires m.lock == None
    ensures var (m', ok) := HandlerOutcome(m, i, result, success, userId, script);
            var end := RunSolo(i, n, Solo(m, Handler(result, success, userId, WriteStep), script));
            end.mem == m' && end.proc == Handler(result, success, userId, HandlerDone(ok))
  {
    hide RunSolo, RunCompensate, CompensationOutcome, FinishOutcome, From, CallAt, Head, Tail, UpdatedStep;
    CallByCall(script);
    SoloEnds(i, n);
    var p := Handler(result, success, userId, WriteStep);
    SoloNext(i, n, Solo(m, p, From(script, 0)));
    if CallAt(script, 0).Ok? {
      var written := WroteStep(m, result.Key(), if success then StepCompleted else StepFailed);
      if !success {
        HandlerRunsCompensate(written, i, n, p.(handler := DirectCompensate(ReadSession)), From(script, 1));
        CompensationRuns(written, i, userId, From(script, 1));
      } else {
        match result
        case UserResult => FinishEnds(written, i, n, p.(handler := HandlerSync(Lock)), From(script, 1));
        case AuthResult =>
          SoloNext(i, n, Solo(written, p.(handler := ActivateMail), From(script, 1)));
          FinishEnds(WroteStep(written, MailSendCode, StepInProgress), i, n, p.(handler := HandlerSync(Lock)),
                     From(script, 2));
        case MailResult =>
          SoloNext(i, n, Solo(written, p.(handler := PublishCodeSent), From(script, 1)));
          FinishEnds(Logged(written, CodeSentEvent), i, n, p.(handler := HandlerSync(Lock)), From(script, 2));
      }
    }
  }

  // ----- VerifyEmail

  /** The two INSERTs and the status write; the fourth call starts the completion. */
  function LaunchOutcome(m: Shared, i: nat, n: nat, script: Script): (Shared, Option<SessionStatus>) {
    var created := m.(steps := m.steps[VerifyEmailCode := StepInProgress], verifier := Some(i),
                      log := m.log + [VerifyInserted]);
    var both := created.(steps := created.steps[ActivateUser := StepPending]);
    if CallAt(script, 0).Err? || VerifyEmailCode in m.steps then (m, None)
    else if CallAt(script, 1).Err? || ActivateUser in m.steps then (created, None)
    else if CallAt(script, 2).Err? then (both, None)
    else (both.(session := UpdatedSession(m.session, VerifyingEmail), verifier := Some(n),
                log := m.log + [VerifyInserted, SessionWritten(VerifyingEmail), Launched]), Some(VerifyingEmail))
  }

  /** The first call reads the session.  A stranger, a missing session and every status
      but three are refused. */
  function VerifyOutcome(m: Shared, i: nat, n: nat, clientId: string, script: Script): (Shared, Option<SessionStatus>) {
    if CallAt(script, 0).Err? || m.session.None? || m.session.value.clientId != clientId then (m, None)
    else
      match m.session.value.status
      case Completed => (m, Some(Completed))
      case CodeSent => LaunchOutcome(m, i, n, From(script, 1))
      case InProgress =>
        var synced := SyncOutcome(m, i, From(script, 1));
        if synced.ok && CallAt(synced.script, 0).Ok? && HasStatus(synced.mem, CodeSent)
        then LaunchOutcome(synced.mem, i, n, From(synced.script, 1))
        else (synced.mem, None)
      case _ => (m, None)
  }

  lemma LaunchEnds(m: Shared, i: nat, n: nat, p: Proc, script: Script)
    requires p.VerifyCall? && p.verify == InsertVerify
    ensures var (m', answer) := LaunchOutcome(m, i, n, script);
            var end := RunSolo(i, n, Solo(m, p, script));
            end.mem == m' && end.proc == p.(verify := VerifyDone(answer))
  {
    hide RunSolo, From, CallAt, Head, Tail, UpdatedSession, StepHandler, StepCompletion, StepStart, StepDispatch,
      StepStatusCall;
    CallByCall(script);
    SoloEnds(i, n);
    SoloNext(i, n, Solo(m, p, From(script, 0)));
    if CallAt(script, 0).Ok? && VerifyEmailCode !in m.steps { LaunchContinues(m, i, n, p, script); }
  }

  lemma LaunchContinues(m: Shared, i: nat, n: nat, p: Proc, script: Script)
    requires p.VerifyCall? && CallAt(script, 0).Ok? && VerifyEmailCode !in m.steps
    ensures var (m', answer) := LaunchOutcome(m, i, n, script);
            var created :=
              Logged(m.(steps := m.steps[VerifyEmailCode := StepInProgress], verifier := Some(i)), VerifyInserted);
            var end := RunSolo(i, n, Solo(created, p.(verify := InsertActivate), From(script, 1)));
            end.mem == m' && end.proc == p.(verify := VerifyDone(answer))
  {
    hide RunSolo, From, CallAt, Head, Tail, UpdatedSession, StepHandler, StepCompletion, StepStart, StepDispatch,
      StepStatusCall;
    CallByCall(script);
    SoloEnds(i, n);
    var created := Logged(m.(steps := m.steps[VerifyEmailCode := StepInProgress], verifier := Some(i)), VerifyInserted);
    SoloNext(i, n, Solo(created, p.(verify := InsertActivate), From(script, 1)));
    var both := created.(steps := created.steps[ActivateUser := StepPending]);
    SoloNext(i, n, Solo(both, p.(verify := SetVerifying), From(script, 2)));
    SoloNext(i, n, Solo(WroteSession(both, VerifyingEmail), p.(verify := Launch), From(script, 3)));
    assert m.log + [VerifyInserted] + [SessionWritten(VerifyingEmail)] + [Launched]
        == m.log + [VerifyInserted, SessionWritten(VerifyingEmail), Launched];
  }

  lemma {:induction false} VerifyRunsTo(m: Shared, i: nat, n: nat, clientId: string, script: Script)
    requires m.lock == None
    ensures var (m', answer) := VerifyOutcome(m, i, n, clientId, script);
            var end := RunSolo(i, n, Solo(m, VerifyCall(clientId, ReadForVerify), script));
            end.mem == m' && end.proc == VerifyCall(clientId, VerifyDone(answer))
  {
    hide RunSolo, RunSync, SyncOutcome, LaunchOutcome, From, CallAt, Head, Tail;
    var p := VerifyCall(clientId, ReadForVerify);
    CallByCall(script);
    SoloEnds(i, n);
    SoloNext(i, n, Solo(m, p, From(script, 0)));
    if CallAt(script, 0).Ok? && m.session.Some? && m.session.value.clientId == clientId {
      if m.session.value.status == CodeSent {
        LaunchEnds(m, i, n, p.(verify := InsertVerify), From(script, 1));
      } else if m.session.value.status == InProgress {
        var synced := SyncOutcome(m, i, From(script, 1));
        VerifyRunsSync(m, i, n, p.(verify := VerifySync(Lock)), From(script, 1));
        SyncEnds(m, i, From(script, 1));
        CallByCall(synced.script);
        SoloNext(i, n, Solo(synced.mem, p.(verify := RereadForVerify), From(synced.script, 0)));
        LaunchEnds(synced.mem, i, n, p.(verify := InsertVerify), From(synced.script, 1));
      }
    }
  }

  // ----- The completion goroutine

  /** The log of a verification that succeeds, and how much of it is there when the first
      so many calls have succeeded and the next one, if any, has been made. */
  const WORK_LOG: seq<Effect> :=
    [CodeVerified, SessionWritten(ActivatingUser), ActivateCalled, ActivateSucceeded, SessionWritten(Completed)]

  const WORK_LOGGED: seq<nat> := [0, 1, 1, 2, 3, 4, 4, 5]

  /** What has happened when the first `f` of its seven calls have succeeded and the next
      one, if any, has been made: VerifyRegistrationEmail, the verify step `completed`, the
      session `activating_user`, the activate step `in_progress`, ActivateUser, the
      activate step `completed`, the session `completed`. */
  function VerificationWork(m: Shared, f: nat): Shared
    requires f <= 7
  {
    var verified := if f >= 2 then UpdatedStep(m.steps, VerifyEmailCode, StepCompleted) else m.steps;
    var activating := if f >= 4 then UpdatedStep(verified, ActivateUser, StepInProgress) else verified;
    m.(steps := if f >= 6 then UpdatedStep(activating, ActivateUser, StepCompleted) else activating,
       session := if f >= 7 then UpdatedSession(m.session, Completed)
       else if f >= 3 then UpdatedSession(m.session, ActivatingUser)
       else m.session,
       log := m.log + WORK_LOG[..WORK_LOGGED[f]])
  }

  /** failEmailVerification for one of the two steps.  Calls: fail the step, fail the
      session, deactivate twice, publish; each is made whatever the others do. */
  function FailureOutcome(m: Shared, i: nat, key: StepKey, script: Script): Shared {
    var userId := match m.session case Some(row) => row.userId case None => "";
    m.(steps := if CallAt(script, 0).Ok? then UpdatedStep(m.steps, key, StepFailed) else m.steps,
       session := if CallAt(script, 1).Ok? then UpdatedSession(m.session, Failed) else m.session,
       log := m.log
       + (if CallAt(script, 1).Ok? then [SessionWritten(Failed)] else [])
       + [UserDeactivated(i, userId), AuthDeactivated(i, userId), FailedEvent(i, CallAt(script, 4).Ok?)])
  }

  /** The calls up to the first failing one; the first two fail the verify step, the
      others the activate step.  Without a failure the completed event is published. */
  function CompletionOutcome(m: Shared, i: nat, script: Script): (Shared, bool) {
    var f := FirstFailure(script, 7);
    var worked := VerificationWork(m, f);
    if f == 7 then
      (worked.(log := worked.log + if CallAt(script, 7).Ok? then [CompletedEvent] else []), true)
    else
      (FailureOutcome(worked, i, if f < 2 then VerifyEmailCode else ActivateUser, From(script, f + 1)), false)
  }

  const COMPLETION_PCS: seq<CompletionPc> :=
    [CallVerify, MarkVerified, SetActivating, MarkActivating, CallActivate, MarkActivated, SetCompleted,
     PublishCompleted]

  /** Before its `f`-th call the completion has done this; ActivateCalled is noted by the
      call itself. */
  function BeforeCall(m: Shared, f: nat): Shared
    requires f <= 7
  {
    if f == 4 then VerificationWork(m, f).(log := m.log + WORK_LOG[..2]) else VerificationWork(m, f)
  }

  lemma VerificationWorks(m: Shared, i: nat, f: nat)
    requires f < 3
    ensures var v := StepCompletion(BeforeCall(m, f), i, Completion(COMPLETION_PCS[f]), Ok);
            v.mem == BeforeCall(m, f + 1) && v.proc == Completion(COMPLETION_PCS[f + 1])
  {
    hide UpdatedStep, SessionUser;
    WorkLog(m);
  }

  lemma ActivationWorks(m: Shared, i: nat, f: nat)
    requires 3 <= f < 5
    ensures var v := StepCompletion(BeforeCall(m, f), i, Completion(COMPLETION_PCS[f]), Ok);
            v.mem == BeforeCall(m, f + 1) && v.proc == Completion(COMPLETION_PCS[f + 1])
  {
    hide UpdatedStep, SessionUser;
    WorkLog(m);
  }

  lemma LastCallsWork(m: Shared, i: nat, f: nat)
    requires 5 <= f < 7
    ensures var v := StepCompletion(BeforeCall(m, f), i, Completion(COMPLETION_PCS[f]), Ok);
            v.mem == BeforeCall(m, f + 1) && v.proc == Completion(COMPLETION_PCS[f + 1])
  {
    hide UpdatedStep, SessionUser;
    WorkLog(m);
  }

  lemma CompletionWorks(m: Shared, i: nat, f: nat)
    requires f < 7
    ensures var v := StepCompletion(BeforeCall(m, f), i, Completion(COMPLETION_PCS[f]), Ok);
            v.mem == BeforeCall(m, f + 1) && v.proc == Completion(COMPLETION_PCS[f + 1])
  {
    hide StepCompletion, BeforeCall;
    if f < 3 {
      VerificationWorks(m, i, f);
    } else if f < 5 {
      ActivationWorks(m, i, f);
    } else {
      LastCallsWork(m, i, f);
    }
  }

  lemma WorkLog(m: Shared)
    ensures forall k :: 0 <= k < |WORK_LOG| ==> m.log + WORK_LOG[..k] + [WORK_LOG[k]] == m.log + WORK_LOG[..k + 1]
    ensures m.log + WORK_LOG[..0] == m.log
  {
    forall k | 0 <= k < |WORK_LOG| ensures m.log + WORK_LOG[..k] + [WORK_LOG[k]] == m.log + WORK_LOG[..k + 1] {
      assert WORK_LOG[..k + 1] == WORK_LOG[..k] + [WORK_LOG[k]];
    }
  }

  lemma CompletionFails(m: Shared, i: nat, f: nat)
    requires f < 7
    ensures var v := StepCompletion(BeforeCall(m, f), i, Completion(COMPLETION_PCS[f]), Err);
            v.mem == VerificationWork(m, f) && v.proc == Completion(FailVerification(f >= 2))
  {
    hide UpdatedStep, SessionUser;
    WorkLog(m);
  }

  lemma FailureEnds(m: Shared, i: nat, n: nat, activate: bool, script: Script)
    ensures var key := if activate then ActivateUser else VerifyEmailCode;
            var end := RunSolo(i, n, Solo(m, Completion(FailVerification(activate)), script));
            end.mem == FailureOutcome(m, i, key, script) && end.proc == Completion(CompletionDone(false))
  {
    hide RunSolo, From, CallAt, Head, Tail, UpdatedStep, StepHandler, StepVerify, StepStart, StepDispatch,
      StepStatusCall;
    CallByCall(script);
    var key := if activate then ActivateUser else VerifyEmailCode;
    SoloNext(i, n, Solo(m, Completion(FailVerification(activate)), From(script, 0)));
    var m1 := if CallAt(script, 0).Ok? then WroteStep(m, key, StepFailed) else m;
    FailureContinues(m1, i, n, script);
  }

  lemma FailureContinues(m: Shared, i: nat, n: nat, script: Script)
    ensures var userId := match m.session case Some(row) => row.userId case None => "";
            var end := RunSolo(i, n, Solo(m, Completion(FailVerificationSession), From(script, 1)));
            && end.mem == m.(
                 session := if CallAt(script, 1).Ok? then UpdatedSession(m.session, Failed) else m.session,
                 log := m.log
                 + (if CallAt(script, 1).Ok? then [SessionWritten(Failed)] else [])
                 + [UserDeactivated(i, userId), AuthDeactivated(i, userId), FailedEvent(i, CallAt(script, 4).Ok?)])
            && end.proc == Completion(CompletionDone(false))
  {
    hide RunSolo, From, CallAt, Head, Tail, StepHandler, StepVerify, StepStart, StepDispatch, StepStatusCall;
    CallByCall(script);
    SoloNext(i, n, Solo(m, Completion(FailVerificationSession), From(script, 1)));
    if CallAt(script, 1).Ok? {
      UndoingEnds(WroteSession(m, Failed), i, n, script);
    } else {
      UndoingEnds(m, i, n, script);
      assert m.log + [] == m.log;
    }
  }

  lemma UndoingEnds(m: Shared, i: nat, n: nat, script: Script)
    ensures var userId := match m.session case Some(row) => row.userId case None => "";
            var end := RunSolo(i, n, Solo(m, Completion(UndoUser), From(script, 2)));
            && end.mem == m.(log := m.log
                 + [UserDeactivated(i, userId), AuthDeactivated(i, userId), FailedEvent(i, CallAt(script, 4).Ok?)])
            && end.proc == Completion(CompletionDone(false))
  {
    hide RunSolo, From, CallAt, Head, Tail, StepStart, StepDispatch, StepHandler, StepVerify, StepCompletion,
      StepStatusCall, Logged, SessionUser;
    CallByCall(script);
    SoloEnds(i, n);
    ThreeNotes(m, i, CallAt(script, 4).Ok?);
    var m1 := Logged(m, UserDeactivated(i, SessionUser(m)));
    var m2 := Logged(m1, AuthDeactivated(i, SessionUser(m)));
    UndoingMoves(m, i, CallAt(script, 2));
    UndoingMoves(m1, i, CallAt(script, 3));
    UndoingMoves(m2, i, CallAt(script, 4));
    SoloNext(i, n, Solo(m, Completion(UndoUser), From(script, 2)));
    SoloNext(i, n, Solo(m1, Completion(UndoAuth), From(script, 3)));
    SoloNext(i, n, Solo(m2, Completion(PublishVerificationFailed), From(script, 4)));
  }

  lemma ThreeNotes(m: Shared, i: nat, sent: bool)
    ensures var userId := match m.session case Some(row) => row.userId case None => "";
            var m1 := Logged(m, UserDeactivated(i, SessionUser(m)));
            var m2 := Logged(m1, AuthDeactivated(i, SessionUser(m)));
            && SessionUser(m1) == SessionUser(m) == SessionUser(m2)
            && Logged(m2, FailedEvent(i, sent))
               == m.(log := m.log + [UserDeactivated(i, userId), AuthDeactivated(i, userId), FailedEvent(i, sent)])
  {
  }

  lemma UndoingMoves(m: Shared, i: nat, c: Choice)
    ensures StepCompletion(m, i, Completion(UndoUser), c)
            == Move(Logged(m, UserDeactivated(i, SessionUser(m))), Completion(UndoAuth), None)
    ensures StepCompletion(m, i, Completion(UndoAuth), c)
            == Move(Logged(m, AuthDeactivated(i, SessionUser(m))), Completion(PublishVerificationFailed), None)
    ensures StepCompletion(m, i, Completion(PublishVerificationFailed), c)
            == Move(Logged(m, FailedEvent(i, c.Ok?)), Completion(CompletionDone(false)), None)
  {
  }

  lemma {:induction false} CompletionReachesCall(m: Shared, i: nat, n: nat, script: Script, f: nat)
    requires f <= 7 && forall k :: 0 <= k < f ==> CallAt(script, k).Ok?
    ensures RunSolo(i, n, Solo(m, Completion(CallVerify), script))
            == RunSolo(i, n, Solo(BeforeCall(m, f), Completion(COMPLETION_PCS[f]), From(script, f)))
  {
    hide RunSolo, From, CallAt, Head, Tail, StepCompletion, BeforeCall;
    CallByCall(script);
    if f == 0 {
      NothingBefore(m);
    } else {
      CompletionReachesCall(m, i, n, script, f - 1);
      SoloNext(i, n, Solo(BeforeCall(m, f - 1), Completion(COMPLETION_PCS[f - 1]), From(script, f - 1)));
      CompletionWorks(m, i, f - 1);
    }
  }

  lemma NothingBefore(m: Shared)
    ensures BeforeCall(m, 0) == m
  {
  }

  lemma {:induction false} CompletionRunsTo(m: Shared, i: nat, n: nat, script: Script)
    ensures var (m', ok) := CompletionOutcome(m, i, script);
            var end := RunSolo(i, n, Solo(m, Completion(CallVerify), script));
            end.mem == m' && end.proc == Completion(CompletionDone(ok))
  {
    hide RunSolo, From, CallAt, Head, Tail, FirstFailure, BeforeCall, VerificationWork, FailureOutcome;
    CallByCall(script);
    SoloEnds(i, n);
    var f := FirstFailure(script, 7);
    CompletionReachesCall(m, i, n, script, f);
    var before := BeforeCall(m, f);
    SoloNext(i, n, Solo(before, Completion(COMPLETION_PCS[f]), From(script, f)));
    if f < 7 {
      CompletionFails(m, i, f);
      FailureEnds(VerificationWork(m, f), i, n, f >= 2, From(script, f + 1));
    } else {
      assert before == VerificationWork(m, 7) by { BeforeLast(m); }
    }
  }

  lemma BeforeLast(m: Shared)
    ensures BeforeCall(m, 7) == VerificationWork(m, 7)
  {
  }

  // ----- GetRegistrationStatus

  /** Calls: read the session, claim it. */
  function StatusOutcome(m: Shared, clientId: string, script: Script): (Shared, Option<SessionStatus>) {
    if CallAt(script, 0).Err? || m.session.None? || m.session.value.clientId != clientId then (m, None)
    else if m.session.value.status != Completed then (m, Some(m.session.value.status))
    else if CallAt(script, 1).Err? then (m, None)
    else
      (m.(session := Some(m.session.value.(status := TokensClaimed)),
          log := m.log + [SessionWritten(TokensClaimed), TokenReturned]), Some(Completed))
  }

  lemma {:induction false} StatusRunsTo(m: Shared, i: nat, n: nat, clientId: string, script: Script)
    ensures var (m', answer) := StatusOutcome(m, clientId, script);
            var end := RunSolo(i, n, Solo(m, StatusCall(clientId, ReadForStatus), script));
            end.mem == m' && end.proc == StatusCall(clientId, StatusDone(answer))
  {
    hide RunSolo, From, CallAt, Head, Tail, StepHandler, StepVerify, StepCompletion, StepStart, StepDispatch;
    CallByCall(script);
    SoloEnds(i, n);
    SoloNext(i, n, Solo(m, StatusCall(clientId, ReadForStatus), From(script, 0)));
    SoloNext(i, n, Solo(m, StatusCall(clientId, Claim), From(script, 1)));
    assert m.log + [SessionWritten(TokensClaimed)] + [TokenReturned]
        == m.log + [SessionWritten(TokensClaimed), TokenReturned];
  }

  // ----- The dispatch goroutine

  /** failStartStep.  Calls: fail the step, fail the session; both are made. */
  function StartFailure(m: Shared, key: StepKey, script: Script): Shared {
    m.(steps := if CallAt(script, 0).Ok? then UpdatedStep(m.steps, key, StepFailed) else m.steps,
       session := if CallAt(script, 1).Ok? then UpdatedSession(m.session, Failed) else m.session,
       log := if CallAt(script, 1).Ok? then m.log + [SessionWritten(Failed)] else m.log)
  }

  /** What has happened when the first `f` of its five calls have succeeded and the next
      one, if any, has been made: the session and two steps `in_progress`, two commands
      published. */
  function DispatchWork(m: Shared, f: nat): Shared {
    var first := if f >= 2 then UpdatedStep(m.steps, UserCreateProfile, StepInProgress) else m.steps;
    m.(session := if f >= 1 then UpdatedSession(m.session, InProgress) else m.session,
       steps := if f >= 3 then UpdatedStep(first, AuthCreatePending, StepInProgress) else first,
       log := if f >= 1 then m.log + [SessionWritten(InProgress)] else m.log,
       userSent := m.userSent || f >= 3,
       authSent := m.authSent || f >= 4)
  }

  /** The calls up to the first failing one; a command that could not be published fails
      its step and the session. */
  function DispatchOutcome(m: Shared, script: Script): Shared {
    var f := FirstFailure(script, 5);
    var worked := DispatchWork(m, f);
    if f == 3 then StartFailure(worked, UserCreateProfile, From(script, 4))
    else if f == 4 then StartFailure(worked, AuthCreatePending, From(script, 5))
    else worked
  }

  const DISPATCH_PCS: seq<DispatchPc> := [MarkSession, MarkUser, MarkAuth, SendUser, SendAuth]

  /** Before its `f`-th call; an attempt to publish is noted by the call itself. */
  function BeforeMark(m: Shared, f: nat): Shared {
    DispatchWork(m, f).(userSent := m.userSent || f >= 4, authSent := m.authSent || f >= 5)
  }

  lemma StartFailureEnds(m: Shared, i: nat, n: nat, lost: Result, script: Script)
    ensures RunSolo(i, n, Solo(m, Dispatch(FailStep(lost)), script)).mem
            == StartFailure(m, match lost case UserResult => UserCreateProfile case AuthResult => AuthCreatePending
                               case MailResult => MailSendCode, script)
  {
    hide RunSolo, From, CallAt, Head, Tail, StepStart, StepDispatch, StepHandler, StepVerify, StepCompletion,
      StepStatusCall, WroteStep, WroteSession;
    CallByCall(script);
    SoloEnds(i, n);
    StartFailureUnfolds(m, lost, script);
    FailStepMoves(m, lost, CallAt(script, 0));
    SoloNext(i, n, Solo(m, Dispatch(FailStep(lost)), From(script, 0)));
    var m1 := if CallAt(script, 0).Ok? then WroteStep(m, lost.Key(), StepFailed) else m;
    FailSessionMoves(m1, lost, CallAt(script, 0).Ok?, CallAt(script, 1));
    SoloNext(i, n, Solo(m1, Dispatch(FailSession(lost, CallAt(script, 0).Ok?)), From(script, 1)));
  }

  lemma StartFailureUnfolds(m: Shared, lost: Result, script: Script)
    ensures var m1 := if CallAt(script, 0).Ok? then WroteStep(m, lost.Key(), StepFailed) else m;
            (if CallAt(script, 1).Ok? then WroteSession(m1, Failed) else m1)
            == StartFailure(m, match lost case UserResult => UserCreateProfile case AuthResult => AuthCreatePending
                               case MailResult => MailSendCode, script)
  {
    hide CallAt, UpdatedStep, UpdatedSession;
  }

  lemma FailStepMoves(m: Shared, lost: Result, c: Choice)
    ensures var v := StepDispatch(m, Dispatch(FailStep(lost)), c);
            && v.mem == (if c.Ok? then WroteStep(m, lost.Key(), StepFailed) else m)
            && v.proc == Dispatch(FailSession(lost, c.Ok?))
  {
  }

  lemma FailSessionMoves(m: Shared, lost: Result, stepWritten: bool, c: Choice)
    ensures var v := StepDispatch(m, Dispatch(FailSession(lost, stepWritten)), c);
            && v.mem == (if c.Ok? then WroteSession(m, Failed) else m)
            && v.proc == Dispatch(DispatchDone(c.Ok? && stepWritten, Some(lost)))
  {
  }

  lemma DispatchWorks(m: Shared, f: nat)
    requires f < 5
    ensures var v := StepDispatch(BeforeMark(m, f), Dispatch(DISPATCH_PCS[f]), Ok);
            && v.mem == BeforeMark(m, f + 1)
            && v.proc == Dispatch(if f == 4 then DispatchDone(true, None) else DISPATCH_PCS[f + 1])
  {
    hide UpdatedStep;
  }

  lemma DispatchStops(m: Shared, f: nat)
    requires f < 5
    ensures var v := StepDispatch(BeforeMark(m, f), Dispatch(DISPATCH_PCS[f]), Err);
            && v.mem == DispatchWork(m, f)
            && v.proc == Dispatch(if f == 3 then FailStep(UserResult) else if f == 4 then FailStep(AuthResult)
                                  else DispatchDone(false, None))
  {
    hide UpdatedStep;
  }

  lemma {:induction false} DispatchReachesCall(m: Shared, i: nat, n: nat, script: Script, f: nat)
    requires f <= 5 && forall k :: 0 <= k < f ==> CallAt(script, k).Ok?
    ensures RunSolo(i, n, Solo(m, Dispatch(MarkSession), script))
            == RunSolo(i, n, Solo(BeforeMark(m, f),
              Dispatch(if f == 5 then DispatchDone(true, None) else DISPATCH_PCS[f]), From(script, f)))
  {
    hide RunSolo, From, CallAt, Head, Tail, StepDispatch, BeforeMark;
    CallByCall(script);
    if f == 0 {
      NothingMarked(m);
    } else {
      DispatchReachesCall(m, i, n, script, f - 1);
      SoloNext(i, n, Solo(BeforeMark(m, f - 1), Dispatch(DISPATCH_PCS[f - 1]), From(script, f - 1)));
      DispatchWorks(m, f - 1);
    }
  }

  lemma NothingMarked(m: Shared)
    ensures BeforeMark(m, 0) == m && BeforeMark(m, 5) == DispatchWork(m, 5)
  {
  }

  lemma {:induction false} DispatchRunsTo(m: Shared, i: nat, n: nat, script: Script)
    ensures RunSolo(i, n, Solo(m, Dispatch(MarkSession), script)).mem == DispatchOutcome(m, script)
  {
    hide RunSolo, From, CallAt, Head, Tail, FirstFailure, BeforeMark, DispatchWork, StartFailure;
    CallByCall(script);
    SoloEnds(i, n);
    var f := FirstFailure(script, 5);
    DispatchReachesCall(m, i, n, script, f);
    NothingMarked(m);
    if f < 5 {
      SoloNext(i, n, Solo(BeforeMark(m, f), Dispatch(DISPATCH_PCS[f]), From(script, f)));
      DispatchStops(m, f);
      StartFailureEnds(DispatchWork(m, f), i, n, if f == 3 then UserResult else AuthResult, From(script, f + 1));
    }
  }

  // ----- Without call failures

  /** What a VerifyEmail answers, and leaves behind, for every stored status when no call
      fails: a stranger, a missing session and every status but `completed`, `code_sent`
      and `in_progress` are refused, and only a session without a verify step has its
      verification launched. */
  lemma {:induction false} VerifyAnswers(realtime: bool, events: seq<Event>, clientId: string, i: nat, n: nat)
    requires var m := After(Init(realtime), events).mem; m.lock == None && !HasStatus(m, InProgress)
    ensures var m := After(Init(realtime), events).mem;
            var end := RunSolo(i, n, Solo(m, VerifyCall(clientId, ReadForVerify), []));
            && end.proc.VerifyCall? && end.proc.verify.VerifyDone?
            && (end.mem, end.proc.verify.answer)
               == if m.session.None? || m.session.value.clientId != clientId then (m, None)
                  else if m.session.value.status == Completed then (m, Some(Completed))
                  else if m.session.value.status == CodeSent && VerifyEmailCode !in m.steps then
                    (InVerification(m, n, m.log + [VerifyInserted, SessionWritten(VerifyingEmail), Launched]),
                     Some(VerifyingEmail))
                  else (m, None)
  {
    hide After, RunSolo, LaunchOutcome;
    var m := After(Init(realtime), events).mem;
    AlwaysVerified(realtime, events);
    VerifyRunsTo(m, i, n, clientId, []);
    if m.session.Some? { LaunchWithoutFailures(m, i, n); }
  }

  /** And for a session that is `in_progress`: it is reconciled first.  Completed steps
      make it `code_sent` and have its verification launched, unless it has a verify step;
      a failed step has the registration compensated; incomplete steps leave it
      `in_progress`, refused. */
  lemma {:induction false} VerifyReconciles(realtime: bool, events: seq<Event>, clientId: string, i: nat, n: nat)
    requires var m := After(Init(realtime), events).mem; m.lock == None && HasStatus(m, InProgress)
    ensures var m := After(Init(realtime), events).mem;
            var row, status := m.session.value, Aggregate(m.steps);
            var end := RunSolo(i, n, Solo(m, VerifyCall(clientId, ReadForVerify), []));
            var log := m.log + [SnapshotTaken(m.steps), SessionWritten(status)];
            && end.proc.VerifyCall? && end.proc.verify.VerifyDone?
            && (end.mem, end.proc.verify.answer)
               == if row.clientId != clientId then (m, None)
                  else if status == Failed then
                    (m.(session := Some(row.(status := Failed)),
                        log := log + [SessionWritten(Failed), UserDeactivated(i, row.userId),
                                      AuthDeactivated(i, row.userId), FailedEvent(i, true)]), None)
                  else if status == CodeSent && VerifyEmailCode !in m.steps then
                    (InVerification(m, n, log + [VerifyInserted, SessionWritten(VerifyingEmail), Launched]),
                     Some(VerifyingEmail))
                  else (m.(session := Some(row.(status := status)), log := log), None)
  {
    hide After, RunSolo, Aggregate, SyncOutcome, LaunchOutcome;
    var m := After(Init(realtime), events).mem;
    AlwaysStructured(realtime, events);
    AlwaysVerified(realtime, events);
    VerifyRunsTo(m, i, n, clientId, []);
    SyncWithoutFailures(m, i);
    LaunchWithoutFailures(SyncOutcome(m, i, []).mem, i, n);
  }

  /** The session while its verification is being launched. */
  function InVerification(m: Shared, n: nat, log: seq<Effect>): Shared
    requires m.session.Some?
  {
    m.(session := Some(m.session.value.(status := VerifyingEmail)),
       steps := m.steps[VerifyEmailCode := StepInProgress][ActivateUser := StepPending],
       verifier := Some(n), log := log)
  }

  lemma SyncWithoutFailures(m: Shared, i: nat)
    requires m.session.Some? && m.session.value.userId != ""
    ensures var status, row := Aggregate(m.steps), m.session.value;
            var log := m.log + [SnapshotTaken(m.steps), SessionWritten(status)];
            SyncOutcome(m, i, [])
            == Call(m.(session := Some(row.(status := status)),
                       log := if status != Failed then log
                       else log + [SessionWritten(Failed), UserDeactivated(i, row.userId),
                                   AuthDeactivated(i, row.userId), FailedEvent(i, true)]), true, [])
  {
    hide Aggregate;
  }

  lemma LaunchWithoutFailures(m: Shared, i: nat, n: nat)
    requires m.session.Some? && (ActivateUser in m.steps ==> VerifyEmailCode in m.steps)
    ensures LaunchOutcome(m, i, n, [])
            == if VerifyEmailCode in m.steps then (m, None)
               else
                 (InVerification(m, n, m.log + [VerifyInserted, SessionWritten(VerifyingEmail), Launched]),
                  Some(VerifyingEmail))
  {
  }

  /** A verification whose `f`-th call is the first to fail, while the calls of its failure
      path succeed: the session is `failed` and so is the verify step, if one of the first
      two calls failed, or else the activate step; the session's user and auth record are
      deactivated and registration.failed is published. */
  lemma {:induction false} FailedVerification(m: Shared, i: nat, n: nat, script: Script, f: nat)
    requires m.session.Some? && VerifyEmailCode in m.steps && ActivateUser in m.steps
    requires f < 7 && CallAt(script, f).Err?
    requires forall k :: 0 <= k <= f + 5 && k != f ==> CallAt(script, k).Ok?
    ensures var end := RunSolo(i, n, Solo(m, Completion(CallVerify), script)).mem;
            var key := if f < 2 then VerifyEmailCode else ActivateUser;
            var userId := m.session.value.userId;
            && end.session == Some(m.session.value.(status := Failed))
            && key in end.steps && end.steps[key] == StepFailed
            && end.log == m.log + WORK_LOG[..WORK_LOGGED[f]]
               + [SessionWritten(Failed), UserDeactivated(i, userId), AuthDeactivated(i, userId), FailedEvent(i, true)]
  {
    hide RunSolo, From;
    CompletionRunsTo(m, i, n, script);
    assert FirstFailure(script, 7) == f;
    WorkKeeps(m, f);
    CallsFrom(script, f + 1);
  }

  lemma WorkKeeps(m: Shared, f: nat)
    requires m.session.Some? && f < 7
    ensures var worked := VerificationWork(m, f);
            && worked.session.Some? && m.session.value == worked.session.value.(status := m.session.value.status)
            && forall key :: key in m.steps ==> key in worked.steps
  {
  }

  /** One whose calls all succeed completes. */
  lemma {:induction false} SuccessfulVerification(m: Shared, i: nat, n: nat)
    requires m.session.Some? && VerifyEmailCode in m.steps && ActivateUser in m.steps
    ensures var end := RunSolo(i, n, Solo(m, Completion(CallVerify), [])).mem;
            && end.session == Some(m.session.value.(status := Completed))
            && end.steps == m.steps[VerifyEmailCode := StepCompleted][ActivateUser := StepCompleted]
            && end.log == m.log + [CodeVerified, SessionWritten(ActivatingUser), ActivateCalled, ActivateSucceeded,
                                   SessionWritten(Completed), CompletedEvent]
  {
    hide RunSolo;
    CompletionRunsTo(m, i, n, []);
    assert FirstFailure([], 7) == 7;
  }
}
