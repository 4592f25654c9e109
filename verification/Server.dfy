/** The service at work: calls that arrive one after the other, for any sessions, and
    the goroutines they start.  Each session has lived through a run of its state
    machine, so what holds in all runs holds of the service's sessions. */
module Server {
  import opened Domain
  import T = Tables
  import opened Saga
  import opened SagaVerification
  import opened SagaSuccess
  import opened SagaSolo
  import opened SagaOutcomes
  import opened Service

  class RunningService {
    const service: RegistrationService
    ghost var runs: map<string, seq<Event>>

    ghost function RunOf(sid: string): seq<Event>
      reads this
    {
      if sid in runs then runs[sid] else []
    }

    /** Where a session's run has led: its rows and log, and the calls made for it. */
    ghost function StateAt(sid: string): State
      reads this
    {
      After(Init(service.realtime), RunOf(sid))
    }

    /** Every session is as its run left it. */
    ghost predicate Linked()
      reads this, service, service.repo.db
    {
      service.Valid() && forall sid :: StateAt(sid).mem == service.Mem(sid)
    }

    constructor (service: RegistrationService)
      requires service.Valid() && service.repo.db.Value() == T.EMPTY
      requires service.codeSentNotified == {} && service.traces == map[]
      ensures this.service == service && Linked()
    {
      this.service := service;
      runs := map[];
    }

    /** Session `sid` has moved along `more`; the others are as before. */
    ghost method Extend(sid: string, more: seq<Event>, t: T.Tables, notified: set<string>, traces: map<string, Trace>)
      requires service.Valid() && After(Init(service.realtime), more).mem == service.Mem(sid)
      requires service.Rest(sid) == (Elsewhere(t, sid), notified - {sid}, traces - {sid})
      requires forall other ::
              other != sid ==> StateAt(other).mem == MemIn(t, notified, traces, service.realtime, other)
      modifies this`runs
      ensures Linked() && RunOf(sid) == more
      ensures forall other :: other != sid ==> RunOf(other) == old(RunOf(other))
    {
      hide After, MemIn;
      var realtime := service.realtime;
      forall other | other != sid ensures service.Mem(other) == MemIn(t, notified, traces, realtime, other) {
        RestDecides(t, notified, traces, realtime, sid, other);
        RestDecides(service.repo.db.Value(), service.codeSentNotified, service.traces, realtime, sid, other);
      }
      runs := runs[sid := more];
    }

    /** The goroutine waits to be scheduled. */
    ghost predicate Spawned(sid: string, j: nat, goroutine: Proc)
      reads this
    {
      j < |StateAt(sid).procs| && StateAt(sid).procs[j] == goroutine
    }

    /** An accepted Start leaves its dispatch waiting. */
    method Start(sid: string, row: Session, emailTaken: bool, usernameTaken: bool)
      returns (outcome: StartOutcome, ghost j: nat)
      requires Linked() && row.userId != "" && row.status == Started
      modifies this`runs, service`traces, service.repo.db, service.repo.env
      ensures Linked() && old(RunOf(sid)) <= RunOf(sid)
      ensures forall other :: other != sid ==> RunOf(other) == old(RunOf(other))
      ensures outcome.StartAccepted? ==> Spawned(sid, j, Dispatch(MarkSession))
      ensures (service.repo.db.Value(), outcome)
              == RegistrationOutcome(old(service.repo.db.Value()), sid, row, emailTaken, usernameTaken,
                                     old(service.repo.env.script))
    {
      hide After, RunSolo, Spawning, MemIn, RegistrationOutcome;
      ghost var i, before := |StateAt(sid).procs|, MemAt(sid);
      ghost var t, notified, traces := service.repo.db.Value(), service.codeSentNotified, service.traces;
      service.MemFacts(sid);
      ghost var script: Script;
      outcome, script := service.Start(sid, row, emailTaken, usernameTaken, i, i + 1);
      ghost var more := Called(service.realtime, RunOf(sid), StartCall(row, LookupEmail), script);
      StartSpawnsDispatch(i, i + 1, Solo(before, StartCall(row, LookupEmail), script));
      Extend(sid, more, t, notified, traces);
      j := i + 1;
    }

    ghost function MemAt(sid: string): Shared
      reads this
    {
      StateAt(sid).mem
    }

    method DispatchStartCommands(sid: string, ghost j: nat)
      requires Linked() && Spawned(sid, j, Dispatch(MarkSession))
      modifies this`runs, service`traces, service.repo.db, service.repo.env
      ensures Linked() && old(RunOf(sid)) <= RunOf(sid)
      ensures forall other :: other != sid ==> RunOf(other) == old(RunOf(other))
      ensures service.Mem(sid) == DispatchOutcome(old(service.Mem(sid)), old(service.repo.env.script))
    {
      hide After, RunSolo, Spawning, MemIn, DispatchOutcome;
      ghost var n := |StateAt(sid).procs|;
      ghost var t, notified, traces := service.repo.db.Value(), service.codeSentNotified, service.traces;
      service.MemFacts(sid);
      ghost var more := Resumed(service.realtime, RunOf(sid), j, service.repo.env.script);
      service.DispatchStartCommands(sid, j, n);
      Extend(sid, more, t, notified, traces);
    }

    // Results arrive only for commands whose publication was attempted.

    method HandleUserCreateResult(sid: string, success: bool, userId: string) returns (ok: bool)
      requires Linked() && MaySpawn(service.Mem(sid), Handler(UserResult, success, userId, WriteStep))
      modifies this`runs, service`traces, service`codeSentNotified, service.repo.db, service.repo.env
      ensures Linked() && old(RunOf(sid)) <= RunOf(sid)
      ensures forall other :: other != sid ==> RunOf(other) == old(RunOf(other))
      ensures (service.Mem(sid), ok)
              == HandlerOutcome(old(service.Mem(sid)), old(|StateAt(sid).procs|), UserResult, success, userId,
                                old(service.repo.env.script))
    {
      hide After, RunSolo, Spawning, MemIn, MaySpawn, HandlerOutcome;
      ghost var i := |StateAt(sid).procs|;
      ghost var t, notified, traces := service.repo.db.Value(), service.codeSentNotified, service.traces;
      service.MemFacts(sid);
      ghost var more :=
        Called(service.realtime, RunOf(sid), Handler(UserResult, success, userId, WriteStep), service.repo.env.script);
      ok := service.HandleUserCreateResult(sid, success, userId, i, i + 1);
      Extend(sid, more, t, notified, traces);
    }

    method HandleAuthCreatePendingResult(sid: string, success: bool, userId: string) returns (ok: bool)
      requires Linked() && MaySpawn(service.Mem(sid), Handler(AuthResult, success, userId, WriteStep))
      modifies this`runs, service`traces, service`codeSentNotified, service.repo.db, service.repo.env
      ensures Linked() && old(RunOf(sid)) <= RunOf(sid)
      ensures forall other :: other != sid ==> RunOf(other) == old(RunOf(other))
      ensures (service.Mem(sid), ok)
              == HandlerOutcome(old(service.Mem(sid)), old(|StateAt(sid).procs|), AuthResult, success, userId,
                                old(service.repo.env.script))
    {
      hide After, RunSolo, Spawning, MemIn, MaySpawn, HandlerOutcome;
      ghost var i := |StateAt(sid).procs|;
      ghost var t, notified, traces := service.repo.db.Value(), service.codeSentNotified, service.traces;
      service.MemFacts(sid);
      ghost var more :=
        Called(service.realtime, RunOf(sid), Handler(AuthResult, success, userId, WriteStep), service.repo.env.script);
      ok := service.HandleAuthCreatePendingResult(sid, success, userId, i, i + 1);
      Extend(sid, more, t, notified, traces);
    }

    method HandleMailSendResult(sid: string, success: bool, userId: string) returns (ok: bool)
      requires Linked() && MaySpawn(service.Mem(sid), Handler(MailResult, success, userId, WriteStep))
      modifies this`runs, service`traces, service`codeSentNotified, service.repo.db, service.repo.env
      ensures Linked() && old(RunOf(sid)) <= RunOf(sid)
      ensures forall other :: other != sid ==> RunOf(other) == old(RunOf(other))
      ensures (service.Mem(sid), ok)
              == HandlerOutcome(old(service.Mem(sid)), old(|StateAt(sid).procs|), MailResult, success, userId,
                                old(service.repo.env.script))
    {
      hide After, RunSolo, Spawning, MemIn, MaySpawn, HandlerOutcome;
      ghost var i := |StateAt(sid).procs|;
      ghost var t, notified, traces := service.repo.db.Value(), service.codeSentNotified, service.traces;
      service.MemFacts(sid);
      ghost var more :=
        Called(service.realtime, RunOf(sid), Handler(MailResult, success, userId, WriteStep), service.repo.env.script);
      ok := service.HandleMailSendResult(sid, success, userId, i, i + 1);
      Extend(sid, more, t, notified, traces);
    }

    /** An accepted VerifyEmail leaves its completion waiting. */
    method VerifyEmail(sid: string, clientId: string) returns (answer: Option<SessionStatus>, ghost j: nat)
      requires Linked()
      modifies this`runs, service`traces, service.repo.db, service.repo.env
      ensures Linked() && old(RunOf(sid)) <= RunOf(sid)
      ensures forall other :: other != sid ==> RunOf(other) == old(RunOf(other))
      ensures answer == Some(VerifyingEmail) ==> Spawned(sid, j, Completion(CallVerify))
      ensures var i := old(|StateAt(sid).procs|);
              (service.Mem(sid), answer)
              == VerifyOutcome(old(service.Mem(sid)), i, i + 1, clientId, old(service.repo.env.script))
    {
      hide After, RunSolo, Spawning, MemIn, VerifyOutcome;
      ghost var i, before, script := |StateAt(sid).procs|, MemAt(sid), service.repo.env.script;
      ghost var t, notified, traces := service.repo.db.Value(), service.codeSentNotified, service.traces;
      service.MemFacts(sid);
      ghost var more := Called(service.realtime, RunOf(sid), VerifyCall(clientId, ReadForVerify), script);
      answer := service.VerifyEmail(sid, clientId, i, i + 1);
      VerifySpawnsCompletion(i, i + 1, Solo(before, VerifyCall(clientId, ReadForVerify), script));
      Extend(sid, more, t, notified, traces);
      j := i + 1;
    }

    method CompleteEmailVerification(sid: string, ghost j: nat)
      requires Linked() && Spawned(sid, j, Completion(CallVerify))
      modifies this`runs, service`traces, service.repo.db, service.repo.env
      ensures Linked() && old(RunOf(sid)) <= RunOf(sid)
      ensures forall other :: other != sid ==> RunOf(other) == old(RunOf(other))
      ensures service.Mem(sid) == CompletionOutcome(old(service.Mem(sid)), j, old(service.repo.env.script)).0
    {
      hide After, RunSolo, Spawning, MemIn, CompletionOutcome;
      ghost var n := |StateAt(sid).procs|;
      ghost var t, notified, traces := service.repo.db.Value(), service.codeSentNotified, service.traces;
      service.MemFacts(sid);
      ghost var more := Resumed(service.realtime, RunOf(sid), j, service.repo.env.script);
      service.CompleteEmailVerification(sid, j, n);
      Extend(sid, more, t, notified, traces);
    }

    /** `completed` is answered once in the life of a session. */
    method GetRegistrationStatus(sid: string, clientId: string) returns (answer: Option<SessionStatus>)
      requires Linked()
      modifies this`runs, service`traces, service.repo.db, service.repo.env
      ensures Linked() && old(RunOf(sid)) <= RunOf(sid)
      ensures forall other :: other != sid ==> RunOf(other) == old(RunOf(other))
      ensures Count(service.Mem(sid), TokenReturned)
              == Count(old(service.Mem(sid)), TokenReturned) + (if answer == Some(Completed) then 1 else 0)
              <= 1
      ensures (service.Mem(sid), answer)
              == StatusOutcome(old(service.Mem(sid)), clientId, old(service.repo.env.script))
    {
      hide After, RunSolo, Spawning, MemIn, Count;
      ghost var i, before := |StateAt(sid).procs|, MemAt(sid);
      ghost var t, notified, traces := service.repo.db.Value(), service.codeSentNotified, service.traces;
      service.MemFacts(sid);
      ghost var more :=
        Called(service.realtime, RunOf(sid), StatusCall(clientId, ReadForStatus), service.repo.env.script);
      answer := service.GetRegistrationStatus(sid, clientId, i, i + 1);
      Extend(sid, more, t, notified, traces);
      ClaimCounts(before, service.Mem(sid));
      EachSessionOnce(sid);
    }

    lemma ClaimCounts(m: Shared, m': Shared)
      ensures m'.log == m.log + [SessionWritten(TokensClaimed), TokenReturned] ==>
                Count(m', TokenReturned) == Count(m, TokenReturned) + 1
      ensures m'.log == m.log ==> Count(m', TokenReturned) == Count(m, TokenReturned)
    {
    }

    /** After any calls for any sessions: each session has launched its verification,
        called ActivateUser, published its completion and handed out its tokens at most
        once, and told its client `code_sent` at most once. */
    lemma EachSessionOnce(sid: string)
      requires Linked()
      ensures var m := service.Mem(sid);
              && Count(m, Launched) <= 1 && Count(m, ActivateCalled) <= 1 && Count(m, CompletedEvent) <= 1
              && Count(m, TokenReturned) + (if HasStatus(m, Completed) then 1 else 0) <= 1
              && Count(m, CodeSentNotified) <= 1
    {
      hide After, MemIn, Count;
      VerificationAtMostOnce(service.realtime, RunOf(sid));
      TokenClaimAtMostOnce(service.realtime, RunOf(sid));
      CodeSentAtMostOnce(service.realtime, RunOf(sid));
    }
  }
}
