/** A process that runs on its own: the sequential reading of a service call.  A
    script says which of its calls to the database, the brokers and the other
    services fail; an exhausted script means success. */
module SagaSolo {
  import opened Domain
  import opened Saga
  import opened SagaStructure

  type Script = seq<Choice>

  function Head(script: Script): Choice {
    if script == [] then Ok else script[0]
  }

  function Tail(script: Script): Script {
    if script == [] then [] else script[1..]
  }

  predicate Finished(p: Proc) {
    match p
    case StartCall(_, pc) => pc.StartDone?
    case Dispatch(pc) => pc.DispatchDone?
    case Handler(_, _, _, pc) => pc.HandlerDone?
    case VerifyCall(_, pc) => pc.VerifyDone?
    case Completion(pc) => pc.CompletionDone?
    case StatusCall(_, pc) => pc.StatusDone?
  }

  // ----- Every process has a bounded number of steps

  function CompensateLeft(pc: CompensatePc): nat {
    match pc
    case ReadSession => 5
    case WriteFailed(_) => 4
    case DeactivateUser(_) => 3
    case DeactivateAuth(_) => 2
    case PublishFailed => 1
  }

  function SyncLeft(pc: SyncPc): nat {
    match pc
    case Lock => 8
    case Snapshot => 7
    case Commit(_) => 6
    case Compensate(comp) => CompensateLeft(comp)
  }

  function StartLeft(pc: StartPc): nat {
    match pc
    case LookupEmail => 8
    case LookupUsername => 7
    case CheckAvailability => 6
    case InsertSession => 5
    case InsertUserStep => 4
    case InsertAuthStep => 3
    case InsertMailStep => 2
    case SpawnDispatch => 1
    case StartDone(_) => 0
  }

  function DispatchLeft(pc: DispatchPc): nat {
    match pc
    case MarkSession => 7
    case MarkUser => 6
    case MarkAuth => 5
    case SendUser => 4
    case SendAuth => 3
    case FailStep(_) => 2
    case FailSession(_, _) => 1
    case DispatchDone(_, _) => 0
  }

  function HandlerLeft(pc: HandlerPc): nat {
    match pc
    case WriteStep => 12
    case ActivateMail => 11
    case PublishCodeSent => 11
    case HandlerSync(sync) => 2 + SyncLeft(sync)
    case ReadReady => 2
    case Notify => 1
    case DirectCompensate(comp) => CompensateLeft(comp)
    case HandlerDone(_) => 0
  }

  function VerifyLeft(pc: VerifyPc): nat {
    match pc
    case ReadForVerify => 14
    case VerifySync(sync) => 5 + SyncLeft(sync)
    case RereadForVerify => 5
    case InsertVerify => 4
    case InsertActivate => 3
    case SetVerifying => 2
    case Launch => 1
    case VerifyDone(_) => 0
  }

  function CompletionLeft(pc: CompletionPc): nat {
    match pc
    case CallVerify => 13
    case MarkVerified => 12
    case SetActivating => 11
    case MarkActivating => 10
    case CallActivate => 9
    case MarkActivated => 8
    case SetCompleted => 7
    case PublishCompleted => 6
    case FailVerification(_) => 5
    case FailVerificationSession => 4
    case UndoUser => 3
    case UndoAuth => 2
    case PublishVerificationFailed => 1
    case CompletionDone(_) => 0
  }

  function Left(p: Proc): nat {
    match p
    case StartCall(_, pc) => StartLeft(pc)
    case Dispatch(pc) => DispatchLeft(pc)
    case Handler(_, _, _, pc) => HandlerLeft(pc)
    case VerifyCall(_, pc) => VerifyLeft(pc)
    case Completion(pc) => CompletionLeft(pc)
    case StatusCall(_, pc) => if pc.ReadForStatus? then 2 else if pc.Claim? then 1 else 0
  }

  lemma CompensateProgresses(m: Shared, i: nat, given: string, pc: CompensatePc, c: Choice)
    ensures var next := StepCompensate(m, i, given, pc, c).1;
            next.At? ==> CompensateLeft(next.pc) < CompensateLeft(pc)
  {
  }

  lemma SyncProgresses(m: Shared, i: nat, pc: SyncPc, c: Choice)
    ensures var next := StepSync(m, i, pc, c).1; next.At? ==> SyncLeft(next.pc) < SyncLeft(pc)
  {
    hide StepCompensate, Aggregate;
    if pc.Compensate? { CompensateProgresses(m, i, "", pc.comp, c); }
  }

  lemma HandlerProgresses(m: Shared, i: nat, p: Proc, c: Choice)
    requires p.Handler? && !p.handler.HandlerDone?
    ensures var v := StepHandler(m, i, p, c); v.proc.Handler? && HandlerLeft(v.proc.handler) < HandlerLeft(p.handler)
  {
    hide StepCompensate, StepSync, UpdatedStep;
    match p.handler {
      case DirectCompensate(comp) => CompensateProgresses(m, i, p.userId, comp, c);
      case HandlerSync(sync) => SyncProgresses(m, i, sync, c);
      case _ =>
    }
  }

  lemma VerifyProgresses(m: Shared, i: nat, n: nat, p: Proc, c: Choice)
    requires p.VerifyCall? && !p.verify.VerifyDone?
    ensures var v := StepVerify(m, i, n, p, c); v.proc.VerifyCall? && VerifyLeft(v.proc.verify) < VerifyLeft(p.verify)
  {
    hide StepSync;
    if p.verify.VerifySync? { SyncProgresses(m, i, p.verify.sync, c); }
  }

  lemma OthersProgress(m: Shared, i: nat, n: nat, p: Proc, c: Choice)
    requires p.StartCall? || p.Dispatch? || p.StatusCall?
    requires !Finished(p)
    ensures Left(Step(m, i, n, p, c).proc) < Left(p)
  {
    hide UpdatedStep, UpdatedSession;
  }

  lemma CompletionProgresses(m: Shared, i: nat, p: Proc, c: Choice)
    requires p.Completion? && !p.completion.CompletionDone?
    ensures var v := StepCompletion(m, i, p, c);
            v.proc.Completion? && CompletionLeft(v.proc.completion) < CompletionLeft(p.completion)
  {
    hide WroteStep, WroteSession, Logged;
  }

  /** Every step that is not blocked brings its process closer to the end. */
  lemma StepProgresses(m: Shared, i: nat, n: nat, p: Proc, c: Choice)
    requires !Finished(p)
    ensures Left(Step(m, i, n, p, c).proc) < Left(p)
  {
    hide StepHandler, StepVerify, StepCompletion, StepStart, StepDispatch, StepStatusCall;
    match p {
      case Handler(_, _, _, _) => HandlerProgresses(m, i, p, c);
      case VerifyCall(_, _) => VerifyProgresses(m, i, n, p, c);
      case Completion(_) => CompletionProgresses(m, i, p, c);
      case _ => OthersProgress(m, i, n, p, c);
    }
  }

  /** Where a solo run stands. */
  datatype Solo = Solo(mem: Shared, proc: Proc, script: Script)

  /** Process `i` runs to its end; a goroutine it starts would be process `n`. */
  ghost function RunSolo(i: nat, n: nat, r: Solo): (end: Solo)
    ensures Finished(end.proc)
    decreases Left(r.proc)
  {
    if Finished(r.proc) then r
    else
      StepProgresses(r.mem, i, n, r.proc, Head(r.script));
      RunSolo(i, n, Next(i, n, r))
  }

  function Next(i: nat, n: nat, r: Solo): Solo {
    var v := Step(r.mem, i, n, r.proc, Head(r.script));
    Solo(v.mem, v.proc, Tail(r.script))
  }

  // ----- A solo run is a run of the state machine

  lemma {:induction false} AfterFirst(s: State, e: Event, rest: seq<Event>)
    ensures After(s, [e] + rest) == After(Exec(s, e), rest)
  {
    hide Exec;
    var events := [e] + rest;
    if rest == [] {
      assert events == [e] && events[..0] == [];
    } else {
      AfterFirst(s, e, rest[..|rest| - 1]);
      assert events[..|events| - 1] == [e] + rest[..|rest| - 1];
    }
  }

  lemma SpawnersFinish(m: Shared, i: nat, n: nat, p: Proc, c: Choice)
    ensures var v := Step(m, i, n, p, c); v.spawned.Some? ==> Finished(v.proc)
  {
    hide StepSync, StepCompensate, UpdatedStep, UpdatedSession;
  }

  lemma UnblockedAlone(m: Shared, i: nat, p: Proc)
    requires Placed(m, i, p) && (m.lock == None || m.lock == Some(i)) && NeedsRowLock(p)
    ensures m.lock == None
  {
  }

  /** The goroutine that a solo run starts, if any. */
  ghost function Spawning(i: nat, n: nat, r: Solo): Option<Proc>
    decreases Left(r.proc)
  {
    if Finished(r.proc) then None
    else
      var v := Step(r.mem, i, n, r.proc, Head(r.script));
      StepProgresses(r.mem, i, n, r.proc, Head(r.script));
      if v.spawned.Some? then v.spawned else Spawning(i, n, Next(i, n, r))
  }

  function Plus(procs: seq<Proc>, q: Option<Proc>): seq<Proc> {
    match q case None => procs case Some(p) => procs + [p]
  }

  /** Undisturbed, a process never blocks: what it does alone is what some events of
      the state machine do, so every property of runs holds of it. */
  lemma {:induction false} SoloIsARun(s: State, i: nat, script: Script) returns (events: seq<Event>)
    requires Structured(s) && i < |s.procs|
    requires s.mem.lock == None || s.mem.lock == Some(i)
    ensures var r := Solo(s.mem, s.procs[i], script);
            var end := RunSolo(i, |s.procs|, r);
            After(s, events) == State(end.mem, Plus(s.procs[i := end.proc], Spawning(i, |s.procs|, r)))
    ensures forall e :: e in events ==> e.Run? && e.i == i
    decreases Left(s.procs[i])
  {
    hide Step, Structured, NeedsRowLock, Left, Finished;
    var r := Solo(s.mem, s.procs[i], script);
    if Finished(r.proc) {
      events := [];
    } else {
      var c, n := Head(script), |s.procs|;
      var e := Run(i, c);
      StepProgresses(s.mem, i, n, r.proc, c);
      SpawnersFinish(s.mem, i, n, r.proc, c);
      StaysAlone(s, i, c);
      var s' := Exec(s, e);
      assert s'.procs[i] == Next(i, n, r).proc && s'.mem == Next(i, n, r).mem;
      var rest := SoloIsARun(s', i, Tail(script));
      if |s'.procs| != n { assert Finished(s'.procs[i]); }
      AfterFirst(s, e, rest);
      events := [e] + rest;
    }
  }

  /** A Start call starts its dispatch exactly when it ends well. */
  lemma {:induction false} StartSpawnsDispatch(i: nat, n: nat, r: Solo)
    requires r.proc.StartCall? && !r.proc.start.StartDone?
    ensures var end := RunSolo(i, n, r).proc;
            && end.StartCall? && end.row == r.proc.row
            && Spawning(i, n, r) == if end.start == StartDone(true) then Some(Dispatch(MarkSession)) else None
    decreases Left(r.proc)
  {
    hide Step, Left;
    StepProgresses(r.mem, i, n, r.proc, Head(r.script));
    StartStepSpawns(r.mem, i, n, r.proc, Head(r.script));
    if !Finished(Next(i, n, r).proc) { StartSpawnsDispatch(i, n, Next(i, n, r)); }
  }

  lemma StartStepSpawns(m: Shared, i: nat, n: nat, p: Proc, c: Choice)
    requires p.StartCall? && !p.start.StartDone?
    ensures var v := Step(m, i, n, p, c);
            && v.proc.StartCall? && v.proc.row == p.row
            && v.spawned == if v.proc.start == StartDone(true) then Some(Dispatch(MarkSession)) else None
  {
  }

  /** A VerifyEmail starts its completion exactly when it answers `verifying_email`. */
  lemma {:induction false} VerifySpawnsCompletion(i: nat, n: nat, r: Solo)
    requires r.proc.VerifyCall? && !r.proc.verify.VerifyDone?
    ensures var end := RunSolo(i, n, r).proc;
            && end.VerifyCall?
            && Spawning(i, n, r)
               == if end.verify == VerifyDone(Some(VerifyingEmail)) then Some(Completion(CallVerify)) else None
    decreases Left(r.proc)
  {
    hide Step, Left;
    StepProgresses(r.mem, i, n, r.proc, Head(r.script));
    VerifyStepSpawns(r.mem, i, n, r.proc, Head(r.script));
    if !Finished(Next(i, n, r).proc) { VerifySpawnsCompletion(i, n, Next(i, n, r)); }
  }

  lemma VerifyStepSpawns(m: Shared, i: nat, n: nat, p: Proc, c: Choice)
    requires p.VerifyCall? && !p.verify.VerifyDone?
    ensures var v := Step(m, i, n, p, c);
            && v.proc.VerifyCall?
            && v.spawned
               == if v.proc.verify == VerifyDone(Some(VerifyingEmail)) then Some(Completion(CallVerify)) else None
  {
    hide StepSync, UpdatedSession;
  }

  lemma StaysAlone(s: State, i: nat, c: Choice)
    requires Structured(s) && i < |s.procs|
    requires s.mem.lock == None || s.mem.lock == Some(i)
    ensures Enabled(s, Run(i, c))
    ensures var s' := Exec(s, Run(i, c));
            Structured(s') && (s'.mem.lock == None || s'.mem.lock == Some(i))
            && s'.mem == Step(s.mem, i, |s.procs|, s.procs[i], c).mem
            && s'.procs[i] == Step(s.mem, i, |s.procs|, s.procs[i], c).proc
            && s'.procs == Plus(s.procs[i := s'.procs[i]], Step(s.mem, i, |s.procs|, s.procs[i], c).spawned)
  {
    hide Step, NeedsRowLock, Placed, Grounded, OwnStepFine;
    assert Placed(s.mem, i, s.procs[i]);
    if NeedsRowLock(s.procs[i]) { UnblockedAlone(s.mem, i, s.procs[i]); }
    ExecStructured(s, Run(i, c));
    StepFine(s.mem, i, |s.procs|, s.procs[i], c);
    OwnStepParts(s.mem, i, |s.procs|, s.procs[i], Step(s.mem, i, |s.procs|, s.procs[i], c));
  }

  /** A call, from its arrival to its end, continues a run. */
  lemma Called(realtime: bool, run: seq<Event>, p: Proc, script: Script) returns (more: seq<Event>)
    requires var m := After(Init(realtime), run).mem; m.lock == None && MaySpawn(m, p)
    ensures var s := After(Init(realtime), run);
            var i, r := |s.procs|, Solo(s.mem, p, script);
            var end := RunSolo(i, i + 1, r);
            After(Init(realtime), more) == State(end.mem, Plus(s.procs + [end.proc], Spawning(i, i + 1, r)))
    ensures run <= more
  {
    hide After, RunSolo, Spawning, MaySpawn, Structured;
    var s := After(Init(realtime), run);
    AfterLast(Init(realtime), run, Spawn(p));
    SpawnAppends(s, p);
    AlwaysStructured(realtime, run + [Spawn(p)]);
    var s' := Exec(s, Spawn(p));
    var events := SoloIsARun(s', |s.procs|, script);
    assert s'.procs[|s.procs| := RunSolo(|s.procs|, |s.procs| + 1, Solo(s.mem, p, script)).proc]
           == s.procs + [RunSolo(|s.procs|, |s.procs| + 1, Solo(s.mem, p, script)).proc];
    AfterMore(Init(realtime), run + [Spawn(p)], events);
    more := run + [Spawn(p)] + events;
  }

  lemma SpawnAppends(s: State, p: Proc)
    requires MaySpawn(s.mem, p)
    ensures Exec(s, Spawn(p)) == State(s.mem, s.procs + [p])
  {
  }

  /** A goroutine that runs to its end continues a run. */
  lemma Resumed(realtime: bool, run: seq<Event>, j: nat, script: Script) returns (more: seq<Event>)
    requires var s := After(Init(realtime), run); s.mem.lock == None && j < |s.procs|
    ensures var s := After(Init(realtime), run);
            var n, r := |s.procs|, Solo(s.mem, s.procs[j], script);
            var end := RunSolo(j, n, r);
            After(Init(realtime), more) == State(end.mem, Plus(s.procs[j := end.proc], Spawning(j, n, r)))
    ensures run <= more
  {
    hide After, RunSolo, Spawning, Structured;
    AlwaysStructured(realtime, run);
    var events := SoloIsARun(After(Init(realtime), run), j, script);
    AfterMore(Init(realtime), run, events);
    more := run + events;
  }

  // ----- Procedure calls within a solo run

  lemma SoloNext(i: nat, n: nat, r: Solo)
    requires !Finished(r.proc)
    ensures RunSolo(i, n, r) == RunSolo(i, n, Next(i, n, r))
  {
    hide Step, Left;
    StepProgresses(r.mem, i, n, r.proc, Head(r.script));
  }

  /** What a called procedure leaves behind, whether it returned without error, and
      the rest of the script. */
  datatype Call = Call(mem: Shared, ok: bool, script: Script)

  ghost function RunCompensate(m: Shared, i: nat, given: string, pc: CompensatePc, script: Script): Call
    decreases CompensateLeft(pc)
  {
    var (m', next) := StepCompensate(m, i, given, pc, Head(script));
    CompensateProgresses(m, i, given, pc, Head(script));
    match next
    case At(pc') => RunCompensate(m', i, given, pc', Tail(script))
    case Returned(ok) => Call(m', ok, Tail(script))
  }

  ghost function RunSync(m: Shared, i: nat, pc: SyncPc, script: Script): Call
    decreases SyncLeft(pc)
  {
    var (m', next) := StepSync(m, i, pc, Head(script));
    SyncProgresses(m, i, pc, Head(script));
    match next
    case At(pc') => RunSync(m', i, pc', Tail(script))
    case Returned(ok) => Call(m', ok, Tail(script))
  }

  lemma CompensateNext(m: Shared, i: nat, given: string, pc: CompensatePc, script: Script)
    ensures var (m', next) := StepCompensate(m, i, given, pc, Head(script));
            RunCompensate(m, i, given, pc, script)
            == match next
               case At(pc') => RunCompensate(m', i, given, pc', Tail(script))
               case Returned(ok) => Call(m', ok, Tail(script))
  {
  }

  lemma SyncNext(m: Shared, i: nat, pc: SyncPc, script: Script)
    ensures var (m', next) := StepSync(m, i, pc, Head(script));
            RunSync(m, i, pc, script)
            == match next
               case At(pc') => RunSync(m', i, pc', Tail(script))
               case Returned(ok) => Call(m', ok, Tail(script))
  {
    hide StepSync;
  }

  lemma {:induction false} SyncRunsCompensate(m: Shared, i: nat, comp: CompensatePc, script: Script)
    ensures RunSync(m, i, Compensate(comp), script) == RunCompensate(m, i, "", comp, script)
    decreases CompensateLeft(comp)
  {
    hide StepCompensate;
    var (m', next) := StepCompensate(m, i, "", comp, Head(script));
    CompensateProgresses(m, i, "", comp, Head(script));
    if next.At? { SyncRunsCompensate(m', i, next.pc, Tail(script)); }
  }

  lemma {:induction false} HandlerRunsSync(m: Shared, i: nat, n: nat, p: Proc, script: Script)
    requires p.Handler? && p.handler.HandlerSync?
    ensures var call := RunSync(m, i, p.handler.sync, script);
            RunSolo(i, n, Solo(m, p, script))
            == RunSolo(i, n,
              Solo(call.mem, p.(handler := if call.ok then ReadReady else HandlerDone(false)), call.script))
    decreases SyncLeft(p.handler.sync)
  {
    hide StepSync, RunSolo;
    var (m', next) := StepSync(m, i, p.handler.sync, Head(script));
    SyncProgresses(m, i, p.handler.sync, Head(script));
    SoloNext(i, n, Solo(m, p, script));
    if next.At? { HandlerRunsSync(m', i, n, p.(handler := HandlerSync(next.pc)), Tail(script)); }
  }

  lemma {:induction false} VerifyRunsSync(m: Shared, i: nat, n: nat, p: Proc, script: Script)
    requires p.VerifyCall? && p.verify.VerifySync?
    ensures var call := RunSync(m, i, p.verify.sync, script);
            RunSolo(i, n, Solo(m, p, script))
            == RunSolo(i, n,
              Solo(call.mem, p.(verify := if call.ok then RereadForVerify else VerifyDone(None)), call.script))
    decreases SyncLeft(p.verify.sync)
  {
    hide StepSync, RunSolo;
    var (m', next) := StepSync(m, i, p.verify.sync, Head(script));
    SyncProgresses(m, i, p.verify.sync, Head(script));
    SoloNext(i, n, Solo(m, p, script));
    if next.At? { VerifyRunsSync(m', i, n, p.(verify := VerifySync(next.pc)), Tail(script)); }
  }

  lemma {:induction false} HandlerRunsCompensate(m: Shared, i: nat, n: nat, p: Proc, script: Script)
    requires p.Handler? && p.handler.DirectCompensate?
    ensures var call := RunCompensate(m, i, p.userId, p.handler.comp, script);
            RunSolo(i, n, Solo(m, p, script))
            == RunSolo(i, n, Solo(call.mem, p.(handler := HandlerDone(call.ok)), call.script))
    decreases CompensateLeft(p.handler.comp)
  {
    hide StepCompensate, RunSolo;
    var (m', next) := StepCompensate(m, i, p.userId, p.handler.comp, Head(script));
    CompensateProgresses(m, i, p.userId, p.handler.comp, Head(script));
    SoloNext(i, n, Solo(m, p, script));
    if next.At? { HandlerRunsCompensate(m', i, n, p.(handler := DirectCompensate(next.pc)), Tail(script)); }
  }

  /** The three statements of a reconciliation, spelled out for a free lock. */
  lemma SyncUnfolds(m: Shared, i: nat, script: Script)
    requires m.lock == None
    ensures var s1, s2, s3 := Tail(script), Tail(Tail(script)), Tail(Tail(Tail(script)));
            var seen := Logged(m, SnapshotTaken(m.steps));
            var status := Aggregate(m.steps);
            RunSync(m, i, Lock, script)
            == if Head(script).Err? || m.session.None? then Call(m, false, s1)
               else if Head(s1).Err? then Call(m, false, s2)
               else if Head(s2).Err? then Call(seen, false, s3)
               else if status == Failed then RunSync(WroteSession(seen, Failed), i, Compensate(ReadSession), s3)
               else Call(WroteSession(seen, status), true, s3)
  {
    hide RunSync, Aggregate, UpdatedSession;
    SyncNext(m, i, Lock, script);
    var locked := m.(lock := Some(i));
    SyncNext(locked, i, Snapshot, Tail(script));
    SyncNext(Logged(locked, SnapshotTaken(m.steps)), i, Commit(m.steps), Tail(Tail(script)));
    assert Logged(locked, SnapshotTaken(m.steps)).(lock := None) == Logged(m, SnapshotTaken(m.steps));
  }
}
