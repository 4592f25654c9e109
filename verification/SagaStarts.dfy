/** Racing Start calls for one session: at most one wins, only the winner writes, and
    only it sends commands.  A call wins when its INSERT creates the session row, whose
    identity (client, user, email, username) no later statement changes, and whose
    removal no step of the saga asks for. */
module SagaStarts {
  import opened Domain
  import opened Saga
  import opened SagaStructure
  import opened SagaStatements

  /** A Start whose session insert succeeded and that has not failed since. */
  predicate Won(p: Proc) {
    p.StartCall? && (Creating(p.start) || p.start == StartDone(true))
  }

  /** What never changes in a session row. */
  predicate SameIdentity(a: Session, b: Session) {
    a.(status := b.status) == b
  }

  predicate Winner(m: Shared, p: Proc) {
    Won(p) ==> m.session.Some? && SameIdentity(p.row, m.session.value)
  }

  predicate Sole(procs: seq<Proc>) {
    && (forall j, k :: 0 <= j < |procs| && 0 <= k < |procs| && Won(procs[j]) && Won(procs[k]) ==> j == k)
    && (forall j, k :: 0 <= j < |procs| && 0 <= k < |procs| && procs[j].Dispatch? && procs[k].Dispatch? ==> j == k)
    && (forall j, k ::
      0 <= j < |procs| && 0 <= k < |procs| && procs[j].Dispatch? && Won(procs[k]) ==> !Creating(procs[k].start))
  }

  predicate Raced(s: State) {
    && Sole(s.procs)
    && forall j :: 0 <= j < |s.procs| ==> Winner(s.mem, s.procs[j]) && (s.procs[j].Dispatch? ==> s.mem.session.Some?)
  }

  lemma StatementsKeepIdentity(sid: string, m: Shared, i: nat, n: nat, p: Proc, c: Choice)
    requires m.session.Some?
    ensures var m' := Step(m, i, n, p, c).mem;
            m'.session.Some? && SameIdentity(m.session.value, m'.session.value)
  {
    hide Step, StatementAt;
    StepRuns(sid, m, i, n, p, c);
    NeverDeletes(sid, p);
  }

  lemma NeverDeletes(sid: string, p: Proc)
    ensures StatementAt(sid, p).Some? ==> !StatementAt(sid, p).value.DeleteSession?
  {
  }

  /** How a step changes who has won, and what it starts. */
  predicate Race(m: Shared, p: Proc, v: Move) {
    && v.proc.StartCall? == p.StartCall?
    && v.proc.Dispatch? == p.Dispatch?
    && (Won(v.proc) ==> v.proc.row == p.row && (Won(p) || (m.session.None? && v.mem.session == Some(p.row))))
    && (Won(v.proc) && Creating(v.proc.start) && Won(p) ==> Creating(p.start))
    && (v.spawned.Some? ==> !v.spawned.value.StartCall?)
    && (v.spawned.Some? && v.spawned.value.Dispatch? ==>
          Won(p) && Creating(p.start) && Won(v.proc) && !Creating(v.proc.start))
  }

  lemma StartRace(m: Shared, i: nat, n: nat, p: Proc, c: Choice)
    requires p.StartCall?
    ensures Race(m, p, StepStart(m, i, n, p, c))
  {
  }

  lemma StepRace(m: Shared, i: nat, n: nat, p: Proc, c: Choice)
    ensures Race(m, p, Step(m, i, n, p, c))
  {
    hide StepStart, StepSync, StepCompensate, UpdatedStep, UpdatedSession, SessionUser, Creating;
    if p.StartCall? { StartRace(m, i, n, p, c); }
  }

  lemma RunRaced(s: State, i: nat, c: Choice)
    requires Structured(s) && Raced(s) && Enabled(s, Run(i, c))
    ensures Raced(Exec(s, Run(i, c)))
  {
    hide Step, Placed, Grounded, SameIdentity, Creating;
    var m, p, n := s.mem, s.procs[i], |s.procs|;
    var v := Step(m, i, n, p, c);
    StepRace(m, i, n, p, c);
    if m.session.Some? { StatementsKeepIdentity("", m, i, n, p, c); }
    IdentityTrans();
  }

  lemma IdentityTrans()
    ensures forall a, b, d {:trigger SameIdentity(a, b), SameIdentity(b, d)} ::
      SameIdentity(a, b) && SameIdentity(b, d) ==> SameIdentity(a, d)
    ensures forall a :: SameIdentity(a, a)
  {
  }

  lemma ExecRaced(s: State, e: Event)
    requires Structured(s) && Raced(s)
    ensures Raced(Exec(s, e))
  {
    match e {
      case Spawn(p) =>
      case Run(i, c) => hide Step; if Enabled(s, e) { RunRaced(s, i, c); }
      case Redeliver(j) =>
    }
  }

  /** In every run of a session: one winner, one dispatch. */
  lemma {:induction false} AlwaysRaced(realtime: bool, events: seq<Event>)
    ensures Raced(After(Init(realtime), events))
  {
    if events != [] {
      hide Raced, Structured, Exec;
      AlwaysStructured(realtime, events[..|events| - 1]);
      AlwaysRaced(realtime, events[..|events| - 1]);
      ExecRaced(After(Init(realtime), events[..|events| - 1]), events[|events| - 1]);
    }
  }

  /** A Start that has not won and does not win by this step writes no row. */
  lemma LosersWriteNothing(m: Shared, i: nat, n: nat, p: Proc, c: Choice)
    requires p.StartCall? && !Won(p) && !Won(Step(m, i, n, p, c).proc)
    ensures var m' := Step(m, i, n, p, c).mem; m'.session == m.session && m'.steps == m.steps
  {
  }
}
