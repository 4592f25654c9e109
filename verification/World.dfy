/** All registrations together: the sessions of one database, each with its own
    processes, meeting only at the lookups and the unique indexes. */
module World {
  import opened Domain
  import opened Saga
  import opened SagaStructure
  import opened SagaStatements
  import opened SagaStarts
  import opened SagaVerification
  import T = Tables

  /** The sessions something has happened to. */
  datatype World = World(realtime: bool, states: map<string, State>)

  datatype WorldEvent = WorldEvent(sid: string, event: Event)

  function StateOf(w: World, sid: string): State {
    if sid in w.states then w.states[sid] else Init(w.realtime)
  }

  function StepIds(w: World): set<T.StepId> {
    set sid, key | sid in w.states && key in w.states[sid].mem.steps :: T.StepId(sid, key)
  }

  /** The two tables. */
  function TablesOf(w: World): T.Tables {
    T.Tables(map sid | sid in w.states && w.states[sid].mem.session.Some? :: w.states[sid].mem.session.value,
             map step | step in StepIds(w) :: w.states[step.sessionId].mem.steps[step.key])
  }

  /** What the other sessions' rows mean for a Start: an unfinished holder turns up in
      its lookups, any holder in the INSERT.  A Start that is held up takes its error
      branch instead. */
  ghost predicate Permitted(w: World, we: WorldEvent) {
    var s, e := StateOf(w, we.sid), we.event;
    e.Run? && e.choice.Ok? && e.i < |s.procs| && s.procs[e.i].StartCall? ==>
      var p := s.procs[e.i];
      match p.start
      case LookupEmail => !T.EmailHeld(TablesOf(w), p.row.email)
      case LookupUsername => !T.UsernameHeld(TablesOf(w), p.row.username)
      case InsertSession => s.mem.session.Some? || T.MayInsert(TablesOf(w), we.sid, p.row)
      case _ => true
  }

  ghost function ExecWorld(w: World, we: WorldEvent): World {
    if !Permitted(w, we) then w
    else w.(states := w.states[we.sid := Exec(StateOf(w, we.sid), we.event)])
  }

  ghost function WorldAfter(realtime: bool, events: seq<WorldEvent>): World {
    if events == [] then World(realtime, map[])
    else ExecWorld(WorldAfter(realtime, events[..|events| - 1]), events[|events| - 1])
  }

  // ----- Every session runs its own state machine

  /** The events of one session within a run of the world: what holds in all runs of
      the session's state machine holds of it. */
  lemma {:induction false} SessionRun(realtime: bool, events: seq<WorldEvent>, sid: string) returns (own: seq<Event>)
    ensures StateOf(WorldAfter(realtime, events), sid) == After(Init(realtime), own)
    ensures WorldAfter(realtime, events).realtime == realtime
  {
    if events == [] {
      own := [];
    } else {
      hide Exec, Permitted;
      var we := events[|events| - 1];
      own := SessionRun(realtime, events[..|events| - 1], sid);
      if we.sid == sid && Permitted(WorldAfter(realtime, events[..|events| - 1]), we) {
        assert (own + [we.event])[..|own|] == own;
        own := own + [we.event];
      }
    }
  }

  // ----- The world's steps are SQL statements

  lemma SessionsAfter(w: World, sid: string, s': State)
    ensures TablesOf(w.(states := w.states[sid := s'])).sessions
            == if s'.mem.session.Some? then TablesOf(w).sessions[sid := s'.mem.session.value]
              else TablesOf(w).sessions - {sid}
  {
    hide StepIds;
  }

  lemma StepsAt(w: World, step: T.StepId)
    ensures step in TablesOf(w).steps <==> step.key in StateOf(w, step.sessionId).mem.steps
    ensures step in TablesOf(w).steps ==> TablesOf(w).steps[step] == StateOf(w, step.sessionId).mem.steps[step.key]
  {
  }

  lemma StepsSame(w: World, sid: string, s': State)
    requires s'.mem.steps == StateOf(w, sid).mem.steps
    ensures TablesOf(w.(states := w.states[sid := s'])).steps == TablesOf(w).steps
  {
    hide TablesOf;
    var w' := w.(states := w.states[sid := s']);
    forall step ensures step in TablesOf(w').steps <==> step in TablesOf(w).steps
                ensures step in TablesOf(w').steps ==> TablesOf(w').steps[step] == TablesOf(w).steps[step] {
      StepsAt(w, step);
      StepsAt(w', step);
    }
  }

  lemma StepsSet(w: World, sid: string, s': State, key: StepKey, status: StepStatus)
    requires s'.mem.steps == StateOf(w, sid).mem.steps[key := status]
    ensures TablesOf(w.(states := w.states[sid := s'])).steps == TablesOf(w).steps[T.StepId(sid, key) := status]
  {
    hide TablesOf;
    var w' := w.(states := w.states[sid := s']);
    var expected := TablesOf(w).steps[T.StepId(sid, key) := status];
    forall step ensures step in TablesOf(w').steps <==> step in expected
                ensures step in expected ==> TablesOf(w').steps[step] == expected[step] {
      StepsAt(w, step);
      StepsAt(w', step);
    }
  }

  /** The statement is about session `sid` and one of those the saga issues. */
  predicate About(q: T.Statement, sid: string) {
    match q
    case InsertSession(id, _) => id == sid
    case SetSessionStatus(id, _) => id == sid
    case SetSessionStatusIf(id, _, _) => id == sid
    case InsertStep(step, _) => step.sessionId == sid
    case SetStepStatus(step, _) => step.sessionId == sid
    case _ => false
  }

  lemma SessionAt(w: World, sid: string)
    ensures sid in TablesOf(w).sessions <==> StateOf(w, sid).mem.session.Some?
    ensures sid in TablesOf(w).sessions ==> TablesOf(w).sessions[sid] == StateOf(w, sid).mem.session.value
  {
    hide StepIds;
  }

  lemma StatementChangesTables(w: World, sid: string, s': State, q: T.Statement)
    requires About(q, sid) && Runs(StateOf(w, sid).mem, s'.mem, Some(q))
    requires q.InsertSession? ==> StateOf(w, sid).mem.session.Some? || T.MayInsert(TablesOf(w), sid, q.row)
    ensures TablesOf(w.(states := w.states[sid := s'])) == T.Execute(TablesOf(w), q)
  {
    hide TablesOf, T.MayInsert;
    var s := StateOf(w, sid);
    SessionAt(w, sid);
    SessionsAfter(w, sid, s');
    match q {
      case InsertStep(step, status) =>
        StepsAt(w, step);
        SameEntry(w, sid);
        if s'.mem.steps == s.mem.steps { StepsSame(w, sid, s'); } else { StepsSet(w, sid, s', step.key, status); }
      case SetStepStatus(step, status) =>
        StepsAt(w, step);
        SameEntry(w, sid);
        if s'.mem.steps == s.mem.steps { StepsSame(w, sid, s'); } else { StepsSet(w, sid, s', step.key, status); }
      case InsertSession(_, row) =>
        StepsSame(w, sid, s');
        SameEntry(w, sid);
        InsertDecides(TablesOf(w), sid, row);
      case _ =>
        StepsSame(w, sid, s');
        SameEntry(w, sid);
    }
  }

  lemma InsertDecides(t: T.Tables, sid: string, row: Session)
    ensures sid in t.sessions ==> !T.MayInsert(t, sid, row)
  {
  }

  /** Writing a session's row again, or removing an absent one, changes nothing. */
  lemma SameEntry(w: World, sid: string)
    ensures var sessions := TablesOf(w).sessions;
            if sid in sessions then sessions[sid := sessions[sid]] == sessions else sessions - {sid} == sessions
  {
  }

  lemma StatementsAbout(sid: string, p: Proc)
    ensures StatementAt(sid, p).Some? ==> About(StatementAt(sid, p).value, sid)
    ensures StatementAt(sid, p).Some? && StatementAt(sid, p).value.InsertSession? ==>
              p.StartCall? && p.start.InsertSession? && StatementAt(sid, p).value.row == p.row
  {
    hide Aggregate;
  }

  /** The statement an event of the world executes, if any. */
  ghost function Issued(w: World, we: WorldEvent): Option<T.Statement> {
    var s := StateOf(w, we.sid);
    if we.event.Run? && Permitted(w, we) && Enabled(s, we.event)
    then StatementOf(we.sid, s.procs[we.event.i], we.event.choice)
    else None
  }

  lemma EventIsStatement(w: World, we: WorldEvent)
    ensures TablesOf(ExecWorld(w, we))
            == if Issued(w, we).Some? then T.Execute(TablesOf(w), Issued(w, we).value) else TablesOf(w)
  {
    hide TablesOf, Step, StatementAt, T.Execute, T.MayInsert, T.EmailHeld, T.UsernameHeld, NeedsRowLock, MaySpawn, Runs;
    if Permitted(w, we) {
      var s := StateOf(w, we.sid);
      var s' := Exec(s, we.event);
      if we.event.Run? && Enabled(s, we.event) {
        var p, c := s.procs[we.event.i], we.event.choice;
        StepRuns(we.sid, s.mem, we.event.i, |s.procs|, p, c);
        StatementsAbout(we.sid, p);
        if Issued(w, we).Some? {
          SameRows(s, s', Step(s.mem, we.event.i, |s.procs|, p, c).mem, Issued(w, we));
          StatementChangesTables(w, we.sid, s', Issued(w, we).value);
        } else {
          SameRows(s, s', Step(s.mem, we.event.i, |s.procs|, p, c).mem, None);
          RowsUnchanged(w, we.sid, s');
        }
      } else {
        RowsUnchanged(w, we.sid, s');
      }
    }
  }

  lemma SameRows(s: State, s': State, m': Shared, q: Option<T.Statement>)
    requires s'.mem == m' && Runs(s.mem, m', q)
    ensures Runs(s.mem, s'.mem, q)
    ensures q.None? ==> s'.mem.session == s.mem.session && s'.mem.steps == s.mem.steps
  {
  }

  lemma RowsUnchanged(w: World, sid: string, s': State)
    requires s'.mem.session == StateOf(w, sid).mem.session && s'.mem.steps == StateOf(w, sid).mem.steps
    ensures TablesOf(w.(states := w.states[sid := s'])) == TablesOf(w)
  {
    hide TablesOf;
    SessionAt(w, sid);
    SessionsAfter(w, sid, s');
    StepsSame(w, sid, s');
    SameEntry(w, sid);
  }

  /** Whatever the sessions do, their statements run against one database: its tables
      are theirs, its outbox replays to them, and emails and usernames are unique. */
  lemma {:induction false} WorldRunsStatements(realtime: bool, events: seq<WorldEvent>) returns (qs: seq<T.Statement>)
    ensures var db := T.RunStatements(T.LoggedTables(T.EMPTY, []), qs);
            && db.tables == TablesOf(WorldAfter(realtime, events))
            && T.Replay(db.outbox) == TablesOf(WorldAfter(realtime, events))
    ensures T.Unique(TablesOf(WorldAfter(realtime, events)))
  {
    hide ExecWorld, T.Execute, T.Emitted, T.Unique;
    if events == [] {
      qs := [];
    } else {
      hide TablesOf;
      var w, we := WorldAfter(realtime, events[..|events| - 1]), events[|events| - 1];
      qs := WorldRunsStatements(realtime, events[..|events| - 1]);
      EventIsStatement(w, we);
      if Issued(w, we).Some? {
        assert (qs + [Issued(w, we).value])[..|qs|] == qs;
        qs := qs + [Issued(w, we).value];
      }
    }
    EmptyDatabase();
    T.OutboxReplays(T.LoggedTables(T.EMPTY, []), qs);
    T.IndexesHold(T.LoggedTables(T.EMPTY, []), qs);
  }

  lemma EmptyDatabase()
    ensures T.Replay([]) == T.EMPTY && T.Unique(T.EMPTY)
  {
  }

  /** The schema has no foreign key, yet every step row belongs to a session. */
  lemma {:induction false} StepsHaveSessions(realtime: bool, events: seq<WorldEvent>, step: T.StepId)
    requires step in TablesOf(WorldAfter(realtime, events)).steps
    ensures step.sessionId in TablesOf(WorldAfter(realtime, events)).sessions
  {
    hide TablesOf, WorldAfter, After;
    var w := WorldAfter(realtime, events);
    var own := SessionRun(realtime, events, step.sessionId);
    AlwaysStructured(realtime, own);
    StepsAt(w, step);
    SessionAt(w, step.sessionId);
  }

  /** Racing Start calls: however lookups and inserts interleave, for one session id,
      one email or one username at most one call wins. */
  lemma {:induction false} RacingStarts(realtime: bool, events: seq<WorldEvent>, a: string, i: nat, b: string, j: nat)
    requires var w := WorldAfter(realtime, events);
             && i < |StateOf(w, a).procs| && Won(StateOf(w, a).procs[i])
             && j < |StateOf(w, b).procs| && Won(StateOf(w, b).procs[j])
             && (a == b
                 || StateOf(w, a).procs[i].row.email == StateOf(w, b).procs[j].row.email
                 || StateOf(w, a).procs[i].row.username == StateOf(w, b).procs[j].row.username)
    ensures a == b && i == j
  {
    hide TablesOf, WorldAfter, After;
    var w := WorldAfter(realtime, events);
    var ownA := SessionRun(realtime, events, a);
    var ownB := SessionRun(realtime, events, b);
    AlwaysRaced(realtime, ownA);
    AlwaysRaced(realtime, ownB);
    SessionAt(w, a);
    SessionAt(w, b);
    var _ := WorldRunsStatements(realtime, events);
  }

  // ----- Lookups

  /** Start call `j` of session `sid` looks up its email, or else its username, and no
      unfinished registration holds it. */
  ghost predicate FindsNobody(w: World, we: WorldEvent, sid: string, j: nat, row: Session, byEmail: bool) {
    && we == WorldEvent(sid, Run(j, Ok)) && j < |StateOf(w, sid).procs|
    && StateOf(w, sid).procs[j] == StartCall(row, if byEmail then LookupEmail else LookupUsername)
    && if byEmail then !T.EmailHeld(TablesOf(w), row.email) else !T.UsernameHeld(TablesOf(w), row.username)
  }

  ghost predicate FoundNobody(realtime: bool, events: seq<WorldEvent>, sid: string, j: nat, row: Session,
    byEmail: bool)
  {
    exists t ::
      0 <= t < |events| && FindsNobody(WorldAfter(realtime, events[..t]), events[t], sid, j, row, byEmail)
  }

  /** The Start call has got past the lookup by email, or by username. */
  predicate Past(pc: StartPc, byEmail: bool) {
    !pc.LookupEmail? && pc != StartDone(false) && (byEmail || !pc.LookupUsername?)
  }

  lemma {:induction false} FoundBefore(realtime: bool, events: seq<WorldEvent>, we: WorldEvent, sid: string, j: nat,
    row: Session, byEmail: bool)
    ensures FoundNobody(realtime, events, sid, j, row, byEmail)
            || FindsNobody(WorldAfter(realtime, events), we, sid, j, row, byEmail)
            ==> FoundNobody(realtime, events + [we], sid, j, row, byEmail)
  {
    hide WorldAfter, FindsNobody;
    var more := events + [we];
    assert forall t :: 0 <= t <= |events| ==> more[..t] == events[..t];
    assert events[..|events|] == events;
    if FindsNobody(WorldAfter(realtime, events), we, sid, j, row, byEmail) {
      assert FindsNobody(WorldAfter(realtime, more[..|events|]), more[|events|], sid, j, row, byEmail);
    }
    if FoundNobody(realtime, events, sid, j, row, byEmail) {
      var t :| 0 <= t < |events| && FindsNobody(WorldAfter(realtime, events[..t]), events[t], sid, j, row, byEmail);
      assert FindsNobody(WorldAfter(realtime, more[..t]), more[t], sid, j, row, byEmail);
    }
  }

  /** A step that takes a Start call past a lookup is that lookup. */
  lemma StepPasses(m: Shared, i: nat, n: nat, p: Proc, c: Choice, byEmail: bool)
    ensures var v := Step(m, i, n, p, c);
            && (v.proc.StartCall? && Past(v.proc.start, byEmail) ==>
                  && p.StartCall? && v.proc.row == p.row
                  && (Past(p.start, byEmail)
                      || (c.Ok? && p.start == if byEmail then LookupEmail else LookupUsername)))
            && (v.spawned.Some? ==> !v.spawned.value.StartCall?)
  {
    hide StepSync, StepCompensate, WroteStep, WroteSession, Logged;
  }

  lemma EventPasses(w: World, we: WorldEvent, sid: string, j: nat, byEmail: bool)
    requires var procs := StateOf(ExecWorld(w, we), sid).procs;
             j < |procs| && procs[j].StartCall? && Past(procs[j].start, byEmail)
    ensures var p := StateOf(ExecWorld(w, we), sid).procs[j];
            || FindsNobody(w, we, sid, j, p.row, byEmail)
            || (j < |StateOf(w, sid).procs| && var q := StateOf(w, sid).procs[j];
                q.StartCall? && q.row == p.row && Past(q.start, byEmail))
  {
    hide TablesOf, Step, T.MayInsert, T.EmailHeld, T.UsernameHeld, NeedsRowLock;
    var s, e := StateOf(w, sid), we.event;
    if we.sid == sid && Permitted(w, we) && e.Run? && e.i < |s.procs| {
      StepPasses(s.mem, e.i, |s.procs|, s.procs[e.i], e.choice, byEmail);
    }
  }

  /** Every Start call that got past its lookups made each of them at a moment when no
      unfinished registration held its email, or its username. */
  lemma {:induction false} StartedAfterLookups(realtime: bool, events: seq<WorldEvent>, sid: string, j: nat,
    byEmail: bool)
    requires var procs := StateOf(WorldAfter(realtime, events), sid).procs;
             j < |procs| && procs[j].StartCall? && Past(procs[j].start, byEmail)
    ensures FoundNobody(realtime, events, sid, j, StateOf(WorldAfter(realtime, events), sid).procs[j].row, byEmail)
  {
    if events != [] {
      hide ExecWorld, FoundNobody, FindsNobody;
      var before, we := events[..|events| - 1], events[|events| - 1];
      var w, p := WorldAfter(realtime, before), StateOf(WorldAfter(realtime, events), sid).procs[j];
      assert events == before + [we];
      EventPasses(w, we, sid, j, byEmail);
      FoundBefore(realtime, before, we, sid, j, p.row, byEmail);
      if !FindsNobody(w, we, sid, j, p.row, byEmail) { StartedAfterLookups(realtime, before, sid, j, byEmail); }
    }
  }

  /** A Start call that has not won and does not win by its step leaves both tables alone. */
  lemma {:induction false} LosersLeaveTables(w: World, we: WorldEvent)
    requires var s := StateOf(w, we.sid);
             && we.event.Run? && we.event.i < |s.procs|
             && s.procs[we.event.i].StartCall? && !Won(s.procs[we.event.i])
             && !Won(StateOf(ExecWorld(w, we), we.sid).procs[we.event.i])
    ensures TablesOf(ExecWorld(w, we)) == TablesOf(w)
  {
    hide TablesOf, Step, T.MayInsert, T.EmailHeld, T.UsernameHeld, NeedsRowLock, Won;
    var s := StateOf(w, we.sid);
    var i := we.event.i;
    if Permitted(w, we) {
      if Enabled(s, we.event) { LosersWriteNothing(s.mem, i, |s.procs|, s.procs[i], we.event.choice); }
      RowsUnchanged(w, we.sid, Exec(s, we.event));
    }
  }

  /** With all sessions running together, each one launches its verification, calls
      ActivateUser and hands out its tokens at most once. */
  lemma {:induction false} EverySessionSafe(realtime: bool, events: seq<WorldEvent>, sid: string)
    ensures var m := StateOf(WorldAfter(realtime, events), sid).mem;
            Count(m, Launched) <= 1 && Count(m, ActivateCalled) <= 1 && Count(m, TokenReturned) <= 1
  {
    hide WorldAfter, After, Count;
    var own := SessionRun(realtime, events, sid);
    VerificationAtMostOnce(realtime, own);
    TokenClaimAtMostOnce(realtime, own);
  }
}
