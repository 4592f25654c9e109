/** When the session status falls: exactly at three kinds of writes, each of which could
    be refused by comparing the new status with the stored one. */
module SagaFalls {
  import opened Domain
  import opened Saga
  import opened SagaStructure
  import opened SagaStatements

  /** `failed` is above everything, so that climbing makes it absorbing. */
  function Height(status: SessionStatus): nat {
    match status
    case Started => 0
    case InProgress => 1
    case CodeSent => 2
    case VerifyingEmail => 3
    case ActivatingUser => 4
    case Completed => 5
    case TokensClaimed => 6
    case Failed => 7
  }

  predicate Climbs(m: Shared, m': Shared) {
    m.session.Some? ==> m'.session.Some? && Height(m.session.value.status) <= Height(m'.session.value.status)
  }

  predicate SyncLowers(pc: SyncPc, height: nat) {
    pc.Commit? && Height(Aggregate(pc.snapshot)) < height
  }

  /** The process is about to write a status below `height`: an aggregate, or one of the
      three statuses that a verification goes through. */
  predicate LowersAt(p: Proc, height: nat) {
    match p
    case Handler(_, _, _, pc) => pc.HandlerSync? && SyncLowers(pc.sync, height)
    case VerifyCall(_, pc) =>
      (pc.VerifySync? && SyncLowers(pc.sync, height)) || (pc.SetVerifying? && Height(VerifyingEmail) < height)
    case Completion(pc) =>
      (pc.SetActivating? && Height(ActivatingUser) < height) || (pc.SetCompleted? && Height(Completed) < height)
    case _ => false
  }

  predicate Lowers(s: State, e: Event) {
    && e.Run? && e.choice.Ok? && Enabled(s, e)
    && s.mem.session.Some? && LowersAt(s.procs[e.i], Height(s.mem.session.value.status))
  }

  /** The status that a process's statement writes over a stored one. */
  lemma StatementWrites(p: Proc, c: Choice)
    ensures var q := StatementOf("", p, c);
            q.Some? && q.value.SetSessionStatus? ==>
              match p
              case Handler(_, _, _, pc) =>
                q.value.to == Failed || (pc.HandlerSync? && pc.sync.Commit?
                  && q.value.to == Aggregate(pc.sync.snapshot))
              case VerifyCall(_, pc) =>
                || q.value.to == Failed
                || (pc.VerifySync? && pc.sync.Commit? && q.value.to == Aggregate(pc.sync.snapshot))
                || (pc.SetVerifying? && q.value.to == VerifyingEmail)
              case Completion(pc) =>
                || q.value.to == Failed
                || (pc.SetActivating? && q.value.to == ActivatingUser)
                || (pc.SetCompleted? && q.value.to == Completed)
              case Dispatch(pc) => q.value.to == Failed || (pc.MarkSession? && q.value.to == InProgress)
              case _ => false
    ensures var q := StatementOf("", p, c);
            && (q.Some? ==> !q.value.DeleteSession?)
            && (q.Some? && q.value.SetSessionStatusIf? ==> q.value.from == Completed && q.value.to == TokensClaimed)
  {
    hide Aggregate;
  }

  /** And what it writes when the process stands at a write of that kind. */
  lemma LoweringStatement(p: Proc, height: nat)
    requires LowersAt(p, height) && height <= 7
    ensures var q := StatementOf("", p, Ok);
            q.Some? && q.value.SetSessionStatus? && Height(q.value.to) < height
  {
    hide Aggregate;
  }

  lemma StepFallsIff(m: Shared, i: nat, n: nat, p: Proc, c: Choice)
    requires Placed(m, i, p) && m.session.Some?
    ensures !Climbs(m, Step(m, i, n, p, c).mem) <==> c.Ok? && LowersAt(p, Height(m.session.value.status))
  {
    hide Step, StatementAt, Aggregate;
    StepRuns("", m, i, n, p, c);
    StatementWrites(p, c);
    var h := Height(m.session.value.status);
    if c.Ok? && LowersAt(p, h) { LoweringStatement(p, h); }
  }

  /** In every reachable state: an event makes the status fall exactly if it is a commit
      whose aggregate lies below the stored status, or a verification write below it. */
  lemma {:induction false} StatusFallsIff(realtime: bool, events: seq<Event>, e: Event)
    ensures var s := After(Init(realtime), events);
            !Climbs(s.mem, Exec(s, e).mem) <==> Lowers(s, e)
  {
    hide After, Step, NeedsRowLock, MaySpawn, LowersAt;
    AlwaysStructured(realtime, events);
    var s := After(Init(realtime), events);
    if e.Run? && Enabled(s, e) && s.mem.session.Some? {
      assert Placed(s.mem, e.i, s.procs[e.i]);
      StepFallsIff(s.mem, e.i, |s.procs|, s.procs[e.i], e.choice);
    }
  }

  /** The status never falls along a run. */
  predicate NeverFalls(realtime: bool, events: seq<Event>) {
    forall t :: 0 <= t < |events| ==>
      Climbs(After(Init(realtime), events[..t]).mem, After(Init(realtime), events[..t + 1]).mem)
  }

  predicate NeverLowers(realtime: bool, events: seq<Event>) {
    forall t :: 0 <= t < |events| ==> !Lowers(After(Init(realtime), events[..t]), events[t])
  }

  /** A run is forward-only exactly if none of its events is a lowering write. */
  lemma ForwardIff(realtime: bool, events: seq<Event>)
    ensures NeverFalls(realtime, events) <==> NeverLowers(realtime, events)
  {
    hide After, Climbs, Lowers;
    if NeverFalls(realtime, events) {
      forall t | 0 <= t < |events| ensures !Lowers(After(Init(realtime), events[..t]), events[t]) {
        assert Climbs(After(Init(realtime), events[..t]).mem, After(Init(realtime), events[..t + 1]).mem);
        EventAt(realtime, events, t);
      }
    }
    if NeverLowers(realtime, events) {
      forall t | 0 <= t < |events|
        ensures Climbs(After(Init(realtime), events[..t]).mem, After(Init(realtime), events[..t + 1]).mem)
      {
        EventAt(realtime, events, t);
      }
    }
  }

  lemma EventAt(realtime: bool, events: seq<Event>, t: nat)
    requires t < |events|
    ensures Climbs(After(Init(realtime), events[..t]).mem, After(Init(realtime), events[..t + 1]).mem)
            <==> !Lowers(After(Init(realtime), events[..t]), events[t])
  {
    hide After, Climbs, Lowers;
    assert events[..t + 1] == events[..t] + [events[t]];
    AfterLast(Init(realtime), events[..t], events[t]);
    StatusFallsIff(realtime, events[..t], events[t]);
  }

  /** Between two points of a run at which the status has fallen there is a lowering write. */
  lemma {:induction false} FallHasLowering(realtime: bool, early: seq<Event>, late: seq<Event>)
    requires early <= late
    requires !Climbs(After(Init(realtime), early).mem, After(Init(realtime), late).mem)
    ensures exists t :: |early| <= t < |late| && Lowers(After(Init(realtime), late[..t]), late[t])
  {
    hide After, Lowers;
    assert |early| == |late| ==> early == late;
    if |early| < |late| {
      var t := |late| - 1;
      var init := late[..t];
      assert late[..t + 1] == late && early <= init;
      EventAt(realtime, late, t);
      if !Lowers(After(Init(realtime), init), late[t]) {
        FallHasLowering(realtime, early, init);
        var u :| |early| <= u < |init| && Lowers(After(Init(realtime), init[..u]), init[u]);
        assert late[..u] == init[..u] && late[u] == init[u];
      }
    }
  }
}
