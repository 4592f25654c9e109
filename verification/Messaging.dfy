/** Deduplicated consumption with bounded retry, as a state machine. */
module Messaging {
  // The claim/handle/release wrapper runs inside the Kafka workers' retry and dead-letter
  // loop.  Any number of workers, messages and duplicates of one event run interleaved.

  import opened Domain

  /** A message of the topic or of the retry topic; `wellFormed` says that its envelope
      unwraps. */
  datatype Msg = Msg(id: string, attempts: nat, wellFormed: bool)

  /** Who put an event id into the store.  The claimant is auxiliary: transitions only
      ask whether the id is there. */
  datatype Claim = HeldBy(worker: nat) | Kept | Stuck

  datatype Outcome = Delivered | DeadLettered

  datatype Stage =
    | Claiming
    | Handling
    | Releasing(permanent: bool)
    | Failing(permanent: bool)          // about to retry or dead-letter
    | Committing(outcome: Outcome)

  datatype Worker =
    | Idle
    | Busy(lineage: nat, msg: Msg, stage: Stage)
    | Stopped(lineage: nat)             // a queue write or a commit failed

  /** A message keeps its lineage number through its retries. */
  datatype Note =
    | Took(lineage: nat)
    | Stepped(lineage: nat)
    | Succeeded(id: string)
    | ReleaseFailed(id: string)
    | Refused(lineage: nat)             // the handler called the failure permanent
    | Buried(lineage: nat)
    | Ended(lineage: nat, outcome: Outcome)

  /** Where a lineage is (auxiliary). */
  datatype Fate = Waiting | With(worker: nat) | Over(outcome: Outcome) | Dropped(worker: nat)

  datatype Consumer = Consumer(
    max: nat,
    store: map<string, Claim>,
    queue: map<nat, Msg>,
    workers: seq<Worker>,
    notes: multiset<Note>,
    entered: seq<Msg>,                  // by lineage, as first published
    fates: seq<Fate>)

  datatype Choice = Ok | Err | PermanentErr

  datatype Event = Enter(msg: Msg) | Take(k: nat, lineage: nat) | Run(k: nat, choice: Choice)

  predicate Enabled(c: Consumer, e: Event) {
    match e
    case Enter(msg) => msg.attempts >= 1
    case Take(k, l) => k < |c.workers| && c.workers[k].Idle? && l in c.queue && l < |c.fates|
    case Run(k, _) => k < |c.workers| && c.workers[k].Busy? && c.workers[k].lineage < |c.fates|
  }

  /** Effect of one call of worker `k`: the store, the worker's next stage, where its
      message now is, the retry it enqueues, and what an observer notes. */
  datatype Move = Move(store: map<string, Claim>, worker: Worker, fate: Fate, retry: Option<Msg>, note: Option<Note>)

  function Step(max: nat, store: map<string, Claim>, k: nat, w: Worker, choice: Choice): Move
    requires w.Busy?
  {
    var l, msg := w.lineage, w.msg;
    match w.stage
    case Claiming =>
      if !choice.Ok? then Move(store, w.(stage := Failing(false)), With(k), None, None)
      else if msg.id in store then Move(store, w.(stage := Committing(Delivered)), With(k), None, None)
      else Move(store[msg.id := HeldBy(k)], w.(stage := Handling), With(k), None, None)
    case Handling =>
      if choice.Ok? then
        Move(store[msg.id := Kept], w.(stage := Committing(Delivered)), With(k), None, Some(Succeeded(msg.id)))
      else
        Move(store, w.(stage := Releasing(choice.PermanentErr?)), With(k), None,
             if choice.PermanentErr? then Some(Refused(l)) else None)
    case Releasing(permanent) =>
      if choice.Ok? then Move(store - {msg.id}, w.(stage := Failing(permanent)), With(k), None, None)
      else Move(store[msg.id := Stuck], w.(stage := Failing(permanent)), With(k), None, Some(ReleaseFailed(msg.id)))
    case Failing(permanent) =>
      if !choice.Ok? then Move(store, Stopped(l), Dropped(k), None, None)
      else if !permanent && msg.attempts < max then
        // no commit: the worker goes straight to its next message
        Move(store, Idle, Waiting, Some(msg.(attempts := msg.attempts + 1)), None)
      else Move(store, w.(stage := Committing(DeadLettered)), With(k), None, Some(Buried(l)))
    case Committing(outcome) =>
      if !choice.Ok? then Move(store, Stopped(l), Dropped(k), None, None)
      else Move(store, Idle, Over(outcome), None, Some(Ended(l, outcome)))
  }

  function Noting(note: Option<Note>): multiset<Note> {
    match note case None => multiset{} case Some(n) => multiset{n}
  }

  function Exec(c: Consumer, e: Event): Consumer {
    if !Enabled(c, e) then c
    else
      match e
      case Enter(msg) =>
        c.(queue := c.queue[|c.fates| := msg], entered := c.entered + [msg], fates := c.fates + [Waiting])
      case Take(k, l) =>
        var msg := c.queue[l];
        c.(queue := c.queue - {l},
           workers := c.workers[k := Busy(l, msg, if msg.wellFormed then Claiming else Failing(false))],
           fates := c.fates[l := With(k)],
           notes := c.notes + multiset{Took(l), Stepped(l)})
      case Run(k, choice) =>
        var l := c.workers[k].lineage;
        var v := Step(c.max, c.store, k, c.workers[k], choice);
        c.(store := v.store,
           workers := c.workers[k := v.worker],
           fates := c.fates[l := v.fate],
           queue := if v.retry.Some? then c.queue[l := v.retry.value] else c.queue,
           notes := c.notes + Noting(v.note) + multiset{Stepped(l)})
  }

  function Init(max: nat, workers: nat): Consumer {
    Consumer(max, map[], map[], seq(workers, _ => Idle), multiset{}, [], [])
  }

  function After(c: Consumer, events: seq<Event>): Consumer {
    if events == [] then c
    else Exec(After(c, events[..|events| - 1]), events[|events| - 1])
  }

  // ----- Claims: who is in the store, and why

  predicate HoldsClaim(w: Worker, id: string) {
    w.Busy? && (w.stage.Handling? || w.stage.Releasing?) && w.msg.id == id
  }

  ghost predicate ClaimExplained(c: Consumer, id: string) {
    && c.notes[Succeeded(id)] == Tally(c.store, id, Kept)
    && c.notes[ReleaseFailed(id)] == Tally(c.store, id, Stuck)
    && (id in c.store && c.store[id].HeldBy? ==>
          c.store[id].worker < |c.workers| && HoldsClaim(c.workers[c.store[id].worker], id))
  }

  ghost predicate Claimed(c: Consumer) {
    && (forall id :: ClaimExplained(c, id))
    && (forall k :: 0 <= k < |c.workers| ==> KeepsClaims(c.store, k, c.workers[k]))
  }

  ghost predicate KeepsClaims(store: map<string, Claim>, k: nat, w: Worker) {
    forall id :: HoldsClaim(w, id) ==> id in store && store[id] == HeldBy(k)
  }

  /** A step of worker `k`, seen by its own claim, by the claims of others and by the tally. */
  lemma StepClaims(max: nat, store: map<string, Claim>, k: nat, w: Worker, choice: Choice)
    requires w.Busy? && KeepsClaims(store, k, w)
    ensures var v := Step(max, store, k, w, choice);
            && KeepsClaims(v.store, k, v.worker)
            && (forall j, q :: j != k && KeepsClaims(store, j, q) ==> KeepsClaims(v.store, j, q))
  {
    assert HoldsClaim(w, w.msg.id) || w.stage.Claiming? || w.stage.Failing? || w.stage.Committing?;
  }

  /** What the store says of an id, as tallies of successes and failed releases. */
  function Tally(store: map<string, Claim>, id: string, claim: Claim): nat {
    if id in store && store[id] == claim then 1 else 0
  }

  lemma StepTallies(max: nat, store: map<string, Claim>, k: nat, w: Worker, choice: Choice, id: string)
    requires w.Busy? && KeepsClaims(store, k, w)
    requires id in store && store[id] == HeldBy(k) ==> HoldsClaim(w, id)
    ensures var v := Step(max, store, k, w, choice);
            && Tally(v.store, id, Kept) == Tally(store, id, Kept) + (if v.note == Some(Succeeded(id)) then 1 else 0)
            && Tally(v.store, id, Stuck)
              == Tally(store, id, Stuck) + (if v.note == Some(ReleaseFailed(id)) then 1 else 0)
            && (id in v.store && v.store[id].HeldBy? ==>
                  if v.store[id].worker == k then HoldsClaim(v.worker, id) else id in store && store[id] == v.store[id])
  {
    assert HoldsClaim(w, w.msg.id) || w.stage.Claiming? || w.stage.Failing? || w.stage.Committing?;
  }

  lemma RunClaimed(c: Consumer, k: nat, choice: Choice)
    requires Enabled(c, Run(k, choice)) && Claimed(c)
    ensures Claimed(Exec(c, Run(k, choice)))
  {
    hide Step, HoldsClaim, Tally;
    var c' := Exec(c, Run(k, choice));
    StepClaims(c.max, c.store, k, c.workers[k], choice);
    forall id ensures ClaimExplained(c', id) {
      assert ClaimExplained(c, id);
      StepTallies(c.max, c.store, k, c.workers[k], choice, id);
    }
    forall j | 0 <= j < |c.workers| ensures KeepsClaims(c'.store, j, c'.workers[j]) {
      if j != k { assert KeepsClaims(c.store, j, c.workers[j]); }
    }
  }

  lemma ExecClaimed(c: Consumer, e: Event)
    requires Claimed(c)
    ensures Claimed(Exec(c, e))
  {
    if Enabled(c, e) && e.Run? {
      RunClaimed(c, e.k, e.choice);
    } else {
      forall id ensures ClaimExplained(Exec(c, e), id) { assert ClaimExplained(c, id); }
    }
  }

  lemma {:induction false} AlwaysClaimed(max: nat, workers: nat, events: seq<Event>)
    ensures Claimed(After(Init(max, workers), events))
  {
    if events != [] {
      hide Claimed, Exec;
      AlwaysClaimed(max, workers, events[..|events| - 1]);
      ExecClaimed(After(Init(max, workers), events[..|events| - 1]), events[|events| - 1]);
    }
  }

  predicate BothHold(c: Consumer, j: nat, k: nat, id: string)
    requires j < |c.workers| && k < |c.workers|
  {
    HoldsClaim(c.workers[j], id) && HoldsClaim(c.workers[k], id)
  }

  ghost predicate InFlight(c: Consumer, id: string) {
    exists k :: 0 <= k < |c.workers| && HoldsClaim(c.workers[k], id)
  }

  /** For every interleaving of deliveries of an event: at most one handler is in
      flight, at most one succeeds, none runs after it; and the id is in the store
      exactly while its handler is in flight, or once it succeeded, or once a release
      failed, of which at most one is the case. */
  lemma {:induction false} ExactlyOnce(max: nat, workers: nat, events: seq<Event>, id: string)
    ensures var c := After(Init(max, workers), events);
            && (forall j, k :: 0 <= j < |c.workers| && 0 <= k < |c.workers| && BothHold(c, j, k, id) ==> j == k)
            && c.notes[Succeeded(id)] + c.notes[ReleaseFailed(id)] + (if InFlight(c, id) then 1 else 0)
               == if id in c.store then 1 else 0
  {
    hide After;
    AlwaysClaimed(max, workers, events);
    var c := After(Init(max, workers), events);
    assert ClaimExplained(c, id);
    if id in c.store && c.store[id].HeldBy? { assert HoldsClaim(c.workers[c.store[id].worker], id); }
  }

  // ----- Lineages: every message ends, once, after a bounded number of deliveries

  /** How often a message entering with `attempts` is delivered at most. */
  function Rounds(max: nat, attempts: nat): nat {
    if attempts < max then max - attempts + 1 else 1
  }

  /** Calls made for the current delivery, the take included. */
  function StageDone(stage: Stage): nat {
    match stage
    case Claiming => 1
    case Handling => 2
    case Releasing(_) => 3
    case Failing(_) => 4
    case Committing(_) => 5
  }

  /** A message is `first` after some retries. */
  predicate RetryOf(max: nat, msg: Msg, first: Msg) {
    msg.id == first.id && msg.wellFormed == first.wellFormed
    && first.attempts <= msg.attempts && (msg.attempts == first.attempts || msg.attempts <= max)
  }

  /** What has been noted about one lineage. */
  datatype Record = Record(took: nat, stepped: nat, refused: nat, buried: nat, delivered: nat, dead: nat)

  ghost function RecordOf(notes: multiset<Note>, l: nat): Record {
    Record(notes[Took(l)], notes[Stepped(l)], notes[Refused(l)], notes[Buried(l)],
           notes[Ended(l, Delivered)], notes[Ended(l, DeadLettered)])
  }

  /** A dead letter was refused as permanent or is out of retries. */
  predicate BurialDue(max: nat, first: Msg, r: Record) {
    r.buried <= 1 && (r.buried == 1 && r.refused == 0 ==> r.took == Rounds(max, first.attempts))
  }

  predicate Queued(max: nat, first: Msg, msg: Msg, r: Record) {
    && RetryOf(max, msg, first) && r.took == msg.attempts - first.attempts && r.stepped <= 5 * r.took
    && r.buried == 0 && r.delivered == 0 && r.dead == 0
  }

  predicate Processed(max: nat, first: Msg, msg: Msg, stage: Stage, r: Record) {
    && RetryOf(max, msg, first) && r.took == msg.attempts - first.attempts + 1
    && r.stepped <= 5 * (r.took - 1) + StageDone(stage)
    && (stage == Releasing(true) || stage == Failing(true) ==> r.refused > 0)
    && r.buried == (if stage == Committing(DeadLettered) then 1 else 0) && BurialDue(max, first, r)
    && r.delivered == 0 && r.dead == 0
  }

  predicate Ending(max: nat, first: Msg, fate: Fate, r: Record) {
    && 1 <= r.took <= Rounds(max, first.attempts) && r.stepped <= 5 * r.took + 1 && BurialDue(max, first, r)
    && r.delivered == (if fate == Over(Delivered) then 1 else 0)
    && r.dead == (if fate == Over(DeadLettered) then 1 else 0)
    && (fate.Over? ==> r.buried == r.dead)
  }

  ghost predicate Traced(c: Consumer, l: nat)
    requires l < |c.fates| == |c.entered|
  {
    var first, r := c.entered[l], RecordOf(c.notes, l);
    match c.fates[l]
    case Waiting => l in c.queue && Queued(c.max, first, c.queue[l], r)
    case With(k) =>
      && k < |c.workers| && c.workers[k].Busy? && c.workers[k].lineage == l
      && Processed(c.max, first, c.workers[k].msg, c.workers[k].stage, r)
    case Over(outcome) => Ending(c.max, first, Over(outcome), r)
    case Dropped(k) =>
      k < |c.workers| && c.workers[k] == Stopped(l) && Ending(c.max, first, Dropped(k), r)
  }

  ghost predicate Located(c: Consumer) {
    && |c.fates| == |c.entered|
    && (forall l :: l in c.queue ==> l < |c.fates| && c.fates[l] == Waiting)
    && (forall k :: 0 <= k < |c.workers| && c.workers[k].Busy? ==>
          c.workers[k].lineage < |c.fates| && c.fates[c.workers[k].lineage] == With(k))
    && (forall l :: 0 <= l < |c.fates| ==> Traced(c, l))
    && (forall note :: note in c.notes ==>
          (note.Took? || note.Stepped? || note.Refused? || note.Buried? || note.Ended?) ==> note.lineage < |c.fates|)
  }

  /** The record of a lineage after a call of the worker that has it. */
  lemma StepTraces(max: nat, store: map<string, Claim>, k: nat, w: Worker, choice: Choice, first: Msg, r: Record)
    requires w.Busy? && Processed(max, first, w.msg, w.stage, r)
    ensures var v := Step(max, store, k, w, choice);
            var r' := r.(stepped := r.stepped + 1,
                         refused := r.refused + (if v.note == Some(Refused(w.lineage)) then 1 else 0),
                         buried := r.buried + (if v.note == Some(Buried(w.lineage)) then 1 else 0),
                         delivered := r.delivered + (if v.note == Some(Ended(w.lineage, Delivered)) then 1 else 0),
                         dead := r.dead + (if v.note == Some(Ended(w.lineage, DeadLettered)) then 1 else 0));
            match v.fate
            case Waiting => v.worker.Idle? && v.retry.Some? && Queued(max, first, v.retry.value, r')
            case With(_) =>
              && v.fate == With(k) && v.retry.None? && v.worker.Busy? && v.worker.lineage == w.lineage
              && Processed(max, first, v.worker.msg, v.worker.stage, r')
            case Over(outcome) => !v.worker.Busy? && v.retry.None? && Ending(max, first, v.fate, r')
            case Dropped(_) =>
              v.fate == Dropped(k) && v.worker == Stopped(w.lineage) && v.retry.None? && Ending(max, first, v.fate, r')
  {
  }

  /** Notes of a step concern its own lineage or an event id. */
  lemma StepNotes(max: nat, store: map<string, Claim>, k: nat, w: Worker, choice: Choice)
    requires w.Busy?
    ensures var note := Step(max, store, k, w, choice).note;
            note.Some? ==>
              note.value.Succeeded? || note.value.ReleaseFailed?
              || (!note.value.Took? && !note.value.Stepped? && note.value.lineage == w.lineage)
  {
  }

  lemma RecordsAdd(notes: multiset<Note>, note: Option<Note>, l: nat, other: nat)
    requires note.Some? ==>
               note.value.Succeeded? || note.value.ReleaseFailed?
               || (!note.value.Took? && !note.value.Stepped? && note.value.lineage == l)
    ensures var notes' := notes + Noting(note) + multiset{Stepped(l)};
            var r, r' := RecordOf(notes, l), RecordOf(notes', l);
            && r' == r.(stepped := r.stepped + 1,
                        refused := r.refused + (if note == Some(Refused(l)) then 1 else 0),
                        buried := r.buried + (if note == Some(Buried(l)) then 1 else 0),
                        delivered := r.delivered + (if note == Some(Ended(l, Delivered)) then 1 else 0),
                        dead := r.dead + (if note == Some(Ended(l, DeadLettered)) then 1 else 0))
            && (other != l ==> RecordOf(notes', other) == RecordOf(notes, other))
  {
  }

  lemma RunLocated(c: Consumer, k: nat, choice: Choice)
    requires Enabled(c, Run(k, choice)) && Located(c)
    ensures Located(Exec(c, Run(k, choice)))
  {
    hide Step, Processed, Queued, Ending, RecordOf;
    var c', w := Exec(c, Run(k, choice)), c.workers[k];
    var l := w.lineage;
    var v := Step(c.max, c.store, k, w, choice);
    assert Traced(c, l);
    StepTraces(c.max, c.store, k, w, choice, c.entered[l], RecordOf(c.notes, l));
    StepNotes(c.max, c.store, k, w, choice);
    forall other | 0 <= other < |c'.fates| ensures Traced(c', other) {
      RecordsAdd(c.notes, v.note, l, other);
      if other != l { assert Traced(c, other); }
    }
  }

  lemma TakeLocated(c: Consumer, k: nat, l: nat)
    requires Enabled(c, Take(k, l)) && Located(c)
    ensures Located(Exec(c, Take(k, l)))
  {
    var c' := Exec(c, Take(k, l));
    assert Traced(c, l);
    forall other | 0 <= other < |c'.fates| ensures Traced(c', other) {
      assert Traced(c, other);
    }
  }

  lemma EnterLocated(c: Consumer, msg: Msg)
    requires Enabled(c, Enter(msg)) && Located(c)
    ensures Located(Exec(c, Enter(msg)))
  {
    var c' := Exec(c, Enter(msg));
    forall l | 0 <= l < |c'.fates| ensures Traced(c', l) {
      if l < |c.fates| { assert Traced(c, l); }
    }
  }

  lemma ExecLocated(c: Consumer, e: Event)
    requires Located(c)
    ensures Located(Exec(c, e))
  {
    hide Located;
    if Enabled(c, e) {
      match e {
        case Enter(msg) => EnterLocated(c, msg);
        case Take(k, l) => TakeLocated(c, k, l);
        case Run(k, choice) => RunLocated(c, k, choice);
      }
    }
  }

  lemma {:induction false} AlwaysLocated(max: nat, workers: nat, events: seq<Event>)
    ensures Located(After(Init(max, workers), events))
  {
    if events != [] {
      hide Located, Exec;
      AlwaysLocated(max, workers, events[..|events| - 1]);
      ExecLocated(After(Init(max, workers), events[..|events| - 1]), events[|events| - 1]);
    }
  }

  /** In every run: a message entering with attempt `a` is delivered at most
      max(1, M - a + 1) times and takes a bounded number of calls; it ends at most once,
      as delivered or in the dead-letter topic, and gets there only when the handler
      called the failure permanent or every retry was used. */
  lemma {:induction false} RetriesBounded(max: nat, workers: nat, events: seq<Event>, l: nat)
    requires l < |After(Init(max, workers), events).entered|
    ensures var c := After(Init(max, workers), events);
            var rounds := Rounds(c.max, c.entered[l].attempts);
            && c.notes[Took(l)] <= rounds
            && c.notes[Stepped(l)] <= 5 * rounds + 1
            && c.notes[Ended(l, Delivered)] + c.notes[Ended(l, DeadLettered)] <= 1
            && c.notes[Buried(l)] <= 1
            && (c.notes[Ended(l, DeadLettered)] == 1 ==> c.notes[Buried(l)] == 1)
            && (c.notes[Ended(l, Delivered)] == 1 ==> c.notes[Buried(l)] == 0)
            && (c.notes[Buried(l)] == 1 && c.notes[Refused(l)] == 0 ==> c.notes[Took(l)] == rounds)
  {
    hide After;
    AlwaysLocated(max, workers, events);
    assert Traced(After(Init(max, workers), events), l);
  }

  /** Nothing waits and no worker is busy or stopped. */
  predicate Drained(c: Consumer) {
    c.queue == map[] && forall k :: 0 <= k < |c.workers| ==> c.workers[k].Idle?
  }

  predicate NoneStopped(c: Consumer) {
    forall k :: 0 <= k < |c.workers| ==> !c.workers[k].Stopped?
  }

  /** Nothing blocks: until it is drained, a consumer none of whose workers stopped can
      take a step on a message it has. */
  lemma {:induction false} NeverStuck(max: nat, workers: nat, events: seq<Event>) returns (e: Event)
    requires workers > 0
    requires var c := After(Init(max, workers), events); NoneStopped(c) && !Drained(c)
    ensures !e.Enter? && Enabled(After(Init(max, workers), events), e)
  {
    hide After;
    AlwaysLocated(max, workers, events);
    WorkersStay(max, workers, events);
    var c := After(Init(max, workers), events);
    if k :| 0 <= k < |c.workers| && c.workers[k].Busy? {
      e := Run(k, Ok);
    } else {
      var l :| l in c.queue;
      assert c.workers[0].Idle?;
      e := Take(0, l);
    }
  }

  lemma {:induction false} WorkersStay(max: nat, workers: nat, events: seq<Event>)
    ensures var c := After(Init(max, workers), events); |c.workers| == workers && c.max == max
  {
    if events != [] {
      hide Step;
      WorkersStay(max, workers, events[..|events| - 1]);
    }
  }

  // ----- No event is lost silently

  /** The consumer is done with the message and reports it as delivered. */
  predicate Acked(c: Consumer, l: nat)
    requires l < |c.fates|
  {
    match c.fates[l]
    case Over(outcome) => outcome == Delivered
    case With(k) => k < |c.workers| && c.workers[k].Busy? && c.workers[k].stage == Committing(Delivered)
    case _ => false
  }

  ghost predicate Pending(c: Consumer, id: string)
    requires |c.fates| == |c.entered|
  {
    exists l :: 0 <= l < |c.fates| && c.entered[l].id == id && !Acked(c, l)
  }

  ghost predicate NotLost(c: Consumer, id: string)
    requires |c.fates| == |c.entered|
  {
    c.notes[Succeeded(id)] > 0 || c.notes[ReleaseFailed(id)] > 0 || Pending(c, id)
  }

  ghost predicate Careful(c: Consumer) {
    |c.fates| == |c.entered| && forall l :: 0 <= l < |c.entered| ==> NotLost(c, c.entered[l].id)
  }

  /** A worker acknowledges only what was handled, or what somebody else claimed. */
  lemma AcksAreJustified(c: Consumer, k: nat, choice: Choice)
    requires Enabled(c, Run(k, choice)) && Claimed(c) && Located(c)
    requires var v := Step(c.max, c.store, k, c.workers[k], choice);
             v.worker.Busy? && v.worker.stage == Committing(Delivered)
    ensures c.workers[k].stage != Committing(Delivered)
    ensures var id, c' := c.workers[k].msg.id, Exec(c, Run(k, choice));
            && |c'.fates| == |c'.entered| && c.entered[c.workers[k].lineage].id == id && NotLost(c', id)
  {
    var w, c' := c.workers[k], Exec(c, Run(k, choice));
    var id := w.msg.id;
    assert Traced(c, w.lineage);
    assert ClaimExplained(c, id);
    if w.stage.Claiming? && c.store[id].HeldBy? {
      var j := c.store[id].worker;
      assert HoldsClaim(c.workers[j], id) && j != k;
      var l := c.workers[j].lineage;
      assert Traced(c, l);
      assert c'.workers[j] == c.workers[j] && c'.fates[l] == With(j);
      assert c'.entered[l].id == id && !Acked(c', l);
    }
  }

  lemma StepFate(max: nat, store: map<string, Claim>, k: nat, w: Worker, choice: Choice)
    requires w.Busy?
    ensures var v := Step(max, store, k, w, choice);
            && (v.fate.With? ==> v.fate.worker == k && v.worker.Busy?)
            && (v.fate == Over(Delivered) ==> w.stage == Committing(Delivered))
  {
  }

  lemma OthersPending(c: Consumer, k: nat, choice: Choice, id: string)
    requires Enabled(c, Run(k, choice)) && Located(c) && Pending(c, id)
    requires var v := Step(c.max, c.store, k, c.workers[k], choice);
             c.entered[c.workers[k].lineage].id != id || !(v.worker.Busy? && v.worker.stage == Committing(Delivered))
    ensures var c' := Exec(c, Run(k, choice)); |c'.fates| == |c'.entered| && Pending(c', id)
  {
    hide Step, Processed, Queued, Ending, RecordOf;
    var l :| 0 <= l < |c.fates| && c.entered[l].id == id && !Acked(c, l);
    var c' := Exec(c, Run(k, choice));
    assert Traced(c, l);
    StepFate(c.max, c.store, k, c.workers[k], choice);
    assert c'.entered[l].id == id && !Acked(c', l);
  }

  lemma RunCareful(c: Consumer, k: nat, choice: Choice)
    requires Enabled(c, Run(k, choice)) && Claimed(c) && Located(c) && Careful(c)
    ensures Careful(Exec(c, Run(k, choice)))
  {
    var c', w := Exec(c, Run(k, choice)), c.workers[k];
    var v := Step(c.max, c.store, k, w, choice);
    forall l | 0 <= l < |c'.entered| ensures NotLost(c', c'.entered[l].id) {
      var id := c.entered[l].id;
      assert NotLost(c, id);
      if Pending(c, id) {
        if v.worker.Busy? && v.worker.stage == Committing(Delivered) && c.entered[w.lineage].id == id {
          AcksAreJustified(c, k, choice);
        } else {
          OthersPending(c, k, choice, id);
        }
      }
    }
  }

  lemma TakeCareful(c: Consumer, k: nat, l: nat)
    requires Enabled(c, Take(k, l)) && Located(c) && Careful(c)
    ensures Careful(Exec(c, Take(k, l)))
  {
    hide Traced;
    var c' := Exec(c, Take(k, l));
    forall m | 0 <= m < |c'.entered| ensures NotLost(c', c'.entered[m].id) {
      var id := c.entered[m].id;
      assert NotLost(c, id);
      if Pending(c, id) {
        var p :| 0 <= p < |c.fates| && c.entered[p].id == id && !Acked(c, p);
        assert c'.entered[p].id == id && !Acked(c', p);
      }
    }
  }

  lemma EnterCareful(c: Consumer, msg: Msg)
    requires Enabled(c, Enter(msg)) && Located(c) && Careful(c)
    ensures Careful(Exec(c, Enter(msg)))
  {
    hide Traced;
    var c' := Exec(c, Enter(msg));
    forall m | 0 <= m < |c'.entered| ensures NotLost(c', c'.entered[m].id) {
      if m < |c.entered| {
        var id := c.entered[m].id;
        assert NotLost(c, id);
        if Pending(c, id) {
          var p :| 0 <= p < |c.fates| && c.entered[p].id == id && !Acked(c, p);
          assert c'.entered[p].id == id && !Acked(c', p);
        }
      } else {
        assert !Acked(c', m);
      }
    }
  }

  lemma ExecCareful(c: Consumer, e: Event)
    requires Claimed(c) && Located(c) && Careful(c)
    ensures Careful(Exec(c, e))
  {
    hide Claimed, Located, Careful;
    if Enabled(c, e) {
      match e {
        case Enter(msg) => EnterCareful(c, msg);
        case Take(k, l) => TakeCareful(c, k, l);
        case Run(k, choice) => RunCareful(c, k, choice);
      }
    }
  }

  lemma {:induction false} AlwaysCareful(max: nat, workers: nat, events: seq<Event>)
    ensures Careful(After(Init(max, workers), events))
  {
    if events != [] {
      hide Claimed, Located, Careful, Exec;
      AlwaysClaimed(max, workers, events[..|events| - 1]);
      AlwaysLocated(max, workers, events[..|events| - 1]);
      AlwaysCareful(max, workers, events[..|events| - 1]);
      ExecCareful(After(Init(max, workers), events[..|events| - 1]), events[|events| - 1]);
    }
  }

  /** When the consumer is drained, every message has ended exactly once; and every
      event was handled successfully exactly once, or has a message in the dead-letter
      topic, or lost its release: no event is lost silently unless a release failed. */
  lemma {:induction false} DrainedConsumer(max: nat, workers: nat, events: seq<Event>, l: nat)
    requires var c := After(Init(max, workers), events); Drained(c) && l < |c.entered|
    ensures var c := After(Init(max, workers), events);
            var id := c.entered[l].id;
            && c.notes[Ended(l, Delivered)] + c.notes[Ended(l, DeadLettered)] == 1
            && (c.notes[Succeeded(id)] == 1
                || c.notes[ReleaseFailed(id)] == 1
                || exists m :: 0 <= m < |c.entered| && c.entered[m].id == id && c.notes[Ended(m, DeadLettered)] == 1)
  {
    hide After;
    AlwaysLocated(max, workers, events);
    AlwaysCareful(max, workers, events);
    ExactlyOnce(max, workers, events, After(Init(max, workers), events).entered[l].id);
    var c := After(Init(max, workers), events);
    var id := c.entered[l].id;
    assert Traced(c, l);
    assert NotLost(c, id);
    if Pending(c, id) {
      var m :| 0 <= m < |c.fates| && c.entered[m].id == id && !Acked(c, m);
      assert Traced(c, m);
    }
  }

  /** Exactly when an event is lost silently, that is, neither handled successfully nor
      dead-lettered although all its messages have ended: when a release of its claim
      failed. */
  lemma {:induction false} LostIffReleaseFailed(max: nat, workers: nat, events: seq<Event>, l: nat)
    requires var c := After(Init(max, workers), events);
             && Drained(c) && l < |c.entered|
             && forall m ::
               0 <= m < |c.entered| && c.entered[m].id == c.entered[l].id ==> c.notes[Ended(m, DeadLettered)] == 0
    ensures var c := After(Init(max, workers), events);
            c.notes[Succeeded(c.entered[l].id)] == 0 <==> c.notes[ReleaseFailed(c.entered[l].id)] == 1
  {
    hide After;
    DrainedConsumer(max, workers, events, l);
    ExactlyOnce(max, workers, events, After(Init(max, workers), events).entered[l].id);
  }

  // ----- Envelopes that do not unwrap

  /** A worker past the unwrapping has an envelope that unwraps; one without has nothing
      to do but to retry or to dead-letter it. */
  predicate Unwraps(w: Worker) {
    w.Busy? && !w.msg.wellFormed ==> w.stage == Failing(false) || w.stage == Committing(DeadLettered)
  }

  ghost predicate MalformedUnheard(c: Consumer) {
    && (forall k :: 0 <= k < |c.workers| ==> Unwraps(c.workers[k]))
    && (forall l :: 0 <= l < |c.entered| && !c.entered[l].wellFormed ==>
          c.notes[Ended(l, Delivered)] == 0 && c.notes[Refused(l)] == 0)
  }

  lemma StepUnwraps(max: nat, store: map<string, Claim>, k: nat, w: Worker, choice: Choice)
    requires w.Busy? && Unwraps(w)
    ensures var v := Step(max, store, k, w, choice);
            && Unwraps(v.worker)
            && (v.note == Some(Ended(w.lineage, Delivered)) || v.note == Some(Refused(w.lineage)) ==> w.msg.wellFormed)
            && (v.note.Some? && (v.note.value.Ended? || v.note.value.Refused?) ==> v.note.value.lineage == w.lineage)
            && (!w.msg.wellFormed ==> v.store == store)
  {
  }

  lemma ExecMalformed(c: Consumer, e: Event)
    requires Located(c) && MalformedUnheard(c)
    ensures MalformedUnheard(Exec(c, e))
  {
    hide Step, Processed, Queued, Ending, RecordOf;
    if Enabled(c, e) {
      match e {
        case Enter(msg) =>
        case Take(k, l) =>
        case Run(k, choice) =>
          StepUnwraps(c.max, c.store, k, c.workers[k], choice);
          EnteredLikeThis(c, k);
      }
    }
  }

  lemma EnteredLikeThis(c: Consumer, k: nat)
    requires Located(c) && k < |c.workers| && c.workers[k].Busy?
    ensures c.workers[k].lineage < |c.entered|
    ensures c.entered[c.workers[k].lineage].wellFormed == c.workers[k].msg.wellFormed
  {
    assert Traced(c, c.workers[k].lineage);
  }

  lemma {:induction false} AlwaysMalformedUnheard(max: nat, workers: nat, events: seq<Event>)
    ensures MalformedUnheard(After(Init(max, workers), events))
  {
    if events != [] {
      hide Located, MalformedUnheard, Exec;
      AlwaysLocated(max, workers, events[..|events| - 1]);
      AlwaysMalformedUnheard(max, workers, events[..|events| - 1]);
      ExecMalformed(After(Init(max, workers), events[..|events| - 1]), events[|events| - 1]);
    }
  }

  /** In every run no worker claims, handles or releases a malformed envelope, and its
      message is neither refused by the handler nor reported as delivered. */
  lemma {:induction false} MalformedNeverHandled(max: nat, workers: nat, events: seq<Event>, l: nat)
    requires var c := After(Init(max, workers), events); l < |c.entered| && !c.entered[l].wellFormed
    ensures var c := After(Init(max, workers), events);
            && c.notes[Ended(l, Delivered)] == 0 && c.notes[Refused(l)] == 0
            && forall k :: 0 <= k < |c.workers| && c.workers[k].Busy? && c.workers[k].lineage == l ==>
                 !c.workers[k].stage.Claiming? && !c.workers[k].stage.Handling? && !c.workers[k].stage.Releasing?
  {
    hide After, Located;
    AlwaysLocated(max, workers, events);
    AlwaysMalformedUnheard(max, workers, events);
    var c := After(Init(max, workers), events);
    forall k | 0 <= k < |c.workers| && c.workers[k].Busy? && c.workers[k].lineage == l
      ensures c.workers[k].stage == Failing(false) || c.workers[k].stage == Committing(DeadLettered)
    {
      EnteredLikeThis(c, k);
      assert Unwraps(c.workers[k]);
    }
  }

  /** When the consumer is drained, every malformed message has been delivered as often as
      its retries allow and then been dead-lettered. */
  lemma {:induction false} MalformedIsDeadLettered(max: nat, workers: nat, events: seq<Event>, l: nat)
    requires var c := After(Init(max, workers), events); Drained(c) && l < |c.entered| && !c.entered[l].wellFormed
    ensures var c := After(Init(max, workers), events);
            && c.notes[Ended(l, DeadLettered)] == 1 && c.notes[Buried(l)] == 1
            && c.notes[Took(l)] == Rounds(max, c.entered[l].attempts)
  {
    hide After;
    AlwaysLocated(max, workers, events);
    WorkersStay(max, workers, events);
    MalformedNeverHandled(max, workers, events, l);
    var c := After(Init(max, workers), events);
    assert Traced(c, l);
    match c.fates[l] {
      case Over(outcome) => if outcome.Delivered? { assert false; }
      case _ =>
    }
  }

  /** Runs compose. */
  lemma {:induction false} AfterMore(c: Consumer, first: seq<Event>, rest: seq<Event>)
    ensures After(c, first + rest) == After(After(c, first), rest)
  {
    if rest == [] {
      assert first + rest == first;
    } else {
      AfterMore(c, first, rest[..|rest| - 1]);
      assert (first + rest)[..|first + rest| - 1] == first + rest[..|rest| - 1];
    }
  }

  /** A delivery whose handler fails and whose release fails, then its retry. */
  const FAILED_RELEASE: seq<Event> :=
    [Enter(Msg("event", 1, true)), Take(0, 0), Run(0, Ok), Run(0, Err), Run(0, Err), Run(0, Ok)]
  const SKIPPED_RETRY: seq<Event> := [Take(0, 0), Run(0, Ok), Run(0, Ok)]

  /** A one-worker consumer with one message, `event`, that nobody has handled. */
  predicate Stands(c: Consumer, max: nat, store: map<string, Claim>, queue: map<nat, Msg>, w: Worker, delivered: nat) {
    && c.max == max && c.store == store && c.queue == queue && c.workers == [w]
    && |c.fates| == 1 && |c.entered| == 1
    && c.notes[Succeeded("event")] == 0 && c.notes[Buried(0)] == 0 && c.notes[Ended(0, Delivered)] == delivered
  }

  lemma Turn(c: Consumer, max: nat, store: map<string, Claim>, queue: map<nat, Msg>, w: Worker, choice: Choice)
    requires Stands(c, max, store, queue, w, 0) && w.Busy? && w.lineage == 0
    requires var note := Step(max, store, 0, w, choice).note;
             note != Some(Succeeded("event")) && note != Some(Buried(0))
    ensures var v := Step(max, store, 0, w, choice);
            Stands(Exec(c, Run(0, choice)), max, v.store, if v.retry.Some? then queue[0 := v.retry.value]
              else queue, v.worker,
                   if v.note == Some(Ended(0, Delivered)) then 1 else 0)
  {
    hide Step;
  }

  lemma TurnTake(c: Consumer, max: nat, store: map<string, Claim>, msg: Msg)
    requires Stands(c, max, store, map[0 := msg], Idle, 0) && msg.wellFormed
    ensures Stands(Exec(c, Take(0, 0)), max, store, map[], Busy(0, msg, Claiming), 0)
  {
  }

  lemma {:induction false} OneAtATime(c: Consumer, events: seq<Event>)
    requires events != []
    ensures After(c, events) == After(Exec(c, events[0]), events[1..])
  {
    hide Exec;
    AfterMore(c, events[..1], events[1..]);
    assert events == events[..1] + events[1..] && events[..1][..0] == [];
  }

  lemma ReleaseFails(max: nat)
    requires max >= 2
    ensures Stands(After(Init(max, 1), FAILED_RELEASE), max, map["event" := Stuck], map[0 := Msg("event", 2, true)],
            Idle, 0)
  {
    var c0, msg := Init(max, 1), Msg("event", 1, true);
    var c1 := Exec(c0, Enter(msg));
    assert Stands(c1, max, map[], map[0 := msg], Idle, 0);
    hide After, Exec, Stands;
    OneAtATime(c0, FAILED_RELEASE);
    var rest := FAILED_RELEASE[1..];
    assert rest == [Take(0, 0), Run(0, Ok), Run(0, Err), Run(0, Err), Run(0, Ok)];
    FailedDelivery(c1, max, msg);
  }

  lemma FailedDelivery(c: Consumer, max: nat, msg: Msg)
    requires max >= 2 && msg == Msg("event", 1, true) && Stands(c, max, map[], map[0 := msg], Idle, 0)
    ensures Stands(After(c, [Take(0, 0), Run(0, Ok), Run(0, Err), Run(0, Err), Run(0, Ok)]), max,
                   map["event" := Stuck], map[0 := Msg("event", 2, true)], Idle, 0)
  {
    hide Exec, Stands;
    var c1 := Exec(c, Take(0, 0));
    var c2 := Exec(c1, Run(0, Ok));
    var c3 := Exec(c2, Run(0, Err));
    var c4 := Exec(c3, Run(0, Err));
    TurnTake(c, max, map[], msg);
    Turn(c1, max, map[], map[], Busy(0, msg, Claiming), Ok);
    Turn(c2, max, map["event" := HeldBy(0)], map[], Busy(0, msg, Handling), Err);
    Turn(c3, max, map["event" := HeldBy(0)], map[], Busy(0, msg, Releasing(false)), Err);
    assert map["event" := HeldBy(0)]["event" := Stuck] == map["event" := Stuck];
    Turn(c4, max, map["event" := Stuck], map[], Busy(0, msg, Failing(false)), Ok);
    FiveSteps(c, Take(0, 0), Run(0, Ok), Run(0, Err), Run(0, Err), Run(0, Ok));
  }

  lemma FiveSteps(c: Consumer, e1: Event, e2: Event, e3: Event, e4: Event, e5: Event)
    ensures After(c, [e1, e2, e3, e4, e5]) == Exec(Exec(Exec(Exec(Exec(c, e1), e2), e3), e4), e5)
  {
    hide Exec;
    OneAtATime(c, [e1, e2, e3, e4, e5]);
    OneAtATime(Exec(c, e1), [e2, e3, e4, e5]);
    ThreeSteps(Exec(Exec(c, e1), e2), e3, e4, e5);
    assert [e1, e2, e3, e4, e5][1..] == [e2, e3, e4, e5] && [e2, e3, e4, e5][1..] == [e3, e4, e5];
  }

  lemma ThreeSteps(c: Consumer, e1: Event, e2: Event, e3: Event)
    ensures After(c, [e1, e2, e3]) == Exec(Exec(Exec(c, e1), e2), e3)
  {
    hide Exec;
    OneAtATime(c, [e1, e2, e3]);
    OneAtATime(Exec(c, e1), [e2, e3]);
    OneAtATime(Exec(Exec(c, e1), e2), [e3]);
    assert [e1, e2, e3][1..] == [e2, e3] && [e2, e3][1..] == [e3] && [e3][1..] == [];
  }

  /** After a failed release the retry is skipped and acknowledged: the event is
      reported as delivered, was never handled successfully and is not dead-lettered. */
  lemma FailedReleaseLosesEvent(max: nat)
    requires max >= 2
    ensures var c := After(Init(max, 1), FAILED_RELEASE + SKIPPED_RETRY);
            && Drained(c)
            && c.notes[Ended(0, Delivered)] == 1 && c.notes[Succeeded("event")] == 0 && c.notes[Buried(0)] == 0
  {
    hide After, Exec;
    ReleaseFails(max);
    AfterMore(Init(max, 1), FAILED_RELEASE, SKIPPED_RETRY);
    var c, msg := After(Init(max, 1), FAILED_RELEASE), Msg("event", 2, true);
    var c1 := Exec(c, Take(0, 0));
    var c2 := Exec(c1, Run(0, Ok));
    TurnTake(c, max, map["event" := Stuck], msg);
    Turn(c1, max, map["event" := Stuck], map[], Busy(0, msg, Claiming), Ok);
    Turn(c2, max, map["event" := Stuck], map[], Busy(0, msg, Committing(Delivered)), Ok);
    ThreeSteps(c, Take(0, 0), Run(0, Ok), Run(0, Ok));
  }
}
