/** The deduplicating wrapper and a Kafka worker as they are written. */
module EventBroker {
  // They run over a store, a topic with its retry topic, and a dead-letter topic.  Every
  // call they make is an event of the messaging state machine, so what holds in its runs
  // holds of them.

  import opened Domain
  import opened Messaging

  /** A header as the worker reads it: `value` is its integer reading, if it has one. */
  datatype Header = Header(key: string, value: Option<int>)

  const RETRY_HEADER := "x-ofm-retry-attempt"

  predicate CarriesAttempt(h: Header) {
    h.key == RETRY_HEADER && h.value.Some? && h.value.value > 0
  }

  predicate FirstAttempt(headers: seq<Header>, k: nat)
    requires k < |headers|
    ensures FirstAttempt(headers, k) ==> CarriesAttempt(headers[k])
  {
    CarriesAttempt(headers[k]) && forall j :: 0 <= j < k ==> !CarriesAttempt(headers[j])
  }

  /** The first usable retry header decides; without one it is the first attempt. */
  method RetryAttempt(headers: seq<Header>) returns (n: int)
    ensures n >= 1
    ensures (forall h :: h in headers ==> !CarriesAttempt(h)) ==> n == 1
    ensures forall k :: 0 <= k < |headers| && FirstAttempt(headers, k) ==> n == headers[k].value.value
  {
    for k := 0 to |headers|
      invariant forall j :: 0 <= j < k ==> !CarriesAttempt(headers[j])
    {
      var h := headers[k];
      if h.key == RETRY_HEADER {
        if h.value.Some? && h.value.value > 0 {
          assert CarriesAttempt(h) && h in headers;
          return h.value.value;
        }
      }
    }
    n := 1;
  }

  datatype HandlerResult = Handled | NotHandled(permanent: bool)

  // ----- The measure of the worker loop

  function Sum(max: nat, entered: seq<Msg>, took: nat -> nat, n: nat): int
    requires n <= |entered|
  {
    if n == 0 then 0 else Sum(max, entered, took, n - 1) + Rounds(max, entered[n - 1].attempts) - took(n - 1)
  }

  /** Deliveries that are left for the messages that have entered. */
  ghost function DeliveriesLeft(c: Consumer): int {
    Sum(c.max, c.entered, (x: nat) => c.notes[Took(x)], |c.entered|)
  }

  lemma {:induction false} SumDrops(max: nat, entered: seq<Msg>, took: nat -> nat, took': nat -> nat, n: nat, l: nat)
    requires n <= |entered|
    requires forall x: nat :: took'(x) == took(x) + (if x == l then 1 else 0)
    ensures Sum(max, entered, took', n) == Sum(max, entered, took, n) - (if l < n then 1 else 0)
  {
    if n > 0 { SumDrops(max, entered, took, took', n - 1, l); }
  }

  lemma {:induction false} SumNatural(max: nat, entered: seq<Msg>, took: nat -> nat, n: nat)
    requires n <= |entered|
    requires forall x :: 0 <= x < n ==> took(x) <= Rounds(max, entered[x].attempts)
    ensures Sum(max, entered, took, n) >= 0
  {
    if n > 0 { SumNatural(max, entered, took, n - 1); }
  }

  // ----- What reaches the dead-letter topic and what is committed

  ghost predicate Counted(notes: multiset<Note>, deadLetters: seq<nat>, committed: seq<nat>) {
    forall l :: multiset(deadLetters)[l] == notes[Buried(l)]
                && multiset(committed)[l] == notes[Ended(l, Delivered)] + notes[Ended(l, DeadLettered)]
  }

  function WithBurial(deadLetters: seq<nat>, note: Option<Note>): seq<nat> {
    if note.Some? && note.value.Buried? then deadLetters + [note.value.lineage] else deadLetters
  }

  function WithEnd(committed: seq<nat>, note: Option<Note>): seq<nat> {
    if note.Some? && note.value.Ended? then committed + [note.value.lineage] else committed
  }

  lemma CountedOn(notes: multiset<Note>, deadLetters: seq<nat>, committed: seq<nat>, note: Option<Note>, l: nat)
    requires Counted(notes, deadLetters, committed)
    ensures Counted(notes + Noting(note)
            + multiset{Stepped(l)}, WithBurial(deadLetters, note), WithEnd(committed, note))
  {
    if note.Some? {
      match note.value {
        case Ended(x, outcome) => match outcome { case Delivered => case DeadLettered => }
        case _ =>
      }
    }
  }

  lemma CountedTake(notes: multiset<Note>, deadLetters: seq<nat>, committed: seq<nat>, l: nat)
    requires Counted(notes, deadLetters, committed)
    ensures Counted(notes + multiset{Took(l), Stepped(l)}, deadLetters, committed)
  {
  }

  // ----- Which calls fail

  function NextCall(script: seq<Choice>): Choice {
    if script == [] then Ok else script[0]
  }

  function LaterCalls(script: seq<Choice>): seq<Choice> {
    if script == [] then [] else script[1..]
  }

  /** The calls of a run went as `plan` says, one entry each, and `script` is what is left. */
  ghost predicate Faithful(plan: seq<Choice>, run: seq<Event>, script: seq<Choice>) {
    if run == [] then script == plan
    else
      var before, e := run[..|run| - 1], run[|run| - 1];
      if e.Run? then exists s :: Faithful(plan, before, s) && e.choice == NextCall(s) && script == LaterCalls(s)
      else Faithful(plan, before, script)
  }

  lemma FaithfulOn(plan: seq<Choice>, run: seq<Event>, script: seq<Choice>, e: Event)
    requires Faithful(plan, run, script)
    requires e.Run? ==> e.choice == NextCall(script)
    ensures Faithful(plan, run + [e], if e.Run? then LaterCalls(script) else script)
  {
    assert (run + [e])[..|run|] == run;
  }

  /** What the wrapper makes of an event: its result, the claims it leaves, whether it
      called the handler, and the rest of the script. */
  datatype Wrapped = Wrapped(result: HandlerResult, claims: set<string>, called: bool, script: seq<Choice>)

  /** Calls: claim, handle, release. */
  function WrapOutcome(id: string, claimed: set<string>, script: seq<Choice>): Wrapped {
    var handle, release := LaterCalls(script), LaterCalls(LaterCalls(script));
    if NextCall(script) != Ok then Wrapped(NotHandled(false), claimed, false, handle)
    else if id in claimed then Wrapped(Handled, claimed, false, handle)
    else if NextCall(handle) == Ok then Wrapped(Handled, claimed + {id}, true, release)
    else
      Wrapped(NotHandled(NextCall(handle) == PermanentErr), if NextCall(release) == Ok then claimed else claimed + {id},
              true, LaterCalls(release))
  }

  class KafkaConsumer {
    const max: nat                       // resilience.DefaultRetryPolicy.MaxAttempts
    var claimed: set<string>             // processed_events
    var topic: map<nat, Msg>             // the topic and its retry topic
    var published: nat
    var handled: seq<string>             // calls of the application's handler
    var deadLetters: seq<nat>
    var committed: seq<nat>
    var script: seq<Choice>              // which calls fail; exhausted means success
    ghost var view: Consumer
    ghost var run: seq<Event>
    ghost const plan: seq<Choice>

    constructor (max: nat, script: seq<Choice>)
      ensures this.max == max && this.script == script && Linked() && view.workers == [Idle]
      ensures view.entered == []
    {
      this.max, this.script, this.plan := max, script, script;
      claimed, topic, published, handled, deadLetters, committed := {}, map[], 0, [], [], [];
      view, run := Init(max, 1), [];
    }

    /** The fields are what the state machine says after the calls made so far. */
    ghost predicate Linked()
      reads this
    {
      && view == After(Init(max, 1), run) && view.max == max && |view.workers| == 1
      && claimed == view.store.Keys && topic == view.queue && published == |view.entered| == |view.fates|
      && Counted(view.notes, deadLetters, committed) && Faithful(plan, run, script)
    }

    /** A stop is final; otherwise the worker waits for its next message. */
    ghost predicate Resting(stopped: bool)
      reads this
    {
      Linked() && (!stopped ==> view.workers == [Idle])
    }

    ghost method Advance(e: Event)
      requires view == After(Init(max, 1), run)
      modifies this`view, this`run
      ensures view == Exec(old(view), e) && view == After(Init(max, 1), run) && run == old(run) + [e]
    {
      view := Exec(view, e);
      assert (run + [e])[..|run|] == run;
      run := run + [e];
    }

    /** A new message on the topic. */
    method Publish(msg: Msg)
      requires Resting(false) && msg.attempts >= 1
      modifies this
      ensures Resting(false) && view.entered == old(view.entered) + [msg]
      ensures claimed == old(claimed) && handled == old(handled) && script == old(script)
    {
      topic := topic[published := msg];
      published := published + 1;
      FaithfulOn(plan, run, script, Enter(msg));
      Advance(Enter(msg));
    }

    /** The worker has message `l` at stage `stage`. */
    ghost predicate Working(l: nat, msg: Msg, stage: Stage)
      reads this
    {
      Linked() && view.workers == [Busy(l, msg, stage)] && l < |view.fates|
    }

    /** The call that belongs to the worker's stage: to the store, the handler or Kafka. */
    method Call(ghost l: nat, ghost msg: Msg, ghost stage: Stage) returns (c: Choice)
      requires Working(l, msg, stage)
      modifies this`script, this`view, this`run
      ensures c == NextCall(old(script)) && script == LaterCalls(old(script)) && Faithful(plan, run, script)
      ensures old(run) <= run
      ensures view == After(Init(max, 1), run)
      ensures var v := Step(old(view).max, old(view).store, 0, Busy(l, msg, stage), c);
              && view.max == old(view).max && view.store == v.store && view.workers == [v.worker]
              && view.queue == (if v.retry.Some? then old(view).queue[l := v.retry.value] else old(view).queue)
              && Counted(view.notes, WithBurial(deadLetters, v.note), WithEnd(committed, v.note))
              && (forall x :: view.notes[Took(x)] == old(view).notes[Took(x)])
              && view.entered == old(view).entered && |view.fates| == |old(view).fates|
    {
      hide Step, Counted, After, Faithful;
      c := if script == [] then Ok else script[0];
      ghost var v := Step(view.max, view.store, 0, Busy(l, msg, stage), c);
      StepNotes(view.max, view.store, 0, Busy(l, msg, stage), c);
      CountedOn(view.notes, deadLetters, committed, v.note, l);
      FaithfulOn(plan, run, script, Run(0, c));
      script := if script == [] then [] else script[1..];
      Advance(Run(0, c));
    }

    /** Claim, handle, release.  `old(script)` says how the three calls end: an event that
        is claimed already is reported as handled without a call of the handler; else the
        handler is called once, and the claim stays unless it fails and is released. */
    method Wrap(ghost l: nat, msg: Msg) returns (r: HandlerResult)
      requires Working(l, msg, Claiming)
      modifies this`claimed, this`handled, this`script, this`view, this`run
      ensures Working(l, msg, if r == Handled then Committing(Delivered) else Failing(r.permanent))
      ensures view.entered == old(view).entered && forall x :: view.notes[Took(x)] == old(view).notes[Took(x)]
      ensures old(run) <= run
      ensures var claim, handle, release := old(script), LaterCalls(old(script)), LaterCalls(LaterCalls(old(script)));
              if NextCall(claim) != Ok then
                r == NotHandled(false) && claimed == old(claimed) && handled == old(handled) && script == handle
              else if msg.id in old(claimed) then
                r == Handled && claimed == old(claimed) && handled == old(handled) && script == handle
              else if NextCall(handle) == Ok then
                && r == Handled && claimed == old(claimed) + {msg.id} && handled == old(handled) + [msg.id]
                && script == release
              else
                && r == NotHandled(NextCall(handle) == PermanentErr) && handled == old(handled) + [msg.id]
                && claimed == (if NextCall(release) == Ok then old(claimed) else old(claimed) + {msg.id})
                && script == LaterCalls(release)
      ensures var w := WrapOutcome(msg.id, old(claimed), old(script));
              && r == w.result && claimed == w.claims && script == w.script
              && handled == if w.called then old(handled) + [msg.id] else old(handled)
    {
      hide Counted, After, Faithful;
      var c := Call(l, msg, Claiming);
      if c != Ok { return NotHandled(false); }
      if msg.id in claimed { return Handled; }
      claimed := claimed + {msg.id};
      r := HandleClaimed(l, msg);
    }

    method HandleClaimed(ghost l: nat, msg: Msg) returns (r: HandlerResult)
      requires Working(l, msg, Handling) && msg.id in claimed
      modifies this`claimed, this`handled, this`script, this`view, this`run
      ensures Working(l, msg, if r == Handled then Committing(Delivered) else Failing(r.permanent))
      ensures view.entered == old(view).entered && forall x :: view.notes[Took(x)] == old(view).notes[Took(x)]
      ensures old(run) <= run && handled == old(handled) + [msg.id]
      ensures if NextCall(old(script)) == Ok then r == Handled && claimed == old(claimed)
              && script == LaterCalls(old(script))
              else
                && r == NotHandled(NextCall(old(script)) == PermanentErr)
                && claimed == (if NextCall(LaterCalls(old(script))) == Ok then old(claimed) - {msg.id}
                  else old(claimed))
                && script == LaterCalls(LaterCalls(old(script)))
    {
      hide Counted, After, Faithful;
      handled := handled + [msg.id];
      var c := Call(l, msg, Handling);
      if c == Ok { return Handled; }
      r := NotHandled(c == PermanentErr);
      Release(l, msg, c == PermanentErr);
    }

    /** An error is ignored. */
    method Release(ghost l: nat, msg: Msg, ghost permanent: bool)
      requires Working(l, msg, Releasing(permanent)) && msg.id in claimed
      modifies this`claimed, this`script, this`view, this`run
      ensures Working(l, msg, Failing(permanent))
      ensures view.entered == old(view).entered && forall x :: view.notes[Took(x)] == old(view).notes[Took(x)]
      ensures old(run) <= run && script == LaterCalls(old(script))
      ensures claimed == if NextCall(old(script)) == Ok then old(claimed) - {msg.id} else old(claimed)
    {
      hide Counted, After, Faithful;
      var c := Call(l, msg, Releasing(permanent));
      if c == Ok { claimed := claimed - {msg.id}; }
    }

    /** A worker receives a message; one that does not unwrap has failed already. */
    method Receive(l: nat) returns (msg: Msg)
      requires Resting(false) && l in topic && l < published
      modifies this`topic, this`view, this`run
      ensures msg == old(topic)[l] && topic == old(topic) - {l} && old(run) <= run
      ensures Working(l, msg, if msg.wellFormed then Claiming else Failing(false))
      ensures view.entered == old(view).entered
      ensures forall x :: view.notes[Took(x)] == old(view).notes[Took(x)] + (if x == l then 1 else 0)
    {
      hide Counted, After, Step, Faithful;
      msg := topic[l];
      topic := topic - {l};
      CountedTake(view.notes, deadLetters, committed, l);
      FaithfulOn(plan, run, script, Take(0, l));
      Advance(Take(0, l));
    }

    /** One message: handle it, then retry it, dead-letter it or commit it.  An envelope
        that does not unwrap never reaches the wrapper: it is a failure that may be
        retried. */
    method Process(l: nat) returns (stopped: bool)
      requires Resting(false) && l in topic && l < published
      modifies this
      ensures Resting(stopped) && old(run) <= run
      ensures view.entered == old(view).entered
      ensures forall x :: view.notes[Took(x)] == old(view).notes[Took(x)] + (if x == l then 1 else 0)
      ensures published == old(published)
      ensures var msg := old(topic)[l];
              var w := if msg.wellFormed then WrapOutcome(msg.id, old(claimed), old(script))
                       else Wrapped(NotHandled(false), old(claimed), false, old(script));
              && claimed == w.claims && handled == (if w.called then old(handled) + [msg.id] else old(handled))
              && if w.result == Handled then
                   && topic == old(topic) - {l} && deadLetters == old(deadLetters)
                   && stopped == (NextCall(w.script) != Ok)
                   && committed == (if stopped then old(committed) else old(committed) + [l])
                 else if NextCall(w.script) != Ok then
                   && stopped && topic == old(topic) - {l} && deadLetters == old(deadLetters)
                   && committed == old(committed)
                 else if !w.result.permanent && msg.attempts < max then
                   && !stopped && topic == old(topic)[l := msg.(attempts := msg.attempts + 1)]
                   && deadLetters == old(deadLetters) && committed == old(committed)
                 else
                   && topic == old(topic) - {l} && deadLetters == old(deadLetters) + [l]
                   && stopped == (NextCall(LaterCalls(w.script)) != Ok)
                   && committed == (if stopped then old(committed) else old(committed) + [l])
    {
      hide Counted, After, Step, Faithful, WrapOutcome, NextCall, LaterCalls;
      var msg := Receive(l);
      assert topic[l := msg.(attempts := msg.attempts + 1)] == old(topic)[l := msg.(attempts := msg.attempts + 1)];
      var r := NotHandled(false);
      if msg.wellFormed { r := Wrap(l, msg); }
      if r.NotHandled? {
        stopped := Recover(l, msg, r.permanent);
        return;
      }
      stopped := Commit(l, msg, Delivered);
    }

    method Commit(l: nat, ghost msg: Msg, ghost outcome: Outcome) returns (stopped: bool)
      requires Working(l, msg, Committing(outcome))
      modifies this`committed, this`script, this`view, this`run
      ensures Resting(stopped) && old(run) <= run
      ensures view.entered == old(view).entered && forall x :: view.notes[Took(x)] == old(view).notes[Took(x)]
      ensures stopped == (NextCall(old(script)) != Ok) && script == LaterCalls(old(script))
      ensures committed == if stopped then old(committed) else old(committed) + [l]
    {
      hide Counted, After, Faithful;
      var c := Call(l, msg, Committing(outcome));
      if c != Ok { return true; }
      committed := committed + [l];
      stopped := false;
    }

    /** A failed message is retried with its attempt raised, without a commit, or else
        dead-lettered and committed; a queue write that fails stops the worker. */
    method Recover(l: nat, msg: Msg, permanent: bool) returns (stopped: bool)
      requires Working(l, msg, Failing(permanent))
      modifies this
      ensures Resting(stopped) && old(run) <= run
      ensures view.entered == old(view).entered && forall x :: view.notes[Took(x)] == old(view).notes[Took(x)]
      ensures claimed == old(claimed) && handled == old(handled) && published == old(published)
      ensures if NextCall(old(script)) != Ok then
                stopped && topic == old(topic) && deadLetters == old(deadLetters) && committed == old(committed)
              else if !permanent && msg.attempts < max then
                && !stopped && topic == old(topic)[l := msg.(attempts := msg.attempts + 1)]
                && deadLetters == old(deadLetters) && committed == old(committed)
              else
                && topic == old(topic) && deadLetters == old(deadLetters) + [l]
                && stopped == (NextCall(LaterCalls(old(script))) != Ok)
                && committed == (if stopped then old(committed) else old(committed) + [l])
    {
      hide Counted, After, Faithful;
      var c := Call(l, msg, Failing(permanent));
      if c != Ok { return true; }
      if !permanent && msg.attempts < max {
        topic := topic[l := msg.(attempts := msg.attempts + 1)];
        return false;
      }
      deadLetters := deadLetters + [l];
      stopped := Commit(l, msg, DeadLettered);
    }

    /** The worker loop, on what the topics hold.  It ends; and unless a queue write or
        a commit stops it, every message ends up committed exactly once. */
    method Drain() returns (stopped: bool)
      requires Resting(false)
      modifies this
      ensures Resting(stopped) && view.entered == old(view).entered
      ensures !stopped ==>
                topic == map[] && forall l :: 0 <= l < published ==> multiset(committed)[l] == 1
    {
      hide Counted, After, Faithful, Located, DeliveriesLeft;
      stopped := false;
      while topic != map[] && !stopped
        invariant Resting(stopped) && view.entered == old(view).entered
        decreases DeliveriesLeft(view), !stopped
      {
        var l :| l in topic;
        AlwaysLocated(max, 1, run);
        QueuedHasEntered(view, l);
        ghost var before := view;
        stopped := Process(l);
        AlwaysLocated(max, 1, run);
        DeliveryCounts(before, view, l);
      }
      if !stopped { AllCommitted(); }
    }

    lemma DeliveryCounts(before: Consumer, after: Consumer, l: nat)
      requires Located(after) && l < |before.entered| && after.entered == before.entered && after.max == before.max
      requires forall x :: after.notes[Took(x)] == before.notes[Took(x)] + (if x == l then 1 else 0)
      ensures 0 <= DeliveriesLeft(after) < DeliveriesLeft(before)
    {
      var took, took' := (x: nat) => before.notes[Took(x)], (x: nat) => after.notes[Took(x)];
      SumDrops(before.max, before.entered, took, took', |before.entered|, l);
      forall x | 0 <= x < |after.entered| ensures took'(x) <= Rounds(after.max, after.entered[x].attempts) {
        assert Traced(after, x);
      }
      SumNatural(after.max, after.entered, took', |after.entered|);
    }

    lemma QueuedHasEntered(c: Consumer, l: nat)
      requires Located(c) && l in c.queue
      ensures l < |c.entered|
    {
    }

    lemma AllCommitted()
      requires Resting(false) && topic == map[]
      ensures forall l :: 0 <= l < published ==> multiset(committed)[l] == 1
    {
      hide After;
      forall l | 0 <= l < published ensures multiset(committed)[l] == 1 {
        DrainedConsumer(max, 1, run, l);
      }
    }
  }
}
