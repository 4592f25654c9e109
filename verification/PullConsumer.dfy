/** The NATS pull-consumer runtime: configuration, adaptive plans, and a fetcher that
    feeds a bounded queue to a pool of workers, as a concurrent state machine. */
module PullConsumer {
  import opened Domain

  // ----- Configuration

  /** Batch size and maximal wait of a fetch. */
  datatype Plan = Plan(batch: int, wait: int)

  datatype Adaptive = Adaptive(
    enabled: bool, checkInterval: int, mediumPending: int, highPending: int,
    low: Plan, medium: Plan, high: Plan)

  datatype Config = Config(
    stream: string, subject: string, durable: string, base: Plan, workers: int, queueSize: int,
    ackWait: int, maxDeliver: int, adaptive: Adaptive)

  datatype ConfigError =
    | EmptyStreamName | EmptySubject | EmptyDurableName | InvalidBatchSize | InvalidMaxWait | InvalidWorkerCount
    | InvalidQueueSize | InvalidAckWait | InvalidMaxDeliver | InvalidAdaptiveCheckInterval
    | InvalidAdaptiveThresholds | InvalidAdaptivePlan

  function Validate(cfg: Config): Option<ConfigError> {
    var a := cfg.adaptive;
    if cfg.stream == "" then Some(EmptyStreamName)
    else if cfg.subject == "" then Some(EmptySubject)
    else if cfg.durable == "" then Some(EmptyDurableName)
    else if cfg.base.batch <= 0 then Some(InvalidBatchSize)
    else if cfg.base.wait <= 0 then Some(InvalidMaxWait)
    else if cfg.workers <= 0 then Some(InvalidWorkerCount)
    else if cfg.queueSize <= 0 then Some(InvalidQueueSize)
    else if cfg.ackWait <= 0 then Some(InvalidAckWait)
    else if cfg.maxDeliver <= 0 then Some(InvalidMaxDeliver)
    else if !a.enabled then None
    else if a.checkInterval <= 0 then Some(InvalidAdaptiveCheckInterval)
    else if a.mediumPending < 0 || a.highPending <= a.mediumPending then Some(InvalidAdaptiveThresholds)
    else if a.low.batch <= 0 || a.low.wait <= 0 || a.medium.batch <= 0 || a.medium.wait <= 0
            || a.high.batch <= 0 || a.high.wait <= 0 then Some(InvalidAdaptivePlan)
    else None
  }

  // ----- Adaptive plans

  datatype Tier = Base | Low | Medium | High

  function ResolvePullPlan(cfg: Config, pending: int): (Tier, Plan) {
    var a := cfg.adaptive;
    if !a.enabled then (Base, cfg.base)
    else if pending >= a.highPending then (High, a.high)
    else if pending >= a.mediumPending then (Medium, a.medium)
    else (Low, a.low)
  }

  function TierRank(tier: Tier): nat {
    match tier case Base => 0 case Low => 1 case Medium => 2 case High => 3
  }

  /** pullConsumerFetchState. */
  datatype Fetching = Fetching(plan: Plan, tier: Tier, lastCheck: int)

  /** The plan of the next fetch, from the consumer's backlog if that could be read. */
  function Planned(cfg: Config, f: Fetching, now: int, backlog: Option<nat>): Fetching {
    if !cfg.adaptive.enabled || now - f.lastCheck < cfg.adaptive.checkInterval then f
    else if backlog.None? then f.(lastCheck := now)
    else
      var (tier, plan) := ResolvePullPlan(cfg, backlog.value);
      Fetching(plan, tier, now)
  }

  class FetchState {
    var batch: int
    var wait: int
    var tier: Tier
    var lastAdaptiveCheck: int

    constructor (cfg: Config, now: int)
      ensures Value() == Fetching(cfg.base, Base, now)
    {
      batch, wait, tier, lastAdaptiveCheck := cfg.base.batch, cfg.base.wait, Base, now;
    }

    ghost function Value(): Fetching
      reads this
    {
      Fetching(Plan(batch, wait), tier, lastAdaptiveCheck)
    }

    method MaybeUpdateAdaptivePlan(cfg: Config, now: int, backlog: Option<nat>)
      modifies this
      ensures Value() == Planned(cfg, old(Value()), now, backlog)
      ensures var due := cfg.adaptive.enabled && now >= old(lastAdaptiveCheck) + cfg.adaptive.checkInterval;
              && lastAdaptiveCheck == (if due then now else old(lastAdaptiveCheck))
              && (tier, Plan(batch, wait))
                 == if due && backlog.Some? then ResolvePullPlan(cfg, backlog.value)
                    else (old(tier), Plan(old(batch), old(wait)))
      ensures Sound(cfg) && old(batch) > 0 && old(wait) > 0 ==> batch > 0 && wait > 0
    {
      if !cfg.adaptive.enabled || now - lastAdaptiveCheck < cfg.adaptive.checkInterval { return; }
      lastAdaptiveCheck := now;
      if backlog.None? { return; }
      var (nextTier, next) := ResolvePullPlan(cfg, backlog.value);
      if nextTier == tier && next.batch == batch && next.wait == wait { return; }
      tier, batch, wait := nextTier, next.batch, next.wait;
    }
  }

  // ----- The runtime

  /** Messages are told apart by their position in fetch order. */
  datatype FetcherPc = AtTop | AboutToFetch | Dispatching | Returned

  datatype Worker = Receiving | Processing(msg: nat) | Replying(msg: nat, handled: bool) | Exited

  datatype Runtime = Runtime(
    cfg: Config,
    cancelled: bool,
    fetcher: FetcherPc,
    fetching: Fetching,
    fetched: nat,                     // messages fetched so far
    undispatched: seq<nat>,           // the rest of the current batch
    queue: seq<nat>,                  // the jobs channel
    taken: seq<nat>,
    workers: seq<Worker>,
    succeeded: seq<nat>,              // handler calls by outcome
    failed: seq<nat>,
    acks: seq<nat>,                   // Ack calls, whether or not they succeed
    naks: seq<nat>,
    closed: bool)

  datatype Event =
    | Cancel
    | Top(now: int, backlog: Option<nat>)     // shouldStop, then maybeUpdateAdaptivePlan
    | Fetch(count: Option<nat>)               // None is an error or a timeout
    | Dispatch                                // one send to the channel, or the end of the batch
    | DispatchStops                           // the select picks ctx.Done
    | Receive(k: nat)
    | HandlerReturned(k: nat, ok: bool)               // the handler returns
    | Settle(k: nat)                          // Ack or Nak
    | Exit(k: nat)
    | Close

  predicate Enabled(r: Runtime, e: Event) {
    match e
    case Cancel => true
    case Top(_, _) => r.fetcher == AtTop
    case Fetch(count) => r.fetcher == AboutToFetch && (count.Some? ==> count.value <= r.fetching.plan.batch)
    case Dispatch => r.fetcher == Dispatching && (r.undispatched != [] ==> |r.queue| < r.cfg.queueSize)
    case DispatchStops => r.fetcher == Dispatching && r.undispatched != [] && r.cancelled
    case Receive(k) => k < |r.workers| && r.workers[k].Receiving? && r.queue != []
    case HandlerReturned(k, _) => k < |r.workers| && r.workers[k].Processing?
    case Settle(k) => k < |r.workers| && r.workers[k].Replying?
    case Exit(k) => k < |r.workers| && r.workers[k].Receiving? && r.cancelled
    case Close => r.fetcher == Returned && !r.closed && forall k :: 0 <= k < |r.workers| ==> r.workers[k].Exited?
  }

  function Positions(from: nat, count: nat): seq<nat> {
    seq(count, i => from + i)
  }

  function Exec(r: Runtime, e: Event): Runtime {
    if !Enabled(r, e) then r
    else
      match e
      case Cancel => r.(cancelled := true)
      case Top(now, backlog) =>
        if r.cancelled then r.(fetcher := Returned)
        else r.(fetching := Planned(r.cfg, r.fetching, now, backlog), fetcher := AboutToFetch)
      case Fetch(count) =>
        if count.None? then r.(fetcher := AtTop)
        else
          r.(fetcher := Dispatching, fetched := r.fetched + count.value, undispatched :=
            Positions(r.fetched, count.value))
      case Dispatch =>
        if r.undispatched == [] then r.(fetcher := AtTop)
        else r.(queue := r.queue + [r.undispatched[0]], undispatched := r.undispatched[1..])
      case DispatchStops => r.(fetcher := Returned)
      case Receive(k) =>
        r.(workers := r.workers[k := Processing(r.queue[0])], taken := r.taken + [r.queue[0]], queue := r.queue[1..])
      case HandlerReturned(k, ok) =>
        var msg := r.workers[k].msg;
        r.(workers := r.workers[k := Replying(msg, ok)],
           succeeded := if ok then r.succeeded + [msg] else r.succeeded,
           failed := if ok then r.failed else r.failed + [msg])
      case Settle(k) =>
        var msg := r.workers[k].msg;
        r.(workers := r.workers[k := Receiving],
           acks := if r.workers[k].handled then r.acks + [msg] else r.acks,
           naks := if r.workers[k].handled then r.naks else r.naks + [msg])
      case Exit(k) => r.(workers := r.workers[k := Exited])
      case Close => r.(closed := true)
  }

  function Init(cfg: Config, now: int): Runtime
    requires cfg.workers >= 0
  {
    Runtime(cfg, false, AtTop, Fetching(cfg.base, Base, now), 0, [], [], [], seq(cfg.workers, _ => Receiving), [], [],
      [], [], false)
  }

  function After(r: Runtime, events: seq<Event>): Runtime {
    if events == [] then r
    else Exec(After(r, events[..|events| - 1]), events[|events| - 1])
  }

  // ----- What configurations mean

  predicate Positive(p: Plan) { p.batch > 0 && p.wait > 0 }

  predicate Sound(cfg: Config) {
    && cfg.stream != "" && cfg.subject != "" && cfg.durable != ""
    && Positive(cfg.base) && cfg.workers > 0 && cfg.queueSize > 0 && cfg.ackWait > 0 && cfg.maxDeliver > 0
    && (cfg.adaptive.enabled ==>
          && cfg.adaptive.checkInterval > 0 && 0 <= cfg.adaptive.mediumPending < cfg.adaptive.highPending
          && Positive(cfg.adaptive.low) && Positive(cfg.adaptive.medium) && Positive(cfg.adaptive.high))
  }

  /** The plan that goes with a tier. */
  function PlanOf(cfg: Config, tier: Tier): Plan {
    match tier
    case Base => cfg.base
    case Low => cfg.adaptive.low
    case Medium => cfg.adaptive.medium
    case High => cfg.adaptive.high
  }

  /** Validate accepts exactly the sound configurations; under them every plan is
      positive, the thresholds cut the backlogs into the intervals of the tiers, each
      with its plan, and a larger backlog never gets a lower tier. */
  lemma ValidatedPlans(cfg: Config, pending: nat, more: nat)
    requires pending <= more
    ensures Validate(cfg) == None <==> Sound(cfg)
    ensures Validate(cfg) == None ==>
              var (tier, plan) := ResolvePullPlan(cfg, pending);
              && Positive(plan) && plan == PlanOf(cfg, tier)
              && TierRank(tier) <= TierRank(ResolvePullPlan(cfg, more).0)
              && (tier == Base <==> !cfg.adaptive.enabled)
              && (cfg.adaptive.enabled ==>
                    && (tier == Low <==> pending < cfg.adaptive.mediumPending)
                    && (tier == Medium <==> cfg.adaptive.mediumPending <= pending < cfg.adaptive.highPending)
                    && (tier == High <==> cfg.adaptive.highPending <= pending))
  {
  }

  /** What is wrong with a configuration when an error names it. */
  predicate Violates(cfg: Config, error: ConfigError) {
    var a := cfg.adaptive;
    match error
    case EmptyStreamName => cfg.stream == ""
    case EmptySubject => cfg.subject == ""
    case EmptyDurableName => cfg.durable == ""
    case InvalidBatchSize => cfg.base.batch <= 0
    case InvalidMaxWait => cfg.base.wait <= 0
    case InvalidWorkerCount => cfg.workers <= 0
    case InvalidQueueSize => cfg.queueSize <= 0
    case InvalidAckWait => cfg.ackWait <= 0
    case InvalidMaxDeliver => cfg.maxDeliver <= 0
    case InvalidAdaptiveCheckInterval => a.enabled && a.checkInterval <= 0
    case InvalidAdaptiveThresholds => a.enabled && !(0 <= a.mediumPending < a.highPending)
    case InvalidAdaptivePlan => a.enabled && !(Positive(a.low) && Positive(a.medium) && Positive(a.high))
  }

  /** The order in which the errors are looked for. */
  const ERRORS: seq<ConfigError> :=
    [EmptyStreamName, EmptySubject, EmptyDurableName, InvalidBatchSize, InvalidMaxWait, InvalidWorkerCount,
     InvalidQueueSize, InvalidAckWait, InvalidMaxDeliver, InvalidAdaptiveCheckInterval, InvalidAdaptiveThresholds,
     InvalidAdaptivePlan]

  /** Validate reports the first error in this order that the configuration has. */
  lemma FirstErrorReported(cfg: Config, k: nat)
    requires k < |ERRORS|
    ensures Validate(cfg) == Some(ERRORS[k])
            <==> Violates(cfg, ERRORS[k]) && forall j :: 0 <= j < k ==> !Violates(cfg, ERRORS[j])
  {
    assert Violates(cfg, ERRORS[0]) || Violates(cfg, ERRORS[1]) || Violates(cfg, ERRORS[2]) || Violates(cfg, ERRORS[3])
           || Violates(cfg, ERRORS[4]) || Violates(cfg, ERRORS[5]) || Violates(cfg, ERRORS[6])
           || Violates(cfg, ERRORS[7]) || Violates(cfg, ERRORS[8]) || Violates(cfg, ERRORS[9])
           || Violates(cfg, ERRORS[10]) || Violates(cfg, ERRORS[11]) || Validate(cfg).None?;
  }

  // ----- Invariants of the runtime

  /** How many workers are in a given state. */
  function Number(workers: seq<Worker>, w: Worker): nat {
    if workers == [] then 0
    else Number(workers[..|workers| - 1], w) + (if workers[|workers| - 1] == w then 1 else 0)
  }

  /** How many workers have a message. */
  function InHand(workers: seq<Worker>, msg: nat): nat {
    Number(workers, Processing(msg)) + Number(workers, Replying(msg, true)) + Number(workers, Replying(msg, false))
  }

  /** A message taken is with a worker, acked after success or naked after failure. */
  ghost predicate SettledFor(r: Runtime, msg: nat) {
    && multiset(r.acks)[msg] + multiset(r.naks)[msg] + InHand(r.workers, msg) == multiset(r.taken)[msg]
    && multiset(r.acks)[msg] + Number(r.workers, Replying(msg, true)) == multiset(r.succeeded)[msg]
    && multiset(r.naks)[msg] + Number(r.workers, Replying(msg, false)) == multiset(r.failed)[msg]
  }

  ghost predicate AllSettled(r: Runtime) {
    forall msg :: SettledFor(r, msg)
  }

  ghost predicate Flowing(r: Runtime) {
    && r.taken + r.queue + r.undispatched == Positions(0, r.fetched)
    && AllSettled(r)
    && |r.queue| <= r.cfg.queueSize && |r.workers| == r.cfg.workers
    && Sound(r.cfg) && Positive(r.fetching.plan)
  }

  ghost predicate Closing(r: Runtime) {
    && (r.undispatched != [] ==> r.fetcher == Dispatching || r.fetcher == Returned)
    && (r.fetcher == Returned ==> r.cancelled)
    && (forall k :: 0 <= k < |r.workers| && r.workers[k].Exited? ==> r.cancelled)
    && (r.closed ==> r.fetcher == Returned && forall k :: 0 <= k < |r.workers| ==> r.workers[k].Exited?)
  }

  lemma {:induction false} NumberChanges(workers: seq<Worker>, k: nat, w: Worker, x: Worker)
    requires k < |workers|
    ensures Number(workers[k := w], x)
            == Number(workers, x) - (if workers[k] == x then 1 else 0) + (if w == x then 1 else 0)
  {
    var last := |workers| - 1;
    if k < last {
      NumberChanges(workers[..last], k, w, x);
      assert workers[k := w][..last] == workers[..last][k := w];
    } else {
      assert workers[k := w][..last] == workers[..last];
    }
  }

  lemma {:induction false} NoneSuch(workers: seq<Worker>, x: Worker)
    requires x !in workers
    ensures Number(workers, x) == 0
  {
    if workers != [] { NoneSuch(workers[..|workers| - 1], x); }
  }

  lemma NothingInHand(workers: seq<Worker>, msg: nat)
    requires forall w :: w in workers ==> w.Receiving? || w.Exited?
    ensures InHand(workers, msg) == 0 && forall ok :: Number(workers, Replying(msg, ok)) == 0
  {
    NoneSuch(workers, Processing(msg));
    NoneSuch(workers, Replying(msg, true));
    NoneSuch(workers, Replying(msg, false));
  }

  lemma ReceiveSettles(r: Runtime, k: nat, msg: nat)
    requires SettledFor(r, msg) && Enabled(r, Receive(k))
    ensures SettledFor(Exec(r, Receive(k)), msg)
  {
    hide Number;
    NumbersChange(r.workers, k, Processing(r.queue[0]), msg);
  }

  lemma ReturnSettles(r: Runtime, k: nat, ok: bool, msg: nat)
    requires SettledFor(r, msg) && Enabled(r, HandlerReturned(k, ok))
    ensures SettledFor(Exec(r, HandlerReturned(k, ok)), msg)
  {
    hide Number;
    NumbersChange(r.workers, k, Replying(r.workers[k].msg, ok), msg);
  }

  lemma AckSettles(r: Runtime, k: nat, msg: nat)
    requires SettledFor(r, msg) && Enabled(r, Settle(k)) && r.workers[k].handled
    ensures SettledFor(Exec(r, Settle(k)), msg)
  {
    hide Number, InHand;
    InHandDrops(r.workers, k, msg);
    assert Exec(r, Settle(k)).acks == r.acks + [r.workers[k].msg];
  }

  lemma NakSettles(r: Runtime, k: nat, msg: nat)
    requires SettledFor(r, msg) && Enabled(r, Settle(k)) && !r.workers[k].handled
    ensures SettledFor(Exec(r, Settle(k)), msg)
  {
    hide Number, InHand;
    InHandDrops(r.workers, k, msg);
    assert Exec(r, Settle(k)).naks == r.naks + [r.workers[k].msg];
  }

  lemma InHandDrops(workers: seq<Worker>, k: nat, msg: nat)
    requires k < |workers| && workers[k].Replying?
    ensures forall ok ::
      Number(workers[k := Receiving], Replying(msg, ok))
      == Number(workers, Replying(msg, ok)) - (if workers[k] == Replying(msg, ok) then 1 else 0)
    ensures InHand(workers[k := Receiving], msg) == InHand(workers, msg) - (if workers[k].msg == msg then 1 else 0)
  {
    hide Number;
    NumbersChange(workers, k, Receiving, msg);
  }

  lemma ExitSettles(r: Runtime, k: nat, msg: nat)
    requires SettledFor(r, msg) && Enabled(r, Exit(k))
    ensures SettledFor(Exec(r, Exit(k)), msg)
  {
    hide Number;
    NumbersChange(r.workers, k, Exited, msg);
  }

  lemma NumbersChange(workers: seq<Worker>, k: nat, w: Worker, msg: nat)
    requires k < |workers|
    ensures Number(workers[k := w], Processing(msg))
            == Number(workers, Processing(msg)) - (if workers[k] == Processing(msg) then 1 else 0)
              + (if w == Processing(msg) then 1 else 0)
    ensures forall ok ::
      Number(workers[k := w], Replying(msg, ok))
      == Number(workers, Replying(msg, ok)) - (if workers[k] == Replying(msg, ok) then 1 else 0)
        + (if w == Replying(msg, ok) then 1 else 0)
  {
    hide Number;
    NumberChanges(workers, k, w, Processing(msg));
    NumberChanges(workers, k, w, Replying(msg, true));
    NumberChanges(workers, k, w, Replying(msg, false));
  }

  lemma WorkersSettle(r: Runtime, e: Event)
    requires AllSettled(r) && Enabled(r, e) && (e.Receive? || e.HandlerReturned? || e.Settle? || e.Exit?)
    ensures AllSettled(Exec(r, e))
  {
    hide SettledFor, Exec;
    forall msg: nat ensures SettledFor(Exec(r, e), msg) {
      match e {
        case Receive(k) => ReceiveSettles(r, k, msg);
        case HandlerReturned(k, ok) => ReturnSettles(r, k, ok, msg);
        case Settle(k) => if r.workers[k].handled { AckSettles(r, k, msg); } else { NakSettles(r, k, msg); }
        case Exit(k) => ExitSettles(r, k, msg);
      }
    }
  }

  lemma ReceiveFlows(r: Runtime, k: nat)
    requires Flowing(r) && Enabled(r, Receive(k))
    ensures Flowing(Exec(r, Receive(k)))
  {
    hide AllSettled;
    var r' := Exec(r, Receive(k));
    WorkersSettle(r, Receive(k));
    assert r.queue == [r.queue[0]] + r.queue[1..];
    assert r'.taken + r'.queue == r.taken + r.queue;
  }

  /** Replying looks at the workers and their calls only. */
  lemma SettledElsewhere(r: Runtime, r': Runtime)
    requires AllSettled(r) && r'.taken == r.taken && r'.workers == r.workers
    requires r'.acks == r.acks && r'.naks == r.naks && r'.succeeded == r.succeeded && r'.failed == r.failed
    ensures AllSettled(r')
  {
    hide InHand, Number;
    forall msg ensures SettledFor(r', msg) { assert SettledFor(r, msg); }
  }

  lemma DispatchFlows(r: Runtime)
    requires Flowing(r) && Enabled(r, Dispatch)
    ensures Flowing(Exec(r, Dispatch))
  {
    hide AllSettled;
    var r' := Exec(r, Dispatch);
    SettledElsewhere(r, r');
    if r.undispatched != [] {
      assert r.undispatched == [r.undispatched[0]] + r.undispatched[1..];
      assert r'.taken + r'.queue + r'.undispatched == r.taken + r.queue + r.undispatched;
    }
  }

  lemma WorkerFlows(r: Runtime, e: Event)
    requires Flowing(r) && Enabled(r, e) && (e.HandlerReturned? || e.Settle? || e.Exit?)
    ensures Flowing(Exec(r, e))
  {
    hide AllSettled;
    WorkersSettle(r, e);
  }

  lemma FetcherFlows(r: Runtime, e: Event)
    requires Flowing(r) && Closing(r) && Enabled(r, e) && (e.Fetch? || e.Top?)
    ensures Flowing(Exec(r, e))
  {
    hide AllSettled;
    SettledElsewhere(r, Exec(r, e));
    if e.Fetch? && e.count.Some? {
      assert Positions(0, r.fetched + e.count.value) == Positions(0, r.fetched) + Positions(r.fetched, e.count.value);
    }
  }

  lemma ExecFlows(r: Runtime, e: Event)
    requires Flowing(r) && Closing(r)
    ensures Flowing(Exec(r, e)) && Closing(Exec(r, e))
  {
    hide AllSettled;
    if Enabled(r, e) {
      match e {
        case Receive(k) => ReceiveFlows(r, k);
        case Dispatch => DispatchFlows(r);
        case Fetch(_) => FetcherFlows(r, e);
        case Top(_, _) => FetcherFlows(r, e);
        case HandlerReturned(_, _) => WorkerFlows(r, e);
        case Settle(_) => WorkerFlows(r, e);
        case Exit(_) => WorkerFlows(r, e);
        case _ => SettledElsewhere(r, Exec(r, e));
      }
    }
  }

  lemma InitFlows(cfg: Config, now: int)
    requires Sound(cfg)
    ensures Flowing(Init(cfg, now)) && Closing(Init(cfg, now))
  {
    hide Number;
    var r := Init(cfg, now);
    forall msg: nat ensures SettledFor(r, msg) {
      NothingInHand(r.workers, msg);
    }
  }

  lemma InitConfig(cfg: Config, now: int)
    requires cfg.workers >= 0
    ensures Init(cfg, now).cfg == cfg
  {
  }

  lemma {:induction false} AlwaysFlows(cfg: Config, now: int, events: seq<Event>)
    requires Sound(cfg)
    ensures var r := After(Init(cfg, now), events); Flowing(r) && Closing(r) && r.cfg == cfg
  {
    hide Flowing, Closing, Init;
    if events == [] {
      InitFlows(cfg, now);
      InitConfig(cfg, now);
    } else {
      AlwaysFlows(cfg, now, events[..|events| - 1]);
      ExecFlows(After(Init(cfg, now), events[..|events| - 1]), events[|events| - 1]);
    }
  }

  lemma {:induction false} PositionsOnce(n: nat, msg: nat)
    ensures multiset(Positions(0, n))[msg] == if msg < n then 1 else 0
  {
    if n > 0 {
      PositionsOnce(n - 1, msg);
      assert Positions(0, n) == Positions(0, n - 1) + [n - 1];
    }
  }

  // ----- Which plan a fetch uses

  /** The event is a check of the backlog: the fetcher comes round, is not stopped, and
      the last check is long enough ago. */
  predicate Checks(r: Runtime, e: Event, last: int) {
    && e.Top? && r.fetcher == AtTop && !r.cancelled
    && r.cfg.adaptive.enabled && e.now - last >= r.cfg.adaptive.checkInterval
  }

  /** When the backlog was last checked, and the last backlog that could be read. */
  ghost function LastCheck(cfg: Config, now: int, events: seq<Event>): (int, Option<nat>)
    requires cfg.workers >= 0
  {
    if events == [] then (now, None)
    else
      var init, e := events[..|events| - 1], events[|events| - 1];
      var (last, backlog) := LastCheck(cfg, now, init);
      if !Checks(After(Init(cfg, now), init), e, last) then (last, backlog)
      else (e.now, if e.backlog.Some? then e.backlog else backlog)
  }

  lemma ExecPlans(r: Runtime, e: Event)
    ensures var f, f' := r.fetching, Exec(r, e).fetching;
            if Checks(r, e, f.lastCheck) then
              && f'.lastCheck == e.now
              && (f'.tier, f'.plan) == if e.backlog.Some? then ResolvePullPlan(r.cfg, e.backlog.value)
                                       else (f.tier, f.plan)
            else f' == f
    ensures Exec(r, e).cfg == r.cfg
  {
  }

  lemma {:induction false} AlwaysPlanned(cfg: Config, now: int, events: seq<Event>)
    requires cfg.workers >= 0
    ensures var r := After(Init(cfg, now), events);
            var (last, backlog) := LastCheck(cfg, now, events);
            && r.cfg == cfg && r.fetching.lastCheck == last
            && (r.fetching.tier, r.fetching.plan)
               == if backlog.Some? then ResolvePullPlan(cfg, backlog.value) else (Base, cfg.base)
  {
    hide Exec, ResolvePullPlan, Checks;
    if events != [] {
      var init, e := events[..|events| - 1], events[|events| - 1];
      AlwaysPlanned(cfg, now, init);
      ExecPlans(After(Init(cfg, now), init), e);
    }
  }

  /** In every run of a validated configuration the next fetch asks for what the last
      backlog that was read calls for: nothing read yet, or no adaptation, means the base
      plan. */
  lemma {:induction false} PlanFollowsBacklog(cfg: Config, now: int, events: seq<Event>)
    requires Validate(cfg) == None
    ensures var f := After(Init(cfg, now), events).fetching;
            var (last, backlog) := LastCheck(cfg, now, events);
            && f.lastCheck == last
            && (!cfg.adaptive.enabled ==> backlog.None?)
            && (f.tier, f.plan)
               == if backlog.None? then (Base, cfg.base)
                  else if backlog.value < cfg.adaptive.mediumPending then (Low, cfg.adaptive.low)
                  else if backlog.value < cfg.adaptive.highPending then (Medium, cfg.adaptive.medium)
                  else (High, cfg.adaptive.high)
  {
    hide After, LastCheck;
    ValidatedPlans(cfg, 0, 0);
    AlwaysPlanned(cfg, now, events);
    ReadOnlyIfEnabled(cfg, now, events);
  }

  lemma {:induction false} ReadOnlyIfEnabled(cfg: Config, now: int, events: seq<Event>)
    requires cfg.workers >= 0
    ensures LastCheck(cfg, now, events).1.Some? ==> cfg.adaptive.enabled
  {
    hide Exec;
    if events != [] {
      ReadOnlyIfEnabled(cfg, now, events[..|events| - 1]);
      AlwaysPlanned(cfg, now, events[..|events| - 1]);
    }
  }

  /** For every validated configuration and every run, cancellations included: what was
      fetched is, in fetch order, what workers have taken, then what is queued, then what
      is not dispatched yet; the queue keeps its bound; batch and wait stay positive
      across plan switches; and each taken message is with one worker or has had exactly
      one ack or nak call, an ack only after its handler succeeded and a nak only after
      it failed. */
  lemma MessagesFlow(cfg: Config, now: int, events: seq<Event>, msg: nat)
    requires Validate(cfg) == None
    ensures var r := After(Init(cfg, now), events);
            && r.taken + r.queue + r.undispatched == Positions(0, r.fetched)
            && |r.queue| <= cfg.queueSize
            && r.fetching.plan.batch > 0 && r.fetching.plan.wait > 0
            && multiset(r.acks)[msg] + multiset(r.naks)[msg] + InHand(r.workers, msg)
              == (if msg in r.taken then 1 else 0)
            && multiset(r.acks)[msg] <= multiset(r.succeeded)[msg] && multiset(r.naks)[msg] <= multiset(r.failed)[msg]
  {
    hide After, Number;
    ValidatedPlans(cfg, 0, 0);
    AlwaysFlows(cfg, now, events);
    var r := After(Init(cfg, now), events);
    PositionsOnce(r.fetched, msg);
    assert multiset(Positions(0, r.fetched)) == multiset(r.taken) + multiset(r.queue) + multiset(r.undispatched);
    assert SettledFor(r, msg);
  }

  /** The channel is closed only after the fetcher and all workers have returned, and
      then every taken message has had its one call: an ack if its handler succeeded, a nak
      if it failed. */
  lemma ClosedIsSettled(cfg: Config, now: int, events: seq<Event>, msg: nat)
    requires Validate(cfg) == None && After(Init(cfg, now), events).closed
    ensures var r := After(Init(cfg, now), events);
            && r.fetcher == Returned
            && multiset(r.acks)[msg] + multiset(r.naks)[msg] == (if msg in r.taken then 1 else 0)
            && multiset(r.acks)[msg] == multiset(r.succeeded)[msg] && multiset(r.naks)[msg] == multiset(r.failed)[msg]
  {
    hide After;
    ValidatedPlans(cfg, 0, 0);
    AlwaysFlows(cfg, now, events);
    MessagesFlow(cfg, now, events, msg);
    NothingInHand(After(Init(cfg, now), events).workers, msg);
    assert SettledFor(After(Init(cfg, now), events), msg);
  }

  /** The bounded queue never deadlocks the runtime: until it is closed, some process
      can take a step. */
  lemma NeverDeadlocked(cfg: Config, now: int, events: seq<Event>) returns (e: Event)
    requires Validate(cfg) == None && !After(Init(cfg, now), events).closed
    ensures e != Cancel && Enabled(After(Init(cfg, now), events), e)
  {
    hide After, Number, Positions;
    ValidatedPlans(cfg, 0, 0);
    AlwaysFlows(cfg, now, events);
    var r := After(Init(cfg, now), events);
    match r.fetcher {
      case AtTop => e := Top(now, None);
      case AboutToFetch => e := Fetch(None);
      case Dispatching =>
        if r.cancelled && r.undispatched != [] { e := DispatchStops; }
        else if r.workers[0].Processing? { e := HandlerReturned(0, true); }
        else if r.workers[0].Replying? { e := Settle(0); }
        else if r.queue == [] { e := Dispatch; }
        else if r.workers[0].Receiving? { e := Receive(0); }
        else { e := Dispatch; }
      case Returned =>
        if k :| 0 <= k < |r.workers| && !r.workers[k].Exited? {
          e := if r.workers[k].Processing? then HandlerReturned(k, true) else if r.workers[k].Replying? then Settle(k)
            else Exit(k);
        } else {
          e := Close;
        }
    }
  }
}
