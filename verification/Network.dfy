/** The whole check pipeline: every monitor's tokens in the channels and goroutines
    they share, with bounded channels, worker pools, the HTTP semaphore and the alert
    queue. Each event is one atomic step of one goroutine.

    The order of `flight` is the order in which tokens reached their present place, so
    the tokens of one channel form its queue. */
module Network {
  import opened Sequences
  import opened Domain
  import opened FineSteps
  import opened MonitorMachine

  /** `tried` counts the failed tries of the call the token is at. */
  datatype Token = Token(mon: nat, at: Place, tried: nat)

  /** How often pkg/redis repeats the call of a place. */
  function MaxTries(p: Place): nat {
    match p
    case Batch(_) => 2
    case Requeue => 2
    case FIncr(_) => 2
    case FSched(_) => 2
    case SSched(_) => 2
    case FRetry(_) => 1
    case FClearRetry(_) => 1
    case SClear(_) => 1
    case SClearRetry(_) => 1
    case _ => 0
  }

  /** An alert event under way: the monitor and what it reports. */
  datatype Signal = Signal(mon: nat, alert: Alert)

  /** `queue` is alertChan, `busy` what the alert workers hold, `handled` what they are
      through with, and `rows` the incidents of the alert rows they inserted. */
  datatype Net = Net(
    stores: map<nat, Store>,
    flight: seq<Token>,
    tick: int,
    queue: seq<Signal>,
    busy: seq<Signal>,
    handled: seq<Signal>,
    rows: seq<Signal>)

  const EMPTY := Net(map[], [], 0, [], [], [], [])

  /** Channel sizes and goroutine counts of the configuration. */
  datatype Limits = Limits(
    batch: nat,
    jobs: nat,
    workers: nat,
    semaphore: nat,
    results: nat,
    successes: nat,
    failures: nat,
    successWorkers: nat,
    failureWorkers: nat,
    alerts: nat,
    alertWorkers: nat)

  ghost predicate ValidLimits(l: Limits) {
    && l.batch >= 1 && l.jobs >= 1 && l.workers >= 1 && l.semaphore >= 1 && l.results >= 1
    && l.successes >= 1 && l.failures >= 1 && l.successWorkers >= 1 && l.failureWorkers >= 1
    && l.alerts >= 1 && l.alertWorkers >= 1
  }

  datatype Stage =
    | Batched | Jobs | Executing | Requesting | Results | Router
    | Successes | Failures | HandlingSuccess | HandlingFailure

  function StageOf(p: Place): Stage {
    match p
    case Batch(_) => Batched
    case JobQ => Jobs
    case Load | Requeue | Acquire(_) => Executing
    case Http(_) | HttpDone(_) => Requesting
    case ResultQ(_) => Results
    case Routing(_) => Router
    case SuccessQ(_) => Successes
    case FailureQ(_) => Failures
    case _ => if InSuccessHandler(p) then HandlingSuccess else HandlingFailure
  }

  function Capacity(l: Limits, stage: Stage): nat {
    match stage
    case Batched => l.batch
    case Jobs => l.jobs
    case Executing => l.workers
    case Requesting => l.semaphore
    case Results => l.results
    case Router => 1
    case Successes => l.successes
    case Failures => l.failures
    case HandlingSuccess => l.successWorkers
    case HandlingFailure => l.failureWorkers
  }

  function At(stage: Stage): Token -> nat {
    (t: Token) => if StageOf(t.at) == stage then 1 else 0
  }

  function Occupancy(n: Net, stage: Stage): nat {
    Weigh(n.flight, At(stage))
  }

  predicate HasRoom(l: Limits, n: Net, stage: Stage) {
    Occupancy(n, stage) < Capacity(l, stage)
  }

  datatype NetEvent =
    | Move(i: nat, e: Env)                       // a token makes its next step
    | Try(i: nat, e: Env)                        // ... or a failing try of it that took effect
    | Take                                       // an alert worker receives an event
    | Handle(j: nat, wrote: bool)                // ... and is through with it
    | PopMin(m: nat, now: int, kept: bool)       // the scheduler pops an entry, or loses it
    | Create(m: nat, row: MonitorRow, now: int)
    | Insert(m: nat, row: MonitorRow)            // ... without its ZADD
    | Control(m: nat, op: Operation)
    | RetryGone(m: nat)                          // the retry key expires

  /** The scheduler may treat a popped entry like this (scheduler.go:80-123). */
  predicate Dispatches(l: Limits, n: Net, score: int, d: Dispatch) {
    match d
    case ToJobs => score <= n.tick
    case Backoff => score <= n.tick && !HasRoom(l, n, Jobs)
    case Reinsert => score > n.tick
  }

  predicate Queued(p: Place) {
    p.Batch? || p.JobQ? || p.ResultQ? || p.SuccessQ? || p.FailureQ?
  }

  predicate Sends(p: Place) {
    p.FSend? || p.SSend?
  }

  /** A channel delivers in order; a send waits for room; a receiver must be idle. */
  predicate CanMove(c: Config, l: Limits, n: Net, i: nat, e: Env) {
    && i < |n.flight|
    && n.flight[i].mon in n.stores
    && var p := n.flight[i].at;
       var next := Advance(c, n.stores[n.flight[i].mon], p, e).1;
       && (p.Batch? ==> Dispatches(l, n, p.score, e.dispatch))
       && (Queued(p) ==> forall j | 0 <= j < i :: StageOf(n.flight[j].at) != StageOf(p))
       && (next.Some? && StageOf(next.value) != StageOf(p) ==> HasRoom(l, n, StageOf(next.value)))
       && (Sends(p) ==> |n.queue| < l.alerts)
  }

  predicate Enabled(c: Config, l: Limits, n: Net, ev: NetEvent) {
    match ev
    case Move(i, e) => CanMove(c, l, n, i, e)
    case Take => n.queue != [] && |n.busy| < l.alertWorkers
    case Handle(j, _) => j < |n.busy|
    case Try(i, e) =>
      && i < |n.flight|
      && n.flight[i].mon in n.stores
      && n.flight[i].tried < MaxTries(n.flight[i].at)
      && (n.flight[i].at.Batch? ==> Dispatches(l, n, n.flight[i].at.score, e.dispatch))
    case PopMin(m, now, _) =>
      && m in n.stores
      && n.stores[m].due.Some?
      && (forall m' | m' in n.stores && n.stores[m'].due.Some? :: n.stores[m].due.value <= n.stores[m'].due.value)
      && HasRoom(l, n, Batched)
    case Create(m, _, _) => m !in n.stores
    case Insert(m, _) => m !in n.stores
    case Control(m, _) => m in n.stores
    case RetryGone(m) => m in n.stores
  }

  /** The places of monitor m's tokens. */
  function Proj(flight: seq<Token>, m: nat): seq<Place> {
    if flight == [] then []
    else (if flight[0].mon == m then [flight[0].at] else []) + Proj(flight[1..], m)
  }

  function View(n: Net, m: nat): Mon
    requires m in n.stores
  {
    Mon(n.stores[m], Proj(n.flight, m))
  }

  /** The INSERT of CreateMonitor; new monitors are enabled. */
  function Inserting(row: MonitorRow): Statement {
    SetRow(Some(row.(enabled := true)))
  }

  function Successor(mon: nat, next: Option<Place>): Option<Token> {
    if next.Some? then Some(Token(mon, next.value, 0)) else None
  }

  function AlertOf(p: Place): Option<Alert> {
    match p
    case FSend(_, id) => Some(Down(id))
    case SSend(_, id) => Some(Recovered(id))
    case _ => None
  }

  function Next(c: Config, n: Net, ev: NetEvent): Net
    requires ev.Move? || ev.Try? ==> ev.i < |n.flight| && n.flight[ev.i].mon in n.stores
    requires ev.Take? ==> n.queue != []
    requires ev.Handle? ==> ev.j < |n.busy|
    requires ev.PopMin? ==> ev.m in n.stores && n.stores[ev.m].due.Some?
    requires ev.Control? || ev.RetryGone? ==> ev.m in n.stores
  {
    match ev
    case Move(i, e) =>
      var t := n.flight[i];
      var (st, next) := Advance(c, n.stores[t.mon], t.at, e);
      var flight := Sequences.Move(n.flight, i, Successor(t.mon, next));
      var a := AlertOf(t.at);
      n.(stores := n.stores[t.mon := Settle(st, t.at, |Proj(flight, t.mon)|)],
         flight := flight,
         queue := if a.Some? then n.queue + [Signal(t.mon, a.value)] else n.queue)
    case Take => n.(queue := n.queue[1..], busy := n.busy + [n.queue[0]])
    case Handle(j, wrote) =>
      n.(busy := Remove(n.busy, j),
         handled := n.handled + [n.busy[j]],
         rows := if wrote then n.rows + [n.busy[j]] else n.rows)
    case Try(i, e) =>
      var t := n.flight[i];
      n.(stores := n.stores[t.mon := Attempted(c, n.stores[t.mon], t.at, e)],
         flight := n.flight[i := t.(tried := t.tried + 1)])
    case PopMin(m, now, kept) =>
      n.(stores := n.stores[m := n.stores[m].(due := None)],
         flight := if kept then n.flight + [Token(m, Batch(n.stores[m].due.value), 0)] else n.flight,
         tick := if Occupancy(n, Batched) == 0 then now else n.tick)
    case Create(m, row, now) => n.(stores := n.stores[m := Created(row, now).st])
    case Insert(m, row) => n.(stores := n.stores[m := Perform(UNBORN.st, Inserting(row), DONE)])
    case Control(m, op) => n.(stores := n.stores[m := Operate(n.stores[m], op)])
    case RetryGone(m) => n.(stores := n.stores[m := ClearedRetry(n.stores[m], DONE)])
  }

  /** An event that is not possible leaves the state as it is. */
  function NetApply(c: Config, l: Limits, n: Net, ev: NetEvent): Net {
    if Enabled(c, l, n, ev) then Next(c, n, ev) else n
  }

  function NetRun(c: Config, l: Limits, evs: seq<NetEvent>): Net {
    if evs == [] then EMPTY else NetApply(c, l, NetRun(c, l, evs[..|evs| - 1]), evs[|evs| - 1])
  }
}
