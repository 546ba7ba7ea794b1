/** The pipeline never gets stuck and, left alone, runs empty. */
module Progress {
  import opened Sequences
  import opened Domain
  import opened FineSteps
  import opened MonitorMachine
  import opened Network

  // Capacities

  ghost predicate WithinCapacity(l: Limits, n: Net) {
    && |n.queue| <= l.alerts
    && |n.busy| <= l.alertWorkers
    && forall stage :: Occupancy(n, stage) <= Capacity(l, stage)
  }

  lemma MoveKeepsCapacity(c: Config, l: Limits, n: Net, i: nat, e: Env, stage: Stage)
    requires CanMove(c, l, n, i, e) && Occupancy(n, stage) <= Capacity(l, stage)
    ensures Occupancy(Next(c, n, Move(i, e)), stage) <= Capacity(l, stage)
  {
    var t := n.flight[i];
    var next := Advance(c, n.stores[t.mon], t.at, e).1;
    WeighMove(n.flight, i, Successor(t.mon, next), At(stage));
    WeighAt(n.flight, i, At(stage));
  }

  lemma CapacityStep(c: Config, l: Limits, n: Net, ev: NetEvent)
    requires WithinCapacity(l, n) && Enabled(c, l, n, ev)
    ensures WithinCapacity(l, Next(c, n, ev))
  {
    forall stage ensures Occupancy(Next(c, n, ev), stage) <= Capacity(l, stage) {
      match ev
      case Move(i, e) => MoveKeepsCapacity(c, l, n, i, e, stage);
      case Try(i, e) =>
        WeighReplace(n.flight, i, n.flight[i].(tried := n.flight[i].tried + 1), At(stage));
      case PopMin(m, now, _) =>
        var t := Token(m, Batch(n.stores[m].due.value), 0);
        WeighAppend(n.flight, [t], At(stage));
        WeighOne(t, At(stage));
      case _ =>
    }
  }

  /** No channel, worker pool or semaphore is ever over its size; in particular, no more
      HTTP requests run at once than the semaphore admits. */
  lemma {:induction false} CapacitiesHold(c: Config, l: Limits, evs: seq<NetEvent>)
    ensures WithinCapacity(l, NetRun(c, l, evs))
  {
    if evs != [] {
      var front := evs[..|evs| - 1];
      CapacitiesHold(c, l, front);
      if Enabled(c, l, NetRun(c, l, front), evs[|evs| - 1]) {
        CapacityStep(c, l, NetRun(c, l, front), evs[|evs| - 1]);
      }
    }
  }

  /** The same, limit by limit. */
  lemma LimitsHold(c: Config, l: Limits, evs: seq<NetEvent>)
    ensures var n := NetRun(c, l, evs);
      && Occupancy(n, Batched) <= l.batch && Occupancy(n, Jobs) <= l.jobs && Occupancy(n, Executing) <= l.workers
      && Occupancy(n, Requesting) <= l.semaphore && Occupancy(n, Results) <= l.results && Occupancy(n, Router) <= 1
      && Occupancy(n, Successes) <= l.successes && Occupancy(n, Failures) <= l.failures
      && Occupancy(n, HandlingSuccess) <= l.successWorkers && Occupancy(n, HandlingFailure) <= l.failureWorkers
      && |n.queue| <= l.alerts && |n.busy| <= l.alertWorkers
  {
    CapacitiesHold(c, l, evs);
    LimitsOf(l, NetRun(c, l, evs));
  }

  lemma LimitsOf(l: Limits, n: Net)
    requires WithinCapacity(l, n)
    ensures Occupancy(n, Batched) <= l.batch && Occupancy(n, Jobs) <= l.jobs && Occupancy(n, Executing) <= l.workers
    ensures Occupancy(n, Requesting) <= l.semaphore && Occupancy(n, Results) <= l.results && Occupancy(n, Router) <= 1
    ensures Occupancy(n, Successes) <= l.successes && Occupancy(n, Failures) <= l.failures
    ensures Occupancy(n, HandlingSuccess) <= l.successWorkers && Occupancy(n, HandlingFailure) <= l.failureWorkers
  {
    forall stage
      ensures Occupancy(n, stage) <= Capacity(l, stage)
    {
    }
  }

  // Deadlock freedom

  ghost predicate Owned(n: Net) {
    forall i | 0 <= i < |n.flight| :: n.flight[i].mon in n.stores
  }

  lemma {:induction false} FlightOwned(c: Config, l: Limits, evs: seq<NetEvent>)
    ensures Owned(NetRun(c, l, evs))
  {
    if evs != [] {
      FlightOwned(c, l, evs[..|evs| - 1]);
      if Enabled(c, l, NetRun(c, l, evs[..|evs| - 1]), evs[|evs| - 1]) {
        OwnedStep(c, l, NetRun(c, l, evs[..|evs| - 1]), evs[|evs| - 1]);
      }
    }
  }

  const CALM := Env(DONE, 0, 0, ToJobs, BadUrl)

  /** The first token of a stage. */
  lemma FirstAt(n: Net, stage: Stage) returns (i: nat)
    requires Occupancy(n, stage) > 0
    ensures i < |n.flight| && StageOf(n.flight[i].at) == stage
    ensures forall j | 0 <= j < i :: StageOf(n.flight[j].at) != stage
  {
    i := WeighPositive(n.flight, At(stage));
    while exists j :: 0 <= j < i && StageOf(n.flight[j].at) == stage
      invariant i < |n.flight| && StageOf(n.flight[i].at) == stage
      decreases i
    {
      var j :| 0 <= j < i && StageOf(n.flight[j].at) == stage;
      i := j;
    }
  }

  /** A stage that comes later on a token's way through the pipeline. */
  function Depth(stage: Stage): nat {
    match stage
    case Batched => 0
    case Jobs => 1
    case Executing => 2
    case Requesting => 3
    case Results => 4
    case Router => 5
    case Successes => 6
    case Failures => 6
    case HandlingSuccess => 7
    case HandlingFailure => 7
  }

  ghost predicate ClearBelow(n: Net, stage: Stage) {
    forall s: Stage :: Depth(s) > Depth(stage) ==> Occupancy(n, s) == 0
  }

  lemma FailureStays(c: Config, st: Store, p: Place, e: Env)
    requires InFailureHandler(p)
    ensures var next := FailureStep(c, st, p, e).1; next.Some? ==> StageOf(next.value) == StageOf(p) == HandlingFailure
  {
  }

  lemma SuccessStays(c: Config, st: Store, p: Place, e: Env)
    requires InSuccessHandler(p)
    ensures var next := SuccessStep(c, st, p, e).1; next.Some? ==> StageOf(next.value) == StageOf(p) == HandlingSuccess
  {
  }

  lemma TransportAdvances(c: Config, st: Store, p: Place, e: Env)
    requires !InFailureHandler(p) && !InSuccessHandler(p)
    ensures var next := TransportStep(c, st, p, e).1;
      next.Some? && StageOf(next.value) != StageOf(p) ==> Depth(StageOf(next.value)) > Depth(StageOf(p))
  {
  }

  /** A token only ever moves on to later stages. */
  lemma StagesAdvance(c: Config, st: Store, p: Place, e: Env)
    ensures var next := Advance(c, st, p, e).1;
      next.Some? && StageOf(next.value) != StageOf(p) ==> Depth(StageOf(next.value)) > Depth(StageOf(p))
  {
    if InFailureHandler(p) {
      FailureStays(c, st, p, e);
    } else if InSuccessHandler(p) {
      SuccessStays(c, st, p, e);
    } else {
      TransportAdvances(c, st, p, e);
    }
  }

  /** A popped entry can always be dispatched, sent back or kept for later. */
  function Calm(l: Limits, n: Net, p: Place): Env {
    if !p.Batch? then CALM
    else CALM.(dispatch := if p.score > n.tick then Reinsert else if HasRoom(l, n, Jobs) then ToJobs else Backoff)
  }

  lemma FirstMoves(c: Config, l: Limits, n: Net, stage: Stage) returns (i: nat, e: Env)
    requires ValidLimits(l) && Owned(n) && n.queue == []
    requires Occupancy(n, stage) > 0 && ClearBelow(n, stage)
    ensures CanMove(c, l, n, i, e) && StageOf(n.flight[i].at) == stage
  {
    i := FirstAt(n, stage);
    var t := n.flight[i];
    e := Calm(l, n, t.at);
    StagesAdvance(c, n.stores[t.mon], t.at, e);
    var next := Advance(c, n.stores[t.mon], t.at, e).1;
    if next.Some? && StageOf(next.value) != stage {
      assert Occupancy(n, StageOf(next.value)) == 0;
    }
  }

  /** A goroutine other than the scheduler's ticker and the API makes a step ... */
  predicate Inner(ev: NetEvent) {
    Gainful(ev) || ev.Try?
  }

  /** ... that gets somewhere. */
  predicate Gainful(ev: NetEvent) {
    ev.Move? || ev.Take? || ev.Handle?
  }

  predicate InFlight(n: Net) {
    n.flight != [] || n.queue != [] || n.busy != []
  }

  lemma DeepestStage(n: Net) returns (stage: Stage)
    requires n.flight != []
    ensures Occupancy(n, stage) > 0 && ClearBelow(n, stage)
  {
    stage := StageOf(n.flight[0].at);
    WeighAt(n.flight, 0, At(stage));
    while exists s: Stage :: Depth(s) > Depth(stage) && Occupancy(n, s) > 0
      invariant Occupancy(n, stage) > 0
      decreases 7 - Depth(stage)
    {
      var deeper: Stage :| Depth(deeper) > Depth(stage) && Occupancy(n, deeper) > 0;
      stage := deeper;
    }
  }

  lemma SomeoneMoves(c: Config, l: Limits, n: Net) returns (ev: NetEvent)
    requires ValidLimits(l) && Owned(n) && InFlight(n)
    ensures Gainful(ev) && Enabled(c, l, n, ev)
  {
    if n.busy != [] {
      ev := Handle(0, false);
    } else if n.queue != [] {
      ev := Take;
    } else {
      var stage := DeepestStage(n);
      var i, e := FirstMoves(c, l, n, stage);
      ev := Move(i, e);
    }
  }

  /** Whenever anything is in flight, some goroutine other than the scheduler's ticker
      can make a step, for all channel sizes and worker counts from 1 on. */
  lemma DeadlockFreedom(c: Config, l: Limits, evs: seq<NetEvent>)
    requires ValidLimits(l) && InFlight(NetRun(c, l, evs))
    ensures exists ev :: Gainful(ev) && Enabled(c, l, NetRun(c, l, evs), ev)
  {
    FlightOwned(c, l, evs);
    var ev := SomeoneMoves(c, l, NetRun(c, l, evs));
  }

  // Termination

  /** How many steps a token can still take, counting two for the alert it may send. */
  function Rank(p: Place): nat {
    match p
    case Batch(_) => 21
    case JobQ => 20
    case Load => 19
    case Requeue => 1
    case Acquire(_) => 18
    case Http(_) => 17
    case HttpDone(_) => 16
    case ResultQ(_) => 15
    case Routing(_) => 14
    case SuccessQ(_) => 13
    case FailureQ(_) => 13
    case FTerminal(_) => 1
    case FRetry(_) => 12
    case FClearRetry(_) => 11
    case FIncr(_) => 10
    case FStamp(_, _) => 9
    case FMark(_) => 8
    case FCreate(_) => 7
    case FMarkDb(_, _) => 6
    case FSend(_, _) => 5
    case FSched(_) => 1
    case SGet(_) => 11
    case SClose(_) => 10
    case SMarkRec(_, _) => 9
    case SSend(_, _) => 8
    case SClear(_) => 3
    case SClearRetry(_) => 2
    case SSched(_) => 1
  }

  /** Three steps for each place to come, to pay for two failed tries there. */
  function TokenRank(): Token -> nat {
    (t: Token) => 3 * Rank(t.at) + (if t.tried < 2 then 2 - t.tried else 0)
  }

  function Work(n: Net): nat {
    Weigh(n.flight, TokenRank()) + 2 * |n.queue| + |n.busy|
  }

  /** This step lowers the rank, by two more if it sends an alert. */
  predicate Lowers(p: Place, next: Option<Place>) {
    (if next.Some? then Rank(next.value) else 0) + (if AlertOf(p).Some? then 2 else 0) < Rank(p)
  }

  lemma FailureLowers(c: Config, st: Store, p: Place, e: Env)
    requires InFailureHandler(p)
    ensures Lowers(p, FailureStep(c, st, p, e).1)
  {
  }

  lemma SuccessLowers(c: Config, st: Store, p: Place, e: Env)
    requires InSuccessHandler(p)
    ensures Lowers(p, SuccessStep(c, st, p, e).1)
  {
  }

  lemma TransportLowers(c: Config, st: Store, p: Place, e: Env)
    requires !InFailureHandler(p) && !InSuccessHandler(p)
    ensures Lowers(p, TransportStep(c, st, p, e).1)
  {
  }

  lemma RankDrops(c: Config, st: Store, p: Place, e: Env)
    ensures Lowers(p, Advance(c, st, p, e).1)
  {
    if InFailureHandler(p) {
      FailureLowers(c, st, p, e);
    } else if InSuccessHandler(p) {
      SuccessLowers(c, st, p, e);
    } else {
      TransportLowers(c, st, p, e);
    }
  }

  lemma WorkDrops(c: Config, l: Limits, n: Net, ev: NetEvent)
    requires Inner(ev) && Enabled(c, l, n, ev)
    ensures Work(Next(c, n, ev)) < Work(n)
  {
    if ev.Move? {
      var t := n.flight[ev.i];
      var next := Advance(c, n.stores[t.mon], t.at, ev.e).1;
      RankDrops(c, n.stores[t.mon], t.at, ev.e);
      WeighMove(n.flight, ev.i, Successor(t.mon, next), TokenRank());
    } else if ev.Try? {
      var t := n.flight[ev.i];
      WeighLowered(n.flight, ev.i, t.(tried := t.tried + 1), TokenRank());
    }
  }

  /** A run of the pipeline from n in which the scheduler does not tick and no user
      interferes, every event being possible when it comes. */
  ghost predicate Quiet(c: Config, l: Limits, n: Net, evs: seq<NetEvent>)
    decreases |evs|
  {
    evs == [] || (Inner(evs[0]) && Enabled(c, l, n, evs[0]) && Quiet(c, l, Next(c, n, evs[0]), evs[1..]))
  }

  function QuietEnd(c: Config, l: Limits, n: Net, evs: seq<NetEvent>): Net
    decreases |evs|
  {
    if evs == [] then n else QuietEnd(c, l, NetApply(c, l, n, evs[0]), evs[1..])
  }

  /** With the scheduler paused, the pipeline makes at most Work(n) more steps ... */
  lemma {:induction false} QuietRunsEnd(c: Config, l: Limits, n: Net, evs: seq<NetEvent>)
    requires Quiet(c, l, n, evs)
    ensures |evs| <= Work(n)
    decreases |evs|
  {
    if evs != [] {
      WorkDrops(c, l, n, evs[0]);
      QuietRunsEnd(c, l, Next(c, n, evs[0]), evs[1..]);
    }
  }

  lemma OwnedStep(c: Config, l: Limits, n: Net, ev: NetEvent)
    requires Owned(n) && Enabled(c, l, n, ev)
    ensures Owned(Next(c, n, ev))
  {
  }

  /** ... and when it can make no more, every channel and every worker is empty. */
  lemma {:induction false} QuietRunsEndEmpty(c: Config, l: Limits, n: Net, evs: seq<NetEvent>)
    requires ValidLimits(l) && Owned(n) && Quiet(c, l, n, evs)
    requires forall ev :: Inner(ev) ==> !Enabled(c, l, QuietEnd(c, l, n, evs), ev)
    ensures !InFlight(QuietEnd(c, l, n, evs))
    decreases |evs|
  {
    if evs != [] {
      OwnedStep(c, l, n, evs[0]);
      QuietRunsEndEmpty(c, l, Next(c, n, evs[0]), evs[1..]);
    } else if InFlight(n) {
      var ev := SomeoneMoves(c, l, n);
    }
  }
}
