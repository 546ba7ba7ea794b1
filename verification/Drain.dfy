/** Shutting the result side down (internals/app/container.go, Shutdown): channels are
    closed in order, each after its senders are gone, and workers leave once their
    channel is closed and empty.

    HTTP requests may still be under way when it begins, and every later stage may be
    full. The scheduler and the executor's workers are taken to be idle already: Stop
    waits for HTTP goroutines only, so this is what Shutdown relies on. Calls to Redis
    and Postgres may fail in any way meanwhile. */
module Drain {
  import opened Sequences
  import opened Domain
  import opened FineSteps
  import opened MonitorMachine
  import opened Network
  import opened Progress
  import AtMostOnce
  import Projection

  /** Where Shutdown is. */
  datatype Phase =
    | ClosingJobs
    | WaitingHttp
    | ClosingResults
    | WaitingWorkers
    | ClosingAlerts
    | WaitingAlerts
    | ClosingRedis
    | Stopped

  function PhasesLeft(p: Phase): nat {
    match p
    case ClosingJobs => 7
    case WaitingHttp => 6
    case ClosingResults => 5
    case WaitingWorkers => 4
    case ClosingAlerts => 3
    case WaitingAlerts => 2
    case ClosingRedis => 1
    case Stopped => 0
  }

  /** `router` says that the router runs; `successes`, `failures` and `alerters` count
      the workers that have not left; `pushed` lists the results sent to resultChan since
      Shutdown began and `handled` those taken by a worker. */
  datatype Sys = Sys(
    net: Net,
    phase: Phase,
    router: bool,
    successes: nat,
    failures: nat,
    alerters: nat,
    pushed: seq<Token>,
    handled: seq<Token>)

  predicate ResultsClosed(s: Sys) {
    PhasesLeft(s.phase) < PhasesLeft(ClosingResults)
  }

  /** The router closes failureChan and successChan as it leaves. */
  predicate OutputsClosed(s: Sys) {
    !s.router
  }

  predicate AlertsClosed(s: Sys) {
    PhasesLeft(s.phase) < PhasesLeft(ClosingAlerts)
  }

  /** A goroutine ends, or Shutdown itself goes on. */
  datatype Exit =
    | RouterLeaves
    | SuccessWorkerLeaves
    | FailureWorkerLeaves
    | AlertWorkerLeaves
    | Proceed

  datatype SysEvent = Work(ev: NetEvent) | Leave(exit: Exit)

  /** A goroutine that has left receives nothing. */
  predicate Staffed(s: Sys, ev: NetEvent) {
    match ev
    case Move(i, _) =>
      i < |s.net.flight| &&
      var p := s.net.flight[i].at;
      && (p.ResultQ? ==> s.router)
      && (p.SuccessQ? ==> Occupancy(s.net, HandlingSuccess) < s.successes)
      && (p.FailureQ? ==> Occupancy(s.net, HandlingFailure) < s.failures)
    case Take => |s.net.busy| < s.alerters
    case _ => true
  }

  predicate MayProceed(s: Sys) {
    match s.phase
    case WaitingHttp => Occupancy(s.net, Requesting) == 0
    case WaitingWorkers => s.successes == 0 && s.failures == 0
    case WaitingAlerts => s.alerters == 0
    case Stopped => false
    case _ => true
  }

  function NextPhase(p: Phase): Phase {
    match p
    case ClosingJobs => WaitingHttp
    case WaitingHttp => ClosingResults
    case ClosingResults => WaitingWorkers
    case WaitingWorkers => ClosingAlerts
    case ClosingAlerts => WaitingAlerts
    case WaitingAlerts => ClosingRedis
    case ClosingRedis => Stopped
    case Stopped => Stopped
  }

  predicate ExitEnabled(s: Sys, exit: Exit) {
    match exit
    case RouterLeaves =>
      s.router && ResultsClosed(s) && Occupancy(s.net, Results) == 0 && Occupancy(s.net, Router) == 0
    case SuccessWorkerLeaves =>
      OutputsClosed(s) && Occupancy(s.net, Successes) == 0 && Occupancy(s.net, HandlingSuccess) < s.successes
    case FailureWorkerLeaves =>
      OutputsClosed(s) && Occupancy(s.net, Failures) == 0 && Occupancy(s.net, HandlingFailure) < s.failures
    case AlertWorkerLeaves => AlertsClosed(s) && s.net.queue == [] && |s.net.busy| < s.alerters
    case Proceed => MayProceed(s)
  }

  function ExitNext(s: Sys, exit: Exit): Sys
    requires ExitEnabled(s, exit)
  {
    match exit
    case RouterLeaves => s.(router := false)
    case SuccessWorkerLeaves => s.(successes := s.successes - 1)
    case FailureWorkerLeaves => s.(failures := s.failures - 1)
    case AlertWorkerLeaves => s.(alerters := s.alerters - 1)
    case Proceed => s.(phase := NextPhase(s.phase))
  }

  predicate WorkEnabled(c: Config, l: Limits, s: Sys, nev: NetEvent) {
    Inner(nev) && Enabled(c, l, s.net, nev) && Staffed(s, nev)
  }

  predicate EntersHandler(p: Place) {
    p.SuccessQ? || p.FailureQ?
  }

  function WorkNext(c: Config, l: Limits, s: Sys, nev: NetEvent): Sys
    requires WorkEnabled(c, l, s, nev)
  {
    var next := s.(net := Next(c, s.net, nev));
    if !nev.Move? then next
    else
      var t := s.net.flight[nev.i];
      next.(pushed := if t.at.HttpDone? then s.pushed + [t] else s.pushed,
            handled := if EntersHandler(t.at) then s.handled + [t] else s.handled)
  }

  predicate SysEnabled(c: Config, l: Limits, s: Sys, ev: SysEvent) {
    match ev
    case Work(nev) => WorkEnabled(c, l, s, nev)
    case Leave(exit) => ExitEnabled(s, exit)
  }

  function SysNext(c: Config, l: Limits, s: Sys, ev: SysEvent): Sys
    requires SysEnabled(c, l, s, ev)
  {
    match ev
    case Work(nev) => WorkNext(c, l, s, nev)
    case Leave(exit) => ExitNext(s, exit)
  }

  function SysApply(c: Config, l: Limits, s: Sys, ev: SysEvent): Sys {
    if SysEnabled(c, l, s, ev) then SysNext(c, l, s, ev) else s
  }

  function SysRun(c: Config, l: Limits, s: Sys, evs: seq<SysEvent>): Sys {
    if evs == [] then s else SysApply(c, l, SysRun(c, l, s, evs[..|evs| - 1]), evs[|evs| - 1])
  }

  predicate Downstream(p: Place) {
    Depth(StageOf(p)) >= Depth(Requesting)
  }

  /** Shutdown begins: the scheduler and the executor's workers are idle, everybody else
      works. */
  ghost predicate Begins(l: Limits, s: Sys) {
    && Owned(s.net)
    && WithinCapacity(l, s.net)
    && AllDownstream(s.net)
    && s.phase == ClosingJobs && s.router
    && s.successes == l.successWorkers && s.failures == l.failureWorkers && s.alerters == l.alertWorkers
    && s.pushed == [] && s.handled == []
  }

  /** How many tokens wait or are worked on, by stage, and how many alerts. */
  datatype Gauge = Gauge(
    requesting: nat,
    results: nat,
    router: nat,
    successes: nat,
    failures: nat,
    inSuccess: nat,
    inFailure: nat,
    queue: nat,
    busy: nat)

  function Read(n: Net): Gauge {
    Gauge(Occupancy(n, Requesting), Occupancy(n, Results), Occupancy(n, Router), Occupancy(n, Successes),
          Occupancy(n, Failures), Occupancy(n, HandlingSuccess), Occupancy(n, HandlingFailure), |n.queue|, |n.busy|)
  }

  /** A worker leaves only when its channel is closed and empty; a channel is closed
      only when its senders have left. */
  predicate Ordered(l: Limits, s: Sys, g: Gauge) {
    && (PhasesLeft(s.phase) < PhasesLeft(WaitingHttp) ==> g.requesting == 0)
    && (!s.router ==> ResultsClosed(s) && g.results == 0 && g.router == 0)
    && g.inSuccess <= s.successes <= l.successWorkers
    && g.inFailure <= s.failures <= l.failureWorkers
    && g.busy <= s.alerters <= l.alertWorkers
    && (s.successes < l.successWorkers ==> !s.router && g.successes == 0)
    && (s.failures < l.failureWorkers ==> !s.router && g.failures == 0)
    && (PhasesLeft(s.phase) < PhasesLeft(WaitingWorkers) ==> s.successes == 0 && s.failures == 0)
    && (s.alerters < l.alertWorkers ==> AlertsClosed(s) && g.queue == 0)
    && (PhasesLeft(s.phase) < PhasesLeft(WaitingAlerts) ==> s.alerters == 0)
  }

  ghost predicate AllDownstream(n: Net) {
    forall i | 0 <= i < |n.flight| :: Downstream(n.flight[i].at)
  }

  ghost predicate Orderly(l: Limits, s: Sys) {
    Owned(s.net) && WithinCapacity(l, s.net) && AllDownstream(s.net) && Ordered(l, s, Read(s.net))
  }

  /** The one stage from which a token enters a downstream stage. */
  function Before(stage: Stage): Stage {
    match stage
    case Results => Requesting
    case Router => Results
    case Successes => Router
    case Failures => Router
    case HandlingSuccess => Successes
    case HandlingFailure => Failures
    case _ => Batched
  }

  lemma EntersFromBefore(c: Config, st: Store, p: Place, e: Env)
    requires Downstream(p)
    ensures var next := Advance(c, st, p, e).1;
      next.Some? ==>
        && Downstream(next.value)
        && (StageOf(next.value) != StageOf(p) ==> StageOf(p) == Before(StageOf(next.value)))
  {
    if InFailureHandler(p) {
      FailureStays(c, st, p, e);
    } else if InSuccessHandler(p) {
      SuccessStays(c, st, p, e);
    }
  }

  /** What leaves stage `from` arrives at stage `to`, if anywhere. */
  ghost predicate Passes(n: Net, n': Net, from: Stage, to: Option<Stage>) {
    && Occupancy(n, from) > 0
    && forall stage ::
         Occupancy(n', stage) + (if stage == from then 1 else 0)
         == Occupancy(n, stage) + (if to == Some(stage) then 1 else 0)
  }

  function StageAfter(c: Config, n: Net, i: nat, e: Env): Option<Stage>
    requires i < |n.flight| && n.flight[i].mon in n.stores
  {
    var next := Advance(c, n.stores[n.flight[i].mon], n.flight[i].at, e).1;
    if next.Some? then Some(StageOf(next.value)) else None
  }

  lemma MovePasses(c: Config, l: Limits, n: Net, i: nat, e: Env)
    requires CanMove(c, l, n, i, e)
    ensures Passes(n, Next(c, n, Move(i, e)), StageOf(n.flight[i].at), StageAfter(c, n, i, e))
  {
    var t := n.flight[i];
    var next := Advance(c, n.stores[t.mon], t.at, e).1;
    WeighAt(n.flight, i, At(StageOf(t.at)));
    var n' := Next(c, n, Move(i, e));
    var from, to := StageOf(t.at), StageAfter(c, n, i, e);
    forall stage
      ensures Occupancy(n', stage) + (if stage == from then 1 else 0)
              == Occupancy(n, stage) + (if to == Some(stage) then 1 else 0)
    {
      WeighMove(n.flight, i, Successor(t.mon, next), At(stage));
    }
  }

  lemma StaysDownstream(c: Config, l: Limits, n: Net, i: nat, e: Env)
    requires CanMove(c, l, n, i, e)
    requires AllDownstream(n)
    ensures AllDownstream(Next(c, n, Move(i, e)))
  {
    var t := n.flight[i];
    EntersFromBefore(c, n.stores[t.mon], t.at, e);
  }

  lemma SenderIsHandling(n: Net, i: nat)
    requires i < |n.flight| && Sends(n.flight[i].at)
    ensures Occupancy(n, HandlingSuccess) > 0 || Occupancy(n, HandlingFailure) > 0
  {
    WeighAt(n.flight, i, At(HandlingSuccess));
    WeighAt(n.flight, i, At(HandlingFailure));
  }

  lemma MoveQueue(c: Config, l: Limits, n: Net, i: nat, e: Env)
    requires CanMove(c, l, n, i, e)
    ensures var n' := Next(c, n, Move(i, e));
      n'.busy == n.busy && (!Sends(n.flight[i].at) ==> n'.queue == n.queue)
  {
  }

  /** What a token's step out of stage `from` makes of the counts. */
  predicate Shifts(g: Gauge, g': Gauge, from: Stage) {
    && g'.busy == g.busy
    && g'.requesting <= g.requesting
    && g'.results <= g.results + (if from == Requesting then 1 else 0)
    && g'.router <= g.router + (if from == Results then 1 else 0)
    && g'.successes <= g.successes + (if from == Router then 1 else 0)
    && g'.failures <= g.failures + (if from == Router then 1 else 0)
    && g'.inSuccess <= g.inSuccess + (if from == Successes then 1 else 0)
    && g'.inFailure <= g.inFailure + (if from == Failures then 1 else 0)
    && (from == Requesting ==> g.requesting > 0)
    && (from == Router ==> g.router > 0)
    && (from == Results ==> g.results > 0)
    && (g'.queue == g.queue || g.inSuccess > 0 || g.inFailure > 0)
  }

  lemma PassesShifts(n: Net, n': Net, from: Stage, to: Option<Stage>)
    requires Passes(n, n', from, to) && n'.busy == n.busy
    requires to.Some? && to.value != from ==> from == Before(to.value)
    requires Depth(from) >= Depth(Requesting)
    requires n'.queue == n.queue || Occupancy(n, HandlingSuccess) > 0 || Occupancy(n, HandlingFailure) > 0
    ensures Shifts(Read(n), Read(n'), from)
  {
  }

  lemma MoveShifts(c: Config, l: Limits, n: Net, i: nat, e: Env)
    requires CanMove(c, l, n, i, e) && AllDownstream(n)
    ensures Shifts(Read(n), Read(Next(c, n, Move(i, e))), StageOf(n.flight[i].at))
  {
    var t := n.flight[i];
    MoveQueue(c, l, n, i, e);
    MovePasses(c, l, n, i, e);
    EntersFromBefore(c, n.stores[t.mon], t.at, e);
    if Sends(t.at) {
      SenderIsHandling(n, i);
    }
    PassesShifts(n, Next(c, n, Move(i, e)), StageOf(t.at), StageAfter(c, n, i, e));
  }

  lemma OrderedShift(l: Limits, s: Sys, g: Gauge, g': Gauge, from: Stage, s': Sys)
    requires Ordered(l, s, g) && Shifts(g, g', from)
    requires s'.phase == s.phase && s'.router == s.router
    requires s'.successes == s.successes && s'.failures == s.failures && s'.alerters == s.alerters
    requires from == Successes ==> g.inSuccess < s.successes
    requires from == Failures ==> g.inFailure < s.failures
    ensures Ordered(l, s', g')
  {
  }

  lemma OrderedMove(c: Config, l: Limits, s: Sys, i: nat, e: Env)
    requires Orderly(l, s) && WorkEnabled(c, l, s, Move(i, e))
    ensures Ordered(l, WorkNext(c, l, s, Move(i, e)), Read(Next(c, s.net, Move(i, e))))
  {
    var s' := WorkNext(c, l, s, Move(i, e));
    MoveShifts(c, l, s.net, i, e);
    OrderedShift(l, s, Read(s.net), Read(s'.net), StageOf(s.net.flight[i].at), s');
  }

  /** A failed try moves nothing. */
  lemma OrderedTry(c: Config, l: Limits, s: Sys, i: nat, e: Env)
    requires Orderly(l, s) && WorkEnabled(c, l, s, Try(i, e))
    ensures Ordered(l, WorkNext(c, l, s, Try(i, e)), Read(Next(c, s.net, Try(i, e))))
    ensures AllDownstream(Next(c, s.net, Try(i, e)))
  {
    var t := s.net.flight[i];
    forall stage
      ensures Occupancy(Next(c, s.net, Try(i, e)), stage) == Occupancy(s.net, stage)
    {
      WeighReplace(s.net.flight, i, t.(tried := t.tried + 1), At(stage));
    }
  }

  lemma OrderedAlert(c: Config, l: Limits, s: Sys, nev: NetEvent)
    requires Orderly(l, s) && WorkEnabled(c, l, s, nev) && !nev.Move? && !nev.Try?
    ensures Ordered(l, WorkNext(c, l, s, nev), Read(Next(c, s.net, nev)))
    ensures AllDownstream(Next(c, s.net, nev))
  {
  }

  lemma OrderlyWork(c: Config, l: Limits, s: Sys, nev: NetEvent)
    requires Orderly(l, s) && WorkEnabled(c, l, s, nev)
    ensures Orderly(l, WorkNext(c, l, s, nev))
  {
    OwnedStep(c, l, s.net, nev);
    CapacityStep(c, l, s.net, nev);
    if nev.Move? {
      StaysDownstream(c, l, s.net, nev.i, nev.e);
      OrderedMove(c, l, s, nev.i, nev.e);
    } else if nev.Try? {
      OrderedTry(c, l, s, nev.i, nev.e);
    } else {
      OrderedAlert(c, l, s, nev);
    }
  }

  lemma OrderedExit(l: Limits, s: Sys, exit: Exit)
    requires Ordered(l, s, Read(s.net)) && ExitEnabled(s, exit)
    ensures Ordered(l, ExitNext(s, exit), Read(s.net)) && ExitNext(s, exit).net == s.net
  {
  }

  lemma OrderlyStep(c: Config, l: Limits, s: Sys, ev: SysEvent)
    requires Orderly(l, s) && SysEnabled(c, l, s, ev)
    ensures Orderly(l, SysNext(c, l, s, ev))
  {
    match ev
    case Work(nev) => OrderlyWork(c, l, s, nev);
    case Leave(exit) => OrderedExit(l, s, exit);
  }

  lemma {:induction false} StaysOrderly(c: Config, l: Limits, s0: Sys, evs: seq<SysEvent>)
    requires Begins(l, s0)
    ensures Orderly(l, SysRun(c, l, s0, evs))
  {
    if evs != [] {
      var s := SysRun(c, l, s0, evs[..|evs| - 1]);
      StaysOrderly(c, l, s0, evs[..|evs| - 1]);
      if SysEnabled(c, l, s, evs[|evs| - 1]) {
        OrderlyStep(c, l, s, evs[|evs| - 1]);
      }
    } else {
      CountsBound(l, s0);
    }
  }

  lemma CountsBound(l: Limits, s: Sys)
    requires WithinCapacity(l, s.net) && AllDownstream(s.net)
    ensures Occupancy(s.net, HandlingSuccess) <= l.successWorkers && Occupancy(s.net, HandlingFailure) <= l.failureWorkers
  {
    assert Capacity(l, HandlingSuccess) == l.successWorkers;
    assert Capacity(l, HandlingFailure) == l.failureWorkers;
  }

  // The guarantees of Shutdown

  /** This step sends on a channel that is closed. */
  predicate SendsOnClosed(s: Sys, i: nat)
    requires i < |s.net.flight|
  {
    var p := s.net.flight[i].at;
    (p.HttpDone? && ResultsClosed(s)) || (p.Routing? && OutputsClosed(s)) || (Sends(p) && AlertsClosed(s))
  }

  lemma NoToken(l: Limits, s: Sys, i: nat)
    requires Orderly(l, s) && i < |s.net.flight|
    ensures Downstream(s.net.flight[i].at) && Occupancy(s.net, StageOf(s.net.flight[i].at)) > 0
  {
    WeighAt(s.net.flight, i, At(StageOf(s.net.flight[i].at)));
  }

  lemma QuietAfterWorkers(l: Limits, s: Sys, g: Gauge)
    requires ValidLimits(l) && Ordered(l, s, g) && PhasesLeft(s.phase) < PhasesLeft(WaitingWorkers)
    ensures g.requesting == g.results == g.router == g.successes == g.failures == g.inSuccess == g.inFailure == 0
    ensures s.phase == Stopped || s.phase == ClosingRedis ==> g.queue == g.busy == 0
  {
  }

  lemma OrderlySends(l: Limits, s: Sys, i: nat)
    requires ValidLimits(l) && Orderly(l, s) && i < |s.net.flight|
    ensures !SendsOnClosed(s, i)
  {
    NoToken(l, s, i);
    if Sends(s.net.flight[i].at) && AlertsClosed(s) {
      QuietAfterWorkers(l, s, Read(s.net));
      SenderIsHandling(s.net, i);
    }
  }

  /** Nothing is ever sent on a closed channel, so Shutdown causes no panic. */
  lemma NoSendOnClosed(c: Config, l: Limits, s0: Sys, evs: seq<SysEvent>, i: nat)
    requires ValidLimits(l) && Begins(l, s0) && i < |SysRun(c, l, s0, evs).net.flight|
    ensures !SendsOnClosed(SysRun(c, l, s0, evs), i)
  {
    StaysOrderly(c, l, s0, evs);
    OrderlySends(l, SysRun(c, l, s0, evs), i);
  }

  /** When Shutdown returns, no result, no handler and no alert is left behind. */
  lemma StoppedIsEmpty(c: Config, l: Limits, s0: Sys, evs: seq<SysEvent>)
    requires ValidLimits(l) && Begins(l, s0) && SysRun(c, l, s0, evs).phase == Stopped
    ensures !InFlight(SysRun(c, l, s0, evs).net)
  {
    var s := SysRun(c, l, s0, evs);
    StaysOrderly(c, l, s0, evs);
    QuietAfterWorkers(l, s, Read(s.net));
    if s.net.flight != [] {
      assert Downstream(s.net.flight[0].at);
      NoToken(l, s, 0);
    }
  }

  // Exactly once

  /** The result is waiting for a worker. */
  function Waiting(m: nat, r: HTTPResult): Token -> nat {
    (t: Token) =>
      if t.mon == m && (t.at.ResultQ? || t.at.Routing? || t.at.SuccessQ? || t.at.FailureQ?) && t.at.r == r then 1 else 0
  }

  function PushedAs(m: nat, r: HTTPResult): Token -> nat {
    (t: Token) => if t.mon == m && t.at.HttpDone? && t.at.r == r then 1 else 0
  }

  function TakenAs(m: nat, r: HTTPResult): Token -> nat {
    (t: Token) => if t.mon == m && EntersHandler(t.at) && t.at.r == r then 1 else 0
  }

  /** Results that wait or were handled, less those pushed meanwhile. */
  function Accounts(flight: seq<Token>, pushed: seq<Token>, handled: seq<Token>, m: nat, r: HTTPResult): int {
    Weigh(flight, Waiting(m, r)) + Weigh(handled, TakenAs(m, r)) - Weigh(pushed, PushedAs(m, r))
  }

  function Balance(s: Sys, m: nat, r: HTTPResult): int {
    Accounts(s.net.flight, s.pushed, s.handled, m, r)
  }

  lemma WaitingOnce(c: Config, st: Store, p: Place, e: Env, mon: nat, k: nat, m: nat, r: HTTPResult)
    requires Downstream(p)
    ensures var next := Advance(c, st, p, e).1;
      (if next.Some? then Waiting(m, r)(Token(mon, next.value, 0)) else 0) + TakenAs(m, r)(Token(mon, p, k))
      == Waiting(m, r)(Token(mon, p, k)) + PushedAs(m, r)(Token(mon, p, k))
  {
    if InFailureHandler(p) {
      FailureStays(c, st, p, e);
    } else if InSuccessHandler(p) {
      SuccessStays(c, st, p, e);
    }
  }

  lemma AccountsMove(flight: seq<Token>, pushed: seq<Token>, handled: seq<Token>, i: nat, next: Option<Token>, m: nat, r: HTTPResult)
    requires i < |flight|
    requires (if next.Some? then Waiting(m, r)(next.value) else 0) + TakenAs(m, r)(flight[i])
          == Waiting(m, r)(flight[i]) + PushedAs(m, r)(flight[i])
    ensures Accounts(Sequences.Move(flight, i, next),
                     if flight[i].at.HttpDone? then pushed + [flight[i]] else pushed,
                     if EntersHandler(flight[i].at) then handled + [flight[i]] else handled, m, r)
         == Accounts(flight, pushed, handled, m, r)
  {
    WeighMove(flight, i, next, Waiting(m, r));
    WeighAppend(pushed, [flight[i]], PushedAs(m, r));
    WeighAppend(handled, [flight[i]], TakenAs(m, r));
    WeighOne(flight[i], PushedAs(m, r));
    WeighOne(flight[i], TakenAs(m, r));
  }

  lemma AccountsTry(c: Config, l: Limits, s: Sys, i: nat, e: Env, m: nat, r: HTTPResult)
    requires WorkEnabled(c, l, s, Try(i, e))
    ensures Balance(WorkNext(c, l, s, Try(i, e)), m, r) == Balance(s, m, r)
  {
    var t := s.net.flight[i];
    WeighReplace(s.net.flight, i, t.(tried := t.tried + 1), Waiting(m, r));
  }

  lemma AccountsStep(c: Config, l: Limits, s: Sys, nev: NetEvent, m: nat, r: HTTPResult)
    requires AllDownstream(s.net) && WorkEnabled(c, l, s, nev)
    ensures Balance(WorkNext(c, l, s, nev), m, r) == Balance(s, m, r)
  {
    if nev.Move? {
      var t := s.net.flight[nev.i];
      var next := Advance(c, s.net.stores[t.mon], t.at, nev.e).1;
      WaitingOnce(c, s.net.stores[t.mon], t.at, nev.e, t.mon, t.tried, m, r);
      AccountsMove(s.net.flight, s.pushed, s.handled, nev.i, Successor(t.mon, next), m, r);
    } else if nev.Try? {
      AccountsTry(c, l, s, nev.i, nev.e, m, r);
    }
  }

  lemma ExitKeepsTokens(s: Sys, exit: Exit)
    requires ExitEnabled(s, exit)
    ensures var s' := ExitNext(s, exit); s'.net == s.net && s'.pushed == s.pushed && s'.handled == s.handled
  {
  }

  lemma AccountsSysStep(c: Config, l: Limits, s: Sys, ev: SysEvent, m: nat, r: HTTPResult)
    requires AllDownstream(s.net) && SysEnabled(c, l, s, ev)
    ensures Balance(SysNext(c, l, s, ev), m, r) == Balance(s, m, r)
  {
    match ev
    case Work(nev) => AccountsStep(c, l, s, nev, m, r);
    case Leave(exit) => ExitKeepsTokens(s, exit);
  }

  lemma {:induction false} ResultsAccounted(c: Config, l: Limits, s0: Sys, evs: seq<SysEvent>, m: nat, r: HTTPResult)
    requires Begins(l, s0)
    ensures Balance(SysRun(c, l, s0, evs), m, r) == Weigh(s0.net.flight, Waiting(m, r))
  {
    if evs != [] {
      var front := evs[..|evs| - 1];
      ResultsAccounted(c, l, s0, front, m, r);
      StaysOrderly(c, l, s0, front);
      if SysEnabled(c, l, SysRun(c, l, s0, front), evs[|evs| - 1]) {
        AccountsSysStep(c, l, SysRun(c, l, s0, front), evs[|evs| - 1], m, r);
      }
    }
  }

  /** When Shutdown returns, every result has been taken by exactly one worker, whether
      it was buffered when Shutdown began or pushed by a request that was under way. */
  lemma ResultsHandledOnce(c: Config, l: Limits, s0: Sys, evs: seq<SysEvent>, m: nat, r: HTTPResult)
    requires ValidLimits(l) && Begins(l, s0) && SysRun(c, l, s0, evs).phase == Stopped
    ensures var s := SysRun(c, l, s0, evs);
      Weigh(s.handled, TakenAs(m, r)) == Weigh(s0.net.flight, Waiting(m, r)) + Weigh(s.pushed, PushedAs(m, r))
  {
    ResultsAccounted(c, l, s0, evs, m, r);
    StoppedIsEmpty(c, l, s0, evs);
  }

  // Termination

  function Left(s: Sys): nat {
    Progress.Work(s.net) + s.successes + s.failures + s.alerters + (if s.router then 1 else 0) + PhasesLeft(s.phase)
  }

  lemma LeftDropsAtWork(c: Config, l: Limits, s: Sys, nev: NetEvent)
    requires WorkEnabled(c, l, s, nev)
    ensures Left(WorkNext(c, l, s, nev)) < Left(s)
  {
    WorkDrops(c, l, s.net, nev);
  }

  lemma LeftDropsAtExit(s: Sys, exit: Exit)
    requires ExitEnabled(s, exit)
    ensures Left(ExitNext(s, exit)) < Left(s)
  {
  }

  lemma LeftDrops(c: Config, l: Limits, s: Sys, ev: SysEvent)
    requires SysEnabled(c, l, s, ev)
    ensures Left(SysNext(c, l, s, ev)) < Left(s)
  {
    match ev
    case Work(nev) => LeftDropsAtWork(c, l, s, nev);
    case Leave(exit) => LeftDropsAtExit(s, exit);
  }

  lemma EmptyCounts(n: Net)
    requires n.flight == []
    ensures forall stage :: Occupancy(n, stage) == 0
  {
  }

  /** With no work left, Shutdown proceeds or a worker leaves. */
  lemma ExitPossible(c: Config, l: Limits, s: Sys) returns (ev: SysEvent)
    requires ValidLimits(l) && Ordered(l, s, Read(s.net)) && s.phase != Stopped && !InFlight(s.net)
    ensures SysEnabled(c, l, s, ev)
  {
    EmptyCounts(s.net);
    if MayProceed(s) {
      ev := Leave(Proceed);
    } else if s.router {
      ev := Leave(RouterLeaves);
    } else if s.successes > 0 {
      ev := Leave(SuccessWorkerLeaves);
    } else if s.failures > 0 {
      ev := Leave(FailureWorkerLeaves);
    } else {
      ev := Leave(AlertWorkerLeaves);
    }
  }

  /** A step of the pipeline that is possible finds its worker in place. */
  lemma WorkStaffed(c: Config, l: Limits, s: Sys, i: nat, e: Env)
    requires ValidLimits(l) && Orderly(l, s) && s.net.queue == [] && CanMove(c, l, s.net, i, e)
    requires ClearBelow(s.net, StageOf(s.net.flight[i].at))
    ensures Staffed(s, Move(i, e))
  {
    var p := s.net.flight[i].at;
    NoToken(l, s, i);
    if p.SuccessQ? {
      assert Occupancy(s.net, HandlingSuccess) == 0;
    } else if p.FailureQ? {
      assert Occupancy(s.net, HandlingFailure) == 0;
    }
  }

  /** Some goroutine can go on until Shutdown has returned; with LeftDrops, it returns. */
  lemma ShutdownProgresses(c: Config, l: Limits, s: Sys) returns (ev: SysEvent)
    requires ValidLimits(l) && Orderly(l, s) && s.phase != Stopped
    ensures SysEnabled(c, l, s, ev)
  {
    var n := s.net;
    if n.busy != [] {
      ev := Work(Handle(0, false));
    } else if n.queue != [] {
      ev := Work(Take);
    } else if n.flight != [] {
      var stage := DeepestStage(n);
      var i, e := FirstMoves(c, l, n, stage);
      WorkStaffed(c, l, s, i, e);
      ev := Work(Move(i, e));
    } else {
      ev := ExitPossible(c, l, s);
    }
  }

  /** How many events of a run are possible when they come. */
  function StepsIn(c: Config, l: Limits, s: Sys, evs: seq<SysEvent>): nat {
    if evs == [] then 0
    else
      var front := evs[..|evs| - 1];
      StepsIn(c, l, s, front) + Bit(SysEnabled(c, l, SysRun(c, l, s, front), evs[|evs| - 1]))
  }

  /** Shutdown cannot go on for ever: no run makes more than Left(s) steps ... */
  lemma {:induction false} ShutdownIsBounded(c: Config, l: Limits, s: Sys, evs: seq<SysEvent>)
    ensures StepsIn(c, l, s, evs) + Left(SysRun(c, l, s, evs)) <= Left(s)
  {
    if evs != [] {
      var front := evs[..|evs| - 1];
      ShutdownIsBounded(c, l, s, front);
      if SysEnabled(c, l, SysRun(c, l, s, front), evs[|evs| - 1]) {
        LeftDrops(c, l, SysRun(c, l, s, front), evs[|evs| - 1]);
      }
    }
  }

  /** ... and a run that cannot go on has reached its end. */
  lemma ShutdownTerminates(c: Config, l: Limits, s0: Sys, evs: seq<SysEvent>)
    requires ValidLimits(l) && Begins(l, s0)
    ensures var s := SysRun(c, l, s0, evs); s.phase == Stopped || exists ev :: SysEnabled(c, l, s, ev)
  {
    var s := SysRun(c, l, s0, evs);
    StaysOrderly(c, l, s0, evs);
    if s.phase != Stopped {
      var ev := ShutdownProgresses(c, l, s);
    }
  }

  lemma {:induction false} AlertsStayAccounted(c: Config, l: Limits, s0: Sys, evs: seq<SysEvent>, m: nat, a: Alert)
    requires Projection.Accounted(s0.net, m, a)
    ensures Projection.Accounted(SysRun(c, l, s0, evs).net, m, a)
  {
    if evs != [] {
      var front, ev := evs[..|evs| - 1], evs[|evs| - 1];
      AlertsStayAccounted(c, l, s0, front, m, a);
      var s := SysRun(c, l, s0, front);
      if ev.Work? && WorkEnabled(c, l, s, ev.ev) {
        Projection.AccountedStep(c, l, s.net, ev.ev, m, a);
      }
    }
  }

  /** Every alert sent before or during Shutdown has been handled when it returns. */
  lemma AlertsAllHandled(c: Config, l: Limits, s0: Sys, evs: seq<SysEvent>, m: nat, a: Alert)
    requires ValidLimits(l) && Begins(l, s0) && Projection.Accounted(s0.net, m, a)
    requires SysRun(c, l, s0, evs).phase == Stopped
    ensures var n := SysRun(c, l, s0, evs).net;
      Weigh(n.handled, Projection.IsSignal(m, a)) == Weigh(Projection.AlertsIn(n, m), AtMostOnce.Is(a))
  {
    AlertsStayAccounted(c, l, s0, evs, m, a);
    StoppedIsEmpty(c, l, s0, evs);
  }
}
