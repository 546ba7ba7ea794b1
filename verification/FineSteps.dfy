/** One unit of work and its next atomic step.

    A monitor that is being checked is a token. `Place` is where the token is: which
    channel holds it, or which goroutine and at which call. `Advance` performs the
    one call that the place stands for, on the state of that monitor, and says where
    the token goes next. A call is one Redis command (or one bounded retry of it),
    one SQL statement, one channel operation or one HTTP request. */
module FineSteps {
  import opened Sequences
  import opened Domain
  import Executor

  /** Everything shared that concerns one monitor. `due` is its score in the sorted
      set monitor:schedule. The last three fields are histories: deletions of the
      incident hash, disabled-to-enabled updates, and whether a terminal failure
      consumed the monitor's last token since it was last enabled. */
  datatype Store = Store(
    row: Option<MonitorRow>,
    due: Option<int>,
    core: Core,
    deletions: nat,
    enables: nat,
    parked: bool)

  datatype Place =
    // scheduler
    | Batch(score: int)
    | JobQ
    // executor
    | Load
    | Requeue
    | Acquire(row: MonitorRow)
    | Http(row: MonitorRow)
    | HttpDone(r: HTTPResult)
    // router
    | ResultQ(r: HTTPResult)
    | Routing(r: HTTPResult)
    | SuccessQ(r: HTTPResult)
    | FailureQ(r: HTTPResult)
    // failure worker
    | FTerminal(r: HTTPResult)
    | FRetry(r: HTTPResult)
    | FClearRetry(r: HTTPResult)
    | FIncr(r: HTTPResult)
    | FStamp(r: HTTPResult, count: nat)
    | FMark(r: HTTPResult)
    | FCreate(r: HTTPResult)
    | FMarkDb(r: HTTPResult, id: nat)
    | FSend(r: HTTPResult, id: nat)
    | FSched(delay: int)
    // success worker
    | SGet(r: HTTPResult)
    | SClose(r: HTTPResult)
    | SMarkRec(r: HTTPResult, id: nat)
    | SSend(r: HTTPResult, id: nat)
    | SClear(r: HTTPResult)
    | SClearRetry(r: HTTPResult)
    | SSched(delay: int)

  datatype Dispatch = ToJobs | Backoff | Reinsert

  /** What the surroundings decide in one step: how the call ends, which open row the
      database reports, the clock, what the scheduler does with a popped entry, and
      the answer of the monitored endpoint. */
  datatype Env = Env(o: Outcome, pick: nat, now: int, dispatch: Dispatch, reply: Reply)

  /** Where handleFailure makes its first call. */
  function FailureEntry(r: HTTPResult): Place {
    if Terminal(r) then FTerminal(r)
    else if r.retryable then FRetry(r)
    else FIncr(r)
  }

  function Scheduled(st: Store, at: int, o: Outcome): Store {
    if o.applied > 0 then st.(due := Some(at)) else st
  }

  function WithHash(st: Store, h: Hash, o: Outcome): Store {
    if o.applied > 0 then st.(core := st.core.(hash := Some(h))) else st
  }

  function ClearedHash(st: Store, o: Outcome): Store {
    if o.applied > 0 && st.core.hash.Some?
    then st.(core := st.core.(hash := None), deletions := st.deletions + 1)
    else st
  }

  function ClearedRetry(st: Store, o: Outcome): Store {
    if o.applied > 0 then st.(core := st.core.(retry := 0)) else st
  }

  function Closed(st: Store, o: Outcome): Store {
    if o.applied > 0 then st.(core := st.core.(open := AllFalse(|st.core.open|))) else st
  }

  function Sent(st: Store, a: Alert): Store {
    st.(core := st.core.(alerts := st.core.alerts + [a]))
  }

  predicate InFailureHandler(p: Place) {
    p.FTerminal? || p.FRetry? || p.FClearRetry? || p.FIncr? || p.FStamp? || p.FMark? || p.FCreate?
    || p.FMarkDb? || p.FSend? || p.FSched?
  }

  predicate InSuccessHandler(p: Place) {
    p.SGet? || p.SClose? || p.SMarkRec? || p.SSend? || p.SClear? || p.SClearRetry? || p.SSched?
  }

  /** One call of handleFailure. */
  function FailureStep(c: Config, st: Store, p: Place, e: Env): (Store, Option<Place>)
    requires InFailureHandler(p)
  {
    var k := st.core;
    var h := HashOr(k);
    match p
    case FTerminal(r) => (st, None)
    case FRetry(r) =>
      var n := k.retry + e.o.applied;
      (st.(core := k.(retry := n)),
       Some(if !e.o.ok then FSched(r.interval)
            else if n <= c.limit then FSched(5)
            else FClearRetry(r)))
    case FClearRetry(r) => (ClearedRetry(st, e.o), Some(FIncr(r)))
    case FIncr(r) =>
      var n := h.count + e.o.applied;
      (WithHash(st, h.(count := n), e.o), Some(if e.o.ok then FStamp(r, n) else FSched(r.interval)))
    case FStamp(r, n) =>
      (WithHash(st, h, e.o), Some(if n < c.threshold then FSched(r.interval) else FMark(r)))
    case FMark(r) =>
      (WithHash(st, h.(alerted := true), e.o),
       Some(if e.o.ok && !h.alerted then FCreate(r) else FSched(r.interval)))
    case FCreate(r) =>
      if st.row.None? || !Storable(r) then (st, Some(FSched(r.interval)))
      else
        var st1 := if e.o.applied > 0 then st.(core := k.(open := k.open + [true])) else st;
        (st1, Some(if e.o.ok && e.o.applied > 0 then FMarkDb(r, |k.open|) else FSched(r.interval)))
    case FMarkDb(r, id) => (WithHash(st, h.(db := true), e.o), Some(FSend(r, id)))
    case FSend(r, id) => (Sent(st, Down(id)), Some(FSched(r.interval)))
    case FSched(delay) => (Scheduled(st, e.now + delay, e.o), None)
  }

  /** One call of handleSuccess. */
  function SuccessStep(c: Config, st: Store, p: Place, e: Env): (Store, Option<Place>)
    requires InSuccessHandler(p)
  {
    var k := st.core;
    var h := HashOr(k);
    match p
    case SGet(r) =>
      if !e.o.ok || k.hash.None? then (st, Some(SSched(r.interval)))
      else (st, Some(if h.db then SClose(r) else SClear(r)))
    case SClose(r) =>
      var id := Returned(k.open, e.pick);
      (Closed(st, e.o),
       Some(if !e.o.ok then SSched(r.interval) else if id.Some? && e.o.applied > 0 then SMarkRec(r, id.value) else SClear(r)))
    case SMarkRec(r, id) =>
      (WithHash(st, h.(recovered := true), e.o), Some(if e.o.ok && !h.recovered then SSend(r, id) else SClear(r)))
    case SSend(r, id) => (Sent(st, Recovered(id)), Some(SClear(r)))
    case SClear(r) => (ClearedHash(st, e.o), Some(SClearRetry(r)))
    case SClearRetry(r) => (ClearedRetry(st, e.o), Some(SSched(r.interval)))
    case SSched(delay) => (Scheduled(st, e.now + delay, e.o), None)
  }

  /** One step of the scheduler, the executor or the router. */
  function TransportStep(c: Config, st: Store, p: Place, e: Env): (Store, Option<Place>)
    requires !InFailureHandler(p) && !InSuccessHandler(p)
  {
    match p
    case Batch(score) =>
      (match e.dispatch
       case ToJobs => (st, Some(JobQ))
       case Backoff => (Scheduled(st, score + 2, e.o), None)
       case Reinsert => (Scheduled(st, score, e.o), None))
    case JobQ => (st, Some(Load))
    case Load =>
      if !e.o.ok then (st, Some(Requeue))
      else if st.row.None? || !st.row.value.enabled then (st, None)
      else (st, Some(Acquire(st.row.value)))
    case Requeue => (Scheduled(st, e.now + 5, e.o), None)
    case Acquire(row) => (st, Some(Http(row)))
    case Http(row) => (st, Some(HttpDone(Executor.ExecuteHTTPCheck(row, e.reply))))
    case HttpDone(r) => (st, Some(ResultQ(r)))
    case ResultQ(r) => (st, Some(Routing(r)))
    case Routing(r) => (st, Some(if r.success then SuccessQ(r) else FailureQ(r)))
    case SuccessQ(r) => (st, Some(SGet(r)))
    case FailureQ(r) => (st, Some(FailureEntry(r)))
  }

  function Advance(c: Config, st: Store, p: Place, e: Env): (Store, Option<Place>) {
    if InFailureHandler(p) then FailureStep(c, st, p, e)
    else if InSuccessHandler(p) then SuccessStep(c, st, p, e)
    else TransportStep(c, st, p, e)
  }
}
