/** A whole handler call as its atomic calls in a row, each ending as a plan says. */
module Completion {
  import opened Sequences
  import opened Domain
  import opened FineSteps
  import opened HandlerSpec
  import opened Incidents

  /** The calls a handler makes, each at most once. */
  datatype Call =
    | StoreStatus
    | IncrementRetry
    | ClearRetry
    | IncrementIncident
    | StampIncident
    | MarkAlerted
    | CreateIncident
    | MarkDbIncident
    | SendAlert
    | GetIncident
    | CloseIncident
    | MarkRecovered
    | ClearIncident
    | ScheduleMonitor

  /** How each call of a handler ends, which open row the database reports, the clock. */
  datatype Plan = Plan(outcome: Call -> Outcome, pick: nat, now: int)

  predicate Handling(p: Place) {
    InFailureHandler(p) || InSuccessHandler(p)
  }

  function CallAt(p: Place): Call
    requires Handling(p)
  {
    match p
    case FTerminal(_) => StoreStatus
    case FRetry(_) => IncrementRetry
    case FClearRetry(_) => ClearRetry
    case FIncr(_) => IncrementIncident
    case FStamp(_, _) => StampIncident
    case FMark(_) => MarkAlerted
    case FCreate(_) => CreateIncident
    case FMarkDb(_, _) => MarkDbIncident
    case FSend(_, _) => SendAlert
    case FSched(_) => ScheduleMonitor
    case SGet(_) => GetIncident
    case SClose(_) => CloseIncident
    case SMarkRec(_, _) => MarkRecovered
    case SSend(_, _) => SendAlert
    case SClear(_) => ClearIncident
    case SClearRetry(_) => ClearRetry
    case SSched(_) => ScheduleMonitor
  }

  function EnvAt(plan: Plan, p: Place): Env
    requires Handling(p)
  {
    Env(plan.outcome(CallAt(p)), plan.pick, plan.now, ToJobs, BadUrl)
  }

  /** An upper bound on the calls still to come. */
  function CallsLeft(p: Place): nat {
    match p
    case FRetry(_) => 11
    case FClearRetry(_) => 10
    case FIncr(_) => 9
    case FStamp(_, _) => 8
    case FMark(_) => 7
    case FCreate(_) => 6
    case FMarkDb(_, _) => 5
    case FSend(_, _) => 4
    case SGet(_) => 9
    case SClose(_) => 8
    case SMarkRec(_, _) => 7
    case SSend(_, _) => 6
    case SClear(_) => 3
    case SClearRetry(_) => 2
    case _ => 1
  }

  /** Runs the handler that is at p to its end. */
  function Finish(c: Config, st: Store, p: Place, plan: Plan): Store
    requires Handling(p)
    decreases CallsLeft(p)
  {
    var (st', next) := if InFailureHandler(p) then FailureStep(c, st, p, EnvAt(plan, p)) else SuccessStep(c, st, p, EnvAt(plan, p));
    if next.None? then st' else Finish(c, st', next.value, plan)
  }

  // The same handlers, cut where the source returns instead of at each call.

  /** From the won alert decision to the deferred rescheduling. */
  function Raised(st: Store, r: HTTPResult, plan: Plan): Store {
    var create := plan.outcome(CreateIncident);
    if st.row.None? || !Storable(r) || create.applied == 0 then st
    else
      var inserted := st.(core := st.core.(open := st.core.open + [true]));
      if !create.ok then inserted
      else
        var marked := WithHash(inserted, HashOr(inserted.core).(db := true), plan.outcome(MarkDbIncident));
        Sent(marked, Down(|st.core.open|))
  }

  /** The atomic alert decision, and what follows from winning it. */
  function Decided(st: Store, r: HTTPResult, plan: Plan): Store {
    var mark := plan.outcome(MarkAlerted);
    var marked := WithHash(st, HashOr(st.core).(alerted := true), mark);
    if mark.ok && !HashOr(st.core).alerted then Raised(marked, r, plan) else marked
  }

  function Counted(c: Config, st: Store, r: HTTPResult, plan: Plan): Store {
    var incr := plan.outcome(IncrementIncident);
    var n := HashOr(st.core).count + incr.applied;
    var counted := WithHash(st, HashOr(st.core).(count := n), incr);
    if !incr.ok then counted
    else
      var stamped := WithHash(counted, HashOr(counted.core), plan.outcome(StampIncident));
      if n < c.threshold then stamped else Decided(stamped, r, plan)
  }

  /** The retry decision: the delay to reschedule with at once, or None to go on. */
  function Retried(c: Config, st: Store, r: HTTPResult, plan: Plan): (Store, Option<int>) {
    var incr := plan.outcome(IncrementRetry);
    var n := st.core.retry + incr.applied;
    var st1 := st.(core := st.core.(retry := n));
    if !incr.ok then (st1, Some(r.interval))
    else if n <= c.limit then (st1, Some(5))
    else (ClearedRetry(st1, plan.outcome(ClearRetry)), None)
  }

  /** handleFailure: the state at its last return and the delay it reschedules with. */
  function FailureBodyRun(c: Config, st: Store, r: HTTPResult, plan: Plan): (Store, Option<int>) {
    if Terminal(r) then (st, None)
    else
      var (st1, delay) := if r.retryable then Retried(c, st, r, plan) else (st, None);
      if delay.Some? then (st1, delay) else (Counted(c, st1, r, plan), Some(r.interval))
  }

  /** handleSuccess, up to the deferred rescheduling. */
  function RecoveryRun(st: Store, r: HTTPResult, plan: Plan): Store {
    ClearedRetry(ClearedHash(st, plan.outcome(ClearIncident)), plan.outcome(ClearRetry))
  }

  function AnnouncedRun(st: Store, id: nat, plan: Plan): Store {
    var mark := plan.outcome(MarkRecovered);
    var marked := WithHash(st, HashOr(st.core).(recovered := true), mark);
    if mark.ok && !HashOr(st.core).recovered then Sent(marked, Recovered(id)) else marked
  }

  /** Closing the DB incident and announcing it; false if the close failed. */
  function CloseRun(st: Store, plan: Plan): (Store, bool) {
    var close := plan.outcome(CloseIncident);
    var closed := Closed(st, close);
    if !close.ok then (closed, false)
    else
      var id := if close.applied > 0 then Returned(st.core.open, plan.pick) else None;
      (if id.Some? then AnnouncedRun(closed, id.value, plan) else closed, true)
  }

  function SuccessBodyRun(st: Store, r: HTTPResult, plan: Plan): Store {
    if !plan.outcome(GetIncident).ok || st.core.hash.None? then st
    else if !HashOr(st.core).db then RecoveryRun(st, r, plan)
    else
      var (closed, goOn) := CloseRun(st, plan);
      if goOn then RecoveryRun(closed, r, plan) else closed
  }

  function Rescheduled(st: Store, delay: Option<int>, plan: Plan): Store {
    if delay.Some? then Scheduled(st, plan.now + delay.value, plan.outcome(ScheduleMonitor)) else st
  }

  lemma ScheduledIsFinish(c: Config, st: Store, delay: int, plan: Plan)
    ensures Finish(c, st, FSched(delay), plan) == Rescheduled(st, Some(delay), plan)
    ensures Finish(c, st, SSched(delay), plan) == Rescheduled(st, Some(delay), plan)
  {
  }

  lemma RaisedIsFinish(c: Config, st: Store, r: HTTPResult, plan: Plan)
    ensures Finish(c, st, FCreate(r), plan) == Rescheduled(Raised(st, r, plan), Some(r.interval), plan)
  {
    var create := plan.outcome(CreateIncident);
    if st.row.Some? && Storable(r) && create.applied > 0 && create.ok {
      var inserted := FailureStep(c, st, FCreate(r), EnvAt(plan, FCreate(r))).0;
      var p := FMarkDb(r, |st.core.open|);
      assert Finish(c, st, FCreate(r), plan) == Finish(c, inserted, p, plan);
      var marked := FailureStep(c, inserted, p, EnvAt(plan, p)).0;
      assert Finish(c, inserted, p, plan) == Finish(c, marked, FSend(r, |st.core.open|), plan);
      ScheduledIsFinish(c, Sent(marked, Down(|st.core.open|)), r.interval, plan);
    }
  }

  lemma DecidedIsFinish(c: Config, st: Store, r: HTTPResult, plan: Plan)
    ensures Finish(c, st, FMark(r), plan) == Rescheduled(Decided(st, r, plan), Some(r.interval), plan)
  {
    var (marked, next) := FailureStep(c, st, FMark(r), EnvAt(plan, FMark(r)));
    assert Finish(c, st, FMark(r), plan) == Finish(c, marked, next.value, plan);
    RaisedIsFinish(c, marked, r, plan);
    ScheduledIsFinish(c, marked, r.interval, plan);
  }

  lemma CountedIsFinish(c: Config, st: Store, r: HTTPResult, plan: Plan)
    ensures Finish(c, st, FIncr(r), plan) == Rescheduled(Counted(c, st, r, plan), Some(r.interval), plan)
  {
    var incr := plan.outcome(IncrementIncident);
    if incr.ok {
      var n := HashOr(st.core).count + incr.applied;
      var counted := FailureStep(c, st, FIncr(r), EnvAt(plan, FIncr(r))).0;
      assert Finish(c, st, FIncr(r), plan) == Finish(c, counted, FStamp(r, n), plan);
      if n >= c.threshold {
        var stamped := FailureStep(c, counted, FStamp(r, n), EnvAt(plan, FStamp(r, n))).0;
        assert Finish(c, counted, FStamp(r, n), plan) == Finish(c, stamped, FMark(r), plan);
        DecidedIsFinish(c, stamped, r, plan);
      } else {
        ScheduledIsFinish(c, Counted(c, st, r, plan), r.interval, plan);
      }
    }
  }

  lemma FailureBodyIsFinish(c: Config, st: Store, r: HTTPResult, plan: Plan)
    ensures var (st', delay) := FailureBodyRun(c, st, r, plan);
      Finish(c, st, FailureEntry(r), plan) == Rescheduled(st', delay, plan)
  {
    if !Terminal(r) {
      if r.retryable {
        var (st1, next) := FailureStep(c, st, FRetry(r), EnvAt(plan, FRetry(r)));
        assert Finish(c, st, FRetry(r), plan) == Finish(c, st1, next.value, plan);
        if next.value.FClearRetry? {
          var st2 := ClearedRetry(st1, plan.outcome(ClearRetry));
          assert Finish(c, st1, FClearRetry(r), plan) == Finish(c, st2, FIncr(r), plan);
          CountedIsFinish(c, st2, r, plan);
        }
      } else {
        CountedIsFinish(c, st, r, plan);
      }
    }
  }

  lemma RecoveryIsFinish(c: Config, st: Store, r: HTTPResult, plan: Plan)
    ensures Finish(c, st, SClear(r), plan) == Rescheduled(RecoveryRun(st, r, plan), Some(r.interval), plan)
  {
    var st1 := ClearedHash(st, plan.outcome(ClearIncident));
    assert Finish(c, st, SClear(r), plan) == Finish(c, st1, SClearRetry(r), plan);
    ScheduledIsFinish(c, RecoveryRun(st, r, plan), r.interval, plan);
  }

  lemma AnnouncedIsFinish(c: Config, st: Store, id: nat, r: HTTPResult, plan: Plan)
    ensures Finish(c, st, SMarkRec(r, id), plan) == Finish(c, AnnouncedRun(st, id, plan), SClear(r), plan)
  {
    var (marked, next) := SuccessStep(c, st, SMarkRec(r, id), EnvAt(plan, SMarkRec(r, id)));
    assert Finish(c, st, SMarkRec(r, id), plan) == Finish(c, marked, next.value, plan);
  }

  lemma SuccessBodyIsFinish(c: Config, st: Store, r: HTTPResult, plan: Plan)
    ensures Finish(c, st, SGet(r), plan) == Rescheduled(SuccessBodyRun(st, r, plan), Some(r.interval), plan)
  {
    if plan.outcome(GetIncident).ok && st.core.hash.Some? {
      if !HashOr(st.core).db {
        RecoveryIsFinish(c, st, r, plan);
      } else {
        assert Finish(c, st, SGet(r), plan) == Finish(c, st, SClose(r), plan);
        var (closed, next) := SuccessStep(c, st, SClose(r), EnvAt(plan, SClose(r)));
        assert Finish(c, st, SClose(r), plan) == Finish(c, closed, next.value, plan);
        if next.value.SMarkRec? {
          AnnouncedIsFinish(c, closed, next.value.id, r, plan);
          RecoveryIsFinish(c, AnnouncedRun(closed, next.value.id, plan), r, plan);
        } else if next.value.SClear? {
          RecoveryIsFinish(c, closed, r, plan);
        }
      }
    }
  }

  ghost predicate AllSucceed(plan: Plan) {
    forall call :: plan.outcome(call) == DONE
  }

  /** With no call failing, handleFailure has the effect and the delay that
      HandlerSpec gives it ... */
  lemma FailureBodyEffect(c: Config, st: Store, r: HTTPResult, plan: Plan)
    requires AllSucceed(plan)
    ensures FailureBodyRun(c, st, r, plan)
         == (st.(core := FailureEffect(c, st.core, st.row.Some?, r)), FailureDelay(c, st.core, r))
  {
  }

  /** ... and handleSuccess that of SuccessEffect, as long as hash and table agree. */
  lemma SuccessBodyEffect(c: Config, st: Store, r: HTTPResult, plan: Plan)
    requires AllSucceed(plan) && Paired(c, st.core)
    ensures SuccessBodyRun(st, r, plan).core == SuccessEffect(st.core)
  {
  }
}
