/** What one handler call comes to when its calls may fail in any way, in closed form. */
module Faults {
  import opened Sequences
  import opened Domain
  import opened FineSteps
  import opened Completion

  /** The retry budget settles this failure, or its counter cannot be had. */
  predicate SettledEarly(c: Config, st: Store, r: HTTPResult, plan: Plan) {
    var incr := plan.outcome(IncrementRetry);
    r.retryable && (!incr.ok || st.core.retry + incr.applied <= c.limit)
  }

  /** The failure is counted, and failure_count is known to have reached the threshold. */
  predicate Reaches(c: Config, st: Store, r: HTTPResult, plan: Plan) {
    var incr := plan.outcome(IncrementIncident);
    && !Terminal(r) && !SettledEarly(c, st, r, plan)
    && incr.ok && HashOr(st.core).count + incr.applied >= c.threshold
  }

  /** The alert decision is won. */
  predicate Wins(c: Config, st: Store, r: HTTPResult, plan: Plan) {
    Reaches(c, st, r, plan) && plan.outcome(MarkAlerted).ok && !HashOr(st.core).alerted
  }

  /** ... and the incident is inserted. */
  predicate Inserts(c: Config, st: Store, r: HTTPResult, plan: Plan) {
    Wins(c, st, r, plan) && st.row.Some? && Storable(r) && plan.outcome(CreateIncident).applied > 0
  }

  function AfterFailure(c: Config, st: Store, r: HTTPResult, plan: Plan): Store {
    Finish(c, st, FailureEntry(r), plan)
  }

  /** The differences that a stretch of handleFailure may make to hash, rows and alerts. */
  datatype Change = Change(count: nat, alerted: bool, inserted: bool, db: bool, sent: bool)

  predicate Differs(k: Core, k': Core, d: Change) {
    && HashOr(k').count == HashOr(k).count + d.count
    && (HashOr(k').alerted <==> HashOr(k).alerted || d.alerted)
    && (HashOr(k').db <==> HashOr(k).db || d.db)
    && HashOr(k').recovered == HashOr(k).recovered
    && k'.retry == k.retry
    && k'.open == k.open + (if d.inserted then [true] else [])
    && k'.alerts == k.alerts + (if d.sent then [Down(|k.open|)] else [])
  }

  lemma RaisedDiffers(st: Store, r: HTTPResult, plan: Plan)
    ensures var create := plan.outcome(CreateIncident);
      var inserted := st.row.Some? && Storable(r) && create.applied > 0;
      Differs(st.core, Raised(st, r, plan).core,
              Change(0, false, inserted, inserted && create.ok && plan.outcome(MarkDbIncident).applied > 0, inserted && create.ok))
  {
  }

  lemma DecidedDiffers(st: Store, r: HTTPResult, plan: Plan)
    ensures var mark, create := plan.outcome(MarkAlerted), plan.outcome(CreateIncident);
      var inserted := mark.ok && !HashOr(st.core).alerted && st.row.Some? && Storable(r) && create.applied > 0;
      Differs(st.core, Decided(st, r, plan).core,
              Change(0, mark.applied > 0, inserted,
                     inserted && create.ok && plan.outcome(MarkDbIncident).applied > 0, inserted && create.ok))
  {
    RaisedDiffers(WithHash(st, HashOr(st.core).(alerted := true), plan.outcome(MarkAlerted)), r, plan);
  }

  /** What counting a failure changes, and whether it gets as far as to the decision. */
  function Counting(c: Config, st: Store, r: HTTPResult, plan: Plan): Change {
    var incr, mark, create := plan.outcome(IncrementIncident), plan.outcome(MarkAlerted), plan.outcome(CreateIncident);
    var reached := incr.ok && HashOr(st.core).count + incr.applied >= c.threshold;
    var inserted := reached && mark.ok && !HashOr(st.core).alerted && st.row.Some? && Storable(r) && create.applied > 0;
    Change(incr.applied, reached && mark.applied > 0, inserted,
           inserted && create.ok && plan.outcome(MarkDbIncident).applied > 0, inserted && create.ok)
  }

  lemma CountedDiffers(c: Config, st: Store, r: HTTPResult, plan: Plan)
    ensures Differs(st.core, Counted(c, st, r, plan).core, Counting(c, st, r, plan))
  {
    var incr := plan.outcome(IncrementIncident);
    var n := HashOr(st.core).count + incr.applied;
    var counted := WithHash(st, HashOr(st.core).(count := n), incr);
    var stamped := WithHash(counted, HashOr(counted.core), plan.outcome(StampIncident));
    assert HashOr(counted.core) == HashOr(st.core).(count := n);
    assert HashOr(stamped.core) == HashOr(counted.core);
    assert stamped.core.(hash := None) == st.core.(hash := None) && stamped.row == st.row;
    if incr.ok && n >= c.threshold {
      DecidedDiffers(stamped, r, plan);
      assert Counted(c, st, r, plan) == Decided(stamped, r, plan);
    }
  }

  lemma AfterFailureCore(c: Config, st: Store, r: HTTPResult, plan: Plan)
    ensures AfterFailure(c, st, r, plan).core ==
      if Terminal(r) then st.core
      else if SettledEarly(c, st, r, plan) then Retried(c, st, r, plan).0.core
      else Counted(c, if r.retryable then Retried(c, st, r, plan).0 else st, r, plan).core
  {
    FailureBodyIsFinish(c, st, r, plan);
  }

  /** handleFailure under any failures: hash, rows and alerts change as counting does,
      unless the failure is terminal or the retry decision settles it. In particular
      `alerted` is set as soon as the threshold is reached, even if nothing comes of it. */
  lemma FailureChanges(c: Config, st: Store, r: HTTPResult, plan: Plan)
    ensures var st' := AfterFailure(c, st, r, plan);
      && Differs(st.core, st'.core.(retry := st.core.retry),
                 if Terminal(r) || SettledEarly(c, st, r, plan) then Change(0, false, false, false, false)
                 else Counting(c, st, r, plan))
  {
    AfterFailureCore(c, st, r, plan);
    if !Terminal(r) && !SettledEarly(c, st, r, plan) {
      var st1 := if r.retryable then Retried(c, st, r, plan).0 else st;
      CountedDiffers(c, st1, r, plan);
    }
  }

  /** DOWN is sent exactly for an incident that is inserted and known to be. */
  lemma FailureAlerts(c: Config, st: Store, r: HTTPResult, plan: Plan)
    ensures var st' := AfterFailure(c, st, r, plan);
      && st'.core.open == st.core.open + (if Inserts(c, st, r, plan) then [true] else [])
      && st'.core.alerts == st.core.alerts +
           (if Inserts(c, st, r, plan) && plan.outcome(CreateIncident).ok then [Down(|st.core.open|)] else [])
  {
    FailureChanges(c, st, r, plan);
  }

  /** The retry counter: retries are counted, and forgotten when they are exhausted. */
  lemma FailureRetries(c: Config, st: Store, r: HTTPResult, plan: Plan)
    ensures AfterFailure(c, st, r, plan).core.retry ==
      if Terminal(r) || !r.retryable then st.core.retry
      else if SettledEarly(c, st, r, plan) || plan.outcome(ClearRetry).applied == 0
      then st.core.retry + plan.outcome(IncrementRetry).applied
      else 0
  {
    FailureBodyIsFinish(c, st, r, plan);
    if !Terminal(r) && !SettledEarly(c, st, r, plan) {
      CountedDiffers(c, if r.retryable then Retried(c, st, r, plan).0 else st, r, plan);
    }
  }

  lemma CountedKeepsDue(c: Config, st: Store, r: HTTPResult, plan: Plan)
    ensures Counted(c, st, r, plan).due == st.due
  {
  }

  /** It reschedules the monitor unless the failure is terminal: in five seconds if the
      retry budget absorbed it, and after the interval in every other case. */
  lemma FailureReschedules(c: Config, st: Store, r: HTTPResult, plan: Plan)
    ensures AfterFailure(c, st, r, plan).due ==
      if Terminal(r) || plan.outcome(ScheduleMonitor).applied == 0 then st.due
      else
        var incr := plan.outcome(IncrementRetry);
        var absorbed := r.retryable && incr.ok && st.core.retry + incr.applied <= c.limit;
        Some(plan.now + (if absorbed then 5 else r.interval))
  {
    FailureBodyIsFinish(c, st, r, plan);
    CountedKeepsDue(c, if r.retryable then Retried(c, st, r, plan).0 else st, r, plan);
  }

  /** handleSuccess knows of an incident row to close. */
  predicate Closes(st: Store, plan: Plan) {
    plan.outcome(GetIncident).ok && st.core.hash.Some? && HashOr(st.core).db
  }

  /** It gets as far as to clearing the hash: a failed close keeps it. */
  predicate Clears(st: Store, plan: Plan) {
    && plan.outcome(GetIncident).ok && st.core.hash.Some?
    && (HashOr(st.core).db ==> plan.outcome(CloseIncident).ok)
  }

  function AfterSuccess(c: Config, st: Store, r: HTTPResult, plan: Plan): Store {
    Finish(c, st, SGet(r), plan)
  }

  function Flag(open: seq<bool>): bool {
    exists i | 0 <= i < |open| :: open[i]
  }

  /** handleSuccess sends RECOVERED for at most one incident, which was open, exactly if
      it closed one and is the first to mark it. */
  lemma SuccessAlerts(c: Config, st: Store, r: HTTPResult, plan: Plan)
    ensures var st' := AfterSuccess(c, st, r, plan);
      && st'.core.open ==
           (if Closes(st, plan) && plan.outcome(CloseIncident).applied > 0 then AllFalse(|st.core.open|) else st.core.open)
      && (st'.core.alerts != st.core.alerts <==>
            && Closes(st, plan) && plan.outcome(CloseIncident).ok && plan.outcome(CloseIncident).applied > 0
            && Flag(st.core.open) && plan.outcome(MarkRecovered).ok && !HashOr(st.core).recovered)
      && (st'.core.alerts != st.core.alerts ==>
            exists i | 0 <= i < |st.core.open| && st.core.open[i] :: st'.core.alerts == st.core.alerts + [Recovered(i)])
  {
    SuccessBodyIsFinish(c, st, r, plan);
    var id := Returned(st.core.open, plan.pick);
    assert Flag(st.core.open) <==> id.Some?;
  }

  /** Hash and retries go once the close is through, and stay otherwise; the monitor is due
      after the interval in every case. */
  lemma SuccessClears(c: Config, st: Store, r: HTTPResult, plan: Plan)
    ensures var st' := AfterSuccess(c, st, r, plan);
      && (Clears(st, plan) && plan.outcome(ClearIncident).applied > 0 ==> st'.core.hash.None?)
      && (!Clears(st, plan) ==> st'.core.hash == st.core.hash)
      && st'.core.retry == (if Clears(st, plan) && plan.outcome(ClearRetry).applied > 0 then 0 else st.core.retry)
      && st'.due == (if plan.outcome(ScheduleMonitor).applied > 0 then Some(plan.now + r.interval) else st.due)
      && st'.row == st.row
  {
    SuccessBodyIsFinish(c, st, r, plan);
  }
}
