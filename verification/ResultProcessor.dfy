/** The result workers (internals/modules/result), statement by statement. */
module ResultProcessor {
  import opened Sequences
  import opened Domain
  import opened FineSteps
  import opened HandlerSpec
  import opened Incidents
  import opened Completion
  import opened Stores

  /** An AlertEvent, as far as the alert protocol goes. */
  datatype AlertEvent = AlertEvent(monitor: nat, alert: Alert)

  function AlertsOf(q: seq<AlertEvent>, m: nat): seq<Alert> {
    if q == [] then []
    else AlertsOf(q[..|q| - 1], m) + (if q[|q| - 1].monitor == m then [q[|q| - 1].alert] else [])
  }

  lemma AlertsOfSnoc(q: seq<AlertEvent>, a: AlertEvent, m: nat)
    ensures AlertsOf(q + [a], m) == AlertsOf(q, m) + (if a.monitor == m then [a.alert] else [])
  {
    assert (q + [a])[..|q|] == q;
  }

  /** The shared state without the histories, which the program does not keep. */
  function Seen(st: Store): Store {
    st.(deletions := 0)
  }

  class Processor {
    const cfg: Config
    const redis: RedisClient
    const db: Database
    // every event sent so far, oldest first; the receivers work elsewhere
    var alertChan: seq<AlertEvent>

    constructor (cfg: Config, redis: RedisClient, db: Database)
      ensures this.cfg == cfg && this.redis == redis && this.db == db && alertChan == []
    {
      this.cfg, this.redis, this.db := cfg, redis, db;
      alertChan := [];
    }

    /** All that is shared about monitor m. */
    ghost function StoreOf(m: nat): Store
      reads this, redis, db
    {
      Store(db.RowOf(m),
            redis.DueOf(m),
            Core(redis.HashOf(m), redis.RetryOf(m), db.OpenOf(m), AlertsOf(alertChan, m)),
            0, 0, false)
    }

    /** monitorSvc.ScheduleMonitor: an error is only logged. */
    method ScheduleMonitor(m: nat, interval: int, plan: Plan)
      modifies redis`schedule
      ensures StoreOf(m) == Rescheduled(old(StoreOf(m)), Some(interval), plan)
      ensures forall n | n != m :: StoreOf(n) == old(StoreOf(n))
    {
      var _ := redis.Schedule(m, plan.now + interval, plan.outcome(Call.ScheduleMonitor));
    }

    method Send(m: nat, alert: Alert)
      modifies `alertChan
      ensures alertChan == old(alertChan) + [AlertEvent(m, alert)]
      ensures StoreOf(m) == Sent(old(StoreOf(m)), alert)
      ensures forall n | n != m :: StoreOf(n) == old(StoreOf(n))
    {
      ghost var before := alertChan;
      alertChan := alertChan + [AlertEvent(m, alert)];
      forall n {
        AlertsOfSnoc(before, AlertEvent(m, alert), n);
      }
    }

    /** The alert decision is won: create the incident, mark the hash, send DOWN. */
    method RaiseIncident(m: nat, r: HTTPResult, plan: Plan)
      modifies `alertChan, redis`incidents, db`open
      ensures StoreOf(m) == Raised(old(StoreOf(m)), r, plan)
      ensures forall n | n != m :: StoreOf(n) == old(StoreOf(n))
    {
      var incidentID, created := db.CreateIncident(m, r, plan.outcome(CreateIncident));
      if !created {
        return;
      }
      var _ := redis.MarkDBIncidentCreated(m, plan.outcome(MarkDbIncident));
      Send(m, Down(incidentID));
    }

    /** Atomic alert decision. */
    method DecideAlert(m: nat, r: HTTPResult, plan: Plan)
      modifies `alertChan, redis`incidents, db`open
      ensures StoreOf(m) == Decided(old(StoreOf(m)), r, plan)
      ensures forall n | n != m :: StoreOf(n) == old(StoreOf(n))
    {
      var shouldAlert, marked := redis.MarkIncidentAlertedIfNotSet(m, plan.outcome(MarkAlerted));
      if !marked {
        return;
      }
      if !shouldAlert {
        return;
      }
      RaiseIncident(m, r, plan);
    }

    /** Case 3: the failure counts. */
    method CountFailurePath(m: nat, r: HTTPResult, plan: Plan)
      modifies `alertChan, redis`incidents, db`open
      ensures StoreOf(m) == Counted(cfg, old(StoreOf(m)), r, plan)
      ensures forall n | n != m :: StoreOf(n) == old(StoreOf(n))
    {
      var failCount, _, incremented :=
        redis.IncrementIncident(m, plan.outcome(IncrementIncident), plan.outcome(StampIncident));
      if !incremented {
        return;
      }
      if failCount < cfg.threshold {
        return;
      }
      DecideAlert(m, r, plan);
    }

    /** Case 2: retryable. True if the retry budget, or a failing counter, settles it. */
    method RetryPath(m: nat, r: HTTPResult, plan: Plan) returns (settled: bool)
      modifies redis`retries, redis`schedule
      ensures var (st, delay) := Retried(cfg, old(StoreOf(m)), r, plan);
        settled == delay.Some? && StoreOf(m) == Rescheduled(st, delay, plan)
      ensures forall n | n != m :: StoreOf(n) == old(StoreOf(n))
    {
      var retryCount, incremented := redis.IncrementRetry(m, plan.outcome(IncrementRetry));
      if !incremented {
        ScheduleMonitor(m, r.interval, plan);
        return true;
      }
      if retryCount <= cfg.limit {
        ScheduleMonitor(m, 5, plan);
        return true;
      }
      var _ := redis.ClearRetry(m, plan.outcome(ClearRetry));
      return false;
    }

    /** handleFailure up to its return. `reschedule` is what the deferred function then
        reads; a return that has already rescheduled itself leaves it false. */
    method FailureBody(m: nat, r: HTTPResult, plan: Plan) returns (reschedule: bool)
      modifies `alertChan, redis, db`open
      ensures var (st, delay) := FailureBodyRun(cfg, old(StoreOf(m)), r, plan);
        if reschedule then StoreOf(m) == st && delay == Some(r.interval) else StoreOf(m) == Rescheduled(st, delay, plan)
      ensures forall n | n != m :: StoreOf(n) == old(StoreOf(n))
    {
      reschedule := true;
      if Terminal(r) {
        reschedule := false;
        return;
      }
      if r.retryable {
        var settled := RetryPath(m, r, plan);
        if settled {
          reschedule := false;
          return;
        }
      }
      CountFailurePath(m, r, plan);
    }

    /** handleFailure. However its calls end, it leaves the shared state as its atomic
        calls in a row do, reschedules once or not at all, and touches no other monitor.
        When no call fails, it has the effect that HandlerSpec states. */
    method HandleFailure(m: nat, r: HTTPResult, plan: Plan)
      modifies `alertChan, redis, db`open
      ensures StoreOf(m) == Finish(cfg, old(StoreOf(m)), FailureEntry(r), plan)
      ensures forall n | n != m :: StoreOf(n) == old(StoreOf(n))
      ensures AllSucceed(plan) ==>
        && StoreOf(m).core == FailureEffect(cfg, old(StoreOf(m)).core, m in db.monitors, r)
        && var delay := FailureDelay(cfg, old(StoreOf(m)).core, r);
           StoreOf(m).due == if delay.Some? then Some(plan.now + delay.value) else old(StoreOf(m)).due
    {
      ghost var before := StoreOf(m);
      var reschedule := FailureBody(m, r, plan);
      if reschedule {
        ScheduleMonitor(m, r.interval, plan);
      }
      FailureBodyIsFinish(cfg, before, r, plan);
      if AllSucceed(plan) {
        FailureBodyEffect(cfg, before, r, plan);
      }
    }

    /** The end of handleSuccess: hash and retry counter are deleted. */
    method ClearAll(m: nat, r: HTTPResult, plan: Plan)
      modifies redis`incidents, redis`retries
      ensures Seen(StoreOf(m)) == Seen(RecoveryRun(old(StoreOf(m)), r, plan))
      ensures forall n | n != m :: StoreOf(n) == old(StoreOf(n))
    {
      var _ := redis.ClearIncident(m, plan.outcome(ClearIncident));
      var _ := redis.ClearRetry(m, plan.outcome(ClearRetry));
    }

    /** The DB incident is closed and, by the one worker that marks it, announced. */
    method CloseDbIncident(m: nat, plan: Plan) returns (goOn: bool)
      modifies `alertChan, redis`incidents, db`open
      ensures var (st, ok) := CloseRun(old(StoreOf(m)), plan); StoreOf(m) == st && goOn == ok
      ensures forall n | n != m :: StoreOf(n) == old(StoreOf(n))
    {
      var closedIncidentID, ok := db.CloseIncident(m, plan.outcome(CloseIncident), plan.pick);
      if !ok {
        return false;
      }
      if closedIncidentID.Some? {
        var shouldSend, marked := redis.MarkIncidentRecoveredAlertedIfNotSet(m, plan.outcome(MarkRecovered));
        if marked && shouldSend {
          Send(m, Recovered(closedIncidentID.value));
        }
      }
      return true;
    }

    method SuccessBody(m: nat, r: HTTPResult, plan: Plan)
      modifies `alertChan, redis`incidents, redis`retries, db`open
      ensures Seen(StoreOf(m)) == Seen(SuccessBodyRun(old(StoreOf(m)), r, plan))
      ensures forall n | n != m :: StoreOf(n) == old(StoreOf(n))
    {
      var incident := redis.GetIncident(m, plan.outcome(GetIncident));
      if incident.None? {
        return;
      }
      if incident.value.db {
        var goOn := CloseDbIncident(m, plan);
        if !goOn {
          return;
        }
      }
      ClearAll(m, r, plan);
    }

    /** handleSuccess: always reschedules after the interval. */
    method HandleSuccess(m: nat, r: HTTPResult, plan: Plan)
      modifies `alertChan, redis, db`open
      ensures Seen(StoreOf(m)) == Seen(Finish(cfg, old(StoreOf(m)), SGet(r), plan))
      ensures forall n | n != m :: StoreOf(n) == old(StoreOf(n))
      ensures AllSucceed(plan) ==> StoreOf(m).due == Some(plan.now + r.interval)
      ensures AllSucceed(plan) && Paired(cfg, old(StoreOf(m)).core) ==>
        StoreOf(m).core == SuccessEffect(old(StoreOf(m)).core)
    {
      ghost var before := StoreOf(m);
      SuccessBody(m, r, plan);
      ScheduleMonitor(m, r.interval, plan);
      SuccessBodyIsFinish(cfg, before, r, plan);
      if AllSucceed(plan) && Paired(cfg, before.core) {
        SuccessBodyEffect(cfg, before, r, plan);
      }
    }
  }
}
