/** The loop of an executor worker (internals/modules/executor/executor.go, startWork). */
module ExecutorWorker {
  import opened Sequences
  import opened Domain
  import opened FineSteps
  import opened SortedSet
  import opened Stores

  /** A job with how its calls end: whether the monitor could be read, the time, and the
      outcome of rescheduling it. */
  datatype Job = Job(monitor: nat, ok: bool, now: int, o: Outcome)

  /** A request handed to an HTTP goroutine. */
  datatype Request = Request(monitor: nat, row: MonitorRow)

  /** The jobs whose monitor was read, exists and is enabled, in order. */
  function Requests(jobs: seq<Job>, monitors: map<nat, MonitorRow>): seq<Request> {
    if jobs == [] then []
    else
      var job := jobs[|jobs| - 1];
      Requests(jobs[..|jobs| - 1], monitors) +
      (if job.ok && job.monitor in monitors && monitors[job.monitor].enabled then [Request(job.monitor, monitors[job.monitor])] else [])
  }

  /** The jobs whose monitor could not be read come back in five seconds. */
  function Retries(jobs: seq<Job>): seq<Item> {
    if jobs == [] then []
    else
      var job := jobs[|jobs| - 1];
      Retries(jobs[..|jobs| - 1]) + (if !job.ok && job.o.applied > 0 then [Item(job.monitor, job.now + 5)] else [])
  }

  lemma AddAllSnoc(z: map<nat, int>, items: seq<Item>, item: Item)
    ensures AddAll(z, items + [item]) == AddAll(z, items)[item.member := item.score]
  {
    assert (items + [item])[..|items|] == items;
  }

  class Worker {
    const redis: RedisClient
    const db: Database
    // every request started so far, oldest first
    var requests: seq<Request>

    constructor (redis: RedisClient, db: Database)
      ensures this.redis == redis && this.db == db && requests == []
    {
      this.redis, this.db := redis, db;
      requests := [];
    }

    /** `for job := range jobChan`, until the channel is closed and empty. */
    method StartWork(jobs: seq<Job>)
      modifies this, redis`schedule
      ensures requests == old(requests) + Requests(jobs, db.monitors)
      ensures redis.schedule == AddAll(old(redis.schedule), Retries(jobs))
    {
      var i := 0;
      while i < |jobs|
        invariant i <= |jobs|
        invariant requests == old(requests) + Requests(jobs[..i], db.monitors)
        invariant redis.schedule == AddAll(old(redis.schedule), Retries(jobs[..i]))
      {
        var job := jobs[i];
        assert jobs[..i + 1][..i] == jobs[..i] && jobs[..i + 1][i] == job;
        assert Retries(jobs[..i]) + [] == Retries(jobs[..i]);
        AddAllSnoc(old(redis.schedule), Retries(jobs[..i]), Item(job.monitor, job.now + 5));
        i := i + 1;
        if !job.ok {
          var _ := redis.Schedule(job.monitor, job.now + 5, job.o);
          continue;
        }
        if job.monitor !in db.monitors {
          continue;
        }
        var row := db.monitors[job.monitor];
        if !row.enabled {
          continue;
        }
        requests := requests + [Request(job.monitor, row)];
      }
      assert jobs[..|jobs|] == jobs;
    }
  }

  /** Only enabled monitors are requested, with their row ... */
  lemma {:induction false} RequestsAreEnabled(jobs: seq<Job>, monitors: map<nat, MonitorRow>, k: nat) returns (i: nat)
    requires k < |Requests(jobs, monitors)|
    ensures var r := Requests(jobs, monitors)[k];
      && i < |jobs| && jobs[i].ok && jobs[i].monitor == r.monitor
      && r.monitor in monitors && monitors[r.monitor] == r.row && r.row.enabled
  {
    var front := jobs[..|jobs| - 1];
    if k < |Requests(front, monitors)| {
      i := RequestsAreEnabled(front, monitors, k);
    } else {
      i := |jobs| - 1;
    }
  }

  /** ... and every job of an enabled monitor that can be read is requested. */
  lemma {:induction false} EnabledAreRequested(jobs: seq<Job>, monitors: map<nat, MonitorRow>, i: nat) returns (k: nat)
    requires i < |jobs| && jobs[i].ok && jobs[i].monitor in monitors && monitors[jobs[i].monitor].enabled
    ensures k < |Requests(jobs, monitors)| && Requests(jobs, monitors)[k] == Request(jobs[i].monitor, monitors[jobs[i].monitor])
  {
    var front := jobs[..|jobs| - 1];
    if i < |jobs| - 1 {
      k := EnabledAreRequested(front, monitors, i);
    } else {
      k := |Requests(front, monitors)|;
    }
  }

  /** One job is the fine steps of its token from Load on: dropped, acquired with the row,
      or put back. */
  lemma JobIsFine(c: Config, st: Store, job: Job, monitors: map<nat, MonitorRow>, e: Env)
    requires st.row == if job.monitor in monitors then Some(monitors[job.monitor]) else None
    requires e.o.ok == job.ok
    ensures var (st1, next) := Advance(c, st, Load, e);
      && st1 == st
      && next == (if !job.ok then Some(Requeue)
                  else if Requests([job], monitors) == [] then None
                  else Some(Acquire(Requests([job], monitors)[0].row)))
    ensures var put := Advance(c, st, Requeue, e.(o := job.o, now := job.now));
      put.1 == None && put.0.due == (if job.o.applied > 0 then Some(job.now + 5) else st.due)
  {
    assert [job][..0] == [];
  }
}
