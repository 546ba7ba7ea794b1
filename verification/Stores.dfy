/** The shared state the result workers change: the keys of pkg/redis and the tables
    of pkg/db, with one method per operation. `o` tells how the operation's calls
    ended; pkg/redis/retry.go (module RetryLoop) decides which outcomes there are. */
module Stores {
  import opened Sequences
  import opened Domain
  import opened SortedSet
  import opened Quota

  /** pkg/redis: the sorted set, the incident hashes and the retry counters, by monitor. */
  class RedisClient {
    var schedule: map<nat, int>
    var incidents: map<nat, Hash>
    var retries: map<nat, nat>

    constructor ()
      ensures schedule == map[] && incidents == map[] && retries == map[]
    {
      schedule, incidents, retries := map[], map[], map[];
    }

    function HashOf(m: nat): Option<Hash>
      reads this
    {
      if m in incidents then Some(incidents[m]) else None
    }

    function RetryOf(m: nat): nat
      reads this
    {
      if m in retries then retries[m] else 0
    }

    function DueOf(m: nat): Option<int>
      reads this
    {
      if m in schedule then Some(schedule[m]) else None
    }

    function FieldsOf(m: nat): Hash
      reads this
    {
      if m in incidents then incidents[m] else BLANK
    }

    /** HINCRBY failure_count, then HSET of the timestamps, whose error is ignored. */
    method IncrementIncident(m: nat, o: Outcome, stamp: Outcome) returns (count: nat, firstTime: bool, ok: bool)
      modifies `incidents
      ensures ok == o.ok && count == old(FieldsOf(m)).count + o.applied
      ensures firstTime <==> ok && count == 1
      ensures incidents ==
        if o.applied > 0 then old(incidents)[m := old(FieldsOf(m)).(count := count)]
        else if ok && stamp.applied > 0 then old(incidents)[m := old(FieldsOf(m))]
        else old(incidents)
    {
      count := FieldsOf(m).count + o.applied;
      ok := o.ok;
      firstTime := false;
      if o.applied > 0 {
        incidents := incidents[m := FieldsOf(m).(count := count)];
      }
      if ok {
        if stamp.applied > 0 {
          incidents := incidents[m := FieldsOf(m)];
        }
        firstTime := count == 1;
      }
    }

    method ClearIncident(m: nat, o: Outcome) returns (ok: bool)
      modifies `incidents
      ensures ok == o.ok
      ensures incidents == if o.applied > 0 then old(incidents) - {m} else old(incidents)
    {
      if o.applied > 0 {
        incidents := incidents - {m};
      }
      ok := o.ok;
    }

    /** HGETALL. A failed call returns an empty reply, which reads as "no incident". */
    method GetIncident(m: nat, o: Outcome) returns (hash: Option<Hash>)
      ensures hash == if o.ok then HashOf(m) else None
    {
      if o.ok && m in incidents {
        hash := Some(incidents[m]);
      } else {
        hash := None;
      }
    }

    method MarkDBIncidentCreated(m: nat, o: Outcome) returns (ok: bool)
      modifies `incidents
      ensures ok == o.ok
      ensures incidents == if o.applied > 0 then old(incidents)[m := old(FieldsOf(m)).(db := true)] else old(incidents)
    {
      if o.applied > 0 {
        incidents := incidents[m := FieldsOf(m).(db := true)];
      }
      ok := o.ok;
    }

    /** HSETNX alerted: `first` for the one caller that set it. */
    method MarkIncidentAlertedIfNotSet(m: nat, o: Outcome) returns (first: bool, ok: bool)
      modifies `incidents
      ensures ok == o.ok && (first <==> ok && !old(FieldsOf(m)).alerted)
      ensures incidents == if o.applied > 0 then old(incidents)[m := old(FieldsOf(m)).(alerted := true)] else old(incidents)
    {
      first, ok := o.ok && !FieldsOf(m).alerted, o.ok;
      if o.applied > 0 {
        incidents := incidents[m := FieldsOf(m).(alerted := true)];
      }
    }

    method MarkIncidentRecoveredAlertedIfNotSet(m: nat, o: Outcome) returns (first: bool, ok: bool)
      modifies `incidents
      ensures ok == o.ok && (first <==> ok && !old(FieldsOf(m)).recovered)
      ensures incidents == if o.applied > 0 then old(incidents)[m := old(FieldsOf(m)).(recovered := true)] else old(incidents)
    {
      first, ok := o.ok && !FieldsOf(m).recovered, o.ok;
      if o.applied > 0 {
        incidents := incidents[m := FieldsOf(m).(recovered := true)];
      }
    }

    method IncrementRetry(m: nat, o: Outcome) returns (count: nat, ok: bool)
      modifies `retries
      ensures ok == o.ok && count == old(RetryOf(m)) + o.applied
      ensures retries == if o.applied > 0 then old(retries)[m := count] else old(retries)
    {
      count, ok := RetryOf(m) + o.applied, o.ok;
      if o.applied > 0 {
        retries := retries[m := count];
      }
    }

    method ClearRetry(m: nat, o: Outcome) returns (ok: bool)
      modifies `retries
      ensures ok == o.ok
      ensures retries == if o.applied > 0 then old(retries) - {m} else old(retries)
    {
      if o.applied > 0 {
        retries := retries - {m};
      }
      ok := o.ok;
    }

    /** ZADD of one member: an entry that is already there only changes its score. */
    method Schedule(m: nat, at: int, o: Outcome) returns (ok: bool)
      modifies `schedule
      ensures ok == o.ok
      ensures schedule == if o.applied > 0 then old(schedule)[m := at] else old(schedule)
    {
      if o.applied > 0 {
        schedule := schedule[m := at];
      }
      ok := o.ok;
    }

    /** ZADD of several members; nothing is sent for an empty list. */
    method ScheduleBatch(items: seq<Item>, o: Outcome) returns (ok: bool)
      modifies `schedule
      ensures ok == (items == [] || o.ok)
      ensures schedule == if o.applied > 0 then AddAll(old(schedule), items) else old(schedule)
    {
      if |items| == 0 {
        return true;
      }
      if o.applied > 0 {
        schedule := AddAll(schedule, items);
      }
      ok := o.ok;
    }

    /** ZPOPMIN. A try that took effect and was reported failed loses what it popped. */
    method PopDue(batchCount: nat, o: Outcome) returns (items: seq<Item>, ok: bool)
      modifies `schedule
      ensures ok == o.ok
      ensures schedule == PoppedTimes(old(schedule), batchCount, o.applied)
      ensures items ==
        if o.ok && o.applied > 0 then Smallest(PoppedTimes(old(schedule), batchCount, o.applied - 1), batchCount) else []
    {
      var popped := 0;
      items, ok := [], o.ok;
      while popped < o.applied
        invariant popped <= o.applied
        invariant schedule == PoppedTimes(old(schedule), batchCount, popped)
        invariant popped > 0 ==> items == Smallest(PoppedTimes(old(schedule), batchCount, popped - 1), batchCount)
        invariant popped == 0 ==> items == []
      {
        items := Smallest(schedule, batchCount);
        schedule := schedule - NameSet(items);
        popped := popped + 1;
      }
      if !o.ok {
        items := [];
      }
    }

    method DelSchedule(m: nat, o: Outcome) returns (ok: bool)
      modifies `schedule
      ensures ok == o.ok
      ensures schedule == if o.applied > 0 then old(schedule) - {m} else old(schedule)
    {
      if o.applied > 0 {
        schedule := schedule - {m};
      }
      ok := o.ok;
    }
  }

  /** The tables monitors (with user_id in `owners`), monitor_incidents and users. Incident
      rows are listed by monitor, in order of insertion, true while end_time is NULL. */
  class Database {
    var monitors: map<nat, MonitorRow>
    var owners: map<nat, nat>
    var open: map<nat, seq<bool>>
    var counts: map<nat, nat>

    constructor ()
      ensures monitors == map[] && owners == map[] && open == map[] && counts == map[]
    {
      monitors, owners, open, counts := map[], map[], map[], map[];
    }

    function OpenOf(m: nat): seq<bool>
      reads this
    {
      if m in open then open[m] else []
    }

    function RowOf(m: nat): Option<MonitorRow>
      reads this
    {
      if m in monitors then Some(monitors[m]) else None
    }

    /** INSERT INTO monitor_incidents, refused by the foreign key for a monitor that is
        gone and by the CHECK constraints for a result they exclude. */
    method CreateIncident(m: nat, r: HTTPResult, o: Outcome) returns (id: nat, ok: bool)
      modifies `open
      ensures ok <==> o.ok && o.applied > 0 && m in monitors && Storable(r)
      ensures id == |old(OpenOf(m))|
      ensures open ==
        if o.applied > 0 && m in monitors && Storable(r) then old(open)[m := old(OpenOf(m)) + [true]] else old(open)
    {
      id := |OpenOf(m)|;
      ok := false;
      if o.applied > 0 && m in monitors && Storable(r) {
        open := open[m := OpenOf(m) + [true]];
        ok := o.ok;
      }
    }

    /** UPDATE ... SET end_time ... WHERE end_time IS NULL RETURNING id. */
    method CloseIncident(m: nat, o: Outcome, pick: nat) returns (id: Option<nat>, ok: bool)
      modifies `open
      ensures ok == o.ok
      ensures id == if o.ok && o.applied > 0 then Returned(old(OpenOf(m)), pick) else None
      ensures open == if o.applied > 0 then old(open)[m := AllFalse(|old(OpenOf(m))|)] else old(open)
    {
      id, ok := None, o.ok;
      if o.applied > 0 {
        if o.ok {
          id := Returned(OpenOf(m), pick);
        }
        open := open[m := AllFalse(|OpenOf(m)|)];
      }
    }

    /** userRepo.IncrementMonitorCount: no affected row means the quota is used up. */
    method IncrementMonitorCount(u: nat, o: Outcome) returns (ok: bool)
      modifies `counts
      ensures counts == if o.applied > 0 then Incremented(old(counts), u) else old(counts)
      ensures ok <==> o.ok && counts != old(counts)
    {
      ok := false;
      if o.applied > 0 && u in counts && counts[u] < MAX_MONITORS {
        counts := counts[u := counts[u] + 1];
        ok := o.ok;
      }
    }

    method DecrementMonitorCount(u: nat, o: Outcome) returns (ok: bool)
      modifies `counts
      ensures counts == if o.applied > 0 then Decremented(old(counts), u) else old(counts)
      ensures ok == o.ok
    {
      if o.applied > 0 {
        counts := Decremented(counts, u);
      }
      ok := o.ok;
    }

    /** monitorRepo.Create; `id` is the new random id. */
    method InsertMonitor(id: nat, u: nat, row: MonitorRow, o: Outcome) returns (ok: bool)
      requires id !in monitors && id !in owners
      modifies `monitors, `owners
      ensures ok <==> o.ok && o.applied > 0
      ensures monitors == if o.applied > 0 then old(monitors)[id := row.(enabled := true)] else old(monitors)
      ensures owners == if o.applied > 0 then old(owners)[id := u] else old(owners)
    {
      if o.applied > 0 {
        monitors := monitors[id := row.(enabled := true)];
        owners := owners[id := u];
      }
      ok := o.ok && o.applied > 0;
    }

    /** monitorRepo.Get: the monitor as its team sees it. */
    method Get(team: nat, m: nat, o: Outcome) returns (row: Option<MonitorRow>)
      ensures row == if o.ok && m in monitors && monitors[m].team == team then RowOf(m) else None
    {
      if o.ok && m in monitors && monitors[m].team == team {
        row := Some(monitors[m]);
      } else {
        row := None;
      }
    }

    /** monitorRepo.SetEnabled. */
    method SetEnabled(team: nat, m: nat, on: bool, o: Outcome) returns (ok: bool)
      modifies `monitors
      ensures ok <==> o.ok && m in old(monitors) && old(monitors)[m].team == team
      ensures monitors ==
        if o.applied > 0 && m in old(monitors) && old(monitors)[m].team == team
        then old(monitors)[m := old(monitors)[m].(enabled := on)] else old(monitors)
    {
      ok := o.ok && m in monitors && monitors[m].team == team;
      if o.applied > 0 && m in monitors && monitors[m].team == team {
        monitors := monitors[m := monitors[m].(enabled := on)];
      }
    }

    /** monitorRepo.Delete; the incident rows go with the monitor. */
    method DeleteMonitor(team: nat, m: nat, o: Outcome) returns (ok: bool)
      modifies `monitors, `owners, `open
      ensures var gone := o.applied > 0 && m in old(monitors) && old(monitors)[m].team == team;
        && (ok <==> o.ok && gone)
        && monitors == (if gone then old(monitors) - {m} else old(monitors))
        && owners == (if gone then old(owners) - {m} else old(owners))
        && open == (if gone then old(open)[m := AllFalse(|old(OpenOf(m))|)] else old(open))
    {
      ok := false;
      if o.applied > 0 && m in monitors && monitors[m].team == team {
        monitors := monitors - {m};
        owners := owners - {m};
        open := open[m := AllFalse(|OpenOf(m)|)];
        ok := o.ok;
      }
    }
  }
}
