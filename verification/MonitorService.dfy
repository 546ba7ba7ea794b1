/** The monitor service (internals/modules/monitor/service.go), statement by statement. */
module MonitorService {
  import opened Sequences
  import opened Domain
  import opened FineSteps
  import opened MonitorMachine
  import opened Stores
  import opened Quota

  /** The calls of the service methods, each at most once per method. */
  datatype Call =
    | IncrementCount
    | Insert
    | Schedule
    | GetRow
    | WriteRow
    | CloseIncident
    | Unschedule
    | ClearIncident
    | DeleteRow
    | DecrementCount

  datatype Plan = Plan(outcome: Call -> Outcome, now: int)

  ghost predicate AllSucceed(plan: Plan) {
    forall call :: plan.outcome(call) == DONE
  }

  /** disableMonitor, whose errors are ignored. */
  function Disabled(st: Store, plan: Plan): Store {
    Perform(Perform(st, DelSchedule, plan.outcome(Unschedule)), DelHash, plan.outcome(ClearIncident))
  }

  /** UpdateMonitorStatus as the statements it runs. */
  function Updated(st: Store, team: nat, on: bool, plan: Plan): Store {
    if !plan.outcome(GetRow).ok || st.row.None? || st.row.value.team != team || st.row.value.enabled == on then st
    else
      var written := Perform(st, SetRow(Some(st.row.value.(enabled := on))), plan.outcome(WriteRow));
      if !plan.outcome(WriteRow).ok then written
      else if on then Perform(written, AddSchedule(plan.now + st.row.value.interval), plan.outcome(Schedule))
      else Disabled(Perform(written, CloseRows, plan.outcome(CloseIncident)), plan)
  }

  /** UpdateMonitorStatus under any failures: it goes on only if its team's monitor was read,
      was in the other state, and is known to have been written. */
  lemma UpdateOutcome(st: Store, team: nat, on: bool, plan: Plan)
    ensures var st' := Updated(st, team, on, plan);
      var turns := plan.outcome(GetRow).ok && st.row.Some? && st.row.value.team == team && st.row.value.enabled != on;
      var goesOn := turns && plan.outcome(WriteRow).ok;
      && st'.row == (if turns && plan.outcome(WriteRow).applied > 0 then Some(st.row.value.(enabled := on)) else st.row)
      && st'.due ==
           (if goesOn && on && plan.outcome(Schedule).applied > 0 then Some(plan.now + st.row.value.interval)
            else if goesOn && !on && plan.outcome(Unschedule).applied > 0 then None
            else st.due)
      && st'.core.hash == (if goesOn && !on && plan.outcome(ClearIncident).applied > 0 then None else st.core.hash)
      && st'.core.open ==
           (if goesOn && !on && plan.outcome(CloseIncident).applied > 0 then AllFalse(|st.core.open|) else st.core.open)
      && st'.core.retry == st.core.retry && st'.core.alerts == st.core.alerts
  {
  }

  /** DeleteMonitor as the statements it runs: schedule entry and hash go first. */
  function Removed(st: Store, team: nat, plan: Plan): Store {
    if !plan.outcome(GetRow).ok || st.row.None? || st.row.value.team != team then st
    else
      var off := Disabled(st, plan);
      if plan.outcome(DeleteRow).applied == 0 then off else Closed(off.(row := None), DONE)
  }

  /** ... under any failures: entry and hash may go although the row stays. */
  lemma RemovalOutcome(st: Store, team: nat, plan: Plan)
    ensures var st' := Removed(st, team, plan);
      var found := plan.outcome(GetRow).ok && st.row.Some? && st.row.value.team == team;
      && st'.row == (if found && plan.outcome(DeleteRow).applied > 0 then None else st.row)
      && st'.due == (if found && plan.outcome(Unschedule).applied > 0 then None else st.due)
      && st'.core.hash == (if found && plan.outcome(ClearIncident).applied > 0 then None else st.core.hash)
      && st'.core.open == (if found && plan.outcome(DeleteRow).applied > 0 then AllFalse(|st.core.open|) else st.core.open)
      && st'.core.retry == st.core.retry && st'.core.alerts == st.core.alerts
  {
  }

  /** Without the histories, which the program does not keep. */
  function Seen(st: Store): Store {
    st.(deletions := 0, enables := 0, parked := false)
  }

  /** With no call failing, these statements are the one step that module
      MonitorMachine takes an update to be. */
  lemma UpdateIsOneStep(st: Store, on: bool, plan: Plan)
    requires AllSucceed(plan) && st.row.Some?
    ensures Seen(Updated(st, st.row.value.team, on, plan)) == Seen(SetEnabledStore(st, on, plan.now))
  {
  }

  /** A deletion whose DELETE takes no effect loses an enabled monitor that is waiting in
      the schedule, if its ZREM took effect. */
  lemma HalfDeletionLoses(st: Store, plan: Plan)
    requires st.row.Some? && st.row.value.enabled && !st.parked && plan.outcome(GetRow).ok
    requires plan.outcome(Unschedule).applied > 0 && plan.outcome(DeleteRow).applied == 0
    ensures Adrift(Mon(Removed(st, st.row.value.team, plan), []))
  {
  }

  // The quota statements of creation and deletion

  function LedgerOf(counts: map<nat, nat>, owners: map<nat, nat>): Ledger {
    Ledger(counts, owners, owners.Keys, [])
  }

  /** The statements of a request, from this one on. */
  function Requested(s: Ledger, op: Op, outcome: Op -> Outcome, id: nat): Ledger
    decreases match op case Loading(_) => 3 case Deleting(_, _) => 2 case Incrementing(_) => 2 case _ => 1
  {
    var (s1, next) := RunStatement(s, op, outcome(op), id);
    match op
    case Loading(_) => if next.Some? && next.value.Deleting? then Requested(s1, next.value, outcome, id) else s1
    case Deleting(_, _) => if next.Some? && next.value.Decrementing? then Requested(s1, next.value, outcome, id) else s1
    case Incrementing(_) => if next.Some? && next.value.Inserting? then Requested(s1, next.value, outcome, id) else s1
    case _ => s1
  }

  function OutcomeOf(plan: Plan): Op -> Outcome {
    (op: Op) =>
      match op
      case Incrementing(_) => plan.outcome(IncrementCount)
      case Inserting(_) => plan.outcome(Insert)
      case Loading(_) => plan.outcome(GetRow)
      case Deleting(_, _) => plan.outcome(DeleteRow)
      case Decrementing(_) => plan.outcome(DecrementCount)
  }

  /** The statements of a creation in a row. */
  lemma CreationRequest(counts: map<nat, nat>, owners: map<nat, nat>, u: nat, id: nat, plan: Plan)
    requires id !in owners
    ensures var s := Requested(LedgerOf(counts, owners), Incrementing(u), OutcomeOf(plan), id);
      var incr, insert := plan.outcome(IncrementCount), plan.outcome(Insert);
      var counted := incr.applied > 0 && u in counts && counts[u] < 10;
      && s.counts == (if counted then counts[u := counts[u] + 1] else counts)
      && s.owners == (if counted && incr.ok && insert.applied > 0 then owners[id := u] else owners)
  {
    var s := LedgerOf(counts, owners);
    var (s1, next) := RunStatement(s, Incrementing(u), plan.outcome(IncrementCount), id);
    if next.Some? {
      assert Requested(s1, Inserting(u), OutcomeOf(plan), id) == RunStatement(s1, Inserting(u), plan.outcome(Insert), id).0;
    }
  }

  /** The statements of a deletion in a row. */
  lemma DeletionRequest(counts: map<nat, nat>, owners: map<nat, nat>, m: nat, plan: Plan)
    requires m in owners
    ensures var s := Requested(LedgerOf(counts, owners), Loading(m), OutcomeOf(plan), 0);
      var get, del, dec := plan.outcome(GetRow), plan.outcome(DeleteRow), plan.outcome(DecrementCount);
      && s.owners == (if get.ok && del.applied > 0 then owners - {m} else owners)
      && s.counts == (if get.ok && del.ok && del.applied > 0 && dec.applied > 0 then Decremented(counts, owners[m]) else counts)
  {
    var s := LedgerOf(counts, owners);
    if plan.outcome(GetRow).ok {
      var (s1, next) := RunStatement(s, Deleting(m, owners[m]), plan.outcome(DeleteRow), 0);
      assert Requested(s, Loading(m), OutcomeOf(plan), 0) == Requested(s, Deleting(m, owners[m]), OutcomeOf(plan), 0);
      if next.Some? {
        assert Requested(s1, Decrementing(owners[m]), OutcomeOf(plan), 0)
            == RunStatement(s1, Decrementing(owners[m]), plan.outcome(DecrementCount), 0).0;
      }
    }
  }

  class Service {
    const redis: RedisClient
    const db: Database

    constructor (redis: RedisClient, db: Database)
      ensures this.redis == redis && this.db == db
    {
      this.redis, this.db := redis, db;
    }

    /** All that the service shares about monitor m; it neither reads nor sends alerts,
        and it leaves retry counters alone. */
    ghost function StoreOf(m: nat): Store
      reads redis, db
    {
      Store(db.RowOf(m), redis.DueOf(m), Core(redis.HashOf(m), redis.RetryOf(m), db.OpenOf(m), []), 0, 0, false)
    }

    method DisableMonitor(m: nat, plan: Plan)
      modifies redis`schedule, redis`incidents
      ensures Seen(StoreOf(m)) == Seen(Disabled(old(StoreOf(m)), plan))
      ensures forall n | n != m :: StoreOf(n) == old(StoreOf(n))
    {
      var _ := redis.DelSchedule(m, plan.outcome(Unschedule));
      var _ := redis.ClearIncident(m, plan.outcome(ClearIncident));
    }

    method UpdateMonitorStatus(team: nat, m: nat, enable: bool, plan: Plan) returns (ok: bool)
      modifies redis`schedule, redis`incidents, db`monitors, db`open
      ensures Seen(StoreOf(m)) == Seen(Updated(old(StoreOf(m)), team, enable, plan))
      ensures forall n | n != m :: StoreOf(n) == old(StoreOf(n))
      ensures ok && plan.outcome(WriteRow).applied > 0 ==>
        m in db.monitors && db.monitors[m].team == team && db.monitors[m].enabled == enable
      ensures AllSucceed(plan) && ok ==>
        Seen(StoreOf(m)) == Seen(SetEnabledStore(old(StoreOf(m)), enable, plan.now))
    {
      ghost var before := StoreOf(m);
      if AllSucceed(plan) && before.row.Some? {
        UpdateIsOneStep(before, enable, plan);
      }
      var row := db.Get(team, m, plan.outcome(GetRow));
      if row.None? {
        return false;
      }
      if row.value.enabled == enable {
        return true;
      }
      var done := db.SetEnabled(team, m, enable, plan.outcome(WriteRow));
      if !done {
        return false;
      }
      if enable {
        var _ := redis.Schedule(m, plan.now + row.value.interval, plan.outcome(Schedule));
      } else {
        var _, _ := db.CloseIncident(m, plan.outcome(CloseIncident), 0);
        DisableMonitor(m, plan);
      }
      return true;
    }

    // Creation and deletion, with the quota

    /** Every monitor has a row and an owner; nobody owns more monitors than are counted
        for them, or more than 10. */
    ghost predicate WithinQuota()
      reads db
    {
      && db.owners.Keys == db.monitors.Keys
      && forall u :: |OwnedBy(db.owners, u)| <= CountIn(db.counts, u) <= MAX_MONITORS
    }

    /** The three ways CreateMonitor ends: the quota is used up and nothing changes; a
        statement failed; or the monitor exists, enabled, counted and scheduled. */
    method CreateMonitor(id: nat, u: nat, row: MonitorRow, plan: Plan) returns (created: bool)
      requires WithinQuota() && id !in db.monitors
      modifies db`counts, db`monitors, db`owners, redis`schedule
      ensures WithinQuota()
      ensures var s := Requested(LedgerOf(old(db.counts), old(db.owners)), Incrementing(u), OutcomeOf(plan), id);
        db.counts == s.counts && db.owners == s.owners
      ensures forall n | n != id :: StoreOf(n) == old(StoreOf(n))
      ensures CountIn(old(db.counts), u) == 10 ==>
        !created && db.monitors == old(db.monitors) && redis.schedule == old(redis.schedule)
      ensures created ==>
        && db.monitors == old(db.monitors)[id := row.(enabled := true)] && db.owners == old(db.owners)[id := u]
        && db.counts == Incremented(old(db.counts), u)
        && (plan.outcome(Schedule).applied > 0 ==> redis.DueOf(id) == Some(plan.now + row.interval))
      ensures AllSucceed(plan) && u in old(db.counts) && old(db.counts)[u] < 10 ==> created
    {
      CreationRequest(db.counts, db.owners, u, id, plan);
      created := CountAndInsert(id, u, row, plan);
      if created {
        var _ := redis.Schedule(id, plan.now + row.interval, plan.outcome(Schedule));
      }
    }

    /** The first half of CreateMonitor: the increment, and the INSERT if it was granted. */
    method CountAndInsert(id: nat, u: nat, row: MonitorRow, plan: Plan) returns (inserted: bool)
      requires WithinQuota() && id !in db.monitors
      modifies db`counts, db`monitors, db`owners
      ensures WithinQuota()
      ensures var incr, insert := plan.outcome(IncrementCount), plan.outcome(Insert);
        var counted := incr.applied > 0 && u in old(db.counts) && old(db.counts)[u] < 10;
        var tried := counted && incr.ok;
        && (inserted <==> tried && insert.ok && insert.applied > 0)
        && db.counts == (if counted then old(db.counts)[u := old(db.counts)[u] + 1] else old(db.counts))
        && db.monitors == (if tried && insert.applied > 0 then old(db.monitors)[id := row.(enabled := true)] else old(db.monitors))
        && db.owners == (if tried && insert.applied > 0 then old(db.owners)[id := u] else old(db.owners))
    {
      ghost var owners := db.owners;
      inserted := db.IncrementMonitorCount(u, plan.outcome(IncrementCount));
      if inserted {
        inserted := db.InsertMonitor(id, u, row, plan.outcome(Insert));
        forall v {
          OwnedInsert(owners, id, u, v);
        }
      }
    }

    /** Only a deletion that removed the row gives its place in the quota back. */
    method DeleteMonitor(team: nat, m: nat, plan: Plan) returns (deleted: bool)
      requires WithinQuota()
      modifies db, redis`schedule, redis`incidents
      ensures WithinQuota()
      ensures m in old(db.monitors) && old(db.monitors)[m].team == team ==>
        var s := Requested(LedgerOf(old(db.counts), old(db.owners)), Loading(m), OutcomeOf(plan), 0);
        db.counts == s.counts && db.owners == s.owners
      ensures Seen(StoreOf(m)) == Seen(Removed(old(StoreOf(m)), team, plan))
      ensures forall n | n != m :: StoreOf(n) == old(StoreOf(n))
      ensures deleted ==>
        && m in old(db.monitors) && old(db.monitors)[m].team == team
        && db.monitors == old(db.monitors) - {m} && db.owners == old(db.owners) - {m}
        && (plan.outcome(DecrementCount).applied > 0 ==> db.counts == Decremented(old(db.counts), old(db.owners)[m]))
      ensures !deleted ==> db.counts == old(db.counts)
      ensures AllSucceed(plan) ==>
        && (deleted <==> m in old(db.monitors) && old(db.monitors)[m].team == team)
        && (deleted ==> Seen(StoreOf(m)) == Seen(DeleteStore(old(StoreOf(m)))))
    {
      if m in db.owners {
        DeletionRequest(db.counts, db.owners, m, plan);
      }
      var row := db.Get(team, m, plan.outcome(GetRow));
      if row.None? {
        return false;
      }
      var user := db.owners[m];
      DisableMonitor(m, plan);
      label disabled:
      deleted := DeleteAndCount(team, m, user, plan);
      forall n | n != m
        ensures StoreOf(n) == old(StoreOf(n))
      {
        assert old@disabled(StoreOf(n)) == old(StoreOf(n));
        assert db.RowOf(n) == old@disabled(db.RowOf(n)) && db.OpenOf(n) == old@disabled(db.OpenOf(n));
      }
    }

    /** The second half of DeleteMonitor: the DELETE, and the decrement if it succeeded. */
    method DeleteAndCount(team: nat, m: nat, user: nat, plan: Plan) returns (deleted: bool)
      requires WithinQuota() && m in db.owners && db.owners[m] == user && db.monitors[m].team == team
      modifies db
      ensures WithinQuota()
      ensures var del, dec := plan.outcome(DeleteRow), plan.outcome(DecrementCount);
        && (deleted <==> del.ok && del.applied > 0)
        && db.monitors == (if del.applied > 0 then old(db.monitors) - {m} else old(db.monitors))
        && db.owners == (if del.applied > 0 then old(db.owners) - {m} else old(db.owners))
        && db.open == (if del.applied > 0 then old(db.open)[m := AllFalse(|old(db.OpenOf(m))|)] else old(db.open))
        && db.counts == (if deleted && dec.applied > 0 then Decremented(old(db.counts), user) else old(db.counts))
    {
      ghost var owners := db.owners;
      deleted := db.DeleteMonitor(team, m, plan.outcome(DeleteRow));
      forall v {
        OwnedDelete(owners, m, v);
      }
      if deleted {
        var _ := db.DecrementMonitorCount(user, plan.outcome(DecrementCount));
      }
    }
  }
}
