/** All tokens of one monitor, interleaved in every possible way.

    The machine knows no channel capacities and no worker counts: a step that the
    running system would delay may happen here at once, so every interleaving of the
    running system is one of this machine (module Network proves it). */
module MonitorMachine {
  import opened Sequences
  import opened Domain
  import opened FineSteps

  datatype Mon = Mon(st: Store, toks: seq<Place>)

  /** One SQL statement or Redis command of a service call, on its own. */
  datatype Statement = CloseRows | DelHash | DelSchedule | AddSchedule(at: int) | SetRow(row: Option<MonitorRow>)

  /** What the API does to a monitor: an update of its status or its deletion in one
      step, or one of their statements alone. */
  datatype Operation =
    | SetEnabled(on: bool, now: int)
    | Delete
    | Loose(s: Statement, o: Outcome)

  datatype Event =
    | Step(i: nat, e: Env)    // token i performs its next call
    | Attempt(i: nat, e: Env) // ... or a try of it that fails and is repeated later
    | Pop(kept: bool)         // the scheduler takes the monitor's entry, or the reply is lost
    | Expire                  // the retry key expires
    | User(op: Operation)

  /** CreateMonitor: the row is inserted, enabled by default, and the monitor scheduled. */
  function Created(row: MonitorRow, now: int): Mon {
    Mon(Store(Some(row.(enabled := true)), Some(now + row.interval), CLEAN, 0, 0, false), [])
  }

  /** Before CreateMonitor has run its first statement. */
  const UNBORN := Mon(Store(None, None, CLEAN, 0, 0, false), [])

  /** Where the runs of a monitor start: it is created in one step, or its INSERT and its
      ZADD are statements of the run. */
  ghost predicate Newborn(s: Mon) {
    s == UNBORN || exists row, now :: s == Created(row, now)
  }

  function DisableMonitor(st: Store): Store {
    ClearedHash(st.(due := None), DONE)
  }

  /** UpdateMonitorStatus in one step. */
  function SetEnabledStore(st: Store, on: bool, now: int): Store {
    if st.row.None? || st.row.value.enabled == on then st
    else
      var st1 := st.(row := Some(st.row.value.(enabled := on)));
      if on then
        Scheduled(st1, now + st.row.value.interval, DONE).(enables := st.enables + 1, parked := false)
      else
        DisableMonitor(Closed(st1, DONE))
  }

  /** DeleteMonitor in one step; ON DELETE CASCADE takes the incident rows along. */
  function DeleteStore(st: Store): Store {
    if st.row.None? then st else Closed(DisableMonitor(st).(row := None), DONE)
  }

  predicate RowEnabled(row: Option<MonitorRow>) {
    row.Some? && row.value.enabled
  }

  function Perform(st: Store, s: Statement, o: Outcome): Store {
    match s
    case CloseRows => Closed(st, o)
    case DelHash => ClearedHash(st, o)
    case DelSchedule => if o.applied > 0 then st.(due := None) else st
    case AddSchedule(at) => if o.applied > 0 then Scheduled(st, at, o).(parked := false) else st
    case SetRow(row) =>
      if o.applied == 0 then st
      else st.(row := row, parked := st.parked && !(RowEnabled(row) && !RowEnabled(st.row)))
  }

  function Operate(st: Store, op: Operation): Store {
    match op
    case SetEnabled(on, now) => SetEnabledStore(st, on, now)
    case Delete => DeleteStore(st)
    case Loose(s, o) => Perform(st, s, o)
  }

  /** A token that ends in FTerminal parks the monitor if it was its last one. */
  function Settle(st: Store, from: Place, left: nat): Store {
    if from.FTerminal? then st.(parked := left == 0 && st.due.None?) else st
  }

  function StepToken(c: Config, s: Mon, i: nat, e: Env): Mon
    requires i < |s.toks|
  {
    var (st, next) := Advance(c, s.st, s.toks[i], e);
    var toks := Move(s.toks, i, next);
    Mon(Settle(st, s.toks[i], |toks|), toks)
  }

  /** The Redis operations that pkg/redis tries more than once. */
  predicate Retried(p: Place) {
    p.Batch? || p.Requeue? || p.FRetry? || p.FClearRetry? || p.FIncr? || p.FSched?
    || p.SClear? || p.SClearRetry? || p.SSched?
  }

  /** A try that took effect and was reported failed. One that took none is no event. */
  function Attempted(c: Config, st: Store, p: Place, e: Env): Store {
    if Retried(p) then Advance(c, st, p, e.(o := Outcome(1, false))).0 else st
  }

  /** An event that is not possible leaves the state as it is. */
  function Apply(c: Config, s: Mon, ev: Event): Mon {
    match ev
    case Step(i, e) => if i < |s.toks| then StepToken(c, s, i, e) else s
    case Attempt(i, e) => if i < |s.toks| then s.(st := Attempted(c, s.st, s.toks[i], e)) else s
    case Pop(kept) =>
      if s.st.due.None? then s
      else Mon(s.st.(due := None), if kept then s.toks + [Batch(s.st.due.value)] else s.toks)
    case Expire => s.(st := ClearedRetry(s.st, DONE))
    case User(op) => s.(st := Operate(s.st, op))
  }

  function Run(c: Config, s: Mon, evs: seq<Event>): Mon {
    if evs == [] then s else Apply(c, Run(c, s, evs[..|evs| - 1]), evs[|evs| - 1])
  }

  /** Service calls run in one step. */
  predicate Serviced(ev: Event) {
    ev.User? ==> !ev.op.Loose?
  }

  /** Every call succeeds at once, and service calls run in one step. */
  predicate NoFault(ev: Event) {
    (ev.Step? ==> ev.e.o == DONE) && !ev.Attempt? && (ev.Pop? ==> ev.kept) && Serviced(ev)
  }

  ghost predicate All(evs: seq<Event>, p: Event -> bool) {
    forall i | 0 <= i < |evs| :: p(evs[i])
  }

  lemma RunSnoc(c: Config, s: Mon, evs: seq<Event>, ev: Event)
    ensures Run(c, s, evs + [ev]) == Apply(c, Run(c, s, evs), ev)
  {
    assert (evs + [ev])[..|evs|] == evs;
  }

  function Tokens(s: Mon): nat {
    |s.toks| + (if s.st.due.Some? then 1 else 0)
  }

  /** The monitor is enabled and exists. */
  predicate Live(s: Mon) {
    RowEnabled(s.st.row)
  }

  // Conservation

  ghost predicate Conserved(s: Mon) {
    Live(s) ==> (Tokens(s) == 0 <==> s.st.parked)
  }

  /** The call this token is at puts its monitor back into the schedule. */
  predicate Reschedules(p: Place, e: Env) {
    p.FSched? || p.SSched? || p.Requeue? || (p.Batch? && !e.dispatch.ToJobs?)
  }

  /** When the monitor is due again: an entry that is not due as before, one that finds no
      room two seconds later than before, one whose monitor could not be read in five
      seconds, and a handled one after the handler's delay. */
  lemma EntryMade(c: Config, st: Store, p: Place, e: Env)
    requires Reschedules(p, e) && e.o.applied > 0
    ensures var (st', next) := Advance(c, st, p, e);
      && next.None? && st'.due.Some?
      && st' == st.(due := st'.due)
      && st'.due.value ==
         match p
         case Batch(score) => if e.dispatch.Backoff? then score + 2 else score
         case Requeue => e.now + 5
         case FSched(delay) => e.now + delay
         case SSched(delay) => e.now + delay
         case _ => 0
  {
  }

  /** The monitor is to be checked and its last token vanishes, or has never been there:
      its rescheduling takes no effect and is given up; the reply to the ZPOPMIN that took
      its entry is lost; a ZREM removes its entry; or a statement enables it, or inserts
      its row, while it has no token. */
  predicate Loses(s: Mon, ev: Event) {
    match ev
    case Step(i, e) =>
      Live(s) && Tokens(s) == 1 && i < |s.toks| && Reschedules(s.toks[i], e) && e.o.applied == 0
    case Pop(kept) => Live(s) && s.toks == [] && s.st.due.Some? && !kept
    case User(Loose(DelSchedule, o)) => Live(s) && s.toks == [] && s.st.due.Some? && o.applied > 0
    case User(Loose(SetRow(row), o)) => !Live(s) && Tokens(s) == 0 && RowEnabled(row) && o.applied > 0
    case _ => false
  }

  /** A lost monitor is scheduled, or it is no longer to be checked. */
  predicate Finds(ev: Event) {
    match ev
    case User(SetEnabled(on, _)) => !on
    case User(Delete) => true
    case User(Loose(AddSchedule(_), o)) => o.applied > 0
    case User(Loose(SetRow(row), o)) => o.applied > 0 && !RowEnabled(row)
    case _ => false
  }

  /** A parked monitor has no token. */
  predicate Parks(s: Mon) {
    s.st.parked ==> Tokens(s) == 0
  }

  lemma ConservedToken(c: Config, s: Mon, i: nat, e: Env)
    requires Parks(s) && i < |s.toks|
    ensures Parks(Apply(c, s, Step(i, e)))
    ensures Conserved(s) && (Conserved(Apply(c, s, Step(i, e))) <==> !Loses(s, Step(i, e)))
  {
  }

  lemma ConservedUser(c: Config, s: Mon, op: Operation)
    requires Parks(s)
    ensures Parks(Apply(c, s, User(op)))
    ensures Conserved(Apply(c, s, User(op))) <==> if Conserved(s) then !Loses(s, User(op)) else Finds(User(op))
  {
  }

  /** Whatever fails, and however service calls are taken apart: a monitor is lost at one
      of these events and at no other, and found again likewise. */
  lemma ConservedStep(c: Config, s: Mon, ev: Event)
    requires Parks(s)
    ensures Parks(Apply(c, s, ev))
    ensures Conserved(Apply(c, s, ev)) <==> if Conserved(s) then !Loses(s, ev) else Finds(ev)
  {
    match ev
    case Step(i, e) =>
      if i < |s.toks| {
        ConservedToken(c, s, i, e);
      }
    case User(op) => ConservedUser(c, s, op);
    case _ =>
  }

  /** Event i lost the monitor, and none after it found it. */
  ghost predicate LostAt(c: Config, s: Mon, evs: seq<Event>, i: nat) {
    i < |evs| && Loses(Run(c, s, evs[..i]), evs[i]) && forall j | i < j < |evs| :: !Finds(evs[j])
  }

  /** The run lost the monitor and has not found it since. */
  ghost predicate Lost(c: Config, s: Mon, evs: seq<Event>) {
    exists i: nat :: LostAt(c, s, evs, i)
  }

  lemma LostAtSnoc(c: Config, s: Mon, evs: seq<Event>, i: nat)
    requires evs != [] && i < |evs| - 1
    ensures LostAt(c, s, evs, i) <==> LostAt(c, s, evs[..|evs| - 1], i) && !Finds(evs[|evs| - 1])
  {
    assert evs[..|evs| - 1][..i] == evs[..i];
  }

  /** Lost, read from the end of the run. */
  lemma LostSnoc(c: Config, s: Mon, evs: seq<Event>)
    requires evs != []
    ensures var front, ev := evs[..|evs| - 1], evs[|evs| - 1];
      Lost(c, s, evs) <==> Loses(Run(c, s, front), ev) || (Lost(c, s, front) && !Finds(ev))
  {
    var n := |evs| - 1;
    forall i: nat | i < n
      ensures LostAt(c, s, evs, i) <==> LostAt(c, s, evs[..n], i) && !Finds(evs[n])
    {
      LostAtSnoc(c, s, evs, i);
    }
    assert LostAt(c, s, evs, n) <==> Loses(Run(c, s, evs[..n]), evs[n]);
  }

  lemma LosesOnlyKept(s: Mon, ev: Event)
    requires Parks(s) && Loses(s, ev)
    ensures Conserved(s) && !Finds(ev)
  {
  }

  /** Every run, under any failures and any interleaving of statements: an enabled monitor
      has no token exactly when a terminal failure consumed its last one since it was
      enabled, unless the run lost it and has not found it since; and then it has none. */
  lemma {:induction false} TokenConservation(c: Config, s0: Mon, evs: seq<Event>)
    requires Newborn(s0)
    ensures Parks(Run(c, s0, evs))
    ensures Conserved(Run(c, s0, evs)) <==> !Lost(c, s0, evs)
  {
    if evs != [] {
      var front, ev := evs[..|evs| - 1], evs[|evs| - 1];
      TokenConservation(c, s0, front);
      ConservedStep(c, Run(c, s0, front), ev);
      LostSnoc(c, s0, evs);
      if Loses(Run(c, s0, front), ev) {
        LosesOnlyKept(Run(c, s0, front), ev);
      }
    }
  }

  /** A lost monitor is not checked again until somebody touches it. */
  lemma {:induction false} LostForGood(c: Config, s: Mon, evs: seq<Event>)
    requires Tokens(s) == 0 && forall i | 0 <= i < |evs| :: !evs[i].User?
    ensures Tokens(Run(c, s, evs)) == 0
  {
    if evs != [] {
      LostForGood(c, s, evs[..|evs| - 1]);
    }
  }

  // Lost, in runs written out

  lemma {:induction false} RunConcat(c: Config, s: Mon, a: seq<Event>, b: seq<Event>)
    ensures Run(c, s, a + b) == Run(c, Run(c, s, a), b)
  {
    if b == [] {
      assert a + b == a;
    } else {
      RunConcat(c, s, a, b[..|b| - 1]);
      assert (a + b)[..|a + b| - 1] == a + b[..|b| - 1];
    }
  }

  lemma RunTwo(c: Config, s: Mon, a: Event, b: Event)
    ensures Run(c, s, [a]) == Apply(c, s, a) && Run(c, s, [a, b]) == Apply(c, Apply(c, s, a), b)
  {
    assert [] + [a] == [a] && [a] + [b] == [a, b];
    RunSnoc(c, s, [], a);
    RunSnoc(c, s, [a], b);
  }

  lemma RunThree(c: Config, s: Mon, a: Event, b: Event, d: Event)
    ensures Run(c, s, [a, b, d]) == Apply(c, Apply(c, Apply(c, s, a), b), d)
  {
    RunTwo(c, s, a, b);
    assert [a, b] + [d] == [a, b, d];
    RunSnoc(c, s, [a, b], d);
  }

  predicate Adrift(s: Mon) {
    Live(s) && Tokens(s) == 0 && !s.st.parked
  }

  /** Lost in two events: jobChan is full, and Redis refuses the entry that is to come
      back two seconds later. */
  lemma LosingRun(c: Config, row: MonitorRow, e: Env)
    requires e.dispatch.Backoff? && e.o.applied == 0
    ensures Adrift(Run(c, Created(row, 0), [Pop(true), Step(0, e)]))
  {
    RunTwo(c, Created(row, 0), Pop(true), Step(0, e));
    assert Apply(c, Created(row, 0), Pop(true)).toks == [Batch(row.interval)];
  }

  /** Lost by a deletion whose DELETE fails: the schedule entry and the hash are gone. */
  lemma HalfDeleted(c: Config, row: MonitorRow)
    ensures Adrift(Run(c, Created(row, 0), [User(Loose(DelSchedule, DONE)), User(Loose(DelHash, DONE))]))
  {
    RunTwo(c, Created(row, 0), User(Loose(DelSchedule, DONE)), User(Loose(DelHash, DONE)));
  }

  /** Lost by a creation whose ZADD fails. */
  lemma HalfCreated(c: Config, row: MonitorRow, at: int)
    requires row.enabled
    ensures Adrift(Run(c, UNBORN, [User(Loose(SetRow(Some(row)), DONE)), User(Loose(AddSchedule(at), Outcome(0, false)))]))
  {
    RunTwo(c, UNBORN, User(Loose(SetRow(Some(row)), DONE)), User(Loose(AddSchedule(at), Outcome(0, false))));
  }

  function Toggled(row: MonitorRow, at: int): seq<Event> {
    [User(Loose(SetRow(Some(row.(enabled := false))), DONE)),
     User(Loose(SetRow(Some(row.(enabled := true))), DONE)),
     User(Loose(AddSchedule(at), DONE)),
     User(Loose(CloseRows, DONE)),
     User(Loose(DelSchedule, DONE)),
     User(Loose(DelHash, DONE))]
  }

  /** Lost without any fault: an update disables the monitor, and before it has removed
      the schedule entry another one enables it. */
  lemma ToggledAway(c: Config, row: MonitorRow, at: int)
    ensures Adrift(Run(c, Created(row, 0), Toggled(row, at)))
  {
    var evs, s0 := Toggled(row, at), Created(row, 0);
    assert evs == [evs[0], evs[1], evs[2]] + [evs[3], evs[4], evs[5]];
    RunConcat(c, s0, [evs[0], evs[1], evs[2]], [evs[3], evs[4], evs[5]]);
    RunThree(c, s0, evs[0], evs[1], evs[2]);
    var s3 := Run(c, s0, [evs[0], evs[1], evs[2]]);
    assert Live(s3) && s3.toks == [] && !s3.st.parked;
    RunThree(c, s3, evs[3], evs[4], evs[5]);
  }

  // Bound

  /** An entry is made beside the tokens there are: a rescheduling that took effect is
      tried again, or a service call schedules the monitor in a statement of its own. */
  predicate Doubles(s: Mon, ev: Event) {
    match ev
    case Attempt(i, e) => i < |s.toks| && Reschedules(s.toks[i], e) && s.st.due.None?
    case User(Loose(AddSchedule(_), o)) => o.applied > 0 && s.st.due.None?
    case _ => false
  }

  lemma BoundToken(c: Config, s: Mon, i: nat, e: Env)
    requires i < |s.toks|
    ensures var t := Apply(c, s, Step(i, e)); Tokens(t) <= Tokens(s) && t.st.enables == s.st.enables
  {
  }

  lemma BoundAttempt(c: Config, s: Mon, i: nat, e: Env)
    requires i < |s.toks|
    ensures var t := Apply(c, s, Attempt(i, e));
      Tokens(t) == Tokens(s) + (if Doubles(s, Attempt(i, e)) then 1 else 0) && t.st.enables == s.st.enables
  {
  }

  /** Tokens outgrow the enabling updates at such a step and at no other. */
  lemma BoundStep(c: Config, s: Mon, ev: Event)
    ensures var t := Apply(c, s, ev);
      Tokens(t) + s.st.enables <= Tokens(s) + t.st.enables + (if Doubles(s, ev) then 1 else 0)
    ensures var t := Apply(c, s, ev); Tokens(t) + s.st.enables > Tokens(s) + t.st.enables <==> Doubles(s, ev)
  {
    match ev
    case Step(i, e) =>
      if i < |s.toks| {
        BoundToken(c, s, i, e);
      }
    case Attempt(i, e) =>
      if i < |s.toks| {
        BoundAttempt(c, s, i, e);
      }
    case _ =>
  }

  function Doublings(c: Config, s: Mon, evs: seq<Event>): nat {
    if evs == [] then 0
    else
      var front := evs[..|evs| - 1];
      Doublings(c, s, front) + Bit(Doubles(Run(c, s, front), evs[|evs| - 1]))
  }

  /** A monitor has at most one token, and one more per update that enables it, per
      rescheduling repeated after it took effect, and per scheduling statement on its own. */
  lemma {:induction false} TokenBound(c: Config, s0: Mon, evs: seq<Event>)
    requires Newborn(s0)
    ensures Tokens(Run(c, s0, evs)) <= 1 + Run(c, s0, evs).st.enables + Doublings(c, s0, evs)
  {
    if evs != [] {
      TokenBound(c, s0, evs[..|evs| - 1]);
      BoundStep(c, Run(c, s0, evs[..|evs| - 1]), evs[|evs| - 1]);
    }
  }

  lemma {:induction false} FaultFreeDoubles(c: Config, s: Mon, evs: seq<Event>)
    requires All(evs, NoFault)
    ensures Doublings(c, s, evs) == 0
  {
    if evs != [] {
      FaultFreeDoubles(c, s, evs[..|evs| - 1]);
      assert NoFault(evs[|evs| - 1]);
    }
  }

  /** In particular fault-free runs lose nothing and double nothing. */
  lemma FaultFreeTokens(c: Config, row: MonitorRow, now: int, evs: seq<Event>)
    requires All(evs, NoFault)
    ensures var s := Run(c, Created(row, now), evs); Conserved(s) && Tokens(s) <= 1 + s.st.enables
  {
    assert Newborn(Created(row, now));
    forall i | 0 <= i < |evs|
      ensures !Loses(Run(c, Created(row, now), evs[..i]), evs[i])
    {
      assert NoFault(evs[i]);
    }
    TokenConservation(c, Created(row, now), evs);
    FaultFreeDoubles(c, Created(row, now), evs);
    TokenBound(c, Created(row, now), evs);
  }

  // One place at a time

  /** This event gives a monitor whose token is under way a second one. */
  predicate Adds(s: Mon, ev: Event) {
    && s.toks != []
    && s.st.due.None?
    && match ev
       case Attempt(i, e) => i < |s.toks| && Reschedules(s.toks[i], e)
       case User(SetEnabled(on, _)) => on && s.st.row.Some? && !s.st.row.value.enabled
       case User(Loose(AddSchedule(_), o)) => o.applied > 0
       case _ => false
  }

  lemma OneTokenStep(c: Config, s: Mon, ev: Event)
    requires Tokens(s) <= 1
    ensures Tokens(Apply(c, s, ev)) <= 1 <==> !Adds(s, ev)
  {
  }

  ghost predicate NeverAdds(c: Config, s: Mon, evs: seq<Event>) {
    forall i | 0 <= i < |evs| :: !Adds(Run(c, s, evs[..i]), evs[i])
  }

  lemma {:induction false} StaysOneToken(c: Config, s: Mon, evs: seq<Event>)
    requires Tokens(s) <= 1 && NeverAdds(c, s, evs)
    ensures Tokens(Run(c, s, evs)) <= 1
  {
    if evs != [] {
      var front := evs[..|evs| - 1];
      forall i | 0 <= i < |front|
        ensures !Adds(Run(c, s, front[..i]), front[i])
      {
        assert front[..i] == evs[..i];
      }
      StaysOneToken(c, s, front);
      OneTokenStep(c, Run(c, s, front), evs[|evs| - 1]);
    }
  }

  /** A monitor is in one place at every moment of a run, so that no two checks of it and
      no two handlers for it overlap, exactly when no event of the run adds a token to
      one that is under way. */
  lemma NoOverlap(c: Config, s: Mon, evs: seq<Event>)
    requires Tokens(s) <= 1
    ensures (forall k | 0 <= k <= |evs| :: Tokens(Run(c, s, evs[..k])) <= 1) <==> NeverAdds(c, s, evs)
  {
    if NeverAdds(c, s, evs) {
      forall k | 0 <= k <= |evs|
        ensures Tokens(Run(c, s, evs[..k])) <= 1
      {
        forall i | 0 <= i < k
          ensures !Adds(Run(c, s, evs[..k][..i]), evs[..k][i])
        {
          assert evs[..k][..i] == evs[..i];
        }
        StaysOneToken(c, s, evs[..k]);
      }
    }
    if forall k | 0 <= k <= |evs| :: Tokens(Run(c, s, evs[..k])) <= 1 {
      forall i | 0 <= i < |evs|
        ensures !Adds(Run(c, s, evs[..i]), evs[i])
      {
        assert Tokens(Run(c, s, evs[..i + 1])) <= 1;
        assert evs[..i + 1][..i] == evs[..i];
        OneTokenStep(c, Run(c, s, evs[..i]), evs[i]);
      }
    }
  }

  /** Fault-free, and nobody enables the monitor. */
  predicate KeepsOff(ev: Event) {
    NoFault(ev) && !(ev.User? && ev.op.SetEnabled? && ev.op.on)
  }

  lemma KeepsOffAdds(c: Config, s: Mon, evs: seq<Event>)
    requires All(evs, KeepsOff)
    ensures NeverAdds(c, s, evs)
  {
    forall i | 0 <= i < |evs|
      ensures !Adds(Run(c, s, evs[..i]), evs[i])
    {
      assert KeepsOff(evs[i]);
    }
  }

  function EnabledAt(c: Config, s: Mon, now: int): Mon {
    Apply(c, s, User(SetEnabled(true, now)))
  }

  /** Enabling a disabled monitor is safe, in that its handlers will not overlap whatever
      happens next without faults and without another enabling, exactly when none of its
      tokens is under way. */
  lemma EnablingIsSafe(c: Config, s: Mon, now: int)
    requires s.st.row.Some? && !s.st.row.value.enabled
    ensures (forall evs | All(evs, KeepsOff) :: |Run(c, EnabledAt(c, s, now), evs).toks| <= 1) <==> s.toks == []
  {
    var t := EnabledAt(c, s, now);
    if s.toks == [] {
      forall evs | All(evs, KeepsOff)
        ensures |Run(c, t, evs).toks| <= 1
      {
        KeepsOffAdds(c, t, evs);
        StaysOneToken(c, t, evs);
      }
    } else {
      var evs := [Pop(true)];
      assert All(evs, KeepsOff);
      RunTwo(c, t, Pop(true), Expire);
      assert |Run(c, t, evs).toks| == |s.toks| + 1;
    }
  }

  /** A repetition does overlap: the scheduler takes the entry that the first try made
      before the second one is done. */
  lemma DoublingRun(c: Config, row: MonitorRow, e: Env)
    requires e.dispatch.Backoff?
    ensures |Run(c, Created(row, 0), [Pop(true), Attempt(0, e), Pop(true)]).toks| == 2
  {
    RunThree(c, Created(row, 0), Pop(true), Attempt(0, e), Pop(true));
    assert Apply(c, Created(row, 0), Pop(true)).toks == [Batch(row.interval)];
  }
}
