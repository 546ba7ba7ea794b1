/** The monitor quota under concurrent creations and deletions: every SQL statement is a
    step of its own, and any of them may fail with or without having taken effect. */
module Quota {
  import opened Sequences
  import opened Domain

  const MAX_MONITORS: nat := 10

  /** A service call in progress, by the statement it is about to run. */
  datatype Op =
    | Incrementing(user: nat)
    | Inserting(user: nat)
    | Loading(monitor: nat)
    | Deleting(monitor: nat, user: nat)
    | Decrementing(user: nat)

  /** `counts` is users.monitors_count, `owners` maps live monitors to user_id, `used`
      holds every monitor id ever given out, as gen_random_uuid never repeats one. */
  datatype Ledger = Ledger(counts: map<nat, nat>, owners: map<nat, nat>, used: set<nat>, ops: seq<Op>)

  const NEW_LEDGER := Ledger(map[], map[], {}, [])

  datatype Event =
    | Register(user: nat)
    | Begin(op: Op)                             // a request arrives
    | Run(i: nat, o: Outcome, newId: nat)       // request i runs its next statement
    | Cascade(monitor: nat)                     // the monitor's team is deleted

  /** UPDATE ... SET monitors_count = monitors_count + 1 WHERE ... AND monitors_count < 10. */
  function Incremented(counts: map<nat, nat>, u: nat): map<nat, nat> {
    if u in counts && counts[u] < MAX_MONITORS then counts[u := counts[u] + 1] else counts
  }

  /** UPDATE ... SET monitors_count = GREATEST(monitors_count - 1, 0). */
  function Decremented(counts: map<nat, nat>, u: nat): map<nat, nat> {
    if u in counts then counts[u := if counts[u] > 1 then counts[u] - 1 else 0] else counts
  }

  function RunStatement(s: Ledger, op: Op, o: Outcome, newId: nat): (Ledger, Option<Op>) {
    match op
    case Incrementing(u) =>
      var counts := if o.applied > 0 then Incremented(s.counts, u) else s.counts;
      (s.(counts := counts), if o.ok && o.applied > 0 && counts != s.counts then Some(Inserting(u)) else None)
    case Inserting(u) =>
      (if o.applied > 0 && newId !in s.used then s.(owners := s.owners[newId := u], used := s.used + {newId}) else s, None)
    case Loading(m) =>
      (s, if o.ok && m in s.owners then Some(Deleting(m, s.owners[m])) else None)
    case Deleting(m, u) =>
      (if o.applied > 0 then s.(owners := s.owners - {m}) else s,
       if o.ok && o.applied > 0 && m in s.owners then Some(Decrementing(u)) else None)
    case Decrementing(u) =>
      (if o.applied > 0 then s.(counts := Decremented(s.counts, u)) else s, None)
  }

  /** Requests start with an increment or by loading the monitor to delete. */
  predicate Starts(op: Op) {
    op.Incrementing? || op.Loading?
  }

  function Apply(s: Ledger, ev: Event): Ledger {
    match ev
    case Register(u) => if u in s.counts then s else s.(counts := s.counts[u := 0])
    case Begin(op) => if Starts(op) then s.(ops := s.ops + [op]) else s
    case Run(i, o, newId) =>
      if i >= |s.ops| then s
      else
        var (s1, next) := RunStatement(s, s.ops[i], o, newId);
        s1.(ops := Move(s.ops, i, next))
    case Cascade(m) => s.(owners := s.owners - {m})
  }

  function Trace(evs: seq<Event>): Ledger {
    if evs == [] then NEW_LEDGER else Apply(Trace(evs[..|evs| - 1]), evs[|evs| - 1])
  }

  function OwnedBy(owners: map<nat, nat>, u: nat): set<nat> {
    set m | m in owners && owners[m] == u
  }

  function Owned(s: Ledger, u: nat): set<nat> {
    OwnedBy(s.owners, u)
  }

  lemma OwnedInsert(owners: map<nat, nat>, m: nat, v: nat, u: nat)
    requires m !in owners
    ensures |OwnedBy(owners[m := v], u)| == |OwnedBy(owners, u)| + (if u == v then 1 else 0)
  {
    assert OwnedBy(owners[m := v], u) == if u == v then OwnedBy(owners, u) + {m} else OwnedBy(owners, u);
  }

  lemma OwnedDelete(owners: map<nat, nat>, m: nat, u: nat)
    requires m in owners
    ensures |OwnedBy(owners - {m}, u)| == |OwnedBy(owners, u)| - (if owners[m] == u then 1 else 0)
  {
    if owners[m] == u {
      assert m in OwnedBy(owners, u);
      assert OwnedBy(owners - {m}, u) == OwnedBy(owners, u) - {m};
    } else {
      assert OwnedBy(owners - {m}, u) == OwnedBy(owners, u);
    }
  }

  /** Creations that hold a place, and deletions that owe a decrement. */
  function Claims(u: nat): Op -> nat {
    (op: Op) => if (op.Inserting? || op.Decrementing?) && op.user == u then 1 else 0
  }

  function CountIn(counts: map<nat, nat>, u: nat): nat {
    if u in counts then counts[u] else 0
  }

  function CountOf(s: Ledger, u: nat): nat {
    CountIn(s.counts, u)
  }

  ghost predicate Covered(s: Ledger, u: nat) {
    |Owned(s, u)| + Weigh(s.ops, Claims(u)) <= CountOf(s, u) <= MAX_MONITORS
  }

  /** Live monitors have used ids, and a deletion carries the user id of its monitor. */
  ghost predicate Truthful(s: Ledger) {
    && s.owners.Keys <= s.used
    && forall i | 0 <= i < |s.ops| && s.ops[i].Deleting? ::
         && s.ops[i].monitor in s.used
         && (s.ops[i].monitor in s.owners ==> s.owners[s.ops[i].monitor] == s.ops[i].user)
  }

  lemma TruthfulStep(s: Ledger, ev: Event)
    requires Truthful(s)
    ensures Truthful(Apply(s, ev))
  {
  }

  lemma CounterClaims(s: Ledger, op: Op, o: Outcome, newId: nat, u: nat)
    requires op.Incrementing? || op.Decrementing?
    requires op.Decrementing? && op.user == u ==> CountOf(s, u) > 0
    ensures var (s1, next) := RunStatement(s, op, o, newId);
      && s1.owners == s.owners
      && (if next.Some? then Claims(u)(next.value) else 0) + CountOf(s, u) <= Claims(u)(op) + CountOf(s1, u)
      && (CountOf(s, u) <= MAX_MONITORS ==> CountOf(s1, u) <= MAX_MONITORS)
  {
  }

  lemma OwnerClaims(s: Ledger, op: Op, o: Outcome, newId: nat, u: nat)
    requires !op.Incrementing? && !op.Decrementing? && s.owners.Keys <= s.used
    requires op.Deleting? && op.monitor in s.owners ==> s.owners[op.monitor] == op.user
    ensures var (s1, next) := RunStatement(s, op, o, newId);
      && s1.counts == s.counts
      && |Owned(s1, u)| + (if next.Some? then Claims(u)(next.value) else 0) <= |Owned(s, u)| + Claims(u)(op)
  {
    match op
    case Inserting(v) =>
      if newId !in s.used {
        OwnedInsert(s.owners, newId, v, u);
      }
    case Deleting(m, v) =>
      if m in s.owners {
        OwnedDelete(s.owners, m, u);
      } else {
        assert s.owners - {m} == s.owners;
      }
    case Loading(m) =>
  }

  /** No statement lets a user's monitors and claims outgrow the count. */
  lemma StatementClaims(s: Ledger, op: Op, o: Outcome, newId: nat, u: nat)
    requires s.owners.Keys <= s.used
    requires op.Deleting? && op.monitor in s.owners ==> s.owners[op.monitor] == op.user
    requires op.Decrementing? && op.user == u ==> CountOf(s, u) > 0
    ensures var (s1, next) := RunStatement(s, op, o, newId);
      && |Owned(s1, u)| + (if next.Some? then Claims(u)(next.value) else 0) + CountOf(s, u)
         <= |Owned(s, u)| + Claims(u)(op) + CountOf(s1, u)
      && (CountOf(s, u) <= MAX_MONITORS ==> CountOf(s1, u) <= MAX_MONITORS)
  {
    if op.Incrementing? || op.Decrementing? {
      CounterClaims(s, op, o, newId, u);
      assert Owned(RunStatement(s, op, o, newId).0, u) == Owned(s, u);
    } else {
      OwnerClaims(s, op, o, newId, u);
    }
  }

  lemma CoveredRun(s: Ledger, i: nat, o: Outcome, newId: nat, u: nat)
    requires i < |s.ops| && Truthful(s) && Covered(s, u)
    ensures Covered(Apply(s, Run(i, o, newId)), u)
  {
    var op := s.ops[i];
    var (s1, next) := RunStatement(s, op, o, newId);
    WeighAt(s.ops, i, Claims(u));
    WeighMove(s.ops, i, next, Claims(u));
    StatementClaims(s, op, o, newId, u);
    assert Owned(s1.(ops := Move(s.ops, i, next)), u) == Owned(s1, u);
  }

  lemma OwnedMonotone(s: Ledger, s1: Ledger, u: nat)
    requires forall m | m in s1.owners :: m in s.owners && s.owners[m] == s1.owners[m]
    ensures |Owned(s1, u)| <= |Owned(s, u)|
  {
    SubsetSize(Owned(s1, u), Owned(s, u));
  }

  lemma {:induction false} SubsetSize(a: set<nat>, b: set<nat>)
    requires a <= b
    ensures |a| <= |b|
  {
    if a != {} {
      var x :| x in a;
      SubsetSize(a - {x}, b - {x});
    }
  }

  lemma CoveredStep(s: Ledger, ev: Event, u: nat)
    requires Truthful(s) && Covered(s, u)
    ensures Covered(Apply(s, ev), u)
  {
    var s1 := Apply(s, ev);
    match ev
    case Run(i, o, newId) =>
      if i < |s.ops| {
        CoveredRun(s, i, o, newId, u);
      }
    case Begin(op) =>
      OwnedMonotone(s, s1, u);
      WeighAppend(s.ops, [op], Claims(u));
      WeighOne(op, Claims(u));
    case Register(v) => OwnedMonotone(s, s1, u);
    case Cascade(m) => OwnedMonotone(s, s1, u);
  }

  /** In every interleaving of creations and deletions by any users, whatever fails:
      a user's live monitors, creations under way and decrements owed are covered by
      monitors_count, which never exceeds 10. So nobody ever owns more than 10 monitors. */
  lemma {:induction false} QuotaHolds(evs: seq<Event>, u: nat)
    ensures Truthful(Trace(evs)) && Covered(Trace(evs), u)
    ensures |Owned(Trace(evs), u)| <= 10 && CountOf(Trace(evs), u) <= 10
  {
    if evs == [] {
      assert Owned(NEW_LEDGER, u) == {};
    } else {
      var s := Trace(evs[..|evs| - 1]);
      QuotaHolds(evs[..|evs| - 1], u);
      TruthfulStep(s, evs[|evs| - 1]);
      CoveredStep(s, evs[|evs| - 1], u);
    }
  }

  /** GREATEST(..., 0) never clamps: whenever a decrement runs, the count is positive. */
  lemma ClampNeverActs(evs: seq<Event>, i: nat)
    requires i < |Trace(evs).ops| && Trace(evs).ops[i].Decrementing?
    ensures CountOf(Trace(evs), Trace(evs).ops[i].user) >= 1
  {
    var u := Trace(evs).ops[i].user;
    QuotaHolds(evs, u);
    WeighAt(Trace(evs).ops, i, Claims(u));
  }

  // Places lost

  /** What monitors_count counts beyond live monitors and claims. */
  function Slack(s: Ledger, u: nat): int {
    CountOf(s, u) - |Owned(s, u)| - Weigh(s.ops, Claims(u))
  }

  /** A place of user u is lost: an increment or DELETE took effect and was reported
      failed, an INSERT or decrement took none, or a monitor was deleted with its team. */
  predicate LosesPlace(s: Ledger, ev: Event, u: nat) {
    match ev
    case Run(i, o, newId) =>
      i < |s.ops| &&
      (match s.ops[i]
       case Incrementing(v) => v == u && o.applied > 0 && !o.ok && u in s.counts && s.counts[u] < MAX_MONITORS
       case Inserting(v) => v == u && (o.applied == 0 || newId in s.used)
       case Loading(m) => false
       case Deleting(m, v) => v == u && o.applied > 0 && !o.ok && m in s.owners
       case Decrementing(v) => v == u && o.applied == 0)
    case Cascade(m) => m in s.owners && s.owners[m] == u
    case _ => false
  }

  lemma StatementSlack(s: Ledger, op: Op, o: Outcome, newId: nat, u: nat)
    requires s.owners.Keys <= s.used
    requires op.Deleting? && op.monitor in s.owners ==> s.owners[op.monitor] == op.user
    requires op.Decrementing? && op.user == u ==> CountOf(s, u) > 0
    ensures var (s1, next) := RunStatement(s, op, o, newId);
      CountOf(s1, u) - |Owned(s1, u)| - (if next.Some? then Claims(u)(next.value) else 0)
      == CountOf(s, u) - |Owned(s, u)| - Claims(u)(op)
         + Bit(LosesPlace(s.(ops := [op]), Run(0, o, newId), u))
  {
    match op
    case Inserting(v) =>
      if newId !in s.used {
        OwnedInsert(s.owners, newId, v, u);
      }
    case Deleting(m, v) =>
      if m in s.owners {
        OwnedDelete(s.owners, m, u);
      } else {
        assert s.owners - {m} == s.owners;
      }
    case _ =>
      assert Owned(RunStatement(s, op, o, newId).0, u) == Owned(s, u);
  }

  lemma SlackRun(s: Ledger, i: nat, o: Outcome, newId: nat, u: nat)
    requires i < |s.ops| && Truthful(s) && Covered(s, u)
    ensures Slack(Apply(s, Run(i, o, newId)), u) == Slack(s, u) + Bit(LosesPlace(s, Run(i, o, newId), u))
  {
    var op := s.ops[i];
    var (s1, next) := RunStatement(s, op, o, newId);
    WeighAt(s.ops, i, Claims(u));
    WeighMove(s.ops, i, next, Claims(u));
    StatementSlack(s, op, o, newId, u);
    assert Owned(s1.(ops := Move(s.ops, i, next)), u) == Owned(s1, u);
  }

  lemma SlackStep(s: Ledger, ev: Event, u: nat)
    requires Truthful(s) && Covered(s, u)
    ensures Slack(Apply(s, ev), u) == Slack(s, u) + Bit(LosesPlace(s, ev, u))
  {
    match ev
    case Run(i, o, newId) =>
      if i < |s.ops| {
        SlackRun(s, i, o, newId, u);
      }
    case Begin(op) =>
      WeighAppend(s.ops, [op], Claims(u));
      WeighOne(op, Claims(u));
      assert Owned(Apply(s, ev), u) == Owned(s, u);
    case Register(v) => assert Owned(Apply(s, ev), u) == Owned(s, u);
    case Cascade(m) =>
      if m in s.owners {
        OwnedDelete(s.owners, m, u);
      } else {
        assert s.owners - {m} == s.owners;
      }
  }

  /** How many events of a run lost a place of user u. */
  function PlacesLost(evs: seq<Event>, u: nat): nat {
    if evs == [] then 0
    else PlacesLost(evs[..|evs| - 1], u) + Bit(LosesPlace(Trace(evs[..|evs| - 1]), evs[|evs| - 1], u))
  }

  /** The account is exact: monitors_count is the number of live monitors, reserved
      creations, owed decrements and places lost so far. */
  lemma {:induction false} CountIsExact(evs: seq<Event>, u: nat)
    ensures CountOf(Trace(evs), u) == |Owned(Trace(evs), u)| + Weigh(Trace(evs).ops, Claims(u)) + PlacesLost(evs, u)
  {
    if evs == [] {
      assert Owned(NEW_LEDGER, u) == {};
    } else {
      CountIsExact(evs[..|evs| - 1], u);
      QuotaHolds(evs[..|evs| - 1], u);
      SlackStep(Trace(evs[..|evs| - 1]), evs[|evs| - 1], u);
    }
  }

  lemma {:induction false} LossesGrow(evs: seq<Event>, more: seq<Event>, u: nat)
    ensures PlacesLost(evs, u) <= PlacesLost(evs + more, u)
  {
    if more == [] {
      assert evs + more == evs;
    } else {
      LossesGrow(evs, more[..|more| - 1], u);
      assert (evs + more)[..|evs + more| - 1] == evs + more[..|more| - 1];
    }
  }

  /** A place lost is lost for good: whatever happens later, the user can own at most as
      many monitors as the losses so far leave. */
  lemma LostForGood(evs: seq<Event>, more: seq<Event>, u: nat)
    ensures |Owned(Trace(evs + more), u)| + PlacesLost(evs, u) <= 10
  {
    CountIsExact(evs + more, u);
    QuotaHolds(evs + more, u);
    LossesGrow(evs, more, u);
  }

  /** A run that loses one: the place reserved for an INSERT that fails. */
  lemma FailedInsertLeaks()
    ensures var evs := [Register(0), Begin(Incrementing(0)), Run(0, DONE, 0), Run(0, Outcome(0, false), 0)];
      PlacesLost(evs, 0) == 1 && Owned(Trace(evs), 0) == {} && Trace(evs).ops == []
  {
    var e0, e1, e2, e3 := Register(0), Begin(Incrementing(0)), Run(0, DONE, 0), Run(0, Outcome(0, false), 0);
    assert [] + [e0] == [e0] && [e0] + [e1] == [e0, e1];
    assert [e0, e1] + [e2] == [e0, e1, e2] && [e0, e1, e2] + [e3] == [e0, e1, e2, e3];
    TraceSnoc([], e0);
    assert Trace([e0]) == Ledger(map[0 := 0], map[], {}, []);
    TraceSnoc([e0], e1);
    assert Trace([e0, e1]) == Ledger(map[0 := 0], map[], {}, [Incrementing(0)]);
    TraceSnoc([e0, e1], e2);
    assert Trace([e0, e1, e2]) == Ledger(map[0 := 1], map[], {}, [Inserting(0)]) by {
      assert Move([Incrementing(0)], 0, Some(Inserting(0))) == [Inserting(0)];
    }
    TraceSnoc([e0, e1, e2], e3);
    assert Move([Inserting(0)], 0, None) == [];
    CountIsExact([e0, e1, e2, e3], 0);
  }

  /** An increment that takes effect is granted exactly to a user that counts fewer than
      ten monitors, so that without losses everybody can have ten. */
  lemma GrantedBelowTen(evs: seq<Event>, i: nat, newId: nat)
    requires i < |Trace(evs).ops| && Trace(evs).ops[i].Incrementing?
    ensures var s, u := Trace(evs), Trace(evs).ops[i].user;
      var s' := Apply(s, Run(i, DONE, newId));
      if u in s.counts && s.counts[u] < 10
      then s'.counts == s.counts[u := s.counts[u] + 1] && Inserting(u) in s'.ops
      else s'.counts == s.counts && |s'.ops| == |s.ops| - 1
  {
    var s := Trace(evs);
    var (s1, next) := RunStatement(s, s.ops[i], DONE, newId);
    if next.Some? {
      assert Move(s.ops, i, next)[|s.ops| - 1] == next.value;
    }
  }

  lemma TraceSnoc(evs: seq<Event>, ev: Event)
    ensures Trace(evs + [ev]) == Apply(Trace(evs), ev)
  {
    assert (evs + [ev])[..|evs|] == evs;
  }
}
