/** The scheduler inside the pipeline: what it pops, when it sends it on, and how often
    calls are tried. */
module Dispatching {
  import opened Sequences
  import opened Domain
  import opened FineSteps
  import opened MonitorMachine
  import opened Network
  import opened SortedSet

  /** The sorted set monitor:schedule. */
  function ScheduleOf(n: Net): map<nat, int> {
    map m | m in n.stores && n.stores[m].due.Some? :: n.stores[m].due.value
  }

  /** An entry is popped only if ZPOPMIN could pop it: no other one is due before. */
  lemma PopsTheSmallest(c: Config, l: Limits, n: Net, m: nat, now: int, kept: bool)
    requires Enabled(c, l, n, PopMin(m, now, kept))
    ensures var items := Smallest(ScheduleOf(n), 1);
      |items| == 1 && m in ScheduleOf(n) && ScheduleOf(n)[m] == items[0].score
  {
    var z := ScheduleOf(n);
    assert m in z;
    SmallestSpec(z, 1);
    var item := Smallest(z, 1)[0];
    assert item.member in z && z[item.member] == item.score;
    if item.member != m {
      NamesAt(Smallest(z, 1), m);
      assert Below(item, Item(m, z[m]));
    }
  }

  /** The fate of a popped entry whose rescheduling succeeds: not due, back as it was; due,
      to jobChan if it has room and back with two seconds more if not. */
  lemma BatchFate(c: Config, l: Limits, n: Net, i: nat, e: Env)
    requires CanMove(c, l, n, i, e) && n.flight[i].at.Batch? && e.o == DONE
    ensures var t, n' := n.flight[i], Next(c, n, Move(i, e));
      var score, room := t.at.score, Occupancy(n, Jobs) < l.jobs;
      if score > n.tick then
        n'.flight == Remove(n.flight, i) && n'.stores[t.mon].due == Some(score)
      else if room then
        n'.flight == Remove(n.flight, i) + [Token(t.mon, JobQ, 0)] && n'.stores[t.mon].due == n.stores[t.mon].due
      else
        n'.flight == Remove(n.flight, i) && n'.stores[t.mon].due == Some(score + 2)
  {
  }

  /** Some tick of the run read this time. */
  ghost predicate WasRead(evs: seq<NetEvent>, now: int) {
    exists k | 0 <= k < |evs| :: evs[k].PopMin? && evs[k].now == now
  }

  lemma BatchMove(c: Config, l: Limits, n: Net, i: nat, e: Env)
    requires CanMove(c, l, n, i, e)
    ensures var n' := Next(c, n, Move(i, e)); Occupancy(n', Batched) <= Occupancy(n, Batched) && n'.tick == n.tick
  {
    var t := n.flight[i];
    WeighMove(n.flight, i, Successor(t.mon, Advance(c, n.stores[t.mon], t.at, e).1), At(Batched));
    NeverBack(c, n.stores[t.mon], t.at, e);
  }

  /** The tick's time changes only when the first entry of a batch is popped. */
  lemma BatchStep(c: Config, l: Limits, n: Net, ev: NetEvent)
    requires Enabled(c, l, n, ev)
    ensures var n' := Next(c, n, ev);
      if ev.PopMin? then n'.tick == (if Occupancy(n, Batched) == 0 then ev.now else n.tick)
      else n'.tick == n.tick && Occupancy(n', Batched) <= Occupancy(n, Batched)
  {
    match ev
    case Move(i, e) => BatchMove(c, l, n, i, e);
    case Try(i, e) =>
      WeighReplace(n.flight, i, n.flight[i].(tried := n.flight[i].tried + 1), At(Batched));
    case _ =>
  }

  lemma NeverBack(c: Config, st: Store, p: Place, e: Env)
    ensures var next := Advance(c, st, p, e).1; next.Some? ==> !next.value.Batch?
  {
  }

  lemma {:induction false} TickWasRead(c: Config, l: Limits, evs: seq<NetEvent>)
    ensures Occupancy(NetRun(c, l, evs), Batched) > 0 ==> WasRead(evs, NetRun(c, l, evs).tick)
  {
    if evs != [] {
      var front, ev := evs[..|evs| - 1], evs[|evs| - 1];
      var n := NetRun(c, l, front);
      TickWasRead(c, l, front);
      if Enabled(c, l, n, ev) {
        BatchStep(c, l, n, ev);
      }
      assert evs[|evs| - 1] == ev && forall k | 0 <= k < |front| :: evs[k] == front[k];
    }
  }

  /** No monitor reaches jobChan before it is due by the time that a tick of the scheduler
      has read. */
  lemma NeverEarly(c: Config, l: Limits, evs: seq<NetEvent>, i: nat, e: Env)
    requires CanMove(c, l, NetRun(c, l, evs), i, e) && NetRun(c, l, evs).flight[i].at.Batch?
    requires Advance(c, NetRun(c, l, evs).stores[NetRun(c, l, evs).flight[i].mon], NetRun(c, l, evs).flight[i].at, e).1 == Some(JobQ)
    ensures exists now :: WasRead(evs, now) && NetRun(c, l, evs).flight[i].at.score <= now
  {
    var n := NetRun(c, l, evs);
    WeighAt(n.flight, i, At(Batched));
    TickWasRead(c, l, evs);
    assert WasRead(evs, n.tick);
  }

  /** How often a call at this place may have been tried in vain. */
  function TriesOf(p: Place): nat {
    if p.Batch? || p.Requeue? || p.FIncr? || p.FSched? || p.SSched? then 2
    else if p.FRetry? || p.FClearRetry? || p.SClear? || p.SClearRetry? then 1
    else 0
  }

  /** No call is tried more often than pkg/redis tries it. */
  lemma {:induction false} TriesAreBounded(c: Config, l: Limits, evs: seq<NetEvent>)
    ensures forall t | t in NetRun(c, l, evs).flight :: t.tried <= TriesOf(t.at)
  {
    if evs != [] {
      var front, ev := evs[..|evs| - 1], evs[|evs| - 1];
      TriesAreBounded(c, l, front);
    }
  }

  /** ... and each call may be tried as often as that. */
  lemma TriesAreGranted(c: Config, l: Limits, n: Net, i: nat, e: Env)
    requires i < |n.flight| && n.flight[i].mon in n.stores && !n.flight[i].at.Batch?
    ensures Enabled(c, l, n, Try(i, e)) <==> n.flight[i].tried < TriesOf(n.flight[i].at)
  {
  }
}
