/** Why the incident properties ask for tame runs: two fault-free runs that are not. In
    one a user disables the monitor while a failure worker is between two of its calls;
    in the other a monitor is enabled again while its token is under way, so that two
    handlers overlap. */
module Races {
  import opened Sequences
  import opened Domain
  import opened FineSteps
  import opened MonitorMachine
  import opened Incidents
  import opened Reduction

  const CONFIG := Config(1, 1)
  const ROW := MonitorRow(0, true, 60, None, None)
  const BAD := HTTPResult(false, 500, 7, NoReason, false, 60)
  const GOOD := HTTPResult(true, 200, 7, NoReason, false, 60)

  function Seeing(r: HTTPResult): Env {
    Env(DONE, 0, 100, ToJobs, Answered(r.status, r.latency))
  }

  function After(evs: seq<Event>): Mon {
    Run(CONFIG, Created(ROW, 0), evs)
  }

  lemma Then(evs: seq<Event>, ev: Event) returns (more: seq<Event>)
    requires All(evs, NoFault) && NoFault(ev)
    ensures All(more, NoFault) && After(more) == Apply(CONFIG, After(evs), ev)
  {
    more := evs + [ev];
    RunSnoc(CONFIG, Created(ROW, 0), evs, ev);
  }

  lemma MoveLast(front: seq<Place>, p: Place, next: Option<Place>)
    ensures Move(front + [p], |front|, next) == front + (if next.Some? then [next.value] else [])
  {
    assert Remove(front + [p], |front|) == front;
  }

  /** The last token makes one step to its next place. */
  lemma Next(evs: seq<Event>, front: seq<Place>, st: Store, p: Place, e: Env, st': Store, place: Option<Place>)
    returns (more: seq<Event>)
    requires All(evs, NoFault) && After(evs) == Mon(st, front + [p])
    requires e.o == DONE && !p.FTerminal? && Advance(CONFIG, st, p, e) == (st', place)
    ensures All(more, NoFault) && After(more) == Mon(st', front + (if place.Some? then [place.value] else []))
  {
    more := Then(evs, Step(|front|, e));
    MoveLast(front, p, place);
  }

  lemma Loaded(evs: seq<Event>, front: seq<Place>, st: Store, e: Env) returns (more: seq<Event>)
    requires All(evs, NoFault) && After(evs) == Mon(st, front + [JobQ]) && e.o == DONE && st.row == Some(ROW)
    ensures All(more, NoFault) && After(more) == Mon(st, front + [Acquire(ROW)])
  {
    more := Next(evs, front, st, JobQ, e, st, Some(Load));
    more := Next(more, front, st, Load, e, st, Some(Acquire(ROW)));
  }

  lemma Checked(evs: seq<Event>, front: seq<Place>, st: Store, r: HTTPResult) returns (more: seq<Event>)
    requires All(evs, NoFault) && After(evs) == Mon(st, front + [JobQ]) && st.row == Some(ROW)
    requires r == BAD || r == GOOD
    ensures All(more, NoFault) && After(more) == Mon(st, front + [HttpDone(r)])
  {
    more := Loaded(evs, front, st, Seeing(r));
    more := Next(more, front, st, Acquire(ROW), Seeing(r), st, Some(Http(ROW)));
    more := Next(more, front, st, Http(ROW), Seeing(r), st, Some(HttpDone(r)));
  }

  lemma Routed(evs: seq<Event>, front: seq<Place>, st: Store, r: HTTPResult) returns (more: seq<Event>)
    requires All(evs, NoFault) && After(evs) == Mon(st, front + [JobQ]) && st.row == Some(ROW)
    requires r == BAD || r == GOOD
    ensures All(more, NoFault) && After(more) == Mon(st, front + [Routing(r)])
  {
    more := Checked(evs, front, st, r);
    more := Next(more, front, st, HttpDone(r), Seeing(r), st, Some(ResultQ(r)));
    more := Next(more, front, st, ResultQ(r), Seeing(r), st, Some(Routing(r)));
  }

  lemma Handed(evs: seq<Event>, st: Store) returns (more: seq<Event>)
    requires All(evs, NoFault) && After(evs) == Mon(st, [JobQ]) && st.row == Some(ROW)
    ensures All(more, NoFault) && After(more) == Mon(st, [FIncr(BAD)])
  {
    more := Routed(evs, [], st, BAD);
    more := Next(more, [], st, Routing(BAD), Seeing(BAD), st, Some(FailureQ(BAD)));
    more := Next(more, [], st, FailureQ(BAD), Seeing(BAD), st, Some(FIncr(BAD)));
  }

  const COUNTED := Hash(1, false, false, false)

  function With(st: Store, h: Hash): Store {
    st.(core := st.core.(hash := Some(h)))
  }

  /** The failure is counted, and the alert decision is won. */
  lemma Decided(evs: seq<Event>, st: Store) returns (more: seq<Event>)
    requires All(evs, NoFault) && After(evs) == Mon(st, [JobQ]) && st.row == Some(ROW) && st.core == CLEAN
    ensures All(more, NoFault) && After(more) == Mon(With(st, COUNTED.(alerted := true)), [FCreate(BAD)])
  {
    var e, st1 := Seeing(BAD), With(st, COUNTED);
    more := Handed(evs, st);
    more := Next(more, [], st, FIncr(BAD), e, st1, Some(FStamp(BAD, 1)));
    more := Next(more, [], st1, FStamp(BAD, 1), e, st1, Some(FMark(BAD)));
    more := Next(more, [], st1, FMark(BAD), e, With(st, COUNTED.(alerted := true)), Some(FCreate(BAD)));
  }

  lemma Inserted(evs: seq<Event>, st: Store) returns (more: seq<Event>)
    requires All(evs, NoFault) && After(evs) == Mon(st, [FCreate(BAD)]) && st.row.Some? && st.core.open == []
    ensures All(more, NoFault) && After(more) == Mon(st.(core := st.core.(open := [true])), [FMarkDb(BAD, 0)])
  {
    assert st.core.open + [true] == [true];
    more := Next(evs, [], st, FCreate(BAD), Seeing(BAD), st.(core := st.core.(open := [true])), Some(FMarkDb(BAD, 0)));
  }

  /** What is left of the failure handler. */
  lemma Marked(evs: seq<Event>, st: Store, marked: Store) returns (more: seq<Event>)
    requires All(evs, NoFault) && After(evs) == Mon(st, [FMarkDb(BAD, 0)])
    requires marked == With(st, HashOr(st.core).(db := true))
    ensures All(more, NoFault) && After(more) == Mon(Sent(marked, Down(0)).(due := Some(160)), [])
  {
    var e := Seeing(BAD);
    more := Next(evs, [], st, FMarkDb(BAD, 0), e, marked, Some(FSend(BAD, 0)));
    more := Next(more, [], marked, FSend(BAD, 0), e, Sent(marked, Down(0)), Some(FSched(60)));
    more := Next(more, [], Sent(marked, Down(0)), FSched(60), e, Sent(marked, Down(0)).(due := Some(160)), None);
  }

  lemma Dispatched() returns (evs: seq<Event>)
    ensures All(evs, NoFault) && After(evs) == Mon(Store(Some(ROW), None, CLEAN, 0, 0, false), [JobQ])
  {
    var st := Store(Some(ROW), None, CLEAN, 0, 0, false);
    evs := Then([], Pop(true));
    evs := Next(evs, [], st, Batch(60), Seeing(BAD), st, Some(JobQ));
  }

  // Disabling in the middle of a failure handler

  lemma DisabledMeanwhile() returns (evs: seq<Event>)
    ensures All(evs, NoFault)
    ensures After(evs) == Mon(Store(Some(ROW.(enabled := false)), None, CLEAN, 1, 0, false), [FCreate(BAD)])
  {
    evs := Dispatched();
    evs := Decided(evs, Store(Some(ROW), None, CLEAN, 0, 0, false));
    evs := Then(evs, User(SetEnabled(false, 90)));
    assert AllFalse(0) == [];
  }

  /** The disabled monitor keeps an open incident, a hash with db_incident and no count,
      an unrecovered DOWN alert and a place in the schedule. */
  lemma DisableDuringFailure() returns (evs: seq<Event>)
    ensures All(evs, NoFault)
    ensures var s := After(evs);
      && s.toks == [] && !Live(s)
      && s.st.core == Core(Some(BLANK.(db := true)), 0, [true], [Down(0)])
      && s.st.due == Some(160)
  {
    var st := Store(Some(ROW.(enabled := false)), None, CLEAN, 1, 0, false);
    evs := DisabledMeanwhile();
    evs := Inserted(evs, st);
    var made := st.(core := CLEAN.(open := [true]));
    evs := Marked(evs, made, With(made, BLANK.(db := true)));
  }

  // Enabling a monitor whose token is under way

  function Twice(k: Core): Store {
    Store(Some(ROW), Some(150), k, 0, 1, false)
  }

  lemma EnabledAgain() returns (evs: seq<Event>)
    ensures All(evs, NoFault) && After(evs) == Mon(Twice(CLEAN), [JobQ])
  {
    evs := Dispatched();
    evs := Then(evs, User(SetEnabled(false, 80)));
    assert AllFalse(0) == [];
    assert After(evs) == Mon(Store(Some(ROW.(enabled := false)), None, CLEAN, 0, 0, false), [JobQ]);
    evs := Then(evs, User(SetEnabled(true, 90)));
  }

  const RAISING := Core(Some(COUNTED.(alerted := true)), 0, [true], [])

  /** The first token is about to mark its incident when the second one is dispatched. */
  lemma SecondToken() returns (evs: seq<Event>)
    ensures All(evs, NoFault) && After(evs) == Mon(Twice(RAISING).(due := None), [FMarkDb(BAD, 0)] + [JobQ])
  {
    evs := EnabledAgain();
    evs := Decided(evs, Twice(CLEAN));
    evs := Inserted(evs, Twice(RAISING.(open := [])));
    var st := Twice(RAISING).(due := None);
    evs := Then(evs, Pop(true));
    assert After(evs) == Mon(st, [FMarkDb(BAD, 0)] + [Batch(150)]);
    evs := Next(evs, [FMarkDb(BAD, 0)], st, Batch(150), Seeing(GOOD), st, Some(JobQ));
  }

  lemma SecondRecovers() returns (evs: seq<Event>)
    ensures All(evs, NoFault) && After(evs) == Mon(Twice(RAISING).(due := None), [FMarkDb(BAD, 0)] + [SClear(GOOD)])
  {
    var front, e, st := [FMarkDb(BAD, 0)], Seeing(GOOD), Twice(RAISING).(due := None);
    evs := SecondToken();
    evs := Routed(evs, front, st, GOOD);
    evs := Next(evs, front, st, Routing(GOOD), e, st, Some(SuccessQ(GOOD)));
    evs := Next(evs, front, st, SuccessQ(GOOD), e, st, Some(SGet(GOOD)));
    evs := Next(evs, front, st, SGet(GOOD), e, st, Some(SClear(GOOD)));
  }

  lemma SecondIsThrough() returns (evs: seq<Event>)
    ensures All(evs, NoFault)
    ensures After(evs) == Mon(Twice(RAISING.(hash := None)).(due := Some(160), deletions := 1), [FMarkDb(BAD, 0)])
  {
    var front, e, st := [FMarkDb(BAD, 0)], Seeing(GOOD), Twice(RAISING).(due := None);
    var cleared := Twice(RAISING.(hash := None)).(due := None, deletions := 1);
    evs := SecondRecovers();
    evs := Next(evs, front, st, SClear(GOOD), e, cleared, Some(SClearRetry(GOOD)));
    evs := Next(evs, front, cleared, SClearRetry(GOOD), e, cleared, Some(SSched(60)));
    evs := Next(evs, front, cleared, SSched(60), e, cleared.(due := Some(160)), None);
  }

  /** Two handlers overlap and leave an enabled monitor, with nothing in flight, whose
      hash and incident rows disagree. */
  lemma EnableWithTokenUnderWay() returns (evs: seq<Event>)
    ensures All(evs, NoFault)
    ensures var s := After(evs); s.toks == [] && Live(s) && !Coupled(CONFIG, s.st.core)
  {
    var st := Twice(RAISING.(hash := None)).(due := Some(160), deletions := 1);
    evs := SecondIsThrough();
    evs := Marked(evs, st, With(st, BLANK.(db := true)));
  }
}
