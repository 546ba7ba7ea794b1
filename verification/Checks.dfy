/** Which endpoints are requested, and what becomes of the tokens of a monitor that is
    disabled while they wait. */
module Checks {
  import opened Sequences
  import opened Domain
  import opened FineSteps
  import opened MonitorMachine

  /** A worker or an HTTP goroutine has the monitor's row. */
  predicate Checking(p: Place) {
    p.Acquire? || p.Http?
  }

  /** The run has a moment at which the monitor existed with this row. */
  ghost predicate WasRow(c: Config, s: Mon, evs: seq<Event>, row: MonitorRow) {
    exists k | 0 <= k <= |evs| :: Run(c, s, evs[..k]).st.row == Some(row)
  }

  lemma WasRowGrows(c: Config, s: Mon, evs: seq<Event>, row: MonitorRow)
    requires evs != [] && WasRow(c, s, evs[..|evs| - 1], row)
    ensures WasRow(c, s, evs, row)
  {
    var front := evs[..|evs| - 1];
    var k :| 0 <= k <= |front| && Run(c, s, front[..k]).st.row == Some(row);
    assert front[..k] == evs[..k];
  }

  /** Only an enabled row is handed on by Load, and it is the present one. */
  lemma CarriedOn(c: Config, s: Mon, i: nat, e: Env)
    requires i < |s.toks|
    requires Checking(s.toks[i]) ==> s.toks[i].row.enabled
    ensures var next := Advance(c, s.st, s.toks[i], e).1;
      next.Some? && Checking(next.value) ==>
        && next.value.row.enabled
        && (s.st.row == Some(next.value.row) || (Checking(s.toks[i]) && s.toks[i].row == next.value.row))
  {
  }

  lemma CheckingStep(c: Config, s: Mon, i: nat, e: Env, j: nat)
    requires i < |s.toks| && j < |StepToken(c, s, i, e).toks|
    requires forall k | 0 <= k < |s.toks| && Checking(s.toks[k]) :: s.toks[k].row.enabled
    ensures var p := StepToken(c, s, i, e).toks[j];
      Checking(p) ==>
        && p.row.enabled
        && (s.st.row == Some(p.row) || exists k | 0 <= k < |s.toks| :: Checking(s.toks[k]) && s.toks[k].row == p.row)
  {
    var next := Advance(c, s.st, s.toks[i], e).1;
    if j < |s.toks| - 1 {
      var k := if j < i then j else j + 1;
      assert StepToken(c, s, i, e).toks[j] == s.toks[k];
    } else {
      assert next.Some? && StepToken(c, s, i, e).toks[j] == next.value;
      CarriedOn(c, s, i, e);
    }
  }

  /** In every run, whatever fails: an endpoint is requested only with a row that the
      monitor had at some moment of the run, and that was enabled. */
  lemma {:induction false} OnlyEnabledAreChecked(c: Config, s0: Mon, evs: seq<Event>)
    requires Newborn(s0)
    ensures forall j | 0 <= j < |Run(c, s0, evs).toks| && Checking(Run(c, s0, evs).toks[j]) ::
      Run(c, s0, evs).toks[j].row.enabled && WasRow(c, s0, evs, Run(c, s0, evs).toks[j].row)
  {
    if evs != [] {
      var front, ev := evs[..|evs| - 1], evs[|evs| - 1];
      var s, t := Run(c, s0, front), Run(c, s0, evs);
      OnlyEnabledAreChecked(c, s0, front);
      forall j | 0 <= j < |t.toks| && Checking(t.toks[j])
        ensures t.toks[j].row.enabled && WasRow(c, s0, evs, t.toks[j].row)
      {
        if ev.Step? && ev.i < |s.toks| {
          CheckingStep(c, s, ev.i, ev.e, j);
          if s.st.row == Some(t.toks[j].row) {
            assert front[..|front|] == front;
            assert WasRow(c, s0, front, t.toks[j].row);
          }
        } else {
          assert j < |s.toks| ==> t.toks[j] == s.toks[j];
        }
        WasRowGrows(c, s0, evs, t.toks[j].row);
      }
    }
  }

  // Disabled monitors

  /** The token has not got further than to the loading of its monitor. */
  predicate Early(p: Place) {
    p.Batch? || p.JobQ? || p.Load? || p.Requeue?
  }

  ghost predicate Resting(s: Mon) {
    !Live(s) && forall i | 0 <= i < |s.toks| :: Early(s.toks[i])
  }

  /** Neither an update nor a statement enables the monitor. */
  predicate NotEnabling(ev: Event) {
    && (ev.User? && ev.op.SetEnabled? ==> !ev.op.on)
    && (ev.User? && ev.op.Loose? && ev.op.s.SetRow? ==> !RowEnabled(ev.op.s.row))
  }

  lemma RestingStep(c: Config, s: Mon, ev: Event)
    requires Resting(s) && NotEnabling(ev)
    ensures Resting(Apply(c, s, ev))
  {
  }

  /** A monitor that is disabled or gone, with all its tokens on the way to being loaded,
      is not requested and not handled until somebody enables it, whatever fails. */
  lemma {:induction false} DisabledIsLeftAlone(c: Config, s: Mon, evs: seq<Event>)
    requires Resting(s) && All(evs, NotEnabling)
    ensures Resting(Run(c, s, evs))
  {
    if evs != [] {
      DisabledIsLeftAlone(c, s, evs[..|evs| - 1]);
      assert NotEnabling(evs[|evs| - 1]);
      RestingStep(c, Run(c, s, evs[..|evs| - 1]), evs[|evs| - 1]);
    }
  }

  /** Steps to the loading of the monitor, and that one. */
  function Ahead(): Place -> nat {
    (p: Place) => match p
      case Batch(_) => 3
      case JobQ => 2
      case Load => 1
      case _ => 0
  }

  /** ... and none of them is waiting to be rescheduled, nor is there an entry. */
  ghost predicate Emptying(s: Mon) {
    Resting(s) && s.st.due.None? && forall i | 0 <= i < |s.toks| :: !s.toks[i].Requeue?
  }

  /** Fault-free, jobChan has room, and nobody enables the monitor. */
  predicate Flowing(ev: Event) {
    NoFault(ev) && NotEnabling(ev) && (ev.Step? ==> ev.e.dispatch.ToJobs?)
  }

  function StepsMade(c: Config, s: Mon, evs: seq<Event>): nat {
    if evs == [] then 0
    else
      var front, ev := evs[..|evs| - 1], evs[|evs| - 1];
      StepsMade(c, s, front) + Bit(ev.Step? && ev.i < |Run(c, s, front).toks|)
  }

  lemma EmptyingToken(c: Config, s: Mon, i: nat, e: Env)
    requires Emptying(s) && i < |s.toks| && Flowing(Step(i, e))
    ensures var t := StepToken(c, s, i, e); Emptying(t) && Weigh(t.toks, Ahead()) + 1 == Weigh(s.toks, Ahead())
  {
    WeighMove(s.toks, i, Advance(c, s.st, s.toks[i], e).1, Ahead());
  }

  lemma EmptyingStep(c: Config, s: Mon, ev: Event)
    requires Emptying(s) && Flowing(ev)
    ensures var t := Apply(c, s, ev);
      Emptying(t) && Weigh(t.toks, Ahead()) + Bit(ev.Step? && ev.i < |s.toks|) == Weigh(s.toks, Ahead())
  {
    if ev.Step? && ev.i < |s.toks| {
      EmptyingToken(c, s, ev.i, ev.e);
    }
  }

  lemma {:induction false} EmptyingRun(c: Config, s: Mon, evs: seq<Event>)
    requires Emptying(s) && All(evs, Flowing)
    ensures var t := Run(c, s, evs); Emptying(t) && StepsMade(c, s, evs) + Weigh(t.toks, Ahead()) == Weigh(s.toks, Ahead())
  {
    if evs != [] {
      var front := evs[..|evs| - 1];
      EmptyingRun(c, s, front);
      assert Flowing(evs[|evs| - 1]);
      EmptyingStep(c, Run(c, s, front), evs[|evs| - 1]);
    }
  }

  function DisabledAt(c: Config, s: Mon, now: int): Mon {
    Apply(c, s, User(SetEnabled(false, now)))
  }

  /** Disabling a monitor whose tokens are on the way to being loaded takes it out of the
      pipeline: each of them makes as many more steps as lead to the loading, is dropped
      there, and then the monitor has no token and no entry. */
  lemma DisabledIsDropped(c: Config, s: Mon, now: int, evs: seq<Event>)
    requires Live(s) && All(evs, Flowing)
    requires forall i | 0 <= i < |s.toks| :: s.toks[i].Batch? || s.toks[i].JobQ? || s.toks[i].Load?
    ensures var t := Run(c, DisabledAt(c, s, now), evs);
      && StepsMade(c, DisabledAt(c, s, now), evs) <= Weigh(s.toks, Ahead())
      && (StepsMade(c, DisabledAt(c, s, now), evs) == Weigh(s.toks, Ahead()) <==> Tokens(t) == 0)
  {
    var d := DisabledAt(c, s, now);
    var t := Run(c, d, evs);
    EmptyingRun(c, d, evs);
    if t.toks != [] {
      WeighAt(t.toks, 0, Ahead());
    }
  }
}
