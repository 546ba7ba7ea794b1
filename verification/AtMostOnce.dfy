/** Alerts are never sent twice, whatever fails.

    Here every call may fail with or without having taken effect, the tries of a repeated
    call and the statements of service calls interleave with everything else, and a
    monitor may have any number of tokens. */
module AtMostOnce {
  import opened Sequences
  import opened Domain
  import opened FineSteps
  import opened MonitorMachine

  function Is(a: Alert): Alert -> nat {
    (b: Alert) => if a == b then 1 else 0
  }

  /** Workers that hold the right to send DOWN(i). */
  function HoldsDown(i: nat): Place -> nat {
    (p: Place) => if (p.FMarkDb? || p.FSend?) && p.id == i then 1 else 0
  }

  /** Workers that hold the right to send RECOVERED(i). */
  function HoldsRecovered(i: nat): Place -> nat {
    (p: Place) => if (p.SMarkRec? || p.SSend?) && p.id == i then 1 else 0
  }

  /** Workers that won the alert decision and have not tried the INSERT yet. */
  function AboutToCreate(): Place -> nat {
    (p: Place) => if p.FCreate? then 1 else 0
  }

  predicate Exists(s: Mon, i: nat) {
    i < |s.st.core.open|
  }

  function DownCredit(s: Mon, i: nat): nat {
    Weigh(s.st.core.alerts, Is(Down(i))) + Weigh(s.toks, HoldsDown(i))
  }

  /** An open row is the right to close it and announce the recovery. */
  function RecoveredCredit(s: Mon, i: nat): nat {
    Weigh(s.st.core.alerts, Is(Recovered(i))) + Weigh(s.toks, HoldsRecovered(i))
    + Bit(Exists(s, i) && s.st.core.open[i])
  }

  function CreationCredit(s: Mon): nat {
    |s.st.core.open| + Weigh(s.toks, AboutToCreate())
  }

  /** The rights around one incident: none before it exists, one of each kind after. */
  ghost predicate Single(s: Mon, i: nat) {
    DownCredit(s, i) <= Bit(Exists(s, i)) && RecoveredCredit(s, i) <= Bit(Exists(s, i))
  }

  ghost predicate Rationed(s: Mon) {
    CreationCredit(s) <= s.st.deletions + Bit(HashOr(s.st.core).alerted)
  }

  lemma AlertWeight(alerts: seq<Alert>, a: Alert, b: Alert)
    ensures Weigh(alerts + [a], Is(b)) == Weigh(alerts, Is(b)) + Bit(a == b)
  {
    WeighAppend(alerts, [a], Is(b));
    WeighOne(a, Is(b));
  }

  /** What one call of handleFailure does to the rights it holds. */
  lemma FailureRights(c: Config, st: Store, p: Place, e: Env, i: nat)
    requires InFailureHandler(p)
    ensures var (st', next) := FailureStep(c, st, p, e);
      var n, n' := |st.core.open|, |st'.core.open|;
      && n <= n' <= n + 1
      && st'.core.open[..n] == st.core.open
      && (n < n' ==> p.FCreate? && st'.core.open[n])
      && st'.core.alerts == (if p.FSend? then st.core.alerts + [Down(p.id)] else st.core.alerts)
      && (next.Some? ==> HoldsRecovered(i)(next.value) == 0)
      && (if next.Some? then HoldsDown(i)(next.value) else 0) + Bit(p.FSend? && p.id == i)
         <= HoldsDown(i)(p) + Bit(i == n < n')
  {
  }

  lemma FailureRation(c: Config, st: Store, p: Place, e: Env)
    requires InFailureHandler(p) && Plausible(e.o)
    ensures var (st', next) := FailureStep(c, st, p, e);
      && st'.deletions == st.deletions
      && |st'.core.open| + (if next.Some? then AboutToCreate()(next.value) else 0) + Bit(HashOr(st.core).alerted)
         <= |st.core.open| + AboutToCreate()(p) + Bit(HashOr(st'.core).alerted)
  {
  }

  /** What one call of handleSuccess does to the rights it holds. */
  lemma SuccessRights(c: Config, st: Store, p: Place, e: Env, i: nat)
    requires InSuccessHandler(p)
    ensures var (st', next) := SuccessStep(c, st, p, e);
      && |st'.core.open| == |st.core.open|
      && st'.core.alerts == (if p.SSend? then st.core.alerts + [Recovered(p.id)] else st.core.alerts)
      && (next.Some? ==> HoldsDown(i)(next.value) == 0 && !next.value.FCreate?)
      && (if next.Some? then HoldsRecovered(i)(next.value) else 0) + Bit(p.SSend? && p.id == i)
         + Bit(i < |st.core.open| && st'.core.open[i])
         <= HoldsRecovered(i)(p) + Bit(i < |st.core.open| && st.core.open[i])
  {
  }

  lemma SuccessRation(c: Config, st: Store, p: Place, e: Env)
    requires InSuccessHandler(p)
    ensures var st' := SuccessStep(c, st, p, e).0;
      st.deletions + Bit(HashOr(st.core).alerted) <= st'.deletions + Bit(HashOr(st'.core).alerted)
  {
  }

  lemma TransportRights(c: Config, st: Store, p: Place, e: Env, i: nat)
    requires !InFailureHandler(p) && !InSuccessHandler(p)
    ensures var (st', next) := TransportStep(c, st, p, e);
      && st'.core == st.core
      && st'.deletions == st.deletions
      && (next.Some? ==> HoldsDown(i)(next.value) == HoldsRecovered(i)(next.value) == AboutToCreate()(next.value) == 0)
  {
  }

  lemma SingleStep(c: Config, s: Mon, k: nat, e: Env, i: nat)
    requires k < |s.toks| && Single(s, i)
    ensures Single(StepToken(c, s, k, e), i)
  {
    var p := s.toks[k];
    var (st', next) := Advance(c, s.st, p, e);
    WeighMove(s.toks, k, next, HoldsDown(i));
    WeighMove(s.toks, k, next, HoldsRecovered(i));
    WeighAt(s.toks, k, HoldsDown(i));
    WeighAt(s.toks, k, HoldsRecovered(i));
    if InFailureHandler(p) {
      FailureRights(c, s.st, p, e, i);
      if p.FSend? {
        AlertWeight(s.st.core.alerts, Down(p.id), Down(i));
        AlertWeight(s.st.core.alerts, Down(p.id), Recovered(i));
      }
    } else if InSuccessHandler(p) {
      SuccessRights(c, s.st, p, e, i);
      if p.SSend? {
        AlertWeight(s.st.core.alerts, Recovered(p.id), Down(i));
        AlertWeight(s.st.core.alerts, Recovered(p.id), Recovered(i));
      }
    } else {
      TransportRights(c, s.st, p, e, i);
    }
  }

  lemma RationedStep(c: Config, s: Mon, k: nat, e: Env)
    requires k < |s.toks| && Rationed(s) && Plausible(e.o)
    ensures Rationed(StepToken(c, s, k, e))
  {
    var p := s.toks[k];
    WeighMove(s.toks, k, Advance(c, s.st, p, e).1, AboutToCreate());
    if InFailureHandler(p) {
      FailureRation(c, s.st, p, e);
    } else if InSuccessHandler(p) {
      SuccessRights(c, s.st, p, e, 0);
      SuccessRation(c, s.st, p, e);
    } else {
      TransportRights(c, s.st, p, e, 0);
    }
  }

  predicate Real(ev: Event) {
    ev.Step? ==> Plausible(ev.e.o)
  }

  lemma PopRights(s: Mon, score: int, i: nat)
    ensures Weigh(s.toks + [Batch(score)], HoldsDown(i)) == Weigh(s.toks, HoldsDown(i))
    ensures Weigh(s.toks + [Batch(score)], HoldsRecovered(i)) == Weigh(s.toks, HoldsRecovered(i))
    ensures Weigh(s.toks + [Batch(score)], AboutToCreate()) == Weigh(s.toks, AboutToCreate())
  {
    WeighAppend(s.toks, [Batch(score)], HoldsDown(i));
    WeighAppend(s.toks, [Batch(score)], HoldsRecovered(i));
    WeighAppend(s.toks, [Batch(score)], AboutToCreate());
  }

  /** A failed try moves no right. */
  lemma AttemptRights(c: Config, st: Store, p: Place, e: Env)
    ensures var st' := Attempted(c, st, p, e);
      && st'.core.open == st.core.open
      && st'.core.alerts == st.core.alerts
      && st.deletions + Bit(HashOr(st.core).alerted) <= st'.deletions + Bit(HashOr(st'.core).alerted)
  {
  }

  lemma AttemptKeepsRights(c: Config, s: Mon, k: nat, e: Env, i: nat)
    requires k < |s.toks|
    ensures Single(s, i) ==> Single(Apply(c, s, Attempt(k, e)), i)
    ensures Rationed(s) ==> Rationed(Apply(c, s, Attempt(k, e)))
  {
    AttemptRights(c, s.st, s.toks[k], e);
  }

  lemma UserKeepsRights(c: Config, s: Mon, op: Operation, i: nat)
    ensures Single(s, i) ==> Single(Apply(c, s, User(op)), i)
    ensures Rationed(s) ==> Rationed(Apply(c, s, User(op)))
  {
  }

  lemma RightsStep(c: Config, s: Mon, ev: Event, i: nat)
    requires Real(ev)
    ensures Single(s, i) ==> Single(Apply(c, s, ev), i)
    ensures Rationed(s) ==> Rationed(Apply(c, s, ev))
  {
    match ev
    case Step(k, e) =>
      if k < |s.toks| {
        if Single(s, i) {
          SingleStep(c, s, k, e, i);
        }
        if Rationed(s) {
          RationedStep(c, s, k, e);
        }
      }
    case Attempt(k, e) =>
      if k < |s.toks| {
        AttemptKeepsRights(c, s, k, e, i);
      }
    case Pop(_) =>
      if s.st.due.Some? {
        PopRights(s, s.st.due.value, i);
      }
    case User(op) => UserKeepsRights(c, s, op, i);
    case Expire =>
  }

  /** In every run, whatever fails and however many tokens there are: an incident gets
      at most one DOWN and at most one RECOVERED, neither before its row was inserted,
      and there is at most one incident more than deletions of the Redis hash. */
  lemma {:induction false} AlertsAtMostOnce(c: Config, s0: Mon, evs: seq<Event>, i: nat)
    requires Newborn(s0) && All(evs, Real)
    ensures var s := Run(c, s0, evs);
      && Single(s, i)
      && Rationed(s)
      && Weigh(s.st.core.alerts, Is(Down(i))) <= Bit(Exists(s, i))
      && Weigh(s.st.core.alerts, Is(Recovered(i))) <= Bit(Exists(s, i))
      && |s.st.core.open| <= 1 + s.st.deletions
  {
    if evs != [] {
      AlertsAtMostOnce(c, s0, evs[..|evs| - 1], i);
      RightsStep(c, Run(c, s0, evs[..|evs| - 1]), evs[|evs| - 1], i);
    }
  }
}
