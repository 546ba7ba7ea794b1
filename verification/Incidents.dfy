/** What every sequence of handler calls keeps of the incident state. */
module Incidents {
  import opened Sequences
  import opened Domain
  import opened HandlerSpec
  import Executor

  predicate Alerted(k: Core) {
    HashOr(k).alerted
  }

  predicate HasDbIncident(k: Core) {
    HashOr(k).db
  }

  function Ones(): bool -> nat {
    b => if b then 1 else 0
  }

  function OpenRows(k: Core): nat {
    Weigh(k.open, Ones())
  }

  /** The hash and the incident table tell the same story: an incident is open exactly
      when db_incident is set, it is the latest one, and nobody announced its end. */
  ghost predicate Paired(c: Config, k: Core) {
    && k.retry <= c.limit
    && !HashOr(k).recovered
    && (HasDbIncident(k) ==> Alerted(k))
    && (HasDbIncident(k) <==> k.open != [] && k.open[|k.open| - 1])
    && (forall i | 0 <= i < |k.open| - 1 :: !k.open[i])
  }

  /** hash absent iff failure_count is 0, and
      failure_count >= threshold iff alerted iff db_incident iff exactly one open row. */
  ghost predicate Coupled(c: Config, k: Core) {
    && Paired(c, k)
    && (k.hash.None? <==> HashOr(k).count == 0)
    && (HashOr(k).count >= c.threshold <==> Alerted(k))
    && (Alerted(k) <==> HasDbIncident(k))
  }

  lemma {:induction false} NoneOpen(open: seq<bool>)
    requires forall i | 0 <= i < |open| :: !open[i]
    ensures Weigh(open, Ones()) == 0
  {
    if open != [] {
      NoneOpen(open[1..]);
    }
  }

  lemma PairedOpenRows(c: Config, k: Core)
    requires Paired(c, k)
    ensures OpenRows(k) == if HasDbIncident(k) then 1 else 0
  {
    if k.open == [] || !k.open[|k.open| - 1] {
      NoneOpen(k.open);
    } else {
      var n := |k.open| - 1;
      WeighSplit(k.open, n, Ones());
      NoneOpen(Remove(k.open, n));
    }
  }

  lemma PairedStep(c: Config, k: Core, ev: HEvent)
    requires Paired(c, k)
    ensures Paired(c, HApply(c, k, ev))
  {
  }

  lemma {:induction false} PairedRun(c: Config, evs: seq<HEvent>)
    ensures Paired(c, HRun(c, CLEAN, evs))
  {
    if evs != [] {
      PairedRun(c, evs[..|evs| - 1]);
      PairedStep(c, HRun(c, CLEAN, evs[..|evs| - 1]), evs[|evs| - 1]);
    }
  }

  /** This failure is the one that brings failure_count to the threshold. */
  predicate Trips(c: Config, k: Core, r: HTTPResult) {
    !Terminal(r) && !Absorbed(c, k, r) && HashOr(k).count + 1 == c.threshold
  }

  /** One step keeps the coupling exactly when it does not ask the database to store a
      result that its CHECK constraints refuse. The refused case is real: an endpoint
      may answer with any three-digit status, such as 999, and the hash is marked as
      alerted before the INSERT is tried (RefusedIncident). */
  lemma CouplingStep(c: Config, k: Core, ev: HEvent)
    requires ValidConfig(c) && Coupled(c, k)
    ensures Coupled(c, HApply(c, k, ev)) <==> !(ev.Fail? && Trips(c, k, ev.r) && !Storable(ev.r))
  {
  }

  /** An endpoint that answers 999 trips the threshold of 1 with such a result. */
  lemma RefusedIncident(row: MonitorRow)
    requires row.expectedStatus.None?
    ensures var r, c := Executor.ExecuteHTTPCheck(row, Answered(999, 7)), Config(1, 1);
      && !r.success && Trips(c, CLEAN, r) && !Storable(r)
      && Coupled(c, CLEAN) && !Coupled(c, HRun(c, CLEAN, [Fail(r)]))
  {
    var r, c := Executor.ExecuteHTTPCheck(row, Answered(999, 7)), Config(1, 1);
    HRunSnoc(c, CLEAN, [], Fail(r));
    assert [] + [Fail(r)] == [Fail(r)];
    CouplingStep(c, CLEAN, Fail(r));
  }

  /** ... and then no alert is sent until a success or a disabling deletes the hash. */
  lemma {:induction false} RefusedIncidentStaysSilent(c: Config, k: Core, r: HTTPResult, evs: seq<HEvent>)
    requires ValidConfig(c) && Coupled(c, k) && Trips(c, k, r) && !Storable(r)
    requires forall i | 0 <= i < |evs| :: evs[i].Fail? || evs[i].RetryExpired? || evs[i].Enabled?
    ensures var k' := HRun(c, HApply(c, k, Fail(r)), evs);
      k'.alerts == k.alerts && Alerted(k') && !HasDbIncident(k')
  {
    if evs != [] {
      RefusedIncidentStaysSilent(c, k, r, evs[..|evs| - 1]);
    }
  }

  ghost predicate AllStorable(evs: seq<HEvent>) {
    forall i | 0 <= i < |evs| && evs[i].Fail? :: Storable(evs[i].r) || Terminal(evs[i].r)
  }

  /** State coupling over every run of failures, successes, expiries and enabling or
      disabling updates whose counted failures the incident table accepts. */
  lemma {:induction false} StateCoupling(c: Config, evs: seq<HEvent>)
    requires ValidConfig(c) && AllStorable(evs)
    ensures var k := HRun(c, CLEAN, evs);
      && Coupled(c, k)
      && OpenRows(k) == if HashOr(k).count >= c.threshold then 1 else 0
  {
    if evs != [] {
      StateCoupling(c, evs[..|evs| - 1]);
      CouplingStep(c, HRun(c, CLEAN, evs[..|evs| - 1]), evs[|evs| - 1]);
    }
    PairedOpenRows(c, HRun(c, CLEAN, evs));
  }

  // Alternation

  /** DOWN(0), RECOVERED(0), DOWN(1), RECOVERED(1), ... */
  ghost predicate Alternates(alerts: seq<Alert>) {
    forall i | 0 <= i < |alerts| :: alerts[i] == if i % 2 == 0 then Down(i / 2) else Recovered(i / 2)
  }

  ghost predicate InStep(k: Core) {
    Alternates(k.alerts) && |k.alerts| == 2 * |k.open| - (if HasDbIncident(k) then 1 else 0)
  }

  lemma InStepStep(c: Config, k: Core, ev: HEvent)
    requires Paired(c, k) && InStep(k) && !ev.Disabled?
    ensures InStep(HApply(c, k, ev))
  {
  }

  /** As long as the monitor is not disabled, DOWN and RECOVERED alternate, each
      incident gets both in this order, and the last DOWN is the only one that may
      still lack its RECOVERED, namely while its incident is open. */
  lemma {:induction false} HandlersAlternate(c: Config, evs: seq<HEvent>)
    requires forall i | 0 <= i < |evs| :: !evs[i].Disabled?
    ensures InStep(HRun(c, CLEAN, evs))
  {
    if evs != [] {
      var k := HRun(c, CLEAN, evs[..|evs| - 1]);
      HandlersAlternate(c, evs[..|evs| - 1]);
      PairedRun(c, evs[..|evs| - 1]);
      InStepStep(c, k, evs[|evs| - 1]);
    }
  }

  // With disabling

  /** Incidents are announced in the order in which they were raised, and the end of one
      is announced right after its beginning or not at all. */
  ghost predicate InOrder(alerts: seq<Alert>) {
    && (forall j | 0 <= j < |alerts| && alerts[j].Recovered? :: j > 0 && alerts[j - 1] == Down(alerts[j].id))
    && (forall j, k | 0 <= j < k < |alerts| && alerts[j].Down? && alerts[k].Down? :: alerts[j].id < alerts[k].id)
  }

  predicate Says(alerts: seq<Alert>, id: int) {
    alerts != [] && alerts[|alerts| - 1].Down? && alerts[|alerts| - 1].id == id
  }

  ghost predicate Announced(k: Core) {
    && InOrder(k.alerts)
    && (forall j | 0 <= j < |k.alerts| :: k.alerts[j].id < |k.open|)
    && (HasDbIncident(k) ==> Says(k.alerts, |k.open| - 1))
  }

  /** What one handler call may add to the alerts. */
  predicate AddsInOrder(k: Core, k': Core) {
    || (k'.alerts == k.alerts && |k'.open| >= |k.open| && (HasDbIncident(k') ==> HasDbIncident(k) && |k'.open| == |k.open|))
    || (k'.alerts == k.alerts + [Down(|k.open|)] && |k'.open| == |k.open| + 1)
    || (k.open != [] && HasDbIncident(k) && !HasDbIncident(k')
        && k'.alerts == k.alerts + [Recovered(|k.open| - 1)] && |k'.open| == |k.open|)
  }

  lemma HandlerAdds(c: Config, k: Core, ev: HEvent)
    requires Paired(c, k)
    ensures AddsInOrder(k, HApply(c, k, ev))
  {
  }

  lemma AnnouncedGrows(k: Core, k': Core)
    requires Announced(k) && AddsInOrder(k, k')
    ensures Announced(k')
  {
  }

  lemma AnnouncedStep(c: Config, k: Core, ev: HEvent)
    requires Paired(c, k) && Announced(k)
    ensures Announced(HApply(c, k, ev))
  {
    HandlerAdds(c, k, ev);
    AnnouncedGrows(k, HApply(c, k, ev));
  }

  /** A disabling closes an incident without a word, so alerts need not alternate; but in
      every run of handler calls and status updates they are in order. */
  lemma {:induction false} HandlersAnnounceInOrder(c: Config, evs: seq<HEvent>)
    ensures Announced(HRun(c, CLEAN, evs))
  {
    if evs != [] {
      var k := HRun(c, CLEAN, evs[..|evs| - 1]);
      HandlersAnnounceInOrder(c, evs[..|evs| - 1]);
      PairedRun(c, evs[..|evs| - 1]);
      AnnouncedStep(c, k, evs[|evs| - 1]);
    }
  }
}
