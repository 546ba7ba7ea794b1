/** What the shared pipeline does to one monitor is a run of that monitor's own machine,
    so everything proved about one monitor holds of each monitor in the pipeline. */
module Projection {
  import opened Sequences
  import opened Domain
  import opened FineSteps
  import opened MonitorMachine
  import opened Network
  import opened Incidents
  import Reduction
  import AtMostOnce

  lemma ProjCons(t: Token, flight: seq<Token>, m: nat)
    ensures Proj([t] + flight, m) == (if t.mon == m then [t.at] else []) + Proj(flight, m)
  {
    assert ([t] + flight)[1..] == flight;
  }

  lemma {:induction false} ProjAppend(a: seq<Token>, b: seq<Token>, m: nat)
    ensures Proj(a + b, m) == Proj(a, m) + Proj(b, m)
  {
    if a == [] {
      assert a + b == b;
    } else {
      ProjAppend(a[1..], b, m);
      assert a + b == [a[0]] + (a[1..] + b);
      ProjCons(a[0], a[1..] + b, m);
    }
  }

  lemma ProjOne(t: Token, m: nat)
    ensures Proj([t], m) == if t.mon == m then [t.at] else []
  {
    assert [t][1..] == [];
  }

  /** The position of flight[i] among its monitor's tokens. */
  function IndexOf(flight: seq<Token>, i: nat): nat
    requires i < |flight|
  {
    |Proj(flight[..i], flight[i].mon)|
  }

  lemma ProjSplit(flight: seq<Token>, i: nat, m: nat)
    requires i < |flight|
    ensures Proj(flight, m)
         == Proj(flight[..i], m) + (if flight[i].mon == m then [flight[i].at] else []) + Proj(flight[i + 1..], m)
    ensures Proj(Remove(flight, i), m) == Proj(flight[..i], m) + Proj(flight[i + 1..], m)
  {
    var x, y, z := flight[..i], [flight[i]], flight[i + 1..];
    assert flight == x + y + z;
    ProjAppend(x + y, z, m);
    ProjAppend(x, y, m);
    ProjOne(flight[i], m);
    ProjAppend(x, z, m);
  }

  lemma ProjMoved(flight: seq<Token>, i: nat, next: Option<Place>, m: nat)
    requires i < |flight|
    ensures Proj(Sequences.Move(flight, i, Successor(flight[i].mon, next)), m)
         == Proj(Remove(flight, i), m) + (if flight[i].mon == m && next.Some? then [next.value] else [])
  {
    var t := Successor(flight[i].mon, next);
    if t.Some? {
      ProjAppend(Remove(flight, i), [t.value], m);
      ProjOne(t.value, m);
    } else {
      assert Sequences.Move(flight, i, t) == Remove(flight, i);
    }
  }

  lemma MoveMiddle(a: seq<Place>, p: Place, z: seq<Place>, next: Option<Place>)
    ensures Sequences.Move(a + [p] + z, |a|, next) == a + z + (if next.Some? then [next.value] else [])
  {
    assert Remove(a + [p] + z, |a|) == a + z;
  }

  lemma ProjMove(flight: seq<Token>, i: nat, next: Option<Place>, m: nat)
    requires i < |flight|
    ensures var moved := Sequences.Move(flight, i, Successor(flight[i].mon, next));
      if m == flight[i].mon then
        var j := IndexOf(flight, i);
        j < |Proj(flight, m)| && Proj(flight, m)[j] == flight[i].at && Proj(moved, m) == Sequences.Move(Proj(flight, m), j, next)
      else Proj(moved, m) == Proj(flight, m)
  {
    ProjSplit(flight, i, m);
    ProjMoved(flight, i, next, m);
    if m == flight[i].mon {
      MoveMiddle(Proj(flight[..i], m), flight[i].at, Proj(flight[i + 1..], m), next);
    }
  }

  lemma {:induction false} ProjReplace(flight: seq<Token>, i: nat, t: Token, m: nat)
    requires i < |flight| && t.mon == flight[i].mon && t.at == flight[i].at
    ensures Proj(flight[i := t], m) == Proj(flight, m)
  {
    if i == 0 {
      assert flight[0 := t][1..] == flight[1..];
    } else {
      ProjReplace(flight[1..], i - 1, t, m);
      assert flight[i := t][1..] == flight[1..][i - 1 := t];
    }
  }

  /** What this event is to monitor m. */
  function Local(n: Net, ev: NetEvent, m: nat): Option<Event> {
    match ev
    case Move(i, e) => if i < |n.flight| && n.flight[i].mon == m then Some(Step(IndexOf(n.flight, i), e)) else None
    case Try(i, e) => if i < |n.flight| && n.flight[i].mon == m then Some(Attempt(IndexOf(n.flight, i), e)) else None
    case PopMin(m', _, kept) => if m' == m then Some(Pop(kept)) else None
    case Insert(m', row) => if m' == m then Some(User(Loose(Inserting(row), DONE))) else None
    case Control(m', op) => if m' == m then Some(User(op)) else None
    case RetryGone(m') => if m' == m then Some(Expire) else None
    case _ => None
  }

  lemma LocalTry(c: Config, l: Limits, n: Net, i: nat, e: Env, m: nat)
    requires Enabled(c, l, n, Try(i, e)) && m in n.stores
    ensures var n', ev := Next(c, n, Try(i, e)), Local(n, Try(i, e), m);
      m in n'.stores && View(n', m) == if ev.Some? then Apply(c, View(n, m), ev.value) else View(n, m)
  {
    ProjMove(n.flight, i, None, m);
    ProjReplace(n.flight, i, n.flight[i].(tried := n.flight[i].tried + 1), m);
  }

  lemma LocalStep(c: Config, l: Limits, n: Net, ev: NetEvent, m: nat)
    requires Enabled(c, l, n, ev) && m in n.stores
    ensures var n' := NetApply(c, l, n, ev);
      && m in n'.stores
      && View(n', m) == if Local(n, ev, m).Some? then Apply(c, View(n, m), Local(n, ev, m).value) else View(n, m)
  {
    match ev
    case Move(i, e) =>
      var t := n.flight[i];
      ProjMove(n.flight, i, Advance(c, n.stores[t.mon], t.at, e).1, m);
    case Try(i, e) => LocalTry(c, l, n, i, e, m);
    case PopMin(m', now, kept) =>
      ProjAppend(n.flight, [Token(m', Batch(n.stores[m'].due.value), 0)], m);
      ProjOne(Token(m', Batch(n.stores[m'].due.value), 0), m);
      if m' != m {
        assert Proj(n.flight, m) + [] == Proj(n.flight, m);
      }
    case _ =>
  }

  /** How a monitor came to be, and all that happened to it since. */
  datatype Birth = AtOnce(row: MonitorRow, now: int) | ByStatements

  datatype History = History(birth: Birth, evs: seq<Event>)

  function Start(b: Birth): (s: Mon)
    ensures Newborn(s)
  {
    match b
    case AtOnce(row, now) => Created(row, now)
    case ByStatements => UNBORN
  }

  /** The state at the end of a history. */
  function Told(c: Config, h: History): Mon {
    Run(c, Start(h.birth), h.evs)
  }

  function HistoryOf(c: Config, l: Limits, evs: seq<NetEvent>, m: nat): Option<History> {
    if evs == [] then None
    else
      var h := HistoryOf(c, l, evs[..|evs| - 1], m);
      var n, ev := NetRun(c, l, evs[..|evs| - 1]), evs[|evs| - 1];
      if !Enabled(c, l, n, ev) then h
      else if ev.Create? && ev.m == m then Some(History(AtOnce(ev.row, ev.now), []))
      else if ev.Insert? && ev.m == m then Some(History(ByStatements, [Local(n, ev, m).value]))
      else if h.Some? && Local(n, ev, m).Some? then Some(h.value.(evs := h.value.evs + [Local(n, ev, m).value]))
      else h
  }

  ghost predicate Projected(c: Config, n: Net, h: Option<History>, m: nat) {
    && (m in n.stores <==> h.Some?)
    && (m !in n.stores ==> Proj(n.flight, m) == [])
    && (m in n.stores ==> View(n, m) == Told(c, h.value))
  }

  lemma Inserted(c: Config, row: MonitorRow)
    ensures Run(c, UNBORN, [User(Loose(Inserting(row), DONE))]) == Mon(Perform(UNBORN.st, Inserting(row), DONE), [])
  {
    RunTwo(c, UNBORN, User(Loose(Inserting(row), DONE)), Expire);
  }

  lemma StrangerStep(c: Config, l: Limits, n: Net, ev: NetEvent, m: nat)
    requires Enabled(c, l, n, ev) && m !in n.stores && Proj(n.flight, m) == []
    ensures var n' := NetApply(c, l, n, ev);
      && (m in n'.stores <==> (ev.Create? || ev.Insert?) && ev.m == m)
      && Proj(n'.flight, m) == []
  {
    match ev
    case Move(i, e) =>
      var t := n.flight[i];
      ProjMove(n.flight, i, Advance(c, n.stores[t.mon], t.at, e).1, m);
    case Try(i, e) =>
      ProjReplace(n.flight, i, n.flight[i].(tried := n.flight[i].tried + 1), m);
    case PopMin(m', now, kept) =>
      ProjAppend(n.flight, [Token(m', Batch(n.stores[m'].due.value), 0)], m);
      ProjOne(Token(m', Batch(n.stores[m'].due.value), 0), m);
    case _ =>
  }

  /** The pipeline refines the machine of each of its monitors. */
  lemma {:induction false} PipelineProjects(c: Config, l: Limits, evs: seq<NetEvent>, m: nat)
    ensures Projected(c, NetRun(c, l, evs), HistoryOf(c, l, evs, m), m)
  {
    if evs != [] {
      var front, ev := evs[..|evs| - 1], evs[|evs| - 1];
      var n, h := NetRun(c, l, front), HistoryOf(c, l, front, m);
      PipelineProjects(c, l, front, m);
      if Enabled(c, l, n, ev) {
        if m in n.stores {
          LocalStep(c, l, n, ev, m);
          if Local(n, ev, m).Some? {
            RunSnoc(c, Start(h.value.birth), h.value.evs, Local(n, ev, m).value);
          }
        } else {
          StrangerStep(c, l, n, ev, m);
          if ev.Insert? && ev.m == m {
            Inserted(c, ev.row);
          }
        }
      }
    }
  }

  /** Whatever happens to monitor m satisfies p. */
  ghost predicate Locally(c: Config, l: Limits, evs: seq<NetEvent>, m: nat, p: Event -> bool) {
    forall i | 0 <= i < |evs| ::
      var n := NetRun(c, l, evs[..i]);
      Enabled(c, l, n, evs[i]) && Local(n, evs[i], m).Some? ==> p(Local(n, evs[i], m).value)
  }

  lemma LocallyPrefix(c: Config, l: Limits, evs: seq<NetEvent>, m: nat, p: Event -> bool)
    requires evs != [] && Locally(c, l, evs, m, p)
    ensures Locally(c, l, evs[..|evs| - 1], m, p)
  {
    var front := evs[..|evs| - 1];
    forall i | 0 <= i < |front|
      ensures var n := NetRun(c, l, front[..i]);
        Enabled(c, l, n, front[i]) && Local(n, front[i], m).Some? ==> p(Local(n, front[i], m).value)
    {
      assert front[..i] == evs[..i];
    }
  }

  lemma {:induction false} HistoryKeeps(c: Config, l: Limits, evs: seq<NetEvent>, m: nat, p: Event -> bool)
    requires Locally(c, l, evs, m, p)
    ensures var h := HistoryOf(c, l, evs, m); h.Some? ==> All(h.value.evs, p)
  {
    if evs != [] {
      LocallyPrefix(c, l, evs, m, p);
      HistoryKeeps(c, l, evs[..|evs| - 1], m, p);
      PipelineProjects(c, l, evs[..|evs| - 1], m);
    }
  }

  // The properties of one monitor, for each monitor of the pipeline

  /** A monitor of the pipeline is lost by what happened to itself, and as MonitorMachine
      says, or not at all: whatever fails, and whatever happens to the others. */
  lemma NothingLost(c: Config, l: Limits, evs: seq<NetEvent>, m: nat)
    requires m in NetRun(c, l, evs).stores
    ensures var h := HistoryOf(c, l, evs, m);
      h.Some? && (Conserved(View(NetRun(c, l, evs), m)) <==> !Lost(c, Start(h.value.birth), h.value.evs))
  {
    PipelineProjects(c, l, evs, m);
    var h := HistoryOf(c, l, evs, m).value;
    TokenConservation(c, Start(h.birth), h.evs);
  }

  /** A monitor has at most one token, and one more per enabling update and per event of
      its own that doubles one. */
  lemma NothingMultiplies(c: Config, l: Limits, evs: seq<NetEvent>, m: nat)
    requires m in NetRun(c, l, evs).stores
    ensures var n, h := NetRun(c, l, evs), HistoryOf(c, l, evs, m);
      h.Some? && Tokens(View(n, m)) <= 1 + n.stores[m].enables + Doublings(c, Start(h.value.birth), h.value.evs)
  {
    PipelineProjects(c, l, evs, m);
    var h := HistoryOf(c, l, evs, m).value;
    TokenBound(c, Start(h.birth), h.evs);
  }

  /** A monitor is in one place at a time unless an event of its own adds a token to one
      that is under way. */
  lemma NothingTwice(c: Config, l: Limits, evs: seq<NetEvent>, m: nat)
    requires var h := HistoryOf(c, l, evs, m); h.Some? ==> NeverAdds(c, Start(h.value.birth), h.value.evs)
    ensures |Proj(NetRun(c, l, evs).flight, m)| <= 1
  {
    PipelineProjects(c, l, evs, m);
    var h := HistoryOf(c, l, evs, m);
    if h.Some? {
      StaysOneToken(c, Start(h.value.birth), h.value.evs);
    }
  }

  /** A history that begins with statements has one. */
  lemma {:induction false} StatementsShow(c: Config, l: Limits, evs: seq<NetEvent>, m: nat)
    ensures var h := HistoryOf(c, l, evs, m);
      h.Some? && h.value.birth.ByStatements? ==> h.value.evs != [] && !Serviced(h.value.evs[0])
  {
    if evs != [] {
      StatementsShow(c, l, evs[..|evs| - 1], m);
    }
  }

  lemma UndisturbedBirth(h: History)
    requires h.birth.ByStatements? ==> h.evs != [] && !Serviced(h.evs[0])
    requires All(h.evs, Reduction.Undisturbed)
    ensures h.birth.AtOnce?
  {
    if h.evs != [] {
      assert Reduction.Undisturbed(h.evs[0]);
    }
  }

  /** Alerts alternate for every monitor whose own calls succeed and which nobody
      disables, whatever happens to the others. */
  lemma PipelineAlternates(c: Config, l: Limits, evs: seq<NetEvent>, m: nat)
    requires Locally(c, l, evs, m, Reduction.Undisturbed)
    ensures var n := NetRun(c, l, evs); m in n.stores ==> Alternates(n.stores[m].core.alerts)
  {
    PipelineProjects(c, l, evs, m);
    HistoryKeeps(c, l, evs, m, Reduction.Undisturbed);
    StatementsShow(c, l, evs, m);
    var h := HistoryOf(c, l, evs, m);
    if h.Some? {
      UndisturbedBirth(h.value);
      Reduction.AlertAlternation(c, h.value.birth.row, h.value.birth.now, h.value.evs);
    }
  }

  lemma TameBirth(c: Config, h: History)
    requires h.birth.ByStatements? ==> h.evs != [] && !Serviced(h.evs[0])
    requires Reduction.TameRun(c, Start(h.birth), h.evs)
    ensures h.birth.AtOnce?
  {
    if h.evs != [] {
      assert Reduction.Tame(Run(c, Start(h.birth), h.evs[..0]), h.evs[0]);
    }
  }

  /** Hash and incident rows of every monitor whose own run is tame and answered with
      results the table accepts agree, or will once its running handler is through. */
  lemma PipelineCouples(c: Config, l: Limits, evs: seq<NetEvent>, m: nat, h: History)
    requires ValidConfig(c) && HistoryOf(c, l, evs, m) == Some(h)
    requires Reduction.TameRun(c, Start(h.birth), h.evs) && All(h.evs, Reduction.Acceptable)
    ensures var n := NetRun(c, l, evs);
      m in n.stores && (n.stores[m].row.Some? ==> Coupled(c, Reduction.Settles(c, View(n, m))))
  {
    PipelineProjects(c, l, evs, m);
    StatementsShow(c, l, evs, m);
    TameBirth(c, h);
    Reduction.CouplingBetweenHandlers(c, h.birth.row, h.birth.now, h.evs);
  }

  // Alert rows

  function IsSignal(m: nat, a: Alert): Signal -> nat {
    (s: Signal) => if s.mon == m && s.alert == a then 1 else 0
  }

  function AlertsIn(n: Net, m: nat): seq<Alert> {
    if m in n.stores then n.stores[m].core.alerts else []
  }

  /** Every alert sent is queued, being handled or handled, once. */
  ghost predicate Accounted(n: Net, m: nat, a: Alert) {
    && Weigh(AlertsIn(n, m), AtMostOnce.Is(a))
       == Weigh(n.queue, IsSignal(m, a)) + Weigh(n.busy, IsSignal(m, a)) + Weigh(n.handled, IsSignal(m, a))
    && Weigh(n.rows, IsSignal(m, a)) <= Weigh(n.handled, IsSignal(m, a))
  }

  lemma AdvanceAlerts(c: Config, st: Store, p: Place, e: Env)
    ensures Advance(c, st, p, e).0.core.alerts
         == st.core.alerts + (if AlertOf(p).Some? then [AlertOf(p).value] else [])
  {
    if InFailureHandler(p) {
      AtMostOnce.FailureRights(c, st, p, e, 0);
    } else if InSuccessHandler(p) {
      AtMostOnce.SuccessRights(c, st, p, e, 0);
    } else {
      AtMostOnce.TransportRights(c, st, p, e, 0);
    }
  }

  /** What a step of a token of monitor `mon` changes, as far as alerts go. */
  ghost predicate SendsOne(n: Net, n': Net, mon: nat, sent: Option<Alert>) {
    && n'.busy == n.busy && n'.handled == n.handled && n'.rows == n.rows
    && n'.queue == n.queue + (if sent.Some? then [Signal(mon, sent.value)] else [])
    && forall m :: AlertsIn(n', m) == AlertsIn(n, m) + (if m == mon && sent.Some? then [sent.value] else [])
  }

  lemma MoveSends(c: Config, l: Limits, n: Net, i: nat, e: Env)
    requires CanMove(c, l, n, i, e)
    ensures SendsOne(n, Next(c, n, Move(i, e)), n.flight[i].mon, AlertOf(n.flight[i].at))
  {
    var t := n.flight[i];
    AdvanceAlerts(c, n.stores[t.mon], t.at, e);
  }

  lemma AccountedMove(n: Net, n': Net, mon: nat, sent: Option<Alert>, m: nat, a: Alert)
    requires Accounted(n, m, a) && SendsOne(n, n', mon, sent)
    ensures Accounted(n', m, a)
  {
    if m != mon || sent.None? {
      assert AlertsIn(n', m) == AlertsIn(n, m);
    }
    if sent.Some? {
      AtMostOnce.AlertWeight(AlertsIn(n, m), sent.value, a);
      WeighAppend(n.queue, [Signal(mon, sent.value)], IsSignal(m, a));
      WeighOne(Signal(mon, sent.value), IsSignal(m, a));
    } else {
      assert n'.queue == n.queue;
    }
  }

  lemma AccountedTaking(n: Net, m: nat, a: Alert)
    requires Accounted(n, m, a) && n.queue != []
    ensures Accounted(n.(queue := n.queue[1..], busy := n.busy + [n.queue[0]]), m, a)
  {
    WeighAppend(n.busy, [n.queue[0]], IsSignal(m, a));
    WeighOne(n.queue[0], IsSignal(m, a));
  }

  lemma AccountedHandling(n: Net, j: nat, wrote: bool, m: nat, a: Alert)
    requires Accounted(n, m, a) && j < |n.busy|
    ensures Accounted(n.(busy := Remove(n.busy, j),
                         handled := n.handled + [n.busy[j]],
                         rows := if wrote then n.rows + [n.busy[j]] else n.rows), m, a)
  {
    WeighSplit(n.busy, j, IsSignal(m, a));
    WeighAppend(n.handled, [n.busy[j]], IsSignal(m, a));
    WeighAppend(n.rows, [n.busy[j]], IsSignal(m, a));
    WeighOne(n.busy[j], IsSignal(m, a));
  }

  lemma TrySendsNothing(c: Config, l: Limits, n: Net, i: nat, e: Env)
    requires Enabled(c, l, n, Try(i, e))
    ensures SendsOne(n, Next(c, n, Try(i, e)), 0, None)
  {
    AtMostOnce.AttemptRights(c, n.stores[n.flight[i].mon], n.flight[i].at, e);
  }

  lemma OthersSendNothing(c: Config, l: Limits, n: Net, ev: NetEvent)
    requires Enabled(c, l, n, ev) && !ev.Move? && !ev.Try? && !ev.Take? && !ev.Handle?
    ensures SendsOne(n, Next(c, n, ev), 0, None)
  {
  }

  lemma AccountedStep(c: Config, l: Limits, n: Net, ev: NetEvent, m: nat, a: Alert)
    requires Accounted(n, m, a) && Enabled(c, l, n, ev)
    ensures Accounted(Next(c, n, ev), m, a)
  {
    match ev
    case Move(i, e) =>
      MoveSends(c, l, n, i, e);
      AccountedMove(n, Next(c, n, ev), n.flight[i].mon, AlertOf(n.flight[i].at), m, a);
    case Take => AccountedTaking(n, m, a);
    case Handle(j, wrote) => AccountedHandling(n, j, wrote, m, a);
    case Try(i, e) =>
      TrySendsNothing(c, l, n, i, e);
      AccountedMove(n, Next(c, n, ev), 0, None, m, a);
    case _ =>
      OthersSendNothing(c, l, n, ev);
      AccountedMove(n, Next(c, n, ev), 0, None, m, a);
  }

  lemma {:induction false} AlertsAccounted(c: Config, l: Limits, evs: seq<NetEvent>, m: nat, a: Alert)
    ensures Accounted(NetRun(c, l, evs), m, a)
  {
    if evs != [] {
      var front, ev := evs[..|evs| - 1], evs[|evs| - 1];
      AlertsAccounted(c, l, front, m, a);
      if Enabled(c, l, NetRun(c, l, front), ev) {
        AccountedStep(c, l, NetRun(c, l, front), ev, m, a);
      }
    }
  }

  /** An incident gets at most two alert rows, one for DOWN and one for RECOVERED, in
      every run and whatever fails. */
  lemma AtMostTwoRows(c: Config, l: Limits, evs: seq<NetEvent>, m: nat, i: nat)
    requires Locally(c, l, evs, m, AtMostOnce.Real)
    ensures Weigh(NetRun(c, l, evs).rows, IsSignal(m, Down(i))) <= 1
    ensures Weigh(NetRun(c, l, evs).rows, IsSignal(m, Recovered(i))) <= 1
  {
    AlertsAccounted(c, l, evs, m, Down(i));
    AlertsAccounted(c, l, evs, m, Recovered(i));
    PipelineProjects(c, l, evs, m);
    HistoryKeeps(c, l, evs, m, AtMostOnce.Real);
    var h := HistoryOf(c, l, evs, m);
    if h.Some? {
      AtMostOnce.AlertsAtMostOnce(c, Start(h.value.birth), h.value.evs, i);
    }
  }
}
