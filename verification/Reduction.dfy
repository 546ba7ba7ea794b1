/** Handlers may be taken as atomic.

    While a monitor has a single token, a run of atomic calls (MonitorMachine) does
    the same to its incident state as a run of whole handler calls (HandlerSpec). A
    handler counts as done from the moment its outcome is fixed: when the worker takes
    the result, or, for a retryable failure, when the retry counter is incremented. A
    disabling that comes after that, but before the handler has changed hash or table,
    counts as if it had come first. */
module Reduction {
  import opened Sequences
  import opened Domain
  import opened FineSteps
  import opened MonitorMachine
  import opened HandlerSpec
  import opened Incidents

  function RestCreate(k: Core, present: bool, r: HTTPResult): Core {
    if !present || !Storable(r) then k
    else Core(Some(HashOr(k).(db := true)), k.retry, k.open + [true], k.alerts + [Down(|k.open|)])
  }

  function RestStamped(c: Config, k: Core, present: bool, r: HTTPResult, n: nat): Core {
    if n < c.threshold then k
    else if HashOr(k).alerted then k.(hash := Some(HashOr(k)))
    else RestCreate(k.(hash := Some(HashOr(k).(alerted := true))), present, r)
  }

  /** What handleFailure still does to the incident state from this place on. */
  function FailureRest(c: Config, k: Core, present: bool, p: Place): Core
    requires InFailureHandler(p)
  {
    match p
    case FTerminal(r) => k
    case FRetry(r) =>
      if k.retry + 1 <= c.limit then k.(retry := k.retry + 1) else CountFailure(c, k.(retry := 0), present, r)
    case FClearRetry(r) => CountFailure(c, k.(retry := 0), present, r)
    case FIncr(r) => CountFailure(c, k, present, r)
    case FStamp(r, n) => RestStamped(c, k.(hash := Some(HashOr(k))), present, r, n)
    case FMark(r) => RestStamped(c, k, present, r, c.threshold)
    case FCreate(r) => RestCreate(k, present, r)
    case FMarkDb(r, id) => k.(hash := Some(HashOr(k).(db := true)), alerts := k.alerts + [Down(id)])
    case FSend(r, id) => k.(alerts := k.alerts + [Down(id)])
    case FSched(delay) => k
  }

  /** What handleSuccess still does to the incident state from this place on. */
  function SuccessRest(k: Core, p: Place): Core
    requires InSuccessHandler(p)
  {
    match p
    case SGet(r) => SuccessEffect(k)
    case SClose(r) => Recover(k, HashOr(k))
    case SMarkRec(r, id) =>
      Core(None, 0, k.open, if HashOr(k).recovered then k.alerts else k.alerts + [Recovered(id)])
    case SSend(r, id) => Core(None, 0, k.open, k.alerts + [Recovered(id)])
    case SClear(r) => Core(None, 0, k.open, k.alerts)
    case SClearRetry(r) => k.(retry := 0)
    case SSched(delay) => k
  }

  /** Performing one call and then the rest is the same as performing the rest. */
  lemma FailureRestStep(c: Config, st: Store, p: Place, e: Env)
    requires InFailureHandler(p) && e.o == DONE
    ensures var (st', next) := FailureStep(c, st, p, e);
      && st'.row == st.row
      && (next.None? ==> st'.core == FailureRest(c, st.core, st.row.Some?, p))
      && (next.Some? ==>
            && st'.due == st.due
            && InFailureHandler(next.value)
            && !next.value.FRetry?
            && FailureRest(c, st'.core, st.row.Some?, next.value) == FailureRest(c, st.core, st.row.Some?, p))
  {
  }

  lemma SuccessRestStep(c: Config, st: Store, p: Place, e: Env)
    requires InSuccessHandler(p) && e.o == DONE
    requires p.SGet? || p.SClose? ==> Paired(c, st.core)
    requires p.SClose? ==> HasDbIncident(st.core) || st.core.hash.None?
    ensures var (st', next) := SuccessStep(c, st, p, e);
      && st'.row == st.row
      && (next.None? ==> st'.core == SuccessRest(st.core, p))
      && (next.Some? ==>
            && st'.due == st.due
            && InSuccessHandler(next.value)
            && !next.value.SGet?
            && (next.value.SClose? ==> st'.core == st.core && p.SGet? && HasDbIncident(st.core))
            && (next.value.SMarkRec? ==> !HashOr(st'.core).recovered)
            && SuccessRest(st'.core, next.value) == SuccessRest(st.core, p))
  {
  }

  /** The incident state once the running handler, if its outcome is fixed, is through. */
  function Settled(c: Config, st: Store, p: Place): Core {
    if p.FRetry? then st.core
    else if InFailureHandler(p) then FailureRest(c, st.core, st.row.Some?, p)
    else if InSuccessHandler(p) then SuccessRest(st.core, p)
    else st.core
  }

  /** The monitor's only token, or its entry in the schedule, together with what the
      calls made so far have fixed. */
  ghost predicate Linked(c: Config, st: Store, at: Option<Place>, hk: Core) {
    && st.row.Some?
    && Paired(c, hk)
    && match at
       case None => st.core == hk
       case Some(p) =>
         && st.due.None?
         && hk == Settled(c, st, p)
         && (p.FRetry? ==> p.r.retryable && !Terminal(p.r))
         && (p.SGet? || p.SClose? ==> Paired(c, st.core))
         && (p.SClose? ==> HasDbIncident(st.core) || st.core.hash.None?)
         && (p.SMarkRec? ==> !HashOr(st.core).recovered)
  }

  /** The handler call that this step commits to. */
  function CommitOf(p: Place): Option<HEvent> {
    match p
    case FailureQ(r) => if FailureEntry(r).FRetry? then None else Some(Fail(r))
    case FRetry(r) => Some(Fail(r))
    case SuccessQ(r) => Some(Succeed)
    case _ => None
  }

  function Commit(c: Config, hk: Core, h: Option<HEvent>): Core {
    if h.Some? then HApply(c, hk, h.value) else hk
  }

  lemma LinkedFailure(c: Config, st: Store, p: Place, e: Env, hk: Core)
    requires InFailureHandler(p) && e.o == DONE && Linked(c, st, Some(p), hk)
    ensures var (st', next) := FailureStep(c, st, p, e); Linked(c, st', next, Commit(c, hk, CommitOf(p)))
  {
    FailureRestStep(c, st, p, e);
    if p.FRetry? {
      PairedStep(c, hk, Fail(p.r));
    }
  }

  lemma LinkedAfterSuccess(c: Config, st: Store, next: Option<Place>, hk: Core)
    requires st.row.Some? && Paired(c, hk)
    requires next.None? ==> st.core == hk
    requires next.Some? ==> st.due.None? && InSuccessHandler(next.value) && SuccessRest(st.core, next.value) == hk
    requires next.Some? ==> !next.value.SGet? && (next.value.SClose? ==> Paired(c, st.core) && HasDbIncident(st.core))
    requires next.Some? ==> (next.value.SMarkRec? ==> !HashOr(st.core).recovered)
    ensures Linked(c, st, next, hk)
  {
  }

  lemma LinkedSuccess(c: Config, st: Store, p: Place, e: Env, hk: Core)
    requires InSuccessHandler(p) && e.o == DONE && Linked(c, st, Some(p), hk)
    ensures var (st', next) := SuccessStep(c, st, p, e); Linked(c, st', next, Commit(c, hk, CommitOf(p)))
  {
    SuccessRestStep(c, st, p, e);
    var (st', next) := SuccessStep(c, st, p, e);
    LinkedAfterSuccess(c, st', next, hk);
  }

  lemma LinkedTransport(c: Config, st: Store, p: Place, e: Env, hk: Core)
    requires !InFailureHandler(p) && !InSuccessHandler(p) && e.o == DONE && Linked(c, st, Some(p), hk)
    ensures var (st', next) := TransportStep(c, st, p, e); Linked(c, st', next, Commit(c, hk, CommitOf(p)))
  {
    match CommitOf(p)
    case None =>
    case Some(h) => PairedStep(c, hk, h);
  }

  lemma ExpiryFailure(c: Config, k: Core, present: bool, p: Place)
    requires InFailureHandler(p) && !p.FRetry?
    ensures FailureRest(c, k.(retry := 0), present, p) == FailureRest(c, k, present, p).(retry := 0)
  {
  }

  lemma ExpirySuccess(k: Core, p: Place)
    requires InSuccessHandler(p)
    ensures SuccessRest(k.(retry := 0), p) == SuccessRest(k, p).(retry := 0)
  {
  }

  /** The retry key may expire at any moment; it commutes with the rest of a handler. */
  lemma LinkedExpiry(c: Config, st: Store, at: Option<Place>, hk: Core)
    requires Linked(c, st, at, hk)
    ensures Linked(c, ClearedRetry(st, DONE), at, HApply(c, hk, RetryExpired))
  {
    if at.Some? {
      var p := at.value;
      if InFailureHandler(p) && !p.FRetry? {
        ExpiryFailure(c, st.core, st.row.Some?, p);
      } else if InSuccessHandler(p) {
        ExpirySuccess(st.core, p);
      }
    }
  }

  // Status updates

  /** The handler has not changed hash or table yet, but is bound to. */
  predicate Pending(p: Place) {
    p.FClearRetry? || p.FIncr? || p.SGet? || p.SClose?
  }

  /** The failure handler is between counting the failure and sending the alert. */
  predicate Interrupted(p: Place) {
    p.FStamp? || p.FMark? || p.FCreate? || p.FMarkDb?
  }

  predicate CarriesStorable(p: Place) {
    p.FIncr? || p.FClearRetry? || p.FRetry? || p.FStamp? || p.FMark? || p.FCreate? ==> Storable(p.r)
  }

  lemma DisablingInterrupts(c: Config, st: Store, p: Place, hk: Core, now: int)
    requires ValidConfig(c) && Linked(c, st, Some(p), hk) && Coupled(c, hk) && Interrupted(p)
    requires st.row.value.enabled && CarriesStorable(p)
    ensures !Coupled(c, Settled(c, SetEnabledStore(st, false, now), p))
  {
  }

  lemma DisablingBeforeCount(c: Config, st: Store, p: Place, now: int)
    requires ValidConfig(c) && Linked(c, st, Some(p), Settled(c, st, p)) && (p.FRetry? || p.FClearRetry? || p.FIncr?)
    requires st.row.value.enabled && CarriesStorable(p)
    ensures Coupled(c, Settled(c, SetEnabledStore(st, false, now), p))
  {
  }

  lemma DisablingAfterAlert(c: Config, st: Store, p: Place, now: int)
    requires ValidConfig(c) && Linked(c, st, Some(p), Settled(c, st, p)) && (p.FTerminal? || p.FSend? || p.FSched?)
    requires st.row.value.enabled
    ensures Coupled(c, Settled(c, SetEnabledStore(st, false, now), p))
  {
  }

  lemma DisablingOther(c: Config, st: Store, p: Place, hk: Core, now: int)
    requires ValidConfig(c) && Linked(c, st, Some(p), hk) && Coupled(c, hk) && !InFailureHandler(p)
    requires st.row.value.enabled
    ensures Coupled(c, Settled(c, SetEnabledStore(st, false, now), p))
  {
  }

  /** Disabling a monitor whose token is at p leaves hash and table coupled once the
      running handler is through, unless it falls between the handler's counting and
      its alert; and then it never does. */
  lemma DisablingKeepsCoupling(c: Config, st: Store, p: Place, hk: Core, now: int)
    requires ValidConfig(c) && Linked(c, st, Some(p), hk) && Coupled(c, hk)
    requires st.row.value.enabled && CarriesStorable(p)
    ensures Coupled(c, Settled(c, SetEnabledStore(st, false, now), p)) <==> !Interrupted(p)
  {
    if Interrupted(p) {
      DisablingInterrupts(c, st, p, hk, now);
    } else if p.FRetry? || p.FClearRetry? || p.FIncr? {
      DisablingBeforeCount(c, st, p, now);
    } else if InFailureHandler(p) {
      DisablingAfterAlert(c, st, p, now);
    } else {
      DisablingOther(c, st, p, hk, now);
    }
  }

  /** The handler calls of a run. `tail` is the one that is pending, with the expiries
      of the retry key since, or empty. */
  datatype Record = Record(done: seq<HEvent>, tail: seq<HEvent>)

  function Whole(rec: Record): seq<HEvent> {
    rec.done + rec.tail
  }

  predicate Only(tail: seq<HEvent>, h: HEvent) {
    tail != [] && tail[0] == h && forall j | 1 <= j < |tail| :: tail[j] == RetryExpired
  }

  function Expired(k: Core, tail: seq<HEvent>): Core {
    if |tail| > 1 then k.(retry := 0) else k
  }

  lemma {:induction false} TailRun(c: Config, k: Core, tail: seq<HEvent>, h: HEvent)
    requires Only(tail, h)
    ensures HRun(c, k, tail) == Expired(HApply(c, k, h), tail)
  {
    var front := tail[..|tail| - 1];
    if |tail| == 1 {
      assert front == [];
    } else {
      TailRun(c, k, front, h);
    }
  }

  /** The handler call that a pending place stands for. */
  function PendingCall(p: Place): HEvent
    requires Pending(p)
  {
    if p.FClearRetry? || p.FIncr? then Fail(p.r) else Succeed
  }

  /** What a pending handler has done so far, k0 being the state it started from. */
  ghost predicate Prepared(c: Config, st: Store, p: Place, k0: Core, tail: seq<HEvent>)
    requires Pending(p)
  {
    && Only(tail, PendingCall(p))
    && st.core.(retry := 0) == k0.(retry := 0)
    && match p
       case FClearRetry(r) => !Terminal(r) && !Absorbed(c, k0, r) && r.retryable
       case FIncr(r) => !Terminal(r) && !Absorbed(c, k0, r)
       case SGet(_) => st.core.retry == if |tail| > 1 then 0 else k0.retry
       case SClose(_) => true
  }

  function Disable(k: Core): Core {
    k.(hash := None, open := AllFalse(|k.open|))
  }

  /** Calls that follow a pending handler's disabling. A recovery that finds its hash
      gone still clears the retry counter. */
  function Retold(p: Place, tail: seq<HEvent>): seq<HEvent> {
    if p.SClose? then tail + [RetryExpired] else tail
  }

  lemma PendingFailureDisable(c: Config, st: Store, p: Place, k0: Core, tail: seq<HEvent>, now: int)
    requires Pending(p) && (p.FClearRetry? || p.FIncr?)
    requires Prepared(c, st, p, k0, tail) && st.row.Some? && st.row.value.enabled
    requires Expired(HApply(c, k0, PendingCall(p)), tail) == Settled(c, st, p)
    ensures Expired(HApply(c, Disable(k0), PendingCall(p)), tail) == Settled(c, SetEnabledStore(st, false, now), p)
  {
  }

  lemma PendingSuccessDisable(c: Config, st: Store, p: Place, k0: Core, tail: seq<HEvent>, now: int)
    requires p.SGet? || p.SClose?
    requires Prepared(c, st, p, k0, tail) && st.row.Some? && st.row.value.enabled
    ensures Expired(HApply(c, Disable(k0), Succeed), Retold(p, tail)) == Settled(c, SetEnabledStore(st, false, now), p)
  {
  }

  /** Told as if the disabling came first, the run leads where the calls lead. */
  lemma PendingDisable(c: Config, st: Store, p: Place, k0: Core, tail: seq<HEvent>, now: int)
    requires Pending(p) && Prepared(c, st, p, k0, tail) && st.row.Some? && st.row.value.enabled
    requires HRun(c, k0, tail) == Settled(c, st, p)
    ensures HRun(c, Disable(k0), Retold(p, tail)) == Settled(c, SetEnabledStore(st, false, now), p)
  {
    var h := PendingCall(p);
    TailRun(c, k0, tail, h);
    TailRun(c, Disable(k0), Retold(p, tail), h);
    if p.SGet? || p.SClose? {
      PendingSuccessDisable(c, st, p, k0, tail, now);
    } else {
      PendingFailureDisable(c, st, p, k0, tail, now);
    }
  }

  lemma PlainDisable(c: Config, st: Store, at: Option<Place>, hk: Core, now: int)
    requires Linked(c, st, at, hk) && st.row.value.enabled
    requires at.Some? ==> !Pending(at.value) && !Interrupted(at.value)
    ensures Linked(c, SetEnabledStore(st, false, now), at, Disable(hk))
  {
  }

  // Runs

  function Whereabouts(s: Mon): Option<Place> {
    if s.toks == [] then None else Some(s.toks[0])
  }

  /** The status update changes something. */
  predicate Turns(st: Store, op: Operation) {
    op.SetEnabled? && st.row.Some? && st.row.value.enabled != op.on
  }

  function Committed(s: Mon, i: nat): Option<HEvent> {
    if i < |s.toks| then CommitOf(s.toks[i]) else None
  }

  /** What an event adds to the record of a monitor that exists. */
  function Noted(s: Mon, ev: Event, rec: Record): Record {
    if s.st.row.None? then rec
    else
      match ev
      case Step(i, e) => if Committed(s, i).Some? then Record(Whole(rec), [Committed(s, i).value]) else rec
      case Expire => rec.(tail := rec.tail + [RetryExpired])
      case User(op) =>
        if !Turns(s.st, op) then rec
        else if op.on then Record(Whole(rec) + [Enabled], [])
        else if s.toks != [] && Pending(s.toks[0]) then Record(rec.done + [Disabled], Retold(s.toks[0], rec.tail))
        else Record(Whole(rec) + [Disabled], [])
      case _ => rec
  }

  function RecordOf(c: Config, s: Mon, evs: seq<Event>): Record {
    if evs == [] then Record([], [])
    else
      var front := evs[..|evs| - 1];
      Noted(Run(c, s, front), evs[|evs| - 1], RecordOf(c, s, front))
  }

  /** The handler calls and status updates of a run, in the order in which they count. */
  function Calls(c: Config, s: Mon, evs: seq<Event>): seq<HEvent> {
    Whole(RecordOf(c, s, evs))
  }

  /** Fault-free, and a status update that changes something neither enables a monitor
      whose token is under way nor disables one between counting and alert. */
  predicate Tame(s: Mon, ev: Event) {
    && NoFault(ev)
    && (ev.User? && Turns(s.st, ev.op) ==>
          s.toks == [] || (!ev.op.on && forall i | 0 <= i < |s.toks| :: !Interrupted(s.toks[i])))
  }

  ghost predicate TameRun(c: Config, s: Mon, evs: seq<Event>) {
    forall i | 0 <= i < |evs| :: Tame(Run(c, s, evs[..i]), evs[i])
  }

  lemma TamePrefix(c: Config, s: Mon, evs: seq<Event>)
    requires evs != [] && TameRun(c, s, evs)
    ensures TameRun(c, s, evs[..|evs| - 1]) && Tame(Run(c, s, evs[..|evs| - 1]), evs[|evs| - 1])
  {
    var front := evs[..|evs| - 1];
    forall i | 0 <= i < |front|
      ensures Tame(Run(c, s, front[..i]), front[i])
    {
      assert front[..i] == evs[..i];
    }
  }

  /** The alert that the token of a deleted monitor still sends. */
  function Owed(p: Place): seq<Alert> {
    match p
    case FMarkDb(_, id) => [Down(id)]
    case FSend(_, id) => [Down(id)]
    case SMarkRec(_, id) => [Recovered(id)]
    case SSend(_, id) => [Recovered(id)]
    case _ => []
  }

  /** A deleted monitor has no incident, gets no new one, and sends what it owes. */
  ghost predicate Gone(st: Store, at: Option<Place>, hk: Core) {
    && st.row.None?
    && (forall i | 0 <= i < |st.core.open| :: !st.core.open[i])
    && (at.Some? ==> st.due.None?)
    && st.core.alerts + (if at.Some? then Owed(at.value) else []) <= hk.alerts
  }

  ghost predicate Tracked(c: Config, s: Mon, rec: Record) {
    var at := Whereabouts(s);
    && |s.toks| <= 1
    && (s.st.row.None? ==> Gone(s.st, at, HRun(c, CLEAN, Whole(rec))))
    && (s.st.row.Some? ==>
          && Linked(c, s.st, at, HRun(c, CLEAN, Whole(rec)))
          && (at.Some? && Pending(at.value) && s.st.row.value.enabled ==>
                Prepared(c, s.st, at.value, HRun(c, CLEAN, rec.done), rec.tail)))
  }

  lemma MoveOnly(toks: seq<Place>, next: Option<Place>)
    requires |toks| == 1
    ensures Move(toks, 0, next) == if next.Some? then [next.value] else []
  {
  }

  /** A handler that becomes pending starts from the state hk ... */
  lemma BecomesPending(c: Config, st: Store, p: Place, e: Env, hk: Core)
    requires e.o == DONE && Linked(c, st, Some(p), hk) && CommitOf(p).Some?
    ensures var (st', next) := Advance(c, st, p, e);
      next.Some? && Pending(next.value) ==> Prepared(c, st', next.value, hk, [CommitOf(p).value])
  {
  }

  /** ... and one that stays pending, from the state it had. */
  lemma StaysPending(c: Config, st: Store, p: Place, e: Env, k0: Core, tail: seq<HEvent>)
    requires e.o == DONE && Pending(p) && Prepared(c, st, p, k0, tail)
    ensures var (st', next) := Advance(c, st, p, e);
      next.Some? && Pending(next.value) ==> Prepared(c, st', next.value, k0, tail)
  {
  }

  lemma OnlyThesePend(c: Config, st: Store, p: Place, e: Env)
    requires CommitOf(p).None? && !Pending(p)
    ensures var next := Advance(c, st, p, e).1; next.Some? ==> !Pending(next.value)
  {
  }

  lemma LinkedToken(c: Config, st: Store, p: Place, e: Env, hk: Core)
    requires e.o == DONE && Linked(c, st, Some(p), hk)
    ensures var (st', next) := Advance(c, st, p, e); Linked(c, st', next, Commit(c, hk, CommitOf(p)))
  {
    if InFailureHandler(p) {
      LinkedFailure(c, st, p, e, hk);
    } else if InSuccessHandler(p) {
      LinkedSuccess(c, st, p, e, hk);
    } else {
      LinkedTransport(c, st, p, e, hk);
    }
  }

  lemma GoneHandler(c: Config, st: Store, p: Place, e: Env, hk: Core)
    requires e.o == DONE && Gone(st, Some(p), hk) && (InFailureHandler(p) || InSuccessHandler(p))
    ensures var (st', next) := if InFailureHandler(p) then FailureStep(c, st, p, e) else SuccessStep(c, st, p, e);
      Gone(st', next, hk)
  {
  }

  /** A token of a deleted monitor. */
  lemma GoneToken(c: Config, st: Store, p: Place, e: Env, hk: Core)
    requires e.o == DONE && Gone(st, Some(p), hk)
    ensures var (st', next) := Advance(c, st, p, e); Gone(st', next, hk)
  {
    if InFailureHandler(p) || InSuccessHandler(p) {
      GoneHandler(c, st, p, e, hk);
    }
  }

  lemma TrackedGone(c: Config, s: Mon, e: Env, rec: Record)
    requires Tracked(c, s, rec) && |s.toks| == 1 && e.o == DONE && s.st.row.None?
    ensures Tracked(c, StepToken(c, s, 0, e), rec)
  {
    MoveOnly(s.toks, Advance(c, s.st, s.toks[0], e).1);
    GoneToken(c, s.st, s.toks[0], e, HRun(c, CLEAN, Whole(rec)));
  }

  lemma StepKeepsRow(c: Config, st: Store, p: Place, e: Env)
    ensures Advance(c, st, p, e).0.row == st.row
  {
  }

  lemma PreparedStep(c: Config, s: Mon, e: Env, rec: Record)
    requires Tracked(c, s, rec) && |s.toks| == 1 && e.o == DONE && s.st.row.Some? && s.st.row.value.enabled
    ensures var (st', next) := Advance(c, s.st, s.toks[0], e);
      var rec' := Noted(s, Step(0, e), rec);
      next.Some? && Pending(next.value) ==> Prepared(c, st', next.value, HRun(c, CLEAN, rec'.done), rec'.tail)
  {
    var p := s.toks[0];
    if CommitOf(p).Some? {
      BecomesPending(c, s.st, p, e, HRun(c, CLEAN, Whole(rec)));
    } else if Pending(p) {
      StaysPending(c, s.st, p, e, HRun(c, CLEAN, rec.done), rec.tail);
    } else {
      OnlyThesePend(c, s.st, p, e);
    }
  }

  lemma TrackedHere(c: Config, s: Mon, st': Store, next: Option<Place>, rec': Record)
    requires |s.toks| == 1 && st'.row.Some?
    requires Linked(c, st', next, HRun(c, CLEAN, Whole(rec')))
    requires st'.row.value.enabled && next.Some? && Pending(next.value) ==>
      Prepared(c, st', next.value, HRun(c, CLEAN, rec'.done), rec'.tail)
    ensures Tracked(c, Mon(Settle(st', s.toks[0], |Move(s.toks, 0, next)|), Move(s.toks, 0, next)), rec')
  {
    MoveOnly(s.toks, next);
  }

  lemma TrackedToken(c: Config, s: Mon, e: Env, rec: Record)
    requires Tracked(c, s, rec) && |s.toks| == 1 && e.o == DONE && s.st.row.Some?
    ensures Tracked(c, StepToken(c, s, 0, e), Noted(s, Step(0, e), rec))
  {
    var p := s.toks[0];
    var (st', next) := Advance(c, s.st, p, e);
    StepKeepsRow(c, s.st, p, e);
    LinkedToken(c, s.st, p, e, HRun(c, CLEAN, Whole(rec)));
    if CommitOf(p).Some? {
      HRunSnoc(c, CLEAN, Whole(rec), CommitOf(p).value);
    }
    if s.st.row.value.enabled {
      PreparedStep(c, s, e, rec);
    }
    TrackedHere(c, s, st', next, Noted(s, Step(0, e), rec));
  }

  lemma TrackedExpiry(c: Config, s: Mon, rec: Record)
    requires Tracked(c, s, rec)
    ensures Tracked(c, Apply(c, s, Expire), Noted(s, Expire, rec))
  {
    if s.st.row.Some? {
      LinkedExpiry(c, s.st, Whereabouts(s), HRun(c, CLEAN, Whole(rec)));
      assert rec.done + (rec.tail + [RetryExpired]) == Whole(rec) + [RetryExpired];
      HRunSnoc(c, CLEAN, Whole(rec), RetryExpired);
    }
  }

  /** A record without a pending call. */
  lemma NothingPending(c: Config, rec: Record, h: HEvent)
    ensures HRun(c, CLEAN, Whole(Record(Whole(rec) + [h], []))) == HApply(c, HRun(c, CLEAN, Whole(rec)), h)
  {
    assert Whole(rec) + [h] + [] == Whole(rec) + [h];
    HRunSnoc(c, CLEAN, Whole(rec), h);
  }

  lemma PendingStaysLinked(c: Config, st: Store, p: Place, hk: Core, now: int, hk': Core)
    requires Linked(c, st, Some(p), hk) && st.row.value.enabled && Pending(p)
    requires Paired(c, hk') && hk' == Settled(c, SetEnabledStore(st, false, now), p)
    ensures Linked(c, SetEnabledStore(st, false, now), Some(p), hk')
  {
  }

  /** The run told with the disabling first. */
  lemma RetoldRun(c: Config, rec: Record, p: Place)
    ensures HRun(c, CLEAN, Whole(rec)) == HRun(c, HRun(c, CLEAN, rec.done), rec.tail)
    ensures var calls := Whole(Record(rec.done + [Disabled], Retold(p, rec.tail)));
      && HRun(c, CLEAN, calls) == HRun(c, Disable(HRun(c, CLEAN, rec.done)), Retold(p, rec.tail))
      && Paired(c, HRun(c, CLEAN, calls))
  {
    HRunConcat(c, CLEAN, rec.done, rec.tail);
    HRunSnoc(c, CLEAN, rec.done, Disabled);
    HRunConcat(c, CLEAN, rec.done + [Disabled], Retold(p, rec.tail));
    PairedRun(c, rec.done + [Disabled] + Retold(p, rec.tail));
  }

  lemma TrackedPendingDisable(c: Config, st: Store, p: Place, now: int, rec: Record)
    requires Linked(c, st, Some(p), HRun(c, CLEAN, Whole(rec))) && st.row.value.enabled
    requires Pending(p) && Prepared(c, st, p, HRun(c, CLEAN, rec.done), rec.tail)
    ensures var rec' := Record(rec.done + [Disabled], Retold(p, rec.tail));
      Linked(c, SetEnabledStore(st, false, now), Some(p), HRun(c, CLEAN, Whole(rec')))
  {
    RetoldRun(c, rec, p);
    PendingDisable(c, st, p, HRun(c, CLEAN, rec.done), rec.tail, now);
    var calls := Whole(Record(rec.done + [Disabled], Retold(p, rec.tail)));
    PendingStaysLinked(c, st, p, HRun(c, CLEAN, Whole(rec)), now, HRun(c, CLEAN, calls));
  }

  lemma TrackedDisable(c: Config, s: Mon, now: int, rec: Record)
    requires Tracked(c, s, rec) && Live(s) && (s.toks != [] ==> !Interrupted(s.toks[0]))
    ensures var ev := User(SetEnabled(false, now)); Tracked(c, Apply(c, s, ev), Noted(s, ev, rec))
  {
    if s.toks != [] && Pending(s.toks[0]) {
      TrackedPendingDisable(c, s.st, s.toks[0], now, rec);
    } else {
      PlainDisable(c, s.st, Whereabouts(s), HRun(c, CLEAN, Whole(rec)), now);
      NothingPending(c, rec, Disabled);
    }
  }

  lemma TrackedEnable(c: Config, s: Mon, now: int, rec: Record)
    requires Tracked(c, s, rec) && Tame(s, User(SetEnabled(true, now))) && Turns(s.st, SetEnabled(true, now))
    ensures var ev := User(SetEnabled(true, now)); Tracked(c, Apply(c, s, ev), Noted(s, ev, rec))
  {
    NothingPending(c, rec, Enabled);
  }

  lemma TrackedUser(c: Config, s: Mon, op: Operation, rec: Record)
    requires Tracked(c, s, rec) && Tame(s, User(op))
    ensures Tracked(c, Apply(c, s, User(op)), Noted(s, User(op), rec))
  {
    if Turns(s.st, op) {
      if op.on {
        TrackedEnable(c, s, op.now, rec);
      } else {
        TrackedDisable(c, s, op.now, rec);
      }
    } else if op.Delete? && s.st.row.Some? {
      DeletedIsGone(c, s.st, Whereabouts(s), HRun(c, CLEAN, Whole(rec)));
    }
  }

  lemma OwesWhatIsLinked(c: Config, st: Store, p: Place, hk: Core)
    requires Linked(c, st, Some(p), hk)
    ensures st.core.alerts + Owed(p) <= hk.alerts
  {
    if InFailureHandler(p) {
      FailureOwes(c, st.core, st.row.Some?, p);
    } else if InSuccessHandler(p) {
      SuccessOwes(st.core, p);
    }
  }

  lemma FailureOwes(c: Config, k: Core, present: bool, p: Place)
    requires InFailureHandler(p)
    ensures k.alerts + Owed(p) <= FailureRest(c, k, present, p).alerts
  {
  }

  lemma SuccessOwes(k: Core, p: Place)
    requires InSuccessHandler(p) && (p.SMarkRec? ==> !HashOr(k).recovered)
    ensures k.alerts + Owed(p) <= SuccessRest(k, p).alerts
  {
  }

  lemma DeletedIsGone(c: Config, st: Store, at: Option<Place>, hk: Core)
    requires Linked(c, st, at, hk)
    ensures Gone(DeleteStore(st), at, hk)
  {
    if at.Some? {
      OwesWhatIsLinked(c, st, at.value, hk);
    }
  }

  lemma TrackedStep(c: Config, s: Mon, ev: Event, rec: Record)
    requires Tracked(c, s, rec) && Tame(s, ev)
    ensures Tracked(c, Apply(c, s, ev), Noted(s, ev, rec))
  {
    match ev
    case Step(i, e) =>
      if i < |s.toks| {
        if s.st.row.None? {
          TrackedGone(c, s, e, rec);
        } else {
          TrackedToken(c, s, e, rec);
        }
      }
    case Expire => TrackedExpiry(c, s, rec);
    case User(op) => TrackedUser(c, s, op, rec);
    case _ =>
  }

  lemma {:induction false} RunTracked(c: Config, row: MonitorRow, now: int, evs: seq<Event>)
    requires TameRun(c, Created(row, now), evs)
    ensures Tracked(c, Run(c, Created(row, now), evs), RecordOf(c, Created(row, now), evs))
  {
    var s0 := Created(row, now);
    if evs != [] {
      var front := evs[..|evs| - 1];
      TamePrefix(c, s0, evs);
      RunTracked(c, row, now, front);
      TrackedStep(c, Run(c, s0, front), evs[|evs| - 1], RecordOf(c, s0, front));
    }
  }

  /** Every tame run of atomic calls is a run of whole handler calls and status updates:
      at any moment the state is that of some sequence of these, short of what the
      handler in progress, if any, is bound to do. */
  lemma HandlersAreAtomic(c: Config, row: MonitorRow, now: int, evs: seq<Event>)
    requires TameRun(c, Created(row, now), evs)
    ensures var s := Run(c, Created(row, now), evs);
      var hk := HRun(c, CLEAN, Calls(c, Created(row, now), evs));
      && |s.toks| <= 1
      && (s.st.row.Some? ==> Linked(c, s.st, Whereabouts(s), hk))
      && s.st.core.alerts <= hk.alerts
  {
    var s := Run(c, Created(row, now), evs);
    RunTracked(c, row, now, evs);
    if s.st.row.Some? {
      AlertsLag(c, s.st, Whereabouts(s), HRun(c, CLEAN, Calls(c, Created(row, now), evs)));
    }
  }

  lemma AlertsLag(c: Config, st: Store, at: Option<Place>, hk: Core)
    requires Linked(c, st, at, hk)
    ensures st.core.alerts <= hk.alerts
  {
  }

  /** Fault-free, and nobody disables the monitor. It may be deleted. */
  predicate Undisturbed(ev: Event) {
    NoFault(ev) && (ev.User? && ev.op.SetEnabled? ==> ev.op.on)
  }

  /** Enabling an enabled monitor changes nothing, so such runs are tame ... */
  lemma {:induction false} UndisturbedIsLive(c: Config, row: MonitorRow, now: int, evs: seq<Event>)
    requires All(evs, Undisturbed)
    ensures var s := Run(c, Created(row, now), evs); s.st.row.Some? ==> Live(s)
  {
    if evs != [] {
      UndisturbedIsLive(c, row, now, evs[..|evs| - 1]);
      RowStays(c, Run(c, Created(row, now), evs[..|evs| - 1]), evs[|evs| - 1]);
    }
  }

  lemma UndisturbedIsTame(c: Config, row: MonitorRow, now: int, evs: seq<Event>)
    requires All(evs, Undisturbed)
    ensures TameRun(c, Created(row, now), evs)
  {
    forall i | 0 <= i < |evs|
      ensures Tame(Run(c, Created(row, now), evs[..i]), evs[i])
    {
      UndisturbedIsLive(c, row, now, evs[..i]);
      assert Undisturbed(evs[i]);
    }
  }

  /** ... and no call of theirs is a disabling. */
  lemma {:induction false} CallsNeverDisable(c: Config, s: Mon, evs: seq<Event>)
    requires All(evs, Undisturbed)
    ensures forall h | h in Calls(c, s, evs) :: !h.Disabled?
  {
    if evs != [] {
      var front := evs[..|evs| - 1];
      CallsNeverDisable(c, s, front);
      NeverNoted(Run(c, s, front), evs[|evs| - 1], RecordOf(c, s, front));
    }
  }

  lemma NeverNoted(s: Mon, ev: Event, rec: Record)
    requires Undisturbed(ev) && forall h | h in Whole(rec) :: !h.Disabled?
    ensures forall h | h in Whole(Noted(s, ev, rec)) :: !h.Disabled?
  {
  }

  lemma RowStays(c: Config, s: Mon, ev: Event)
    requires s.st.row.Some? ==> Live(s)
    requires Undisturbed(ev)
    ensures Apply(c, s, ev).st.row.Some? ==> Live(Apply(c, s, ev))
  {
  }

  /** The alerts of a monitor that nobody disables alternate between DOWN and RECOVERED
      of the same incident, incident after incident, for every interleaving of atomic
      steps and whatever the checks answer. */
  lemma AlertAlternation(c: Config, row: MonitorRow, now: int, evs: seq<Event>)
    requires All(evs, Undisturbed)
    ensures Alternates(Run(c, Created(row, now), evs).st.core.alerts)
  {
    UndisturbedIsTame(c, row, now, evs);
    CallsNeverDisable(c, Created(row, now), evs);
    HandlersAreAtomic(c, row, now, evs);
    HandlersAlternate(c, Calls(c, Created(row, now), evs));
  }

  /** With disablings at any moment that is tame, they are still in order. */
  lemma AlertsInOrder(c: Config, row: MonitorRow, now: int, evs: seq<Event>)
    requires TameRun(c, Created(row, now), evs)
    ensures InOrder(Run(c, Created(row, now), evs).st.core.alerts)
  {
    HandlersAreAtomic(c, row, now, evs);
    HandlersAnnounceInOrder(c, Calls(c, Created(row, now), evs));
    InOrderPrefix(Run(c, Created(row, now), evs).st.core.alerts, HRun(c, CLEAN, Calls(c, Created(row, now), evs)).alerts);
  }

  lemma InOrderPrefix(a: seq<Alert>, b: seq<Alert>)
    requires a <= b && InOrder(b)
    ensures InOrder(a)
  {
    assert forall j | 0 <= j < |a| :: a[j] == b[j];
  }

  /** The endpoint answers with a status code and within a time that monitor_incidents
      accepts. */
  predicate Acceptable(ev: Event) {
    ev.Step? ==> match ev.e.reply
                 case BadUrl => true
                 case Failed(_, _, _, ms) => 0 <= ms < 0x8000_0000
                 case Answered(code, ms) => 100 <= code <= 599 && 0 <= ms < 0x8000_0000
  }

  predicate Deliverable(p: Place) {
    && (p.HttpDone? || p.ResultQ? || p.Routing? || p.SuccessQ? || p.FailureQ? ==> Terminal(p.r) || Storable(p.r))
    && CarriesStorable(p)
  }

  lemma DeliverableFailure(c: Config, st: Store, p: Place, e: Env)
    requires InFailureHandler(p) && Deliverable(p)
    ensures var next := FailureStep(c, st, p, e).1; next.Some? ==> Deliverable(next.value)
  {
  }

  lemma DeliverableStep(c: Config, st: Store, p: Place, e: Env)
    requires Deliverable(p) && Acceptable(Step(0, e))
    ensures var next := Advance(c, st, p, e).1; next.Some? ==> Deliverable(next.value)
  {
    if InFailureHandler(p) {
      DeliverableFailure(c, st, p, e);
    } else if InSuccessHandler(p) {
      DeliverableSuccess(c, st, p, e);
    } else {
      DeliverableTransport(c, st, p, e);
    }
  }

  lemma DeliverableSuccess(c: Config, st: Store, p: Place, e: Env)
    requires InSuccessHandler(p)
    ensures var next := SuccessStep(c, st, p, e).1; next.Some? ==> Deliverable(next.value)
  {
  }

  lemma DeliverableTransport(c: Config, st: Store, p: Place, e: Env)
    requires !InFailureHandler(p) && !InSuccessHandler(p) && Deliverable(p) && Acceptable(Step(0, e))
    ensures var next := TransportStep(c, st, p, e).1; next.Some? ==> Deliverable(next.value)
  {
  }

  /** The only token, if there is one, carries a deliverable result. */
  ghost predicate AllDeliverable(s: Mon) {
    |s.toks| <= 1 && (|s.toks| == 1 ==> Deliverable(s.toks[0]))
  }

  lemma DeliverableApply(c: Config, s: Mon, ev: Event)
    requires Acceptable(ev) && AllDeliverable(s) && |Apply(c, s, ev).toks| <= 1
    ensures AllDeliverable(Apply(c, s, ev))
  {
    if |s.toks| == 1 && ev.Step? {
      DeliverableStep(c, s.st, s.toks[0], ev.e);
      MoveOnly(s.toks, Advance(c, s.st, s.toks[0], ev.e).1);
    }
  }

  lemma NotedStorable(s: Mon, ev: Event, rec: Record)
    requires AllDeliverable(s) && AllStorable(Whole(rec))
    ensures AllStorable(Whole(Noted(s, ev, rec)))
  {
    forall i | 0 <= i < |rec.tail| && rec.tail[i].Fail?
      ensures Storable(rec.tail[i].r) || Terminal(rec.tail[i].r)
    {
      assert Whole(rec)[|rec.done| + i] == rec.tail[i];
    }
    forall i | 0 <= i < |rec.done| && rec.done[i].Fail?
      ensures Storable(rec.done[i].r) || Terminal(rec.done[i].r)
    {
      assert Whole(rec)[i] == rec.done[i];
    }
  }

  lemma {:induction false} CallsStorable(c: Config, row: MonitorRow, now: int, evs: seq<Event>)
    requires TameRun(c, Created(row, now), evs) && All(evs, Acceptable)
    ensures AllDeliverable(Run(c, Created(row, now), evs)) && AllStorable(Calls(c, Created(row, now), evs))
  {
    if evs != [] {
      var front := evs[..|evs| - 1];
      var s := Run(c, Created(row, now), front);
      TamePrefix(c, Created(row, now), evs);
      CallsStorable(c, row, now, front);
      RunTracked(c, row, now, evs);
      DeliverableApply(c, s, evs[|evs| - 1]);
      NotedStorable(s, evs[|evs| - 1], RecordOf(c, Created(row, now), front));
    }
  }

  /** The incident state of a monitor, or what it will be when the handler in progress
      is through. */
  function Settles(c: Config, s: Mon): Core {
    if s.toks == [] then s.st.core else Settled(c, s.st, s.toks[0])
  }

  /** In every tame interleaving of handlers, status updates and deletion, hash and
      incident rows of an existing monitor agree whenever no handler is running, and
      will agree once the running one is through. */
  lemma CouplingBetweenHandlers(c: Config, row: MonitorRow, now: int, evs: seq<Event>)
    requires ValidConfig(c) && TameRun(c, Created(row, now), evs) && All(evs, Acceptable)
    ensures var s := Run(c, Created(row, now), evs);
      s.st.row.Some? ==>
        && Coupled(c, Settles(c, s))
        && OpenRows(Settles(c, s)) == (if HashOr(Settles(c, s)).count >= c.threshold then 1 else 0)
  {
    HandlersAreAtomic(c, row, now, evs);
    CallsStorable(c, row, now, evs);
    StateCoupling(c, Calls(c, Created(row, now), evs));
  }

  lemma DisabledSettles(c: Config, s: Mon, at: int)
    requires |s.toks| <= 1
    ensures Settles(c, Apply(c, s, User(SetEnabled(false, at))))
         == if s.toks == [] then SetEnabledStore(s.st, false, at).core else Settled(c, SetEnabledStore(s.st, false, at), s.toks[0])
  {
  }

  lemma DisablingIdle(c: Config, st: Store, at: int)
    requires ValidConfig(c) && st.row.Some? && st.row.value.enabled && Coupled(c, st.core)
    ensures Coupled(c, SetEnabledStore(st, false, at).core)
  {
  }

  /** A disabling after any such run: the exact condition under which it is harmless. */
  lemma DisablingAtAnyMoment(c: Config, row: MonitorRow, now: int, evs: seq<Event>, at: int)
    requires ValidConfig(c) && TameRun(c, Created(row, now), evs) && All(evs, Acceptable)
    requires Live(Run(c, Created(row, now), evs))
    ensures var s := Run(c, Created(row, now), evs);
      Coupled(c, Settles(c, Apply(c, s, User(SetEnabled(false, at))))) <==> s.toks == [] || !Interrupted(s.toks[0])
  {
    var s := Run(c, Created(row, now), evs);
    var hk := HRun(c, CLEAN, Calls(c, Created(row, now), evs));
    HandlersAreAtomic(c, row, now, evs);
    CallsStorable(c, row, now, evs);
    StateCoupling(c, Calls(c, Created(row, now), evs));
    DisabledSettles(c, s, at);
    DisablingLinked(c, s.st, Whereabouts(s), hk, at);
  }

  lemma DisablingLinked(c: Config, st: Store, at: Option<Place>, hk: Core, now: int)
    requires ValidConfig(c) && Linked(c, st, at, hk) && Coupled(c, hk) && st.row.value.enabled
    requires at.Some? ==> CarriesStorable(at.value)
    ensures at.None? ==> Coupled(c, SetEnabledStore(st, false, now).core)
    ensures at.Some? ==> (Coupled(c, Settled(c, SetEnabledStore(st, false, now), at.value)) <==> !Interrupted(at.value))
  {
    if at.Some? {
      DisablingKeepsCoupling(c, st, at.value, hk, now);
    } else {
      DisablingIdle(c, st, now);
    }
  }
}
