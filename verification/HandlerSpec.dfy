/** What one whole handler call does to a monitor when every call it makes succeeds,
    and the incident machine that such calls drive.

    The effects below are written from what the handlers are for, not from their
    control flow; modules Reduction and ResultProcessor connect them to it. */
module HandlerSpec {
  import opened Sequences
  import opened Domain

  /** The state after the failure number that reaches the threshold for the first time. */
  function RaiseAlert(k: Core, count: nat): Core {
    Core(Some(HashOr(k).(count := count, alerted := true, db := true)),
         k.retry,
         k.open + [true],
         k.alerts + [Down(|k.open|)])
  }

  /** One more failure is counted. */
  function CountFailure(c: Config, k: Core, present: bool, r: HTTPResult): Core {
    var n := HashOr(k).count + 1;
    if n >= c.threshold && !HashOr(k).alerted && present && Storable(r) then RaiseAlert(k, n)
    else k.(hash := Some(HashOr(k).(count := n, alerted := HashOr(k).alerted || n >= c.threshold)))
  }

  /** The retry budget absorbs this failure. */
  predicate Absorbed(c: Config, k: Core, r: HTTPResult) {
    r.retryable && k.retry + 1 <= c.limit
  }

  function FailureEffect(c: Config, k: Core, present: bool, r: HTTPResult): Core {
    if Terminal(r) then k
    else if Absorbed(c, k, r) then k.(retry := k.retry + 1)
    else CountFailure(c, if r.retryable then k.(retry := 0) else k, present, r)
  }

  /** Seconds until the next check that a failure asks for; None for a terminal one. */
  function FailureDelay(c: Config, k: Core, r: HTTPResult): Option<int> {
    if Terminal(r) then None else Some(if Absorbed(c, k, r) then 5 else r.interval)
  }

  /** A recovery with the incident's hash present: the open rows are closed, the one
      reported is announced unless that was done before, hash and retries go. */
  function Recover(k: Core, h: Hash): Core {
    var id := LastOpen(k.open);
    Core(None,
         0,
         if h.db then AllFalse(|k.open|) else k.open,
         if h.db && id.Some? && !h.recovered then k.alerts + [Recovered(id.value)] else k.alerts)
  }

  function SuccessEffect(k: Core): Core {
    if k.hash.None? then k else Recover(k, k.hash.value)
  }

  datatype HEvent =
    | Fail(r: HTTPResult)
    | Succeed
    | RetryExpired
    | Disabled
    | Enabled

  /** One handler call, one disabling or enabling update, or the expiry of the retry
      key, as a single step on an existing monitor. */
  function HApply(c: Config, k: Core, ev: HEvent): Core {
    match ev
    case Fail(r) => FailureEffect(c, k, true, r)
    case Succeed => SuccessEffect(k)
    case RetryExpired => k.(retry := 0)
    case Disabled => k.(hash := None, open := AllFalse(|k.open|))
    case Enabled => k
  }

  function HRun(c: Config, k: Core, evs: seq<HEvent>): Core {
    if evs == [] then k else HApply(c, HRun(c, k, evs[..|evs| - 1]), evs[|evs| - 1])
  }

  lemma HRunSnoc(c: Config, k: Core, evs: seq<HEvent>, ev: HEvent)
    ensures HRun(c, k, evs + [ev]) == HApply(c, HRun(c, k, evs), ev)
  {
    assert (evs + [ev])[..|evs|] == evs;
  }

  lemma {:induction false} HRunConcat(c: Config, k: Core, a: seq<HEvent>, b: seq<HEvent>)
    ensures HRun(c, k, a + b) == HRun(c, HRun(c, k, a), b)
  {
    if b == [] {
      assert a + b == a;
    } else {
      HRunConcat(c, k, a, b[..|b| - 1]);
      assert (a + b)[..|a + b| - 1] == a + b[..|b| - 1];
    }
  }
}
