/** The records of the check pipeline: what a check answers, what Redis and
    Postgres hold about one monitor, and the ways a call to them can end. */
module Domain {
  import opened Sequences

  /** result_processor.failure_threshold and result_processor.retry_limit. */
  datatype Config = Config(threshold: nat, limit: nat)

  ghost predicate ValidConfig(c: Config) {
    c.threshold >= 1 && c.limit >= 1
  }

  /** A row of `monitors`, without the columns no step below looks at. */
  datatype MonitorRow = MonitorRow(
    team: nat,
    enabled: bool,
    interval: int,
    expectedStatus: Option<int>,
    latencyLimit: Option<int>)

  datatype Reason =
    | NoReason
    | InvalidRequest
    | DnsFailure
    | TimedOut
    | NetworkTimeout
    | NetworkError
    | UnknownError

  datatype HTTPResult = HTTPResult(
    success: bool,
    status: int,
    latency: int,
    reason: Reason,
    retryable: bool,
    interval: int)

  predicate Terminal(r: HTTPResult) {
    r.reason == InvalidRequest || r.reason == DnsFailure
  }

  /** Go's int32(x). */
  function ToInt32(x: int): int {
    var y := x % 0x1_0000_0000;
    if y >= 0x8000_0000 then y - 0x1_0000_0000 else y
  }

  /** The CHECK constraints of monitor_incidents let this result be inserted. */
  predicate Storable(r: HTTPResult) {
    100 <= ToInt32(r.status) <= 599 && 0 <= ToInt32(r.latency)
  }

  /** The Redis hash monitor:incident:<id>; an unset field reads 0 or false. */
  datatype Hash = Hash(count: nat, alerted: bool, db: bool, recovered: bool)

  const BLANK := Hash(0, false, false, false)

  datatype Alert = Down(id: nat) | Recovered(id: nat)

  /** What the result workers read and write about one monitor.
      `open[i]` says that the i-th incident ever inserted for the monitor still has
      a row whose end_time is NULL; i stands for its id, as ids are never reused.
      `alerts` lists everything sent on alertChan for this monitor, oldest first. */
  datatype Core = Core(hash: Option<Hash>, retry: nat, open: seq<bool>, alerts: seq<Alert>)

  const CLEAN := Core(None, 0, [], [])

  function HashOr(k: Core): Hash {
    if k.hash.Some? then k.hash.value else BLANK
  }

  function AllFalse(n: nat): seq<bool> {
    seq(n, _ => false)
  }

  function LastOpen(open: seq<bool>): (r: Option<nat>)
    ensures r.Some? ==> r.value < |open| && open[r.value] && forall j | r.value < j < |open| :: !open[j]
    ensures r.None? ==> forall j | 0 <= j < |open| :: !open[j]
  {
    if open == [] then None
    else if open[|open| - 1] then Some(|open| - 1)
    else LastOpen(open[..|open| - 1])
  }

  /** The id that CloseMonitorIncident returns: the statement closes every open row
      and the driver reads the first id, which may be any of them (`pick`). */
  function Returned(open: seq<bool>, pick: nat): (r: Option<nat>)
    ensures r.Some? ==> r.value < |open| && open[r.value]
    ensures r.None? ==> forall j | 0 <= j < |open| :: !open[j]
  {
    if pick < |open| && open[pick] then Some(pick) else LastOpen(open)
  }

  /** ... any of them indeed, and none exactly if there is none. */
  lemma AnyOpenRowMayBeReturned(open: seq<bool>, i: nat)
    requires i < |open|
    ensures open[i] <==> exists pick :: Returned(open, pick) == Some(i)
  {
    if open[i] {
      assert Returned(open, i) == Some(i);
    }
  }

  /** How one call to Redis or Postgres ended: how often it took effect, and whether
      the caller saw success. Without faults every call is Outcome(1, true). */
  datatype Outcome = Outcome(applied: nat, ok: bool)

  const DONE := Outcome(1, true)

  /** A call that reports success has taken effect. */
  predicate Plausible(o: Outcome) {
    o.ok ==> o.applied > 0
  }

  /** What an HTTP request came back with. The three facts about an error are those
      that errors.Is(DeadlineExceeded), errors.As(*net.DNSError) and
      errors.As(net.Error) establish; `net` carries Timeout(). */
  datatype Reply =
    | BadUrl
    | Failed(deadline: bool, dns: bool, net: Option<bool>, ms: int)
    | Answered(code: int, ms: int)
}
