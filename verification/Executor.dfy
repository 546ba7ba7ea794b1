/** The verdict of one HTTP check (internals/modules/executor/executor.go). */
module Executor {
  import opened Sequences
  import opened Domain

  const STATUS_SERVICE_UNAVAILABLE := 503

  function ClassifyError(deadline: bool, dns: bool, net: Option<bool>): (Reason, bool) {
    if deadline then (TimedOut, true)
    else if dns then (DnsFailure, false)
    else if net.Some? then (if net.value then NetworkTimeout else NetworkError, true)
    else (UnknownError, true)
  }

  predicate StatusMatches(row: MonitorRow, code: int) {
    match row.expectedStatus
    case None => 200 <= code < 400
    case Some(expected) => code == expected
  }

  predicate LatencyMatches(row: MonitorRow, ms: int) {
    row.latencyLimit.Some? ==> ms <= row.latencyLimit.value
  }

  /** An unanswered request is reported as 503 with the reason and the retry decision that
      its error calls for; an answered one with its status, and it succeeds exactly when
      status and latency are what the monitor asks. */
  function ExecuteHTTPCheck(row: MonitorRow, reply: Reply): (r: HTTPResult)
    ensures r.interval == row.interval
    ensures reply.BadUrl? ==> r.status == 0 && r.latency == 0 && r.reason == InvalidRequest
    ensures reply.Failed? ==> r.status == 503 && r.latency == reply.ms
    ensures reply.Answered? ==> r.status == reply.code && r.latency == reply.ms && r.reason == NoReason
    ensures reply.Failed? && reply.deadline ==> r.reason == TimedOut
    ensures reply.Failed? && !reply.deadline && reply.dns ==> r.reason == DnsFailure
    ensures reply.Failed? && !reply.deadline && !reply.dns ==>
      match reply.net
      case None => r.reason == UnknownError
      case Some(timeout) => r.reason == (if timeout then NetworkTimeout else NetworkError)
    ensures Terminal(r) <==> reply.BadUrl? || (reply.Failed? && reply.dns && !reply.deadline)
    ensures r.retryable <==> reply.Failed? && !Terminal(r)
    ensures r.retryable && 0 <= ToInt32(r.latency) ==> Storable(r)
    ensures r.success <==>
      && reply.Answered?
      && (if row.expectedStatus.Some? then reply.code == row.expectedStatus.value else 200 <= reply.code <= 399)
      && (row.latencyLimit.Some? ==> reply.ms <= row.latencyLimit.value)
  {
    match reply
    case BadUrl =>
      HTTPResult(false, 0, 0, InvalidRequest, false, row.interval)
    case Failed(deadline, dns, net, ms) =>
      var (reason, retryable) := ClassifyError(deadline, dns, net);
      HTTPResult(false, STATUS_SERVICE_UNAVAILABLE, ms, reason, retryable, row.interval)
    case Answered(code, ms) =>
      HTTPResult(StatusMatches(row, code) && LatencyMatches(row, ms), code, ms, NoReason, false, row.interval)
  }

  /** Of the results of answered requests the incident table refuses those whose status
      has not three digits from 100 to 599, and those that took 2^31 ms or more. */
  lemma WhichAnswersAreStorable(row: MonitorRow, code: int, ms: int)
    requires 0 <= code <= 999 && 0 <= ms < 0x1_0000_0000
    ensures Storable(ExecuteHTTPCheck(row, Answered(code, ms))) <==> 100 <= code <= 599 && ms < 0x8000_0000
  {
  }
}
