/** How many failing checks, and how many seconds, an outage takes to be reported. */
module Thresholds {
  import opened Sequences
  import opened Domain
  import opened HandlerSpec
  import opened Incidents
  import opened Arithmetic

  function Failures(rs: seq<HTTPResult>): seq<HEvent> {
    seq(|rs|, i requires 0 <= i < |rs| => Fail(rs[i]))
  }

  function CountRetryable(rs: seq<HTTPResult>): nat {
    if rs == [] then 0 else CountRetryable(rs[..|rs| - 1]) + (if rs[|rs| - 1].retryable then 1 else 0)
  }

  function After(c: Config, k: Core, rs: seq<HTTPResult>): Core {
    HRun(c, k, Failures(rs))
  }

  lemma AfterSnoc(c: Config, k: Core, rs: seq<HTTPResult>)
    requires rs != []
    ensures After(c, k, rs) == FailureEffect(c, After(c, k, rs[..|rs| - 1]), true, rs[|rs| - 1])
  {
    assert Failures(rs)[..|rs| - 1] == Failures(rs[..|rs| - 1]);
  }

  /** Where counter and retry budget stand after any failures that are not terminal,
      in any order: every non-retryable one counts, and so does every
      (limit + 1)-st retryable one. */
  lemma {:induction false} CountingClosedForm(c: Config, k: Core, rs: seq<HTTPResult>)
    requires k.retry <= c.limit
    requires forall r | r in rs :: !Terminal(r)
    ensures var m := CountRetryable(rs);
      && m <= |rs|
      && HashOr(After(c, k, rs)).count == HashOr(k).count + (|rs| - m) + (k.retry + m) / (c.limit + 1)
      && After(c, k, rs).retry == (k.retry + m) % (c.limit + 1)
  {
    if rs == [] {
      DivModSmall(k.retry, c.limit + 1);
    } else {
      var front := rs[..|rs| - 1];
      CountingClosedForm(c, k, front);
      AfterSnoc(c, k, rs);
      assert !Terminal(rs[|rs| - 1]);
      DivModSucc(k.retry + CountRetryable(front), c.limit + 1);
    }
  }

  lemma {:induction false} CountMonotone(c: Config, k: Core, rs: seq<HTTPResult>)
    ensures HashOr(k).count <= HashOr(After(c, k, rs)).count
  {
    if rs != [] {
      CountMonotone(c, k, rs[..|rs| - 1]);
      AfterSnoc(c, k, rs);
    }
  }

  /** An outage raises exactly one DOWN, with the failure that brings the count to the
      threshold, and none before. */
  lemma {:induction false} DownFiresAtThreshold(c: Config, k: Core, rs: seq<HTTPResult>)
    requires ValidConfig(c) && Coupled(c, k)
    requires forall r | r in rs :: !Terminal(r) && Storable(r)
    ensures Coupled(c, After(c, k, rs))
    ensures After(c, k, rs).alerts ==
      if HashOr(k).count < c.threshold <= HashOr(After(c, k, rs)).count then k.alerts + [Down(|k.open|)] else k.alerts
    ensures HashOr(After(c, k, rs)).count < c.threshold ==> After(c, k, rs).open == k.open
  {
    if rs != [] {
      var front := rs[..|rs| - 1];
      DownFiresAtThreshold(c, k, front);
      AfterSnoc(c, k, rs);
      CountMonotone(c, k, front);
      assert rs[|rs| - 1] in rs;
      CouplingStep(c, After(c, k, front), Fail(rs[|rs| - 1]));
    }
  }

  // Minimum evidence

  function Count(evs: seq<HEvent>): nat {
    if evs == [] then 0 else Count(evs[..|evs| - 1]) + (if evs[|evs| - 1].Fail? then 1 else 0)
  }

  /** Only retryable failures, and expiries of the retry key at any moment. */
  ghost predicate RetryableOutage(evs: seq<HEvent>) {
    forall i | 0 <= i < |evs| :: evs[i].RetryExpired? || (evs[i].Fail? && evs[i].r.retryable && !Terminal(evs[i].r))
  }

  /** Each unit of failure_count costs limit + 1 failing results, save for what the
      retry counter held before the outage. */
  lemma {:induction false} EvidencePotential(c: Config, k: Core, evs: seq<HEvent>)
    requires RetryableOutage(evs) && k.hash.None? && k.retry <= c.limit
    ensures var k' := HRun(c, k, evs);
      && (c.limit + 1) * HashOr(k').count + k'.retry <= k.retry + Count(evs)
      && k'.retry <= c.limit
      && (HashOr(k').count < c.threshold ==> k'.alerts == k.alerts && !Alerted(k'))
  {
    if evs == [] {
      assert (c.limit + 1) * 0 == 0;
    } else {
      var front := evs[..|evs| - 1];
      EvidencePotential(c, k, front);
      MulAdd(c.limit + 1, HashOr(HRun(c, k, front)).count, 1);
    }
  }

  /** A success leaves no hash, but it may leave the retry counter running. */
  lemma SuccessLeaves(c: Config, evs: seq<HEvent>)
    ensures var k := HRun(c, CLEAN, evs + [Succeed]); k.hash.None? && k.retry <= c.limit
  {
    HRunSnoc(c, CLEAN, evs, Succeed);
    PairedRun(c, evs);
  }

  /** After a success, an outage of retryable failures raises DOWN only after at least
      (threshold - 1) * (limit + 1) + 1 failing results, whatever came before the
      success and whenever the retry key expires. */
  lemma MinimumEvidence(c: Config, before: seq<HEvent>, outage: seq<HEvent>)
    requires ValidConfig(c) && RetryableOutage(outage)
    requires var k := HRun(c, CLEAN, before + [Succeed]); HRun(c, k, outage).alerts != k.alerts
    ensures Count(outage) >= (c.threshold - 1) * (c.limit + 1) + 1
  {
    var k := HRun(c, CLEAN, before + [Succeed]);
    var n := HashOr(HRun(c, k, outage)).count;
    SuccessLeaves(c, before);
    EvidencePotential(c, k, outage);
    MulMonotone(c.limit + 1, c.threshold, n);
    MulAdd(c.limit + 1, c.threshold - 1, 1);
  }

  /** What a success does after any run: it deletes the hash, closes the incident and
      announces its end if there is one, and forgets the retries if there was a hash. */
  lemma SuccessClears(c: Config, evs: seq<HEvent>)
    ensures var k, k' := HRun(c, CLEAN, evs), HRun(c, CLEAN, evs + [Succeed]);
      && k'.hash.None? && OpenRows(k') == 0
      && k'.retry == (if k.hash.Some? then 0 else k.retry)
      && k'.alerts == k.alerts + (if OpenRows(k) > 0 then [Recovered(|k.open| - 1)] else [])
  {
    HRunSnoc(c, CLEAN, evs, Succeed);
    PairedRun(c, evs);
    PairedRun(c, evs + [Succeed]);
    PairedOpenRows(c, HRun(c, CLEAN, evs));
    PairedOpenRows(c, HRun(c, CLEAN, evs + [Succeed]));
  }

  lemma EvidenceFromRest(c: Config, k: Core, outage: seq<HEvent>)
    requires ValidConfig(c) && RetryableOutage(outage) && k.hash.None? && k.retry == 0
    requires HRun(c, k, outage).alerts != k.alerts
    ensures Count(outage) >= c.threshold * (c.limit + 1)
  {
    EvidencePotential(c, k, outage);
    MulMonotone(c.limit + 1, c.threshold, HashOr(HRun(c, k, outage)).count);
  }

  /** If the success found a hash, the next outage takes the full
      threshold * (limit + 1) failing results. */
  lemma FullEvidence(c: Config, before: seq<HEvent>, outage: seq<HEvent>)
    requires ValidConfig(c) && RetryableOutage(outage) && HRun(c, CLEAN, before).hash.Some?
    requires var k := HRun(c, CLEAN, before + [Succeed]); HRun(c, k, outage).alerts != k.alerts
    ensures Count(outage) >= c.threshold * (c.limit + 1)
  {
    var k := HRun(c, CLEAN, before + [Succeed]);
    SuccessClears(c, before);
    EvidenceFromRest(c, k, outage);
  }

  function Repeat(r: HTTPResult, n: nat): seq<HTTPResult> {
    seq(n, _ => r)
  }

  lemma {:induction false} RepeatRetryable(r: HTTPResult, n: nat)
    requires r.retryable
    ensures CountRetryable(Repeat(r, n)) == n
  {
    if n > 0 {
      assert Repeat(r, n)[..n - 1] == Repeat(r, n - 1);
      RepeatRetryable(r, n - 1);
    }
  }

  /** The bound is reached: retries spent before a success that found no hash are not
      forgotten, so the first counted failure may need a single failing result. */
  lemma MinimumEvidenceIsTight(c: Config, r: HTTPResult)
    requires ValidConfig(c) && r.retryable && !Terminal(r) && Storable(r)
    ensures var spent := HRun(c, After(c, CLEAN, Repeat(r, c.limit)), [Succeed]);
      After(c, spent, Repeat(r, (c.threshold - 1) * (c.limit + 1) + 1)).alerts == [Down(0)]
  {
    var spent := HRun(c, After(c, CLEAN, Repeat(r, c.limit)), [Succeed]);
    RepeatRetryable(r, c.limit);
    CountingClosedForm(c, CLEAN, Repeat(r, c.limit));
    DownFiresAtThreshold(c, CLEAN, Repeat(r, c.limit));
    DivModSmall(c.limit, c.limit + 1);
    HRunSnoc(c, After(c, CLEAN, Repeat(r, c.limit)), [], Succeed);
    assert [] + [Succeed] == [Succeed];
    assert spent == Core(None, c.limit, [], []);
    var n := (c.threshold - 1) * (c.limit + 1) + 1;
    RepeatRetryable(r, n);
    CountingClosedForm(c, spent, Repeat(r, n));
    MulAdd(c.limit + 1, c.threshold - 1, 1);
    DivModProduct(c.threshold, c.limit + 1);
    DownFiresAtThreshold(c, spent, Repeat(r, n));
  }

  // Detection delay

  /** The sum of the delays that these failures, one after the other, reschedule with. */
  function TotalDelay(c: Config, k: Core, rs: seq<HTTPResult>): int {
    if rs == [] then 0
    else
      var d := FailureDelay(c, After(c, k, rs[..|rs| - 1]), rs[|rs| - 1]);
      TotalDelay(c, k, rs[..|rs| - 1]) + (if d.Some? then d.value else 0)
  }

  lemma {:induction false} DelayClosedForm(c: Config, interval: int, rs: seq<HTTPResult>)
    requires forall r | r in rs :: r.retryable && !Terminal(r) && r.interval == interval
    ensures CountRetryable(rs) == |rs|
    ensures var q := |rs| / (c.limit + 1); TotalDelay(c, CLEAN, rs) == (|rs| - q) * 5 + q * interval
  {
    if rs == [] {
      DivModSmall(0, c.limit + 1);
    } else {
      var front := rs[..|rs| - 1];
      DelayClosedForm(c, interval, front);
      CountingClosedForm(c, CLEAN, front);
      DivModSucc(|front|, c.limit + 1);
      assert rs[|rs| - 1] in rs;
      var q := |front| / (c.limit + 1);
      MulAdd(interval, q, 1);
    }
  }

  /** How far an outage of retryable failures has got: count and alerts after |rs|. */
  lemma OutageSoFar(c: Config, interval: int, rs: seq<HTTPResult>)
    requires ValidConfig(c)
    requires forall r | r in rs :: r.retryable && !Terminal(r) && Storable(r) && r.interval == interval
    ensures After(c, CLEAN, rs).alerts == if |rs| / (c.limit + 1) >= c.threshold then [Down(0)] else []
  {
    DelayClosedForm(c, interval, rs);
    CountingClosedForm(c, CLEAN, rs);
    DownFiresAtThreshold(c, CLEAN, rs);
  }

  /** From a clean start, an outage of retryable failures is reported by exactly its
      threshold * (limit + 1)-th result, and the delays requested until then add up to
      threshold * limit * 5 + (threshold - 1) * interval seconds. */
  lemma DetectionDelay(c: Config, interval: int, rs: seq<HTTPResult>)
    requires ValidConfig(c) && |rs| == c.threshold * (c.limit + 1) && rs != []
    requires forall r | r in rs :: r.retryable && !Terminal(r) && Storable(r) && r.interval == interval
    ensures var front := rs[..|rs| - 1];
      && After(c, CLEAN, front).alerts == []
      && After(c, CLEAN, rs).alerts == [Down(0)]
      && TotalDelay(c, CLEAN, front) == c.threshold * c.limit * 5 + (c.threshold - 1) * interval
  {
    var front := rs[..|rs| - 1];
    assert forall r | r in front :: r in rs;
    OutageSoFar(c, interval, rs);
    OutageSoFar(c, interval, front);
    DelayClosedForm(c, interval, front);
    DivModProduct(c.threshold, c.limit + 1);
    MulAdd(c.threshold, c.limit, 1);
  }
}
