/** The bounded retry around Redis calls (pkg/redis/retry.go), and which outcomes of a
    whole operation it can produce. */
module RetryLoop {
  import opened Sequences
  import opened Domain

  /** One call of fn: whether it took effect, whether it reported success (a call that
      does has taken effect), and whether the context ends during the wait after it. */
  datatype Attempt = Attempt(effect: bool, ok: bool, cancelled: bool)

  /** The outcome of the attempts from number i on. */
  function Outcomes(attempts: nat, script: nat -> Attempt, i: nat): Outcome
    decreases attempts - i
  {
    if i >= attempts then Outcome(0, attempts == 0)
    else
      var a := script(i);
      if a.ok then Outcome(1, true)
      else if a.cancelled then Outcome(Bit(a.effect), false)
      else
        var rest := Outcomes(attempts, script, i + 1);
        Outcome(Bit(a.effect) + rest.applied, rest.ok)
  }

  /** Milliseconds after n failed attempts: 50 + 100 + ... + 50 n. */
  function Backoff(n: nat): nat {
    if n == 0 then 0 else Backoff(n - 1) + 50 * n
  }

  lemma {:induction false} BackoffIsQuadratic(n: nat)
    ensures Backoff(n) == 25 * n * (n + 1)
  {
    if n > 0 {
      BackoffIsQuadratic(n - 1);
    }
  }

  /** Every failed attempt that leaves the context alive is followed by a wait. */
  method Retry(attempts: nat, script: nat -> Attempt) returns (o: Outcome, calls: nat, waited: nat)
    ensures o == Outcomes(attempts, script, 0)
    ensures calls <= attempts && o.applied <= calls
    ensures o.ok <==> attempts == 0 || (calls > 0 && script(calls - 1).ok)
    ensures forall j | 0 <= j < calls - 1 :: !script(j).ok && !script(j).cancelled
    ensures waited == if calls > 0 && (o.ok || script(calls - 1).cancelled) then Backoff(calls - 1) else Backoff(calls)
  {
    calls, waited := 0, 0;
    var applied: nat := 0;
    var failed := false;
    while calls < attempts
      invariant calls <= attempts && applied <= calls
      invariant failed <==> calls > 0
      invariant forall j | 0 <= j < calls :: !script(j).ok && !script(j).cancelled
      invariant var rest := Outcomes(attempts, script, calls);
        Outcomes(attempts, script, 0) == Outcome(applied + rest.applied, rest.ok)
      invariant waited == Backoff(calls)
      decreases attempts - calls
    {
      var a := script(calls);
      calls := calls + 1;
      if a.ok {
        return Outcome(applied + 1, true), calls, waited;
      }
      applied := applied + Bit(a.effect);
      failed := true;
      if a.cancelled {
        return Outcome(applied, false), calls, waited;
      }
      waited := waited + 50 * calls;
    }
    o := Outcome(applied, !failed);
  }

  /** An operation tried at least once is Plausible and takes effect at most `attempts`
      times ... */
  lemma {:induction false} OutcomesPlausible(attempts: nat, script: nat -> Attempt, i: nat)
    requires i < attempts
    ensures var o := Outcomes(attempts, script, i); Plausible(o) && o.applied <= attempts - i
    decreases attempts - i
  {
    if i + 1 < attempts {
      OutcomesPlausible(attempts, script, i + 1);
    }
  }

  /** Fails `effects` times with effect and then succeeds or is cancelled. */
  function Script(o: Outcome): nat -> Attempt {
    (j: nat) =>
      if o.ok then (if j + 1 < o.applied then Attempt(true, false, false) else Attempt(true, true, false))
      else if j < o.applied then Attempt(true, false, false) else Attempt(false, false, true)
  }

  lemma {:induction false} ScriptOutcome(attempts: nat, o: Outcome, i: nat)
    requires Plausible(o) && o.applied <= attempts && i <= attempts && attempts > 0
    requires if o.ok then i < o.applied else i <= o.applied
    ensures Outcomes(attempts, Script(o), i) == Outcome(o.applied - i, o.ok)
    decreases attempts - i
  {
    if i < attempts && i < o.applied && !Script(o)(i).ok {
      ScriptOutcome(attempts, o, i + 1);
    }
  }

  /** ... and every such outcome occurs, so a step that allows them all allows exactly
      what a retried operation can do. */
  lemma EveryPlausibleOutcomeOccurs(attempts: nat, o: Outcome)
    requires attempts > 0 && Plausible(o) && o.applied <= attempts
    ensures exists script :: Outcomes(attempts, script, 0) == o
  {
    ScriptOutcome(attempts, o, 0);
  }
}
