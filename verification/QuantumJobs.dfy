/** One quantum job: verification attempts bounded by a timeout, retried a fixed number of times. */
module QuantumJobs {
  import opened Wrappers
  import opened RoutingContracts

  // What one attempt comes to, and how long it took.
  datatype Attempt =
    | Returned(result: QuantumResult, ms: real)
    | TimedOut(detail: string, ms: real)
    | Threw(detail: string, ms: real)

  const TIMEOUT_PREFIX := "timeout after"

  // Every outcome becomes a result.
  function ResultOf(a: Attempt, sampleId: string, model: string): QuantumResult {
    match a
    case Returned(result, _) => result
    case TimedOut(detail, _) => QuantumResult(sampleId, model, false, None, None, Some(TIMEOUT_PREFIX + detail))
    case Threw(detail, _) => QuantumResult(sampleId, model, false, None, None, Some("verifier raised " + detail))
  }

  predicate Succeeds(a: Attempt) {
    a.Returned? && a.result.success
  }

  // The first of the first n attempts to succeed, or n.
  function FirstSuccess(verify: nat -> Attempt, n: nat): (r: nat)
    ensures r <= n
    ensures forall k :: 0 <= k < r ==> !Succeeds(verify(k))
    ensures r < n ==> Succeeds(verify(r))
  {
    if n == 0 then 0
    else
      var before := FirstSuccess(verify, n - 1);
      if before < n - 1 || Succeeds(verify(n - 1)) then before else n
  }

  function Spent(verify: nat -> Attempt, n: nat): real {
    if n == 0 then 0.0 else Spent(verify, n - 1) + verify(n - 1).ms
  }

  datatype JobRecord = JobRecord(result: QuantumResult, attempts: nat, executionMs: real, reason: Option<FallbackReason>)

  // What every finished job's record satisfies.
  predicate IsRecord(r: JobRecord) {
    && IsLegalResult(r.result)
    && (r.result.success <==> r.reason.None?)
    && r.reason != Some(CIRCUIT_OPEN)
  }

  predicate IsTimeoutError(q: QuantumResult) {
    q.error.Some? && TIMEOUT_PREFIX <= q.error.value
  }

  // None: with a negative retry limit nothing is attempted and the final assertion fails.
  method RunJob(verify: nat -> Attempt, sampleId: string, model: string, maxRetries: int)
    returns (r: Option<JobRecord>, naps: nat)
    requires forall k: nat :: verify(k).Returned? ==> IsLegalResult(verify(k).result)
    ensures r.None? <==> maxRetries < 0
    ensures r.Some? ==> var first := FirstSuccess(verify, maxRetries + 1);
      && IsRecord(r.value)
      && (r.value.result.success <==> first <= maxRetries)
      && r.value.attempts == (if first <= maxRetries then first + 1 else maxRetries + 1)
      && r.value.result == ResultOf(verify(r.value.attempts - 1), sampleId, model)
      && r.value.executionMs == Spent(verify, r.value.attempts)
      && naps == r.value.attempts - 1
    ensures r.Some? && !r.value.result.success ==> (r.value.reason == Some(TIMEOUT) <==> IsTimeoutError(r.value.result))
  {
    var attempts, total, last := 0, 0.0, None;
    naps := 0;
    while attempts < maxRetries + 1
      invariant 0 <= attempts && if maxRetries < 0 then attempts == 0 else attempts <= maxRetries + 1
      invariant FirstSuccess(verify, attempts) == attempts
      invariant total == Spent(verify, attempts)
      invariant last == if attempts == 0 then None else Some(ResultOf(verify(attempts - 1), sampleId, model))
      invariant naps == if attempts > maxRetries && attempts > 0 then attempts - 1 else attempts
    {
      attempts := attempts + 1;
      var attempt := verify(attempts - 1);
      var result := ResultOf(attempt, sampleId, model);
      total := total + attempt.ms;
      last := Some(result);
      if result.success {
        FirstStays(verify, attempts, maxRetries + 1);
        return Some(JobRecord(result, attempts, total, None)), naps;
      }
      if attempts < maxRetries + 1 {
        naps := naps + 1;
      }
    }
    if last.None? { return None, naps; }
    var reason := if IsTimeoutError(last.value) then TIMEOUT else RETRIES_EXHAUSTED;
    r := Some(JobRecord(last.value, attempts, total, Some(reason)));
  }

  lemma {:induction false} FirstStays(verify: nat -> Attempt, n: nat, m: nat)
    requires n <= m && FirstSuccess(verify, n) < n
    ensures FirstSuccess(verify, m) == FirstSuccess(verify, n)
    decreases m
  {
  }

  // The time of a job is its first attempt's and the rest's, and hence at least any attempt's.
  lemma {:induction false} SpentFromFront(verify: nat -> Attempt, n: nat)
    ensures Spent(verify, n + 1) == verify(0).ms + Spent((k: nat) => verify(k + 1), n)
  {
    if n > 0 {
      SpentFromFront(verify, n - 1);
    }
  }

  // A verifier's own failure counts as a timeout exactly when its text says so; a genuine timeout
  // always does, and a raised exception never does.
  lemma TimeoutReason(a: Attempt, sampleId: string, model: string)
    ensures a.TimedOut? ==> IsTimeoutError(ResultOf(a, sampleId, model))
    ensures a.Threw? ==> !IsTimeoutError(ResultOf(a, sampleId, model))
  {
    if a.Threw? {
      assert ("verifier raised " + a.detail)[0] == 'v';
    }
  }
}
