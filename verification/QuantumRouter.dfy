/** The quantum router: policy, breaker and job hand-off turned into routing decisions, and the
    counters it keeps on the way. */
module QuantumRouters {
  import opened Wrappers
  import opened Assessments
  import opened CircuitBreaker
  import opened RoutingContracts
  import opened QuantumJobs

  datatype Counters = Counters(
    total: nat,
    candidates: nat,
    skipped: nat,
    invocations: nat,
    successes: nat,
    failures: nat,
    fallbacks: nat,
    circuitOpen: nat,        // fallback_reasons, one counter for each reason
    timeout: nat,
    exhausted: nat)

  const NOTHING := Counters(0, 0, 0, 0, 0, 0, 0, 0, 0, 0)

  function Add(a: Counters, b: Counters): Counters {
    Counters(a.total + b.total, a.candidates + b.candidates, a.skipped + b.skipped, a.invocations + b.invocations,
             a.successes + b.successes, a.failures + b.failures, a.fallbacks + b.fallbacks,
             a.circuitOpen + b.circuitOpen, a.timeout + b.timeout, a.exhausted + b.exhausted)
  }

  function OfEvent(invoke: bool): Counters {
    if invoke then NOTHING.(total := 1, candidates := 1) else NOTHING.(total := 1, skipped := 1)
  }

  function OfInvocation(): Counters {
    NOTHING.(invocations := 1)
  }

  function OfOutcome(success: bool): Counters {
    if success then NOTHING.(successes := 1) else NOTHING.(failures := 1)
  }

  function OfFallback(reason: FallbackReason): Counters {
    var c := NOTHING.(fallbacks := 1);
    match reason
    case CIRCUIT_OPEN => c.(circuitOpen := 1)
    case TIMEOUT => c.(timeout := 1)
    case RETRIES_EXHAUSTED => c.(exhausted := 1)
  }

  class RouterMetrics {
    var c: Counters

    constructor ()
      ensures c == NOTHING
    {
      c := NOTHING;
    }

    method RecordEvent(shouldInvoke: bool)
      modifies this
      ensures c == Add(old(c), OfEvent(shouldInvoke))
    {
      c := c.(total := c.total + 1);
      if shouldInvoke {
        c := c.(candidates := c.candidates + 1);
      } else {
        c := c.(skipped := c.skipped + 1);
      }
    }

    method RecordQuantumInvocation()
      modifies this
      ensures c == Add(old(c), OfInvocation())
    {
      c := c.(invocations := c.invocations + 1);
    }

    method RecordQuantumOutcome(success: bool)
      modifies this
      ensures c == Add(old(c), OfOutcome(success))
    {
      if success {
        c := c.(successes := c.successes + 1);
      } else {
        c := c.(failures := c.failures + 1);
      }
    }

    method RecordFallback(reason: FallbackReason)
      modifies this
      ensures c == Add(old(c), OfFallback(reason))
    {
      c := c.(fallbacks := c.fallbacks + 1);
      match reason
      case CIRCUIT_OPEN => c := c.(circuitOpen := c.circuitOpen + 1);
      case TIMEOUT => c := c.(timeout := c.timeout + 1);
      case RETRIES_EXHAUSTED => c := c.(exhausted := c.exhausted + 1);
    }
  }

  datatype Routed = Decided(decision: RoutingDecision) | Refused

  // How a caller's wait for a job ends.
  datatype Wait = StillPending | JobRaised | Finished(record: JobRecord)

  // The kinds of call, as far as counters and breaker see them.
  predicate IsPendingOf(d: RoutingDecision, sampleId: string, backend: string) {
    && d.status == Pending && d.sampleId == sampleId && d.shouldInvoke && d.backend == Some(backend)
    && d.jobId.Some? && !d.attempted && d.result.None? && !d.fallbackUsed && d.available
  }

  // What a decision records before any job has run: the breaker's state as it was found, and the
  // backend exactly when quantum is asked for.
  predicate IsFirstWord(d: RoutingDecision, backend: string, found: BreakerState) {
    && d.circuit == found && !d.attempted && d.result.None?
    && d.shouldInvoke == (d.status != NotInvoked) && d.backend == (if d.shouldInvoke then Some(backend) else None)
    && (d.status == NotInvoked ==> d.available == (found != OPEN))
    && (d.status == Fallback <==> d.fallbackUsed) && (d.status == Fallback ==> !d.available)
    && d.fallbackReason == (if d.status == Fallback then Some(CIRCUIT_OPEN) else None)
    && (d.jobId.Some? <==> d.status == Pending)
  }

  // How a call ends, by what policy, breaker and job have to say.
  function Outcome(candidate: bool, admitted: bool, wait: Wait): RoutingStatus {
    if !candidate then NotInvoked
    else if !admitted then Fallback
    else if !wait.Finished? then Pending
    else if wait.record.result.success then Success
    else Fallback
  }

  // What a call that ends with this decision adds to the counters.
  function CostOf(d: RoutingDecision): Counters {
    match d.status
    case NotInvoked => OfEvent(false)
    case Pending => Add(OfInvocation(), OfEvent(true))
    case Success => Add(Add(OfInvocation(), OfEvent(true)), OfOutcome(true))
    case Fallback =>
      var reason := if d.fallbackReason.Some? then d.fallbackReason.value else RETRIES_EXHAUSTED;
      if reason == CIRCUIT_OPEN then Add(OfEvent(true), OfFallback(CIRCUIT_OPEN))
      else Add(Add(OfInvocation(), OfEvent(true)), Add(OfOutcome(false), OfFallback(reason)))
  }

  // Theorem: a call counts one event, its invocation unless it was turned away, its outcome if it
  // has one, and its fallback under its own reason.
  lemma CostMeans(d: RoutingDecision)
    requires d.status == Fallback <==> d.fallbackReason.Some?
    ensures var c, turnedAway := CostOf(d), d.fallbackReason == Some(CIRCUIT_OPEN);
      && c.total == 1 == c.candidates + c.skipped && c.skipped == One(d.status == NotInvoked)
      && c.candidates == c.invocations + c.circuitOpen
      && c.invocations == c.successes + c.failures + One(d.status == Pending)
      && c.successes == One(d.status == Success) && c.failures == One(d.status == Fallback && !turnedAway)
      && c.fallbacks == One(d.status == Fallback)
      && c.circuitOpen == One(turnedAway) && c.timeout == One(d.fallbackReason == Some(TIMEOUT))
      && c.exhausted == One(d.fallbackReason == Some(RETRIES_EXHAUSTED))
  {
    hide Add, OfEvent, OfInvocation, OfOutcome, OfFallback;
    Units();
    var invoked, reason := Add(OfInvocation(), OfEvent(true)), if d.fallbackReason.Some? then d.fallbackReason.value else TIMEOUT;
    assert d.fallbackReason.Some? ==> d.fallbackReason == Some(reason);
    Sum(OfInvocation(), OfEvent(true));
    Sum(invoked, OfOutcome(true));
    Sum(OfEvent(true), OfFallback(CIRCUIT_OPEN));
    Sum(OfOutcome(false), OfFallback(reason));
    Sum(invoked, Add(OfOutcome(false), OfFallback(reason)));
  }

  lemma Sum(a: Counters, b: Counters)
    ensures var c := Add(a, b);
      && c.total == a.total + b.total && c.candidates == a.candidates + b.candidates && c.skipped == a.skipped + b.skipped
      && c.invocations == a.invocations + b.invocations && c.successes == a.successes + b.successes
      && c.failures == a.failures + b.failures && c.fallbacks == a.fallbacks + b.fallbacks
      && c.circuitOpen == a.circuitOpen + b.circuitOpen && c.timeout == a.timeout + b.timeout && c.exhausted == a.exhausted + b.exhausted
  {
  }

  // One increment each, spelled out.
  lemma Units()
    ensures OfEvent(false) == Counters(1, 0, 1, 0, 0, 0, 0, 0, 0, 0) && OfEvent(true) == Counters(1, 1, 0, 0, 0, 0, 0, 0, 0, 0)
    ensures OfInvocation() == Counters(0, 0, 0, 1, 0, 0, 0, 0, 0, 0)
    ensures OfOutcome(true) == Counters(0, 0, 0, 0, 1, 0, 0, 0, 0, 0) && OfOutcome(false) == Counters(0, 0, 0, 0, 0, 1, 0, 0, 0, 0)
    ensures OfFallback(CIRCUIT_OPEN) == Counters(0, 0, 0, 0, 0, 0, 1, 1, 0, 0)
    ensures OfFallback(TIMEOUT) == Counters(0, 0, 0, 0, 0, 0, 1, 0, 1, 0)
    ensures OfFallback(RETRIES_EXHAUSTED) == Counters(0, 0, 0, 0, 0, 0, 1, 0, 0, 1)
  {
  }

  lemma AddAssociates(a: Counters, b: Counters, c: Counters)
    ensures Add(Add(a, b), c) == Add(a, Add(b, c))
  {
  }

  function OfResolution(d: RoutingDecision): Counters {
    if d.status == Success then OfOutcome(true)
    else Add(OfOutcome(false), OfFallback(if d.fallbackReason.Some? then d.fallbackReason.value else RETRIES_EXHAUSTED))
  }

  // The three ways a call's increments compose.
  lemma CostsCompose(d: RoutingDecision, c: Counters)
    ensures d.status == Pending ==> Add(Add(c, OfInvocation()), OfEvent(true)) == Add(c, CostOf(d))
    ensures d.status == Fallback && d.fallbackReason == Some(CIRCUIT_OPEN) ==> Add(Add(c, OfEvent(true)), OfFallback(CIRCUIT_OPEN)) == Add(c, CostOf(d))
    ensures d.status == Success || (d.status == Fallback && d.fallbackReason != Some(CIRCUIT_OPEN))
      ==> CostOf(d) == Add(Add(OfInvocation(), OfEvent(true)), OfResolution(d))
  {
    hide OfInvocation, OfEvent, OfFallback, OfOutcome, Add;
    AddAssociates(c, OfInvocation(), OfEvent(true));
    AddAssociates(c, OfEvent(true), OfFallback(CIRCUIT_OPEN));
  }

  lemma ResolutionComposes(initial: RoutingDecision, resolved: RoutingDecision, c: Counters)
    requires initial.status == Pending
    requires resolved.status == Success || (resolved.status == Fallback && resolved.fallbackReason != Some(CIRCUIT_OPEN))
    ensures Add(Add(c, CostOf(initial)), OfResolution(resolved)) == Add(c, CostOf(resolved))
  {
    CostsCompose(resolved, c);
    hide OfInvocation, OfEvent, OfFallback, OfOutcome, Add, OfResolution;
    AddAssociates(c, CostOf(initial), OfResolution(resolved));
  }

  class QuantumRouter {
    const policy: Policy
    const breaker: QuantumCircuitBreaker
    const metrics: RouterMetrics
    var pending: map<nat, RoutingDecision>
    var nextJob: nat            // a fresh job id

    ghost predicate Valid()
      reads this, breaker, breaker.states.Values
    {
      breaker.Valid() && forall j :: j in pending ==> j < nextJob
    }

    ghost function Backend(): Breaker
      reads breaker, breaker.states.Values
    {
      breaker.At(policy.backend)
    }

    constructor (policy: Policy, settings: Settings)
      ensures Valid() && this.policy == policy && fresh(breaker) && fresh(metrics)
      ensures Backend() == FRESH && metrics.c == NOTHING && pending == map[]
    {
      this.policy := policy;
      breaker := new QuantumCircuitBreaker(settings);
      metrics := new RouterMetrics();
      pending, nextJob := map[], 0;
    }

    method State() returns (state: BreakerState)
      requires Valid()
      modifies breaker, breaker.states.Values
      ensures Valid() && state == Backend().state && Backend() == old(Backend())
      ensures fresh(breaker.states.Values - old(breaker.states.Values))
    {
      var record := breaker.StateFor(policy.backend);
      state := record.state;
    }

    // The decision for one detection at clock reading `now`.  Refused where the call raises:
    // an unknown combination mode, or no timeout configured for the backend.
    method Route(sampleId: string, d: Detection, now: real) returns (r: Routed)
      requires Valid()
      modifies this, metrics, breaker, breaker.states.Values
      ensures Valid() && fresh(breaker.states.Values - old(breaker.states.Values))
      ensures policy.combination != "any" ==> r.Refused? && Backend() == old(Backend())
      ensures r.Refused? ==> metrics.c == old(metrics.c) && pending == old(pending)
      ensures r.Refused? <==> policy.combination != "any" || (IsCandidate(d, policy) && old(Allows(Backend(), now, breaker.settings)) && policy.backend !in policy.timeouts)
      ensures r.Decided? ==> IsLegalDecision(r.decision) && r.decision.sampleId == sampleId && r.decision.status != Success
      ensures r.Decided? ==> IsFirstWord(r.decision, policy.backend, old(Backend()).state)
      ensures r.Decided? ==> (forall c :: c in r.decision.reasons <==> Triggers(d, policy, c))
      ensures r.Decided? ==> (r.decision.status == NotInvoked <==> !IsCandidate(d, policy))
      ensures r.Decided? ==> metrics.c == Add(old(metrics.c), CostOf(r.decision))
      ensures r.Decided? && r.decision.status != Pending ==> IsReady(r.decision) && pending == old(pending) && Backend() == old(Backend())
      ensures r.Decided? && r.decision.status == Fallback ==> r.decision.fallbackReason == Some(CIRCUIT_OPEN)
      ensures r.Decided? && r.decision.status != NotInvoked ==> (r.decision.status == Pending <==> old(Allows(Backend(), now, breaker.settings)))
      ensures r.Decided? && r.decision.status == Pending ==> IsPendingOf(r.decision, sampleId, policy.backend)
      ensures r.Decided? && r.decision.status == Pending ==> Backend() == After(old(Backend()), Ask(now), breaker.settings)
      ensures r.Decided? && r.decision.status == Pending ==> r.decision.jobId.value !in old(pending) && pending == old(pending)[r.decision.jobId.value := r.decision]
    {
      var evaluated := EvaluateRouting(d, policy);
      if evaluated.None? { return Refused; }
      var shouldInvoke, reasons := evaluated.value.0, evaluated.value.1;
      NoneTriggers(d, policy, reasons);
      if !shouldInvoke {
        metrics.RecordEvent(false);
        var state := State();
        return Decided(RoutingDecision(sampleId, NotInvoked, false, reasons, None, state, state != OPEN, false, None, false, None, None));
      }
      r := RouteCandidate(sampleId, reasons, now);
    }

    method RouteCandidate(sampleId: string, reasons: seq<ReasonCode>, now: real) returns (r: Routed)
      requires Valid()
      modifies this, metrics, breaker, breaker.states.Values
      ensures Valid() && fresh(breaker.states.Values - old(breaker.states.Values))
      ensures r.Refused? ==> metrics.c == old(metrics.c) && pending == old(pending)
      ensures r.Refused? <==> old(Allows(Backend(), now, breaker.settings)) && policy.backend !in policy.timeouts
      ensures r.Decided? ==> IsLegalDecision(r.decision) && r.decision.sampleId == sampleId && r.decision.reasons == reasons
      ensures r.Decided? ==> IsFirstWord(r.decision, policy.backend, old(Backend()).state)
      ensures r.Decided? ==> r.decision.status == if old(Allows(Backend(), now, breaker.settings)) then Pending else Fallback
      ensures r.Decided? ==> metrics.c == Add(old(metrics.c), CostOf(r.decision))
      ensures r.Decided? && r.decision.status == Fallback ==> IsReady(r.decision) && pending == old(pending) && Backend() == old(Backend())
      ensures r.Decided? && r.decision.status == Fallback ==> r.decision.fallbackReason == Some(CIRCUIT_OPEN)
      ensures r.Decided? && r.decision.status == Pending ==> IsPendingOf(r.decision, sampleId, policy.backend)
      ensures r.Decided? && r.decision.status == Pending ==> Backend() == After(old(Backend()), Ask(now), breaker.settings)
      ensures r.Decided? && r.decision.status == Pending ==> r.decision.jobId.value !in old(pending) && pending == old(pending)[r.decision.jobId.value := r.decision]
    {
      hide Add, OfEvent, OfInvocation, OfFallback, CostOf, After, Allows;
      var state := State();
      var allowed := breaker.AllowRequest(policy.backend, now);
      if !allowed {
        DeniedStays(old(Backend()), now, breaker.settings);
        r := TurnAway(sampleId, reasons, state);
      } else if policy.backend !in policy.timeouts {
        r := Refused;
      } else {
        r := Submit(sampleId, reasons, state);
      }
    }

    method TurnAway(sampleId: string, reasons: seq<ReasonCode>, state: BreakerState) returns (r: Routed)
      modifies metrics
      ensures r.Decided? && IsReady(r.decision) && IsFirstWord(r.decision, policy.backend, state)
      ensures r.decision.status == Fallback && r.decision.sampleId == sampleId && r.decision.reasons == reasons
      ensures metrics.c == Add(old(metrics.c), CostOf(r.decision))
    {
      hide Add, OfEvent, OfInvocation, OfFallback, CostOf;
      metrics.RecordEvent(true);
      metrics.RecordFallback(CIRCUIT_OPEN);
      r := Decided(RoutingDecision(sampleId, Fallback, true, reasons, Some(policy.backend), state, false, false, None, true, Some(CIRCUIT_OPEN), None));
      CostsCompose(r.decision, old(metrics.c));
    }

    method Submit(sampleId: string, reasons: seq<ReasonCode>, state: BreakerState) returns (r: Routed)
      requires Valid()
      modifies this, metrics
      ensures Valid()
      ensures r.Decided? && IsLegalDecision(r.decision) && IsFirstWord(r.decision, policy.backend, state)
      ensures IsPendingOf(r.decision, sampleId, policy.backend) && r.decision.reasons == reasons
      ensures r.decision.jobId.value !in old(pending) && pending == old(pending)[r.decision.jobId.value := r.decision]
      ensures metrics.c == Add(old(metrics.c), CostOf(r.decision))
    {
      hide Add, OfEvent, OfInvocation, OfFallback, CostOf;
      var job := nextJob;
      nextJob := nextJob + 1;
      metrics.RecordQuantumInvocation();
      metrics.RecordEvent(true);
      var decision := RoutingDecision(sampleId, Pending, true, reasons, Some(policy.backend), state, true, false, None, false, None, Some(job));
      pending := pending[job := decision];
      CostsCompose(decision, old(metrics.c));
      r := Decided(decision);
    }

    // A finished job's record folded into its decision.  Only here does the breaker hear of it.
    method ResolveDecision(initial: RoutingDecision, record: JobRecord, now: real) returns (resolved: RoutingDecision)
      requires Valid() && IsRecord(record) && IsPendingOf(initial, initial.sampleId, policy.backend)
      modifies metrics, breaker, breaker.states.Values
      ensures Valid() && fresh(breaker.states.Values - old(breaker.states.Values))
      ensures IsReady(resolved) && resolved.sampleId == initial.sampleId && resolved.reasons == initial.reasons && resolved.jobId == initial.jobId
      ensures resolved.status == (if record.result.success then Success else Fallback)
      ensures resolved.result == Some(record.result) && resolved.fallbackReason == record.reason
      ensures resolved.circuit == Backend().state && resolved.available == (resolved.circuit != OPEN)
      ensures resolved.attempted && resolved.backend == initial.backend
      ensures Backend() == After(old(Backend()), if record.result.success then Good(now) else Bad(now), breaker.settings)
      ensures metrics.c == Add(old(metrics.c), OfResolution(resolved))
    {
      hide Add, OfOutcome, OfFallback;
      ghost var before := metrics.c;
      var success := record.result.success;
      metrics.RecordQuantumOutcome(success);
      if success {
        breaker.RecordSuccess(policy.backend, now);
      } else {
        breaker.RecordFailure(policy.backend, now);
        AddAssociates(before, OfOutcome(false), OfFallback(if record.reason.Some? then record.reason.value else RETRIES_EXHAUSTED));
        metrics.RecordFallback(if record.reason.Some? then record.reason.value else RETRIES_EXHAUSTED);
      }
      var state := State();
      resolved := RoutingDecision(initial.sampleId, if success then Success else Fallback, true, initial.reasons, initial.backend, state,
                                  state != OPEN, true, Some(record.result), !success, if success then None else record.reason, initial.jobId);
    }

    // Route, wait, resolve.  A wait that runs out returns the pending decision and reports nothing.
    method RouteAndWait(sampleId: string, d: Detection, now: real, wait: Wait, later: real) returns (r: Routed)
      requires Valid()
      requires wait.Finished? ==> IsRecord(wait.record)
      modifies this, metrics, breaker, breaker.states.Values
      ensures Valid()
      ensures r.Decided? ==> IsLegalDecision(r.decision) && r.decision.sampleId == sampleId
      ensures r.Decided? && r.decision.status != Pending ==> IsReady(r.decision)
      ensures r.Refused?
        <==> (policy.combination != "any"
              || (IsCandidate(d, policy) && old(Allows(Backend(), now, breaker.settings)) && (policy.backend !in policy.timeouts || wait.JobRaised?)))
      ensures r.Decided? ==> r.decision.status == Outcome(IsCandidate(d, policy), old(Allows(Backend(), now, breaker.settings)), wait)
      ensures r.Decided? ==> forall c :: c in r.decision.reasons <==> Triggers(d, policy, c)
      ensures r.Decided? && !r.decision.attempted ==> IsFirstWord(r.decision, policy.backend, old(Backend()).state)
      ensures r.Decided? && r.decision.attempted ==> wait.Finished? && r.decision.result == Some(wait.record.result) && r.decision.fallbackReason == wait.record.reason
      ensures r.Decided? && r.decision.attempted
        ==> Backend() == After(After(old(Backend()), Ask(now), breaker.settings), if wait.record.result.success then Good(later) else Bad(later), breaker.settings)
      ensures r.Decided? ==> metrics.c == Add(old(metrics.c), CostOf(r.decision))
    {
      hide Add, OfResolution, CostOf, Triggers, IsCandidate, After, Allows;
      ghost var before := metrics.c;
      r := Route(sampleId, d, now);
      if r.Refused? || r.decision.jobId.None? || r.decision.status != Pending { return; }
      match wait
      case StillPending =>
      case JobRaised => r := Refused;
      case Finished(record) =>
        var resolved := ResolveDecision(r.decision, record, later);
        ResolutionComposes(r.decision, resolved, before);
        r := Decided(resolved);
    }
  }

  lemma DeniedStays(b: Breaker, now: real, s: Settings)
    requires !Allows(b, now, s)
    ensures After(b, Ask(now), s) == b
  {
  }

  lemma NoneTriggers(d: Detection, p: Policy, reasons: seq<ReasonCode>)
    requires forall c :: c in reasons <==> Triggers(d, p, c)
    ensures reasons == [] <==> !IsCandidate(d, p)
  {
    if reasons != [] {
      assert reasons[0] in reasons;
    }
  }
}
