/** Detection results, quantum results and routing decisions, with the rules their constructors
    enforce. */
module RoutingContracts {
  import opened Wrappers
  import opened Assessments
  import opened CircuitBreaker

  predicate IsProbability(x: real) {
    0.0 <= x <= 1.0
  }

  datatype Detection = Detection(
    sampleId: string,
    prediction: string,
    confidence: real,
    probabilities: map<string, real>,
    anomaly: real,
    disagreement: real)

  predicate IsLegalDetection(d: Detection) {
    && IsProbability(d.confidence) && IsProbability(d.anomaly) && IsProbability(d.disagreement)
    && forall name :: name in d.probabilities ==> IsProbability(d.probabilities[name])
  }

  datatype QuantumResult = QuantumResult(
    sampleId: string,
    model: string,
    success: bool,
    prediction: Option<string>,
    confidence: Option<real>,
    error: Option<string>)

  predicate IsLegalResult(q: QuantumResult) {
    && (q.success ==> q.prediction.Some? && q.confidence.Some? && IsProbability(q.confidence.value))
    && (!q.success ==> q.error.Some?)
  }

  datatype ReasonCode = LOW_CONFIDENCE | HIGH_ANOMALY | HIGH_DISAGREEMENT

  datatype FallbackReason = CIRCUIT_OPEN | TIMEOUT | RETRIES_EXHAUSTED

  datatype RoutingDecision = RoutingDecision(
    sampleId: string,
    status: RoutingStatus,
    shouldInvoke: bool,
    reasons: seq<ReasonCode>,
    backend: Option<string>,
    circuit: BreakerState,
    available: bool,
    attempted: bool,
    result: Option<QuantumResult>,
    fallbackUsed: bool,
    fallbackReason: Option<FallbackReason>,
    jobId: Option<nat>)

  // What the decision's constructor accepts.
  predicate IsLegalDecision(d: RoutingDecision) {
    && (d.status == Pending ==> d.result.None?)
    && (d.status == Success ==> d.result.Some?)
    && (d.fallbackUsed ==> d.fallbackReason.Some?)
  }

  // What a consumer of a resolved decision relies on beyond that.
  predicate IsReady(d: RoutingDecision) {
    && IsLegalDecision(d) && d.status != Pending
    && (d.result.Some? ==> IsLegalResult(d.result.value)) && (d.status == Success ==> d.result.value.success)
    && (d.status == Fallback <==> d.fallbackUsed)
    && (d.status == NotInvoked <==> !d.shouldInvoke)
  }

  datatype Policy = Policy(
    confidenceThreshold: real,
    anomalyThreshold: real,
    disagreementThreshold: real,
    combination: string,
    backend: string,
    timeouts: map<string, real>,
    maxRetries: int)

  predicate Triggers(d: Detection, p: Policy, r: ReasonCode) {
    match r
    case LOW_CONFIDENCE => d.confidence < p.confidenceThreshold
    case HIGH_ANOMALY => d.anomaly > p.anomalyThreshold
    case HIGH_DISAGREEMENT => d.disagreement > p.disagreementThreshold
  }

  // Some threshold is crossed.
  predicate IsCandidate(d: Detection, p: Policy) {
    exists c :: Triggers(d, p, c)
  }

  // None: the call raises on any combination mode but "any".
  method EvaluateRouting(d: Detection, p: Policy) returns (r: Option<(bool, seq<ReasonCode>)>)
    ensures r.None? <==> p.combination != "any"
    ensures r.Some? ==> (r.value.0 <==> exists c :: Triggers(d, p, c))
    ensures r.Some? ==> forall c :: c in r.value.1 <==> Triggers(d, p, c)
  {
    var reasons := [];
    if d.confidence < p.confidenceThreshold {
      reasons := reasons + [LOW_CONFIDENCE];
    }
    if d.anomaly > p.anomalyThreshold {
      reasons := reasons + [HIGH_ANOMALY];
    }
    if d.disagreement > p.disagreementThreshold {
      reasons := reasons + [HIGH_DISAGREEMENT];
    }
    if p.combination != "any" { return None; }
    assert forall c :: c in reasons <==> Triggers(d, p, c);
    assert reasons != [] ==> reasons[0] in reasons;
    r := Some((|reasons| > 0, reasons));
  }
}
