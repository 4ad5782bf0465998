/** The hybrid decision: classical and quantum evidence combined case by case. */
module HybridEngine {
  import opened Wrappers
  import opened Assessments
  import opened RoutingContracts

  const NORMAL := "normal"
  const ATTACK := "attack"

  datatype DecisionPolicy = DecisionPolicy(classicalHighConfidence: real, quantumOverride: real)

  // What is recorded beside the decision; an absent entry reads as None or false.
  datatype Basis = Basis(
    anomaly: real,
    disagreement: real,
    agreement: Option<bool>,
    changedByQuantum: bool,
    fallbackUsed: bool,
    overrideApplied: bool)

  datatype HybridDecision = HybridDecision(
    sampleId: string,
    prediction: string,
    confidence: real,
    quantumUsed: bool,
    model: Option<string>,
    quantumPrediction: Option<string>,
    quantumConfidence: Option<real>,
    status: DecisionStatus,
    basis: Basis)

  predicate IsLegalHybrid(h: HybridDecision) {
    && IsProbability(h.confidence)
    && (h.quantumConfidence.Some? ==> IsProbability(h.quantumConfidence.value))
    && (h.quantumUsed ==> h.model.Some?)
  }

  datatype Built = Raised | Built(decision: HybridDecision)

  function ClassicalOnlyStatus(prediction: string, confidence: real, p: DecisionPolicy): DecisionStatus {
    if prediction == NORMAL then Normal
    else if confidence >= p.classicalHighConfidence then Confirmed
    else Uncertain
  }

  function ClassicalOnly(d: Detection, model: Option<string>, fallback: bool, p: DecisionPolicy): HybridDecision {
    HybridDecision(d.sampleId, d.prediction, d.confidence, false, model, None, None,
                   ClassicalOnlyStatus(d.prediction, d.confidence, p),
                   Basis(d.anomaly, d.disagreement, None, false, fallback, false))
  }

  function Larger(a: real, b: real): real {
    if a >= b then a else b
  }

  function SureStatus(prediction: string): DecisionStatus {
    if prediction == NORMAL then Normal else Confirmed
  }

  function WithQuantum(d: Detection, q: QuantumResult, p: DecisionPolicy): HybridDecision
    requires q.prediction.Some? && q.confidence.Some?
  {
    var prediction, confidence := q.prediction.value, q.confidence.value;
    if prediction == d.prediction then
      HybridDecision(d.sampleId, d.prediction, Larger(d.confidence, confidence), true, Some(q.model), q.prediction, q.confidence,
                     SureStatus(d.prediction), Basis(d.anomaly, d.disagreement, Some(true), false, false, false))
    else if confidence >= p.quantumOverride then
      HybridDecision(d.sampleId, prediction, confidence, true, Some(q.model), q.prediction, q.confidence,
                     SureStatus(prediction), Basis(d.anomaly, d.disagreement, Some(false), prediction != d.prediction, false, true))
    else
      HybridDecision(d.sampleId, d.prediction, d.confidence, true, Some(q.model), q.prediction, q.confidence,
                     Uncertain, Basis(d.anomaly, d.disagreement, Some(false), false, false, false))
  }

  function BuildHybridDecision(d: Detection, r: RoutingDecision, p: DecisionPolicy): Built {
    if r.status == Pending || d.sampleId != r.sampleId then Raised
    else if r.status == NotInvoked then Built(ClassicalOnly(d, None, false, p))
    else if r.status == Fallback then Built(ClassicalOnly(d, r.backend, true, p))
    else if r.result.Some? && r.result.value.success && r.result.value.prediction.Some? && r.result.value.confidence.Some? then
      Built(WithQuantum(d, r.result.value, p))
    else Raised
  }

  // Theorem: for a routing decision that its contract accepts, building raises exactly when the
  // decision is pending, is for another sample, or claims success with a failed result; the
  // contract alone does not rule the last one out, the router does.
  lemma RaisesExactly(d: Detection, r: RoutingDecision, p: DecisionPolicy)
    requires IsLegalDecision(r) && (r.result.Some? ==> IsLegalResult(r.result.value))
    ensures BuildHybridDecision(d, r, p).Raised?
      <==> r.status == Pending || d.sampleId != r.sampleId || (r.status == Success && !r.result.value.success)
    ensures IsReady(r) && d.sampleId == r.sampleId ==> BuildHybridDecision(d, r, p).Built?
  {
  }

  lemma ContractAllowsFailedSuccess()
    ensures exists r: RoutingDecision ::
      IsLegalDecision(r) && r.status == Success && r.result.Some? && IsLegalResult(r.result.value) && !r.result.value.success
  {
    var q := QuantumResult("s", "VQC", false, None, None, Some("no answer"));
    var r := RoutingDecision("s", Success, true, [], Some("VQC"), CircuitBreaker.CLOSED, true, true, Some(q), false, None, Some(0));
    assert IsLegalDecision(r) && r.status == Success && r.result.Some? && IsLegalResult(r.result.value) && !r.result.value.success;
  }

  // A classical and a quantum prediction differ, and quantum was not sure enough to overrule.
  predicate IsUnresolved(h: HybridDecision) {
    h.basis.agreement == Some(false) && !h.basis.overrideApplied
  }

  // A quantum answer is in hand.
  predicate IsAnswered(r: RoutingDecision) {
    r.status == Success && r.result.Some? && r.result.value.prediction.Some? && r.result.value.confidence.Some?
  }

  // The quantum answer differs and is sure enough to overrule.
  predicate Overrules(d: Detection, r: RoutingDecision, p: DecisionPolicy) {
    IsAnswered(r) && r.result.value.prediction.value != d.prediction && r.result.value.confidence.value >= p.quantumOverride
  }

  // Whose word the decision takes, how sure it is, and what it records.
  predicate IsWordOf(h: HybridDecision, d: Detection, r: RoutingDecision, p: DecisionPolicy) {
    && h.prediction == (if IsAnswered(r) && r.result.value.confidence.value >= p.quantumOverride then r.result.value.prediction.value else d.prediction)
    && (h.confidence == d.confidence || (IsAnswered(r) && h.confidence == r.result.value.confidence.value))
    && (!IsAnswered(r) ==> h.confidence == d.confidence)
    && (IsAnswered(r) && r.result.value.prediction.value == d.prediction ==>
          h.confidence >= d.confidence && h.confidence >= r.result.value.confidence.value)
    && (IsAnswered(r) && r.result.value.prediction.value != d.prediction ==>
          h.confidence == if Overrules(d, r, p) then r.result.value.confidence.value else d.confidence)
    && (h.basis.overrideApplied <==> Overrules(d, r, p))
    && (h.basis.fallbackUsed <==> r.status == Fallback)
    && (h.quantumUsed <==> IsAnswered(r))
    && (IsAnswered(r) ==>
          && h.model == Some(r.result.value.model)
          && h.quantumPrediction == r.result.value.prediction && h.quantumConfidence == r.result.value.confidence
          && h.basis.agreement == Some(r.result.value.prediction.value == d.prediction))
    && (!IsAnswered(r) ==> h.quantumPrediction.None? && h.quantumConfidence.None? && h.model == if r.status == Fallback then r.backend else None)
  }

  // Theorem: a built decision takes the quantum prediction exactly when the answer is sure enough,
  // the larger confidence where both agree, and otherwise the confidence of the side it takes.
  lemma BuiltIsWordOf(d: Detection, r: RoutingDecision, p: DecisionPolicy)
    requires BuildHybridDecision(d, r, p).Built?
    ensures IsWordOf(BuildHybridDecision(d, r, p).decision, d, r, p)
  {
  }

  // What every built decision satisfies.
  predicate IsCoherent(h: HybridDecision, d: Detection, p: DecisionPolicy) {
    && h.sampleId == d.sampleId && h.basis.anomaly == d.anomaly && h.basis.disagreement == d.disagreement
    && !(IsUnresolved(h) && h.basis.fallbackUsed)
    && (h.quantumUsed <==> h.basis.agreement.Some?) && (h.quantumUsed ==> h.quantumPrediction.Some? && h.quantumConfidence.Some?)
    && (h.basis.fallbackUsed ==> !h.quantumUsed)
    && (h.basis.changedByQuantum <==> h.quantumUsed && h.prediction != d.prediction)
  }

  // Theorem: every decision built from legal inputs is legal and coherent.
  lemma BuiltIsSound(d: Detection, r: RoutingDecision, p: DecisionPolicy)
    requires IsLegalDetection(d) && (r.result.Some? ==> IsLegalResult(r.result.value))
    requires BuildHybridDecision(d, r, p).Built?
    ensures IsLegalHybrid(BuildHybridDecision(d, r, p).decision)
    ensures IsCoherent(BuildHybridDecision(d, r, p).decision, d, p)
  {
  }

  // Theorem: the three statuses mean what they are documented to mean.
  lemma StatusMeans(d: Detection, r: RoutingDecision, p: DecisionPolicy)
    requires BuildHybridDecision(d, r, p).Built?
    ensures var h := BuildHybridDecision(d, r, p).decision;
      && (h.status == Normal <==> h.prediction == NORMAL && !IsUnresolved(h))
      && (h.status == Uncertain <==> IsUnresolved(h) || (!h.quantumUsed && h.prediction != NORMAL && d.confidence < p.classicalHighConfidence))
      && (h.status == Confirmed <==> h.prediction != NORMAL && !IsUnresolved(h) && (h.quantumUsed || d.confidence >= p.classicalHighConfidence))
  {
  }
}
