/** Risk arithmetic over the reals: weighted threat evidence and system uncertainty, thresholds and
    the floor for a confirmed attack. */
module RiskEngine {
  import opened Wrappers
  import opened Assessments
  import opened RoutingContracts
  import opened HybridEngine

  datatype RiskPolicy = RiskPolicy(
    threat: real, uncertainty: real,                            // combination weights
    classical: real, quantum: real, anomaly: real,              // threat evidence weights
    disagreement: real, conflict: real, fallback: real,         // system uncertainty weights
    lowMax: real, mediumMax: real, highMax: real,
    confirmedMin: RiskLevel)

  // What loading checks, without its tolerance.
  predicate SumsToOne(p: RiskPolicy) {
    && p.threat + p.uncertainty == 1.0
    && p.classical + p.quantum + p.anomaly == 1.0
    && p.disagreement + p.conflict + p.fallback == 1.0
  }

  predicate IsSensible(p: RiskPolicy) {
    && SumsToOne(p)
    && p.threat >= 0.0 && p.uncertainty >= 0.0
    && p.classical >= 0.0 && p.quantum >= 0.0 && p.anomaly >= 0.0
    && p.disagreement >= 0.0 && p.conflict >= 0.0 && p.fallback >= 0.0
    && p.lowMax <= p.mediumMax <= p.highMax
  }

  // Everything the score depends on.
  datatype Inputs = Inputs(classical: real, quantum: real, anomaly: real, disagreement: real, conflict: bool, fallback: bool)

  predicate AreProbabilities(x: Inputs) {
    IsProbability(x.classical) && IsProbability(x.quantum) && IsProbability(x.anomaly) && IsProbability(x.disagreement)
  }

  function Indicator(b: bool): real {
    if b then 1.0 else 0.0
  }

  function InputsOf(d: Detection, h: HybridDecision): Inputs {
    Inputs(
      if ATTACK in d.probabilities then d.probabilities[ATTACK] else 0.0,
      if h.quantumUsed && h.quantumPrediction.Some? && h.quantumConfidence.Some? then
        (if h.quantumPrediction.value == ATTACK then h.quantumConfidence.value else 1.0 - h.quantumConfidence.value)
      else 0.0,
      h.basis.anomaly, h.basis.disagreement, IsUnresolved(h), h.basis.fallbackUsed)
  }

  function Clamp(x: real): real {
    var low := if x > 0.0 then x else 0.0;
    if low < 1.0 then low else 1.0
  }

  function Weighted(w: real, x: real): real {
    w * x
  }

  function RawThreat(x: Inputs, p: RiskPolicy): real {
    Weighted(p.classical, x.classical) + Weighted(p.quantum, x.quantum) + Weighted(p.anomaly, x.anomaly)
  }

  function RawUncertainty(x: Inputs, p: RiskPolicy): real {
    Weighted(p.disagreement, x.disagreement) + Weighted(p.conflict, Indicator(x.conflict)) + Weighted(p.fallback, Indicator(x.fallback))
  }

  function RawScore(x: Inputs, p: RiskPolicy): real {
    Weighted(p.threat, Clamp(RawThreat(x, p))) + Weighted(p.uncertainty, Clamp(RawUncertainty(x, p)))
  }

  function Score(x: Inputs, p: RiskPolicy): real {
    Clamp(RawScore(x, p))
  }

  function LevelFromScore(score: real, p: RiskPolicy): RiskLevel {
    if score < p.lowMax then LOW
    else if score < p.mediumMax then MEDIUM
    else if score < p.highMax then HIGH
    else CRITICAL
  }

  function MaxLevel(a: RiskLevel, b: RiskLevel): RiskLevel {
    if Severity(a) >= Severity(b) then a else b
  }

  predicate IsConfirmedAttack(h: HybridDecision) {
    h.status == Confirmed && h.prediction == ATTACK
  }

  datatype RiskReason =
    | CONFIRMED_ATTACK
    | UNRESOLVED_QUANTUM_CONFLICT
    | QUANTUM_FALLBACK_UNCERTAINTY
    | HIGH_ANOMALY_SCORE
    | HIGH_MODEL_DISAGREEMENT
    | RISK_FLOOR_APPLIED
    | NO_SIGNIFICANT_RISK_FACTORS

  datatype RiskAssessment = RiskAssessment(
    sampleId: string,
    level: RiskLevel,
    score: real,
    threatScore: real,
    uncertaintyScore: real,
    reasons: seq<RiskReason>,
    floorApplied: bool)

  predicate IsLegalAssessment(a: RiskAssessment) {
    IsProbability(a.score) && IsProbability(a.threatScore) && IsProbability(a.uncertaintyScore)
  }

  predicate Explains(r: RiskReason, d: Detection, h: HybridDecision, floor: bool) {
    match r
    case CONFIRMED_ATTACK => IsConfirmedAttack(h)
    case UNRESOLVED_QUANTUM_CONFLICT => IsUnresolved(h)
    case QUANTUM_FALLBACK_UNCERTAINTY => h.basis.fallbackUsed
    case HIGH_ANOMALY_SCORE => h.basis.anomaly >= 0.7
    case HIGH_MODEL_DISAGREEMENT => h.basis.disagreement >= 0.3
    case RISK_FLOOR_APPLIED => floor
    case NO_SIGNIFICANT_RISK_FACTORS => false
  }

  method ReasonCodes(d: Detection, h: HybridDecision, floor: bool) returns (reasons: seq<RiskReason>)
    ensures forall r :: r != NO_SIGNIFICANT_RISK_FACTORS ==> (r in reasons <==> Explains(r, d, h, floor))
    ensures reasons != [] && (NO_SIGNIFICANT_RISK_FACTORS in reasons <==> forall r :: !Explains(r, d, h, floor))
  {
    hide IsUnresolved;
    reasons := [];
    if IsConfirmedAttack(h) { reasons := reasons + [CONFIRMED_ATTACK]; }
    if IsUnresolved(h) { reasons := reasons + [UNRESOLVED_QUANTUM_CONFLICT]; }
    if h.basis.fallbackUsed { reasons := reasons + [QUANTUM_FALLBACK_UNCERTAINTY]; }
    if h.basis.anomaly >= 0.7 { reasons := reasons + [HIGH_ANOMALY_SCORE]; }
    if h.basis.disagreement >= 0.3 { reasons := reasons + [HIGH_MODEL_DISAGREEMENT]; }
    if floor { reasons := reasons + [RISK_FLOOR_APPLIED]; }
    assert forall r :: r in reasons <==> Explains(r, d, h, floor);
    if reasons == [] {
      reasons := [NO_SIGNIFICANT_RISK_FACTORS];
    } else {
      assert reasons[0] in reasons;
    }
  }

  // The level is the score's, raised to the floor for a confirmed attack.
  function FinalLevel(h: HybridDecision, score: real, p: RiskPolicy): (r: RiskLevel)
    ensures Severity(r) >= Severity(LevelFromScore(score, p))
    ensures IsConfirmedAttack(h) ==> Severity(r) >= Severity(p.confirmedMin)
  {
    if IsConfirmedAttack(h) then MaxLevel(LevelFromScore(score, p), p.confirmedMin) else LevelFromScore(score, p)
  }

  // The level counts the thresholds that the score has reached.
  lemma LevelCounts(score: real, p: RiskPolicy)
    requires p.lowMax <= p.mediumMax <= p.highMax
    ensures Severity(LevelFromScore(score, p)) == One(score >= p.lowMax) + One(score >= p.mediumMax) + One(score >= p.highMax)
  {
  }

  // Theorem: the floor moves a level exactly for an attack that is confirmed and scored below it,
  // and then to the floor itself.
  lemma FloorExactly(h: HybridDecision, score: real, p: RiskPolicy)
    ensures FinalLevel(h, score, p) != LevelFromScore(score, p)
      <==> h.status == Confirmed && h.prediction == ATTACK && Severity(LevelFromScore(score, p)) < Severity(p.confirmedMin)
    ensures FinalLevel(h, score, p) == LevelFromScore(score, p) || FinalLevel(h, score, p) == p.confirmedMin
  {
  }

  method AssessRisk(d: Detection, h: HybridDecision, p: RiskPolicy) returns (a: RiskAssessment)
    ensures IsLegalAssessment(a) && a.sampleId == h.sampleId
    ensures a.score == Score(InputsOf(d, h), p) && a.level == FinalLevel(h, a.score, p)
    ensures a.floorApplied <==> a.level != LevelFromScore(a.score, p)
    ensures a.floorApplied
      <==> h.status == Confirmed && h.prediction == ATTACK && Severity(LevelFromScore(a.score, p)) < Severity(p.confirmedMin)
    ensures a.threatScore == Clamp(RawThreat(InputsOf(d, h), p)) && a.uncertaintyScore == Clamp(RawUncertainty(InputsOf(d, h), p))
    ensures forall r :: r != NO_SIGNIFICANT_RISK_FACTORS ==> (r in a.reasons <==> Explains(r, d, h, a.floorApplied))
    ensures a.reasons != [] && (NO_SIGNIFICANT_RISK_FACTORS in a.reasons <==> forall r :: !Explains(r, d, h, a.floorApplied))
  {
    hide Weighted, RawThreat, RawUncertainty, InputsOf, Explains;
    var x := InputsOf(d, h);
    var threat, uncertainty := Clamp(RawThreat(x, p)), Clamp(RawUncertainty(x, p));
    var score := Clamp(Weighted(p.threat, threat) + Weighted(p.uncertainty, uncertainty));
    var computed := LevelFromScore(score, p);
    var level, floor := computed, false;
    if IsConfirmedAttack(h) {
      var floored := MaxLevel(computed, p.confirmedMin);
      if floored != computed {
        floor := true;
      }
      level := floored;
    }
    var reasons := ReasonCodes(d, h, floor);
    a := RiskAssessment(h.sampleId, level, score, threat, uncertainty, reasons, floor);
  }

  // ---- The clamps --------------------------------------------------------------------------------

  lemma Scaled(w: real, x: real, y: real)
    requires w >= 0.0 && x <= y
    ensures Weighted(w, x) <= Weighted(w, y)
  {
  }

  lemma Unit(w: real)
    ensures Weighted(w, 0.0) == 0.0 && Weighted(w, 1.0) == w
  {
  }

  lemma Within(w: real, x: real)
    requires w >= 0.0 && IsProbability(x)
    ensures 0.0 <= Weighted(w, x) <= w
  {
  }

  lemma InputsAreProbabilities(d: Detection, h: HybridDecision)
    requires IsLegalDetection(d) && IsLegalHybrid(h) && IsProbability(h.basis.anomaly) && IsProbability(h.basis.disagreement)
    ensures AreProbabilities(InputsOf(d, h))
  {
  }

  lemma RawsAreProbabilities(x: Inputs, p: RiskPolicy)
    requires IsSensible(p) && AreProbabilities(x)
    ensures IsProbability(RawThreat(x, p)) && IsProbability(RawUncertainty(x, p))
    ensures !(x.conflict && x.fallback) ==> RawUncertainty(x, p) <= Weighted(p.disagreement, x.disagreement) + Larger(p.conflict, p.fallback)
  {
    hide Weighted;
    Within(p.classical, x.classical);
    Within(p.quantum, x.quantum);
    Within(p.anomaly, x.anomaly);
    Within(p.disagreement, x.disagreement);
    Unit(p.conflict);
    Unit(p.fallback);
  }

  // Theorem: with non-negative weights that sum to one, no clamp ever changes a value.
  lemma ClampsIdle(x: Inputs, p: RiskPolicy)
    requires IsSensible(p) && AreProbabilities(x)
    ensures Clamp(RawThreat(x, p)) == RawThreat(x, p)
    ensures Clamp(RawUncertainty(x, p)) == RawUncertainty(x, p)
    ensures Score(x, p) == Weighted(p.threat, RawThreat(x, p)) + Weighted(p.uncertainty, RawUncertainty(x, p))
  {
    hide RawThreat, RawUncertainty, Weighted;
    RawsAreProbabilities(x, p);
    Within(p.threat, RawThreat(x, p));
    Within(p.uncertainty, RawUncertainty(x, p));
  }

  // ---- Monotonicity ---------------------------------------------------------------------------------

  predicate IsBelow(x: Inputs, y: Inputs) {
    && x.classical <= y.classical && x.quantum <= y.quantum && x.anomaly <= y.anomaly && x.disagreement <= y.disagreement
    && (x.conflict ==> y.conflict) && (x.fallback ==> y.fallback)
  }

  // Theorem: more evidence of any kind never lowers the score or the level.
  lemma ScoreMonotone(x: Inputs, y: Inputs, p: RiskPolicy)
    requires IsSensible(p) && IsBelow(x, y)
    ensures Score(x, p) <= Score(y, p)
    ensures Severity(LevelFromScore(Score(x, p), p)) <= Severity(LevelFromScore(Score(y, p), p))
  {
    hide Weighted;
    Scaled(p.classical, x.classical, y.classical);
    Scaled(p.quantum, x.quantum, y.quantum);
    Scaled(p.anomaly, x.anomaly, y.anomaly);
    Scaled(p.disagreement, x.disagreement, y.disagreement);
    Scaled(p.conflict, Indicator(x.conflict), Indicator(y.conflict));
    Scaled(p.fallback, Indicator(x.fallback), Indicator(y.fallback));
    assert RawThreat(x, p) <= RawThreat(y, p) && RawUncertainty(x, p) <= RawUncertainty(y, p);
    hide RawThreat, RawUncertainty;
    Scaled(p.threat, Clamp(RawThreat(x, p)), Clamp(RawThreat(y, p)));
    Scaled(p.uncertainty, Clamp(RawUncertainty(x, p)), Clamp(RawUncertainty(y, p)));
  }

  // ---- What uncertainty can do --------------------------------------------------------------------

  // Theorem: for a built decision, conflict and fallback never add up, so uncertainty contributes
  // at most its weight times disagreement and the larger of the two.
  lemma UncertaintyBound(d: Detection, r: RoutingDecision, dp: DecisionPolicy, p: RiskPolicy)
    requires IsSensible(p) && IsLegalDetection(d) && (r.result.Some? ==> IsLegalResult(r.result.value))
    requires BuildHybridDecision(d, r, dp).Built?
    ensures var x := InputsOf(d, BuildHybridDecision(d, r, dp).decision);
      && AreProbabilities(x) && !(x.conflict && x.fallback)
      && Score(x, p) <= Weighted(p.threat, RawThreat(x, p)) + Weighted(p.uncertainty, Weighted(p.disagreement, d.disagreement) + Larger(p.conflict, p.fallback))
  {
    BuiltIsSound(d, r, dp);
    var h := BuildHybridDecision(d, r, dp).decision;
    InputsAreProbabilities(d, h);
    var x := InputsOf(d, h);
    hide Weighted, RawThreat, RawUncertainty, Score, BuildHybridDecision, Larger;
    RawsAreProbabilities(x, p);
    ClampsIdle(x, p);
    Scaled(p.uncertainty, RawUncertainty(x, p), Weighted(p.disagreement, x.disagreement) + Larger(p.conflict, p.fallback));
  }

  predicate HasNoThreat(x: Inputs) {
    x.classical == x.quantum == x.anomaly == 0.0
  }

  // The most that uncertainty alone can score.
  function MostUncertain(p: RiskPolicy): real {
    Weighted(p.uncertainty, p.disagreement + Larger(p.conflict, p.fallback))
  }

  lemma UncertaintyOnlyScore(x: Inputs, p: RiskPolicy)
    requires IsSensible(p) && AreProbabilities(x) && !(x.conflict && x.fallback) && HasNoThreat(x)
    ensures Score(x, p) == Weighted(p.uncertainty, RawUncertainty(x, p)) <= MostUncertain(p)
  {
    hide Weighted, Score;
    ClampsIdle(x, p);
    Unit(p.classical);
    Unit(p.quantum);
    Unit(p.anomaly);
    Unit(p.threat);
    Within(p.disagreement, x.disagreement);
    RawsAreProbabilities(x, p);
    Scaled(p.uncertainty, RawUncertainty(x, p), p.disagreement + Larger(p.conflict, p.fallback));
  }

  // What a caller can hand to the assessment: a legal detection and a resolved routing decision
  // for the same sample.
  predicate IsCase(d: Detection, r: RoutingDecision) {
    IsLegalDetection(d) && IsReady(r) && d.sampleId == r.sampleId
  }

  // The evidence the score sees, once the hybrid decision is built.
  function EvidenceOf(d: Detection, r: RoutingDecision, dp: DecisionPolicy): Inputs
    requires IsCase(d, r)
  {
    RaisesExactly(d, r, dp);
    InputsOf(d, BuildHybridDecision(d, r, dp).decision)
  }

  lemma EvidenceIsSound(d: Detection, r: RoutingDecision, dp: DecisionPolicy)
    requires IsCase(d, r)
    ensures AreProbabilities(EvidenceOf(d, r, dp)) && !(EvidenceOf(d, r, dp).conflict && EvidenceOf(d, r, dp).fallback)
    ensures EvidenceOf(d, r, dp).fallback ==> EvidenceOf(d, r, dp).quantum == 0.0
  {
    RaisesExactly(d, r, dp);
    BuiltIsSound(d, r, dp);
    InputsAreProbabilities(d, BuildHybridDecision(d, r, dp).decision);
  }

  predicate ReachesHigh(x: Inputs, p: RiskPolicy) {
    Severity(LevelFromScore(Score(x, p), p)) >= Severity(HIGH)
  }

  // All threat evidence at the same strength, and full uncertainty: an unresolved conflict, or a
  // fallback without a quantum opinion.
  function ConflictAt(level: real): Inputs {
    Inputs(level, level, level, 1.0, true, false)
  }

  function FallbackAt(level: real): Inputs {
    Inputs(level, 0.0, level, 1.0, false, true)
  }

  const PLAIN := DecisionPolicy(0.9, 1.0)

  // A quantum opinion that conflicts without being sure enough to overrule.
  lemma ConflictIsReal(level: real) returns (d: Detection, r: RoutingDecision)
    requires IsProbability(level)
    ensures IsCase(d, r) && EvidenceOf(d, r, PLAIN) == ConflictAt(level)
  {
    var quantum, classical := if level < 1.0 then ATTACK else NORMAL, if level < 1.0 then NORMAL else ATTACK;
    d := Detection("s", classical, 0.5, map[ATTACK := level], level, 1.0);
    var q := QuantumResult("s", "VQC", true, Some(quantum), Some(if level < 1.0 then level else 0.0), None);
    r := RoutingDecision("s", Success, true, [], Some("VQC"), CircuitBreaker.CLOSED, true, true, Some(q), false, None, Some(0));
  }

  lemma FallbackIsReal(level: real) returns (d: Detection, r: RoutingDecision)
    requires IsProbability(level)
    ensures IsCase(d, r) && EvidenceOf(d, r, PLAIN) == FallbackAt(level)
  {
    d := Detection("s", ATTACK, 0.5, map[ATTACK := level], level, 1.0);
    r := RoutingDecision("s", Fallback, true, [], Some("VQC"), CircuitBreaker.OPEN, false, false, None, true, Some(CIRCUIT_OPEN), None);
  }

  // Theorem: over all decisions that can be built, uncertainty by itself never reaches HIGH exactly
  // when the policy keeps its largest possible contribution below the HIGH threshold.
  lemma UncertaintyAlone(p: RiskPolicy)
    requires IsSensible(p)
    ensures (forall d, r, dp :: IsCase(d, r) && HasNoThreat(EvidenceOf(d, r, dp)) ==> !ReachesHigh(EvidenceOf(d, r, dp), p))
      <==> MostUncertain(p) < p.mediumMax
  {
    hide Weighted, Score, EvidenceOf, IsCase, RawUncertainty;
    var worst := if p.conflict >= p.fallback then ConflictAt(0.0) else FallbackAt(0.0);
    UncertaintyOnlyScore(worst, p);
    WorstUncertainty(p);
    if MostUncertain(p) < p.mediumMax {
      forall d, r, dp | IsCase(d, r) && HasNoThreat(EvidenceOf(d, r, dp)) ensures !ReachesHigh(EvidenceOf(d, r, dp), p) {
        EvidenceIsSound(d, r, dp);
        UncertaintyOnlyScore(EvidenceOf(d, r, dp), p);
      }
    } else {
      var d, r := ConflictIsReal(0.0);
      if p.conflict < p.fallback {
        d, r := FallbackIsReal(0.0);
      }
      assert EvidenceOf(d, r, PLAIN) == worst && ReachesHigh(worst, p);
    }
  }

  lemma WorstUncertainty(p: RiskPolicy)
    ensures RawUncertainty(ConflictAt(0.0), p) == p.disagreement + p.conflict
    ensures RawUncertainty(FallbackAt(0.0), p) == p.disagreement + p.fallback
  {
  }

  // ---- Whether threat evidence alone carries the score ----------------------------------------------

  function ThreatShare(x: Inputs, p: RiskPolicy): real {
    Weighted(p.threat, RawThreat(x, p))
  }

  function UncertaintyShare(x: Inputs, p: RiskPolicy): real {
    Weighted(p.uncertainty, RawUncertainty(x, p))
  }

  // The score is HIGH or more, and without the uncertainty it would not be.
  predicate IsCarriedByUncertainty(x: Inputs, p: RiskPolicy) {
    ReachesHigh(x, p) && ThreatShare(x, p) < p.mediumMax
  }

  lemma ShareSum(x: Inputs, p: RiskPolicy)
    requires IsSensible(p) && AreProbabilities(x)
    ensures Score(x, p) == ThreatShare(x, p) + UncertaintyShare(x, p)
  {
    hide Weighted, RawThreat, RawUncertainty, Score;
    ClampsIdle(x, p);
  }

  // Theorem: this happens exactly when the threshold lies between the threat share and the sum.
  lemma CarriedExactly(x: Inputs, p: RiskPolicy)
    requires IsSensible(p) && AreProbabilities(x)
    ensures IsCarriedByUncertainty(x, p) <==> ThreatShare(x, p) < p.mediumMax <= ThreatShare(x, p) + UncertaintyShare(x, p)
  {
    hide ThreatShare, UncertaintyShare, Score;
    ShareSum(x, p);
  }

  // Threat evidence up to t and uncertainty up to u can put the threshold between them.
  predicate Straddles(t: real, u: real, m: real) {
    m > 0.0 && u > 0.0 && t + u >= m
  }

  // The largest shares: of all threat evidence, of the part a fallback leaves, and of uncertainty
  // with a conflict or with a fallback.
  function FallbackThreat(p: RiskPolicy): real {
    Weighted(p.threat, p.classical + p.anomaly)
  }

  predicate PolicyStraddles(p: RiskPolicy) {
    || Straddles(p.threat, Weighted(p.uncertainty, p.disagreement + p.conflict), p.mediumMax)
    || Straddles(FallbackThreat(p), Weighted(p.uncertainty, p.disagreement + p.fallback), p.mediumMax)
  }

  lemma SharesBounded(x: Inputs, p: RiskPolicy)
    requires IsSensible(p) && AreProbabilities(x) && !(x.conflict && x.fallback) && (x.fallback ==> x.quantum == 0.0)
    ensures 0.0 <= ThreatShare(x, p) <= if x.fallback then FallbackThreat(p) else p.threat
    ensures 0.0 <= UncertaintyShare(x, p) <= Weighted(p.uncertainty, p.disagreement + if x.fallback then p.fallback else p.conflict)
  {
    hide Weighted;
    Within(p.classical, x.classical);
    Within(p.quantum, x.quantum);
    Within(p.anomaly, x.anomaly);
    Within(p.disagreement, x.disagreement);
    Unit(p.quantum);
    Unit(p.conflict);
    Unit(p.fallback);
    Unit(p.threat);
    Unit(p.uncertainty);
    var t, u := if x.fallback then p.classical + p.anomaly else 1.0, p.disagreement + if x.fallback then p.fallback else p.conflict;
    assert 0.0 <= RawThreat(x, p) <= t && 0.0 <= RawUncertainty(x, p) <= u;
    Scaled(p.threat, 0.0, RawThreat(x, p));
    Scaled(p.threat, RawThreat(x, p), t);
    Scaled(p.uncertainty, 0.0, RawUncertainty(x, p));
    Scaled(p.uncertainty, RawUncertainty(x, p), u);
  }

  // A strength at which evidence worth up to t stays below m and reaches it with u.
  lemma StrengthBelow(t: real, u: real, m: real) returns (level: real)
    requires t >= 0.0 && Straddles(t, u, m)
    ensures IsProbability(level) && Weighted(level, t) < m <= Weighted(level, t) + u
  {
    if m <= u {
      level := 0.0;
    } else {
      level := (m - u) / t;
      assert Weighted(level, t) == m - u;
    }
  }

  lemma SharesAt(level: real, p: RiskPolicy)
    requires IsSensible(p)
    ensures ThreatShare(ConflictAt(level), p) == Weighted(level, p.threat)
    ensures ThreatShare(FallbackAt(level), p) == Weighted(level, FallbackThreat(p))
    ensures UncertaintyShare(ConflictAt(level), p) == Weighted(p.uncertainty, p.disagreement + p.conflict)
    ensures UncertaintyShare(FallbackAt(level), p) == Weighted(p.uncertainty, p.disagreement + p.fallback)
  {
    assert RawThreat(ConflictAt(level), p) == (p.classical + p.quantum + p.anomaly) * level == level;
    assert RawThreat(FallbackAt(level), p) == (p.classical + p.anomaly) * level;
    assert RawUncertainty(ConflictAt(level), p) == p.disagreement + p.conflict;
    assert RawUncertainty(FallbackAt(level), p) == p.disagreement + p.fallback;
  }

  // Theorem: some decision that can be built reaches HIGH although its threat evidence does not
  // carry the score there, exactly when the policy's largest shares allow it.
  lemma CarriedByUncertainty(p: RiskPolicy)
    requires IsSensible(p)
    ensures (exists d, r, dp :: IsCase(d, r) && IsCarriedByUncertainty(EvidenceOf(d, r, dp), p)) <==> PolicyStraddles(p)
  {
    hide Weighted, IsCase, EvidenceOf, ThreatShare, UncertaintyShare, IsCarriedByUncertainty, FallbackThreat;
    forall d, r, dp | IsCase(d, r) && IsCarriedByUncertainty(EvidenceOf(d, r, dp), p) ensures PolicyStraddles(p) {
      var x := EvidenceOf(d, r, dp);
      EvidenceIsSound(d, r, dp);
      CarriedExactly(x, p);
      SharesBounded(x, p);
    }
    if Straddles(p.threat, Weighted(p.uncertainty, p.disagreement + p.conflict), p.mediumMax) {
      var level := StrengthBelow(p.threat, Weighted(p.uncertainty, p.disagreement + p.conflict), p.mediumMax);
      var d, r := ConflictIsReal(level);
      SharesAt(level, p);
      CarriedExactly(ConflictAt(level), p);
      assert IsCarriedByUncertainty(EvidenceOf(d, r, PLAIN), p);
    }
    if Straddles(FallbackThreat(p), Weighted(p.uncertainty, p.disagreement + p.fallback), p.mediumMax) {
      FallbackThreatPositive(p);
      var level := StrengthBelow(FallbackThreat(p), Weighted(p.uncertainty, p.disagreement + p.fallback), p.mediumMax);
      var d, r := FallbackIsReal(level);
      SharesAt(level, p);
      CarriedExactly(FallbackAt(level), p);
      assert IsCarriedByUncertainty(EvidenceOf(d, r, PLAIN), p);
    }
  }

  lemma FallbackThreatPositive(p: RiskPolicy)
    requires IsSensible(p)
    ensures FallbackThreat(p) >= 0.0
  {
    Scaled(p.threat, 0.0, p.classical + p.anomaly);
  }

  // The shipped policy, and a decision under it: attack probability 0.8, anomaly 0.9, the models in
  // full disagreement, and a quantum fallback.
  const SHIPPED := RiskPolicy(0.75, 0.25, 0.4, 0.3, 0.3, 0.34, 0.33, 0.33, 0.25, 0.5, 0.75, HIGH)
  const SUSPICIOUS := Detection("s", ATTACK, 0.8, map[ATTACK := 0.8, NORMAL := 0.2], 0.9, 1.0)
  const UNANSWERED := RoutingDecision("s", Fallback, true, [HIGH_ANOMALY, HIGH_DISAGREEMENT], Some("VQC"), CircuitBreaker.OPEN, false, false, None, true, Some(CIRCUIT_OPEN), None)

  lemma SuspiciousEvidence()
    ensures IsCase(SUSPICIOUS, UNANSWERED)
    ensures EvidenceOf(SUSPICIOUS, UNANSWERED, PLAIN) == Inputs(0.8, 0.0, 0.9, 1.0, false, true)
    ensures BuildHybridDecision(SUSPICIOUS, UNANSWERED, PLAIN).decision.status == Uncertain
  {
  }

  lemma ShippedShares()
    ensures IsSensible(SHIPPED) && MostUncertain(SHIPPED) == 0.1675
    ensures var x := Inputs(0.8, 0.0, 0.9, 1.0, false, true);
      AreProbabilities(x) && ThreatShare(x, SHIPPED) == 0.4425 && UncertaintyShare(x, SHIPPED) == 0.1675
  {
  }

  // Theorem: under the shipped policy uncertainty alone never reaches HIGH, but it does carry an
  // unconfirmed attack there whose threat evidence is below the threshold.
  lemma ShippedPolicy()
    ensures IsSensible(SHIPPED) && MostUncertain(SHIPPED) < SHIPPED.mediumMax && PolicyStraddles(SHIPPED)
    ensures IsCase(SUSPICIOUS, UNANSWERED)
    ensures var x, h := EvidenceOf(SUSPICIOUS, UNANSWERED, PLAIN), BuildHybridDecision(SUSPICIOUS, UNANSWERED, PLAIN).decision;
      && ThreatShare(x, SHIPPED) == 0.4425 && h.status == Uncertain && FinalLevel(h, Score(x, SHIPPED), SHIPPED) == HIGH
      && IsCarriedByUncertainty(x, SHIPPED)
  {
    hide Weighted, ThreatShare, UncertaintyShare, MostUncertain, Score, EvidenceOf, IsCase, BuildHybridDecision, IsSensible, AreProbabilities, IsCarriedByUncertainty, PolicyStraddles, RawThreat, RawUncertainty;
    SuspiciousEvidence();
    ShippedShares();
    var x := EvidenceOf(SUSPICIOUS, UNANSWERED, PLAIN);
    ShareSum(x, SHIPPED);
    CarriedExactly(x, SHIPPED);
    CarriedByUncertainty(SHIPPED);
  }

  // The same weights and thresholds with the two combination weights exchanged.
  const EXCHANGED := SHIPPED.(threat := 0.25, uncertainty := 0.75)

  lemma ExchangedShares()
    ensures IsSensible(EXCHANGED) && MostUncertain(EXCHANGED) == 0.5025
  {
  }

  // Theorem: under that policy, which loading accepts, a decision without any threat evidence
  // reaches HIGH.
  lemma ExchangedPolicy()
    ensures IsSensible(EXCHANGED)
    ensures exists d, r, dp :: IsCase(d, r) && HasNoThreat(EvidenceOf(d, r, dp)) && ReachesHigh(EvidenceOf(d, r, dp), EXCHANGED)
  {
    hide EvidenceOf, IsCase, ReachesHigh, MostUncertain, IsSensible, HasNoThreat;
    ExchangedShares();
    UncertaintyAlone(EXCHANGED);
  }

  // Theorem: with a floor of at most HIGH, an assessment is CRITICAL exactly when the unclamped
  // score itself reaches the threshold.
  lemma CriticalExactly(d: Detection, h: HybridDecision, p: RiskPolicy)
    requires IsSensible(p) && Severity(p.confirmedMin) <= Severity(HIGH)
    requires AreProbabilities(InputsOf(d, h))
    ensures FinalLevel(h, Score(InputsOf(d, h), p), p) == CRITICAL
      <==> Weighted(p.threat, RawThreat(InputsOf(d, h), p)) + Weighted(p.uncertainty, RawUncertainty(InputsOf(d, h), p)) >= p.highMax
  {
    hide Weighted, RawThreat, RawUncertainty, Score, InputsOf;
    ClampsIdle(InputsOf(d, h), p);
  }
}
