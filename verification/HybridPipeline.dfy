/** The hybrid pipeline: decision, risk and counters in one call, and what the counters add up to. */
module HybridPipelines {
  import opened Wrappers
  import opened Assessments
  import opened RoutingContracts
  import opened HybridEngine
  import opened RiskEngine

  datatype Counters = Counters(
    samples: nat,
    classicalPredictions: map<string, nat>,
    finalPredictions: map<string, nat>,
    risks: map<RiskLevel, nat>,
    invocations: nat,
    successes: nat,
    failures: nat,
    fallbacks: nat,
    agreements: nat,
    disagreements: nat,
    changes: nat)

  // One processed sample.
  datatype Sample = Sample(classical: string, decision: HybridDecision, level: RiskLevel)

  function Bump<T>(m: map<T, nat>, k: T): map<T, nat> {
    m[k := (if k in m then m[k] else 0) + 1]
  }

  function Plus(c: Counters, s: Sample): Counters {
    var b := s.decision.basis;
    var resolved := s.decision.quantumUsed && b.agreement.Some?;
    Counters(
      c.samples + 1,
      Bump(c.classicalPredictions, s.classical),
      Bump(c.finalPredictions, s.decision.prediction),
      Bump(c.risks, s.level),
      c.invocations + One(s.decision.quantumUsed || b.fallbackUsed),
      c.successes + One(resolved),
      c.failures + One(b.fallbackUsed),
      c.fallbacks + One(b.fallbackUsed),
      c.agreements + One(resolved && b.agreement == Some(true)),
      c.disagreements + One(resolved && b.agreement != Some(true)),
      c.changes + One(resolved && b.changedByQuantum))
  }

  class HybridMetrics {
    var c: Counters

    constructor ()
      ensures c == Counted([])
    {
      c := Counters(0, map[], map[], map[], 0, 0, 0, 0, 0, 0, 0);
    }

    method Record(s: Sample)
      modifies this
      ensures c == Plus(old(c), s)
    {
      var b := s.decision.basis;
      hide Bump;
      c := c.(samples := c.samples + 1, classicalPredictions := Bump(c.classicalPredictions, s.classical));
      c := c.(finalPredictions := Bump(c.finalPredictions, s.decision.prediction), risks := Bump(c.risks, s.level));
      if s.decision.quantumUsed || b.fallbackUsed {
        c := c.(invocations := c.invocations + 1);
      }
      if b.fallbackUsed {
        c := c.(failures := c.failures + 1, fallbacks := c.fallbacks + 1);
      }
      if s.decision.quantumUsed && b.agreement.Some? {
        c := c.(successes := c.successes + 1);
        if b.agreement.value {
          c := c.(agreements := c.agreements + 1);
        } else {
          c := c.(disagreements := c.disagreements + 1);
        }
        if b.changedByQuantum {
          c := c.(changes := c.changes + 1);
        }
      }
    }
  }

  function Counted(samples: seq<Sample>): Counters {
    if samples == [] then Counters(0, map[], map[], map[], 0, 0, 0, 0, 0, 0, 0)
    else Plus(Counted(samples[..|samples| - 1]), samples[|samples| - 1])
  }

  // The sample's decision was built from legal evidence.
  ghost predicate IsBuilt(s: Sample) {
    exists d: Detection, r: RoutingDecision, p: DecisionPolicy :: s.classical == d.prediction && BuildHybridDecision(d, r, p) == Built(s.decision)
  }

  // What the metrics rely on: a resolved answer is an agreement or a disagreement, never a
  // fallback, and only a disagreement can change the decision.
  predicate IsCountable(h: HybridDecision) {
    && (h.quantumUsed <==> h.basis.agreement.Some?)
    && (h.basis.fallbackUsed ==> !h.quantumUsed)
    && (h.basis.changedByQuantum ==> h.basis.agreement == Some(false))
  }

  lemma BuiltIsCountable(s: Sample)
    requires IsBuilt(s)
    ensures IsCountable(s.decision)
  {
  }

  function Count(samples: seq<Sample>, p: Sample -> bool): nat {
    if samples == [] then 0 else Count(samples[..|samples| - 1], p) + One(p(samples[|samples| - 1]))
  }

  function At<T>(m: map<T, nat>, k: T): nat {
    if k in m then m[k] else 0
  }

  // Theorem: every counter counts what it is named after; first the labels and levels ...
  lemma {:induction false} LabelsCount(samples: seq<Sample>, name: string, level: RiskLevel)
    ensures var c := Counted(samples);
      && c.samples == |samples|
      && At(c.classicalPredictions, name) == Count(samples, (s: Sample) => s.classical == name)
      && At(c.finalPredictions, name) == Count(samples, (s: Sample) => s.decision.prediction == name)
      && At(c.risks, level) == Count(samples, (s: Sample) => s.level == level)
    decreases |samples|
  {
    if samples != [] {
      LabelsCount(samples[..|samples| - 1], name, level);
    }
  }

  lemma OneAnswer(c: Counters, s: Sample)
    requires IsCountable(s.decision)
    ensures var b := s.decision.basis;
      && Plus(c, s).successes == c.successes + One(s.decision.quantumUsed)
      && Plus(c, s).failures == c.failures + One(b.fallbackUsed)
      && Plus(c, s).fallbacks == c.fallbacks + One(b.fallbackUsed)
      && Plus(c, s).agreements == c.agreements + One(b.agreement == Some(true))
      && Plus(c, s).disagreements == c.disagreements + One(b.agreement == Some(false))
      && Plus(c, s).changes == c.changes + One(b.changedByQuantum)
  {
    hide Bump;
    var agreement := s.decision.basis.agreement;
    assert agreement.Some? ==> agreement == Some(agreement.value) && (agreement.value || agreement == Some(false));
  }

  // ... then the quantum answers.
  lemma {:induction false} AnswersCount(samples: seq<Sample>)
    requires forall s :: s in samples ==> IsCountable(s.decision)
    ensures var c := Counted(samples);
      && c.successes == Count(samples, (s: Sample) => s.decision.quantumUsed)
      && c.failures == c.fallbacks == Count(samples, (s: Sample) => s.decision.basis.fallbackUsed)
      && c.agreements == Count(samples, (s: Sample) => s.decision.basis.agreement == Some(true))
      && c.disagreements == Count(samples, (s: Sample) => s.decision.basis.agreement == Some(false))
      && c.changes == Count(samples, (s: Sample) => s.decision.basis.changedByQuantum)
    decreases |samples|
  {
    hide Plus, IsCountable;
    if samples != [] {
      AnswersCount(samples[..|samples| - 1]);
      OneAnswer(Counted(samples[..|samples| - 1]), samples[|samples| - 1]);
    }
  }

  // Theorem: over any samples, every invocation is a success or a failure, every success an
  // agreement or a disagreement, and no more decisions changed than disagreements occurred.
  lemma {:induction false} HybridCountersConserved(samples: seq<Sample>)
    requires forall s :: s in samples ==> IsBuilt(s)
    ensures var c := Counted(samples);
      && c.samples == |samples|
      && c.invocations == c.successes + c.failures <= c.samples
      && c.failures == c.fallbacks
      && c.successes == c.agreements + c.disagreements
      && c.changes <= c.disagreements
    decreases |samples|
  {
    if samples != [] {
      HybridCountersConserved(samples[..|samples| - 1]);
      BuiltIsCountable(samples[|samples| - 1]);
    }
  }

  class HybridPipeline {
    const decisionPolicy: DecisionPolicy
    const riskPolicy: RiskPolicy
    const metrics: HybridMetrics

    constructor (decisionPolicy: DecisionPolicy, riskPolicy: RiskPolicy)
      ensures this.decisionPolicy == decisionPolicy && this.riskPolicy == riskPolicy && fresh(metrics) && metrics.c == Counted([])
    {
      this.decisionPolicy, this.riskPolicy := decisionPolicy, riskPolicy;
      metrics := new HybridMetrics();
    }

    // None where building the decision raises; then nothing is counted.
    method Process(d: Detection, r: RoutingDecision) returns (out: Option<(HybridDecision, RiskAssessment)>)
      requires IsLegalDetection(d) && (r.result.Some? ==> IsLegalResult(r.result.value))
      modifies metrics
      ensures out.None? <==> BuildHybridDecision(d, r, decisionPolicy).Raised?
      ensures out.None? ==> metrics.c == old(metrics.c)
      ensures out.Some? ==> Built(out.value.0) == BuildHybridDecision(d, r, decisionPolicy)
      ensures out.Some? ==> IsLegalHybrid(out.value.0) && IsLegalAssessment(out.value.1) && IsCoherent(out.value.0, d, decisionPolicy)
      ensures out.Some? ==> IsWordOf(out.value.0, d, r, decisionPolicy)
      ensures out.Some? ==> out.value.1.level == FinalLevel(out.value.0, Score(InputsOf(d, out.value.0), riskPolicy), riskPolicy)
      ensures out.Some? ==> metrics.c == Plus(old(metrics.c), Sample(d.prediction, out.value.0, out.value.1.level))
    {
      hide Plus, Score, FinalLevel, InputsOf, IsCoherent, IsLegalHybrid, IsWordOf;
      var built := BuildHybridDecision(d, r, decisionPolicy);
      if built.Raised? { return None; }
      BuiltIsSound(d, r, decisionPolicy);
      BuiltIsWordOf(d, r, decisionPolicy);
      var risk := AssessRisk(d, built.decision, riskPolicy);
      metrics.Record(Sample(d.prediction, built.decision, risk.level));
      out := Some((built.decision, risk));
    }
  }
}
