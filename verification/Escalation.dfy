/** The escalation rules: five conditions over the evidence, each enabled by the policy. */
module EscalationRules {
  import opened Wrappers
  import opened IncidentContracts
  import opened Assessments

  // The part of the five evidence objects the lifecycle looks at.
  datatype Evidence = Evidence(
    sampleId: string,
    invokeQuantum: bool,
    routingStatus: RoutingStatus,
    riskLevel: RiskLevel,
    decisionStatus: DecisionStatus,
    actionStatus: ActionStatus,
    recoveryStatus: RecoveryStatus,
    rollbackOccurred: bool)

  datatype Policy = Policy(
    onCriticalRisk: bool,
    onUnresolvedConflict: bool,
    onDefenseActionFailed: bool,
    onRecoveryFailed: bool,
    repeatedEnabled: bool,
    repeatedThreshold: int)

  // What the rules look at; there may be no defense result.
  datatype DefenseOutcome = DefenseOutcome(actionStatus: ActionStatus, recoveryStatus: RecoveryStatus)
  datatype Findings = Findings(riskLevel: RiskLevel, decisionStatus: DecisionStatus, defense: Option<DefenseOutcome>)

  function FindingsOf(e: Evidence): Findings {
    Findings(e.riskLevel, e.decisionStatus, Some(DefenseOutcome(e.actionStatus, e.recoveryStatus)))
  }

  predicate Holds(policy: Policy, f: Findings, repeated: nat, cause: Cause) {
    match cause
    case CRITICAL_RISK => policy.onCriticalRisk && f.riskLevel == CRITICAL
    case UNRESOLVED_QUANTUM_CONFLICT_AT_ELEVATED_RISK =>
      policy.onUnresolvedConflict && f.decisionStatus == Uncertain && (f.riskLevel == HIGH || f.riskLevel == CRITICAL)
    case DEFENSE_ACTION_FAILED => policy.onDefenseActionFailed && f.defense.Some? && f.defense.value.actionStatus == FAILED
    case RECOVERY_HAS_FAILED => policy.onRecoveryFailed && f.defense.Some? && f.defense.value.recoveryStatus == RecoveryFailure
    case REPEATED_INCIDENT_THRESHOLD_EXCEEDED => policy.repeatedEnabled && repeated >= policy.repeatedThreshold
  }

  // Some rule calls for escalation.
  predicate Escalates(policy: Policy, f: Findings, repeated: nat) {
    exists c :: Holds(policy, f, repeated, c)
  }

  const RULES := [CRITICAL_RISK, UNRESOLVED_QUANTUM_CONFLICT_AT_ELEVATED_RISK, DEFENSE_ACTION_FAILED, RECOVERY_HAS_FAILED, REPEATED_INCIDENT_THRESHOLD_EXCEEDED]

  // Of the first n rules, the causes that hold, in the order the rules are tried.
  function CausesAmong(policy: Policy, f: Findings, repeated: nat, n: nat): seq<Cause>
    requires n <= |RULES|
  {
    if n == 0 then []
    else CausesAmong(policy, f, repeated, n - 1) + if Holds(policy, f, repeated, RULES[n - 1]) then [RULES[n - 1]] else []
  }

  function CausesOf(policy: Policy, f: Findings, repeated: nat): seq<Cause> {
    CausesAmong(policy, f, repeated, |RULES|)
  }

  function Causes(policy: Policy, e: Evidence, repeated: nat): seq<Cause> {
    CausesOf(policy, FindingsOf(e), repeated)
  }

  lemma {:induction false} AmongExact(policy: Policy, f: Findings, repeated: nat, n: nat, c: Cause)
    requires n <= |RULES|
    ensures c in CausesAmong(policy, f, repeated, n) <==> c in RULES[..n] && Holds(policy, f, repeated, c)
  {
    hide Holds;
    if n > 0 {
      AmongExact(policy, f, repeated, n - 1, c);
      assert RULES[..n] == RULES[..n - 1] + [RULES[n - 1]];
    }
  }

  // A cause is listed exactly when its rule is enabled and its condition holds.
  lemma CausesExact(policy: Policy, f: Findings, repeated: nat, c: Cause)
    ensures c in CausesOf(policy, f, repeated) <==> Holds(policy, f, repeated, c)
  {
    hide Holds, CausesAmong;
    AmongExact(policy, f, repeated, |RULES|, c);
    EveryRule(c);
  }

  lemma EveryRule(c: Cause)
    ensures c in RULES[..|RULES|]
  {
    var i := match c
      case CRITICAL_RISK => 0
      case UNRESOLVED_QUANTUM_CONFLICT_AT_ELEVATED_RISK => 1
      case DEFENSE_ACTION_FAILED => 2
      case RECOVERY_HAS_FAILED => 3
      case REPEATED_INCIDENT_THRESHOLD_EXCEEDED => 4;
    assert RULES[i] == c && RULES[..|RULES|] == RULES;
  }

  // The result is independent of how it is collected: membership decides escalation.
  method EvaluateEscalation(f: Findings, repeated: nat, policy: Policy) returns (escalate: bool, reasons: seq<Cause>)
    ensures reasons == CausesOf(policy, f, repeated)
    ensures escalate <==> Escalates(policy, f, repeated)
  {
    hide CausesAmong;
    reasons := [];
    AmongNone(policy, f, repeated);
    AmongNext(policy, f, repeated, 0);
    if policy.onCriticalRisk && f.riskLevel == CRITICAL {
      reasons := reasons + [CRITICAL_RISK];
    }
    AmongNext(policy, f, repeated, 1);
    if policy.onUnresolvedConflict && f.decisionStatus == Uncertain && (f.riskLevel == HIGH || f.riskLevel == CRITICAL) {
      reasons := reasons + [UNRESOLVED_QUANTUM_CONFLICT_AT_ELEVATED_RISK];
    }
    AmongNext(policy, f, repeated, 2);
    AmongNext(policy, f, repeated, 3);
    if f.defense.Some? {
      if policy.onDefenseActionFailed && f.defense.value.actionStatus == FAILED {
        reasons := reasons + [DEFENSE_ACTION_FAILED];
      }
      if policy.onRecoveryFailed && f.defense.value.recoveryStatus == RecoveryFailure {
        reasons := reasons + [RECOVERY_HAS_FAILED];
      }
    }
    AmongNext(policy, f, repeated, 4);
    if policy.repeatedEnabled && repeated >= policy.repeatedThreshold {
      reasons := reasons + [REPEATED_INCIDENT_THRESHOLD_EXCEEDED];
    }
    escalate := |reasons| > 0;
    EscalatesExactly(policy, f, repeated);
  }

  lemma AmongNone(policy: Policy, f: Findings, repeated: nat)
    ensures CausesAmong(policy, f, repeated, 0) == []
  {
  }

  lemma AmongNext(policy: Policy, f: Findings, repeated: nat, n: nat)
    requires n < |RULES|
    ensures CausesAmong(policy, f, repeated, n + 1)
      == if Holds(policy, f, repeated, RULES[n]) then CausesAmong(policy, f, repeated, n) + [RULES[n]] else CausesAmong(policy, f, repeated, n)
  {
    hide Holds;
  }

  lemma EscalatesExactly(policy: Policy, f: Findings, repeated: nat)
    ensures CausesOf(policy, f, repeated) != [] <==> Escalates(policy, f, repeated)
  {
    hide Holds, CausesOf;
    forall c ensures c in CausesOf(policy, f, repeated) <==> Holds(policy, f, repeated, c) {
      CausesExact(policy, f, repeated, c);
    }
    var causes := CausesOf(policy, f, repeated);
    assert causes != [] ==> causes[0] in causes;
  }

  // At least as grave in every respect.
  predicate IsGraver(g: Findings, f: Findings) {
    && Severity(g.riskLevel) >= Severity(f.riskLevel)
    && (f.decisionStatus == Uncertain ==> g.decisionStatus == Uncertain)
    && (f.defense.Some? && f.defense.value.actionStatus == FAILED ==> g.defense.Some? && g.defense.value.actionStatus == FAILED)
    && (f.defense.Some? && f.defense.value.recoveryStatus == RecoveryFailure ==> g.defense.Some? && g.defense.value.recoveryStatus == RecoveryFailure)
  }

  // Theorem: graver findings or more repetitions never take an escalation back.
  lemma EscalationMonotone(policy: Policy, f: Findings, n: nat, g: Findings, m: nat)
    requires IsGraver(g, f) && n <= m && Escalates(policy, f, n)
    ensures Escalates(policy, g, m)
  {
    var c :| Holds(policy, f, n, c);
    assert Holds(policy, g, m, c);
  }
}
