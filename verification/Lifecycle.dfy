/** The facts one complete lifecycle records, as a function of the evidence, and their shape:
    a legal walk through the transition table that ends in exactly one terminal event. */
module Lifecycle {
  import opened Wrappers
  import opened IncidentContracts
  import opened Assessments
  import opened EscalationRules

  datatype Case = Case(incidentId: string, correlationId: string, evidence: Evidence)

  function FactOf(c: Case, t: EventType, previous: State, next: State, payload: Payload): Fact {
    Fact(c.correlationId, c.incidentId, t, previous, next, Sentence, payload)
  }

  function DetectionFacts(c: Case): seq<Fact> {
    [FactOf(c, DETECTION_CREATED, DETECTED, DETECTED, Detection(c.evidence.sampleId)),
     FactOf(c, QUANTUM_ROUTING_REQUESTED, DETECTED, ASSESSING, NoPayload)]
  }

  function QuantumOutcome(c: Case): EventType {
    if c.evidence.routingStatus == Success then QUANTUM_VERIFICATION_COMPLETED else QUANTUM_VERIFICATION_FAILED
  }

  function QuantumFacts(c: Case): seq<Fact> {
    if c.evidence.invokeQuantum then
      [FactOf(c, QUANTUM_ROUTING_REQUESTED, ASSESSING, VERIFYING, NoPayload),
       FactOf(c, QuantumOutcome(c), VERIFYING, VERIFYING, NoPayload),
       FactOf(c, QuantumOutcome(c), VERIFYING, MITIGATING, NoPayload)]
    else
      [FactOf(c, QUANTUM_ROUTING_REQUESTED, ASSESSING, MITIGATING, NoPayload)]
  }

  function MitigationFacts(c: Case): seq<Fact> {
    [FactOf(c, HYBRID_DECISION_CREATED, MITIGATING, MITIGATING, NoPayload),
     FactOf(c, RISK_ASSESSED, MITIGATING, MITIGATING, NoPayload),
     FactOf(c, DEFENSE_ACTION_SELECTED, MITIGATING, MITIGATING, NoPayload),
     FactOf(c, DEFENSE_ACTION_EXECUTED, MITIGATING, MITIGATING, NoPayload)]
  }

  predicate Recovers(c: Case) {
    c.evidence.recoveryStatus != NOT_ATTEMPTED
  }

  function RecoveryVerdict(c: Case): EventType {
    if c.evidence.recoveryStatus == RecoverySuccess then RECOVERY_SUCCEEDED else RECOVERY_FAILED
  }

  function RollbackFacts(c: Case): seq<Fact> {
    if c.evidence.rollbackOccurred then [FactOf(c, ROLLBACK_EXECUTED, RECOVERY, RECOVERY, NoPayload)] else []
  }

  function RecoveryFacts(c: Case): seq<Fact> {
    if Recovers(c) then
      [FactOf(c, DEFENSE_VERIFICATION_FAILED, MITIGATING, RECOVERY, NoPayload),
       FactOf(c, RECOVERY_STARTED, RECOVERY, RECOVERY, NoPayload)]
      + RollbackFacts(c)
      + [FactOf(c, RecoveryVerdict(c), RECOVERY, RECOVERY, NoPayload)]
    else []
  }

  function StateBeforeVerdict(c: Case): State {
    if Recovers(c) then RECOVERY else MITIGATING
  }

  function TerminalFact(c: Case, causes: seq<Cause>): Fact {
    if causes != [] then
      Fact(c.correlationId, c.incidentId, INCIDENT_ESCALATED, StateBeforeVerdict(c), ESCALATED, Joined(causes), Escalation(causes))
    else
      FactOf(c, INCIDENT_RESOLVED, StateBeforeVerdict(c), RESOLVED, NoPayload)
  }

  function OpenFacts(c: Case): seq<Fact> {
    DetectionFacts(c) + QuantumFacts(c) + MitigationFacts(c) + RecoveryFacts(c)
  }

  function LifecycleFacts(c: Case, causes: seq<Cause>): seq<Fact> {
    OpenFacts(c) + [TerminalFact(c, causes)]
  }

  function SkipFact(incidentId: string, correlationId: string, state: State): Fact {
    Fact(correlationId, incidentId, IDEMPOTENT_SKIP, state, state, Sentence, NoPayload)
  }

  // ---- Legal walks ----------------------------------------------------------------------------

  predicate Walks(s: State, facts: seq<Fact>, t: State)
    decreases |facts|
  {
    if facts == [] then s == t
    else facts[0].previous == s && IsEmittable(facts[0]) && Walks(facts[0].next, facts[1..], t)
  }

  lemma {:induction false} WalksThen(s: State, f: seq<Fact>, t: State, g: seq<Fact>, u: State)
    requires Walks(s, f, t) && Walks(t, g, u)
    ensures Walks(s, f + g, u)
    decreases |f|
  {
    if f == [] {
      assert f + g == g;
    } else {
      WalksThen(f[0].next, f[1..], t, g, u);
      assert (f + g)[1..] == f[1..] + g;
    }
  }

  lemma WalksOne(f: Fact)
    requires IsEmittable(f)
    ensures Walks(f.previous, [f], f.next)
  {
  }

  lemma WalksTwo(f: Fact, g: Fact)
    requires IsEmittable(f) && IsEmittable(g) && f.next == g.previous
    ensures Walks(f.previous, [f, g], g.next)
  {
  }

  lemma OpenWalk(c: Case)
    ensures Walks(DETECTED, OpenFacts(c), StateBeforeVerdict(c))
  {
    var d, q, m, r := DetectionFacts(c), QuantumFacts(c), MitigationFacts(c), RecoveryFacts(c);
    WalksTwo(d[0], d[1]);
    assert d == [d[0], d[1]];
    if c.evidence.invokeQuantum {
      WalksTwo(q[0], q[1]);
      WalksOne(q[2]);
      WalksThen(ASSESSING, [q[0], q[1]], VERIFYING, [q[2]], MITIGATING);
      assert q == [q[0], q[1]] + [q[2]];
    } else {
      WalksOne(q[0]);
      assert q == [q[0]];
    }
    WalksTwo(m[0], m[1]);
    WalksTwo(m[2], m[3]);
    WalksThen(MITIGATING, [m[0], m[1]], MITIGATING, [m[2], m[3]], MITIGATING);
    assert m == [m[0], m[1]] + [m[2], m[3]];
    RecoveryWalk(c);
    WalksThen(DETECTED, d, ASSESSING, q, MITIGATING);
    WalksThen(DETECTED, d + q, MITIGATING, m, MITIGATING);
    WalksThen(DETECTED, d + q + m, MITIGATING, r, StateBeforeVerdict(c));
  }

  lemma RecoveryWalk(c: Case)
    ensures Walks(MITIGATING, RecoveryFacts(c), StateBeforeVerdict(c))
  {
    if Recovers(c) {
      var r := RecoveryFacts(c);
      var v := FactOf(c, RecoveryVerdict(c), RECOVERY, RECOVERY, NoPayload);
      WalksTwo(r[0], r[1]);
      WalksOne(v);
      if c.evidence.rollbackOccurred {
        WalksOne(RollbackFacts(c)[0]);
        assert RollbackFacts(c) == [RollbackFacts(c)[0]];
      }
      WalksThen(MITIGATING, [r[0], r[1]], RECOVERY, RollbackFacts(c), RECOVERY);
      WalksThen(MITIGATING, [r[0], r[1]] + RollbackFacts(c), RECOVERY, [v], RECOVERY);
      assert r == [r[0], r[1]] + RollbackFacts(c) + [v];
    }
  }

  // For every evidence tuple the whole lifecycle is a legal walk from DETECTED to the verdict,
  // so no emission of it is ever rejected.
  lemma LifecycleIsLegal(c: Case, causes: seq<Cause>)
    ensures Walks(DETECTED, LifecycleFacts(c, causes), if causes != [] then ESCALATED else RESOLVED)
  {
    OpenWalk(c);
    WalksOne(TerminalFact(c, causes));
    WalksThen(DETECTED, OpenFacts(c), StateBeforeVerdict(c), [TerminalFact(c, causes)], if causes != [] then ESCALATED else RESOLVED);
  }

  // A fact of a running lifecycle: not a verdict, and not in a terminal state.
  predicate IsOpenFact(c: Case, f: Fact) {
    && f.incidentId == c.incidentId && f.correlationId == c.correlationId
    && !IsTerminalType(f.eventType) && f.eventType != IDEMPOTENT_SKIP
    && !IsTerminal(f.next)
  }

  // Exactly one terminal event, and it comes last; exactly one detection, and it comes first.
  lemma LifecycleShape(c: Case, causes: seq<Cause>)
    ensures var f := LifecycleFacts(c, causes);
      && |f| >= 8
      && (forall i :: 0 <= i < |f| - 1 ==> IsOpenFact(c, f[i]))
      && (forall i :: 0 < i < |f| ==> f[i].eventType != DETECTION_CREATED)
      && f[0] == FactOf(c, DETECTION_CREATED, DETECTED, DETECTED, Detection(c.evidence.sampleId))
      && f[|f| - 1] == TerminalFact(c, causes)
  {
    var d, q, m, r := DetectionFacts(c), QuantumFacts(c), MitigationFacts(c), RecoveryFacts(c);
    var f := LifecycleFacts(c, causes);
    forall i | 0 <= i < |f| - 1
      ensures IsOpenFact(c, f[i]) && (i > 0 ==> f[i].eventType != DETECTION_CREATED)
    {
      if i < 2 { assert f[i] == d[i]; }
      else if i < 2 + |q| { assert f[i] == q[i - 2]; }
      else if i < 6 + |q| { assert f[i] == m[i - 2 - |q|]; }
      else { assert f[i] == r[i - 6 - |q|]; }
    }
  }

  // ---- Which events a lifecycle records ---------------------------------------------------------

  function Count(facts: seq<Fact>, t: EventType): nat {
    if facts == [] then 0 else Count(facts[..|facts| - 1], t) + One(facts[|facts| - 1].eventType == t)
  }

  lemma {:induction false} CountConcat(f: seq<Fact>, g: seq<Fact>, t: EventType)
    ensures Count(f + g, t) == Count(f, t) + Count(g, t)
    decreases |g|
  {
    if g == [] {
      assert f + g == f;
    } else {
      assert (f + g)[..|f + g| - 1] == f + g[..|g| - 1];
      CountConcat(f, g[..|g| - 1], t);
    }
  }

  lemma CountTwo(f: Fact, g: Fact, t: EventType)
    ensures Count([f], t) == One(f.eventType == t)
    ensures Count([f, g], t) == One(f.eventType == t) + One(g.eventType == t)
  {
    assert [f][..0] == [] && [f, g][..1] == [f];
  }

  // How often each type of event belongs in the lifecycle of this evidence.
  function Times(e: Evidence, escalated: bool, t: EventType): nat {
    match t
    case DETECTION_CREATED => 1
    case QUANTUM_ROUTING_REQUESTED => 2
    case QUANTUM_VERIFICATION_COMPLETED => 2 * One(e.invokeQuantum && e.routingStatus == Success)
    case QUANTUM_VERIFICATION_FAILED => 2 * One(e.invokeQuantum && e.routingStatus != Success)
    case HYBRID_DECISION_CREATED => 1
    case RISK_ASSESSED => 1
    case DEFENSE_ACTION_SELECTED => 1
    case DEFENSE_ACTION_EXECUTED => 1
    case DEFENSE_VERIFICATION_FAILED => One(e.recoveryStatus != NOT_ATTEMPTED)
    case RECOVERY_STARTED => One(e.recoveryStatus != NOT_ATTEMPTED)
    case RECOVERY_SUCCEEDED => One(e.recoveryStatus == RecoverySuccess)
    case RECOVERY_FAILED => One(e.recoveryStatus == RecoveryFailure)
    case ROLLBACK_EXECUTED => One(e.recoveryStatus != NOT_ATTEMPTED && e.rollbackOccurred)
    case INCIDENT_RESOLVED => One(!escalated)
    case INCIDENT_ESCALATED => One(escalated)
    case IDEMPOTENT_SKIP => 0
  }

  // The order in which the types may come.
  function Place(t: EventType): nat {
    match t
    case DETECTION_CREATED => 0
    case QUANTUM_ROUTING_REQUESTED => 1
    case QUANTUM_VERIFICATION_COMPLETED => 2
    case QUANTUM_VERIFICATION_FAILED => 2
    case HYBRID_DECISION_CREATED => 3
    case RISK_ASSESSED => 4
    case DEFENSE_ACTION_SELECTED => 5
    case DEFENSE_ACTION_EXECUTED => 6
    case DEFENSE_VERIFICATION_FAILED => 7
    case RECOVERY_STARTED => 8
    case ROLLBACK_EXECUTED => 9
    case RECOVERY_SUCCEEDED => 10
    case RECOVERY_FAILED => 10
    case INCIDENT_RESOLVED => 11
    case INCIDENT_ESCALATED => 11
    case IDEMPOTENT_SKIP => 12
  }

  predicate InPlace(facts: seq<Fact>) {
    forall i :: 0 < i < |facts| ==> Place(facts[i - 1].eventType) <= Place(facts[i].eventType)
  }

  lemma DetectionCounts(c: Case, t: EventType)
    ensures Count(DetectionFacts(c), t) == One(t == DETECTION_CREATED) + One(t == QUANTUM_ROUTING_REQUESTED)
  {
    CountTwo(DetectionFacts(c)[0], DetectionFacts(c)[1], t);
  }

  lemma QuantumCounts(c: Case, t: EventType)
    ensures var e := c.evidence;
      Count(QuantumFacts(c), t) == One(t == QUANTUM_ROUTING_REQUESTED)
        + 2 * One(t == QUANTUM_VERIFICATION_COMPLETED && e.invokeQuantum && e.routingStatus == Success)
        + 2 * One(t == QUANTUM_VERIFICATION_FAILED && e.invokeQuantum && e.routingStatus != Success)
  {
    var q := QuantumFacts(c);
    CountTwo(q[0], q[0], t);
    if c.evidence.invokeQuantum {
      CountTwo(q[1], q[2], t);
      CountConcat([q[0]], [q[1], q[2]], t);
      assert q == [q[0]] + [q[1], q[2]];
    }
  }

  lemma MitigationCounts(c: Case, t: EventType)
    ensures Count(MitigationFacts(c), t)
      == One(t == HYBRID_DECISION_CREATED) + One(t == RISK_ASSESSED) + One(t == DEFENSE_ACTION_SELECTED) + One(t == DEFENSE_ACTION_EXECUTED)
  {
    var m := MitigationFacts(c);
    CountTwo(m[0], m[1], t);
    CountTwo(m[2], m[3], t);
    CountConcat([m[0], m[1]], [m[2], m[3]], t);
    assert m == [m[0], m[1]] + [m[2], m[3]];
  }

  lemma RecoveryCounts(c: Case, t: EventType)
    ensures var e := c.evidence;
      Count(RecoveryFacts(c), t) == if e.recoveryStatus == NOT_ATTEMPTED then 0 else
        One(t == DEFENSE_VERIFICATION_FAILED) + One(t == RECOVERY_STARTED) + One(t == ROLLBACK_EXECUTED && e.rollbackOccurred)
        + One(t == RECOVERY_SUCCEEDED && e.recoveryStatus == RecoverySuccess) + One(t == RECOVERY_FAILED && e.recoveryStatus == RecoveryFailure)
  {
    if Recovers(c) {
      var r, b := RecoveryFacts(c), RollbackFacts(c);
      var v := FactOf(c, RecoveryVerdict(c), RECOVERY, RECOVERY, NoPayload);
      CountTwo(r[0], r[1], t);
      CountTwo(v, v, t);
      if b != [] {
        CountTwo(b[0], b[0], t);
        assert b == [b[0]];
      }
      CountConcat([r[0], r[1]], b, t);
      CountConcat([r[0], r[1]] + b, [v], t);
      assert r == [r[0], r[1]] + b + [v];
    }
  }

  // Theorem: for every evidence tuple a lifecycle holds each type of event exactly as often as the
  // evidence calls for it, in the order of its phases.
  lemma LifecycleRecords(c: Case, causes: seq<Cause>, t: EventType)
    ensures Count(LifecycleFacts(c, causes), t) == Times(c.evidence, causes != [], t)
  {
    hide Count, DetectionFacts, QuantumFacts, MitigationFacts, RecoveryFacts;
    var d, q, m, r := DetectionFacts(c), QuantumFacts(c), MitigationFacts(c), RecoveryFacts(c);
    var last := TerminalFact(c, causes);
    CountConcat(d, q, t);
    CountConcat(d + q, m, t);
    CountConcat(d + q + m, r, t);
    CountConcat(d + q + m + r, [last], t);
    CountTwo(last, last, t);
    DetectionCounts(c, t);
    QuantumCounts(c, t);
    MitigationCounts(c, t);
    RecoveryCounts(c, t);
  }

  lemma InPlaceThen(f: seq<Fact>, g: seq<Fact>)
    requires InPlace(f) && InPlace(g) && (f != [] && g != [] ==> Place(f[|f| - 1].eventType) <= Place(g[0].eventType))
    ensures InPlace(f + g)
  {
    hide Place;
  }

  // Each phase is in place, and begins where the one before may have ended.
  lemma EarlyInPlace(c: Case)
    ensures var d, m := DetectionFacts(c), MitigationFacts(c);
      && InPlace(d) && d != [] && Place(d[|d| - 1].eventType) == 1
      && InPlace(m) && m != [] && Place(m[0].eventType) == 3 && Place(m[|m| - 1].eventType) == 6
  {
  }

  lemma QuantumInPlace(c: Case)
    ensures var q := QuantumFacts(c);
      InPlace(q) && q != [] && Place(q[0].eventType) == 1 && Place(q[|q| - 1].eventType) <= 2
  {
  }

  lemma RecoveryInPlace(c: Case)
    ensures var r := RecoveryFacts(c);
      InPlace(r) && (r != [] ==> Place(r[0].eventType) == 7 && Place(r[|r| - 1].eventType) == 10)
  {
  }

  lemma TerminalInPlace(c: Case, causes: seq<Cause>)
    ensures InPlace([TerminalFact(c, causes)]) && Place(TerminalFact(c, causes).eventType) == 11
  {
  }

  lemma LifecycleInPlace(c: Case, causes: seq<Cause>)
    ensures InPlace(LifecycleFacts(c, causes))
  {
    var d, q, m, r := DetectionFacts(c), QuantumFacts(c), MitigationFacts(c), RecoveryFacts(c);
    hide InPlace, Place, DetectionFacts, QuantumFacts, MitigationFacts, RecoveryFacts, TerminalFact;
    EarlyInPlace(c);
    QuantumInPlace(c);
    RecoveryInPlace(c);
    TerminalInPlace(c, causes);
    InPlaceThen(d, q);
    InPlaceThen(d + q, m);
    InPlaceThen(d + q + m, r);
    InPlaceThen(d + q + m + r, [TerminalFact(c, causes)]);
  }

  // The states in which each type of event is recorded.
  predicate InState(f: Fact) {
    match f.eventType
    case DETECTION_CREATED => f.previous == f.next == DETECTED
    case QUANTUM_ROUTING_REQUESTED =>
      (f.previous == DETECTED && f.next == ASSESSING) || (f.previous == ASSESSING && (f.next == VERIFYING || f.next == MITIGATING))
    case QUANTUM_VERIFICATION_COMPLETED => f.previous == VERIFYING && (f.next == VERIFYING || f.next == MITIGATING)
    case QUANTUM_VERIFICATION_FAILED => f.previous == VERIFYING && (f.next == VERIFYING || f.next == MITIGATING)
    case DEFENSE_VERIFICATION_FAILED => f.previous == MITIGATING && f.next == RECOVERY
    case RECOVERY_STARTED => f.previous == f.next == RECOVERY
    case ROLLBACK_EXECUTED => f.previous == f.next == RECOVERY
    case RECOVERY_SUCCEEDED => f.previous == f.next == RECOVERY
    case RECOVERY_FAILED => f.previous == f.next == RECOVERY
    case INCIDENT_RESOLVED => (f.previous == MITIGATING || f.previous == RECOVERY) && f.next == RESOLVED
    case INCIDENT_ESCALATED => (f.previous == MITIGATING || f.previous == RECOVERY) && f.next == ESCALATED
    case IDEMPOTENT_SKIP => f.previous == f.next && IsTerminal(f.next)
    case _ => f.previous == f.next == MITIGATING
  }

  lemma LifecycleStates(c: Case, causes: seq<Cause>, i: nat)
    requires i < |LifecycleFacts(c, causes)|
    ensures InState(LifecycleFacts(c, causes)[i])
  {
    var d, q, m, r := DetectionFacts(c), QuantumFacts(c), MitigationFacts(c), RecoveryFacts(c);
    var f := LifecycleFacts(c, causes);
    if i < 2 { assert f[i] == d[i]; }
    else if i < 2 + |q| { assert f[i] == q[i - 2]; }
    else if i < 6 + |q| { assert f[i] == m[i - 2 - |q|]; }
    else if i < 6 + |q| + |r| { assert f[i] == r[i - 6 - |q|]; }
  }
}
