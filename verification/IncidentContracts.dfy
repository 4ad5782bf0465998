/** States, transitions, events and snapshots of an incident: the vocabulary shared by the
    event log, the manager and the incident worker. */
module IncidentContracts {

  datatype State = DETECTED | ASSESSING | VERIFYING | MITIGATING | RECOVERY | RESOLVED | ESCALATED

  predicate IsTerminal(s: State) {
    s == RESOLVED || s == ESCALATED
  }

  function Allowed(s: State): set<State> {
    match s
    case DETECTED => {ASSESSING}
    case ASSESSING => {VERIFYING, MITIGATING}
    case VERIFYING => {MITIGATING}
    case MITIGATING => {RECOVERY, RESOLVED, ESCALATED}
    case RECOVERY => {RESOLVED, ESCALATED}
    case RESOLVED => {}
    case ESCALATED => {}
  }

  datatype EventType =
    | DETECTION_CREATED
    | QUANTUM_ROUTING_REQUESTED
    | QUANTUM_VERIFICATION_COMPLETED
    | QUANTUM_VERIFICATION_FAILED
    | HYBRID_DECISION_CREATED
    | RISK_ASSESSED
    | DEFENSE_ACTION_SELECTED
    | DEFENSE_ACTION_EXECUTED
    | DEFENSE_VERIFICATION_FAILED
    | RECOVERY_STARTED
    | RECOVERY_SUCCEEDED
    | RECOVERY_FAILED
    | ROLLBACK_EXECUTED
    | INCIDENT_RESOLVED
    | INCIDENT_ESCALATED
    | IDEMPOTENT_SKIP

  predicate IsTerminalType(t: EventType) {
    t == INCIDENT_RESOLVED || t == INCIDENT_ESCALATED
  }

  // Why an incident is escalated.
  datatype Cause =
    | CRITICAL_RISK
    | UNRESOLVED_QUANTUM_CONFLICT_AT_ELEVATED_RISK
    | DEFENSE_ACTION_FAILED
    | RECOVERY_HAS_FAILED
    | REPEATED_INCIDENT_THRESHOLD_EXCEEDED

  // A reason text: a fixed non-empty sentence, or the escalation causes joined into one.
  datatype Reason = Sentence | Joined(causes: seq<Cause>)

  predicate IsBlank(r: Reason) {
    r == Joined([])
  }

  datatype Payload = NoPayload | Detection(sampleId: string) | Escalation(causes: seq<Cause>)

  // What an event says; the event adds a unique id and a time of recording.
  datatype Fact = Fact(
    correlationId: string,
    incidentId: string,
    eventType: EventType,
    previous: State,
    next: State,
    reason: Reason,
    payload: Payload)

  datatype Event = Event(eventId: nat, timestamp: int, fact: Fact)

  // An entry of a snapshot's list of escalation reasons.
  datatype Note = Code(cause: Cause) | Text(reason: Reason)

  datatype Snapshot = Snapshot(
    incidentId: string,
    correlationId: string,
    state: State,
    createdAt: int,
    updatedAt: int,
    eventIds: seq<nat>,
    escalated: bool,
    notes: seq<Note>)

  // validate_transition: an edge of the table, with a reason.
  predicate IsValidTransition(previous: State, next: State, reason: Reason) {
    next in Allowed(previous) && !IsBlank(reason)
  }

  // What _emit lets through: staying in a state needs no validation.
  predicate IsEmittable(f: Fact) {
    f.next == f.previous || IsValidTransition(f.previous, f.next, f.reason)
  }

  // How far along the lifecycle a state is.
  function StageOf(s: State): nat {
    match s
    case DETECTED => 0
    case ASSESSING => 1
    case VERIFYING => 2
    case MITIGATING => 3
    case RECOVERY => 4
    case RESOLVED => 5
    case ESCALATED => 5
  }

  // Theorem: an incident only ever moves forward; only from mitigation on can it reach a verdict,
  // there is no way out of one, and every other state has a next.
  lemma TransitionsAdvance(previous: State, next: State, reason: Reason)
    ensures IsValidTransition(previous, next, reason) ==> StageOf(previous) < StageOf(next) && !IsBlank(reason)
    ensures IsValidTransition(previous, next, reason) && IsTerminal(next) ==> StageOf(previous) >= StageOf(MITIGATING)
    ensures IsValidTransition(previous, next, reason) && next == RECOVERY ==> previous == MITIGATING
    ensures IsTerminal(previous) <==> forall s, r :: !IsValidTransition(previous, s, r)
  {
    if !IsTerminal(previous) {
      var s := match previous
        case DETECTED => ASSESSING
        case ASSESSING => MITIGATING
        case VERIFYING => MITIGATING
        case _ => RESOLVED;
      assert IsValidTransition(previous, s, Sentence);
    }
  }
}
