/** The verdict vocabularies that risk assessment, hybrid decision, routing and defense share. */
module Assessments {
  datatype RiskLevel = LOW | MEDIUM | HIGH | CRITICAL
  datatype DecisionStatus = Confirmed | Uncertain | Normal
  datatype ActionStatus = EXECUTED | FAILED | REJECTED
  datatype RecoveryStatus = NOT_ATTEMPTED | RecoverySuccess | RecoveryFailure
  datatype RoutingStatus = NotInvoked | Pending | Success | Fallback

  function Severity(level: RiskLevel): nat {
    match level
    case LOW => 0
    case MEDIUM => 1
    case HIGH => 2
    case CRITICAL => 3
  }
}
