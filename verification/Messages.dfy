/** The transport record that travels between the services, and the six streams it travels on. */
module Messages {

  import opened Wrappers

  // One event type per stream; stream k carries the messages of type TypeOf(k).
  datatype EventType =
    | TrafficIngested
    | DetectionCompleted
    | QuantumCompleted
    | RiskAssessed
    | DefenseCompleted
    | IncidentUpdated

  // Streams 0..4 each feed one consuming service; stream 5 is the final incident.updated stream.
  const STAGES: nat := 5

  function TypeOf(stream: nat): EventType
    requires stream <= STAGES
  {
    match stream
    case 0 => TrafficIngested
    case 1 => DetectionCompleted
    case 2 => QuantumCompleted
    case 3 => RiskAssessed
    case 4 => DefenseCompleted
    case _ => IncidentUpdated
  }

  // What a message says about the incident it belongs to.
  datatype Identity = Identity(correlationId: string, incidentId: string)

  datatype Message = Message(
    eventId: string,
    correlationId: string,
    causationId: Option<string>,
    incidentId: string,
    eventType: EventType,
    retryCount: nat)
  {
    function Ident(): Identity {
      Identity(correlationId, incidentId)
    }

    // A copy for republication after a handled failure: only the counter changes.
    function NextRetry(): Message {
      this.(retryCount := retryCount + 1)
    }
  }

  // A message built by a worker's handler from the message it consumed.
  predicate IsReplyTo(m: Message, stage: nat, out: Message)
    requires stage < STAGES
  {
    && out.Ident() == m.Ident()
    && out.causationId == Some(m.eventId)
    && out.eventType == TypeOf(stage + 1)
    && out.retryCount == 0
  }
}
