/** The quantum and risk services' handlers at their place in the chain, and what an abandoned
    wait in one means for the event in the other. */
module ServiceHandlers {
  import opened Wrappers
  import opened Messages
  import opened Assessments
  import opened WorkerProtocol
  import opened Backoffs
  import opened Drain
  import opened RoutingContracts
  import opened QuantumJobs
  import opened QuantumRouters
  import opened HybridEngine
  import opened HybridPipelines

  // The message a handler of a stage answers with; `id` is a fresh uuid.
  function NewMessage(m: Message, stage: nat, id: string): (out: Message)
    requires stage < STAGES
    ensures IsReplyTo(m, stage, out) && out.eventId == id
  {
    Message(id, m.correlationId, Some(m.eventId), m.incidentId, TypeOf(stage + 1), 0)
  }

  // Stage 1.  The decision that travels on is the router's, resolved or still pending.
  method QuantumHandle(router: QuantumRouter, m: Message, id: string, d: Detection, now: real, wait: Wait, later: real)
    returns (out: Option<Message>, r: Routed)
    requires router.Valid() && (wait.Finished? ==> IsRecord(wait.record))
    modifies router, router.metrics, router.breaker, router.breaker.states.Values
    ensures router.Valid()
    ensures out.Some? <==> r.Decided?
    ensures out.Some? ==> IsReplyTo(m, 1, out.value) && r.decision.sampleId == d.sampleId
    ensures out.Some? ==> IsReady(r.decision) || (r.decision.status == Pending && wait.StillPending?)
  {
    r := router.RouteAndWait(d.sampleId, d, now, wait, later);
    out := if r.Decided? then Some(NewMessage(m, 1, id)) else None;
  }

  // Stage 2.  None: the handler raises.
  method RiskHandle(pipeline: HybridPipeline, m: Message, id: string, d: Detection, r: RoutingDecision) returns (out: Option<Message>)
    requires IsLegalDetection(d) && (r.result.Some? ==> IsLegalResult(r.result.value))
    modifies pipeline.metrics
    ensures out.Some? <==> RiskSucceeds(d, r, pipeline.decisionPolicy)
    ensures out.Some? ==> IsReplyTo(m, 2, out.value)
  {
    var done := pipeline.Process(d, r);
    out := if done.Some? then Some(NewMessage(m, 2, id)) else None;
  }

  predicate RiskSucceeds(d: Detection, r: RoutingDecision, p: DecisionPolicy) {
    BuildHybridDecision(d, r, p).Built?
  }

  // Theorem: an event that left the quantum service resolved is processed by the risk service at
  // the first attempt; one that left it pending fails every attempt alike and, after all of them,
  // ends in the dead letters, since nothing in a retry resolves the decision it carries.
  lemma PendingIsBuried(cfg: Config, backoff: Backoff, m: Message, d: Detection, r: RoutingDecision, p: DecisionPolicy)
    requires d.sampleId == r.sampleId && (IsReady(r) || r.status == Pending)
    ensures var v := Fate(cfg, backoff, (id: string, retry: nat) => RiskSucceeds(d, r, p), m);
      if r.status == Pending then !v.processed && v.calls == Weight(cfg, m) else v == Verdict(true, 1, 0.0)
  {
    FateIsFirstSuccess(cfg, backoff, (id: string, retry: nat) => RiskSucceeds(d, r, p), m);
    if r.status != Pending {
      RaisesExactly(d, r, p);
    }
  }
}
