/** What a whole delivery of a lifecycle adds to the log and to the incident's snapshot, in terms of
    the evidence alone. */
module IncidentJournal {
  import opened Wrappers
  import opened IncidentContracts
  import opened Assessments
  import opened EscalationRules
  import opened Lifecycle
  import opened IncidentLog
  import opened IncidentHistory
  import opened IncidentCaches

  // The incident's own events of a type.
  function Told(log: seq<Event>, inc: string, t: EventType): nat {
    Count(FactsOf(Own(log, inc)), t)
  }

  lemma {:induction false} FactsConcat(a: seq<Event>, b: seq<Event>)
    ensures FactsOf(a + b) == FactsOf(a) + FactsOf(b)
  {
    assert |FactsOf(a + b)| == |FactsOf(a) + FactsOf(b)|;
    forall i | 0 <= i < |a + b| ensures FactsOf(a + b)[i] == (FactsOf(a) + FactsOf(b))[i] {
      assert (a + b)[i] == if i < |a| then a[i] else b[i - |a|];
    }
  }

  // The log tells what the evidence says: of each type of event as many more as it calls for.
  ghost predicate Tells(log: seq<Event>, log': seq<Event>, c: Case, escalated: bool) {
    forall t :: Told(log', c.incidentId, t) == Told(log, c.incidentId, t) + Times(c.evidence, escalated, t)
  }

  // Theorem: a whole delivery of an incident without a verdict records quantum verification,
  // recovery, rollback and verdict as the evidence has them, each as often as it calls for.
  lemma DeliveryTells(log: seq<Event>, log': seq<Event>, c: Case, causes: seq<Cause>)
    requires IsDelivery(log, Delivery(c, causes, true), log') && !IsDone(log, c.incidentId)
    ensures Tells(log, log', c, causes != [])
  {
    hide IsDelivery, Own, Count, LifecycleFacts, Times;
    var d, own := Delivery(c, causes, true), Own(log, c.incidentId);
    OwnStep(log, d, log', c.incidentId);
    WholeFacts(log, log', c, causes);
    var more := log'[|log|..];
    FactsConcat(own, more);
    forall t ensures Told(log', c.incidentId, t) == Told(log, c.incidentId, t) + Times(c.evidence, causes != [], t) {
      CountConcat(FactsOf(own), FactsOf(more), t);
      LifecycleRecords(c, causes, t);
    }
  }

  lemma WholeFacts(log: seq<Event>, log': seq<Event>, c: Case, causes: seq<Cause>)
    requires IsDelivery(log, Delivery(c, causes, true), log') && !IsDone(log, c.incidentId)
    ensures log <= log' && FactsOf(log'[|log|..]) == LifecycleFacts(c, causes)
  {
    hide LifecycleFacts, IsDone;
  }

  lemma {:induction false} NoVerdictNoNotes(own: seq<Event>)
    requires Verdicts(own) == 0
    ensures NotesOf(own) == []
    decreases |own|
  {
    if own != [] {
      NoVerdictNoNotes(own[..|own| - 1]);
    }
  }

  lemma {:induction false} OpenFactsNoNotes(events: seq<Event>)
    requires forall i :: 0 <= i < |events| ==> !IsTerminalType(events[i].fact.eventType)
    ensures NotesOf(events) == []
    decreases |events|
  {
    if events != [] {
      OpenFactsNoNotes(events[..|events| - 1]);
    }
  }

  // The notes of one whole lifecycle are the causes of its escalation.
  lemma {:induction false} LifecycleNotes(more: seq<Event>, c: Case, causes: seq<Cause>)
    requires FactsOf(more) == LifecycleFacts(c, causes)
    ensures more != [] && more[|more| - 1].fact == TerminalFact(c, causes) && NotesOf(more) == CodesOf(causes)
  {
    hide OpenFacts;
    LifecycleShape(c, causes);
    var front := more[..|more| - 1];
    assert forall i :: 0 <= i < |more| ==> more[i].fact == LifecycleFacts(c, causes)[i];
    assert forall i :: 0 <= i < |front| ==> IsOpenFact(c, LifecycleFacts(c, causes)[i]) && front[i].fact == LifecycleFacts(c, causes)[i];
    OpenFactsNoNotes(front);
  }

  // Theorem: after the delivery the snapshot shows the verdict: escalated exactly with causes, those
  // causes and no others as its reasons, since the verdict's time.
  lemma VerdictShown(log: seq<Event>, log': seq<Event>, c: Case, causes: seq<Cause>)
    requires IsGood(log) && IsDelivery(log, Delivery(c, causes, true), log') && !IsDone(log, c.incidentId)
    ensures Replay(log', c.incidentId).Rebuilt? && log' != []
    ensures var s := Replay(log', c.incidentId).snapshot;
      && s.state == (if causes != [] then ESCALATED else RESOLVED)
      && s.notes == CodesOf(causes) && s.updatedAt == log'[|log'| - 1].timestamp
      && Shows(s, Own(log', c.incidentId)) && Own(log', c.incidentId) == Own(log, c.incidentId) + log'[|log|..]
  {
    hide IsGood, IsDelivery, Own, IsDone, LifecycleFacts, NotesOf, CodesOf, IdsOf;
    var d, own := Delivery(c, causes, true), Own(log, c.incidentId);
    DeliveryKeepsGood(log, d, log');
    LifecycleRecorded(log, log', c, causes);
    OwnStep(log, d, log', c.incidentId);
    WholeFacts(log, log', c, causes);
    var more := log'[|log|..];
    LifecycleNotes(more, c, causes);
    NotesConcat(own, more);
    OpenHasNoVerdict(log, c.incidentId);
    NoVerdictNoNotes(own);
    ReplayShows(log', c.incidentId);
    assert log'[|log'| - 1] == more[|more| - 1];
  }

  lemma OpenHasNoVerdict(log: seq<Event>, inc: string)
    requires IsGood(log) && !IsDone(log, inc)
    ensures Verdicts(Own(log, inc)) == 0
  {
    EndedIsDone(log, inc);
    assert VerdictOnce(Own(log, inc));
  }

  // The snapshot's verdict is the one the rules give: escalated exactly when some rule's condition
  // holds, for exactly the reasons that hold.
  ghost predicate IsJudged(s: Snapshot, policy: Policy, e: Evidence, repeated: nat) {
    && s.state == (if Escalates(policy, FindingsOf(e), repeated) then ESCALATED else RESOLVED)
    && forall note :: note in s.notes <==> note.Code? && Holds(policy, FindingsOf(e), repeated, note.cause)
  }

  lemma CausesJudge(s: Snapshot, policy: Policy, e: Evidence, repeated: nat)
    requires s.state == (if Causes(policy, e, repeated) != [] then ESCALATED else RESOLVED)
    requires s.notes == CodesOf(Causes(policy, e, repeated))
    ensures IsJudged(s, policy, e, repeated)
  {
    hide Holds, CausesOf, CodesOf;
    var causes := Causes(policy, e, repeated);
    EscalatesExactly(policy, FindingsOf(e), repeated);
    CodesAre(causes);
    forall note ensures note in s.notes <==> note.Code? && Holds(policy, FindingsOf(e), repeated, note.cause) {
      if note.Code? {
        CausesExact(policy, FindingsOf(e), repeated, note.cause);
        if note.cause in causes {
          var i :| 0 <= i < |causes| && causes[i] == note.cause;
          assert CodesOf(causes)[i] == note;
        }
      }
    }
  }

  // Theorem: what a finished recording leaves behind, from evidence, policy and repeat count.
  lemma RecordingTells(log: seq<Event>, log': seq<Event>, c: Case, policy: Policy, repeated: nat)
    requires IsGood(log) && !IsDone(log, c.incidentId)
    requires IsDelivery(log, Delivery(c, Causes(policy, c.evidence, repeated), true), log')
    ensures Replay(log', c.incidentId).Rebuilt?
    ensures var s := Replay(log', c.incidentId).snapshot;
      IsJudged(s, policy, c.evidence, repeated) && Tells(log, log', c, s.state == ESCALATED) && Shows(s, Own(log', c.incidentId))
  {
    hide IsGood, IsDelivery, Causes, IsJudged, Tells, Shows, Own, Replay, IsDone;
    var causes := Causes(policy, c.evidence, repeated);
    VerdictShown(log, log', c, causes);
    DeliveryTells(log, log', c, causes);
    CausesJudge(Replay(log', c.incidentId).snapshot, policy, c.evidence, repeated);
  }

  // The facts that a phase added, by type.
  ghost predicate Adds(base: seq<Event>, log: seq<Event>, done: seq<Fact>, t: EventType, n: nat) {
    base <= log && Count(FactsOf(log[|base|..]), t) == Count(done, t) + n
  }

  // What the verification phase adds: its outcome, twice, exactly when quantum was asked for.
  lemma QuantumAdds(base: seq<Event>, log: seq<Event>, done: seq<Fact>, c: Case)
    requires Records(base, log, done + QuantumFacts(c), true)
    ensures Adds(base, log, done, QUANTUM_VERIFICATION_COMPLETED, 2 * One(c.evidence.invokeQuantum && c.evidence.routingStatus == Success))
    ensures Adds(base, log, done, QUANTUM_VERIFICATION_FAILED, 2 * One(c.evidence.invokeQuantum && c.evidence.routingStatus != Success))
  {
    hide QuantumFacts, Count;
    assert FactsOf(log[|base|..]) == done + QuantumFacts(c);
    forall t ensures Count(done + QuantumFacts(c), t) == Count(done, t) + Count(QuantumFacts(c), t) {
      CountConcat(done, QuantumFacts(c), t);
    }
    QuantumCounts(c, QUANTUM_VERIFICATION_COMPLETED);
    QuantumCounts(c, QUANTUM_VERIFICATION_FAILED);
  }

  // What the recovery phase adds, exactly when recovery was attempted.
  lemma RecoveryAdds(base: seq<Event>, log: seq<Event>, done: seq<Fact>, c: Case)
    requires Records(base, log, done + RecoveryFacts(c), true)
    ensures Adds(base, log, done, RECOVERY_STARTED, One(c.evidence.recoveryStatus != NOT_ATTEMPTED))
    ensures Adds(base, log, done, ROLLBACK_EXECUTED, One(c.evidence.recoveryStatus != NOT_ATTEMPTED && c.evidence.rollbackOccurred))
    ensures Adds(base, log, done, RECOVERY_SUCCEEDED, One(c.evidence.recoveryStatus == RecoverySuccess))
    ensures Adds(base, log, done, RECOVERY_FAILED, One(c.evidence.recoveryStatus == RecoveryFailure))
  {
    hide RecoveryFacts, Count;
    assert FactsOf(log[|base|..]) == done + RecoveryFacts(c);
    forall t ensures Count(done + RecoveryFacts(c), t) == Count(done, t) + Count(RecoveryFacts(c), t) {
      CountConcat(done, RecoveryFacts(c), t);
    }
    RecoveryCounts(c, RECOVERY_STARTED);
    RecoveryCounts(c, ROLLBACK_EXECUTED);
    RecoveryCounts(c, RECOVERY_SUCCEEDED);
    RecoveryCounts(c, RECOVERY_FAILED);
  }
}
