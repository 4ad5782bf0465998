/** The in-memory structures of an incident manager as values, and how one complete lifecycle or
    one idempotent skip carries their agreement with the log forward. */
module IncidentCaches {
  import opened IncidentContracts
  import opened Assessments
  import opened EscalationRules
  import opened Lifecycle
  import opened IncidentLog
  import opened IncidentIndexes
  import opened IncidentHistory

  // After a complete lifecycle the incident has its verdict and the replay sees it.
  lemma LifecycleRecorded(log: seq<Event>, log': seq<Event>, c: Case, causes: seq<Cause>)
    requires IsGood(log) && IsGood(log') && !IsDone(log, c.incidentId)
    requires IsDelivery(log, Delivery(c, causes, true), log')
    ensures IsDone(log', c.incidentId) && KeyedBy(log', c.incidentId, c.correlationId)
    ensures Replay(log', c.incidentId).Rebuilt?
    ensures SnapshotsOf(log') == SnapshotsOf(log)[c.incidentId := Replay(log', c.incidentId).snapshot]
  {
    var d := Delivery(c, causes, true);
    var more := log'[|log|..];
    MoreIsOf(log, d, log');
    OwnStep(log, d, log', c.incidentId);
    LifecycleShape(c, causes);
    assert more[|more| - 1].fact == TerminalFact(c, causes);
    EndedIsDone(log', c.incidentId);
    SnapshotsAfter(log, more, c.incidentId, c.correlationId);
    SoundReplay(log', c.incidentId);
  }

  lemma {:induction false} SampleOfLifecycle(more: seq<Event>, c: Case)
    requires more != [] && more[0].fact == FactOf(c, DETECTION_CREATED, DETECTED, DETECTED, Detection(c.evidence.sampleId))
    requires forall i :: 0 < i < |more| ==> more[i].fact.eventType != DETECTION_CREATED
    ensures SampleOf(more) == c.evidence.sampleId
    decreases |more|
  {
    if |more| > 1 {
      SampleOfLifecycle(more[..|more| - 1], c);
    }
  }

  // The four in-memory structures of a manager.
  datatype Caches = Caches(
    snapshots: map<string, Snapshot>,
    correlation: map<string, seq<string>>,
    samples: map<string, string>,
    counts: map<string, nat>)

  // They are what a restart over this log would rebuild.
  ghost predicate Mirrors(m: Caches, log: seq<Event>) {
    && IsGood(log)
    && m.snapshots == SnapshotsOf(log)
    && m.correlation == CorrelationIndexOf(log)
    && m.samples == SampleIndexOf(log)
    && IsCountOf(m.counts, log)
  }

  // What recording a complete lifecycle leaves in memory.
  function AfterLifecycle(m: Caches, c: Case, s: Snapshot): Caches {
    Caches(
      m.snapshots[c.incidentId := s],
      AddTo(m.correlation, c.correlationId, c.incidentId),
      m.samples[c.evidence.sampleId := c.incidentId],
      CountedOnce(m.counts, c.correlationId))
  }

  // The events of a complete lifecycle, as far as the indexes look at them.
  lemma LifecycleEvents(log: seq<Event>, log': seq<Event>, c: Case, causes: seq<Cause>) returns (more: seq<Event>)
    requires IsDelivery(log, Delivery(c, causes, true), log') && !IsDone(log, c.incidentId)
    ensures log' == log + more && more != [] && AreOf(more, c.incidentId, c.correlationId)
    ensures more[0].fact.eventType == DETECTION_CREATED && SampleOf(more) == c.evidence.sampleId
  {
    more := log'[|log|..];
    MoreIsOf(log, Delivery(c, causes, true), log');
    LifecycleShape(c, causes);
    SampleOfLifecycle(more, c);
  }

  // When recording a whole lifecycle leaves the live structures as a rebuild would.
  predicate StaysMirrored(log: seq<Event>, c: Case) {
    && c.evidence.sampleId != ""
    && !HasLaterRival(log, c.incidentId, c.evidence.sampleId)
    && c.incidentId !in DetectedUnder(log, c.correlationId)
  }

  // Theorem: after the whole lifecycle of any incident without a verdict, first delivered or
  // redelivered after a crash, each live structure against what a rebuild from the log gives:
  // snapshots and correlation index always agree, the sample index exactly for a named sample that
  // no finished incident appearing later shares, the counts exactly for an incident not detected
  // before.
  lemma MirrorsExactly(m: Caches, log: seq<Event>, log': seq<Event>, c: Case, causes: seq<Cause>)
    requires Mirrors(m, log) && !IsDone(log, c.incidentId)
    requires IsDelivery(log, Delivery(c, causes, true), log')
    ensures IsGood(log') && Replay(log', c.incidentId).Rebuilt?
    ensures var after := AfterLifecycle(m, c, Replay(log', c.incidentId).snapshot);
      && after.snapshots == SnapshotsOf(log')
      && after.correlation == CorrelationIndexOf(log')
      && (after.samples == SampleIndexOf(log')
          <==> c.evidence.sampleId != "" && !HasLaterRival(log, c.incidentId, c.evidence.sampleId))
      && (IsCountOf(after.counts, log') <==> c.incidentId !in DetectedUnder(log, c.correlationId))
      && (Mirrors(after, log') <==> StaysMirrored(log, c))
  {
    hide IsGood, Replay, IsDelivery, SnapshotsOf, CorrelationIndexOf, SampleIndexOf, IsCountOf, DetectedUnder, HasLaterRival, IsDone, AddTo;
    DeliveryKeepsGood(log, Delivery(c, causes, true), log');
    LifecycleRecorded(log, log', c, causes);
    CorrelationExactly(log, log', c, causes);
    SamplesExactly(log, log', c, causes);
    CountsExactly(m, log, log', c, causes, Replay(log', c.incidentId).snapshot);
  }

  lemma CorrelationExactly(log: seq<Event>, log': seq<Event>, c: Case, causes: seq<Cause>)
    requires !IsDone(log, c.incidentId) && IsDelivery(log, Delivery(c, causes, true), log')
    ensures AddTo(CorrelationIndexOf(log), c.correlationId, c.incidentId) == CorrelationIndexOf(log')
  {
    hide IsDelivery, CorrelationIndexOf, IsDone, AddTo;
    var more := LifecycleEvents(log, log', c, causes);
    CorrelationIndexAfter(log, more, c.incidentId, c.correlationId);
    if c.incidentId in Incidents(log) {
      DeliveredUnderKey(log, Delivery(c, causes, true), log');
      FiledAlready(log, c.incidentId, c.correlationId);
    }
  }

  lemma DeliveredUnderKey(log: seq<Event>, d: Delivery, log': seq<Event>)
    requires IsDelivery(log, d, log')
    ensures KeyedBy(log, d.c.incidentId, d.c.correlationId)
  {
  }

  lemma SamplesExactly(log: seq<Event>, log': seq<Event>, c: Case, causes: seq<Cause>)
    requires IsGood(log) && IsGood(log') && !IsDone(log, c.incidentId) && IsDelivery(log, Delivery(c, causes, true), log')
    ensures SampleIndexOf(log)[c.evidence.sampleId := c.incidentId] == SampleIndexOf(log')
      <==> c.evidence.sampleId != "" && !HasLaterRival(log, c.incidentId, c.evidence.sampleId)
  {
    hide IsGood, IsDelivery, SampleIndexOf, HasLaterRival, IsDone, Own;
    LifecycleRecorded(log, log', c, causes);
    var more := LifecycleEvents(log, log', c, causes);
    OwnAfter(log, more, c.incidentId, c.correlationId);
    SampleOfConcat(Own(log, c.incidentId), more);
    SampleIndexExactly(log, more, c.incidentId, c.correlationId, c.evidence.sampleId);
  }

  // A new incident stays mirrored unless its sample has no name.
  lemma NewStaysMirrored(log: seq<Event>, c: Case)
    requires c.incidentId !in Incidents(log)
    ensures StaysMirrored(log, c) <==> c.evidence.sampleId != ""
  {
    var before := SplitAt(Incidents(log), c.incidentId);
    IncidentsMembers(log, c.incidentId);
  }

  // A skip looks at no evidence.
  const NO_EVIDENCE := Evidence("", false, NotInvoked, LOW, Normal, REJECTED, NOT_ATTEMPTED, false)

  lemma NothingServed(log: seq<Event>, inc: string, key: string)
    requires KeyedBy(log, inc, key)
    ensures IsServed(log, log, inc, key)
  {
    assert IsDelivery(log, Delivery(Case(inc, key, NO_EVIDENCE), [], false), log);
  }

  // Serving an incident the log knows serves any request.
  lemma KnownServed(log: seq<Event>, log': seq<Event>, known: string, knownKey: string, inc: string, key: string)
    requires IsServed(log, log', known, knownKey) && known in Incidents(log)
    ensures IsServed(log, log', inc, key)
  {
    hide IsDelivery;
  }

  lemma DeliveryServed(log: seq<Event>, d: Delivery, log': seq<Event>)
    requires IsDelivery(log, d, log')
    ensures IsServed(log, log', d.c.incidentId, d.c.correlationId)
  {
    hide IsDelivery;
  }

  // The live repeat counts stay right exactly when the lifecycle was not begun before: one that a
  // crash cut short has its detection in the log already, and recording it again counts it twice
  // in memory, until the next restart.
  lemma CountsExactly(m: Caches, log: seq<Event>, log': seq<Event>, c: Case, causes: seq<Cause>, s: Snapshot)
    requires Mirrors(m, log) && !IsDone(log, c.incidentId)
    requires IsDelivery(log, Delivery(c, causes, true), log')
    ensures IsCountOf(AfterLifecycle(m, c, s).counts, log') <==> c.incidentId !in DetectedUnder(log, c.correlationId)
  {
    hide IsGood, IsDelivery, SnapshotsOf, CorrelationIndexOf, SampleIndexOf, DetectedUnder, AddTo;
    var key := c.correlationId;
    var more := LifecycleEvents(log, log', c, causes);
    DetectedAfter(log, more, c.incidentId, key);
    assert CountFor(m.counts, key) == |DetectedUnder(log, key)|;
    if c.incidentId in DetectedUnder(log, key) {
      assert DetectedUnder(log', key) == DetectedUnder(log, key);
    }
  }

  // Which incidents count as detected after a delivery that reached its end.
  lemma DeliveryDetects(log: seq<Event>, d: Delivery, log': seq<Event>)
    requires IsDelivery(log, d, log') && d.whole
    ensures var added := if IsDone(log, d.c.incidentId) then {} else {d.c.incidentId};
      && DetectedUnder(log', d.c.correlationId) == DetectedUnder(log, d.c.correlationId) + added
      && forall key :: key != d.c.correlationId ==> DetectedUnder(log', key) == DetectedUnder(log, key)
  {
    hide IsDelivery, DetectedUnder, IsDone;
    if IsDone(log, d.c.incidentId) {
      SkippedDetects(log, d, log');
    } else {
      assert d == Delivery(d.c, d.causes, true);
      var more := LifecycleEvents(log, log', d.c, d.causes);
      DetectedAfter(log, more, d.c.incidentId, d.c.correlationId);
    }
  }

  lemma SkippedDetects(log: seq<Event>, d: Delivery, log': seq<Event>)
    requires IsDelivery(log, d, log') && d.whole && IsDone(log, d.c.incidentId)
    ensures forall k :: DetectedUnder(log', k) == DetectedUnder(log, k)
  {
    hide DetectedUnder, Records;
    SkipDetects(log, log', d.c.incidentId, KeyOf(log, d.c.incidentId), Replay(log, d.c.incidentId).snapshot.state);
  }

  lemma SkipDetects(log: seq<Event>, log': seq<Event>, inc: string, key: string, state: State)
    requires Records(log, log', [SkipFact(inc, key, state)], true)
    ensures forall k :: DetectedUnder(log', k) == DetectedUnder(log, k)
  {
    var more := log'[|log|..];
    assert log' == log + more && FactsOf(more)[0] == more[0].fact && |more| == 1;
    assert log' == log + [more[0]];
  }

  lemma SkipMirrored(m: Caches, log: seq<Event>, e: Event, existing: Snapshot)
    requires Mirrors(m, log) && IsGood(log + [e]) && Replay(log, existing.incidentId) == Rebuilt(existing)
    requires e.fact == SkipFact(existing.incidentId, existing.correlationId, existing.state) && IsTerminal(existing.state)
    ensures Replay(log + [e], existing.incidentId).Rebuilt?
    ensures Mirrors(m.(snapshots := m.snapshots[existing.incidentId := Replay(log + [e], existing.incidentId).snapshot]), log + [e])
  {
    SkipRecorded(log, e, existing);
    CountsAfterSkip(m.counts, log, e);
  }

  // A skip is a delivery of an incident the log knows.
  lemma SkipServed(log: seq<Event>, log': seq<Event>, existing: Snapshot, whole: bool)
    requires IsGood(log) && Replay(log, existing.incidentId) == Rebuilt(existing) && IsTerminal(existing.state)
    requires Records(log, log', [SkipFact(existing.incidentId, existing.correlationId, existing.state)], whole)
    ensures IsServed(log, log', existing.incidentId, existing.correlationId) && existing.incidentId in Incidents(log)
    ensures IsGood(log')
  {
    hide IsGood, KeyedBy, Records;
    SkipFacts(log, existing);
    IncidentsMembers(log, existing.incidentId);
    var d := Delivery(Case(existing.incidentId, existing.correlationId, NO_EVIDENCE), [], whole);
    assert IsDelivery(log, d, log');
    DeliveryKeepsGood(log, d, log');
  }

  // A sample whose incident has no verdict is not in a rebuilt index.
  lemma NotIndexed(log: seq<Event>, sampleId: string)
    ensures sampleId in SampleIndexOf(log) ==> IsDone(log, SampleIndexOf(log)[sampleId])
  {
    SampleIndexIsDone(log, Incidents(log), sampleId);
  }

  lemma SkipFacts(log: seq<Event>, existing: Snapshot)
    requires IsGood(log) && Replay(log, existing.incidentId) == Rebuilt(existing) && IsTerminal(existing.state)
    ensures existing.correlationId == KeyOf(log, existing.incidentId)
    ensures KeyedBy(log, existing.incidentId, existing.correlationId)
    ensures IsDone(log, existing.incidentId)
  {
    IncidentsMembers(log, existing.incidentId);
  }

  lemma SkipRecorded(log: seq<Event>, e: Event, existing: Snapshot)
    requires IsGood(log) && IsGood(log + [e]) && Replay(log, existing.incidentId) == Rebuilt(existing)
    requires e.fact == SkipFact(existing.incidentId, existing.correlationId, existing.state) && IsTerminal(existing.state)
    ensures var inc := existing.incidentId;
      && Replay(log + [e], inc).Rebuilt?
      && SnapshotsOf(log + [e]) == SnapshotsOf(log)[inc := Replay(log + [e], inc).snapshot]
      && CorrelationIndexOf(log + [e]) == CorrelationIndexOf(log)
      && SampleIndexOf(log + [e]) == SampleIndexOf(log)
      && Replay(log + [e], inc).snapshot.state == existing.state
      && KeyedBy(log + [e], inc, existing.correlationId)
  {
    var inc := existing.incidentId;
    SkipFacts(log, existing);
    OwnAfter(log, [e], inc, existing.correlationId);
    SoundReplay(log + [e], inc);
    SoundReplay(log, inc);
    SnapshotsAfter(log, [e], inc, existing.correlationId);
    IncidentsMembers(log, inc);
    CorrelationIndexAfter(log, [e], inc, existing.correlationId);
    SampleIndexAfterSkip(log, e);
  }

  lemma ReplayNames(log: seq<Event>, inc: string)
    ensures Replay(log, inc).Rebuilt? ==> Replay(log, inc).snapshot.incidentId == inc
  {
  }

  // An indexed sample leads to an incident with a verdict.
  lemma {:induction false} SampleIndexIsDone(log: seq<Event>, order: seq<string>, sampleId: string)
    ensures sampleId in Sampled(log, order) ==> IsDone(log, Sampled(log, order)[sampleId])
    decreases |order|
  {
    if order != [] {
      SampleIndexIsDone(log, order[..|order| - 1], sampleId);
    }
  }

  lemma IsNew(log: seq<Event>, inc: string, key: string)
    requires inc !in Incidents(log)
    ensures KeyedBy(log, inc, key) && !IsDone(log, inc)
  {
    IncidentsMembers(log, inc);
  }
}
