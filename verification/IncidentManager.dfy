/** The incident manager over its store: rebuilding from the log, recording a lifecycle event by
    event, idempotent skips, and the two entry points (process() and the incident worker).
    The process may die at any append. */
module IncidentManagers {
  import opened Wrappers
  import opened IncidentContracts
  import opened Assessments
  import opened EscalationRules
  import opened Lifecycle
  import opened IncidentLog
  import opened IncidentIndexes
  import opened EventStores
  import opened IncidentHistory
  import opened IncidentCaches
  import opened IncidentJournal

  datatype Emission = Emitted | Rejected | Killed

  datatype Outcome = Finished(snapshot: Snapshot) | Raised | Dead

  datatype Processed = Done(snapshot: Snapshot) | Skipped(snapshot: Snapshot) | InFlight | ChainFailed | Lost

  class IncidentManager {
    const store: JsonlEventStore
    const policy: Policy
    const keyOf: string -> string
    const clock: nat -> int
    var tick: nat
    var snapshots: map<string, Snapshot>
    var correlationIndex: map<string, seq<string>>
    var sampleIndex: map<string, string>
    var counts: map<string, nat>
    var inFlight: set<string>

    // The cached snapshots and the correlation index are those of the log, in every state a live
    // process can be in between two calls, redelivered incidents included.
    ghost predicate Valid()
      reads this, store
    {
      && store.Valid() && IsGood(store.Log())
      && snapshots == SnapshotsOf(store.Log()) && correlationIndex == CorrelationIndexOf(store.Log())
    }

    ghost function Memory(): Caches
      reads this
    {
      Caches(snapshots, correlationIndex, sampleIndex, counts)
    }

    // All four in-memory structures are what a restart would rebuild.
    ghost predicate Consistent()
      reads this, store
    {
      store.Valid() && Mirrors(Memory(), store.Log())
    }

    constructor (store: JsonlEventStore, policy: Policy, keyOf: string -> string, clock: nat -> int)
      requires store.Valid() && IsGood(store.Log())
      ensures this.store == store && this.policy == policy && this.keyOf == keyOf
      ensures Consistent() && inFlight == {}
    {
      this.store, this.policy, this.keyOf, this.clock := store, policy, keyOf, clock;
      tick, snapshots, correlationIndex, sampleIndex, counts, inFlight := 0, map[], map[], map[], map[], {};
      new;
      var log := store.ReadAll(None);
      counts := BuildTracker(log);
      RebuildSnapshots(log);
    }

    // Distinct incident ids per key among the detection events.
    static method BuildTracker(log: seq<Event>) returns (counts: map<string, nat>)
      ensures IsCountOf(counts, log)
    {
      counts := map[];
      var seen: map<string, set<string>> := map[];
      for i := 0 to |log|
        invariant IsCountOf(counts, log[..i]) && IsSeenOf(seen, log[..i])
      {
        assert log[..i + 1] == log[..i] + [log[i]];
        if log[i].fact.eventType == DETECTION_CREATED {
          counts, seen := CountDetection(log[i], counts, seen, log[..i]);
        } else {
          CountSame(log[..i], log[i], counts);
          SeenStep(log[..i], log[i], seen, DetectedUnder(log[..i], log[i].fact.correlationId));
        }
      }
      assert log[..|log|] == log;
    }

    static method CountDetection(e: Event, counts: map<string, nat>, seen: map<string, set<string>>, ghost log: seq<Event>)
      returns (counts': map<string, nat>, seen': map<string, set<string>>)
      requires e.fact.eventType == DETECTION_CREATED && IsCountOf(counts, log) && IsSeenOf(seen, log)
      ensures IsCountOf(counts', log + [e]) && IsSeenOf(seen', log + [e])
    {
      var f := e.fact;
      var known := if f.correlationId in seen then seen[f.correlationId] else {};
      counts', seen' := counts, seen[f.correlationId := known + {f.incidentId}];
      SeenStep(log, e, seen, known);
      if f.incidentId !in known {
        CountStep(log, e, counts);
        counts' := counts[f.correlationId := CountFor(counts, f.correlationId) + 1];
      } else {
        CountSame(log, e, counts);
      }
    }

    // First pass: the order of first appearance, the key of each incident's first event, and the
    // last sample its detections name.
    static method Survey(log: seq<Event>) returns (order: seq<string>, keys: map<string, string>, samples: map<string, string>)
      ensures order == Incidents(log) && IsKeyMap(keys, log) && IsSampleMap(samples, log)
    {
      order, keys, samples := [], map[], map[];
      for i := 0 to |log|
        invariant order == Incidents(log[..i]) && IsKeyMap(keys, log[..i]) && IsSampleMap(samples, log[..i])
      {
        var e := log[i];
        KeyStep(log[..i], e, keys);
        SampleStep(log[..i], e, samples);
        assert log[..i + 1][..i] == log[..i] && log[..i + 1] == log[..i] + [e];
        if e.fact.incidentId !in order {
          order := order + [e.fact.incidentId];
          keys := keys[e.fact.incidentId := e.fact.correlationId];
        }
        if e.fact.eventType == DETECTION_CREATED {
          if e.fact.payload.Detection? && e.fact.payload.sampleId != "" {
            samples := samples[e.fact.incidentId := e.fact.payload.sampleId];
          }
        }
      }
      assert log[..|log|] == log;
    }

    method RebuildSnapshots(log: seq<Event>)
      requires IsSound(log)
      requires snapshots == map[] && correlationIndex == map[] && sampleIndex == map[]
      modifies this`snapshots, this`correlationIndex, this`sampleIndex
      ensures snapshots == SnapshotsOf(log)
      ensures correlationIndex == CorrelationIndexOf(log)
      ensures sampleIndex == SampleIndexOf(log)
    {
      hide Grouped, Sampled, IsSnapshotMap, IsKeyMap, IsSampleMap, Replay, SnapshotsOf, Incidents;
      var order, keys, samples := Survey(log);
      NothingFiled(log);
      assert order[..0] == [];
      for i := 0 to |order|
        invariant IsSnapshotMap(snapshots, log, order[..i])
        invariant correlationIndex == Grouped(log, order[..i])
        invariant sampleIndex == Sampled(log, order[..i])
      {
        assert order[..i + 1][..i] == order[..i] && order[..i + 1] == order[..i] + [order[i]];
        InOrder(log, order[i]);
        Admit(log, order[i], keys, samples, order[..i]);
      }
      assert order[..|order|] == order;
      SnapshotMapUnique(snapshots, log);
    }

    // Second pass, for one incident.
    method Admit(log: seq<Event>, inc: string, keys: map<string, string>, samples: map<string, string>, ghost before: seq<string>)
      requires Replay(log, inc).Rebuilt? && inc in Incidents(log) && IsKeyMap(keys, log) && IsSampleMap(samples, log)
      requires IsSnapshotMap(snapshots, log, before)
      requires correlationIndex == Grouped(log, before) && sampleIndex == Sampled(log, before)
      modifies this`snapshots, this`correlationIndex, this`sampleIndex
      ensures IsSnapshotMap(snapshots, log, before + [inc])
      ensures correlationIndex == Grouped(log, before + [inc]) && sampleIndex == Sampled(log, before + [inc])
    {
      hide Grouped, Sampled, IsSnapshotMap, IsKeyMap, IsSampleMap, Replay, AddTo;
      AdmitStep(log, inc, keys, samples, snapshots, before);
      var r := ReconstructSnapshot(log, inc);
      snapshots := snapshots[inc := r.snapshot];
      File(keys[inc], inc);
      if inc in samples && IsTerminal(r.snapshot.state) {
        sampleIndex := sampleIndex[samples[inc] := inc];
      }
    }

    // setdefault(key, []), then append unless present.
    method File(key: string, inc: string)
      modifies this`correlationIndex
      ensures correlationIndex == AddTo(old(correlationIndex), key, inc)
    {
      if key !in correlationIndex {
        correlationIndex := correlationIndex[key := []];
      }
      if inc !in correlationIndex[key] {
        correlationIndex := correlationIndex[key := correlationIndex[key] + [inc]];
      }
    }

    // ---- Recording ------------------------------------------------------------------------------

    method Emit(f: Fact, ghost base: seq<Event>, ghost done: seq<Fact>) returns (r: Emission)
      requires store.Valid() && Records(base, store.Log(), done, true)
      modifies this`tick, store
      ensures r.Rejected? <==> !IsEmittable(f)
      ensures r.Emitted? ==> store.Valid()
      ensures !r.Rejected? ==> Records(base, store.Log(), done + [f], r.Emitted?)
      ensures r.Emitted? ==> tick == old(tick) + 1 && |store.Log()| == |old(store.Log())| + 1 && old(store.Log()) <= store.Log()
      ensures r.Emitted? ==> store.Log()[|old(store.Log())|].fact == f && store.Log()[|old(store.Log())|].timestamp == clock(tick)
    {
      if f.next != f.previous && !IsValidTransition(f.previous, f.next, f.reason) {
        return Rejected;
      }
      var id := store.NewEventId();
      tick := tick + 1;
      var e := Event(id, clock(tick), f);
      RecordsOneMore(base, store.Log(), done, e);
      var w := store.Append(e);
      r := if w == Died then Killed else Emitted;
    }

    method RecordDetection(c: Case, ghost base: seq<Event>) returns (r: Emission, state: State)
      requires store.Valid() && Records(base, store.Log(), [], true)
      modifies this`tick, store
      ensures r.Emitted? ==> store.Valid() && state == ASSESSING
      ensures !r.Rejected? && Records(base, store.Log(), DetectionFacts(c), r.Emitted?)
    {
      ghost var plan := DetectionFacts(c);
      state := DETECTED;
      r := Emit(FactOf(c, DETECTION_CREATED, state, DETECTED, Detection(c.evidence.sampleId)), base, []);
      assert [] + plan[..1] == plan[..1];
      if !r.Emitted? { RecordsWiden(base, store.Log(), plan[..1], plan); return; }
      r := Emit(FactOf(c, QUANTUM_ROUTING_REQUESTED, state, ASSESSING, NoPayload), base, plan[..1]);
      assert plan[..1] + [plan[1]] == plan;
      state := ASSESSING;
    }

    method RecordQuantum(c: Case, before: State, ghost base: seq<Event>, ghost done: seq<Fact>) returns (r: Emission, state: State)
      requires before == ASSESSING
      requires store.Valid() && Records(base, store.Log(), done, true)
      modifies this`tick, store
      ensures r.Emitted? ==> store.Valid() && state == MITIGATING
      ensures !r.Rejected? && Records(base, store.Log(), done + QuantumFacts(c), r.Emitted?)
      ensures r.Emitted? ==>
        && Adds(base, store.Log(), done, QUANTUM_VERIFICATION_COMPLETED, 2 * One(c.evidence.invokeQuantum && c.evidence.routingStatus == Success))
        && Adds(base, store.Log(), done, QUANTUM_VERIFICATION_FAILED, 2 * One(c.evidence.invokeQuantum && c.evidence.routingStatus != Success))
    {
      hide Records, Adds;
      ghost var plan := QuantumFacts(c);
      state := before;
      if c.evidence.invokeQuantum {
        r := Emit(FactOf(c, QUANTUM_ROUTING_REQUESTED, state, VERIFYING, NoPayload), base, done);
        assert done + [plan[0]] == done + plan[..1] <= done + plan;
        if !r.Emitted? { RecordsWiden(base, store.Log(), done + plan[..1], done + plan); return; }
        state := VERIFYING;
        var failed := c.evidence.routingStatus != Success;
        var triggering := if failed then QUANTUM_VERIFICATION_FAILED else QUANTUM_VERIFICATION_COMPLETED;
        r := Emit(FactOf(c, triggering, state, VERIFYING, NoPayload), base, done + plan[..1]);
        assert done + plan[..1] + [plan[1]] == done + plan[..2] <= done + plan;
        if !r.Emitted? { RecordsWiden(base, store.Log(), done + plan[..2], done + plan); return; }
        r := Emit(FactOf(c, triggering, state, MITIGATING, NoPayload), base, done + plan[..2]);
        assert done + plan[..2] + [plan[2]] == done + plan;
      } else {
        r := Emit(FactOf(c, QUANTUM_ROUTING_REQUESTED, state, MITIGATING, NoPayload), base, done);
        assert done + [plan[0]] == done + plan;
      }
      state := MITIGATING;
      if r.Emitted? { QuantumAdds(base, store.Log(), done, c); }
    }

    method RecordMitigation(c: Case, state: State, ghost base: seq<Event>, ghost done: seq<Fact>) returns (r: Emission)
      requires state == MITIGATING
      requires store.Valid() && Records(base, store.Log(), done, true)
      modifies this`tick, store
      ensures r.Emitted? ==> store.Valid()
      ensures !r.Rejected? && Records(base, store.Log(), done + MitigationFacts(c), r.Emitted?)
    {
      hide Records;
      ghost var plan := MitigationFacts(c);
      r := Emit(FactOf(c, HYBRID_DECISION_CREATED, state, MITIGATING, NoPayload), base, done);
      assert done + [plan[0]] == done + plan[..1] <= done + plan;
      if !r.Emitted? { RecordsWiden(base, store.Log(), done + plan[..1], done + plan); return; }
      r := Emit(FactOf(c, RISK_ASSESSED, state, MITIGATING, NoPayload), base, done + plan[..1]);
      assert done + plan[..1] + [plan[1]] == done + plan[..2] <= done + plan;
      if !r.Emitted? { RecordsWiden(base, store.Log(), done + plan[..2], done + plan); return; }
      r := Emit(FactOf(c, DEFENSE_ACTION_SELECTED, state, MITIGATING, NoPayload), base, done + plan[..2]);
      assert done + plan[..2] + [plan[2]] == done + plan[..3] <= done + plan;
      if !r.Emitted? { RecordsWiden(base, store.Log(), done + plan[..3], done + plan); return; }
      r := Emit(FactOf(c, DEFENSE_ACTION_EXECUTED, state, MITIGATING, NoPayload), base, done + plan[..3]);
      assert done + plan[..3] + [plan[3]] == done + plan;
    }

    method RecordRecovery(c: Case, before: State, ghost base: seq<Event>, ghost done: seq<Fact>) returns (r: Emission, state: State)
      requires before == MITIGATING
      requires store.Valid() && Records(base, store.Log(), done, true)
      modifies this`tick, store
      ensures r.Emitted? ==> store.Valid() && state == StateBeforeVerdict(c)
      ensures !r.Rejected? && Records(base, store.Log(), done + RecoveryFacts(c), r.Emitted?)
      ensures r.Emitted? ==>
        && Adds(base, store.Log(), done, ROLLBACK_EXECUTED, One(c.evidence.recoveryStatus != NOT_ATTEMPTED && c.evidence.rollbackOccurred))
        && Adds(base, store.Log(), done, RECOVERY_SUCCEEDED, One(c.evidence.recoveryStatus == RecoverySuccess))
        && Adds(base, store.Log(), done, RECOVERY_FAILED, One(c.evidence.recoveryStatus == RecoveryFailure))
    {
      hide Adds, Records, RecoveryFacts, One;
      state := before;
      r := Emitted;
      if c.evidence.recoveryStatus == NOT_ATTEMPTED {
        NoRecovery(c, done);
      } else {
        r := RecordAttempt(c, before, base, done);
        state := RECOVERY;
      }
      if r.Emitted? { RecoveryAdds(base, store.Log(), done, c); }
    }

    method RecordAttempt(c: Case, before: State, ghost base: seq<Event>, ghost done: seq<Fact>) returns (r: Emission)
      requires before == MITIGATING && Recovers(c)
      requires store.Valid() && Records(base, store.Log(), done, true)
      modifies this`tick, store
      ensures r.Emitted? ==> store.Valid()
      ensures !r.Rejected? && Records(base, store.Log(), done + RecoveryFacts(c), r.Emitted?)
    {
      ghost var f, g := FactOf(c, DEFENSE_VERIFICATION_FAILED, MITIGATING, RECOVERY, NoPayload), FactOf(c, RECOVERY_STARTED, RECOVERY, RECOVERY, NoPayload);
      RecoverySplits(c, done, f, g);
      hide Records, RecoveryFacts, RollbackFacts, RecoveryVerdict;
      r := Emit(FactOf(c, DEFENSE_VERIFICATION_FAILED, before, RECOVERY, NoPayload), base, done);
      if !r.Emitted? { RecordsWiden(base, store.Log(), done + [f], done + RecoveryFacts(c)); return; }
      r := Emit(FactOf(c, RECOVERY_STARTED, RECOVERY, RECOVERY, NoPayload), base, done + [f]);
      if !r.Emitted? { RecordsWiden(base, store.Log(), done + [f] + [g], done + RecoveryFacts(c)); return; }
      r := RecordRecoveryVerdict(c, RECOVERY, base, done + [f] + [g]);
    }

    method RecordRecoveryVerdict(c: Case, state: State, ghost base: seq<Event>, ghost done: seq<Fact>) returns (r: Emission)
      requires state == RECOVERY
      requires store.Valid() && Records(base, store.Log(), done, true)
      modifies this`tick, store
      ensures r.Emitted? ==> store.Valid()
      ensures !r.Rejected?
      ensures Records(base, store.Log(), done + RollbackFacts(c) + [FactOf(c, RecoveryVerdict(c), RECOVERY, RECOVERY, NoPayload)], r.Emitted?)
    {
      ghost var last := [FactOf(c, RecoveryVerdict(c), RECOVERY, RECOVERY, NoPayload)];
      if c.evidence.rollbackOccurred {
        r := Emit(FactOf(c, ROLLBACK_EXECUTED, state, RECOVERY, NoPayload), base, done);
        if !r.Emitted? { RecordsWiden(base, store.Log(), done + RollbackFacts(c), done + RollbackFacts(c) + last); return; }
      } else {
        assert done + RollbackFacts(c) == done;
      }
      if c.evidence.recoveryStatus == RecoverySuccess {
        r := Emit(FactOf(c, RECOVERY_SUCCEEDED, state, RECOVERY, NoPayload), base, done + RollbackFacts(c));
      } else {
        r := Emit(FactOf(c, RECOVERY_FAILED, state, RECOVERY, NoPayload), base, done + RollbackFacts(c));
      }
    }

    // The phases in order, up to the escalation decision.
    method RecordOpenPart(c: Case, ghost base: seq<Event>) returns (r: Emission, state: State)
      requires store.Valid() && base == store.Log()
      modifies this`tick, store
      ensures r.Emitted? ==> store.Valid() && state == StateBeforeVerdict(c)
      ensures !r.Rejected? && Records(base, store.Log(), OpenFacts(c), r.Emitted?)
    {
      ghost var d, q, m := DetectionFacts(c), QuantumFacts(c), MitigationFacts(c);
      RecordsNothing(base);
      r, state := RecordDetection(c, base);
      if !r.Emitted? { RecordsWiden(base, store.Log(), d, OpenFacts(c)); return; }
      r, state := RecordQuantum(c, state, base, d);
      if !r.Emitted? { RecordsWiden(base, store.Log(), d + q, OpenFacts(c)); return; }
      r := RecordMitigation(c, state, base, d + q);
      if !r.Emitted? { RecordsWiden(base, store.Log(), d + q + m, OpenFacts(c)); return; }
      r, state := RecordRecovery(c, state, base, d + q + m);
    }

    method RecordVerdict(c: Case, before: State, repeated: nat, ghost base: seq<Event>) returns (r: Emission)
      requires before == StateBeforeVerdict(c)
      requires store.Valid() && Records(base, store.Log(), OpenFacts(c), true)
      modifies this`tick, store
      ensures r.Emitted? ==> store.Valid()
      ensures !r.Rejected?
      ensures Records(base, store.Log(), LifecycleFacts(c, Causes(policy, c.evidence, repeated)), r.Emitted?)
    {
      var escalate, reasons := EvaluateEscalation(FindingsOf(c.evidence), repeated, policy);
      EscalatesExactly(policy, FindingsOf(c.evidence), repeated);
      if escalate {
        r := Emit(Fact(c.correlationId, c.incidentId, INCIDENT_ESCALATED, before, ESCALATED, Joined(reasons), Escalation(reasons)), base, OpenFacts(c));
      } else {
        r := Emit(FactOf(c, INCIDENT_RESOLVED, before, RESOLVED, NoPayload), base, OpenFacts(c));
      }
    }

    method RecordAllEvents(c: Case, repeated: nat) returns (r: Emission)
      requires store.Valid() && IsGood(store.Log())
      requires KeyedBy(store.Log(), c.incidentId, c.correlationId) && !IsDone(store.Log(), c.incidentId)
      modifies this`tick, store
      ensures r.Emitted? ==> store.Valid()
      ensures !r.Rejected? && IsGood(store.Log())
      ensures IsDelivery(old(store.Log()), Delivery(c, Causes(policy, c.evidence, repeated), r.Emitted?), store.Log())
    {
      hide IsGood, KeyedBy, IsDone, OpenFacts;
      ghost var base, causes := store.Log(), Causes(policy, c.evidence, repeated);
      var state;
      r, state := RecordOpenPart(c, base);
      if r.Emitted? {
        r := RecordVerdict(c, state, repeated, base);
      } else {
        RecordsWiden(base, store.Log(), OpenFacts(c), LifecycleFacts(c, causes));
      }
      DeliveryKeepsGood(base, Delivery(c, causes, r.Emitted?), store.Log());
    }

    // The whole lifecycle of an incident that has no verdict yet.  It never raises; what reaches
    // the log is a prefix of the lifecycle's facts, the whole of it unless the process dies.
    method RecordFullLifecycle(c: Case) returns (r: Outcome)
      requires Valid()
      requires KeyedBy(store.Log(), c.incidentId, c.correlationId) && !IsDone(store.Log(), c.incidentId)
      modifies this`tick, this`snapshots, this`correlationIndex, this`sampleIndex, this`counts, store
      ensures !r.Raised? && IsGood(store.Log())
      ensures IsDelivery(old(store.Log()), LifecycleOf(c, old(counts), r.Finished?), store.Log())
      ensures r.Finished? ==> Valid() && Memory() == AfterLifecycle(old(Memory()), c, r.snapshot)
      ensures r.Finished? ==> r.snapshot.incidentId == c.incidentId && IsTerminal(r.snapshot.state)
      ensures r.Finished? ==> IsJudged(r.snapshot, policy, c.evidence, CountFor(old(counts), c.correlationId) + 1)
      ensures r.Finished? ==> Tells(old(store.Log()), store.Log(), c, r.snapshot.state == ESCALATED) && Shows(r.snapshot, Own(store.Log(), c.incidentId))
      ensures r.Finished? && old(Consistent()) ==> (Consistent() <==> StaysMirrored(old(store.Log()), c))
    {
      hide IsJudged, Tells, Shows, Own, IsGood, Replay, SnapshotsOf, CorrelationIndexOf, SampleIndexOf, IsCountOf, IsDone, IsDelivery, Causes, Records;
      ghost var log, memory := store.Log(), Memory();
      var repeated := CountFor(counts, c.correlationId) + 1;
      counts := counts[c.correlationId := repeated];
      var emission := RecordAllEvents(c, repeated);
      if !emission.Emitted? { return Dead; }
      RecordingTells(log, store.Log(), c, policy, repeated);
      r := UpdateCaches(c, log, LifecycleOf(c, memory.counts, true));
      if Mirrors(memory, log) {
        MirrorsExactly(memory, log, store.Log(), c, LifecycleOf(c, memory.counts, true).causes);
      }
    }

    // The delivery this call amounts to, given the counts it starts from.
    ghost function LifecycleOf(c: Case, counts: map<string, nat>, whole: bool): Delivery {
      Delivery(c, Causes(policy, c.evidence, CountFor(counts, c.correlationId) + 1), whole)
    }

    // Replay the incident from the events of its key, and file it.
    method UpdateCaches(c: Case, ghost log: seq<Event>, ghost d: Delivery) returns (r: Outcome)
      requires store.Valid() && IsGood(log) && IsGood(store.Log())
      requires snapshots == SnapshotsOf(log) && correlationIndex == CorrelationIndexOf(log)
      requires !IsDone(log, c.incidentId) && d.c == c && d.whole && IsDelivery(log, d, store.Log())
      modifies this`snapshots, this`correlationIndex, this`sampleIndex
      ensures r.Finished? && Valid()
      ensures Replay(store.Log(), c.incidentId) == Rebuilt(r.snapshot)
      ensures r.snapshot.incidentId == c.incidentId && IsTerminal(r.snapshot.state)
      ensures snapshots == old(snapshots)[c.incidentId := r.snapshot]
      ensures correlationIndex == AddTo(old(correlationIndex), c.correlationId, c.incidentId)
      ensures sampleIndex == old(sampleIndex)[c.evidence.sampleId := c.incidentId]
    {
      hide IsGood, IsDelivery, Own, SnapshotsOf, CorrelationIndexOf, KeyedBy, AddTo;
      LifecycleRecorded(log, store.Log(), c, d.causes);
      CorrelationExactly(log, store.Log(), c, d.causes);
      ReplayNames(store.Log(), c.incidentId);
      var events := store.ReadAll(Some(c.correlationId));
      OwnWithKey(store.Log(), c.incidentId, c.correlationId);
      var rebuilt := ReconstructSnapshot(events, c.incidentId);
      if !rebuilt.Rebuilt? { return Raised; }
      snapshots := snapshots[c.incidentId := rebuilt.snapshot];
      File(c.correlationId, c.incidentId);
      if IsTerminal(rebuilt.snapshot.state) {
        sampleIndex := sampleIndex[c.evidence.sampleId := c.incidentId];
      }
      r := Finished(rebuilt.snapshot);
    }

    // ---- Idempotent skips -----------------------------------------------------------------------

    method AppendIdempotentSkip(existing: Snapshot) returns (alive: bool)
      requires Valid() && Replay(store.Log(), existing.incidentId) == Rebuilt(existing) && IsTerminal(existing.state)
      modifies this`tick, this`snapshots, store
      ensures Records(old(store.Log()), store.Log(), [SkipFact(existing.incidentId, existing.correlationId, existing.state)], alive)
      ensures IsGood(store.Log())
      ensures alive ==> Valid() && existing.incidentId in snapshots
      ensures alive ==> snapshots[existing.incidentId].incidentId == existing.incidentId && snapshots[existing.incidentId].state == existing.state
      ensures alive && old(Consistent()) ==> Consistent()
    {
      hide IsGood, Replay, SnapshotsOf, CorrelationIndexOf, SampleIndexOf, IsCountOf;
      ghost var log, memory := store.Log(), Memory();
      var e;
      alive, e := AppendSkipEvent(existing);
      if !alive { return; }
      RefreshSnapshot(existing, log, e);
      if Mirrors(memory, log) {
        SkipMirrored(memory, log, e, existing);
      }
    }

    method AppendSkipEvent(existing: Snapshot) returns (alive: bool, e: Event)
      requires store.Valid() && IsGood(store.Log())
      requires Replay(store.Log(), existing.incidentId) == Rebuilt(existing) && IsTerminal(existing.state)
      modifies this`tick, store
      ensures e.fact == SkipFact(existing.incidentId, existing.correlationId, existing.state)
      ensures Records(old(store.Log()), store.Log(), [e.fact], alive)
      ensures IsGood(store.Log())
      ensures alive ==> store.Valid() && store.Log() == old(store.Log()) + [e]
    {
      ghost var log := store.Log();
      RecordsNothing(log);
      var id := store.NewEventId();
      tick := tick + 1;
      e := Event(id, clock(tick), SkipFact(existing.incidentId, existing.correlationId, existing.state));
      RecordsOneMore(log, log, [], e);
      assert [] + [e.fact] == [e.fact];
      var w := store.Append(e);
      alive := w != Died;
      SkipServed(log, store.Log(), existing, alive);
    }

    method RefreshSnapshot(existing: Snapshot, ghost log: seq<Event>, ghost e: Event)
      requires store.Valid() && store.Log() == log + [e] && IsGood(log) && IsGood(log + [e])
      requires snapshots == SnapshotsOf(log) && correlationIndex == CorrelationIndexOf(log)
      requires Replay(log, existing.incidentId) == Rebuilt(existing) && IsTerminal(existing.state)
      requires e.fact == SkipFact(existing.incidentId, existing.correlationId, existing.state)
      modifies this`snapshots
      ensures Valid()
      ensures Replay(store.Log(), existing.incidentId).Rebuilt?
      ensures snapshots == old(snapshots)[existing.incidentId := Replay(store.Log(), existing.incidentId).snapshot]
      ensures snapshots[existing.incidentId].incidentId == existing.incidentId && snapshots[existing.incidentId].state == existing.state
    {
      hide IsGood, Own, SnapshotsOf, KeyedBy, CorrelationIndexOf, SampleIndexOf;
      SkipRecorded(log, e, existing);
      ReplayNames(store.Log(), existing.incidentId);
      OwnWithKey(store.Log(), existing.incidentId, existing.correlationId);
      var events := store.ReadAll(Some(existing.correlationId));
      var rebuilt := ReconstructSnapshot(events, existing.incidentId);
      if rebuilt.Rebuilt? {
        snapshots := snapshots[existing.incidentId := rebuilt.snapshot];
      }
    }

    // ---- Reading ----------------------------------------------------------------------------------

    method GetIncident(inc: string) returns (r: Option<Snapshot>)
      requires Valid()
      ensures r == if Replay(store.Log(), inc).Rebuilt? then Some(Replay(store.Log(), inc).snapshot) else None
    {
      IncidentsMembers(store.Log(), inc);
      r := if inc in snapshots then Some(snapshots[inc]) else None;
    }

    // ---- process() ----------------------------------------------------------------------------------

    // The locked check: a sample whose incident has a verdict is answered with that incident.
    method AnswerKnown(sampleId: string) returns (r: Option<Processed>)
      requires Valid()
      modifies this`tick, this`snapshots, store
      ensures IsGood(store.Log())
      ensures r.None? ==> Valid() && store.Log() == old(store.Log()) && snapshots == old(snapshots)
      ensures r.Some? ==> sampleId in sampleIndex && (r.value.Skipped? || r.value.Lost?)
      ensures r.Some? ==> sampleIndex[sampleId] in Incidents(old(store.Log()))
      ensures r.Some? ==> IsServed(old(store.Log()), store.Log(), sampleIndex[sampleId], keyOf(sampleId))
      ensures r.Some? && r.value.Skipped? ==> Valid() && r.value.snapshot.incidentId == sampleIndex[sampleId]
      ensures r.Some? && r.value.Skipped? ==> IsSkipOf(old(store.Log()), store.Log(), r.value.snapshot)
      ensures r.Some? && r.value.Skipped? && old(Consistent()) ==> Consistent()
      ensures r.None? && old(Consistent()) ==> Consistent() && sampleId !in sampleIndex
    {
      hide IsGood, Replay, SnapshotsOf, CorrelationIndexOf, SampleIndexOf, IsCountOf, KeyedBy, KeyOf, IsDone, Records, Incidents, IsServed;
      if sampleId !in sampleIndex { return None; }
      ghost var log := store.Log();
      var existing := GetIncident(sampleIndex[sampleId]);
      if existing.None? || !IsTerminal(existing.value.state) {
        NotIndexed(log, sampleId);
        return None;
      }
      ReplayNames(log, sampleIndex[sampleId]);
      SkipFacts(log, existing.value);
      var alive := AppendIdempotentSkip(existing.value);
      SkipServed(log, store.Log(), existing.value, alive);
      KnownServed(log, store.Log(), existing.value.incidentId, existing.value.correlationId, existing.value.incidentId, keyOf(sampleId));
      r := Some(if alive then Skipped(snapshots[sampleIndex[sampleId]]) else Lost);
    }

    // `chain` is what detection, routing, hybrid decision and defense make of the sample, None when
    // one of them raises; `incidentId` is a fresh uuid.
    method RunFullChain(sampleId: string, chain: Option<Evidence>, incidentId: string) returns (r: Processed)
      requires Valid() && incidentId !in Incidents(store.Log())
      requires chain.Some? ==> chain.value.sampleId == sampleId
      modifies this`tick, this`snapshots, this`correlationIndex, this`sampleIndex, this`counts, store
      ensures r == ChainFailed || r.Done? || r == Lost
      ensures r.ChainFailed? <==> chain.None?
      ensures IsGood(store.Log()) && IsServed(old(store.Log()), store.Log(), incidentId, keyOf(sampleId))
      ensures !r.Lost? ==> Valid()
      ensures r.ChainFailed? ==> store.Log() == old(store.Log()) && Memory() == old(Memory())
      ensures r.Done? ==> IsDelivery(old(store.Log()), LifecycleOf(Case(incidentId, keyOf(sampleId), chain.value), old(counts), true), store.Log())
      ensures r.Done? ==> r.snapshot.incidentId == incidentId && IsTerminal(r.snapshot.state) && sampleIndex == old(sampleIndex)[sampleId := incidentId]
      ensures r.Done? ==> IsJudged(r.snapshot, policy, chain.value, CountFor(old(counts), keyOf(sampleId)) + 1)
      ensures r.Done? ==> counts == CountedOnce(old(counts), keyOf(sampleId))
      ensures r.Done? && old(Consistent()) ==> (Consistent() <==> sampleId != "")
    {
      hide IsGood, Replay, SnapshotsOf, CorrelationIndexOf, SampleIndexOf, IsCountOf, KeyedBy, IsDone, IsDelivery, Causes, Incidents, IsServed, StaysMirrored, IsJudged, Tells, Shows, Own;
      ghost var log := store.Log();
      IsNew(log, incidentId, keyOf(sampleId));
      if chain.None? {
        NothingServed(log, incidentId, keyOf(sampleId));
        return ChainFailed;
      }
      ghost var before := counts;
      var c := Case(incidentId, keyOf(sampleId), chain.value);
      NewStaysMirrored(log, c);
      var outcome := RecordFullLifecycle(c);
      DeliveryServed(log, LifecycleOf(c, before, outcome.Finished?), store.Log());
      r := if outcome.Finished? then Done(outcome.snapshot) else Lost;
    }

    // One sample, start to verdict.
    method Process(sampleId: string, chain: Option<Evidence>, incidentId: string) returns (r: Processed)
      requires Valid() && incidentId !in Incidents(store.Log())
      requires chain.Some? ==> chain.value.sampleId == sampleId
      modifies this, store
      ensures IsGood(store.Log()) && IsServed(old(store.Log()), store.Log(), incidentId, keyOf(sampleId))
      ensures !r.Lost? ==> Valid() && inFlight == old(inFlight)
      ensures !r.Lost? && old(Consistent()) ==> (Consistent() <==> !(r.Done? && sampleId == ""))
      ensures !r.Lost? ==> counts == if r.Done? then CountedOnce(old(counts), keyOf(sampleId)) else old(counts)
      ensures r.InFlight? || r.ChainFailed? ==> store.Log() == old(store.Log())
      ensures r.Skipped? ==> sampleId in old(sampleIndex) && r.snapshot.incidentId == old(sampleIndex[sampleId])
      ensures r.Skipped? ==> IsSkipOf(old(store.Log()), store.Log(), r.snapshot)
      ensures r.Done? ==> chain.Some? && IsDelivery(old(store.Log()), LifecycleOf(Case(incidentId, keyOf(sampleId), chain.value), old(counts), true), store.Log())
      ensures r.Done? ==> r.snapshot.incidentId == incidentId && IsTerminal(r.snapshot.state) && sampleIndex == old(sampleIndex)[sampleId := incidentId]
      ensures r.Done? ==> IsJudged(r.snapshot, policy, chain.value, CountFor(old(counts), keyOf(sampleId)) + 1)
      ensures old(Consistent()) && sampleId in old(sampleIndex) ==> r.Skipped? || r.Lost?
      ensures old(Consistent()) && sampleId !in old(sampleIndex) && sampleId !in old(inFlight) && chain.Some? ==> r.Done? || r.Lost?
    {
      hide IsGood, Replay, SnapshotsOf, CorrelationIndexOf, SampleIndexOf, IsCountOf, KeyedBy, KeyOf, IsDelivery, Causes, Records, Incidents, IsServed, IsJudged;
      ghost var log := store.Log();
      var known := AnswerKnown(sampleId);
      if known.Some? {
        KnownServed(log, store.Log(), sampleIndex[sampleId], keyOf(sampleId), incidentId, keyOf(sampleId));
        return known.value;
      }
      if sampleId in inFlight {
        IsNew(log, incidentId, keyOf(sampleId));
        NothingServed(log, incidentId, keyOf(sampleId));
        return InFlight;
      }
      inFlight := inFlight + {sampleId};
      r := RunFullChain(sampleId, chain, incidentId);
      if !r.Lost? {
        inFlight := inFlight - {sampleId};
      }
    }
  }

  // The log gained one skip event of the incident, in the state it was in and is in.
  predicate IsSkipOf(log: seq<Event>, log': seq<Event>, s: Snapshot) {
    Records(log, log', [SkipFact(s.incidentId, KeyOf(log, s.incidentId), s.state)], true)
  }

  lemma NoRecovery(c: Case, done: seq<Fact>)
    requires !Recovers(c)
    ensures done + RecoveryFacts(c) == done
  {
  }

  lemma RecoverySplits(c: Case, done: seq<Fact>, f: Fact, g: Fact)
    requires Recovers(c)
    requires f == FactOf(c, DEFENSE_VERIFICATION_FAILED, MITIGATING, RECOVERY, NoPayload) && g == FactOf(c, RECOVERY_STARTED, RECOVERY, RECOVERY, NoPayload)
    ensures done + RecoveryFacts(c) == done + [f] + [g] + RollbackFacts(c) + [FactOf(c, RecoveryVerdict(c), RECOVERY, RECOVERY, NoPayload)]
    ensures done + [f] <= done + RecoveryFacts(c) && done + [f] + [g] <= done + RecoveryFacts(c)
  {
  }

  // What filing one more incident of the order adds to each index.
  lemma AdmitStep(log: seq<Event>, inc: string, keys: map<string, string>, samples: map<string, string>, snapshots: map<string, Snapshot>, before: seq<string>)
    requires Replay(log, inc).Rebuilt? && inc in Incidents(log) && IsKeyMap(keys, log) && IsSampleMap(samples, log)
    requires IsSnapshotMap(snapshots, log, before)
    ensures inc in keys
    ensures var s := Replay(log, inc).snapshot;
      && IsSnapshotMap(snapshots[inc := s], log, before + [inc])
      && Grouped(log, before + [inc]) == AddTo(Grouped(log, before), keys[inc], inc)
      && Sampled(log, before + [inc]) == (if inc in samples && IsTerminal(s.state) then Sampled(log, before)[samples[inc] := inc] else Sampled(log, before))
  {
    hide Own, Incidents, AddTo, SampleOf, KeyOf;
    assert (before + [inc])[..|before|] == before;
  }

  lemma NothingFiled(log: seq<Event>)
    ensures IsSnapshotMap(map[], log, []) && Grouped(log, []) == map[] && Sampled(log, []) == map[]
  {
  }

  // ---- Theorem: restart equivalence ---------------------------------------------------------------

  // A manager started over the surviving file of a consistent one has the same snapshots, the
  // same correlation index in the same order, the same sample index and the same counts.
  method Restart(m: IncidentManager, fuse: nat, late: bool) returns (restarted: IncidentManager)
    requires m.Consistent()
    ensures restarted.Consistent() && restarted.store.Log() == m.store.Log()
    ensures restarted.snapshots == m.snapshots && restarted.correlationIndex == m.correlationIndex
    ensures restarted.sampleIndex == m.sampleIndex && restarted.counts == m.counts
  {
    var store := new JsonlEventStore(m.store.file, fuse, late);
    restarted := new IncidentManager(store, m.policy, m.keyOf, m.clock);
    CountsUnique(restarted.counts, m.counts, m.store.Log());
  }
}
