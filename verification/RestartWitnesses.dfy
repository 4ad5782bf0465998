/** Histories after which a live manager is not what a restart would rebuild, for each of the ways
    in which IncidentCaches.MirrorsExactly allows it. */
module RestartWitnesses {
  import opened IncidentContracts
  import opened EscalationRules
  import opened Lifecycle
  import opened IncidentLog
  import opened IncidentIndexes
  import opened IncidentHistory
  import opened IncidentCaches
  import opened IncidentWorkers

  // What a manager started over this log holds.
  function CountsOf(log: seq<Event>): map<string, nat> {
    map e | e in log && e.fact.eventType == DETECTION_CREATED :: e.fact.correlationId := |DetectedUnder(log, e.fact.correlationId)|
  }

  function RebuiltFrom(log: seq<Event>): Caches {
    Caches(SnapshotsOf(log), CorrelationIndexOf(log), SampleIndexOf(log), CountsOf(log))
  }

  lemma RebuiltMirrors(log: seq<Event>)
    requires IsGood(log)
    ensures Mirrors(RebuiltFrom(log), log)
  {
    hide IsGood, SnapshotsOf, CorrelationIndexOf, SampleIndexOf;
    forall e | e in log && e.fact.eventType == DETECTION_CREATED
      ensures e.fact.incidentId in DetectedUnder(log, e.fact.correlationId)
    {
    }
  }

  // These facts, recorded one after the other.
  function EventsFrom(facts: seq<Fact>, id: nat): (r: seq<Event>)
    ensures |r| == |facts| && forall i :: 0 <= i < |r| ==> r[i].fact == facts[i]
  {
    if facts == [] then [] else EventsFrom(facts[..|facts| - 1], id) + [Event(id + |facts|, 0, facts[|facts| - 1])]
  }

  lemma RecordsAll(log: seq<Event>, facts: seq<Fact>)
    ensures Records(log, log + EventsFrom(facts, |log|), facts, true)
  {
    assert (log + EventsFrom(facts, |log|))[|log|..] == EventsFrom(facts, |log|);
    assert FactsOf(EventsFrom(facts, |log|)) == facts;
  }

  // The log after one more delivery that reaches its end.
  function Delivered(log: seq<Event>, d: Delivery): seq<Event> {
    log + EventsFrom(Plan(log, d), |log|)
  }

  lemma DeliveredIsDelivery(log: seq<Event>, d: Delivery)
    requires KeyedBy(log, d.c.incidentId, d.c.correlationId) && d.whole
    ensures IsDelivery(log, d, Delivered(log, d))
  {
    RecordsAll(log, Plan(log, d));
  }

  // The log of an incident whose recording died right after its first event.
  function CutShort(c: Case): seq<Event> {
    EventsFrom([DetectionFacts(c)[0]], 0)
  }

  lemma CutShortIsDelivery(c: Case, causes: seq<Cause>)
    ensures IsDelivery([], Delivery(c, causes, false), CutShort(c))
    ensures Incidents(CutShort(c)) == [c.incidentId] && !IsDone(CutShort(c), c.incidentId)
    ensures KeyedBy(CutShort(c), c.incidentId, c.correlationId)
    ensures forall key :: DetectedUnder(CutShort(c), key) == if key == c.correlationId then {c.incidentId} else {}
  {
    var log := CutShort(c);
    LifecycleShape(c, causes);
    assert log == [log[0]] && log[..0] == [];
    assert log[0..] == log;
    assert FactsOf(log) == [LifecycleFacts(c, causes)[0]];
    assert Own(log, c.incidentId) == [log[0]] by { OwnAll(log, c.incidentId); }
    assert log[0] in log;
  }

  // A whole lifecycle, as far as the sample index and the counts look at it.
  lemma WholeLifecycle(log: seq<Event>, log': seq<Event>, c: Case, causes: seq<Cause>)
    requires IsGood(log) && IsDelivery(log, Delivery(c, causes, true), log') && !IsDone(log, c.incidentId)
    ensures IsGood(log')
    ensures Incidents(log') == if c.incidentId in Incidents(log) then Incidents(log) else Incidents(log) + [c.incidentId]
    ensures c.evidence.sampleId != "" ==> IsSampled(log', c.incidentId, c.evidence.sampleId)
    ensures forall i :: i != c.incidentId ==> SampleOf(Own(log', i)) == SampleOf(Own(log, i)) && IsDone(log', i) == IsDone(log, i)
    ensures DetectedUnder(log', c.correlationId) == DetectedUnder(log, c.correlationId) + {c.incidentId}
    ensures forall inc, key :: inc != c.incidentId && KeyedBy(log, inc, key) ==> KeyedBy(log', inc, key)
  {
    hide IsGood, IsDelivery, Own, IsDone, Incidents, DetectedUnder, SampleOf;
    DeliveryKeepsGood(log, Delivery(c, causes, true), log');
    LifecycleRecorded(log, log', c, causes);
    var more := LifecycleEvents(log, log', c, causes);
    IncidentsGrow(log, more, c.incidentId);
    OwnAfter(log, more, c.incidentId, c.correlationId);
    SampleOfConcat(Own(log, c.incidentId), more);
    DetectedAfter(log, more, c.incidentId, c.correlationId);
    forall i | i != c.incidentId ensures SampleOf(Own(log', i)) == SampleOf(Own(log, i)) && IsDone(log', i) == IsDone(log, i) {
      SampleUnchanged(log, more, c.incidentId, c.correlationId, i);
    }
  }

  // What the manager that recorded this whole lifecycle holds.
  function Recorded(m: Caches, log': seq<Event>, c: Case): Caches
    requires Replay(log', c.incidentId).Rebuilt?
  {
    AfterLifecycle(m, c, Replay(log', c.incidentId).snapshot)
  }

  // Two incidents of one sample under one key.
  predicate AreTwins(a: Case, b: Case) {
    && a.incidentId != b.incidentId && a.correlationId == b.correlationId
    && a.evidence.sampleId == b.evidence.sampleId != ""
  }

  // The failing history: `a` is cut short after its first event and the process restarts ...
  lemma FirstCutShort(a: Case, d: Delivery)
    requires d.c == a && !d.whole
    ensures IsHistory([[], CutShort(a)], [d]) && IsGood(CutShort(a))
    ensures Mirrors(RebuiltFrom(CutShort(a)), CutShort(a))
  {
    hide IsGood, IsDelivery, CutShort, Mirrors, RebuiltFrom;
    CutShortIsDelivery(a, d.causes);
    NothingIsGood();
    DeliveryKeepsGood([], d, CutShort(a));
    RebuiltMirrors(CutShort(a));
  }

  // ... `b` is recorded whole ...
  lemma ThenOtherWhole(a: Case, b: Case, d: Delivery)
    requires AreTwins(a, b) && d.c == b && d.whole
    ensures var log, log' := CutShort(a), Delivered(CutShort(a), d);
      && IsDelivery(log, d, log') && IsGood(log') && Replay(log', b.incidentId).Rebuilt?
      && Incidents(log') == [a.incidentId, b.incidentId] && DetectedUnder(log', a.correlationId) == {a.incidentId, b.incidentId}
      && IsSampled(log', b.incidentId, a.evidence.sampleId) && !IsDone(log', a.incidentId)
      && KeyedBy(log', a.incidentId, a.correlationId)
      && Mirrors(Recorded(RebuiltFrom(log), log', b), log')
  {
    hide IsGood, IsDelivery, CutShort, Delivered, Mirrors, RebuiltFrom, Replay, DetectedUnder, AfterLifecycle, IsSampled, StaysMirrored;
    var log, log', whole := CutShort(a), Delivered(CutShort(a), d), Delivery(b, d.causes, true);
    FirstCutShort(a, Delivery(a, d.causes, false));
    CutShortIsDelivery(a, d.causes);
    IsNew(log, b.incidentId, b.correlationId);
    DeliveredIsDelivery(log, d);
    assert d == whole;
    WholeLifecycle(log, log', b, d.causes);
    NewStaysMirrored(log, b);
    MirrorsExactly(RebuiltFrom(log), log, log', b, d.causes);
  }

  // ... and `a` is redelivered and recorded whole: the live index names `a`, a rebuilt one `b`, and
  // the live count is one too high.
  lemma ThenFirstWhole(a: Case, b: Case, log: seq<Event>, m: Caches, d: Delivery)
    requires AreTwins(a, b) && d.c == a && d.whole && Mirrors(m, log)
    requires Incidents(log) == [a.incidentId, b.incidentId] && DetectedUnder(log, a.correlationId) == {a.incidentId, b.incidentId}
    requires IsSampled(log, b.incidentId, a.evidence.sampleId) && !IsDone(log, a.incidentId) && KeyedBy(log, a.incidentId, a.correlationId)
    ensures var log' := Delivered(log, d);
      && IsDelivery(log, d, log') && IsGood(log') && Replay(log', a.incidentId).Rebuilt?
      && Diverges(Recorded(m, log', a), RebuiltFrom(log'), a, b)
  {
    hide IsGood, IsDelivery, Delivered, Own, Replay, IsDone, DetectedUnder, CorrelationIndexOf, SnapshotsOf, SampleOf, Incidents;
    var log' := Delivered(log, d);
    DeliveredIsDelivery(log, d);
    assert d == Delivery(a, d.causes, true);
    WholeLifecycle(log, log', a, d.causes);
    LifecycleRecorded(log, log', a, d.causes);
    RebuiltMirrors(log');
    SampledPlus(log', [a.incidentId], b.incidentId);
    assert [a.incidentId] + [b.incidentId] == [a.incidentId, b.incidentId];
    var both := {a.incidentId, b.incidentId};
    assert both + {a.incidentId} == both && |both| == 2;
    assert CountFor(m.counts, a.correlationId) == 2;
  }

  // The two disagree about the sample of `a` and `b` and about how many incidents their key has.
  predicate Diverges(live: Caches, rebuilt: Caches, a: Case, b: Case) {
    && (a.evidence.sampleId in live.samples && live.samples[a.evidence.sampleId] == a.incidentId)
    && (a.evidence.sampleId in rebuilt.samples && rebuilt.samples[a.evidence.sampleId] == b.incidentId)
    && CountFor(live.counts, a.correlationId) == 3 && CountFor(rebuilt.counts, a.correlationId) == 2
  }

  // Theorem: for any two incidents of one sample under one key there is a history, of deliveries
  // such as the worker makes them, after which the live manager and a restarted one differ in the
  // sample index and in the counts.
  lemma RedeliveryDiverges(a: Case, b: Case, policy: Policy) returns (logs: seq<seq<Event>>, ds: seq<Delivery>)
    requires AreTwins(a, b)
    ensures IsHistory(logs, ds) && |ds| == 3
    ensures ds[0] == DeliveryOf(a, policy, map[], false)
    ensures ds[1] == DeliveryOf(b, policy, RebuiltFrom(logs[1]).counts, true) && Replay(logs[2], b.incidentId).Rebuilt?
    ensures var m := Recorded(RebuiltFrom(logs[1]), logs[2], b);
      && Mirrors(m, logs[2]) && ds[2] == DeliveryOf(a, policy, m.counts, true) && Replay(logs[3], a.incidentId).Rebuilt?
      && Diverges(Recorded(m, logs[3], a), RebuiltFrom(logs[3]), a, b)
  {
    hide IsGood, IsDelivery, Delivered, IsHistory, CutShort, Mirrors, RebuiltFrom, Replay, IsDone, DetectedUnder, AfterLifecycle, IsSampled, Causes, Diverges, KeyedBy, Incidents;
    var d0 := DeliveryOf(a, policy, map[], false);
    var log1 := CutShort(a);
    FirstCutShort(a, d0);
    var d1 := DeliveryOf(b, policy, RebuiltFrom(log1).counts, true);
    var log2 := Delivered(log1, d1);
    ThenOtherWhole(a, b, d1);
    HistoryOneMore([[], log1], [d0], d1, log2);
    var m := Recorded(RebuiltFrom(log1), log2, b);
    var d2 := DeliveryOf(a, policy, m.counts, true);
    ThenFirstWhole(a, b, log2, m, d2);
    assert [[], log1] + [log2] == [[], log1, log2] && [d0] + [d1] == [d0, d1];
    HistoryOneMore([[], log1, log2], [d0, d1], d2, Delivered(log2, d2));
    logs, ds := [[], log1, log2] + [Delivered(log2, d2)], [d0, d1] + [d2];
  }

  // Theorem: one whole lifecycle of a sample without a name puts the empty name into the live
  // index, where a restarted manager has nothing.
  lemma NamelessDiverges(c: Case, policy: Policy) returns (log: seq<Event>)
    requires c.evidence.sampleId == ""
    ensures IsHistory([[], log], [DeliveryOf(c, policy, map[], true)]) && Replay(log, c.incidentId).Rebuilt?
    ensures Recorded(RebuiltFrom([]), log, c).samples == map["" := c.incidentId] && "" !in RebuiltFrom(log).samples
  {
    hide IsGood, IsDelivery, Delivered, Replay, Causes, KeyedBy, Own;
    var d := DeliveryOf(c, policy, map[], true);
    log := Delivered([], d);
    NothingIsGood();
    IsNew([], c.incidentId, c.correlationId);
    DeliveredIsDelivery([], d);
    DeliveryKeepsGood([], d, log);
    LifecycleRecorded([], log, c, d.causes);
    NoEmptySample(log, Incidents(log));
  }
}
