/** How the snapshots and indexes of a log change when one incident gains events. */
module IncidentIndexes {
  import opened IncidentContracts
  import opened IncidentLog

  // Further events of one incident, under one key.
  predicate AreOf(more: seq<Event>, inc: string, key: string) {
    forall e :: e in more ==> e.fact.incidentId == inc && e.fact.correlationId == key
  }

  lemma OwnAfter(log: seq<Event>, more: seq<Event>, inc: string, key: string)
    requires AreOf(more, inc, key)
    ensures Own(log + more, inc) == Own(log, inc) + more
    ensures forall other :: other != inc ==> Own(log + more, other) == Own(log, other)
  {
    OwnConcat(log, more, inc);
    OwnAll(more, inc);
    forall other | other != inc ensures Own(log + more, other) == Own(log, other) {
      OwnConcat(log, more, other);
      OwnNone(more, other);
    }
  }

  lemma SnapshotsAfter(log: seq<Event>, more: seq<Event>, inc: string, key: string)
    requires AreOf(more, inc, key) && more != [] && IsSound(log + more)
    ensures SnapshotsOf(log + more) == SnapshotsOf(log)[inc := Fold(Own(log, inc) + more, inc)]
  {
    hide Own, Replay, Fold, Incidents, IsSound;
    OwnAfter(log, more, inc, key);
    IncidentsGrow(log, more, inc);
    SoundReplay(log + more, inc);
    var a, b := SnapshotsOf(log + more), SnapshotsOf(log)[inc := Fold(Own(log, inc) + more, inc)];
    forall i | i in a || i in b ensures i in a && i in b && a[i] == b[i] {
      if i != inc {
        ReplayOfOwn(log, log + more, i);
      }
    }
  }

  lemma ReplayOfOwn(log: seq<Event>, log': seq<Event>, inc: string)
    requires Own(log', inc) == Own(log, inc)
    ensures Replay(log', inc) == Replay(log, inc)
  {
  }

  // ---- Correlation index ---------------------------------------------------------------------

  lemma {:induction false} GroupedFrame(log: seq<Event>, log': seq<Event>, order: seq<string>)
    requires forall i :: i in order ==> KeyOf(log', i) == KeyOf(log, i)
    ensures Grouped(log', order) == Grouped(log, order)
    decreases |order|
  {
    if order != [] {
      GroupedFrame(log, log', order[..|order| - 1]);
      assert order[|order| - 1] in order;
    }
  }

  lemma CorrelationIndexAfter(log: seq<Event>, more: seq<Event>, inc: string, key: string)
    requires AreOf(more, inc, key) && more != []
    ensures CorrelationIndexOf(log + more)
      == if inc in Incidents(log) then CorrelationIndexOf(log) else AddTo(CorrelationIndexOf(log), key, inc)
  {
    hide Own, Incidents, KeyOf, AddTo;
    IncidentsGrow(log, more, inc);
    var order := Incidents(log);
    forall i | i in order ensures KeyOf(log + more, i) == KeyOf(log, i) {
      KeyAfter(log, more, inc, key, i);
    }
    GroupedFrame(log, log + more, order);
    KeyAfter(log, more, inc, key, inc);
    assert (order + [inc])[..|order|] == order;
  }

  lemma KeyAfter(log: seq<Event>, more: seq<Event>, inc: string, key: string, i: string)
    requires AreOf(more, inc, key) && more != []
    ensures i in Incidents(log) ==> KeyOf(log + more, i) == KeyOf(log, i)
    ensures inc !in Incidents(log) ==> KeyOf(log + more, inc) == key
  {
    hide Incidents;
    OwnAfter(log, more, inc, key);
    IncidentsMembers(log, i);
    IncidentsMembers(log, inc);
    if Own(log, inc) != [] {
      assert Own(log + more, inc)[0] == Own(log, inc)[0];
    } else {
      assert Own(log + more, inc)[0] == more[0] && more[0] in more;
    }
  }

  lemma {:induction false} GroupedHas(log: seq<Event>, order: seq<string>, inc: string)
    requires inc in order
    ensures KeyOf(log, inc) in Grouped(log, order) && inc in Grouped(log, order)[KeyOf(log, inc)]
    decreases |order|
  {
    hide KeyOf;
    if inc != order[|order| - 1] {
      assert order == order[..|order| - 1] + [order[|order| - 1]];
      GroupedHas(log, order[..|order| - 1], inc);
    }
  }

  // Filing an incident again under its key changes nothing.
  lemma FiledAlready(log: seq<Event>, inc: string, key: string)
    requires inc in Incidents(log) && KeyedBy(log, inc, key)
    ensures AddTo(CorrelationIndexOf(log), key, inc) == CorrelationIndexOf(log)
  {
    GroupedHas(log, Incidents(log), inc);
    IncidentsMembers(log, inc);
    OwnMembers(log, inc, Own(log, inc)[0]);
  }

  // ---- Sample index ---------------------------------------------------------------------------

  lemma {:induction false} SampledFrame(log: seq<Event>, log': seq<Event>, order: seq<string>)
    requires forall i :: i in order ==> SampleOf(Own(log', i)) == SampleOf(Own(log, i)) && IsDone(log', i) == IsDone(log, i)
    ensures Sampled(log', order) == Sampled(log, order)
    decreases |order|
  {
    if order != [] {
      SampledFrame(log, log', order[..|order| - 1]);
      assert order[|order| - 1] in order;
    }
  }

  // Another incident's sample and verdict do not change.
  lemma SampleUnchanged(log: seq<Event>, more: seq<Event>, inc: string, key: string, other: string)
    requires AreOf(more, inc, key) && other != inc
    ensures SampleOf(Own(log + more, other)) == SampleOf(Own(log, other)) && IsDone(log + more, other) == IsDone(log, other)
  {
    OwnAfter(log, more, inc, key);
  }

  // A finished incident of this sample.
  predicate IsSampled(log: seq<Event>, inc: string, sampleId: string) {
    IsDone(log, inc) && SampleOf(Own(log, inc)) == sampleId
  }

  function LaterThan(order: seq<string>, inc: string): seq<string> {
    if order == [] then [] else if order[0] == inc then order[1..] else LaterThan(order[1..], inc)
  }

  // Some finished incident of the sample first appears after this one.
  predicate HasLaterRival(log: seq<Event>, inc: string, sampleId: string) {
    exists j :: j in LaterThan(Incidents(log), inc) && IsSampled(log, j, sampleId)
  }

  lemma {:induction false} SplitAt(order: seq<string>, inc: string) returns (before: seq<string>)
    ensures inc !in before
    ensures order == if inc in order then before + [inc] + LaterThan(order, inc) else before
    ensures inc !in order ==> LaterThan(order, inc) == []
    decreases |order|
  {
    if order == [] || order[0] == inc {
      before := [];
      assert order != [] ==> order == [] + [inc] + order[1..];
    } else {
      var rest := SplitAt(order[1..], inc);
      before := [order[0]] + rest;
      assert order == [order[0]] + order[1..];
    }
  }

  lemma {:induction false} NoEmptySample(log: seq<Event>, order: seq<string>)
    ensures "" !in Sampled(log, order)
    decreases |order|
  {
    if order != [] {
      NoEmptySample(log, order[..|order| - 1]);
    }
  }

  // Everybody but `inc` looks the same in both logs.
  ghost predicate SamplesAgree(log: seq<Event>, log': seq<Event>, inc: string) {
    forall i :: i != inc ==> SampleOf(Own(log', i)) == SampleOf(Own(log, i)) && IsDone(log', i) == IsDone(log, i)
  }

  // What the order `before`, inc, `after` yields once inc has its verdict: its sample, unless one
  // of those after it has the same.
  lemma {:induction false} SampledOnce(log: seq<Event>, log': seq<Event>, before: seq<string>, inc: string, after: seq<string>, sampleId: string)
    requires SamplesAgree(log, log', inc) && inc !in before && inc !in after
    requires !IsDone(log, inc) && IsSampled(log', inc, sampleId) && sampleId != ""
    ensures var all := before + [inc] + after;
      if exists j :: j in after && IsSampled(log, j, sampleId) then sampleId in Sampled(log', all) && Sampled(log', all)[sampleId] != inc
      else Sampled(log', all) == Sampled(log, all)[sampleId := inc]
    decreases |after|
  {
    hide Own, IsDone, SampleOf, Sampled;
    if after == [] {
      assert before + [inc] + after == before + [inc];
      SampledPlus(log, before, inc);
      SampledPlus(log', before, inc);
      SampledFrame(log, log', before);
    } else {
      var front, last := after[..|after| - 1], after[|after| - 1];
      assert after == front + [last] && before + [inc] + after == before + [inc] + front + [last];
      assert forall j :: j in after <==> j in front || j == last;
      SampledPlus(log, before + [inc] + front, last);
      SampledPlus(log', before + [inc] + front, last);
      SampledOnce(log, log', before, inc, front, sampleId);
      var m, s := Sampled(log, before + [inc] + front), SampleOf(Own(log, last));
      assert s != sampleId ==> m[sampleId := inc][s := last] == m[s := last][sampleId := inc];
      if j :| j in after && IsSampled(log, j, sampleId) {
        assert j in front || j == last;
      } else {
        assert !IsSampled(log, last, sampleId);
      }
    }
  }

  lemma SampledPlus(log: seq<Event>, order: seq<string>, inc: string)
    ensures Sampled(log, order + [inc])
      == if SampleOf(Own(log, inc)) != "" && IsDone(log, inc) then Sampled(log, order)[SampleOf(Own(log, inc)) := inc] else Sampled(log, order)
  {
    assert (order + [inc])[..|order|] == order;
  }

  // Theorem: the live sample index after a verdict is the rebuilt one exactly when the sample is
  // named and no finished incident of it first appears later.
  lemma SampleIndexExactly(log: seq<Event>, more: seq<Event>, inc: string, key: string, sampleId: string)
    requires AreOf(more, inc, key) && more != [] && !IsDone(log, inc) && IsDone(log + more, inc)
    requires sampleId != "" ==> SampleOf(Own(log + more, inc)) == sampleId
    ensures SampleIndexOf(log + more) == SampleIndexOf(log)[sampleId := inc] <==> sampleId != "" && !HasLaterRival(log, inc, sampleId)
  {
    hide Own, IsDone, SampleOf, Incidents, Sampled, LaterThan;
    NoEmptySample(log + more, Incidents(log + more));
    if sampleId != "" {
      var before := OrderAround(log, more, inc, key);
      var after := LaterThan(Incidents(log), inc);
      forall i | i != inc ensures SampleOf(Own(log + more, i)) == SampleOf(Own(log, i)) && IsDone(log + more, i) == IsDone(log, i) {
        SampleUnchanged(log, more, inc, key, i);
      }
      SampledOnce(log, log + more, before, inc, after, sampleId);
      SampledPlus(log, before, inc);
      assert after == [] ==> before + [inc] + after == before + [inc];
    }
  }

  // In an order without repetition nothing comes twice around one incident.
  lemma OnlyOnce(before: seq<string>, inc: string, after: seq<string>)
    requires forall i, j :: 0 <= i < j < |before + [inc] + after| ==> (before + [inc] + after)[i] != (before + [inc] + after)[j]
    ensures inc !in after
  {
    var all := before + [inc] + after;
    assert all[|before|] == inc;
    forall k | 0 <= k < |after| ensures after[k] != inc {
      assert all[|before| + 1 + k] == after[k];
    }
  }

  // The new order of incidents, around one of them.
  lemma OrderAround(log: seq<Event>, more: seq<Event>, inc: string, key: string) returns (before: seq<string>)
    requires AreOf(more, inc, key) && more != []
    ensures var order, after := Incidents(log), LaterThan(Incidents(log), inc);
      && Incidents(log + more) == before + [inc] + after
      && (order == before + [inc] + after || (order == before && after == []))
      && inc !in before && inc !in after
  {
    hide Incidents, LaterThan;
    IncidentsGrow(log, more, inc);
    before := SplitAt(Incidents(log), inc);
    var after := LaterThan(Incidents(log), inc);
    if inc !in Incidents(log) {
      assert before + [inc] + after == before + [inc];
    } else {
      IncidentsDistinct(log);
      OnlyOnce(before, inc, after);
    }
  }

  // The sample a longer history of the incident names.
  lemma {:induction false} SampleOfConcat(a: seq<Event>, b: seq<Event>)
    ensures SampleOf(a + b) == if SampleOf(b) != "" then SampleOf(b) else SampleOf(a)
    decreases |b|
  {
    if b == [] {
      assert a + b == a;
    } else {
      assert (a + b)[..|a + b| - 1] == a + b[..|b| - 1];
      SampleOfConcat(a, b[..|b| - 1]);
    }
  }

  lemma SkipKeepsSample(log: seq<Event>, skip: Event)
    requires skip.fact.eventType == IDEMPOTENT_SKIP
    requires Own(log, skip.fact.incidentId) != []
    requires IsSound(log + [skip]) && IsSound(log)
    requires skip.fact.next == Fold(Own(log, skip.fact.incidentId), skip.fact.incidentId).state
    ensures var inc := skip.fact.incidentId;
      SampleOf(Own(log + [skip], inc)) == SampleOf(Own(log, inc)) && IsDone(log + [skip], inc) == IsDone(log, inc)
  {
    var inc := skip.fact.incidentId;
    OwnAfter(log, [skip], inc, skip.fact.correlationId);
    SoundReplay(log, inc);
    SoundReplay(log + [skip], inc);
    assert (Own(log, inc) + [skip])[..|Own(log, inc)|] == Own(log, inc);
  }

  lemma SampleIndexAfterSkip(log: seq<Event>, skip: Event)
    requires skip.fact.eventType == IDEMPOTENT_SKIP
    requires Own(log, skip.fact.incidentId) != []
    requires IsSound(log + [skip]) && IsSound(log)
    requires skip.fact.next == Fold(Own(log, skip.fact.incidentId), skip.fact.incidentId).state
    ensures SampleIndexOf(log + [skip]) == SampleIndexOf(log)
  {
    var inc := skip.fact.incidentId;
    forall i | i in Incidents(log)
      ensures SampleOf(Own(log + [skip], i)) == SampleOf(Own(log, i)) && IsDone(log + [skip], i) == IsDone(log, i)
    {
      if i == inc {
        SkipKeepsSample(log, skip);
      } else {
        SampleUnchanged(log, [skip], inc, skip.fact.correlationId, i);
      }
    }
    SampledFrame(log, log + [skip], Incidents(log));
    IncidentsGrow(log, [skip], inc);
    IncidentsMembers(log, inc);
  }

  // ---- Counts ------------------------------------------------------------------------------------

  lemma DetectedAfter(log: seq<Event>, more: seq<Event>, inc: string, key: string)
    requires AreOf(more, inc, key) && more != [] && more[0].fact.eventType == DETECTION_CREATED
    ensures DetectedUnder(log + more, key) == DetectedUnder(log, key) + {inc}
    ensures forall k :: k != key ==> DetectedUnder(log + more, k) == DetectedUnder(log, k)
  {
  }

  // Events of a new incident whose only detection comes first count it once under its key.
  lemma CountsAfterNew(counts: map<string, nat>, log: seq<Event>, more: seq<Event>, inc: string, key: string)
    requires IsCountOf(counts, log) && AreOf(more, inc, key) && inc !in Incidents(log)
    requires more != [] && more[0].fact.eventType == DETECTION_CREATED
    ensures IsCountOf(counts[key := CountFor(counts, key) + 1], log + more)
    ensures |DetectedUnder(log + more, key)| == |DetectedUnder(log, key)| + 1
  {
    hide Incidents, DetectedUnder, AreOf;
    NewIsUndetected(log, inc, key);
    DetectedAfter(log, more, inc, key);
    assert key !in counts ==> DetectedUnder(log, key) == {};
  }

  lemma NewIsUndetected(log: seq<Event>, inc: string, key: string)
    requires inc !in Incidents(log)
    ensures inc !in DetectedUnder(log, key)
  {
    IncidentsMembers(log, inc);
  }

  lemma CountsAfterSkip(counts: map<string, nat>, log: seq<Event>, skip: Event)
    requires IsCountOf(counts, log) && skip.fact.eventType == IDEMPOTENT_SKIP
    ensures IsCountOf(counts, log + [skip])
  {
    forall k ensures DetectedUnder(log + [skip], k) == DetectedUnder(log, k) {}
  }

  function CountFor(counts: map<string, nat>, key: string): nat {
    if key in counts then counts[key] else 0
  }

  // record_incident
  function CountedOnce(counts: map<string, nat>, key: string): map<string, nat> {
    counts[key := CountFor(counts, key) + 1]
  }

  // ---- One step of the rebuild loops ------------------------------------------------------------

  // The per-key seen sets of the tracker rebuild.
  ghost predicate IsSeenOf(seen: map<string, set<string>>, log: seq<Event>) {
    && (forall key :: key in seen ==> seen[key] == DetectedUnder(log, key))
    && (forall key :: DetectedUnder(log, key) != {} ==> key in seen)
  }

  lemma DetectedStep(log: seq<Event>, e: Event, key: string)
    ensures DetectedUnder(log + [e], key) == DetectedUnder(log, key) +
      if e.fact.eventType == DETECTION_CREATED && e.fact.correlationId == key then {e.fact.incidentId} else {}
  {
  }

  // A detection of an incident new to its key: one more incident under that key only.
  lemma CountStep(log: seq<Event>, e: Event, counts: map<string, nat>)
    requires IsCountOf(counts, log) && e.fact.eventType == DETECTION_CREATED
    requires e.fact.incidentId !in DetectedUnder(log, e.fact.correlationId)
    ensures IsCountOf(counts[e.fact.correlationId := CountFor(counts, e.fact.correlationId) + 1], log + [e])
  {
    var counts' := counts[e.fact.correlationId := CountFor(counts, e.fact.correlationId) + 1];
    forall key
      ensures (key in counts' <==> DetectedUnder(log + [e], key) != {}) && (key in counts' ==> counts'[key] == |DetectedUnder(log + [e], key)|)
    {
      DetectedStep(log, e, key);
    }
  }

  // Any other event leaves every key's set as it is.
  lemma CountSame(log: seq<Event>, e: Event, counts: map<string, nat>)
    requires IsCountOf(counts, log)
    requires e.fact.eventType == DETECTION_CREATED ==> e.fact.incidentId in DetectedUnder(log, e.fact.correlationId)
    ensures IsCountOf(counts, log + [e])
  {
    forall key ensures DetectedUnder(log + [e], key) == DetectedUnder(log, key) {
      DetectedStep(log, e, key);
    }
  }

  lemma SeenStep(log: seq<Event>, e: Event, seen: map<string, set<string>>, known: set<string>)
    requires IsSeenOf(seen, log) && known == DetectedUnder(log, e.fact.correlationId)
    ensures e.fact.eventType != DETECTION_CREATED ==> IsSeenOf(seen, log + [e])
    ensures e.fact.eventType == DETECTION_CREATED ==> IsSeenOf(seen[e.fact.correlationId := known + {e.fact.incidentId}], log + [e])
  {
  }

  ghost predicate IsKeyMap(keys: map<string, string>, log: seq<Event>) {
    forall inc :: inc in Incidents(log) ==> inc in keys && keys[inc] == KeyOf(log, inc)
  }

  ghost predicate IsSampleMap(samples: map<string, string>, log: seq<Event>) {
    forall inc :: (inc in samples <==> SampleOf(Own(log, inc)) != "") && (inc in samples ==> samples[inc] == SampleOf(Own(log, inc)))
  }

  predicate NamesSample(e: Event) {
    e.fact.eventType == DETECTION_CREATED && e.fact.payload.Detection? && e.fact.payload.sampleId != ""
  }

  lemma KeyStep(log: seq<Event>, e: Event, keys: map<string, string>)
    requires IsKeyMap(keys, log)
    ensures IsKeyMap(if e.fact.incidentId in Incidents(log) then keys else keys[e.fact.incidentId := e.fact.correlationId], log + [e])
  {
    var inc := e.fact.incidentId;
    var keys' := if inc in Incidents(log) then keys else keys[inc := e.fact.correlationId];
    OwnAfter(log, [e], inc, e.fact.correlationId);
    IncidentsGrow(log, [e], inc);
    IncidentsMembers(log, inc);
    forall i | i in Incidents(log + [e]) ensures i in keys' && keys'[i] == KeyOf(log + [e], i) {
      if i == inc {
        assert Own(log + [e], inc)[0] == if Own(log, inc) == [] then e else Own(log, inc)[0];
      } else {
        assert Own(log + [e], i) == Own(log, i);
      }
    }
  }

  lemma SampleStep(log: seq<Event>, e: Event, samples: map<string, string>)
    requires IsSampleMap(samples, log)
    ensures IsSampleMap(if NamesSample(e) then samples[e.fact.incidentId := e.fact.payload.sampleId] else samples, log + [e])
  {
    var inc := e.fact.incidentId;
    OwnAfter(log, [e], inc, e.fact.correlationId);
    var own := Own(log, inc);
    assert (own + [e])[..|own|] == own;
  }

  ghost predicate IsSnapshotMap(snapshots: map<string, Snapshot>, log: seq<Event>, order: seq<string>) {
    && (forall inc :: inc in snapshots <==> inc in order)
    && (forall inc :: inc in snapshots ==> Replay(log, inc) == Rebuilt(snapshots[inc]))
  }

  lemma SnapshotMapUnique(snapshots: map<string, Snapshot>, log: seq<Event>)
    requires IsSnapshotMap(snapshots, log, Incidents(log))
    ensures snapshots == SnapshotsOf(log)
  {
  }

  lemma InOrder(log: seq<Event>, inc: string)
    requires IsSound(log) && inc in Incidents(log)
    ensures Replay(log, inc).Rebuilt?
  {
    IncidentsMembers(log, inc);
    SoundReplay(log, inc);
  }
}
