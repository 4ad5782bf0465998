/** What an append-only event log means: the snapshot of every incident, and the indexes a
    manager derives from the log.  All are functions of the log alone. */
module IncidentLog {
  import opened IncidentContracts

  // ---- One incident's own events, and the snapshot they fold to -----------------------------

  function Own(log: seq<Event>, inc: string): seq<Event> {
    if log == [] then []
    else Own(log[..|log| - 1], inc) + if log[|log| - 1].fact.incidentId == inc then [log[|log| - 1]] else []
  }

  function WithKey(log: seq<Event>, key: string): seq<Event> {
    if log == [] then []
    else WithKey(log[..|log| - 1], key) + if log[|log| - 1].fact.correlationId == key then [log[|log| - 1]] else []
  }

  function IdsOf(events: seq<Event>): seq<nat> {
    if events == [] then [] else IdsOf(events[..|events| - 1]) + [events[|events| - 1].eventId]
  }

  function CodesOf(causes: seq<Cause>): seq<Note> {
    if causes == [] then [] else [Code(causes[0])] + CodesOf(causes[1..])
  }

  // The notes an escalation event adds: its listed causes, or else its reason text.
  function NotesOfEvent(f: Fact): seq<Note> {
    if f.eventType != INCIDENT_ESCALATED then []
    else if f.payload.Escalation? && f.payload.causes != [] then CodesOf(f.payload.causes)
    else [Text(f.reason)]
  }

  function NotesOf(events: seq<Event>): seq<Note> {
    if events == [] then [] else NotesOf(events[..|events| - 1]) + NotesOfEvent(events[|events| - 1].fact)
  }

  function Fold(own: seq<Event>, inc: string): Snapshot
    requires own != []
  {
    var last := own[|own| - 1];
    Snapshot(inc, own[0].fact.correlationId, last.fact.next, own[0].timestamp, last.timestamp,
             IdsOf(own), last.fact.next == ESCALATED, NotesOf(own))
  }

  // The snapshot contract: an escalated incident says why.
  predicate IsLegalSnapshot(s: Snapshot) {
    s.escalated ==> s.notes != []
  }

  datatype Rebuilt = NoEvents | Rebuilt(snapshot: Snapshot) | Illegal

  function Replay(log: seq<Event>, inc: string): Rebuilt {
    var own := Own(log, inc);
    if own == [] then NoEvents
    else if IsLegalSnapshot(Fold(own, inc)) then Rebuilt(Fold(own, inc))
    else Illegal
  }

  method OwnEvents(log: seq<Event>, inc: string) returns (own: seq<Event>)
    ensures own == Own(log, inc)
  {
    own := [];
    for i := 0 to |log|
      invariant own == Own(log[..i], inc)
    {
      assert log[..i + 1][..i] == log[..i];
      if log[i].fact.incidentId == inc {
        own := own + [log[i]];
      }
    }
    assert log[..|log|] == log;
  }

  method ReconstructSnapshot(log: seq<Event>, inc: string) returns (r: Rebuilt)
    ensures r == Replay(log, inc)
  {
    hide Own;
    var own := OwnEvents(log, inc);
    if own == [] { return NoEvents; }
    var state := own[0].fact.previous;
    var notes: seq<Note> := [];
    var ids: seq<nat> := [];
    for i := 0 to |own|
      invariant i > 0 ==> state == own[i - 1].fact.next
      invariant notes == NotesOf(own[..i]) && ids == IdsOf(own[..i])
    {
      assert own[..i + 1][..i] == own[..i];
      state := own[i].fact.next;
      if own[i].fact.eventType == INCIDENT_ESCALATED {
        notes := notes + NotesOfEvent(own[i].fact);
      }
      ids := ids + [own[i].eventId];
    }
    assert own[..|own|] == own;
    var s := Snapshot(inc, own[0].fact.correlationId, state, own[0].timestamp, own[|own| - 1].timestamp, ids, state == ESCALATED, notes);
    r := if IsLegalSnapshot(s) then Rebuilt(s) else Illegal;
  }

  // ---- Laws of the filters ------------------------------------------------------------------

  lemma {:induction false} OwnConcat(a: seq<Event>, b: seq<Event>, inc: string)
    ensures Own(a + b, inc) == Own(a, inc) + Own(b, inc)
    decreases |b|
  {
    if b == [] {
      assert a + b == a;
    } else {
      assert (a + b)[..|a + b| - 1] == a + b[..|b| - 1];
      OwnConcat(a, b[..|b| - 1], inc);
    }
  }

  lemma {:induction false} OwnAll(events: seq<Event>, inc: string)
    requires forall e :: e in events ==> e.fact.incidentId == inc
    ensures Own(events, inc) == events
    decreases |events|
  {
    if events != [] {
      OwnAll(events[..|events| - 1], inc);
    }
  }

  lemma {:induction false} OwnNone(events: seq<Event>, inc: string)
    requires forall e :: e in events ==> e.fact.incidentId != inc
    ensures Own(events, inc) == []
    decreases |events|
  {
    if events != [] {
      OwnNone(events[..|events| - 1], inc);
    }
  }

  lemma {:induction false} OwnMembers(log: seq<Event>, inc: string, e: Event)
    ensures e in Own(log, inc) <==> e in log && e.fact.incidentId == inc
    decreases |log|
  {
    if log != [] {
      OwnMembers(log[..|log| - 1], inc, e);
      assert log == log[..|log| - 1] + [log[|log| - 1]];
    }
  }

  // Every event of the incident carries this correlation key.
  predicate KeyedBy(log: seq<Event>, inc: string, key: string) {
    forall e :: e in log && e.fact.incidentId == inc ==> e.fact.correlationId == key
  }

  // Reading only the events of the incident's key loses none of its events.
  lemma {:induction false} OwnWithKey(log: seq<Event>, inc: string, key: string)
    requires KeyedBy(log, inc, key)
    ensures Own(WithKey(log, key), inc) == Own(log, inc)
    decreases |log|
  {
    if log != [] {
      OwnWithKey(log[..|log| - 1], inc, key);
      var rest, e := WithKey(log[..|log| - 1], key), log[|log| - 1];
      assert e in log;
      if e.fact.correlationId == key {
        OwnConcat(rest, [e], inc);
        assert [e][..0] == [];
        assert WithKey(log, key) == rest + [e];
      } else {
        assert WithKey(log, key) == rest + [] == rest;
      }
    }
  }

  // ---- The incidents of a log, in order of first appearance ----------------------------------

  function Incidents(log: seq<Event>): seq<string> {
    if log == [] then []
    else
      var before := Incidents(log[..|log| - 1]);
      if log[|log| - 1].fact.incidentId in before then before else before + [log[|log| - 1].fact.incidentId]
  }

  lemma {:induction false} IncidentsMembers(log: seq<Event>, inc: string)
    ensures inc in Incidents(log) <==> exists e :: e in log && e.fact.incidentId == inc
    ensures inc in Incidents(log) <==> Own(log, inc) != []
    decreases |log|
  {
    if log != [] {
      IncidentsMembers(log[..|log| - 1], inc);
      assert log == log[..|log| - 1] + [log[|log| - 1]];
      assert log[|log| - 1] in log;
    }
  }

  lemma {:induction false} IncidentsDistinct(log: seq<Event>)
    ensures forall i, j :: 0 <= i < j < |Incidents(log)| ==> Incidents(log)[i] != Incidents(log)[j]
    decreases |log|
  {
    if log != [] {
      IncidentsDistinct(log[..|log| - 1]);
    }
  }

  // More events of one incident: a new incident goes to the end of the order.
  lemma {:induction false} IncidentsGrow(log: seq<Event>, more: seq<Event>, inc: string)
    requires forall e :: e in more ==> e.fact.incidentId == inc
    ensures Incidents(log + more)
      == if inc in Incidents(log) || more == [] then Incidents(log) else Incidents(log) + [inc]
    decreases |more|
  {
    if more == [] {
      assert log + more == log;
    } else {
      assert (log + more)[..|log + more| - 1] == log + more[..|more| - 1];
      assert more[|more| - 1] in more;
      IncidentsGrow(log, more[..|more| - 1], inc);
    }
  }

  // ---- The snapshots of a log -----------------------------------------------------------------

  // Every escalated state was entered through an escalation event.
  predicate IsSound(log: seq<Event>) {
    forall i {:trigger IsExplained(log[..i + 1], log[i].fact.incidentId)} ::
      0 <= i < |log| && log[i].fact.next == ESCALATED ==> IsExplained(log[..i + 1], log[i].fact.incidentId)
  }

  predicate IsExplained(log: seq<Event>, inc: string) {
    exists e :: e in log && e.fact.incidentId == inc && e.fact.eventType == INCIDENT_ESCALATED
  }

  lemma {:induction false} NotesNonEmpty(events: seq<Event>, e: Event)
    requires e in events && e.fact.eventType == INCIDENT_ESCALATED
    ensures NotesOf(events) != []
    decreases |events|
  {
    if e != events[|events| - 1] {
      NotesNonEmpty(events[..|events| - 1], e);
    }
  }

  // The last event of an incident sits somewhere in the log.
  lemma {:induction false} LastOwn(log: seq<Event>, inc: string) returns (i: nat)
    requires Own(log, inc) != []
    ensures i < |log| && log[i] == Own(log, inc)[|Own(log, inc)| - 1] && Own(log[..i + 1], inc) == Own(log, inc)
    decreases |log|
  {
    if log[|log| - 1].fact.incidentId == inc {
      i := |log| - 1;
      assert log[..i + 1] == log;
    } else {
      i := LastOwn(log[..|log| - 1], inc);
      assert log[..|log| - 1][..i + 1] == log[..i + 1];
    }
  }

  // In a sound log every incident has a legal snapshot.
  lemma SoundReplay(log: seq<Event>, inc: string)
    requires IsSound(log) && Own(log, inc) != []
    ensures Replay(log, inc) == Rebuilt(Fold(Own(log, inc), inc))
  {
    var own := Own(log, inc);
    if own[|own| - 1].fact.next == ESCALATED {
      var i := LastOwn(log, inc);
      OwnMembers(log, inc, log[i]);
      assert IsExplained(log[..i + 1], log[i].fact.incidentId);
      var e :| e in log[..i + 1] && e.fact.incidentId == inc && e.fact.eventType == INCIDENT_ESCALATED;
      OwnMembers(log, inc, e);
      NotesNonEmpty(own, e);
    }
  }

  function SnapshotsOf(log: seq<Event>): map<string, Snapshot> {
    map inc | inc in Incidents(log) && Replay(log, inc).Rebuilt? :: Replay(log, inc).snapshot
  }

  // ---- How a snapshot grows ---------------------------------------------------------------------

  lemma {:induction false} NotesConcat(a: seq<Event>, b: seq<Event>)
    ensures NotesOf(a + b) == NotesOf(a) + NotesOf(b)
    decreases |b|
  {
    hide NotesOfEvent;
    if b == [] {
      assert a + b == a && NotesOf(a) + [] == NotesOf(a);
    } else {
      var front, last := b[..|b| - 1], NotesOfEvent(b[|b| - 1].fact);
      assert (a + b)[..|a + b| - 1] == a + front;
      NotesConcat(a, front);
      assert NotesOf(a + b) == NotesOf(a + front) + last;
      assert NotesOf(a) + NotesOf(front) + last == NotesOf(a) + (NotesOf(front) + last);
    }
  }

  lemma {:induction false} IdsAre(events: seq<Event>)
    ensures |IdsOf(events)| == |events| && forall i :: 0 <= i < |events| ==> IdsOf(events)[i] == events[i].eventId
    decreases |events|
  {
    if events != [] {
      IdsAre(events[..|events| - 1]);
    }
  }

  // The codes of an escalation are its causes, in order.
  lemma {:induction false} CodesAre(causes: seq<Cause>)
    ensures |CodesOf(causes)| == |causes| && forall i :: 0 <= i < |causes| ==> CodesOf(causes)[i] == Code(causes[i])
    decreases |causes|
  {
    if causes != [] {
      CodesAre(causes[1..]);
    }
  }

  // A snapshot shows its incident from the first event to the last: when it was first seen and under
  // which key, where it stands since when, and every event in order.
  predicate Shows(s: Snapshot, own: seq<Event>) {
    && own != []
    && s.createdAt == own[0].timestamp && s.correlationId == own[0].fact.correlationId
    && s.updatedAt == own[|own| - 1].timestamp && s.state == own[|own| - 1].fact.next
    && (s.escalated <==> s.state == ESCALATED)
    && |s.eventIds| == |own| && (forall i :: 0 <= i < |own| ==> s.eventIds[i] == own[i].eventId)
  }

  // Theorem: replaying shows exactly that, nothing where there are no events, and raises exactly for
  // an escalated incident that has no reason to show.
  lemma ReplayShows(log: seq<Event>, inc: string)
    ensures Replay(log, inc).NoEvents? <==> Own(log, inc) == []
    ensures var own := Own(log, inc);
      Replay(log, inc).Illegal? <==> own != [] && own[|own| - 1].fact.next == ESCALATED && NotesOf(own) == []
    ensures Replay(log, inc).Rebuilt? ==> Replay(log, inc).snapshot.incidentId == inc && Shows(Replay(log, inc).snapshot, Own(log, inc))
  {
    IdsAre(Own(log, inc));
  }

  // ---- The correlation index --------------------------------------------------------------------

  function KeyOf(log: seq<Event>, inc: string): string {
    var own := Own(log, inc);
    if own == [] then "" else own[0].fact.correlationId
  }

  function Grouped(log: seq<Event>, order: seq<string>): map<string, seq<string>> {
    if order == [] then map[]
    else
      var before, inc := Grouped(log, order[..|order| - 1]), order[|order| - 1];
      AddTo(before, KeyOf(log, inc), inc)
  }

  // setdefault, then append unless it is already there.
  function AddTo(index: map<string, seq<string>>, key: string, inc: string): map<string, seq<string>> {
    var members := if key in index then index[key] else [];
    index[key := if inc in members then members else members + [inc]]
  }

  function CorrelationIndexOf(log: seq<Event>): map<string, seq<string>> {
    Grouped(log, Incidents(log))
  }

  // ---- The sample index ------------------------------------------------------------------------

  // The sample of the latest detection event of the incident that names one.
  function SampleOf(own: seq<Event>): string {
    if own == [] then ""
    else
      var f := own[|own| - 1].fact;
      if f.eventType == DETECTION_CREATED && f.payload.Detection? && f.payload.sampleId != "" then f.payload.sampleId
      else SampleOf(own[..|own| - 1])
  }

  predicate IsDone(log: seq<Event>, inc: string) {
    Replay(log, inc).Rebuilt? && IsTerminal(Replay(log, inc).snapshot.state)
  }

  function Sampled(log: seq<Event>, order: seq<string>): map<string, string> {
    if order == [] then map[]
    else
      var before, inc := Sampled(log, order[..|order| - 1]), order[|order| - 1];
      if SampleOf(Own(log, inc)) != "" && IsDone(log, inc) then before[SampleOf(Own(log, inc)) := inc] else before
  }

  function SampleIndexOf(log: seq<Event>): map<string, string> {
    Sampled(log, Incidents(log))
  }

  // ---- The repeated-incident counts --------------------------------------------------------------

  // The distinct incidents detected under a key.
  function DetectedUnder(log: seq<Event>, key: string): set<string> {
    set e | e in log && e.fact.eventType == DETECTION_CREATED && e.fact.correlationId == key :: e.fact.incidentId
  }

  // What a tracker rebuilt from the log holds: one entry for every key with a detection.
  ghost predicate IsCountOf(counts: map<string, nat>, log: seq<Event>) {
    forall key :: (key in counts <==> DetectedUnder(log, key) != {}) && (key in counts ==> counts[key] == |DetectedUnder(log, key)|)
  }

  // Two correct trackers are the same tracker.
  lemma CountsUnique(a: map<string, nat>, b: map<string, nat>, log: seq<Event>)
    requires IsCountOf(a, log) && IsCountOf(b, log)
    ensures a == b
  {
  }
}
