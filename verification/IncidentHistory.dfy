/** What deliveries to the incident worker do to the log, and what every log they produce
    satisfies: at most one verdict per incident, after which nothing but skips. */
module IncidentHistory {
  import opened IncidentContracts
  import opened EscalationRules
  import opened Lifecycle
  import opened IncidentLog
  import opened IncidentIndexes

  function FactsOf(events: seq<Event>): (r: seq<Fact>)
    ensures |r| == |events|
    ensures forall i :: 0 <= i < |events| ==> r[i] == events[i].fact
  {
    if events == [] then [] else FactsOf(events[..|events| - 1]) + [events[|events| - 1].fact]
  }

  // The log gained events for a prefix of these facts, and for all of them when `whole`.
  predicate Records(before: seq<Event>, after: seq<Event>, facts: seq<Fact>, whole: bool) {
    && before <= after
    && FactsOf(after[|before|..]) <= facts
    && (whole ==> |after| == |before| + |facts|)
  }

  lemma RecordsNothing(log: seq<Event>)
    ensures Records(log, log, [], true)
  {
  }

  // One more fact: recorded, or lost in a crash before or after it reached the file.
  lemma RecordsOneMore(base: seq<Event>, log: seq<Event>, done: seq<Fact>, e: Event)
    requires Records(base, log, done, true)
    ensures Records(base, log + [e], done + [e.fact], true)
    ensures Records(base, log, done + [e.fact], false)
  {
  }

  lemma RecordsWiden(base: seq<Event>, log: seq<Event>, facts: seq<Fact>, more: seq<Fact>)
    requires Records(base, log, facts, false) && facts <= more
    ensures Records(base, log, more, false)
  {
  }

  // ---- Verdicts ---------------------------------------------------------------------------------

  function Verdicts(own: seq<Event>): nat {
    if own == [] then 0
    else Verdicts(own[..|own| - 1]) + if IsTerminalType(own[|own| - 1].fact.eventType) then 1 else 0
  }

  predicate HasEnded(own: seq<Event>) {
    own != [] && IsTerminal(own[|own| - 1].fact.next)
  }

  // No verdict while the incident is open; exactly one once it has ended.
  predicate VerdictOnce(own: seq<Event>) {
    Verdicts(own) == if HasEnded(own) then 1 else 0
  }

  ghost predicate IsGood(log: seq<Event>) {
    && IsSound(log)
    && (forall inc {:trigger KeyedBy(log, inc, KeyOf(log, inc))} :: inc in Incidents(log) ==> KeyedBy(log, inc, KeyOf(log, inc)))
    && (forall inc {:trigger VerdictOnce(Own(log, inc))} :: VerdictOnce(Own(log, inc)))
  }

  lemma EndedIsDone(log: seq<Event>, inc: string)
    requires IsSound(log)
    ensures HasEnded(Own(log, inc)) <==> IsDone(log, inc)
  {
    if Own(log, inc) != [] {
      SoundReplay(log, inc);
    }
  }

  lemma {:induction false} VerdictsConcat(a: seq<Event>, b: seq<Event>)
    ensures Verdicts(a + b) == Verdicts(a) + Verdicts(b)
    decreases |b|
  {
    if b == [] {
      assert a + b == a;
    } else {
      assert (a + b)[..|a + b| - 1] == a + b[..|b| - 1];
      VerdictsConcat(a, b[..|b| - 1]);
    }
  }

  lemma {:induction false} NoVerdicts(own: seq<Event>)
    requires forall i :: 0 <= i < |own| ==> !IsTerminalType(own[i].fact.eventType)
    ensures Verdicts(own) == 0
    decreases |own|
  {
    if own != [] {
      NoVerdicts(own[..|own| - 1]);
    }
  }

  // ---- Deliveries --------------------------------------------------------------------------------

  // One delivery of a case: its lifecycle, cut short by a crash unless `whole`, or, when the log
  // already holds a verdict for the incident, at most one skip.
  datatype Delivery = Delivery(c: Case, causes: seq<Cause>, whole: bool)

  function Plan(log: seq<Event>, d: Delivery): seq<Fact> {
    if IsDone(log, d.c.incidentId) then
      [SkipFact(d.c.incidentId, KeyOf(log, d.c.incidentId), Replay(log, d.c.incidentId).snapshot.state)]
    else LifecycleFacts(d.c, d.causes)
  }

  // The message that brings an incident always carries the same correlation id.
  ghost predicate IsDelivery(log: seq<Event>, d: Delivery, log': seq<Event>) {
    && KeyedBy(log, d.c.incidentId, d.c.correlationId)
    && Records(log, log', Plan(log, d), d.whole)
  }

  lemma PlanIsOf(log: seq<Event>, d: Delivery, i: nat)
    requires KeyedBy(log, d.c.incidentId, d.c.correlationId) && i < |Plan(log, d)|
    ensures Plan(log, d)[i].incidentId == d.c.incidentId && Plan(log, d)[i].correlationId == d.c.correlationId
  {
    if IsDone(log, d.c.incidentId) {
      var own := Own(log, d.c.incidentId);
      OwnMembers(log, d.c.incidentId, own[0]);
    } else {
      LifecycleShape(d.c, d.causes);
    }
  }

  lemma MoreIsOf(log: seq<Event>, d: Delivery, log': seq<Event>)
    requires IsDelivery(log, d, log')
    ensures var more := log'[|log|..];
      && log' == log + more
      && AreOf(more, d.c.incidentId, d.c.correlationId)
      && (forall i :: 0 <= i < |more| ==> i < |Plan(log, d)| && more[i].fact == Plan(log, d)[i])
  {
    var more := log'[|log|..];
    forall e | e in more ensures e.fact.incidentId == d.c.incidentId && e.fact.correlationId == d.c.correlationId {
      var i :| 0 <= i < |more| && more[i] == e;
      assert FactsOf(more)[i] == Plan(log, d)[i];
      PlanIsOf(log, d, i);
    }
    forall i | 0 <= i < |more| ensures more[i].fact == Plan(log, d)[i] {
      assert FactsOf(more)[i] == Plan(log, d)[i];
    }
  }

  // What one call does to the log on behalf of this incident: a delivery of it, or of an incident
  // that the log knows already.
  ghost predicate IsServed(log: seq<Event>, log': seq<Event>, inc: string, key: string) {
    exists d :: IsDelivery(log, d, log')
      && (d.c.incidentId in Incidents(log) || (d.c.incidentId == inc && d.c.correlationId == key))
  }

  lemma DeliveryKeepsKeys(log: seq<Event>, d: Delivery, log': seq<Event>, inc: string)
    requires IsGood(log) && IsDelivery(log, d, log') && inc in Incidents(log')
    ensures KeyedBy(log', inc, KeyOf(log', inc))
  {
    MoreIsOf(log, d, log');
    var more := log'[|log|..];
    OwnAfter(log, more, d.c.incidentId, d.c.correlationId);
    IncidentsMembers(log', inc);
    IncidentsMembers(log, inc);
    var own := Own(log', inc);
    OwnMembers(log', inc, own[0]);
    if inc != d.c.incidentId {
      assert Own(log, inc) == own;
      assert KeyedBy(log, inc, KeyOf(log, inc));
    }
  }

  // The delivery's effect on each incident's own events.
  lemma OwnStep(log: seq<Event>, d: Delivery, log': seq<Event>, inc: string)
    requires IsDelivery(log, d, log')
    ensures Own(log', inc) == if inc == d.c.incidentId then Own(log, inc) + log'[|log|..] else Own(log, inc)
  {
    MoreIsOf(log, d, log');
    OwnAfter(log, log'[|log|..], d.c.incidentId, d.c.correlationId);
  }

  // The escalation behind an ended incident is somewhere in the log.
  lemma EscalationIsLogged(log: seq<Event>, inc: string)
    requires IsSound(log) && IsDone(log, inc) && Replay(log, inc).snapshot.state == ESCALATED
    ensures IsExplained(log, inc)
  {
    SoundReplay(log, inc);
    var j := LastOwn(log, inc);
    OwnMembers(log, inc, log[j]);
    assert IsExplained(log[..j + 1], log[j].fact.incidentId);
    var x :| x in log[..j + 1] && x.fact.incidentId == inc && x.fact.eventType == INCIDENT_ESCALATED;
    assert x in log;
  }

  // A planned fact that escalates either is an escalation event or repeats one.
  lemma PlannedEscalation(log: seq<Event>, d: Delivery, i: nat)
    requires IsSound(log) && i < |Plan(log, d)| && Plan(log, d)[i].next == ESCALATED
    ensures Plan(log, d)[i].eventType == INCIDENT_ESCALATED || IsExplained(log, d.c.incidentId)
  {
    if IsDone(log, d.c.incidentId) {
      EscalationIsLogged(log, d.c.incidentId);
    } else {
      LifecycleShape(d.c, d.causes);
      assert !IsOpenFact(d.c, Plan(log, d)[i]);
    }
  }

  lemma ExplainedGrows(log: seq<Event>, log': seq<Event>, inc: string)
    requires log <= log' && IsExplained(log, inc)
    ensures IsExplained(log', inc)
  {
  }

  lemma DeliveryKeepsSound(log: seq<Event>, d: Delivery, log': seq<Event>)
    requires IsSound(log) && IsDelivery(log, d, log')
    ensures IsSound(log')
  {
    MoreIsOf(log, d, log');
    forall i | 0 <= i < |log'| && log'[i].fact.next == ESCALATED ensures IsExplained(log'[..i + 1], log'[i].fact.incidentId) {
      if i < |log| {
        assert log'[..i + 1] == log[..i + 1] && log'[i] == log[i];
        assert IsExplained(log[..i + 1], log[i].fact.incidentId);
      } else {
        NewIsExplained(log, d, log', i);
      }
    }
  }

  lemma NewFact(log: seq<Event>, d: Delivery, log': seq<Event>, i: nat)
    requires IsDelivery(log, d, log') && |log| <= i < |log'|
    ensures log <= log' && i - |log| < |Plan(log, d)|
    ensures log'[i].fact == Plan(log, d)[i - |log|] && log'[i].fact.incidentId == d.c.incidentId
  {
    hide IsDelivery, Plan;
    MoreIsOf(log, d, log');
    var more := log'[|log|..];
    assert log'[i] == more[i - |log|] && log'[i] in more;
  }

  lemma NewIsExplained(log: seq<Event>, d: Delivery, log': seq<Event>, i: nat)
    requires IsSound(log) && IsDelivery(log, d, log') && |log| <= i < |log'| && log'[i].fact.next == ESCALATED
    ensures IsExplained(log'[..i + 1], log'[i].fact.incidentId)
  {
    hide IsSound, IsDelivery, Plan, Replay, IsExplained;
    NewFact(log, d, log', i);
    PlannedEscalation(log, d, i - |log|);
    if log'[i].fact.eventType == INCIDENT_ESCALATED {
      ExplainsItself(log', i);
    } else {
      ExplainedGrows(log, log'[..i + 1], d.c.incidentId);
    }
  }

  lemma ExplainsItself(log: seq<Event>, i: nat)
    requires i < |log| && log[i].fact.eventType == INCIDENT_ESCALATED
    ensures IsExplained(log[..i + 1], log[i].fact.incidentId)
  {
  }

  // ---- The verdict count of one incident's own events ----------------------------------------

  // Events recorded for a prefix of some facts.
  predicate Carries(more: seq<Event>, facts: seq<Fact>) {
    |more| <= |facts| && forall i :: 0 <= i < |more| ==> more[i].fact == facts[i]
  }

  lemma SkipsKeepVerdict(own: seq<Event>, more: seq<Event>, inc: string, key: string)
    requires HasEnded(own) && VerdictOnce(own)
    requires Carries(more, [SkipFact(inc, key, own[|own| - 1].fact.next)])
    ensures HasEnded(own + more) && VerdictOnce(own + more)
    ensures (own + more)[|own + more| - 1].fact.next == own[|own| - 1].fact.next
  {
    VerdictsConcat(own, more);
    NoVerdicts(more);
  }

  lemma LifecycleGivesVerdict(own: seq<Event>, more: seq<Event>, c: Case, causes: seq<Cause>)
    requires !HasEnded(own) && VerdictOnce(own) && Carries(more, LifecycleFacts(c, causes))
    ensures VerdictOnce(own + more)
    ensures HasEnded(own + more) <==> |more| == |LifecycleFacts(c, causes)|
  {
    LifecycleShape(c, causes);
    VerdictsConcat(own, more);
    if more == [] {
      assert own + more == own;
    } else {
      NoVerdicts(more[..|more| - 1]);
      assert (own + more)[|own + more| - 1] == more[|more| - 1];
    }
  }

  lemma DeliveryKeepsVerdicts(log: seq<Event>, d: Delivery, log': seq<Event>, inc: string)
    requires IsGood(log) && IsDelivery(log, d, log')
    ensures VerdictOnce(Own(log', inc))
  {
    MoreIsOf(log, d, log');
    OwnStep(log, d, log', inc);
    assert VerdictOnce(Own(log, inc));
    if inc == d.c.incidentId {
      EndedIsDone(log, inc);
      if IsDone(log, inc) {
        SoundReplay(log, inc);
        SkipsKeepVerdict(Own(log, inc), log'[|log|..], inc, KeyOf(log, inc));
      } else {
        LifecycleGivesVerdict(Own(log, inc), log'[|log|..], d.c, d.causes);
      }
    }
  }

  lemma DeliveryKeepsGood(log: seq<Event>, d: Delivery, log': seq<Event>)
    requires IsGood(log) && IsDelivery(log, d, log')
    ensures IsGood(log')
  {
    DeliveryKeepsSound(log, d, log');
    forall inc | inc in Incidents(log') ensures KeyedBy(log', inc, KeyOf(log', inc)) {
      DeliveryKeepsKeys(log, d, log', inc);
    }
    forall inc ensures VerdictOnce(Own(log', inc)) {
      DeliveryKeepsVerdicts(log, d, log', inc);
    }
  }

  // ---- Theorem: at most one terminal event ----------------------------------------------------

  // A history of deliveries, of any incidents in any order, from the empty log.  Between two of
  // them the worker may have died and restarted from what was on disk.
  ghost predicate IsHistory(logs: seq<seq<Event>>, ds: seq<Delivery>) {
    && |logs| == |ds| + 1 && logs[0] == []
    && forall i :: 0 <= i < |ds| ==> IsDelivery(logs[i], ds[i], logs[i + 1])
  }

  lemma NothingIsGood()
    ensures IsGood([])
  {
  }

  lemma {:induction false} HistoryIsGood(logs: seq<seq<Event>>, ds: seq<Delivery>, n: nat)
    requires IsHistory(logs, ds) && n < |logs|
    ensures IsGood(logs[n])
    decreases n
  {
    hide IsDelivery;
    if n == 0 {
      NothingIsGood();
    } else {
      HistoryIsGood(logs, ds, n - 1);
      DeliveryKeepsGood(logs[n - 1], ds[n - 1], logs[n]);
    }
  }

  lemma AtMostOneVerdict(logs: seq<seq<Event>>, ds: seq<Delivery>, n: nat, inc: string)
    requires IsHistory(logs, ds) && n < |logs|
    ensures Verdicts(Own(logs[n], inc)) <= 1
    ensures Verdicts(Own(logs[n], inc)) == 1 <==> IsDone(logs[n], inc)
  {
    HistoryIsGood(logs, ds, n);
    assert VerdictOnce(Own(logs[n], inc));
    EndedIsDone(logs[n], inc);
  }

  // What follows in an ended incident's own events.
  predicate OnlySkips(own: seq<Event>, own': seq<Event>) {
    own <= own' && forall i :: |own| <= i < |own'| ==> own'[i].fact.eventType == IDEMPOTENT_SKIP
  }

  // One delivery after the verdict.
  lemma EndedStays(log: seq<Event>, d: Delivery, log': seq<Event>, inc: string)
    requires IsGood(log) && IsGood(log') && IsDelivery(log, d, log') && IsDone(log, inc)
    ensures IsDone(log', inc) && Replay(log', inc).snapshot.state == Replay(log, inc).snapshot.state
    ensures OnlySkips(Own(log, inc), Own(log', inc))
  {
    MoreIsOf(log, d, log');
    OwnStep(log, d, log', inc);
    EndedIsDone(log, inc);
    SoundReplay(log, inc);
    if inc == d.c.incidentId {
      assert VerdictOnce(Own(log, inc));
      SkipsKeepVerdict(Own(log, inc), log'[|log|..], inc, KeyOf(log, inc));
    }
    EndedIsDone(log', inc);
    SoundReplay(log', inc);
  }

  lemma EndedStaysInHistory(logs: seq<seq<Event>>, ds: seq<Delivery>, m: nat, inc: string)
    requires IsHistory(logs, ds) && m < |ds| && IsDone(logs[m], inc)
    ensures IsDone(logs[m + 1], inc) && Replay(logs[m + 1], inc).snapshot.state == Replay(logs[m], inc).snapshot.state
    ensures OnlySkips(Own(logs[m], inc), Own(logs[m + 1], inc))
  {
    HistoryIsGood(logs, ds, m);
    HistoryIsGood(logs, ds, m + 1);
    EndedStays(logs[m], ds[m], logs[m + 1], inc);
  }

  lemma HistoryLength(logs: seq<seq<Event>>, ds: seq<Delivery>)
    requires IsHistory(logs, ds)
    ensures |logs| == |ds| + 1
  {
  }

  lemma OnlySkipsNothing(own: seq<Event>)
    ensures OnlySkips(own, own)
  {
  }

  lemma OnlySkipsThen(a: seq<Event>, b: seq<Event>, c: seq<Event>)
    requires OnlySkips(a, b) && OnlySkips(b, c)
    ensures OnlySkips(a, c)
  {
  }

  lemma {:induction false} AfterVerdictOnlySkips(logs: seq<seq<Event>>, ds: seq<Delivery>, n: nat, m: nat, inc: string)
    requires IsHistory(logs, ds) && n <= m < |logs| && IsDone(logs[n], inc)
    ensures IsDone(logs[m], inc) && Replay(logs[m], inc).snapshot.state == Replay(logs[n], inc).snapshot.state
    ensures OnlySkips(Own(logs[n], inc), Own(logs[m], inc))
    decreases m
  {
    hide IsHistory, IsDone, Replay, OnlySkips, Own;
    HistoryLength(logs, ds);
    if n == m {
      OnlySkipsNothing(Own(logs[n], inc));
    } else {
      AfterVerdictOnlySkips(logs, ds, n, m - 1, inc);
      EndedStaysInHistory(logs, ds, m - 1, inc);
      OnlySkipsThen(Own(logs[n], inc), Own(logs[m - 1], inc), Own(logs[m], inc));
    }
  }
}
