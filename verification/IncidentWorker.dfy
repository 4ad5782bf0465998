/** The incident worker: incident-level idempotency on top of the manager, over any number of
    redeliveries, crashes and restarts. */
module IncidentWorkers {
  import opened Wrappers
  import opened IncidentContracts
  import opened EscalationRules
  import opened Lifecycle
  import opened IncidentLog
  import opened IncidentIndexes
  import opened EventStores
  import opened IncidentHistory
  import opened IncidentCaches
  import opened IncidentJournal
  import opened IncidentManagers

  datatype Reply = Updated(state: State, skipped: bool) | NoReply

  // The delivery that brings a case, seen by a worker with this policy and these counts.
  function DeliveryOf(c: Case, policy: Policy, counts: map<string, nat>, whole: bool): Delivery {
    Delivery(c, Causes(policy, c.evidence, CountFor(counts, c.correlationId) + 1), whole)
  }

  class IncidentWorker {
    const manager: IncidentManager

    constructor (manager: IncidentManager)
      ensures this.manager == manager
    {
      this.manager := manager;
    }

    // One message.  It replies exactly when the process lives through it, with the state the log
    // now shows; it skips exactly when the log already held a verdict.
    method Handle(c: Case) returns (r: Reply)
      requires manager.Valid() && KeyedBy(manager.store.Log(), c.incidentId, c.correlationId)
      modifies manager, manager.store
      ensures IsDelivery(old(manager.store.Log()), DeliveryOf(c, manager.policy, old(manager.counts), r.Updated?), manager.store.Log())
      ensures IsGood(manager.store.Log())
      ensures r.Updated? ==> manager.Valid() && IsDone(manager.store.Log(), c.incidentId)
      ensures r.Updated? ==> r.state == Replay(manager.store.Log(), c.incidentId).snapshot.state
      ensures r.Updated? ==> (r.skipped <==> old(IsDone(manager.store.Log(), c.incidentId)))
      ensures r.Updated? && !r.skipped ==> Tells(old(manager.store.Log()), manager.store.Log(), c, r.state == ESCALATED)
      ensures r.Updated? && !r.skipped
        ==> (r.state == ESCALATED <==> Escalates(manager.policy, FindingsOf(c.evidence), CountFor(old(manager.counts), c.correlationId) + 1))
      ensures r.Updated? ==> manager.counts == if r.skipped then old(manager.counts) else CountedOnce(old(manager.counts), c.correlationId)
      ensures r.Updated? && old(manager.Consistent()) ==> (manager.Consistent() <==> r.skipped || StaysMirrored(old(manager.store.Log()), c))
    {
      hide IsGood, Replay, SnapshotsOf, CorrelationIndexOf, SampleIndexOf, IsCountOf, Causes, Records, KeyedBy, StaysMirrored, Tells, Shows, Own, Escalates;
      ghost var log := manager.store.Log();
      var existing := manager.GetIncident(c.incidentId);
      if existing.Some? && IsTerminal(existing.value.state) {
        ReplayNames(log, c.incidentId);
        SkipFacts(log, existing.value);
        var alive := manager.AppendIdempotentSkip(existing.value);
        if !alive { return NoReply; }
        StateShown(manager, c.incidentId);
        return Updated(existing.value.state, true);
      }
      var outcome := manager.RecordFullLifecycle(c);
      if !outcome.Finished? { return NoReply; }
      StateShown(manager, c.incidentId);
      r := Updated(outcome.snapshot.state, false);
    }
  }

  lemma StateShown(m: IncidentManager, inc: string)
    requires m.Valid() && inc in m.snapshots
    ensures Replay(m.store.Log(), inc) == Rebuilt(m.snapshots[inc])
  {
  }

  // ---- A worker under supervision --------------------------------------------------------------

  // What the next process is given to live: how many appends, and whether the one that kills it
  // still reaches the file.
  datatype Life = Life(fuse: nat, diesAfterWriting: bool)

  // Every message of an incident carries the same correlation id.
  predicate IsKeyedInput(cases: seq<Case>) {
    forall i, j :: 0 <= i < |cases| && 0 <= j < |cases| && cases[i].incidentId == cases[j].incidentId
      ==> cases[i].correlationId == cases[j].correlationId
  }

  predicate IsFrom(e: Event, cases: seq<Case>) {
    exists i :: 0 <= i < |cases| && cases[i].incidentId == e.fact.incidentId && cases[i].correlationId == e.fact.correlationId
  }

  // Every event of the log comes from one of these cases.
  predicate ComesFrom(log: seq<Event>, cases: seq<Case>) {
    forall e :: e in log ==> IsFrom(e, cases)
  }

  lemma InputIsKeyed(log: seq<Event>, cases: seq<Case>, n: nat)
    requires IsKeyedInput(cases) && n < |cases| && ComesFrom(log, cases[..n])
    ensures KeyedBy(log, cases[n].incidentId, cases[n].correlationId)
  {
  }

  lemma ComesFromOneMore(log: seq<Event>, cases: seq<Case>, n: nat, d: Delivery, log': seq<Event>)
    requires n < |cases| && ComesFrom(log, cases[..n]) && d.c == cases[n] && IsDelivery(log, d, log')
    ensures ComesFrom(log', cases[..n + 1])
  {
    MoreIsOf(log, d, log');
    forall e | e in log' ensures IsFrom(e, cases[..n + 1]) {
      if e in log {
        var i :| 0 <= i < n && cases[..n][i].incidentId == e.fact.incidentId && cases[..n][i].correlationId == e.fact.correlationId;
        assert cases[..n + 1][i] == cases[..n][i];
      } else {
        assert e in log'[|log|..];
        assert cases[..n + 1][n] == d.c;
      }
    }
  }

  lemma HistoryOneMore(logs: seq<seq<Event>>, ds: seq<Delivery>, d: Delivery, log: seq<Event>)
    requires IsHistory(logs, ds) && IsDelivery(logs[|ds|], d, log)
    ensures IsHistory(logs + [log], ds + [d])
  {
    hide IsDelivery;
  }

  // A process started over this file.
  method Start(file: seq<Event>, life: Life, policy: Policy, keyOf: string -> string, clock: nat -> int) returns (worker: IncidentWorker)
    requires IsGood(Dedup(file))
    ensures fresh(worker) && fresh(worker.manager) && fresh(worker.manager.store)
    ensures worker.manager.store.Log() == Dedup(file) && worker.manager.keyOf == keyOf
    ensures worker.manager.Consistent() && worker.manager.Valid()
  {
    hide IsGood, SnapshotsOf, CorrelationIndexOf, SampleIndexOf, IsCountOf;
    var store := new JsonlEventStore(file, life.fuse, life.diesAfterWriting);
    var m := new IncidentManager(store, policy, keyOf, clock);
    worker := new IncidentWorker(m);
  }

  // Any messages, in any order and any number of times; a process that died is restarted from its
  // file, and one that lives may be restarted too.  Whatever happens, no incident has two verdicts.
  method Supervise(cases: seq<Case>, lives: seq<Life>, restarts: seq<bool>, policy: Policy, keyOf: string -> string, clock: nat -> int)
    returns (worker: IncidentWorker, alive: bool, ghost logs: seq<seq<Event>>, ghost ds: seq<Delivery>)
    requires IsKeyedInput(cases) && |lives| == |restarts| == |cases|
    ensures IsHistory(logs, ds) && |ds| == |cases| && forall i :: 0 <= i < |ds| ==> ds[i].c == cases[i]
    ensures worker.manager.store.Log() == logs[|ds|]
    ensures alive ==> worker.manager.Valid()
    ensures forall inc :: Verdicts(Own(worker.manager.store.Log(), inc)) <= 1
  {
    hide IsGood, IsDelivery, KeyedBy, Replay, Own, Verdicts, IsCountOf, Causes, SnapshotsOf, CorrelationIndexOf, SampleIndexOf;
    NothingIsGood();
    worker := Start([], Life(0, false), policy, keyOf, clock);
    alive, logs, ds := false, [[]], [];
    for i := 0 to |cases|
      invariant fresh(worker) && fresh(worker.manager) && fresh(worker.manager.store)
      invariant IsHistory(logs, ds) && |ds| == i && (forall k :: 0 <= k < i ==> ds[k].c == cases[k])
      invariant worker.manager.store.Log() == logs[i] && IsGood(logs[i]) && ComesFrom(logs[i], cases[..i])
      invariant alive ==> worker.manager.Valid()
    {
      if !alive || restarts[i] {
        worker := Start(worker.manager.store.file, lives[i], policy, keyOf, clock);
      }
      InputIsKeyed(logs[i], cases, i);
      ghost var counts := worker.manager.counts;
      var reply := worker.Handle(cases[i]);
      ghost var d := DeliveryOf(cases[i], worker.manager.policy, counts, reply.Updated?);
      ComesFromOneMore(logs[i], cases, i, d, worker.manager.store.Log());
      HistoryOneMore(logs, ds, d, worker.manager.store.Log());
      logs, ds, alive := logs + [worker.manager.store.Log()], ds + [d], reply.Updated?;
    }
    forall inc { AtMostOneVerdict(logs, ds, |ds|, inc); }
  }

  // ---- Repeated incidents -----------------------------------------------------------------------

  lemma VerdictIsLast(log: seq<Event>, log': seq<Event>, c: Case, causes: seq<Cause>)
    requires IsDelivery(log, Delivery(c, causes, true), log') && !IsDone(log, c.incidentId)
    ensures log' != [] && log'[|log'| - 1].fact == TerminalFact(c, causes)
  {
    MoreIsOf(log, Delivery(c, causes, true), log');
    LifecycleShape(c, causes);
    var more := log'[|log|..];
    assert log'[|log'| - 1] == more[|more| - 1];
  }

  // The k-th distinct incident of a key, counted in the log, is judged with a repeat count of k:
  // its verdict names the repeat threshold exactly when the rule is on and k has reached it.
  lemma KthIncident(m: Caches, log: seq<Event>, log': seq<Event>, c: Case, policy: Policy)
    requires Mirrors(m, log) && c.incidentId !in Incidents(log)
    requires IsDelivery(log, DeliveryOf(c, policy, m.counts, true), log')
    ensures |DetectedUnder(log', c.correlationId)| == |DetectedUnder(log, c.correlationId)| + 1
    ensures log' != []
    ensures var k, verdict := |DetectedUnder(log', c.correlationId)|, log'[|log'| - 1].fact;
      && IsTerminalType(verdict.eventType)
      && ((verdict.payload.Escalation? && REPEATED_INCIDENT_THRESHOLD_EXCEEDED in verdict.payload.causes)
          <==> policy.repeatedEnabled && k >= policy.repeatedThreshold)
  {
    hide IsDone, IsDelivery, IsGood, SnapshotsOf, CorrelationIndexOf, SampleIndexOf, DetectedUnder, CausesOf;
    IsNew(log, c.incidentId, c.correlationId);
    var d := DeliveryOf(c, policy, m.counts, true);
    var more := LifecycleEvents(log, log', c, d.causes);
    CountsAfterNew(m.counts, log, more, c.incidentId, c.correlationId);
    assert CountFor(m.counts, c.correlationId) == |DetectedUnder(log, c.correlationId)|;
    VerdictIsLast(log, log', c, d.causes);
    CausesExact(policy, FindingsOf(c.evidence), CountFor(m.counts, c.correlationId) + 1, REPEATED_INCIDENT_THRESHOLD_EXCEEDED);
  }
}
