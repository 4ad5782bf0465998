/** Whole sessions of an incident manager: samples and messages in any order, any number of times,
    with deaths and restarts between and inside calls, and what a restart at the end finds. */
module IncidentSessions {
  import opened Wrappers
  import opened IncidentContracts
  import opened EscalationRules
  import opened Lifecycle
  import opened IncidentLog
  import opened IncidentIndexes
  import opened EventStores
  import opened IncidentHistory
  import opened IncidentCaches
  import opened IncidentManagers
  import opened IncidentWorkers

  // A call of process(), with what its chain yields and its fresh uuid, or a message to the worker.
  datatype Request =
    | Sample(sampleId: string, chain: Option<Evidence>, incidentId: string)
    | Message(c: Case)

  function IncidentOf(r: Request): string {
    match r
    case Sample(_, _, incidentId) => incidentId
    case Message(c) => c.incidentId
  }

  function KeyFor(r: Request, keyOf: string -> string): string {
    match r
    case Sample(sampleId, _, _) => keyOf(sampleId)
    case Message(c) => c.correlationId
  }

  // Uuids are unique, messages of one incident carry one key, and detection names its sample.
  predicate AreRequests(requests: seq<Request>, keyOf: string -> string) {
    && (forall i, j :: 0 <= i < j < |requests| && IncidentOf(requests[i]) == IncidentOf(requests[j]) ==>
          !requests[j].Sample? && KeyFor(requests[i], keyOf) == KeyFor(requests[j], keyOf))
    && (forall i :: 0 <= i < |requests| && requests[i].Sample? && requests[i].chain.Some? ==>
          requests[i].chain.value.sampleId == requests[i].sampleId)
  }

  // Requests that leave the live structures as a rebuild would.
  predicate IsTidy(log: seq<Event>, r: Request) {
    match r
    case Sample(sampleId, _, _) => sampleId != ""
    case Message(c) => IsDone(log, c.incidentId) || StaysMirrored(log, c)
  }

  predicate IsFor(e: Event, requests: seq<Request>, keyOf: string -> string) {
    exists i :: 0 <= i < |requests| && IncidentOf(requests[i]) == e.fact.incidentId && KeyFor(requests[i], keyOf) == e.fact.correlationId
  }

  // Every event of the log was recorded for one of these requests.
  predicate AreFor(log: seq<Event>, requests: seq<Request>, keyOf: string -> string) {
    forall e :: e in log ==> IsFor(e, requests, keyOf)
  }

  lemma RequestIsKeyed(log: seq<Event>, requests: seq<Request>, keyOf: string -> string, n: nat)
    requires AreRequests(requests, keyOf) && n < |requests| && AreFor(log, requests[..n], keyOf)
    ensures KeyedBy(log, IncidentOf(requests[n]), KeyFor(requests[n], keyOf))
    ensures requests[n].Sample? ==> requests[n].incidentId !in Incidents(log)
    ensures requests[n].Sample? && requests[n].chain.Some? ==> requests[n].chain.value.sampleId == requests[n].sampleId
  {
    hide Incidents;
    IncidentsMembers(log, IncidentOf(requests[n]));
  }

  lemma ServedIsFor(log: seq<Event>, log': seq<Event>, requests: seq<Request>, keyOf: string -> string, n: nat)
    requires n < |requests| && AreFor(log, requests[..n], keyOf)
    requires IsServed(log, log', IncidentOf(requests[n]), KeyFor(requests[n], keyOf))
    ensures AreFor(log', requests[..n + 1], keyOf)
  {
    hide IsDelivery, Incidents, IncidentOf, KeyFor;
    var d :| IsDelivery(log, d, log')
      && (d.c.incidentId in Incidents(log) || (d.c.incidentId == IncidentOf(requests[n]) && d.c.correlationId == KeyFor(requests[n], keyOf)));
    MoreIsOf(log, d, log');
    forall e | e in log ensures IsFor(e, requests[..n + 1], keyOf) {
      StillFor(e, requests, keyOf, n);
    }
    forall e | e in log'[|log|..] ensures IsFor(e, requests[..n + 1], keyOf) {
      if d.c.incidentId in Incidents(log) {
        IncidentsMembers(log, d.c.incidentId);
        DeliveredUnderKey(log, d, log');
        var f :| f in log && f.fact.incidentId == d.c.incidentId;
        StillFor(f, requests, keyOf, n);
      } else {
        assert requests[..n + 1][n] == requests[n];
      }
    }
  }

  lemma StillFor(e: Event, requests: seq<Request>, keyOf: string -> string, n: nat)
    requires n < |requests| && IsFor(e, requests[..n], keyOf)
    ensures IsFor(e, requests[..n + 1], keyOf)
  {
    var i :| 0 <= i < n && IncidentOf(requests[..n][i]) == e.fact.incidentId && KeyFor(requests[..n][i], keyOf) == e.fact.correlationId;
    assert requests[..n + 1][i] == requests[..n][i];
  }

  // A message that brings again an incident detected before, which has no verdict yet.
  predicate IsRedetection(log: seq<Event>, r: Request, key: string) {
    r.Message? && r.c.correlationId == key && !IsDone(log, r.c.incidentId) && r.c.incidentId in DetectedUnder(log, key)
  }

  // How much the live count of a key exceeds the log's.
  function Excess(counts: map<string, nat>, log: seq<Event>, key: string): int {
    CountFor(counts, key) - |DetectedUnder(log, key)|
  }

  lemma MessageCounts(counts: map<string, nat>, log: seq<Event>, d: Delivery, log': seq<Event>, key: string)
    requires IsDelivery(log, d, log') && d.whole
    ensures var counts' := if IsDone(log, d.c.incidentId) then counts else CountedOnce(counts, d.c.correlationId);
      Excess(counts', log', key) == Excess(counts, log, key) + One(IsRedetection(log, Message(d.c), key))
  {
    hide IsDelivery, DetectedUnder, IsDone;
    DeliveryDetects(log, d, log');
    assert DetectedUnder(log, key) + {} == DetectedUnder(log, key);
    if d.c.incidentId in DetectedUnder(log, key) {
      assert DetectedUnder(log, key) + {d.c.incidentId} == DetectedUnder(log, key);
    }
  }

  lemma SkipCounts(counts: map<string, nat>, log: seq<Event>, log': seq<Event>, s: Snapshot)
    requires IsSkipOf(log, log', s)
    ensures forall key :: Excess(counts, log', key) == Excess(counts, log, key)
  {
    hide DetectedUnder, Records, KeyOf;
    SkipDetects(log, log', s.incidentId, KeyOf(log, s.incidentId), s.state);
  }

  lemma SampleCounts(counts: map<string, nat>, log: seq<Event>, d: Delivery, log': seq<Event>, key: string)
    requires IsDelivery(log, d, log') && d.whole && d.c.incidentId !in Incidents(log)
    ensures Excess(CountedOnce(counts, d.c.correlationId), log', key) == Excess(counts, log, key)
  {
    hide IsDelivery, DetectedUnder, IsDone, Incidents;
    IsNew(log, d.c.incidentId, d.c.correlationId);
    MessageCounts(counts, log, d, log', key);
    NewIsUndetected(log, d.c.incidentId, key);
  }

  // One request.  `alive` unless the process died in it.
  method Serve(worker: IncidentWorker, r: Request) returns (alive: bool)
    requires worker.manager.Valid() && KeyedBy(worker.manager.store.Log(), IncidentOf(r), KeyFor(r, worker.manager.keyOf))
    requires r.Sample? ==> r.incidentId !in Incidents(worker.manager.store.Log()) && (r.chain.Some? ==> r.chain.value.sampleId == r.sampleId)
    modifies worker.manager, worker.manager.store
    ensures var m := worker.manager;
      && IsGood(m.store.Log()) && IsServed(old(m.store.Log()), m.store.Log(), IncidentOf(r), KeyFor(r, m.keyOf))
      && (alive ==> m.Valid())
      && (alive && old(m.Consistent()) && IsTidy(old(m.store.Log()), r) ==> m.Consistent())
      && (alive ==> forall key :: Excess(m.counts, m.store.Log(), key)
                               == old(Excess(m.counts, m.store.Log(), key)) + One(IsRedetection(old(m.store.Log()), r, key)))
  {
    hide DetectedUnder, Excess, IsGood, IsServed, StaysMirrored, KeyedBy, IsDone, IsDelivery, Replay, Incidents, SnapshotsOf, CorrelationIndexOf, SampleIndexOf, IsCountOf, Causes;
    ghost var log, counts := worker.manager.store.Log(), worker.manager.counts;
    match r
    case Sample(sampleId, chain, incidentId) =>
      var processed := worker.manager.Process(sampleId, chain, incidentId);
      alive := !processed.Lost?;
      ghost var log' := worker.manager.store.Log();
      if processed.Done? {
        ghost var d := worker.manager.LifecycleOf(Case(incidentId, worker.manager.keyOf(sampleId), chain.value), counts, true);
        forall key ensures Excess(worker.manager.counts, log', key) == Excess(counts, log, key) {
          SampleCounts(counts, log, d, log', key);
        }
      } else if processed.Skipped? {
        SkipCounts(counts, log, log', processed.snapshot);
      }
    case Message(c) =>
      var reply := worker.Handle(c);
      DeliveryServed(log, DeliveryOf(c, worker.manager.policy, counts, reply.Updated?), worker.manager.store.Log());
      alive := reply.Updated?;
      if alive {
        forall key ensures Excess(worker.manager.counts, worker.manager.store.Log(), key) == Excess(counts, log, key) + One(IsRedetection(log, r, key)) {
          MessageCounts(counts, log, DeliveryOf(c, worker.manager.policy, counts, true), worker.manager.store.Log(), key);
        }
      }
  }

  // The logs before and after each request, each request served in turn.
  ghost predicate AreServed(logs: seq<seq<Event>>, requests: seq<Request>, keyOf: string -> string) {
    && |logs| == |requests| + 1 && logs[0] == []
    && forall i :: 0 <= i < |requests| ==> IsServed(logs[i], logs[i + 1], IncidentOf(requests[i]), KeyFor(requests[i], keyOf))
  }

  lemma ServedOneMore(logs: seq<seq<Event>>, requests: seq<Request>, keyOf: string -> string, n: nat, log: seq<Event>)
    requires n < |requests| && AreServed(logs, requests[..n], keyOf)
    requires IsServed(logs[n], log, IncidentOf(requests[n]), KeyFor(requests[n], keyOf))
    ensures AreServed(logs + [log], requests[..n + 1], keyOf)
  {
    hide IsServed;
  }

  // Every request since this one was tidy.
  predicate TidySince(logs: seq<seq<Event>>, requests: seq<Request>, start: nat) {
    |requests| <= |logs| && forall i :: start <= i < |requests| ==> IsTidy(logs[i], requests[i])
  }

  lemma TidyUpTo(logs: seq<seq<Event>>, requests: seq<Request>, start: nat, n: nat, log: seq<Event>)
    requires n < |requests| && |logs| == n + 1 && start <= n
    ensures TidySince(logs + [log], requests[..n + 1], start) <==> TidySince(logs, requests[..n], start) && IsTidy(logs[n], requests[n])
  {
    hide IsTidy;
    assert requests[..n + 1] == requests[..n] + [requests[n]];
    assert forall i :: start <= i < n ==> logs[i] == (logs + [log])[i] && requests[..n][i] == requests[..n + 1][i];
    assert (logs + [log])[n] == logs[n];
  }

  // The redetections among the requests since this one.
  function Redetections(logs: seq<seq<Event>>, requests: seq<Request>, start: nat, key: string): nat
    requires |requests| <= |logs|
    decreases |requests|
  {
    if |requests| <= start then 0
    else
      Redetections(logs, requests[..|requests| - 1], start, key)
      + One(IsRedetection(logs[|requests| - 1], requests[|requests| - 1], key))
  }

  lemma {:induction false} RedetectionsFrame(logs: seq<seq<Event>>, log: seq<Event>, requests: seq<Request>, start: nat, key: string)
    requires |requests| <= |logs|
    ensures Redetections(logs + [log], requests, start, key) == Redetections(logs, requests, start, key)
    decreases |requests|
  {
    hide IsRedetection;
    if |requests| > start {
      RedetectionsFrame(logs, log, requests[..|requests| - 1], start, key);
    }
  }

  // The live counts exceed those of the last log by the redetections since the start.
  ghost predicate CountsExceed(counts: map<string, nat>, logs: seq<seq<Event>>, requests: seq<Request>, start: nat) {
    |logs| == |requests| + 1 && forall key :: Excess(counts, logs[|requests|], key) == Redetections(logs, requests, start, key)
  }

  lemma StartExceeds(m: IncidentManager, logs: seq<seq<Event>>, requests: seq<Request>)
    requires m.Consistent() && |logs| == |requests| + 1 && logs[|requests|] == m.store.Log()
    ensures CountsExceed(m.counts, logs, requests, |requests|)
  {
    forall key ensures Excess(m.counts, m.store.Log(), key) == 0 {
      ConsistentCount(m, key);
    }
  }

  lemma ConsistentCount(m: IncidentManager, key: string)
    requires m.Consistent()
    ensures Excess(m.counts, m.store.Log(), key) == 0
  {
    hide SnapshotsOf, CorrelationIndexOf, SampleIndexOf, DetectedUnder, IsGood;
    assert IsCountOf(m.counts, m.store.Log());
    assert key !in m.counts ==> DetectedUnder(m.store.Log(), key) == {};
  }

  lemma ExceedsOneMore(counts: map<string, nat>, counts': map<string, nat>, logs: seq<seq<Event>>, requests: seq<Request>, start: nat, n: nat, log: seq<Event>)
    requires n < |requests| && start <= n && CountsExceed(counts, logs, requests[..n], start)
    requires forall key :: Excess(counts', log, key) == Excess(counts, logs[n], key) + One(IsRedetection(logs[n], requests[n], key))
    ensures CountsExceed(counts', logs + [log], requests[..n + 1], start)
  {
    hide Excess, IsRedetection;
    var logs', served := logs + [log], requests[..n + 1];
    assert served[..n] == requests[..n] && logs'[n + 1] == log;
    forall key ensures Excess(counts', log, key) == Redetections(logs', served, start, key) {
      RedetectionsFrame(logs, log, requests[..n], start, key);
    }
  }

  // Theorem: whatever the requests and wherever the processes die, each call serves its request,
  // no incident has two verdicts, and a live manager has the snapshots and the correlation index of the log;
  // it agrees with the log altogether when every request since its start was tidy, and its counts
  // exceed those of the log by exactly the redetections since then.
  method Session(requests: seq<Request>, lives: seq<Life>, restarts: seq<bool>, policy: Policy, keyOf: string -> string, clock: nat -> int)
    returns (worker: IncidentWorker, alive: bool, ghost logs: seq<seq<Event>>, ghost start: nat)
    requires AreRequests(requests, keyOf) && |lives| == |restarts| == |requests|
    ensures AreServed(logs, requests, keyOf)
    ensures worker.manager.store.Log() == logs[|requests|] && IsGood(logs[|requests|])
    ensures forall inc :: Verdicts(Own(worker.manager.store.Log(), inc)) <= 1
    ensures alive ==> worker.manager.Valid()
    ensures start <= |requests| && forall i :: 0 <= i < |requests| && restarts[i] ==> i <= start
    ensures alive && TidySince(logs, requests, start) ==> worker.manager.Consistent()
    ensures alive ==> CountsExceed(worker.manager.counts, logs, requests, start)
  {
    hide IsGood, IsServed, AreServed, IsTidy, TidySince, KeyedBy, Incidents, SnapshotsOf, CorrelationIndexOf, SampleIndexOf, IsCountOf, AreRequests, AreFor, IncidentOf, KeyFor, Own, Verdicts, Excess, IsRedetection, CountsExceed;
    NothingIsGood();
    worker := Start([], Life(0, false), policy, keyOf, clock);
    alive, logs, start := false, [[]], 0;
    NothingServedYet(requests[..0], keyOf);
    for i := 0 to |requests|
      invariant fresh(worker) && fresh(worker.manager) && fresh(worker.manager.store) && worker.manager.keyOf == keyOf
      invariant |logs| == i + 1 && AreServed(logs, requests[..i], keyOf)
      invariant worker.manager.store.Log() == logs[i] && IsGood(logs[i]) && AreFor(logs[i], requests[..i], keyOf)
      invariant start <= i && forall k :: 0 <= k < i && restarts[k] ==> k <= start
      invariant alive ==> worker.manager.Valid()
      invariant alive && TidySince(logs, requests[..i], start) ==> worker.manager.Consistent()
      invariant alive ==> CountsExceed(worker.manager.counts, logs, requests[..i], start)
    {
      if !alive || restarts[i] {
        worker := Start(worker.manager.store.file, lives[i], policy, keyOf, clock);
        start := i;
        StartExceeds(worker.manager, logs, requests[..i]);
      }
      ghost var counts := worker.manager.counts;
      RequestIsKeyed(logs[i], requests, keyOf, i);
      alive := Serve(worker, requests[i]);
      ServedIsFor(logs[i], worker.manager.store.Log(), requests, keyOf, i);
      ServedOneMore(logs, requests, keyOf, i, worker.manager.store.Log());
      TidyUpTo(logs, requests, start, i, worker.manager.store.Log());
      if alive {
        ExceedsOneMore(counts, worker.manager.counts, logs, requests, start, i, worker.manager.store.Log());
      }
      logs := logs + [worker.manager.store.Log()];
    }
    assert requests[..|requests|] == requests;
    GoodIsOnce(worker.manager.store.Log());
  }

  lemma GoodIsOnce(log: seq<Event>)
    requires IsGood(log)
    ensures forall inc :: Verdicts(Own(log, inc)) <= 1
  {
    forall inc ensures Verdicts(Own(log, inc)) <= 1 {
      assert VerdictOnce(Own(log, inc));
    }
  }

  lemma NothingServedYet(none: seq<Request>, keyOf: string -> string)
    requires none == []
    ensures AreServed([[]], none, keyOf) && AreFor([], none, keyOf)
  {
  }

  // Theorem: restarting after such a session changes nothing in the snapshots and the correlation
  // index, nothing at all when every request since the start was tidy, and takes each key's count
  // down by exactly its redetections.
  method RestartAfterSession(requests: seq<Request>, lives: seq<Life>, restarts: seq<bool>, policy: Policy, keyOf: string -> string, clock: nat -> int)
    returns (m: IncidentManager, restarted: IncidentManager, alive: bool, ghost logs: seq<seq<Event>>, ghost start: nat)
    requires AreRequests(requests, keyOf) && |lives| == |restarts| == |requests|
    ensures AreServed(logs, requests, keyOf) && m.store.Log() == restarted.store.Log() == logs[|requests|]
    ensures start <= |requests| && forall i :: 0 <= i < |requests| && restarts[i] ==> i <= start
    ensures alive ==> restarted.snapshots == m.snapshots && restarted.correlationIndex == m.correlationIndex
    ensures alive && TidySince(logs, requests, start) ==> restarted.sampleIndex == m.sampleIndex && restarted.counts == m.counts
    ensures alive ==> forall key :: CountFor(m.counts, key) == CountFor(restarted.counts, key) + Redetections(logs, requests, start, key)
  {
    hide Redetections, DetectedUnder, AreServed, TidySince, IsGood, SnapshotsOf, CorrelationIndexOf, SampleIndexOf, IsCountOf, AreRequests;
    var worker;
    worker, alive, logs, start := Session(requests, lives, restarts, policy, keyOf, clock);
    m := worker.manager;
    var fresh' := Start(m.store.file, Life(0, false), policy, keyOf, clock);
    restarted := fresh'.manager;
    if m.Consistent() {
      CountsUnique(restarted.counts, m.counts, m.store.Log());
    }
    if alive {
      forall key ensures CountFor(m.counts, key) == CountFor(restarted.counts, key) + Redetections(logs, requests, start, key) {
        ConsistentCount(restarted, key);
        assert Excess(m.counts, logs[|requests|], key) == Redetections(logs, requests, start, key);
      }
    }
  }
}
