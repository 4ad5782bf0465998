/** The defense counters: locked increments, and what they add up to. */
module DefenseMetrics {
  import opened Wrappers
  import opened Assessments
  import opened DefenseActions

  // One recorded decision.
  datatype Entry = Entry(
    action: Action,
    status: ActionStatus,
    healthy: bool,
    verificationFailed: bool,
    recoveryAttempted: bool,
    recovery: RecoveryStatus,
    rollbackAttempted: bool)

  datatype Tally = Tally(
    total: nat,
    selected: map<Action, nat>,
    executed: nat,
    rejected: nat,
    successful: nat,
    failed: nat,
    recoveryAttempts: nat,
    successfulRecoveries: nat,
    failedRecoveries: nat,
    rollbacks: nat,
    verificationFailures: nat)

  class Metrics {
    var tally: Tally

    constructor ()
      ensures tally == Tallied([])
    {
      tally := Tally(0, map[], 0, 0, 0, 0, 0, 0, 0, 0, 0);
    }

    method Record(e: Entry)
      modifies this
      ensures tally == Plus(old(tally), e)
    {
      hide Plus, WithAttempt, WithRecovery;
      var seen := if e.action in tally.selected then tally.selected[e.action] else 0;
      tally := tally.(total := tally.total + 1, selected := tally.selected[e.action := seen + 1]);
      RecordAttempt(e);
      if e.verificationFailed {
        tally := tally.(verificationFailures := tally.verificationFailures + 1);
      }
      RecordRecovery(e);
      if e.rollbackAttempted {
        tally := tally.(rollbacks := tally.rollbacks + 1);
      }
      PlusInParts(old(tally), e);
    }

    method RecordAttempt(e: Entry)
      modifies this
      ensures tally == WithAttempt(old(tally), e)
    {
      if e.status == REJECTED {
        tally := tally.(rejected := tally.rejected + 1);
      } else {
        tally := tally.(executed := tally.executed + 1);
        if e.healthy {
          tally := tally.(successful := tally.successful + 1);
        } else {
          tally := tally.(failed := tally.failed + 1);
        }
      }
    }

    method RecordRecovery(e: Entry)
      modifies this
      ensures tally == WithRecovery(old(tally), e)
    {
      if e.recoveryAttempted {
        tally := tally.(recoveryAttempts := tally.recoveryAttempts + 1);
        if e.recovery == RecoverySuccess {
          tally := tally.(successfulRecoveries := tally.successfulRecoveries + 1);
        } else if e.recovery == RecoveryFailure {
          tally := tally.(failedRecoveries := tally.failedRecoveries + 1);
        }
      }
    }
  }

  function WithAttempt(t: Tally, e: Entry): Tally {
    var attempted := e.status != REJECTED;
    t.(executed := t.executed + One(attempted),
       rejected := t.rejected + One(!attempted),
       successful := t.successful + One(attempted && e.healthy),
       failed := t.failed + One(attempted && !e.healthy))
  }

  function WithRecovery(t: Tally, e: Entry): Tally {
    t.(recoveryAttempts := t.recoveryAttempts + One(e.recoveryAttempted),
       successfulRecoveries := t.successfulRecoveries + One(e.recoveryAttempted && e.recovery == RecoverySuccess),
       failedRecoveries := t.failedRecoveries + One(e.recoveryAttempted && e.recovery == RecoveryFailure))
  }

  // The counters of one entry, group by group.
  lemma PlusInParts(t: Tally, e: Entry)
    ensures var t1 := t.(total := t.total + 1, selected := t.selected[e.action := Selected(t, e.action) + 1]);
      var t2 := WithAttempt(t1, e);
      var t3 := t2.(verificationFailures := t2.verificationFailures + One(e.verificationFailed));
      var t4 := WithRecovery(t3, e);
      Plus(t, e) == t4.(rollbacks := t4.rollbacks + One(e.rollbackAttempted))
  {
  }

  function Selected(t: Tally, a: Action): nat {
    if a in t.selected then t.selected[a] else 0
  }

  function Plus(t: Tally, e: Entry): Tally {
    var attempted := e.status != REJECTED;
    Tally(
      t.total + 1,
      t.selected[e.action := Selected(t, e.action) + 1],
      t.executed + One(attempted),
      t.rejected + One(!attempted),
      t.successful + One(attempted && e.healthy),
      t.failed + One(attempted && !e.healthy),
      t.recoveryAttempts + One(e.recoveryAttempted),
      t.successfulRecoveries + One(e.recoveryAttempted && e.recovery == RecoverySuccess),
      t.failedRecoveries + One(e.recoveryAttempted && e.recovery == RecoveryFailure),
      t.rollbacks + One(e.rollbackAttempted),
      t.verificationFailures + One(e.verificationFailed))
  }

  function Tallied(entries: seq<Entry>): Tally {
    if entries == [] then Tally(0, map[], 0, 0, 0, 0, 0, 0, 0, 0, 0)
    else Plus(Tallied(entries[..|entries| - 1]), entries[|entries| - 1])
  }

  function Count(entries: seq<Entry>, p: Entry -> bool): nat {
    if entries == [] then 0 else Count(entries[..|entries| - 1], p) + One(p(entries[|entries| - 1]))
  }

  // What the engine records: recovery follows exactly a failed verification, an attempted action
  // is healthy exactly unless recovery failed too, and only a failed recovery rolls back.
  predicate IsEngineEntry(e: Entry) {
    && e.recoveryAttempted == e.verificationFailed
    && (e.recoveryAttempted ==> e.status != REJECTED && e.recovery != NOT_ATTEMPTED)
    && (e.status != REJECTED ==> (e.healthy <==> !(e.recoveryAttempted && e.recovery == RecoveryFailure)))
    && (e.rollbackAttempted ==> e.recoveryAttempted && e.recovery == RecoveryFailure)
  }

  predicate IsBalanced(t: Tally) {
    && t.total == t.executed + t.rejected
    && t.executed == t.successful + t.failed
    && t.recoveryAttempts == t.verificationFailures == t.successfulRecoveries + t.failedRecoveries
    && t.failed == t.failedRecoveries
    && t.successfulRecoveries <= t.successful
    && t.rollbacks <= t.failedRecoveries
  }

  // Theorem: whatever entries are recorded, every counter counts what it is named after.
  lemma {:induction false} CountersCount(entries: seq<Entry>, a: Action)
    ensures var t := Tallied(entries);
      && t.total == |entries| && Selected(t, a) == Count(entries, (e: Entry) => e.action == a)
      && t.rejected == Count(entries, (e: Entry) => e.status == REJECTED)
      && t.executed == Count(entries, (e: Entry) => e.status == EXECUTED || e.status == FAILED)
      && t.successful == Count(entries, (e: Entry) => e.status != REJECTED && e.healthy)
      && t.failed == Count(entries, (e: Entry) => e.status != REJECTED && !e.healthy)
      && t.verificationFailures == Count(entries, (e: Entry) => e.verificationFailed)
      && t.recoveryAttempts == Count(entries, (e: Entry) => e.recoveryAttempted)
      && t.successfulRecoveries == Count(entries, (e: Entry) => e.recoveryAttempted && e.recovery == RecoverySuccess)
      && t.failedRecoveries == Count(entries, (e: Entry) => e.recoveryAttempted && e.recovery == RecoveryFailure)
      && t.rollbacks == Count(entries, (e: Entry) => e.rollbackAttempted)
  {
    if entries != [] {
      CountersCount(entries[..|entries| - 1], a);
    }
  }

  // Theorem: after any decisions of the engine the counters balance.
  lemma {:induction false} CountersConserved(entries: seq<Entry>)
    requires forall e :: e in entries ==> IsEngineEntry(e)
    ensures IsBalanced(Tallied(entries))
  {
    if entries != [] {
      CountersConserved(entries[..|entries| - 1]);
      assert IsEngineEntry(entries[|entries| - 1]);
    }
  }
}
