/** When a half-open breaker can recover: exactly while some call admitted earlier may still report
    to it.  A trial nobody reports on strands the backend, and that state can be reached. */
module HalfOpen {
  import opened CircuitBreaker
  import opened RoutingContracts
  import opened QuantumRouters
  import opened RouterRuns

  // A call that may still report to the breaker.
  predicate MayReport(pc: Pc) {
    pc.Admitted? || pc.Submitted? || pc.Waiting? || pc.Resolving? || pc.Counted?
  }

  predicate IsQuiet(s: System) {
    forall i :: 0 <= i < |s.calls| ==> !MayReport(s.calls[i])
  }

  // Half-open, and nobody is left to report on the trial.
  predicate IsStuck(s: System, settings: Settings) {
    BreakerOf(s, settings).state == HALF_OPEN && IsQuiet(s)
  }

  // Some run leads from s to t.
  ghost predicate Reaches(s: System, t: System, settings: Settings) {
    exists states, steps :: IsRun(states, steps, settings) && states[0] == s && states[|steps|] == t
  }

  lemma ReachesItself(s: System, settings: Settings)
    ensures Reaches(s, s, settings)
  {
    var states, steps: seq<Step> := [s], [];
    assert IsRun(states, steps, settings) && states[0] == s && states[|steps|] == s;
  }

  lemma OneStepFurther(s: System, t: System, step: Step, settings: Settings)
    requires Reaches(s, t, settings) && Enabled(t, step)
    ensures Reaches(s, Perform(t, step, settings), settings)
  {
    hide Enabled, Perform;
    var states, steps :| IsRun(states, steps, settings) && states[0] == s && states[|steps|] == t;
    var states', steps' := states + [Perform(t, step, settings)], steps + [step];
    assert IsRun(states', steps', settings) && states'[0] == s && states'[|steps'|] == Perform(t, step, settings);
  }

  // ---- No way out without a report --------------------------------------------------------------

  lemma StuckStep(s: System, step: Step, settings: Settings)
    requires IsStuck(s, settings) && Enabled(s, step)
    ensures IsStuck(Perform(s, step, settings), settings)
  {
    var s' := Perform(s, step, settings);
    BreakerInvariant(s.ops, settings);
    if step.AskBreaker? {
      assert s'.ops[..|s'.ops| - 1] == s.ops;
    } else {
      assert !step.Call? ==> !MayReport(s.calls[step.i]);
      assert s'.ops == s.ops;
    }
  }

  // Theorem: from a stuck state the breaker never leaves HALF_OPEN, whatever time passes and
  // whatever calls arrive, and no call is ever let through again.
  lemma {:induction false} StuckForever(states: seq<System>, steps: seq<Step>, settings: Settings, n: nat, i: nat)
    requires IsRun(states, steps, settings) && IsStuck(states[0], settings) && n < |states|
    ensures IsStuck(states[n], settings)
    ensures i < |states[n].calls| ==> !states[n].calls[i].Admitted?
    decreases n
  {
    if n > 0 {
      StuckForever(states, steps, settings, n - 1, i);
      StuckStep(states[n - 1], steps[n - 1], settings);
    }
    assert i < |states[n].calls| ==> !MayReport(states[n].calls[i]);
  }

  // ---- A way out with one -----------------------------------------------------------------------

  function StepsToReport(pc: Pc): nat
    requires MayReport(pc)
  {
    match pc
    case Admitted => 5
    case Submitted => 4
    case Waiting => 3
    case Resolving(_, _) => 2
    case Counted(_, _) => 1
  }

  function StepTowards(pc: Pc, i: nat): Step
    requires MayReport(pc)
  {
    match pc
    case Admitted => Submit(i)
    case Submitted => CountCandidate(i)
    case Waiting => Finish(i, true, TIMEOUT)
    case Resolving(_, _) => CountOutcome(i)
    case Counted(_, _) => Report(i, 0.0)
  }

  // A call that may still report a success: its job has not failed yet.
  predicate MayReportSuccess(pc: Pc) {
    MayReport(pc) && (pc.Resolving? || pc.Counted? ==> pc.success)
  }

  // The call goes on to its report, and the report ends the trial either way; a success closes the
  // breaker.
  lemma {:induction false} ReportIsReached(start: System, s: System, i: nat, settings: Settings) returns (t: System)
    requires Reaches(start, s, settings) && BreakerOf(s, settings).state == HALF_OPEN
    requires i < |s.calls| && MayReport(s.calls[i])
    ensures Reaches(start, t, settings) && BreakerOf(t, settings).state != HALF_OPEN
    ensures MayReportSuccess(s.calls[i]) ==> BreakerOf(t, settings).state == CLOSED
    decreases StepsToReport(s.calls[i])
  {
    hide Reaches;
    var step := StepTowards(s.calls[i], i);
    var s' := Perform(s, step, settings);
    OneStepFurther(start, s, step, settings);
    if s.calls[i].Counted? {
      assert s'.ops[..|s'.ops| - 1] == s.ops;
      t := s';
    } else {
      assert s'.ops == s.ops;
      t := ReportIsReached(start, s', i, settings);
    }
  }

  ghost predicate CanLeave(s: System, settings: Settings) {
    exists t :: Reaches(s, t, settings) && BreakerOf(t, settings).state != HALF_OPEN
  }

  // Theorem: a half-open breaker can still leave that state exactly when some call may report.
  lemma RecoversExactly(s: System, settings: Settings)
    requires BreakerOf(s, settings).state == HALF_OPEN
    ensures CanLeave(s, settings) <==> exists i :: 0 <= i < |s.calls| && MayReport(s.calls[i])
  {
    if i :| 0 <= i < |s.calls| && MayReport(s.calls[i]) {
      ReachesItself(s, settings);
      var t := ReportIsReached(s, s, i, settings);
    } else if CanLeave(s, settings) {
      var t :| Reaches(s, t, settings) && BreakerOf(t, settings).state != HALF_OPEN;
      var states, steps :| IsRun(states, steps, settings) && states[0] == s && states[|steps|] == t;
      StuckForever(states, steps, settings, |steps|, 0);
    }
  }

  // A new trial after the cooldown of an open breaker, and its success.
  lemma TrialSucceeds(start: System, s: System, settings: Settings) returns (t: System)
    requires Reaches(start, s, settings) && BreakerOf(s, settings).state == OPEN
    ensures Reaches(start, t, settings) && BreakerOf(t, settings).state == CLOSED
  {
    hide Reaches, Add;
    var now, i := OpenedAt(BreakerOf(s, settings)) + settings.cooldown, |s.calls|;
    t := NewCall(start, s, settings);
    assert t.ops == s.ops;
    var asked := Perform(t, AskBreaker(i, now), settings);
    assert asked.ops[..|asked.ops| - 1] == s.ops;
    t := StepOf(start, t, AskBreaker(i, now), settings);
    t := ReportIsReached(start, t, i, settings);
  }

  ghost predicate CanClose(s: System, settings: Settings) {
    exists t :: Reaches(s, t, settings) && BreakerOf(t, settings).state == CLOSED
  }

  // Theorem: a half-open breaker can close again, now or after further trials, exactly when some
  // call may report.
  lemma CanCloseExactly(s: System, settings: Settings)
    requires BreakerOf(s, settings).state == HALF_OPEN
    ensures CanClose(s, settings) <==> exists i :: 0 <= i < |s.calls| && MayReport(s.calls[i])
  {
    hide Reaches, MayReport;
    RecoversExactly(s, settings);
    if i :| 0 <= i < |s.calls| && MayReport(s.calls[i]) {
      ReachesItself(s, settings);
      var t := ReportIsReached(s, s, i, settings);
      if BreakerOf(t, settings).state == OPEN {
        t := TrialSucceeds(s, t, settings);
      }
      assert CanClose(s, settings);
    }
  }

  // ---- Closing without another trial -------------------------------------------------------------

  // Some run leads from s to t with the breaker half-open throughout.
  ghost predicate Stays(s: System, t: System, settings: Settings) {
    exists states, steps :: IsHalfOpenRun(states, steps, settings) && states[0] == s && states[|steps|] == t
  }

  predicate IsHalfOpenRun(states: seq<System>, steps: seq<Step>, settings: Settings) {
    IsRun(states, steps, settings) && forall k :: 0 <= k < |states| ==> BreakerOf(states[k], settings).state == HALF_OPEN
  }

  // The trial under way ends in success.
  ghost predicate TrialCanClose(s: System, settings: Settings) {
    exists t, step :: Stays(s, t, settings) && Enabled(t, step) && BreakerOf(Perform(t, step, settings), settings).state == CLOSED
  }

  lemma StaysItself(s: System, settings: Settings)
    requires BreakerOf(s, settings).state == HALF_OPEN
    ensures Stays(s, s, settings)
  {
    var states, steps: seq<Step> := [s], [];
    assert IsHalfOpenRun(states, steps, settings) && states[0] == s && states[|steps|] == s;
  }

  lemma StaysOneMore(s: System, t: System, step: Step, settings: Settings)
    requires Stays(s, t, settings) && Enabled(t, step) && BreakerOf(Perform(t, step, settings), settings).state == HALF_OPEN
    ensures Stays(s, Perform(t, step, settings), settings)
  {
    hide Enabled, Perform, BreakerOf;
    var states, steps :| IsHalfOpenRun(states, steps, settings) && states[0] == s && states[|steps|] == t;
    var states', steps' := states + [Perform(t, step, settings)], steps + [step];
    assert IsHalfOpenRun(states', steps', settings) && states'[0] == s && states'[|steps'|] == Perform(t, step, settings);
  }

  // A call that may report a success goes on until that is all it has left to do.
  lemma {:induction false} SuccessIsNext(start: System, s: System, i: nat, settings: Settings) returns (t: System)
    requires Stays(start, s, settings) && BreakerOf(s, settings).state == HALF_OPEN
    requires i < |s.calls| && MayReportSuccess(s.calls[i])
    ensures Stays(start, t, settings) && BreakerOf(t, settings).state == HALF_OPEN
    ensures i < |t.calls| && t.calls[i].Counted? && t.calls[i].success
    decreases StepsToReport(s.calls[i])
  {
    hide Stays, Add;
    if s.calls[i].Counted? {
      t := s;
    } else {
      var step := StepTowards(s.calls[i], i);
      assert Perform(s, step, settings).ops == s.ops;
      StaysOneMore(start, s, step, settings);
      t := SuccessIsNext(start, Perform(s, step, settings), i, settings);
    }
  }

  predicate NoSuccess(s: System) {
    forall i :: 0 <= i < |s.calls| ==> !MayReportSuccess(s.calls[i])
  }

  // While the breaker stays half-open nobody is let through, so no new hope of a success arises.
  lemma StepKeepsNoSuccess(s: System, step: Step, settings: Settings)
    requires NoSuccess(s) && BreakerOf(s, settings).state == HALF_OPEN && Enabled(s, step)
    ensures NoSuccess(Perform(s, step, settings)) && BreakerOf(Perform(s, step, settings), settings).state != CLOSED
  {
    hide Add, Increment;
    var s' := Perform(s, step, settings);
    BreakerInvariant(s.ops, settings);
    if !step.Call? {
      assert !MayReportSuccess(s.calls[step.i]);
    }
    if NewOps(s, step) == [] {
      assert s'.ops == s.ops;
    } else {
      assert s'.ops[..|s'.ops| - 1] == s.ops;
    }
  }

  lemma {:induction false} RunKeepsNoSuccess(states: seq<System>, steps: seq<Step>, settings: Settings, n: nat)
    requires IsHalfOpenRun(states, steps, settings) && NoSuccess(states[0]) && n < |states|
    ensures NoSuccess(states[n])
    decreases n
  {
    hide NoSuccess, Enabled, Perform, BreakerOf;
    if n > 0 {
      RunKeepsNoSuccess(states, steps, settings, n - 1);
      StepKeepsNoSuccess(states[n - 1], steps[n - 1], settings);
    }
  }

  // Theorem: the trial under way, without another one, can close the breaker exactly when some call
  // may still report a success.
  lemma TrialClosesExactly(s: System, settings: Settings)
    requires BreakerOf(s, settings).state == HALF_OPEN
    ensures TrialCanClose(s, settings) <==> exists i :: 0 <= i < |s.calls| && MayReportSuccess(s.calls[i])
  {
    hide MayReportSuccess, Enabled, Perform, BreakerOf;
    if i :| 0 <= i < |s.calls| && MayReportSuccess(s.calls[i]) {
      StaysItself(s, settings);
      var t := SuccessIsNext(s, s, i, settings);
      SuccessCloses(t, i, settings);
      assert TrialCanClose(s, settings);
    } else if TrialCanClose(s, settings) {
      var t, step :| Stays(s, t, settings) && Enabled(t, step) && BreakerOf(Perform(t, step, settings), settings).state == CLOSED;
      var states, steps :| IsHalfOpenRun(states, steps, settings) && states[0] == s && states[|steps|] == t;
      RunKeepsNoSuccess(states, steps, settings, |steps|);
      StepKeepsNoSuccess(t, step, settings);
    }
  }

  lemma SuccessCloses(s: System, i: nat, settings: Settings)
    requires BreakerOf(s, settings).state == HALF_OPEN && i < |s.calls| && s.calls[i].Counted? && s.calls[i].success
    ensures Enabled(s, Report(i, 0.0)) && BreakerOf(Perform(s, Report(i, 0.0), settings), settings).state == CLOSED
  {
    hide Add;
    var s' := Perform(s, Report(i, 0.0), settings);
    assert s'.ops[..|s'.ops| - 1] == s.ops;
  }

  // ---- How a trial is stranded --------------------------------------------------------------------

  // An open breaker admits call i after its cooldown.
  predicate IsTrial(s: System, i: nat, now: real, settings: Settings) {
    && i < |s.calls| && s.calls[i].Candidate?
    && BreakerOf(s, settings).state == OPEN && Allows(BreakerOf(s, settings), now, settings)
  }

  // Theorem: when the caller of a trial stops waiting (or its job raises instead of returning a
  // record), or the call itself raises for want of a configured timeout, the backend is stranded
  // exactly if no other call may report.  The last needs a timeout that went missing after the
  // breaker tripped: where it was never configured no call gets far enough to fail.
  lemma AbandonedTrial(start: System, s: System, i: nat, now: real, raises: bool, settings: Settings) returns (t: System)
    requires Reaches(start, s, settings) && IsTrial(s, i, now, settings)
    ensures Reaches(start, t, settings)
    ensures t.calls == s.calls[i := if raises then Done else GaveUp] && t.ops == s.ops + [Ask(now)]
    ensures IsStuck(t, settings) <==> forall k :: 0 <= k < |s.calls| && k != i ==> !MayReport(s.calls[k])
  {
    hide Reaches, Add;
    t := StepOf(start, s, AskBreaker(i, now), settings);
    if raises {
      t := StepOf(start, t, Misconfigured(i), settings);
    } else {
      t := StepOf(start, t, Submit(i), settings);
      t := StepOf(start, t, CountCandidate(i), settings);
      t := StepOf(start, t, GiveUp(i), settings);
    }
    assert t.ops[..|t.ops| - 1] == s.ops;
    StuckWithout(s, t, i, settings);
  }

  // Half-open after call i stopped: stuck exactly if no other call may report.
  lemma StuckWithout(s: System, t: System, i: nat, settings: Settings)
    requires i < |s.calls| == |t.calls| && t.calls == s.calls[i := t.calls[i]] && !MayReport(t.calls[i])
    requires BreakerOf(t, settings).state == HALF_OPEN
    ensures IsStuck(t, settings) <==> forall k :: 0 <= k < |s.calls| && k != i ==> !MayReport(s.calls[k])
  {
    hide MayReport, BreakerOf;
    if forall k :: 0 <= k < |s.calls| && k != i ==> !MayReport(s.calls[k]) {
      assert IsQuiet(t);
    } else {
      var k :| 0 <= k < |s.calls| && k != i && MayReport(s.calls[k]);
      assert MayReport(t.calls[k]);
    }
  }

  lemma StepOf(start: System, s: System, step: Step, settings: Settings) returns (t: System)
    requires Reaches(start, s, settings) && Enabled(s, step)
    ensures t == Perform(s, step, settings) && Reaches(start, t, settings)
  {
    OneStepFurther(start, s, step, settings);
    t := Perform(s, step, settings);
  }

  // ---- From the empty system -------------------------------------------------------------------

  lemma NewCall(start: System, s: System, settings: Settings) returns (t: System)
    requires Reaches(start, s, settings)
    ensures Reaches(start, t, settings) && t.calls == s.calls + [Candidate] && t.ops == s.ops
  {
    t := StepOf(start, s, Call(true), settings);
    assert s.ops + [] == s.ops;
  }

  lemma LetOneThrough(start: System, s: System, settings: Settings) returns (t: System)
    requires Reaches(start, s, settings) && BreakerOf(s, settings).state == CLOSED
    ensures Reaches(start, t, settings) && t.calls == s.calls + [Waiting] && t.ops == s.ops + [Ask(0.0)]
  {
    hide Reaches, Add, Run;
    var i := |s.calls|;
    t := NewCall(start, s, settings);
    t := StepOf(start, t, AskBreaker(i, 0.0), settings);
    t := StepOf(start, t, Submit(i), settings);
    t := StepOf(start, t, CountCandidate(i), settings);
  }

  // A waiting call runs out of retries and reports it.
  lemma ReportFailure(start: System, s: System, i: nat, settings: Settings) returns (t: System)
    requires Reaches(start, s, settings) && i < |s.calls| && s.calls[i].Waiting?
    ensures Reaches(start, t, settings)
    ensures t.calls == s.calls[i := Reported(RETRIES_EXHAUSTED)] && t.ops == s.ops + [Bad(0.0)]
  {
    hide Reaches, Add;
    t := StepOf(start, s, Finish(i, false, RETRIES_EXHAUSTED), settings);
    t := StepOf(start, t, CountOutcome(i), settings);
    t := StepOf(start, t, Report(i, 0.0), settings);
  }

  // One call let through by a closed breaker, and its failure reported.
  lemma FailOneCall(start: System, s: System, settings: Settings) returns (t: System)
    requires Reaches(start, s, settings) && IsQuiet(s) && BreakerOf(s, settings).state == CLOSED
    ensures Reaches(start, t, settings) && IsQuiet(t)
    ensures BreakerOf(t, settings) == After(BreakerOf(s, settings), Bad(0.0), settings)
  {
    hide Reaches, Run, After;
    t := LetOneThrough(start, s, settings);
    t := ReportFailure(start, t, |s.calls|, settings);
    assert t.calls == s.calls + [Reported(RETRIES_EXHAUSTED)];
    AskedThenFailed(s.ops, settings);
  }

  lemma AskedThenFailed(ops: seq<Operation>, settings: Settings)
    requires Run(ops, settings).state == CLOSED
    ensures Run(ops + [Ask(0.0)] + [Bad(0.0)], settings) == After(Run(ops, settings), Bad(0.0), settings)
  {
    assert (ops + [Ask(0.0)])[..|ops|] == ops;
    assert (ops + [Ask(0.0)] + [Bad(0.0)])[..|ops| + 1] == ops + [Ask(0.0)];
  }

  // Failures trip the breaker, whatever its threshold.
  lemma {:induction false} TripBreaker(start: System, s: System, settings: Settings) returns (t: System)
    requires Reaches(start, s, settings) && IsQuiet(s) && BreakerOf(s, settings).state == CLOSED
    ensures Reaches(start, t, settings) && IsQuiet(t) && BreakerOf(t, settings).state == OPEN
    decreases settings.threshold - BreakerOf(s, settings).failures
  {
    hide Reaches, Run;
    t := FailOneCall(start, s, settings);
    if BreakerOf(t, settings).state == CLOSED {
      t := TripBreaker(start, t, settings);
    }
  }

  // Theorem: under any settings the stuck state is reached from the empty system.
  lemma StuckIsReachable(settings: Settings) returns (t: System)
    ensures Reaches(EMPTY, t, settings) && IsStuck(t, settings)
  {
    hide Reaches;
    ReachesItself(EMPTY, settings);
    t := TripBreaker(EMPTY, EMPTY, settings);
    var now, i := OpenedAt(BreakerOf(t, settings)) + settings.cooldown, |t.calls|;
    t := NewCall(EMPTY, t, settings);
    t := AbandonedTrial(EMPTY, t, i, now, false, settings);
  }
}
