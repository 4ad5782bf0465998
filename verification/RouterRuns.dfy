/** Any number of callers of the router at once: every locked counter update and every breaker
    operation is one step, and the steps of different calls interleave freely. */
module RouterRuns {
  import opened Wrappers
  import opened CircuitBreaker
  import opened RoutingContracts
  import opened QuantumRouters

  // Where one call is.
  datatype Pc =
    | Done
    | Skipping                                          // no threshold crossed
    | Candidate                                         // some threshold crossed, breaker not yet asked
    | Denied
    | DeniedCounted
    | Admitted
    | Submitted
    | Waiting
    | GaveUp                                            // the wait ran out: nobody will resolve the job
    | Resolving(success: bool, reason: FallbackReason)  // the job's record is in hand
    | Counted(success: bool, reason: FallbackReason)
    | Reported(reason: FallbackReason)

  datatype System = System(calls: seq<Pc>, counters: Counters, ops: seq<Operation>)

  datatype Step =
    | Call(invoke: bool)
    | CountSkip(i: nat)
    | AskBreaker(i: nat, now: real)
    | CountDenied(i: nat)
    | CountOpen(i: nat)
    | Misconfigured(i: nat)           // no timeout for the backend: the call raises
    | Submit(i: nat)
    | CountCandidate(i: nat)
    | GiveUp(i: nat)
    | Finish(i: nat, success: bool, reason: FallbackReason)
    | CountOutcome(i: nat)
    | Report(i: nat, now: real)
    | CountFallback(i: nat)

  function BreakerOf(s: System, settings: Settings): Breaker {
    Run(s.ops, settings)
  }

  predicate Enabled(s: System, step: Step) {
    step.Call? || (step.i < |s.calls| &&
      match step
      case CountSkip(i) => s.calls[i].Skipping?
      case AskBreaker(i, _) => s.calls[i].Candidate?
      case CountDenied(i) => s.calls[i].Denied?
      case CountOpen(i) => s.calls[i].DeniedCounted?
      case Misconfigured(i) => s.calls[i].Admitted?
      case Submit(i) => s.calls[i].Admitted?
      case CountCandidate(i) => s.calls[i].Submitted?
      case GiveUp(i) => s.calls[i].Waiting?
      case Finish(i, _, reason) => s.calls[i].Waiting? && reason != CIRCUIT_OPEN
      case CountOutcome(i) => s.calls[i].Resolving?
      case Report(i, _) => s.calls[i].Counted?
      case CountFallback(i) => s.calls[i].Reported?)
  }

  // Where the call goes.
  function NextPc(s: System, step: Step, settings: Settings): Pc
    requires !step.Call? && Enabled(s, step)
  {
    var pc := s.calls[step.i];
    match step
    case CountSkip(_) => Done
    case AskBreaker(_, now) => if Allows(BreakerOf(s, settings), now, settings) then Admitted else Denied
    case CountDenied(_) => DeniedCounted
    case CountOpen(_) => Done
    case Misconfigured(_) => Done
    case Submit(_) => Submitted
    case CountCandidate(_) => Waiting
    case GiveUp(_) => GaveUp
    case Finish(_, success, reason) => Resolving(success, reason)
    case CountOutcome(_) => Counted(pc.success, pc.reason)
    case Report(_, _) => if pc.success then Done else Reported(pc.reason)
    case CountFallback(_) => Done
  }

  // What the step adds to the counters.
  function Increment(s: System, step: Step): Counters
    requires Enabled(s, step)
  {
    match step
    case CountSkip(_) => OfEvent(false)
    case CountDenied(_) => OfEvent(true)
    case CountOpen(_) => OfFallback(CIRCUIT_OPEN)
    case Submit(_) => OfInvocation()
    case CountCandidate(_) => OfEvent(true)
    case CountOutcome(i) => OfOutcome(s.calls[i].success)
    case CountFallback(i) => OfFallback(s.calls[i].reason)
    case _ => NOTHING
  }

  function NewOps(s: System, step: Step): seq<Operation>
    requires Enabled(s, step)
  {
    match step
    case AskBreaker(_, now) => [Ask(now)]
    case Report(i, now) => if s.calls[i].success then [Good(now)] else [Bad(now)]
    case _ => []
  }

  function Perform(s: System, step: Step, settings: Settings): System
    requires Enabled(s, step)
  {
    System(
      if step.Call? then s.calls + [if step.invoke then Candidate else Skipping]
      else s.calls[step.i := NextPc(s, step, settings)],
      Add(s.counters, Increment(s, step)),
      s.ops + NewOps(s, step))
  }

  // ---- Conservation ------------------------------------------------------------------------------

  // What a call in this place still owes the counters.
  function Owed(pc: Pc): Counters {
    match pc
    case Skipping => OfEvent(false)
    case Denied => Add(OfEvent(true), OfFallback(CIRCUIT_OPEN))
    case DeniedCounted => OfFallback(CIRCUIT_OPEN)
    case Submitted => OfEvent(true)
    case Resolving(success, reason) => if success then OfOutcome(true) else Add(OfOutcome(false), OfFallback(reason))
    case Counted(success, reason) => if success then NOTHING else OfFallback(reason)
    case Reported(reason) => OfFallback(reason)
    case _ => NOTHING
  }

  // Its job was submitted and has no known outcome.
  predicate IsUnresolved(pc: Pc) {
    pc.Submitted? || pc.Waiting? || pc.GaveUp?
  }

  // The conservation laws.
  datatype Law =
    | EVENTS         // every event is a candidate or skipped
    | CANDIDATES     // every candidate is invoked or turned away
    | INVOCATIONS    // every invocation succeeded, failed, or is unresolved
    | REASONS        // every fallback has one reason
    | FALLBACKS      // every fallback is a failure or an open circuit

  // How far a vector of counters, with a number of unresolved jobs, is from obeying a law.
  function Imbalance(law: Law, c: Counters, unresolved: int): int {
    match law
    case EVENTS => c.total - c.candidates - c.skipped
    case CANDIDATES => c.candidates - c.invocations - c.circuitOpen
    case INVOCATIONS => c.invocations - c.successes - c.failures - unresolved
    case REASONS => c.fallbacks - c.circuitOpen - c.timeout - c.exhausted
    case FALLBACKS => c.fallbacks - c.failures - c.circuitOpen
  }

  function OfPc(law: Law, pc: Pc): int {
    Imbalance(law, Owed(pc), if IsUnresolved(pc) then 1 else 0)
  }

  function OfCalls(law: Law, calls: seq<Pc>): int {
    if calls == [] then 0 else OfCalls(law, calls[..|calls| - 1]) + OfPc(law, calls[|calls| - 1])
  }

  // Only jobs that ran report a reason, and it is not the open circuit.
  predicate HasJobReason(pc: Pc) {
    pc.Resolving? || pc.Counted? || pc.Reported? ==> pc.reason != CIRCUIT_OPEN
  }

  // Counters and debts together always obey every law.
  predicate IsConserved(law: Law, s: System) {
    && (forall i :: 0 <= i < |s.calls| ==> HasJobReason(s.calls[i]))
    && Imbalance(law, s.counters, 0) + OfCalls(law, s.calls) == 0
  }

  lemma {:induction false} OneCallMoves(law: Law, calls: seq<Pc>, i: nat, pc: Pc)
    requires i < |calls|
    ensures OfCalls(law, calls[i := pc]) + OfPc(law, calls[i]) == OfCalls(law, calls) + OfPc(law, pc)
    decreases |calls|
  {
    hide OfPc;
    var front := calls[..|calls| - 1];
    if i == |calls| - 1 {
      assert calls[i := pc][..|calls| - 1] == front;
    } else {
      assert calls[i := pc][..|calls| - 1] == front[i := pc];
      OneCallMoves(law, front, i, pc);
    }
  }

  lemma CountersAdd(law: Law, c: Counters, d: Counters)
    ensures Imbalance(law, Add(c, d), 0) == Imbalance(law, c, 0) + Imbalance(law, d, 0)
  {
  }

  // What each kind of increment does to a law.
  lemma Increments(law: Law)
    ensures Imbalance(law, NOTHING, 0) == Imbalance(law, OfEvent(false), 0) == 0
    ensures Imbalance(law, OfEvent(true), 0) == if law == CANDIDATES then 1 else 0
    ensures Imbalance(law, OfInvocation(), 0) == if law == CANDIDATES then -1 else if law == INVOCATIONS then 1 else 0
    ensures Imbalance(law, OfOutcome(true), 0) == if law == INVOCATIONS then -1 else 0
    ensures Imbalance(law, OfOutcome(false), 0) == if law == INVOCATIONS || law == FALLBACKS then -1 else 0
    ensures Imbalance(law, OfFallback(CIRCUIT_OPEN), 0) == if law == CANDIDATES then -1 else 0
    ensures forall r :: r != CIRCUIT_OPEN ==> Imbalance(law, OfFallback(r), 0) == if law == FALLBACKS then 1 else 0
  {
  }

  lemma OfPcSplits(law: Law, pc: Pc)
    ensures OfPc(law, pc) == Imbalance(law, Owed(pc), 0) - if law == INVOCATIONS && IsUnresolved(pc) then 1 else 0
  {
  }

  lemma OwedSums(law: Law, pc: Pc)
    ensures pc.Denied? ==> Imbalance(law, Owed(pc), 0) == Imbalance(law, OfEvent(true), 0) + Imbalance(law, OfFallback(CIRCUIT_OPEN), 0)
    ensures pc.Resolving? && !pc.success
      ==> Imbalance(law, Owed(pc), 0) == Imbalance(law, OfOutcome(false), 0) + Imbalance(law, OfFallback(pc.reason), 0)
  {
    hide Imbalance, Add, OfEvent, OfOutcome, OfFallback;
    CountersAdd(law, OfEvent(true), OfFallback(CIRCUIT_OPEN));
    if pc.Resolving? {
      CountersAdd(law, OfOutcome(false), OfFallback(pc.reason));
    }
  }

  // A step pays exactly what its call owed.
  lemma StepPays(law: Law, s: System, step: Step, settings: Settings)
    requires !step.Call? && Enabled(s, step) && HasJobReason(s.calls[step.i])
    ensures HasJobReason(NextPc(s, step, settings))
    ensures Imbalance(law, Increment(s, step), 0) + OfPc(law, NextPc(s, step, settings)) == OfPc(law, s.calls[step.i])
  {
    hide Allows, BreakerOf, Imbalance, OfPc, Add, OfEvent, OfInvocation, OfOutcome, OfFallback;
    var pc, next := s.calls[step.i], NextPc(s, step, settings);
    Increments(law);
    OfPcSplits(law, pc);
    OfPcSplits(law, next);
    OwedSums(law, pc);
    OwedSums(law, next);
  }

  lemma StepConserves(law: Law, s: System, step: Step, settings: Settings)
    requires IsConserved(law, s) && Enabled(s, step)
    ensures IsConserved(law, Perform(s, step, settings))
  {
    hide OfPc, Imbalance, Increment, NextPc, Add, NewOps, OfCalls, HasJobReason;
    CountersAdd(law, s.counters, Increment(s, step));
    if step.Call? {
      NewCallOwesNothing(law, s, step);
    } else {
      StepPays(law, s, step, settings);
      OneCallMoves(law, s.calls, step.i, NextPc(s, step, settings));
    }
  }

  lemma NewCallOwesNothing(law: Law, s: System, step: Step)
    requires step.Call?
    ensures var pc := if step.invoke then Candidate else Skipping;
      && HasJobReason(pc) && OfCalls(law, s.calls + [pc]) == OfCalls(law, s.calls)
      && Enabled(s, step) && Imbalance(law, Increment(s, step), 0) == 0
  {
    hide Imbalance, OfEvent;
    var pc := if step.invoke then Candidate else Skipping;
    assert (s.calls + [pc])[..|s.calls|] == s.calls;
    Increments(law);
    OfPcSplits(law, pc);
  }

  // ---- Runs -------------------------------------------------------------------------------------

  const EMPTY := System([], NOTHING, [])

  predicate IsRun(states: seq<System>, steps: seq<Step>, settings: Settings) {
    && |states| == |steps| + 1
    && forall i :: 0 <= i < |steps| ==> Enabled(states[i], steps[i]) && states[i + 1] == Perform(states[i], steps[i], settings)
  }

  lemma {:induction false} RunConserves(law: Law, states: seq<System>, steps: seq<Step>, settings: Settings, n: nat)
    requires IsRun(states, steps, settings) && states[0] == EMPTY && n < |states|
    ensures IsConserved(law, states[n])
    decreases n
  {
    if n > 0 {
      hide IsConserved, Perform, Enabled;
      RunConserves(law, states, steps, settings, n - 1);
      StepConserves(law, states[n - 1], steps[n - 1], settings);
    }
  }

  function UnresolvedIn(calls: seq<Pc>): nat {
    if calls == [] then 0
    else UnresolvedIn(calls[..|calls| - 1]) + if IsUnresolved(calls[|calls| - 1]) then 1 else 0
  }

  predicate IsSettled(pc: Pc) {
    pc.Done? || pc.Candidate? || pc.Admitted? || pc.Waiting? || pc.GaveUp?
  }

  lemma {:induction false} SettledCalls(law: Law, calls: seq<Pc>)
    requires forall i :: 0 <= i < |calls| ==> IsSettled(calls[i])
    ensures OfCalls(law, calls) == if law == INVOCATIONS then -(UnresolvedIn(calls) as int) else 0
    decreases |calls|
  {
    if calls != [] {
      assert IsSettled(calls[|calls| - 1]);
      SettledCalls(law, calls[..|calls| - 1]);
    }
  }

  // Theorem: whenever no call is between two counter updates, however the calls interleaved and
  // however many waits were abandoned, the counters satisfy all conservation laws.
  lemma CountersConserved(states: seq<System>, steps: seq<Step>, settings: Settings, n: nat)
    requires IsRun(states, steps, settings) && states[0] == EMPTY && n < |states|
    requires forall i :: 0 <= i < |states[n].calls| ==> IsSettled(states[n].calls[i])
    ensures var c := states[n].counters;
      && c.total == c.candidates + c.skipped
      && c.candidates == c.invocations + c.circuitOpen
      && c.invocations == c.successes + c.failures + UnresolvedIn(states[n].calls)
      && c.fallbacks == c.circuitOpen + c.timeout + c.exhausted == c.failures + c.circuitOpen
  {
    hide IsRun;
    forall law: Law ensures Imbalance(law, states[n].counters, 0) + OfCalls(law, states[n].calls) == 0
      && OfCalls(law, states[n].calls) == if law == INVOCATIONS then -(UnresolvedIn(states[n].calls) as int) else 0
    {
      RunConserves(law, states, steps, settings, n);
      SettledCalls(law, states[n].calls);
    }
    var c, calls := states[n].counters, states[n].calls;
    assert Imbalance(EVENTS, c, 0) == 0 && Imbalance(CANDIDATES, c, 0) == 0 && Imbalance(REASONS, c, 0) == 0 && Imbalance(FALLBACKS, c, 0) == 0;
    assert Imbalance(INVOCATIONS, c, 0) == UnresolvedIn(calls);
  }

  // ---- What the counters count ------------------------------------------------------------------

  // The moments of a run that the counters are named after.
  predicate CountsSkip(s: System, step: Step) { step.CountSkip? }
  predicate CountsCandidate(s: System, step: Step) { step.CountDenied? || step.CountCandidate? }
  predicate CountsSubmission(s: System, step: Step) { step.Submit? }
  predicate CountsOpenCircuit(s: System, step: Step) { step.CountOpen? }

  predicate CountsOutcome(s: System, step: Step, success: bool) {
    step.CountOutcome? && Enabled(s, step) && s.calls[step.i].success == success
  }

  predicate CountsReason(s: System, step: Step, reason: FallbackReason) {
    step.CountFallback? && Enabled(s, step) && s.calls[step.i].reason == reason
  }

  function Moments(states: seq<System>, steps: seq<Step>, p: (System, Step) -> bool, n: nat): nat
    requires n <= |steps| <= |states|
  {
    if n == 0 then 0 else Moments(states, steps, p, n - 1) + One(p(states[n - 1], steps[n - 1]))
  }

  lemma OneMoment(s: System, step: Step)
    requires Enabled(s, step) && (step.CountFallback? ==> s.calls[step.i].reason != CIRCUIT_OPEN)
    ensures var c := Increment(s, step);
      && c.skipped == One(CountsSkip(s, step)) && c.candidates == One(CountsCandidate(s, step))
      && c.total == One(CountsSkip(s, step)) + One(CountsCandidate(s, step))
      && c.invocations == One(CountsSubmission(s, step)) && c.circuitOpen == One(CountsOpenCircuit(s, step))
      && c.successes == One(CountsOutcome(s, step, true)) && c.failures == One(CountsOutcome(s, step, false))
      && c.timeout == One(CountsReason(s, step, TIMEOUT)) && c.exhausted == One(CountsReason(s, step, RETRIES_EXHAUSTED))
  {
  }

  // Every counter is the number of moments it is named after.
  ghost predicate Counts(c: Counters, states: seq<System>, steps: seq<Step>, n: nat)
    requires n <= |steps| <= |states|
  {
    && c.skipped == Moments(states, steps, CountsSkip, n)
    && c.candidates == Moments(states, steps, CountsCandidate, n)
    && c.total == c.skipped + c.candidates
    && c.invocations == Moments(states, steps, CountsSubmission, n)
    && c.circuitOpen == Moments(states, steps, CountsOpenCircuit, n)
    && c.successes == Moments(states, steps, (s, step) => CountsOutcome(s, step, true), n)
    && c.failures == Moments(states, steps, (s, step) => CountsOutcome(s, step, false), n)
    && c.timeout == Moments(states, steps, (s, step) => CountsReason(s, step, TIMEOUT), n)
    && c.exhausted == Moments(states, steps, (s, step) => CountsReason(s, step, RETRIES_EXHAUSTED), n)
  }

  lemma CountsOneMore(c: Counters, d: Counters, states: seq<System>, steps: seq<Step>, n: nat)
    requires n < |steps| <= |states| && Counts(c, states, steps, n)
    requires Enabled(states[n], steps[n]) && (steps[n].CountFallback? ==> states[n].calls[steps[n].i].reason != CIRCUIT_OPEN)
    requires d == Increment(states[n], steps[n])
    ensures Counts(Add(c, d), states, steps, n + 1)
  {
    hide Enabled, Increment, CountsSkip, CountsCandidate, CountsSubmission, CountsOpenCircuit, CountsOutcome, CountsReason;
    OneMoment(states[n], steps[n]);
  }

  // Theorem: in every run from the start, however the calls interleave, each counter is the number
  // of moments it is named after, timeouts and exhausted retries told apart.
  lemma {:induction false} RunCounts(states: seq<System>, steps: seq<Step>, settings: Settings, n: nat)
    requires IsRun(states, steps, settings) && states[0] == EMPTY && n < |states|
    ensures Counts(states[n].counters, states, steps, n)
    decreases n
  {
    if n > 0 {
      hide Counts, Increment, Add, Enabled, NextPc, NewOps;
      RunCounts(states, steps, settings, n - 1);
      ReasonsAreJobs(states, steps, settings, n - 1);
      CountsOneMore(states[n - 1].counters, Increment(states[n - 1], steps[n - 1]), states, steps, n - 1);
    }
  }

  lemma ReasonsAreJobs(states: seq<System>, steps: seq<Step>, settings: Settings, n: nat)
    requires IsRun(states, steps, settings) && states[0] == EMPTY && n < |steps|
    ensures |states| == |steps| + 1 && Enabled(states[n], steps[n])
    ensures steps[n].CountFallback? ==> states[n].calls[steps[n].i].reason != CIRCUIT_OPEN
  {
    hide Perform, Imbalance, OfCalls;
    RunConserves(EVENTS, states, steps, settings, n);
  }
}
