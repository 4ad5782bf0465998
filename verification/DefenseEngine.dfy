/** Policy, safety validation, recovery, and the engine that strings them together over the
    shared mutable state. */
module DefenseEngines {
  import opened Wrappers
  import opened Assessments
  import opened DefenseActions
  import opened SimulatedNetwork
  import opened DefenseMetrics

  datatype Policy = Policy(
    riskActionMap: map<RiskLevel, map<DecisionStatus, Action>>,
    disabled: seq<Action>,
    uncertainRequiresReversible: bool,
    maxRetries: int,
    rollbackOnFailure: bool,
    simulationMode: bool)

  // None: the call raises on a pair the table does not map.
  function SelectAction(p: Policy, level: RiskLevel, status: DecisionStatus): Option<Action> {
    if level in p.riskActionMap && status in p.riskActionMap[level] then Some(p.riskActionMap[level][status]) else None
  }

  // What the three evidence objects of one call say, as far as the engine looks at them.
  datatype Request = Request(detectionId: string, hybridId: string, riskId: string, level: RiskLevel, status: DecisionStatus) {
    function Target(): string { riskId }
  }

  // ---- Safety validation ---------------------------------------------------------------------

  datatype Check =
    | SIMULATION_MODE_ENABLED
    | EVIDENCE_CONSISTENT
    | ACTION_MATCHES_POLICY
    | ACTION_KNOWN
    | ACTION_NOT_DISABLED
    | TARGET_VALID
    | NOT_ALREADY_ACTIVE
    | REVERSIBLE_IF_UNCERTAIN

  predicate Passes(p: Policy, req: Request, a: Action, f: Fields, c: Check) {
    match c
    case SIMULATION_MODE_ENABLED => p.simulationMode
    case EVIDENCE_CONSISTENT => req.detectionId == req.hybridId == req.riskId
    case ACTION_MATCHES_POLICY => SelectAction(p, req.level, req.status) == Some(a)
    case ACTION_KNOWN => IsKnown(a)
    case ACTION_NOT_DISABLED => a !in p.disabled
    case TARGET_VALID => req.Target() != ""
    case NOT_ALREADY_ACTIVE => !IsActive(a, f)
    case REVERSIBLE_IF_UNCERTAIN => req.status == Uncertain && p.uncertainRequiresReversible ==> IsReversible(a)
  }

  // The order in which they are made.
  function RankOf(c: Check): nat {
    match c
    case SIMULATION_MODE_ENABLED => 0
    case EVIDENCE_CONSISTENT => 1
    case ACTION_MATCHES_POLICY => 2
    case ACTION_KNOWN => 3
    case ACTION_NOT_DISABLED => 4
    case TARGET_VALID => 5
    case NOT_ALREADY_ACTIVE => 6
    case REVERSIBLE_IF_UNCERTAIN => 7
  }

  predicate IsAllowed(p: Policy, req: Request, a: Action, f: Fields) {
    forall c :: Passes(p, req, a, f, c)
  }

  // The check at which validation stops.
  predicate FailsAt(p: Policy, req: Request, a: Action, f: Fields, c: Check) {
    !Passes(p, req, a, f, c) && forall d :: RankOf(d) < RankOf(c) ==> Passes(p, req, a, f, d)
  }

  datatype Validation = Validation(allowed: bool, checks: map<Check, bool>)

  // The recorded checks are true of the request, and the one that is false is the first to fail.
  ghost predicate IsVerdict(v: Validation, p: Policy, req: Request, a: Action, f: Fields) {
    && (v.allowed <==> IsAllowed(p, req, a, f))
    && (forall c :: c in v.checks ==> v.checks[c] == Passes(p, req, a, f, c))
    && (forall c :: FailsAt(p, req, a, f, c) <==> c in v.checks && !v.checks[c])
  }

  // The first n checks were made and passed.
  predicate PassedFirst(checks: map<Check, bool>, p: Policy, req: Request, a: Action, f: Fields, n: nat) {
    forall c :: (c in checks <==> RankOf(c) < n) && (c in checks ==> checks[c] && Passes(p, req, a, f, c))
  }

  lemma Made(checks: map<Check, bool>, p: Policy, req: Request, a: Action, f: Fields, c: Check)
    requires PassedFirst(checks, p, req, a, f, RankOf(c))
    ensures Passes(p, req, a, f, c) ==> PassedFirst(checks[c := true], p, req, a, f, RankOf(c) + 1)
    ensures !Passes(p, req, a, f, c) ==> IsVerdict(Validation(false, checks[c := false]), p, req, a, f)
  {
    hide Passes, PassedFirst, IsVerdict, RankOf;
    if Passes(p, req, a, f, c) {
      OnePassed(checks, p, req, a, f, c);
    } else {
      OneFailed(checks, p, req, a, f, c);
    }
  }

  lemma OnePassed(checks: map<Check, bool>, p: Policy, req: Request, a: Action, f: Fields, c: Check)
    requires PassedFirst(checks, p, req, a, f, RankOf(c)) && Passes(p, req, a, f, c)
    ensures PassedFirst(checks[c := true], p, req, a, f, RankOf(c) + 1)
  {
  }

  lemma OneFailed(checks: map<Check, bool>, p: Policy, req: Request, a: Action, f: Fields, c: Check)
    requires PassedFirst(checks, p, req, a, f, RankOf(c)) && !Passes(p, req, a, f, c)
    ensures IsVerdict(Validation(false, checks[c := false]), p, req, a, f)
  {
    hide Passes, RankOf;
    FirstFailure(checks, p, req, a, f, c);
  }

  lemma FirstFailure(checks: map<Check, bool>, p: Policy, req: Request, a: Action, f: Fields, c: Check)
    requires PassedFirst(checks, p, req, a, f, RankOf(c)) && !Passes(p, req, a, f, c)
    ensures forall d :: FailsAt(p, req, a, f, d) <==> d == c
  {
  }

  // The checks that look at the policy and the evidence only.
  method CheckRequest(p: Policy, a: Action, req: Request, ghost f: Fields)
    returns (raised: bool, passed: bool, checks: map<Check, bool>)
    ensures raised <==> p.simulationMode && req.detectionId == req.hybridId == req.riskId && SelectAction(p, req.level, req.status).None?
    ensures !raised && passed ==> PassedFirst(checks, p, req, a, f, RankOf(NOT_ALREADY_ACTIVE))
    ensures !raised && !passed ==> IsVerdict(Validation(false, checks), p, req, a, f)
  {
    assert PassedFirst(map[], p, req, a, f, 0);
    hide PassedFirst, IsVerdict;
    raised, passed := false, false;
    Made(map[], p, req, a, f, SIMULATION_MODE_ENABLED);
    checks := map[][SIMULATION_MODE_ENABLED := p.simulationMode];
    if !p.simulationMode { return; }
    OneId(req);
    Made(checks, p, req, a, f, EVIDENCE_CONSISTENT);
    checks := checks[EVIDENCE_CONSISTENT := |{req.detectionId, req.hybridId, req.riskId}| == 1];
    if !checks[EVIDENCE_CONSISTENT] { return; }
    var expected := SelectAction(p, req.level, req.status);
    if expected.None? { return true, false, checks; }
    Made(checks, p, req, a, f, ACTION_MATCHES_POLICY);
    checks := checks[ACTION_MATCHES_POLICY := expected == Some(a)];
    if !checks[ACTION_MATCHES_POLICY] { return; }
    Made(checks, p, req, a, f, ACTION_KNOWN);
    checks := checks[ACTION_KNOWN := IsKnown(a)];
    if !checks[ACTION_KNOWN] { return; }
    Made(checks, p, req, a, f, ACTION_NOT_DISABLED);
    checks := checks[ACTION_NOT_DISABLED := a !in p.disabled];
    if !checks[ACTION_NOT_DISABLED] { return; }
    Made(checks, p, req, a, f, TARGET_VALID);
    checks := checks[TARGET_VALID := req.Target() != ""];
    passed := checks[TARGET_VALID];
  }

  // The checks in order, up to and including the first that fails; None where the call raises.
  method Validate(p: Policy, state: SimulatedNetworkState, a: Action, req: Request) returns (r: Option<Validation>)
    requires state.Valid()
    ensures r.None? <==> p.simulationMode && req.detectionId == req.hybridId == req.riskId && SelectAction(p, req.level, req.status).None?
    ensures r.Some? ==> IsVerdict(r.value, p, req, a, state.At(req.Target()))
  {
    ghost var f := state.At(req.Target());
    hide PassedFirst, IsVerdict;
    var raised, passed, checks := CheckRequest(p, a, req, f);
    if raised { return None; }
    if !passed { return Some(Validation(false, checks)); }
    var active := AlreadyActive(a, state, req.Target());
    Made(checks, p, req, a, f, NOT_ALREADY_ACTIVE);
    checks := checks[NOT_ALREADY_ACTIVE := !active];
    if active { return Some(Validation(false, checks)); }
    Made(checks, p, req, a, f, REVERSIBLE_IF_UNCERTAIN);
    if req.status == Uncertain && p.uncertainRequiresReversible {
      checks := checks[REVERSIBLE_IF_UNCERTAIN := IsReversible(a)];
      if !IsReversible(a) { return Some(Validation(false, checks)); }
    } else {
      checks := checks[REVERSIBLE_IF_UNCERTAIN := true];
    }
    AllMade(checks, p, req, a, f);
    r := Some(Validation(true, checks));
  }

  lemma AllMade(checks: map<Check, bool>, p: Policy, req: Request, a: Action, f: Fields)
    requires PassedFirst(checks, p, req, a, f, 8)
    ensures IsVerdict(Validation(true, checks), p, req, a, f)
  {
  }

  lemma OneId(req: Request)
    ensures |{req.detectionId, req.hybridId, req.riskId}| == 1 <==> req.detectionId == req.hybridId == req.riskId
  {
  }

  method AlreadyActive(a: Action, state: SimulatedNetworkState, target: string) returns (active: bool)
    requires state.Valid()
    ensures active == IsActive(a, state.At(target))
  {
    if target !in state.sources { return false; }
    var s := state.sources[target];
    match a
    case RATE_LIMIT => active := s.rateLimited;
    case ISOLATE => active := s.isolated;
    case BLOCK => active := s.blocked;
    case INCREASE_MONITORING => active := s.level == INCREASED;
    case TERMINATE => active := s.terminated;
    case _ => active := false;
  }

  // ---- Recovery ---------------------------------------------------------------------------------

  datatype Recovery = Recovery(
    retryCount: nat,
    selfHealed: bool,
    rollbackAttempted: bool,
    rollbackSucceeded: Option<bool>,
    status: RecoveryStatus)

  function Retries(maxRetries: int): nat {
    if maxRetries > 0 then maxRetries else 0
  }

  // One retry: the action again, and an independent look at what became of it.
  method Retry(executor: SimulatedDefenseExecutor, a: Action, target: string, ghost f: Fields, ghost met: seq<bool>)
    returns (verified: bool, ghost faulty: bool)
    requires executor.state.Valid() && IsKnown(a) && target in executor.state.sources
    requires Attempts(a, f, met) == Tried(executor.state.At(target), false, |met|)
    modifies executor.state, executor.state.sources.Values
    ensures executor.state.Valid() && target in executor.state.sources
    ensures executor.state.schedule == Tick(old(executor.state.schedule)) && faulty == (target in executor.state.schedule.faulty)
    ensures Attempts(a, f, met + [faulty]) == Tried(executor.state.At(target), verified, |met| + 1)
    ensures executor.state.Others(target) == old(executor.state.Others(target))
    ensures fresh(executor.state.sources.Values - old(executor.state.sources.Values))
  {
    var execution := executor.Execute(a, target);
    faulty := !execution.value.succeeded;
    OneMoreAttempt(a, f, met, faulty);
    var check := Verify(executor.state, a, target);
    verified := check.value;
  }

  // Up to the configured number of retries, until one verifies.
  method RetryAll(executor: SimulatedDefenseExecutor, a: Action, target: string, maxRetries: int)
    returns (r: Recovery)
    requires executor.state.Valid() && IsKnown(a) && target in executor.state.sources
    modifies executor.state, executor.state.sources.Values
    ensures executor.state.Valid() && target in executor.state.sources
    ensures var t := Attempts(a, old(executor.state.At(target)), FaultsAhead(old(executor.state.schedule), target, Retries(maxRetries)));
      && r == Recovery(t.attempts, t.reached, false, None, if t.reached then RecoverySuccess else NOT_ATTEMPTED)
      && executor.state.At(target) == t.final
    ensures r.retryCount == 0 || r.retryCount <= maxRetries
    ensures !r.selfHealed && maxRetries >= 0 ==> r.retryCount == maxRetries
    ensures executor.state.Others(target) == old(executor.state.Others(target))
    ensures fresh(executor.state.sources.Values - old(executor.state.sources.Values))
  {
    hide Attempts, FaultsAhead, SimulatedNetworkState.Others, SimulatedNetworkState.At, SimulatedNetworkState.Valid;
    var state := executor.state;
    ghost var f, faults, others := state.At(target), FaultsAhead(state.schedule, target, Retries(maxRetries)), state.Others(target);
    ghost var met: seq<bool> := [];
    NoAttempts(a, f);
    r := Recovery(0, false, false, None, NOT_ATTEMPTED);
    var attempt := 1;
    while attempt <= maxRetries
      invariant 1 <= attempt <= Retries(maxRetries) + 1 && |met| == attempt - 1
      invariant state.Valid() && target in state.sources
      invariant met + FaultsAhead(state.schedule, target, Retries(maxRetries) - (attempt - 1)) == faults
      invariant Attempts(a, f, met) == Tried(state.At(target), false, attempt - 1)
      invariant r == Recovery(attempt - 1, false, false, None, NOT_ATTEMPTED)
      invariant state.Others(target) == others
      invariant fresh(state.sources.Values - old(state.sources.Values))
    {
      r := r.(retryCount := attempt);
      ghost var rest := FaultsAhead(Tick(state.schedule), target, Retries(maxRetries) - attempt);
      var verified;
      ghost var faulty;
      FaultsStep(state.schedule, target, Retries(maxRetries) - attempt);
      verified, faulty := Retry(executor, a, target, f, met);
      Regroup(met, faulty, rest);
      met := met + [faulty];
      if verified {
        RestIsIgnored(a, f, met, rest);
        return r.(selfHealed := true, status := RecoverySuccess);
      }
      attempt := attempt + 1;
    }
    FaultsStep(state.schedule, target, 0);
    assert met + [] == met;
  }

  lemma Regroup(a: seq<bool>, b: bool, c: seq<bool>)
    ensures a + [b] + c == a + ([b] + c)
  {
  }

  // The retries and, if none of them verified, the rollback.  The snapshot is the copy taken
  // before the first attempt, not an object of the network.
  method AttemptRecovery(executor: SimulatedDefenseExecutor, a: Action, target: string, snapshot: SourceState,
                         maxRetries: int, rollbackOnFailure: bool, reversible: bool)
    returns (r: Recovery)
    requires executor.state.Valid() && IsKnown(a) && target in executor.state.sources
    requires snapshot !in executor.state.sources.Values
    modifies executor.state, executor.state.sources.Values
    ensures executor.state.Valid() && target in executor.state.sources
    ensures var t := Attempts(a, old(executor.state.At(target)), FaultsAhead(old(executor.state.schedule), target, Retries(maxRetries)));
      var rolls := !t.reached && rollbackOnFailure && reversible;
      && r == Recovery(t.attempts, t.reached, rolls, if rolls then Some(true) else None, if t.reached then RecoverySuccess else RecoveryFailure)
      && executor.state.At(target) == if rolls then old(snapshot.View()) else t.final
    ensures executor.state.Others(target) == old(executor.state.Others(target))
    ensures fresh(executor.state.sources.Values - old(executor.state.sources.Values))
  {
    hide Attempts, FaultsAhead, SimulatedNetworkState.Others;
    r := RetryAll(executor, a, target, maxRetries);
    if r.selfHealed { return; }
    if rollbackOnFailure && reversible {
      r := r.(rollbackAttempted := true);
      var execution := executor.Rollback(target, snapshot);
      var matches := VerifyRollback(executor.state, target, snapshot);
      r := r.(rollbackSucceeded := Some(matches));
    }
    r := r.(status := RecoveryFailure);
  }

  // ---- The engine -----------------------------------------------------------------------------------

  datatype DefenseResult = DefenseResult(
    action: Action,
    status: ActionStatus,
    recovery: RecoveryStatus,
    healthy: bool,
    rollbackAvailable: bool)

  // What one call answers, what it leaves of the target, and whether it rolled back.
  datatype Effect = Effect(result: DefenseResult, after: Fields, rolledBack: bool)

  function Respond(p: Policy, req: Request, a: Action, f: Fields, faults: seq<bool>): Effect {
    if !IsAllowed(p, req, a, f) then
      Effect(DefenseResult(a, REJECTED, NOT_ATTEMPTED, FailsAt(p, req, a, f, NOT_ALREADY_ACTIVE), false), f, false)
    else
      var t, after := Attempts(a, f, faults), Settled(a, f, faults, p.rollbackOnFailure);
      if t.reached then
        Effect(DefenseResult(a, EXECUTED, if t.attempts == 1 then NOT_ATTEMPTED else RecoverySuccess, true, IsReversible(a)), after, false)
      else
        Effect(DefenseResult(a, FAILED, RecoveryFailure, false, IsReversible(a)), after, p.rollbackOnFailure && IsReversible(a))
  }

  // Theorem: what each part of the answer means, for an action not turned down: where the first
  // attempt that can succeed comes among the attempts permitted.
  lemma AnswerMeans(p: Policy, req: Request, a: Action, f: Fields, faults: seq<bool>)
    ensures var e, k, allowed := Respond(p, req, a, f, faults), FirstAchieving(a, f, faults), IsAllowed(p, req, a, f);
      && e.result.action == a
      && (e.result.status == REJECTED <==> !allowed)
      && (e.result.status == EXECUTED <==> allowed && k < |faults|)
      && (e.result.recovery == NOT_ATTEMPTED <==> !allowed || (k == 0 && faults != []))
      && (e.result.recovery == RecoverySuccess <==> allowed && 0 < k < |faults|)
      && (e.result.healthy <==> e.result.status == EXECUTED || (!allowed && FailsAt(p, req, a, f, NOT_ALREADY_ACTIVE)))
      && (e.result.rollbackAvailable <==> allowed && a != TERMINATE)
      && (e.rolledBack <==> e.result.status == FAILED && p.rollbackOnFailure && a != TERMINATE)
  {
    hide IsAllowed, FailsAt, Attempts, Settled, FirstAchieving;
    if IsAllowed(p, req, a, f) {
      AllowedIsKnown(p, req, a, f);
      AttemptsOutcome(a, f, faults);
    }
  }

  // A call changes only what its action may touch.
  lemma AnswerTouchesOnly(p: Policy, req: Request, a: Action, f: Fields, faults: seq<bool>)
    ensures TouchesOnly(a, f, Respond(p, req, a, f, faults).after)
  {
    hide IsAllowed, FailsAt, Attempts, Settled, TouchesOnly;
    SettledTouchesOnly(a, f, faults, p.rollbackOnFailure);
    TouchesNothing(a, f);
  }

  lemma AllowedIsKnown(p: Policy, req: Request, a: Action, f: Fields)
    requires IsAllowed(p, req, a, f)
    ensures IsKnown(a) && !IsActive(a, f)
  {
    assert Passes(p, req, a, f, ACTION_KNOWN) && Passes(p, req, a, f, NOT_ALREADY_ACTIVE);
  }

  function EntryOf(e: Effect): Entry {
    var recovered := e.result.recovery != NOT_ATTEMPTED;
    Entry(e.result.action, e.result.status, e.result.healthy, recovered, recovered, e.result.recovery, e.rolledBack)
  }

  lemma EffectIsEngineEntry(p: Policy, req: Request, a: Action, f: Fields, faults: seq<bool>)
    ensures IsEngineEntry(EntryOf(Respond(p, req, a, f, faults)))
  {
  }

  class DefenseEngine {
    const policy: Policy
    const state: SimulatedNetworkState
    const executor: SimulatedDefenseExecutor
    const metrics: Metrics

    ghost predicate Valid()
      reads state
    {
      state.Valid() && executor.state == state
    }

    constructor (policy: Policy, state: SimulatedNetworkState)
      requires state.Valid()
      ensures Valid() && this.policy == policy && this.state == state && fresh(metrics) && metrics.tally == Tallied([])
    {
      this.policy, this.state := policy, state;
      executor := new SimulatedDefenseExecutor(state);
      metrics := new Metrics();
    }

    // The faults the attempts of the next call will meet, if it gets to make them.
    ghost function Faults(target: string): seq<bool>
      reads state
    {
      FaultsAhead(state.schedule, target, 1 + Retries(policy.maxRetries))
    }

    // One call; None where the call raises.
    method Process(req: Request) returns (r: Option<DefenseResult>, ghost e: Effect)
      requires Valid()
      modifies metrics, state, state.sources.Values
      ensures Valid() && state.Others(req.Target()) == old(state.Others(req.Target()))
      ensures fresh(state.sources.Values - old(state.sources.Values))
      ensures r.None? <==> SelectAction(policy, req.level, req.status).None?
      ensures r.None? ==> metrics.tally == old(metrics.tally) && state.Whole() == old(state.Whole())
      ensures r.Some? ==> e == Respond(policy, req, SelectAction(policy, req.level, req.status).value, old(state.At(req.Target())), old(Faults(req.Target())))
      ensures r.Some? ==> r.value == e.result && state.At(req.Target()) == e.after
      ensures r.Some? ==> TouchesOnly(r.value.action, old(state.At(req.Target())), state.At(req.Target()))
      ensures r.Some? ==> metrics.tally == Plus(old(metrics.tally), EntryOf(e))
      ensures r.Some? && r.value.status == REJECTED ==> state.Whole() == old(state.Whole())
    {
      hide Respond, FaultsAhead, EntryOf, Plus, TouchesOnly, IsAllowed, FailsAt, FirstAchieving;
      hide SimulatedNetworkState.Others, SimulatedNetworkState.At, SimulatedNetworkState.Valid, SimulatedNetworkState.Whole;
      var selected := SelectAction(policy, req.level, req.status);
      e := Respond(policy, req, if selected.Some? then selected.value else MONITOR, state.At(req.Target()), Faults(req.Target()));
      if selected.None? { return None, e; }
      AnswerMeans(policy, req, selected.value, state.At(req.Target()), Faults(req.Target()));
      AnswerTouchesOnly(policy, req, selected.value, state.At(req.Target()), Faults(req.Target()));
      var answer := Decide(selected.value, req, e);
      r := Some(answer);
    }

    // The selected action, validated and, if it may run, carried out.
    method Decide(a: Action, req: Request, ghost e: Effect) returns (r: DefenseResult)
      requires Valid() && SelectAction(policy, req.level, req.status) == Some(a)
      requires e == Respond(policy, req, a, state.At(req.Target()), Faults(req.Target()))
      modifies metrics, state, state.sources.Values
      ensures Valid() && state.Others(req.Target()) == old(state.Others(req.Target()))
      ensures fresh(state.sources.Values - old(state.sources.Values))
      ensures r == e.result && state.At(req.Target()) == e.after
      ensures metrics.tally == Plus(old(metrics.tally), EntryOf(e))
      ensures r.status == REJECTED ==> state.Whole() == old(state.Whole())
    {
      hide Attempts, Settled, Passes, IsAllowed, FailsAt, FaultsAhead, SelectAction, EntryOf, Plus;
      hide SimulatedNetworkState.Others, SimulatedNetworkState.At, SimulatedNetworkState.Valid, SimulatedNetworkState.Whole;
      var validation := Validate(policy, state, a, req);
      if !validation.value.allowed {
        r := FinalizeRejected(a, validation.value, e);
        return;
      }
      r := CarryOut(a, req, e);
    }

    method CarryOut(a: Action, req: Request, ghost e: Effect) returns (r: DefenseResult)
      requires Valid() && IsAllowed(policy, req, a, state.At(req.Target()))
      requires e == Respond(policy, req, a, state.At(req.Target()), Faults(req.Target()))
      modifies metrics, state, state.sources.Values
      ensures Valid() && state.Others(req.Target()) == old(state.Others(req.Target()))
      ensures fresh(state.sources.Values - old(state.sources.Values))
      ensures r == e.result && state.At(req.Target()) == e.after && r.status != REJECTED
      ensures metrics.tally == Plus(old(metrics.tally), EntryOf(e))
    {
      AllowedIsKnown(policy, req, a, state.At(req.Target()));
      hide Attempts, Settled, Passes, IsAllowed, FailsAt, FaultsAhead, SelectAction, EntryOf, Plus;
      hide SimulatedNetworkState.Others, SimulatedNetworkState.At, SimulatedNetworkState.Valid;
      var verified, recovery := Remediate(a, req.Target());
      r := FinalizeExecuted(a, verified, recovery, e);
    }

    method FinalizeRejected(a: Action, v: Validation, ghost e: Effect) returns (r: DefenseResult)
      requires e.result.action == a && e.result.status == REJECTED && e.result.recovery == NOT_ATTEMPTED && !e.result.rollbackAvailable && !e.rolledBack
      requires e.result.healthy <==> NOT_ALREADY_ACTIVE in v.checks && !v.checks[NOT_ALREADY_ACTIVE]
      modifies metrics
      ensures r == e.result && metrics.tally == Plus(old(metrics.tally), EntryOf(e))
    {
      var healthy := NOT_ALREADY_ACTIVE in v.checks && v.checks[NOT_ALREADY_ACTIVE] == false;
      r := DefenseResult(a, REJECTED, NOT_ATTEMPTED, healthy, false);
      metrics.Record(Entry(a, REJECTED, healthy, false, false, NOT_ATTEMPTED, false));
    }

    // Execute, verify, and recover if verification failed.
    method Remediate(a: Action, target: string) returns (verified: bool, recovery: Option<Recovery>)
      requires Valid() && IsKnown(a)
      modifies state, state.sources.Values
      ensures Valid() && state.Others(target) == old(state.Others(target))
      ensures fresh(state.sources.Values - old(state.sources.Values))
      ensures state.At(target) == Settled(a, old(state.At(target)), old(Faults(target)), policy.rollbackOnFailure)
      ensures var t := Attempts(a, old(state.At(target)), old(Faults(target)));
        && (verified <==> t.reached && t.attempts == 1) && (recovery.None? <==> verified)
        && (recovery.Some? ==>
              && recovery.value.selfHealed == t.reached
              && recovery.value.status == (if t.reached then RecoverySuccess else RecoveryFailure)
              && recovery.value.rollbackAttempted == (!t.reached && policy.rollbackOnFailure && IsReversible(a)))
    {
      hide Attempts, IsReached, Apply, FaultsAhead, SimulatedNetworkState.Others, SimulatedNetworkState.At, SimulatedNetworkState.Valid;
      ghost var f := state.At(target);
      FaultsStep(state.schedule, target, Retries(policy.maxRetries));
      FirstAttempt(a, f, target in Tick(state.schedule).faulty, FaultsAhead(Tick(state.schedule), target, Retries(policy.maxRetries)));
      var execution := executor.Execute(a, target);
      var check := Verify(state, a, target);
      verified := check.value;
      recovery := None;
      if !verified {
        var rec := AttemptRecovery(executor, a, target, execution.value.before, policy.maxRetries, policy.rollbackOnFailure, IsReversible(a));
        recovery := Some(rec);
      }
    }

    method FinalizeExecuted(a: Action, verified: bool, recovery: Option<Recovery>, ghost e: Effect) returns (r: DefenseResult)
      requires verified <==> recovery.None?
      requires recovery.Some? ==> recovery.value.status == (if recovery.value.selfHealed then RecoverySuccess else RecoveryFailure)
      requires e.rolledBack == (recovery.Some? && recovery.value.rollbackAttempted)
      requires var ok := verified || recovery.value.selfHealed;
        e.result == DefenseResult(a, if ok then EXECUTED else FAILED, if verified then NOT_ATTEMPTED else recovery.value.status, ok, IsReversible(a))
      modifies metrics
      ensures r == e.result && metrics.tally == Plus(old(metrics.tally), EntryOf(e))
    {
      var status, healthy, recoveryStatus := FAILED, false, RecoveryFailure;
      if verified {
        status, healthy, recoveryStatus := EXECUTED, true, NOT_ATTEMPTED;
      } else if recovery.Some? && recovery.value.selfHealed {
        status, healthy, recoveryStatus := EXECUTED, true, RecoverySuccess;
      }
      r := DefenseResult(a, status, recoveryStatus, healthy, IsReversible(a));
      metrics.Record(Entry(a, status, healthy, !verified, recovery.Some?,
                           if recovery.Some? then recovery.value.status else NOT_ATTEMPTED,
                           recovery.Some? && recovery.value.rollbackAttempted));
    }
  }

  // ---- The defense worker ------------------------------------------------------------------------

  // The worker tells a rollback from the difference of a counter before and after its call.
  method HandleRisk(engine: DefenseEngine, req: Request) returns (r: Option<(DefenseResult, bool)>, ghost e: Effect)
    requires engine.Valid()
    modifies engine.metrics, engine.state, engine.state.sources.Values
    ensures engine.Valid()
    ensures r.None? <==> SelectAction(engine.policy, req.level, req.status).None?
    ensures r.Some? ==> e == Respond(engine.policy, req, SelectAction(engine.policy, req.level, req.status).value,
                                     old(engine.state.At(req.Target())), old(engine.Faults(req.Target())))
    ensures r.Some? ==> r.value == (e.result, e.rolledBack)
  {
    var before := engine.metrics.tally.rollbacks;
    var result;
    result, e := engine.Process(req);
    if result.None? { return None, e; }
    r := Some((result.value, engine.metrics.tally.rollbacks > before));
  }
}
