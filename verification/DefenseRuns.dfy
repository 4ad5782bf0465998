/** Any sequence of defense calls on any targets under any policies and faults: what no call takes
    back, what happens at most once, and when a call is bound to succeed. */
module DefenseRuns {
  import opened Assessments
  import opened Wrappers
  import opened DefenseActions
  import opened SimulatedNetwork
  import opened DefenseMetrics
  import opened DefenseEngines

  type World = map<string, Fields>

  function In(w: World, t: string): Fields {
    if t in w then w[t] else Default(t)
  }

  datatype Call = Call(policy: Policy, req: Request, action: Action, faults: seq<bool>, effect: Effect) {
    function Target(): string { req.Target() }
  }

  predicate SameIn(w: World, w': World, t: string) {
    In(w', t) == In(w, t)
  }

  ghost predicate IsCall(w: World, c: Call, w': World) {
    && SelectAction(c.policy, c.req.level, c.req.status) == Some(c.action)
    && |c.faults| == 1 + Retries(c.policy.maxRetries)
    && c.effect == Respond(c.policy, c.req, c.action, In(w, c.Target()), c.faults)
    && In(w', c.Target()) == c.effect.after
    && forall t :: t != c.Target() ==> SameIn(w, w', t)
  }

  ghost predicate IsRun(ws: seq<World>, cs: seq<Call>) {
    |ws| == |cs| + 1 && forall i :: 0 <= i < |cs| ==> IsCall(ws[i], cs[i], ws[i + 1])
  }

  lemma RunNothing(w: World)
    ensures IsRun([w], [])
  {
  }

  lemma RunPlus(ws: seq<World>, cs: seq<Call>, c: Call, w: World)
    requires IsRun(ws, cs) && IsCall(ws[|cs|], c, w)
    ensures IsRun(ws + [w], cs + [c])
  {
  }

  // The engine over its heap produces such runs: one call per request that maps to an action.
  method Session(engine: DefenseEngine, reqs: seq<Request>)
    returns (results: seq<Option<DefenseResult>>, ghost ws: seq<World>, ghost cs: seq<Call>)
    requires engine.Valid()
    modifies engine.metrics, engine.state, engine.state.sources.Values
    ensures engine.Valid() && |results| == |reqs|
    ensures IsRun(ws, cs) && |ws| == |cs| + 1 && ws[0] == old(engine.state.Whole().1) && ws[|cs|] == engine.state.Whole().1
    ensures forall i :: 0 <= i < |reqs| ==> (results[i].None? <==> SelectAction(engine.policy, reqs[i].level, reqs[i].status).None?)
    ensures old(engine.metrics.tally) == Tallied([]) ==> engine.metrics.tally == Tallied(EntriesOf(cs))
  {
    hide Respond, FaultsAhead, EntryOf, Plus, IsRun, SimulatedNetworkState.Whole, Tallied, SelectAction;
    RunNothing(engine.state.Whole().1);
    results, ws, cs := [], [engine.state.Whole().1], [];
    for i := 0 to |reqs|
      invariant engine.Valid() && |results| == i
      invariant IsRun(ws, cs) && |ws| == |cs| + 1 && ws[0] == old(engine.state.Whole().1) && ws[|cs|] == engine.state.Whole().1
      invariant forall k :: 0 <= k < i ==> (results[k].None? <==> SelectAction(engine.policy, reqs[k].level, reqs[k].status).None?)
      invariant old(engine.metrics.tally) == Tallied([]) ==> engine.metrics.tally == Tallied(EntriesOf(cs))
      invariant fresh(engine.state.sources.Values - old(engine.state.sources.Values))
    {
      var r;
      ghost var c;
      r, c := OneCall(engine, reqs[i]);
      results := results + [r];
      if r.Some? {
        EntriesPlus(cs, c);
        RunPlus(ws, cs, c, engine.state.Whole().1);
        ws, cs := ws + [engine.state.Whole().1], cs + [c];
      }
    }
  }

  method OneCall(engine: DefenseEngine, req: Request) returns (r: Option<DefenseResult>, ghost c: Call)
    requires engine.Valid()
    modifies engine.metrics, engine.state, engine.state.sources.Values
    ensures engine.Valid() && fresh(engine.state.sources.Values - old(engine.state.sources.Values))
    ensures r.None? <==> SelectAction(engine.policy, req.level, req.status).None?
    ensures r.None? ==> engine.metrics.tally == old(engine.metrics.tally) && engine.state.Whole() == old(engine.state.Whole())
    ensures r.Some? ==> IsCall(old(engine.state.Whole().1), c, engine.state.Whole().1) && r.value == c.effect.result
    ensures r.Some? ==> engine.metrics.tally == Plus(old(engine.metrics.tally), EntryOf(c.effect))
  {
    hide Respond, EntryOf, Plus;
    ghost var faults, others, selected := engine.Faults(req.Target()), engine.state.Others(req.Target()), SelectAction(engine.policy, req.level, req.status);
    ghost var w := engine.state.Whole().1;
    ghost var e;
    r, e := engine.Process(req);
    c := Call(engine.policy, req, if selected.Some? then selected.value else MONITOR, faults, e);
    forall t | t != req.Target() ensures SameIn(w, engine.state.Whole().1, t) {
      assert t in others <==> t in w;
      assert t in engine.state.Others(req.Target()) <==> t in engine.state.Whole().1;
      assert t in w ==> others[t].1 == w[t];
    }
  }

  function EntriesOf(cs: seq<Call>): (r: seq<Entry>)
    ensures |r| == |cs|
    ensures forall i :: 0 <= i < |cs| ==> r[i] == EntryOf(cs[i].effect)
  {
    if cs == [] then [] else EntriesOf(cs[..|cs| - 1]) + [EntryOf(cs[|cs| - 1].effect)]
  }

  lemma EntriesPlus(cs: seq<Call>, c: Call)
    ensures Tallied(EntriesOf(cs + [c])) == Plus(Tallied(EntriesOf(cs)), EntryOf(c.effect))
  {
  }

  lemma CallIsEngineEntry(w: World, c: Call, w': World)
    requires IsCall(w, c, w')
    ensures IsEngineEntry(EntryOf(c.effect))
  {
    EffectIsEngineEntry(c.policy, c.req, c.action, In(w, c.Target()), c.faults);
  }

  // The counters, and the calls each is named after.
  datatype Counter = SELECTED(a: Action) | EXECUTIONS | REJECTIONS | SUCCESSES | FAILURES | FAILED_CHECKS | HEALINGS | FAILED_RECOVERIES | ROLLBACKS

  function Reading(t: Tally, k: Counter): nat {
    match k
    case SELECTED(a) => Selected(t, a)
    case EXECUTIONS => t.executed
    case REJECTIONS => t.rejected
    case SUCCESSES => t.successful
    case FAILURES => t.failed
    case FAILED_CHECKS => t.verificationFailures
    case HEALINGS => t.successfulRecoveries
    case FAILED_RECOVERIES => t.failedRecoveries
    case ROLLBACKS => t.rollbacks
  }

  predicate Concerns(k: Counter, c: Call) {
    var r := c.effect.result;
    match k
    case SELECTED(a) => c.action == a
    case EXECUTIONS => r.status == EXECUTED || r.status == FAILED
    case REJECTIONS => r.status == REJECTED
    case SUCCESSES => r.status == EXECUTED
    case FAILURES => r.status == FAILED
    case FAILED_CHECKS => r.recovery != NOT_ATTEMPTED
    case HEALINGS => r.recovery == RecoverySuccess
    case FAILED_RECOVERIES => r.recovery == RecoveryFailure
    case ROLLBACKS => c.effect.rolledBack
  }

  function CallsOf(cs: seq<Call>, k: Counter): nat {
    if cs == [] then 0 else CallsOf(cs[..|cs| - 1], k) + One(Concerns(k, cs[|cs| - 1]))
  }

  // What one call of a run adds to each counter.
  lemma CallCounts(w: World, c: Call, w': World, t: Tally, k: Counter)
    requires IsCall(w, c, w')
    ensures var t' := Plus(t, EntryOf(c.effect));
      t'.total == t.total + 1 && Reading(t', k) == Reading(t, k) + One(Concerns(k, c))
  {
    hide Respond, IsAllowed, FailsAt, FirstAchieving, SelectAction;
    AnswerMeans(c.policy, c.req, c.action, In(w, c.Target()), c.faults);
  }

  // Theorem: after any run the counters balance, and each has counted the calls it is named after.
  lemma RunCounts(ws: seq<World>, cs: seq<Call>, k: Counter)
    requires IsRun(ws, cs)
    ensures var t := Tallied(EntriesOf(cs));
      IsBalanced(t) && t.total == |cs| && Reading(t, k) == CallsOf(cs, k)
  {
    hide IsRun, IsBalanced, Reading;
    BalancedAfter(ws, cs);
    CountedAfter(ws, cs, k);
  }

  lemma {:induction false} CountedAfter(ws: seq<World>, cs: seq<Call>, k: Counter)
    requires IsRun(ws, cs)
    ensures Tallied(EntriesOf(cs)).total == |cs| && Reading(Tallied(EntriesOf(cs)), k) == CallsOf(cs, k)
    decreases |cs|
  {
    hide IsRun, Concerns, EntryOf, Plus, Reading, Tallied, EntriesOf, CallsOf;
    if cs == [] {
      NothingCounted(k);
    } else {
      var front, last := cs[..|cs| - 1], cs[|cs| - 1];
      RunBefore(ws, cs);
      CountedAfter(ws[..|cs|], front, k);
      CallCounts(ws[|cs| - 1], last, ws[|cs|], Tallied(EntriesOf(front)), k);
      EntriesPlus(front, last);
      CallsOfPlus(front, last, k);
      assert cs == front + [last];
    }
  }

  lemma NothingCounted(k: Counter)
    ensures Tallied(EntriesOf([])).total == 0 == Reading(Tallied(EntriesOf([])), k) == CallsOf([], k)
  {
  }

  lemma CallsOfPlus(cs: seq<Call>, c: Call, k: Counter)
    ensures CallsOf(cs + [c], k) == CallsOf(cs, k) + One(Concerns(k, c))
  {
    hide Concerns;
  }

  lemma RunBefore(ws: seq<World>, cs: seq<Call>)
    requires IsRun(ws, cs) && cs != []
    ensures |ws| == |cs| + 1 && IsRun(ws[..|cs|], cs[..|cs| - 1]) && IsCall(ws[|cs| - 1], cs[|cs| - 1], ws[|cs|])
  {
    hide IsCall;
  }

  lemma BalancedAfter(ws: seq<World>, cs: seq<Call>)
    requires IsRun(ws, cs)
    ensures IsBalanced(Tallied(EntriesOf(cs)))
  {
    hide IsCall, EntryOf, IsEngineEntry, IsBalanced, Tallied;
    forall e | e in EntriesOf(cs) ensures IsEngineEntry(e) {
      var i :| 0 <= i < |cs| && e == EntriesOf(cs)[i];
      CallIsEngineEntry(ws[i], cs[i], ws[i + 1]);
    }
    CountersConserved(EntriesOf(cs));
  }

  // ---- All or nothing --------------------------------------------------------------------------

  // Theorem: with rollback on, a call ends with the intended state verified, and then it is what a
  // clean first success leaves, or with the target exactly as it was; no other target changes.
  lemma CallIsAllOrNothing(ws: seq<World>, cs: seq<Call>, i: nat, t: string)
    requires IsRun(ws, cs) && i < |cs| && cs[i].policy.rollbackOnFailure
    ensures var c, f, g := cs[i], In(ws[i], cs[i].Target()), In(ws[i + 1], cs[i].Target());
      if c.effect.result.status == EXECUTED then IsReached(c.action, g) && g == Full(c.action, f) else g == f
    ensures t != cs[i].Target() ==> In(ws[i + 1], t) == In(ws[i], t)
  {
    var c, f := cs[i], In(ws[i], cs[i].Target());
    assert IsCall(ws[i], c, ws[i + 1]);
    if IsAllowed(c.policy, c.req, c.action, f) {
      AllowedIsKnown(c.policy, c.req, c.action, f);
      AllOrNothing(c.action, f, c.faults);
    }
    if t != c.Target() {
      assert SameIn(ws[i], ws[i + 1], t);
    }
  }

  // Theorem: each call of a run changes only the fields its own action may touch, of its own target;
  // its answer says which of the attempts permitted, one and the configured retries, succeeded.
  lemma CallTouchesOnly(ws: seq<World>, cs: seq<Call>, i: nat, t: string)
    requires IsRun(ws, cs) && i < |cs|
    ensures if t == cs[i].Target() then TouchesOnly(cs[i].action, In(ws[i], t), In(ws[i + 1], t)) else In(ws[i + 1], t) == In(ws[i], t)
    ensures var c, r, k := cs[i], cs[i].effect.result, FirstAchieving(cs[i].action, In(ws[i], cs[i].Target()), cs[i].faults);
      && |c.faults| == (if c.policy.maxRetries > 0 then 1 + c.policy.maxRetries else 1)
      && r.action == c.action
      && (r.status == EXECUTED <==> r.status != REJECTED && k < |c.faults|)
      && (r.recovery == NOT_ATTEMPTED <==> r.status == REJECTED || k == 0)
      && (r.recovery == RecoverySuccess <==> r.status != REJECTED && 0 < k < |c.faults|)
      && (c.effect.rolledBack <==> r.status == FAILED && c.policy.rollbackOnFailure && c.action != TERMINATE)
  {
    hide Respond, TouchesOnly, IsAllowed, FailsAt, FirstAchieving;
    var c, f := cs[i], In(ws[i], cs[i].Target());
    assert IsCall(ws[i], c, ws[i + 1]);
    AnswerTouchesOnly(c.policy, c.req, c.action, f, c.faults);
    AnswerMeans(c.policy, c.req, c.action, f, c.faults);
    if t != c.Target() {
      assert SameIn(ws[i], ws[i + 1], t);
    }
  }

  // Among the first n calls, one of this action on the target was not turned down.
  predicate WasTried(cs: seq<Call>, n: nat, t: string, a: Action)
    requires n <= |cs|
  {
    exists i :: 0 <= i < n && cs[i].Target() == t && cs[i].action == a && cs[i].effect.result.status != REJECTED
  }

  // Whatever is not as on a fresh target goes back to a call.
  predicate IsExplained(cs: seq<Call>, n: nat, t: string, f: Fields)
    requires n <= |cs|
  {
    && f.target == t
    && (f.blocked ==> WasTried(cs, n, t, BLOCK))
    && (f.isolated ==> WasTried(cs, n, t, ISOLATE))
    && (f.rateLimited ==> WasTried(cs, n, t, RATE_LIMIT) || WasTried(cs, n, t, BLOCK))
    && (f.monitored ==> WasTried(cs, n, t, MONITOR) || WasTried(cs, n, t, INCREASE_MONITORING))
    && (f.level == INCREASED ==> WasTried(cs, n, t, INCREASE_MONITORING))
    && (f.terminated ==> WasTried(cs, n, t, TERMINATE))
    && (f.active != 1 ==> WasTried(cs, n, t, ISOLATE) || WasTried(cs, n, t, BLOCK) || WasTried(cs, n, t, TERMINATE))
    && (f.suspended != 0 ==> WasTried(cs, n, t, ISOLATE))
  }

  lemma TriedBefore(cs: seq<Call>, n: nat, t: string, a: Action)
    requires n < |cs|
    ensures WasTried(cs, n + 1, t, a)
      <==> (WasTried(cs, n, t, a) || (cs[n].Target() == t && cs[n].action == a && cs[n].effect.result.status != REJECTED))
  {
  }

  lemma RejectedStays(w: World, c: Call, w': World)
    requires IsCall(w, c, w') && c.effect.result.status == REJECTED
    ensures In(w', c.Target()) == In(w, c.Target())
  {
    hide IsAllowed, FailsAt, Attempts, Settled;
  }

  // Theorem: in any run from the empty network, every protection a target shows, and every session
  // it lost or had suspended, goes back to an earlier call of an action that does that, on it.
  lemma {:induction false} EveryChangeHasItsCall(ws: seq<World>, cs: seq<Call>, n: nat, t: string)
    requires IsRun(ws, cs) && ws[0] == map[] && n < |ws|
    ensures n <= |cs| && IsExplained(cs, n, t, In(ws[n], t))
    decreases n
  {
    hide WasTried, IsCall, FirstAchieving;
    if n > 0 {
      EveryChangeHasItsCall(ws, cs, n - 1, t);
      CallTouchesOnly(ws, cs, n - 1, t);
      forall a ensures WasTried(cs, n, t, a)
        <==> (WasTried(cs, n - 1, t, a) || (cs[n - 1].Target() == t && cs[n - 1].action == a && cs[n - 1].effect.result.status != REJECTED))
      {
        TriedBefore(cs, n - 1, t, a);
      }
      if cs[n - 1].effect.result.status == REJECTED {
        RejectedStays(ws[n - 1], cs[n - 1], ws[n]);
      }
    }
  }

  // ---- At most once -------------------------------------------------------------------------------

  lemma CallKeeps(w: World, c: Call, w': World, t: string)
    requires IsCall(w, c, w')
    ensures Keeps(In(w, t), In(w', t))
  {
    if t == c.Target() {
      SettledKeeps(c.action, In(w, t), c.faults, c.policy.rollbackOnFailure);
    } else {
      assert SameIn(w, w', t);
    }
  }

  // Theorem: no protection of any target is ever taken back between calls.
  lemma {:induction false} ProtectionStays(ws: seq<World>, cs: seq<Call>, n: nat, m: nat, t: string)
    requires IsRun(ws, cs) && n <= m < |ws|
    ensures Keeps(In(ws[n], t), In(ws[m], t))
    decreases m
  {
    if n < m {
      hide IsCall, Keeps;
      ProtectionStays(ws, cs, n, m - 1, t);
      CallKeeps(ws[m - 1], cs[m - 1], ws[m], t);
      KeepsThen(In(ws[n], t), In(ws[m - 1], t), In(ws[m], t));
    } else {
      assert Keeps(In(ws[n], t), In(ws[n], t));
    }
  }

  lemma ExecutedIsActive(w: World, c: Call, w': World)
    requires IsCall(w, c, w') && c.effect.result.status == EXECUTED && c.action != MONITOR
    ensures IsActive(c.action, In(w', c.Target()))
  {
    var f := In(w, c.Target());
    AllowedIsKnown(c.policy, c.req, c.action, f);
    AttemptsOutcome(c.action, f, c.faults);
  }

  lemma ActiveIsRejected(w: World, c: Call, w': World)
    requires IsCall(w, c, w') && IsActive(c.action, In(w, c.Target()))
    ensures c.effect.result.status == REJECTED && !c.effect.rolledBack
    ensures c.effect.result.healthy
      <==> forall k :: RankOf(k) < RankOf(NOT_ALREADY_ACTIVE) ==> Passes(c.policy, c.req, c.action, In(w, c.Target()), k)
    ensures forall t :: SameIn(w, w', t)
  {
    assert !Passes(c.policy, c.req, c.action, In(w, c.Target()), NOT_ALREADY_ACTIVE);
  }

  // Theorem: an action other than MONITOR that was executed on a target is rejected from then on,
  // as healthy when nothing else is wrong with the request, and changes nothing.
  lemma AtMostOnce(ws: seq<World>, cs: seq<Call>, i: nat, j: nat, t: string)
    requires IsRun(ws, cs) && i < j < |cs|
    requires cs[i].Target() == cs[j].Target() && cs[i].action == cs[j].action != MONITOR
    requires cs[i].effect.result.status == EXECUTED
    ensures cs[j].effect.result.status == REJECTED
    ensures cs[j].effect.result.healthy
      <==> forall k :: RankOf(k) < RankOf(NOT_ALREADY_ACTIVE) ==> Passes(cs[j].policy, cs[j].req, cs[j].action, In(ws[j], cs[j].Target()), k)
    ensures In(ws[j + 1], t) == In(ws[j], t)
  {
    hide IsCall;
    ExecutedIsActive(ws[i], cs[i], ws[i + 1]);
    ProtectionStays(ws, cs, i + 1, j, cs[i].Target());
    ActiveIsRejected(ws[j], cs[j], ws[j + 1]);
    assert SameIn(ws[j], ws[j + 1], t);
  }

  // ---- Sessions -------------------------------------------------------------------------------------

  // Theorem: a target's session is never duplicated, and lost only behind a block or termination.
  lemma {:induction false} SessionsAccounted(ws: seq<World>, cs: seq<Call>, n: nat, t: string)
    requires IsRun(ws, cs) && ws[0] == map[] && n < |ws|
    ensures IsAccounted(In(ws[n], t))
    decreases n
  {
    if n > 0 {
      SessionsAccounted(ws, cs, n - 1, t);
      var c := cs[n - 1];
      assert IsCall(ws[n - 1], c, ws[n]);
      if t == c.Target() {
        SettledKeepsSessions(c.action, In(ws[n - 1], t), c.faults, c.policy.rollbackOnFailure);
      } else {
        assert SameIn(ws[n - 1], ws[n], t);
      }
    }
  }

  // An allowed call whose first attempt meets no fault succeeds at once, except exactly when it
  // isolates a target that has no session left to suspend.
  lemma CleanCall(w: World, c: Call, w': World)
    requires IsCall(w, c, w') && IsAllowed(c.policy, c.req, c.action, In(w, c.Target())) && !c.faults[0]
    ensures var f := In(w, c.Target());
      c.effect.result == DefenseResult(c.action, EXECUTED, NOT_ATTEMPTED, true, IsReversible(c.action))
      <==> !(c.action == ISOLATE && f.active + f.suspended == 0)
  {
    var f := In(w, c.Target());
    AllowedIsKnown(c.policy, c.req, c.action, f);
    AttemptsOutcome(c.action, f, c.faults);
  }

  // Theorem: in any run from the empty network, an allowed fault-free call on a target neither
  // blocked nor terminated is executed, healthy, without recovery.
  lemma CleanCallSucceeds(ws: seq<World>, cs: seq<Call>, i: nat)
    requires IsRun(ws, cs) && ws[0] == map[] && i < |cs|
    requires IsAllowed(cs[i].policy, cs[i].req, cs[i].action, In(ws[i], cs[i].Target())) && cs[i].faults != [] && !cs[i].faults[0]
    requires !In(ws[i], cs[i].Target()).blocked && !In(ws[i], cs[i].Target()).terminated
    ensures cs[i].effect.result == DefenseResult(cs[i].action, EXECUTED, NOT_ATTEMPTED, true, IsReversible(cs[i].action))
    ensures In(ws[i + 1], cs[i].Target()) == Full(cs[i].action, In(ws[i], cs[i].Target()))
  {
    assert IsCall(ws[i], cs[i], ws[i + 1]);
    SessionsAccounted(ws, cs, i, cs[i].Target());
    CleanCall(ws[i], cs[i], ws[i + 1]);
    AllowedIsKnown(cs[i].policy, cs[i].req, cs[i].action, In(ws[i], cs[i].Target()));
    AttemptsOutcome(cs[i].action, In(ws[i], cs[i].Target()), cs[i].faults);
  }

  // Isolating a blocked target fails although nothing is at fault: its session is gone.
  lemma IsolateAfterBlockFails(p: Policy, req: Request)
    requires IsAllowed(p, req, ISOLATE, Full(BLOCK, Default(req.Target())))
    ensures Respond(p, req, ISOLATE, Full(BLOCK, Default(req.Target())), [false]).result.status == FAILED
  {
  }
}
