/** The six simulated defense actions on the state of one target: what a clean and what a faulty
    application does, what counts as done, and what a series of attempts amounts to. */
module DefenseActions {

  datatype Action =
    | MONITOR
    | INCREASE_MONITORING
    | RATE_LIMIT
    | ISOLATE
    | BLOCK
    | TERMINATE
    | Unknown(name: string)     // policy tables are not checked against the catalog

  datatype Level = BASELINE | INCREASED

  datatype Fields = Fields(
    target: string,
    blocked: bool,
    isolated: bool,
    rateLimited: bool,
    monitored: bool,
    level: Level,
    active: nat,
    suspended: nat,
    terminated: bool)

  function Default(target: string): Fields {
    Fields(target, false, false, false, false, BASELINE, 1, 0, false)
  }

  predicate IsKnown(a: Action) {
    !a.Unknown?
  }

  predicate IsReversible(a: Action) {
    a != TERMINATE
  }

  function Full(a: Action, f: Fields): Fields {
    match a
    case MONITOR => f.(monitored := true)
    case INCREASE_MONITORING => f.(monitored := true, level := INCREASED)
    case RATE_LIMIT => f.(rateLimited := true)
    case ISOLATE => f.(isolated := true, suspended := f.suspended + f.active, active := 0)
    case BLOCK => f.(blocked := true, rateLimited := true, active := 0)
    case TERMINATE => f.(terminated := true, active := 0)
    case Unknown(_) => f
  }

  function Partial(a: Action, f: Fields): Fields {
    match a
    case INCREASE_MONITORING => f.(monitored := true)
    case ISOLATE => f.(suspended := f.suspended + f.active, active := 0)
    case BLOCK => f.(rateLimited := true)
    case _ => f
  }

  function Apply(a: Action, faulty: bool, f: Fields): Fields {
    if faulty then Partial(a, f) else Full(a, f)
  }

  // What independent verification looks for.
  predicate IsReached(a: Action, f: Fields) {
    match a
    case MONITOR => f.monitored
    case INCREASE_MONITORING => f.level == INCREASED
    case RATE_LIMIT => f.rateLimited
    case ISOLATE => f.isolated && f.active == 0 && f.suspended > 0
    case BLOCK => f.blocked && f.rateLimited && f.active == 0
    case TERMINATE => f.terminated && f.active == 0
    case Unknown(_) => false
  }

  // What the validator takes for the action being in force already.
  predicate IsActive(a: Action, f: Fields) {
    match a
    case RATE_LIMIT => f.rateLimited
    case ISOLATE => f.isolated
    case BLOCK => f.blocked
    case INCREASE_MONITORING => f.level == INCREASED
    case TERMINATE => f.terminated
    case _ => false
  }

  // ---- Series of attempts -----------------------------------------------------------------------

  // Where attempts end up that meet these faults one after the other, and stop once the state
  // verifies.
  datatype Tried = Tried(final: Fields, reached: bool, attempts: nat)

  function Attempts(a: Action, f: Fields, faults: seq<bool>): (r: Tried)
    ensures r.attempts <= |faults| && if r.reached then r.attempts > 0 else r.attempts == |faults|
    decreases |faults|
  {
    if faults == [] then Tried(f, false, 0)
    else
      var g := Apply(a, faults[0], f);
      if IsReached(a, g) then Tried(g, true, 1)
      else
        var rest := Attempts(a, g, faults[1..]);
        rest.(attempts := rest.attempts + 1)
  }

  lemma NoAttempts(a: Action, f: Fields)
    ensures Attempts(a, f, []) == Tried(f, false, 0)
  {
  }

  lemma FirstAttempt(a: Action, f: Fields, faulty: bool, rest: seq<bool>)
    ensures var g := Apply(a, faulty, f);
      Attempts(a, f, [faulty] + rest)
      == if IsReached(a, g) then Tried(g, true, 1) else Attempts(a, g, rest).(attempts := Attempts(a, g, rest).attempts + 1)
  {
  }

  // One more attempt after a series that did not get there.
  lemma {:induction false} OneMoreAttempt(a: Action, f: Fields, faults: seq<bool>, faulty: bool)
    requires !Attempts(a, f, faults).reached
    ensures var before, g := Attempts(a, f, faults), Apply(a, faulty, Attempts(a, f, faults).final);
      Attempts(a, f, faults + [faulty]) == Tried(g, IsReached(a, g), before.attempts + 1)
    decreases |faults|
  {
    if faults == [] {
      assert ([] + [faulty])[1..] == [];
    } else {
      OneMoreAttempt(a, Apply(a, faults[0], f), faults[1..], faulty);
      assert (faults + [faulty])[1..] == faults[1..] + [faulty];
    }
  }

  // A series that got there ignores what would have come after.
  lemma {:induction false} RestIsIgnored(a: Action, f: Fields, faults: seq<bool>, rest: seq<bool>)
    requires Attempts(a, f, faults).reached
    ensures Attempts(a, f, faults + rest) == Attempts(a, f, faults)
    decreases |faults|
  {
    if !IsReached(a, Apply(a, faults[0], f)) {
      RestIsIgnored(a, Apply(a, faults[0], f), faults[1..], rest);
    }
    assert faults != [] && (faults + rest)[0] == faults[0] && (faults + rest)[1..] == faults[1..] + rest;
  }

  function Partials(a: Action, f: Fields, n: nat): Fields {
    if n == 0 then f else Partial(a, Partials(a, f, n - 1))
  }

  // Theorem: any number of faulty applications and then a clean one leave exactly what a first
  // clean application would have left.
  lemma {:induction false} HealingConverges(a: Action, f: Fields, n: nat)
    ensures Full(a, Partials(a, f, n)) == Full(a, f)
  {
    if n > 0 {
      HealingConverges(a, f, n - 1);
    }
  }

  // The attempts that reach the state: clean ones, unless there is no session to suspend.
  predicate Achieves(a: Action, f: Fields, faulty: bool) {
    (a == MONITOR && f.monitored) || (!faulty && IsKnown(a) && (a == ISOLATE ==> f.active + f.suspended > 0))
  }

  // The first of them, or the length of the series.
  function FirstAchieving(a: Action, f: Fields, faults: seq<bool>): (r: nat)
    ensures r <= |faults|
    ensures forall k :: 0 <= k < r ==> !Achieves(a, f, faults[k])
    ensures r < |faults| ==> Achieves(a, f, faults[r])
  {
    if faults == [] || Achieves(a, f, faults[0]) then 0 else FirstAchieving(a, f, faults[1..]) + 1
  }

  lemma PartialChangesNothingElse(a: Action, f: Fields, faulty: bool)
    requires !IsActive(a, f)
    ensures !IsActive(a, Partial(a, f)) && Full(a, Partial(a, f)) == Full(a, f) && Partial(a, Partial(a, f)) == Partial(a, f)
    ensures Achieves(a, Partial(a, f), faulty) == Achieves(a, f, faulty)
    ensures IsReached(a, Apply(a, faulty, f)) == Achieves(a, f, faulty)
  {
  }

  // Theorem: a series of attempts at an action not yet in force succeeds exactly at its first
  // achieving attempt, and then leaves what a clean first success would have left.
  lemma {:induction false} AttemptsOutcome(a: Action, f: Fields, faults: seq<bool>)
    requires !IsActive(a, f)
    ensures var t, k := Attempts(a, f, faults), FirstAchieving(a, f, faults);
      && (t.reached <==> k < |faults|)
      && t.attempts == (if t.reached then k + 1 else |faults|)
      && (t.reached ==> t.final == Full(a, f) && IsReached(a, t.final))
    decreases |faults|
  {
    if faults != [] {
      PartialChangesNothingElse(a, f, faults[0]);
      if !Achieves(a, f, faults[0]) {
        if faults[0] {
          AttemptsOutcome(a, Partial(a, f), faults[1..]);
          SameFirst(a, f, faults[1..]);
        } else {
          NeverReached(a, Full(a, f), faults[1..]);
          NoneAchieving(a, f, faults[1..]);
        }
      }
    }
  }

  lemma {:induction false} SameFirst(a: Action, f: Fields, faults: seq<bool>)
    requires !IsActive(a, f)
    ensures FirstAchieving(a, Partial(a, f), faults) == FirstAchieving(a, f, faults)
    decreases |faults|
  {
  }

  // With nothing to suspend, or for an unknown action, no attempt helps.
  predicate IsHopeless(a: Action, f: Fields) {
    a.Unknown? || (a == ISOLATE && f.active + f.suspended == 0)
  }

  lemma {:induction false} NeverReached(a: Action, f: Fields, faults: seq<bool>)
    requires IsHopeless(a, f)
    ensures !Attempts(a, f, faults).reached && Attempts(a, f, faults).attempts == |faults|
    decreases |faults|
  {
    if faults != [] {
      NeverReached(a, Apply(a, faults[0], f), faults[1..]);
    }
  }

  lemma {:induction false} NoneAchieving(a: Action, f: Fields, faults: seq<bool>)
    requires IsHopeless(a, f)
    ensures FirstAchieving(a, f, faults) == |faults|
    decreases |faults|
  {
  }

  // ---- One whole call on a target ------------------------------------------------------------------

  // The state a call leaves: verified, rolled back, or whatever the attempts left.
  function Settled(a: Action, f: Fields, faults: seq<bool>, rollback: bool): Fields {
    var t := Attempts(a, f, faults);
    if !t.reached && rollback && IsReversible(a) then f else t.final
  }

  // Verified and as after a clean first success, or exactly as before.
  predicate IsAllOrNothing(a: Action, f: Fields, g: Fields) {
    (IsReached(a, g) && g == Full(a, f)) || g == f
  }

  lemma {:induction false} TerminateLeavesNothing(f: Fields, faults: seq<bool>)
    ensures !Attempts(TERMINATE, f, faults).reached ==> Attempts(TERMINATE, f, faults).final == f
    decreases |faults|
  {
    if faults != [] {
      TerminateLeavesNothing(Apply(TERMINATE, faults[0], f), faults[1..]);
    }
  }

  // Theorem: with rollback on, whatever faults the attempts meet, the call is all or nothing;
  // the irreversible action needs no rollback, because a failed attempt at it changes nothing.
  lemma AllOrNothing(a: Action, f: Fields, faults: seq<bool>)
    requires !IsActive(a, f)
    ensures Attempts(a, f, faults).reached ==> IsReached(a, Settled(a, f, faults, true)) && Settled(a, f, faults, true) == Full(a, f)
    ensures !Attempts(a, f, faults).reached ==> Settled(a, f, faults, true) == f
  {
    AttemptsOutcome(a, f, faults);
    if a == TERMINATE {
      TerminateLeavesNothing(f, faults);
    }
  }

  // The states in which even a failed call without rollback leaves no trace.
  predicate LeavesNoTrace(a: Action, f: Fields) {
    match a
    case INCREASE_MONITORING => f.monitored
    case ISOLATE => f.active == 0 && f.suspended > 0
    case BLOCK => f.rateLimited
    case _ => true
  }

  lemma {:induction false} TracelessAttempts(a: Action, f: Fields, faults: seq<bool>)
    requires !IsActive(a, f) && LeavesNoTrace(a, f)
    ensures !Attempts(a, f, faults).reached ==> Attempts(a, f, faults).final == f
    decreases |faults|
  {
    if faults != [] {
      PartialChangesNothingElse(a, f, faults[0]);
      if !Achieves(a, f, faults[0]) {
        assert Apply(a, faults[0], f) == f;
        TracelessAttempts(a, f, faults[1..]);
      }
    }
  }

  // Theorem: without rollback the guarantee fails in general, and this is exactly when it holds.
  lemma WithoutRollback(a: Action, f: Fields)
    requires !IsActive(a, f)
    ensures LeavesNoTrace(a, f) <==> forall faults :: IsAllOrNothing(a, f, Settled(a, f, faults, false))
  {
    if LeavesNoTrace(a, f) {
      forall faults ensures IsAllOrNothing(a, f, Settled(a, f, faults, false)) {
        AttemptsOutcome(a, f, faults);
        TracelessAttempts(a, f, faults);
      }
    } else {
      var faulty := !(a == ISOLATE && f.active + f.suspended == 0);
      OneMoreAttempt(a, f, [], faulty);
      assert [] + [faulty] == [faulty];
      assert !IsAllOrNothing(a, f, Settled(a, f, [faulty], false));
    }
  }

  // A blocked call that only got as far as the rate limit.
  lemma BlockWithoutRollbackLeavesLimit(target: string)
    ensures var g := Settled(BLOCK, Default(target), [true], false);
      !IsAllOrNothing(BLOCK, Default(target), g) && g.rateLimited && !g.blocked
  {
  }

  // ---- Monotone effects ------------------------------------------------------------------------

  // No protection is ever taken back.
  predicate Keeps(f: Fields, g: Fields) {
    && g.target == f.target
    && (f.blocked ==> g.blocked) && (f.isolated ==> g.isolated) && (f.rateLimited ==> g.rateLimited)
    && (f.monitored ==> g.monitored) && (f.level == INCREASED ==> g.level == INCREASED)
    && (f.terminated ==> g.terminated)
  }

  lemma ApplyKeeps(a: Action, faulty: bool, f: Fields)
    ensures Keeps(f, Apply(a, faulty, f))
  {
  }

  lemma KeepsThen(f: Fields, g: Fields, h: Fields)
    requires Keeps(f, g) && Keeps(g, h)
    ensures Keeps(f, h)
  {
  }

  lemma {:induction false} AttemptsKeep(a: Action, f: Fields, faults: seq<bool>)
    ensures Keeps(f, Attempts(a, f, faults).final)
    decreases |faults|
  {
    if faults != [] {
      hide Apply, IsReached, Keeps;
      ApplyKeeps(a, faults[0], f);
      AttemptsKeep(a, Apply(a, faults[0], f), faults[1..]);
      KeepsThen(f, Apply(a, faults[0], f), Attempts(a, Apply(a, faults[0], f), faults[1..]).final);
    }
  }

  lemma SettledKeeps(a: Action, f: Fields, faults: seq<bool>, rollback: bool)
    ensures Keeps(f, Settled(a, f, faults, rollback))
  {
    AttemptsKeep(a, f, faults);
  }

  // ---- What an action may touch ------------------------------------------------------------------

  // Field by field, which actions may change it.
  predicate TouchesOnly(a: Action, f: Fields, g: Fields) {
    && g.target == f.target
    && (g.blocked != f.blocked ==> a == BLOCK)
    && (g.isolated != f.isolated ==> a == ISOLATE)
    && (g.rateLimited != f.rateLimited ==> a == RATE_LIMIT || a == BLOCK)
    && (g.monitored != f.monitored ==> a == MONITOR || a == INCREASE_MONITORING)
    && (g.level != f.level ==> a == INCREASE_MONITORING)
    && (g.active != f.active ==> g.active == 0 && (a == ISOLATE || a == BLOCK || a == TERMINATE))
    && (g.suspended != f.suspended ==> a == ISOLATE)
    && (g.terminated != f.terminated ==> a == TERMINATE)
    && (a == ISOLATE ==> g.active + g.suspended == f.active + f.suspended)
  }

  lemma FullTouchesOnly(a: Action, f: Fields)
    ensures TouchesOnly(a, f, Full(a, f))
  {
    if a == ISOLATE || a == BLOCK || a == TERMINATE {
    } else if a == INCREASE_MONITORING {
    }
  }

  lemma PartialTouchesOnly(a: Action, f: Fields)
    ensures TouchesOnly(a, f, Partial(a, f))
  {
  }

  lemma TouchesThen(a: Action, f: Fields, g: Fields, h: Fields)
    requires TouchesOnly(a, f, g) && TouchesOnly(a, g, h)
    ensures TouchesOnly(a, f, h)
  {
  }

  lemma TouchesNothing(a: Action, f: Fields)
    ensures TouchesOnly(a, f, f)
  {
  }

  lemma {:induction false} AttemptsTouchOnly(a: Action, f: Fields, faults: seq<bool>)
    ensures TouchesOnly(a, f, Attempts(a, f, faults).final)
    decreases |faults|
  {
    hide Full, Partial, IsReached, TouchesOnly;
    if faults == [] {
      TouchesNothing(a, f);
    } else {
      FullTouchesOnly(a, f);
      PartialTouchesOnly(a, f);
      AttemptsTouchOnly(a, Apply(a, faults[0], f), faults[1..]);
      TouchesThen(a, f, Apply(a, faults[0], f), Attempts(a, Apply(a, faults[0], f), faults[1..]).final);
    }
  }

  // Theorem: whatever faults a call meets, and whether or not it rolls back, it changes only the
  // fields that its action may touch; no session is made up, and isolating loses none.
  lemma SettledTouchesOnly(a: Action, f: Fields, faults: seq<bool>, rollback: bool)
    ensures TouchesOnly(a, f, Settled(a, f, faults, rollback))
  {
    hide Attempts, TouchesOnly;
    AttemptsTouchOnly(a, f, faults);
    TouchesNothing(a, f);
  }

  // Field by field, what a clean application leaves.
  lemma CleanSets(a: Action, f: Fields)
    ensures var g := Full(a, f);
      && (g.blocked <==> f.blocked || a == BLOCK)
      && (g.isolated <==> f.isolated || a == ISOLATE)
      && (g.rateLimited <==> f.rateLimited || a == RATE_LIMIT || a == BLOCK)
      && (g.monitored <==> f.monitored || a == MONITOR || a == INCREASE_MONITORING)
      && (g.level == INCREASED <==> f.level == INCREASED || a == INCREASE_MONITORING)
      && (g.terminated <==> f.terminated || a == TERMINATE)
      && (a == ISOLATE || a == BLOCK || a == TERMINATE ==> g.active == 0)
  {
  }

  // A field, as far as one application can leave it undone.
  datatype Field = BLOCKED | ISOLATED | RATE_LIMITED | MONITORED | LEVEL | ACTIVE | SUSPENDED | TERMINATED

  predicate Agree(x: Field, f: Fields, g: Fields) {
    match x
    case BLOCKED => f.blocked == g.blocked
    case ISOLATED => f.isolated == g.isolated
    case RATE_LIMITED => f.rateLimited == g.rateLimited
    case MONITORED => f.monitored == g.monitored
    case LEVEL => f.level == g.level
    case ACTIVE => f.active == g.active
    case SUSPENDED => f.suspended == g.suspended
    case TERMINATED => f.terminated == g.terminated
  }

  // The part of an action that a faulty application gets done.
  predicate IsHalf(a: Action, x: Field) {
    (a == INCREASE_MONITORING && x == MONITORED) || (a == ISOLATE && (x == ACTIVE || x == SUSPENDED)) || (a == BLOCK && x == RATE_LIMITED)
  }

  // Theorem: a faulty application leaves every field as it was, except for its half of the action,
  // which it leaves as a clean one would.
  lemma FaultyDoesHalf(a: Action, f: Fields, x: Field)
    ensures Agree(x, Partial(a, f), if IsHalf(a, x) then Full(a, f) else f)
    ensures Partial(a, f).target == f.target
  {
  }

  // Theorem: verification accepts exactly the states in which a clean application would change
  // nothing more (and, isolated, some session is suspended); for increased monitoring it accepts
  // also a target that is not monitored.
  lemma ReachedExactly(a: Action, f: Fields)
    ensures a != INCREASE_MONITORING ==> (IsReached(a, f) <==> IsKnown(a) && Full(a, f) == f && (a == ISOLATE ==> f.suspended > 0))
    ensures a == INCREASE_MONITORING ==> (IsReached(a, f) <==> Full(a, f) == f.(monitored := true))
  {
  }

  // Theorem: an action is in force after an application exactly if it was before, or this was a
  // clean application of it, or of anything that includes it.
  lemma ActiveExactly(a: Action, b: Action, faulty: bool, f: Fields)
    ensures IsActive(a, Apply(b, faulty, f))
      <==> (IsActive(a, f) || (!faulty && a == b && a != MONITOR && IsKnown(a)) || (a == RATE_LIMIT && b == BLOCK))
    ensures !IsActive(a, Default(f.target))
  {
  }

  // ---- Sessions -----------------------------------------------------------------------------------

  // The one session of a target is active or suspended; it is gone only behind a block or a
  // termination.
  predicate IsAccounted(f: Fields) {
    f.active + f.suspended <= 1 && (f.active + f.suspended == 0 ==> f.blocked || f.terminated)
  }

  lemma {:induction false} AttemptsKeepSessions(a: Action, f: Fields, faults: seq<bool>)
    requires IsAccounted(f)
    ensures IsAccounted(Attempts(a, f, faults).final)
    decreases |faults|
  {
    if faults != [] {
      AttemptsKeepSessions(a, Apply(a, faults[0], f), faults[1..]);
    }
  }

  lemma SettledKeepsSessions(a: Action, f: Fields, faults: seq<bool>, rollback: bool)
    requires IsAccounted(f)
    ensures IsAccounted(Settled(a, f, faults, rollback))
  {
    AttemptsKeepSessions(a, f, faults);
  }
}
