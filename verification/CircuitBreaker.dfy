/** The three-state circuit breaker: a mutable record per backend, and what any interleaving of
    its locked operations can and cannot do. */
module CircuitBreaker {
  import opened Wrappers

  datatype BreakerState = CLOSED | OPEN | HALF_OPEN

  datatype Breaker = Breaker(state: BreakerState, failures: int, openedAt: Option<real>, trial: bool)

  const FRESH := Breaker(CLOSED, 0, None, false)

  datatype Settings = Settings(threshold: int, cooldown: real)

  // One locked operation at one reading of the clock.
  datatype Operation = Ask(now: real) | Good(now: real) | Bad(now: real)

  function OpenedAt(b: Breaker): real {
    if b.openedAt.Some? then b.openedAt.value else 0.0
  }

  predicate Allows(b: Breaker, now: real, s: Settings) {
    match b.state
    case CLOSED => true
    case OPEN => now - OpenedAt(b) >= s.cooldown
    case HALF_OPEN => !b.trial
  }

  function After(b: Breaker, op: Operation, s: Settings): Breaker {
    match op
    case Ask(now) =>
      if b.state != CLOSED && Allows(b, now, s) then b.(state := HALF_OPEN, trial := true) else b
    case Good(_) =>
      if b.state == HALF_OPEN then FRESH
      else if b.state == CLOSED then b.(failures := 0)
      else b
    case Bad(now) =>
      if b.state == HALF_OPEN then Breaker(OPEN, s.threshold, Some(now), false)
      else if b.state == CLOSED then
        if b.failures + 1 >= s.threshold then b.(failures := b.failures + 1, state := OPEN, openedAt := Some(now))
        else b.(failures := b.failures + 1)
      else b
  }

  class Record {
    var state: BreakerState
    var failures: int
    var openedAt: Option<real>
    var trial: bool

    function View(): Breaker
      reads this
    {
      Breaker(state, failures, openedAt, trial)
    }

    constructor ()
      ensures View() == FRESH
    {
      state, failures, openedAt, trial := CLOSED, 0, None, false;
    }
  }

  class QuantumCircuitBreaker {
    const settings: Settings
    var states: map<string, Record>

    // Backends never share a record.
    ghost predicate Valid()
      reads this
    {
      forall b, c :: b in states && c in states && b != c ==> states[b] != states[c]
    }

    ghost function At(backend: string): Breaker
      reads this, states.Values
    {
      if backend in states then states[backend].View() else FRESH
    }

    ghost function Others(backend: string): map<string, (Record, Breaker)>
      reads this, states.Values
    {
      map b | b in states && b != backend :: (states[b], states[b].View())
    }

    constructor (settings: Settings)
      ensures Valid() && this.settings == settings && states == map[]
    {
      this.settings, states := settings, map[];
    }

    method StateFor(backend: string) returns (s: Record)
      requires Valid()
      modifies this
      ensures Valid() && backend in states && s == states[backend]
      ensures At(backend) == old(At(backend)) && Others(backend) == old(Others(backend))
      ensures if backend in old(states) then states == old(states) else fresh(s) && states == old(states)[backend := s]
    {
      if backend !in states {
        var created := new Record();
        states := states[backend := created];
      }
      s := states[backend];
      assert Others(backend) == old(Others(backend));
    }

    method AllowRequest(backend: string, now: real) returns (allowed: bool)
      requires Valid()
      modifies this, states.Values
      ensures Valid() && fresh(states.Values - old(states.Values))
      ensures allowed == Allows(old(At(backend)), now, settings)
      ensures At(backend) == After(old(At(backend)), Ask(now), settings) && Others(backend) == old(Others(backend))
    {
      ghost var others := Others(backend);
      var s := StateFor(backend);
      allowed := false;
      if s.state == CLOSED {
        allowed := true;
      } else if s.state == OPEN {
        var elapsed := now - (if s.openedAt.Some? then s.openedAt.value else 0.0);
        if elapsed >= settings.cooldown {
          s.state, s.trial := HALF_OPEN, true;
          allowed := true;
        }
      } else if !s.trial {
        s.trial := true;
        allowed := true;
      }
      assert Others(backend) == others;
    }

    method RecordSuccess(backend: string, now: real)
      requires Valid()
      modifies this, states.Values
      ensures Valid() && fresh(states.Values - old(states.Values))
      ensures At(backend) == After(old(At(backend)), Good(now), settings) && Others(backend) == old(Others(backend))
      ensures old(At(backend)).state == HALF_OPEN ==> At(backend) == FRESH
    {
      ghost var others := Others(backend);
      var s := StateFor(backend);
      if s.state == HALF_OPEN {
        s.state, s.failures, s.openedAt, s.trial := CLOSED, 0, None, false;
      } else if s.state == CLOSED {
        s.failures := 0;
      }
      assert Others(backend) == others;
    }

    method RecordFailure(backend: string, now: real)
      requires Valid()
      modifies this, states.Values
      ensures Valid() && fresh(states.Values - old(states.Values))
      ensures At(backend) == After(old(At(backend)), Bad(now), settings) && Others(backend) == old(Others(backend))
    {
      ghost var others := Others(backend);
      var s := StateFor(backend);
      if s.state == HALF_OPEN {
        s.state, s.openedAt, s.trial, s.failures := OPEN, Some(now), false, settings.threshold;
      } else if s.state == CLOSED {
        s.failures := s.failures + 1;
        if s.failures >= settings.threshold {
          s.state, s.openedAt := OPEN, Some(now);
        }
      }
      assert Others(backend) == others;
    }
  }

  // ---- Runs of one backend's breaker ---------------------------------------------------------------

  function Run(ops: seq<Operation>, s: Settings): Breaker {
    if ops == [] then FRESH else After(Run(ops[..|ops| - 1], s), ops[|ops| - 1], s)
  }

  predicate IsMonotone(ops: seq<Operation>) {
    forall i, j :: 0 <= i <= j < |ops| ==> ops[i].now <= ops[j].now
  }

  // Failures reported since the last success.
  function FailuresSince(ops: seq<Operation>): nat {
    if ops == [] then 0
    else
      var rest := FailuresSince(ops[..|ops| - 1]);
      match ops[|ops| - 1]
      case Ask(_) => rest
      case Good(_) => 0
      case Bad(_) => rest + 1
  }

  function Larger(a: int, b: int): int {
    if a >= b then a else b
  }

  // Theorem: whatever happens, HALF_OPEN has its one trial claimed, OPEN knows since when, and
  // CLOSED has counted the failures since the last success, fewer than the threshold.
  lemma {:induction false} BreakerInvariant(ops: seq<Operation>, s: Settings)
    ensures var b := Run(ops, s);
      && (b.state == HALF_OPEN <==> b.trial)
      && (b.state != CLOSED ==> b.openedAt.Some?)
      && (b.state == CLOSED ==> b.openedAt.None? && b.failures == FailuresSince(ops) < Larger(1, s.threshold))
    decreases |ops|
  {
    if ops != [] {
      BreakerInvariant(ops[..|ops| - 1], s);
    }
  }

  // Theorem: a closed breaker opens on a failure exactly when it is the threshold-th since the
  // last success (or a later one, for a threshold below one).
  lemma OpensExactly(ops: seq<Operation>, s: Settings)
    requires ops != [] && ops[|ops| - 1].Bad? && Run(ops[..|ops| - 1], s).state == CLOSED
    ensures Run(ops, s).state == OPEN <==> FailuresSince(ops) >= s.threshold
    ensures Run(ops, s).state == OPEN ==> FailuresSince(ops) == Larger(1, s.threshold)
  {
    BreakerInvariant(ops[..|ops| - 1], s);
  }

  // Theorem: the breaker closes exactly on a success reported to a half-open one, and then starts
  // afresh; it reopens exactly on a failure reported to a half-open one, from that moment on.
  lemma ClosesExactly(ops: seq<Operation>, s: Settings)
    requires ops != [] && Run(ops[..|ops| - 1], s).state != CLOSED
    ensures var before, b, last := Run(ops[..|ops| - 1], s), Run(ops, s), ops[|ops| - 1];
      && (b.state == CLOSED <==> before.state == HALF_OPEN && last.Good?)
      && (b.state == CLOSED ==> b == FRESH)
      && (before.state == HALF_OPEN ==>
            && (b.state == OPEN <==> last.Bad?)
            && (b.state == OPEN ==> b.openedAt == Some(last.now) && b.failures == s.threshold))
  {
  }

  // Theorem: an open breaker turns half-open exactly on a request after its cooldown, and hears no
  // report; a half-open one lets nobody else through.
  lemma WaitsExactly(ops: seq<Operation>, s: Settings)
    requires ops != [] && Run(ops[..|ops| - 1], s).state != CLOSED
    ensures var before, b, last := Run(ops[..|ops| - 1], s), Run(ops, s), ops[|ops| - 1];
      && (before.state == OPEN ==>
            && (b.state == HALF_OPEN <==> last.Ask? && last.now >= OpenedAt(before) + s.cooldown)
            && (b.state != HALF_OPEN ==> b == before))
      && (last.Ask? ==> (Allows(before, last.now, s) <==> before.state == OPEN && b.state == HALF_OPEN))
  {
    BreakerInvariant(ops[..|ops| - 1], s);
  }

  // Theorem: a closed breaker lets everybody through, and only a failure opens it, then and there.
  lemma OpensOnlyOnFailure(ops: seq<Operation>, s: Settings)
    requires ops != [] && Run(ops[..|ops| - 1], s).state == CLOSED
    ensures var before, b, last := Run(ops[..|ops| - 1], s), Run(ops, s), ops[|ops| - 1];
      && Allows(before, last.now, s) && b.state != HALF_OPEN
      && (b.state == OPEN ==> last.Bad? && b.openedAt == Some(last.now))
  {
  }

  // The requests admitted by operations from..|ops|.
  function Admitted(ops: seq<Operation>, from: nat, s: Settings): nat
    requires from <= |ops|
    decreases |ops|
  {
    if |ops| == from then 0
    else
      var front, last := ops[..|ops| - 1], ops[|ops| - 1];
      Admitted(front, from, s) + if last.Ask? && Allows(Run(front, s), last.now, s) then 1 else 0
  }

  // The breaker opened at operation p - 1 and has not closed since.
  predicate IsTrippedSince(ops: seq<Operation>, p: nat, s: Settings)
    requires 0 < p <= |ops|
  {
    && Run(ops[..p - 1], s).state == CLOSED
    && forall i :: p <= i <= |ops| ==> Run(ops[..i], s).state != CLOSED
  }

  lemma TrippedBefore(ops: seq<Operation>, p: nat, s: Settings)
    requires 0 < p < |ops| && IsTrippedSince(ops, p, s)
    ensures IsTrippedSince(ops[..|ops| - 1], p, s)
  {
    var front := ops[..|ops| - 1];
    assert front[..p - 1] == ops[..p - 1];
    forall i | p <= i <= |front| ensures Run(front[..i], s).state != CLOSED {
      assert front[..i] == ops[..i];
    }
  }

  function Cooldowns(k: nat, s: Settings): real {
    k as real * s.cooldown
  }

  lemma OneCooldownMore(k: nat, s: Settings)
    ensures Cooldowns(k + 1, s) == Cooldowns(k, s) + s.cooldown && Cooldowns(0, s) == 0.0
  {
  }

  // While tripped: an OPEN breaker opened no earlier than one cooldown for each request admitted
  // since it tripped; a HALF_OPEN one owes that to the trial under way.
  lemma {:induction false} TrippedTiming(ops: seq<Operation>, p: nat, s: Settings)
    requires 0 < p <= |ops| && IsMonotone(ops) && IsTrippedSince(ops, p, s)
    ensures var b, k := Run(ops, s), Admitted(ops, p, s);
      && (b.state == OPEN ==> ops[p - 1].now + Cooldowns(k, s) <= OpenedAt(b) <= ops[|ops| - 1].now)
      && (b.state == HALF_OPEN ==> b.trial && k > 0 && ops[p - 1].now + Cooldowns(k, s) <= ops[|ops| - 1].now)
    decreases |ops|
  {
    var front, last := ops[..|ops| - 1], ops[|ops| - 1];
    assert ops[..|ops|] == ops;
    OneCooldownMore(0, s);
    if p == |ops| {
      hide Cooldowns;
      assert ops[..p - 1] == front;
    } else {
      OneCooldownMore(Admitted(front, p, s), s);
      hide Cooldowns;
      TrippedBefore(ops, p, s);
      TrippedTiming(front, p, s);
      BreakerInvariant(front, s);
      assert ops[|ops| - 2].now <= last.now;
    }
  }

  // Theorem: the k-th request let through since the breaker tripped comes no earlier than k
  // cooldowns after it tripped.
  lemma CooldownBetweenTrials(ops: seq<Operation>, p: nat, s: Settings)
    requires 0 < p < |ops| && IsMonotone(ops) && IsTrippedSince(ops, p, s)
    requires ops[|ops| - 1].Ask? && Allows(Run(ops[..|ops| - 1], s), ops[|ops| - 1].now, s)
    ensures ops[|ops| - 1].now >= ops[p - 1].now + Cooldowns(Admitted(ops, p, s), s)
  {
    TrippedTiming(ops, p, s);
    TrippedBefore(ops, p, s);
    BreakerInvariant(ops[..|ops| - 1], s);
    assert ops[..|ops|] == ops;
    assert Run(ops, s).state == HALF_OPEN;
  }
}
