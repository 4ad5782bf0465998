/** The simulated network: one mutable object per target, copies as snapshots, injected faults,
    the executor that mutates it and the independent verification that reads it back. */
module SimulatedNetwork {
  import opened Wrappers
  import opened DefenseActions

  class SourceState {
    var target: string
    var blocked: bool
    var isolated: bool
    var rateLimited: bool
    var monitored: bool
    var level: Level
    var active: nat
    var suspended: nat
    var terminated: bool

    function View(): Fields
      reads this
    {
      Fields(target, blocked, isolated, rateLimited, monitored, level, active, suspended, terminated)
    }

    constructor (target: string)
      ensures View() == Default(target)
    {
      this.target := target;
      blocked, isolated, rateLimited, monitored, level := false, false, false, false, BASELINE;
      active, suspended, terminated := 1, 0, false;
    }

    constructor Copy(o: SourceState)
      ensures View() == o.View()
    {
      target, blocked, isolated, rateLimited := o.target, o.blocked, o.isolated, o.rateLimited;
      monitored, level, active, suspended, terminated := o.monitored, o.level, o.active, o.suspended, o.terminated;
    }

    method ApplyFull(a: Action)
      modifies this
      ensures View() == Full(a, old(View())) && TouchesOnly(a, old(View()), View())
    {
      FullTouchesOnly(a, View());
      match a
      case MONITOR => monitored := true;
      case INCREASE_MONITORING => monitored := true; level := INCREASED;
      case RATE_LIMIT => rateLimited := true;
      case ISOLATE => isolated := true; suspended := suspended + active; active := 0;
      case BLOCK => blocked := true; rateLimited := true; active := 0;
      case TERMINATE => terminated := true; active := 0;
      case Unknown(_) =>
    }

    method ApplyPartial(a: Action)
      modifies this
      ensures View() == Partial(a, old(View())) && TouchesOnly(a, old(View()), View())
    {
      PartialTouchesOnly(a, View());
      match a
      case INCREASE_MONITORING => monitored := true;
      case ISOLATE => suspended := suspended + active; active := 0;
      case BLOCK => rateLimited := true;
      case _ =>
    }
  }

  // The fault set, and what it will have become at each coming attempt: callers may inject and
  // clear faults in between.
  datatype Schedule = Schedule(faulty: set<string>, changes: seq<set<string>>)

  function Tick(s: Schedule): Schedule {
    if s.changes == [] then s else Schedule(s.changes[0], s.changes[1..])
  }

  // Whether each of the next n attempts on the target will meet a fault.
  function FaultsAhead(s: Schedule, target: string, n: nat): (r: seq<bool>)
    ensures |r| == n
    ensures s.changes == [] ==> forall k :: 0 <= k < n ==> r[k] == (target in s.faulty)
    decreases n
  {
    if n == 0 then [] else [target in Tick(s).faulty] + FaultsAhead(Tick(s), target, n - 1)
  }

  lemma FaultsStep(s: Schedule, target: string, n: nat)
    ensures FaultsAhead(s, target, 0) == []
    ensures FaultsAhead(s, target, n + 1) == [target in Tick(s).faulty] + FaultsAhead(Tick(s), target, n)
  {
  }

  class SimulatedNetworkState {
    var sources: map<string, SourceState>
    var schedule: Schedule

    // No two targets share an object.
    ghost predicate Valid()
      reads this
    {
      forall t, u :: t in sources && u in sources && t != u ==> sources[t] != sources[u]
    }

    // An absent target counts as a fresh default one.
    ghost function At(t: string): Fields
      reads this, sources.Values
    {
      if t in sources then sources[t].View() else Default(t)
    }

    // Every other target: the very object it had, holding the very values it held.
    ghost function Others(target: string): map<string, (SourceState, Fields)>
      reads this, sources.Values
    {
      map t | t in sources && t != target :: (sources[t], sources[t].View())
    }

    // The whole network: which objects, what they hold, and the faults to come.
    ghost function Whole(): (map<string, SourceState>, map<string, Fields>, Schedule)
      reads this, sources.Values
    {
      (sources, map t | t in sources :: sources[t].View(), schedule)
    }

    constructor ()
      ensures Valid() && sources == map[] && schedule == Schedule({}, [])
    {
      sources, schedule := map[], Schedule({}, []);
    }

    method GetOrCreate(target: string) returns (s: SourceState)
      requires Valid()
      modifies this`sources
      ensures Valid() && target in sources && s == sources[target]
      ensures At(target) == old(At(target)) && Others(target) == old(Others(target))
      ensures if target in old(sources) then sources == old(sources) else fresh(s) && sources == old(sources)[target := s]
    {
      if target !in sources {
        var fresh' := new SourceState(target);
        sources := sources[target := fresh'];
      }
      s := sources[target];
      assert Others(target) == old(Others(target));
    }

    method Snapshot(target: string) returns (copy: SourceState)
      requires Valid()
      modifies this`sources
      ensures Valid() && target in sources && fresh(copy) && copy !in sources.Values && copy.View() == old(At(target))
      ensures At(target) == old(At(target)) && Others(target) == old(Others(target))
      ensures if target in old(sources) then sources == old(sources) else fresh(sources[target]) && sources == old(sources)[target := sources[target]]
    {
      var s := GetOrCreate(target);
      copy := new SourceState.Copy(s);
      assert Others(target) == old(Others(target));
    }

    method Restore(target: string, snapshot: SourceState)
      requires Valid()
      modifies this`sources
      ensures Valid() && target in sources && fresh(sources[target]) && sources == old(sources)[target := sources[target]]
      ensures At(target) == snapshot.View() && Others(target) == old(Others(target))
    {
      var copy := new SourceState.Copy(snapshot);
      sources := sources[target := copy];
      assert Others(target) == old(Others(target));
    }

    method ShouldFail(target: string) returns (b: bool)
      modifies this`schedule
      ensures schedule == Tick(old(schedule)) && b == (target in schedule.faulty)
    {
      schedule := Tick(schedule);
      b := target in schedule.faulty;
    }
  }

  datatype Execution = Execution(succeeded: bool, before: SourceState, after: SourceState)

  class SimulatedDefenseExecutor {
    const state: SimulatedNetworkState

    constructor (state: SimulatedNetworkState)
      ensures this.state == state
    {
      this.state := state;
    }

    // One attempt's effect on the stored object.
    method Strike(a: Action, target: string, source: SourceState) returns (fails: bool)
      requires state.Valid() && target in state.sources && state.sources[target] == source
      modifies state`schedule, source
      ensures state.Valid() && state.schedule == Tick(old(state.schedule)) && fails == (target in state.schedule.faulty)
      ensures state.At(target) == Apply(a, fails, old(state.At(target))) && state.Others(target) == old(state.Others(target))
    {
      ghost var others := state.Others(target);
      fails := state.ShouldFail(target);
      if fails {
        source.ApplyPartial(a);
      } else {
        source.ApplyFull(a);
      }
      assert state.Others(target) == others;
    }

    // One attempt; None where the call raises.  The executor's own claim of success is the
    // absence of a fault, whatever became of the target.
    method Execute(a: Action, target: string) returns (r: Option<Execution>)
      requires state.Valid()
      modifies state, state.sources.Values
      ensures state.Valid()
      ensures r.None? <==> !IsKnown(a)
      ensures r.None? ==> state.Whole() == old(state.Whole())
      ensures r.Some? ==> target in state.sources && state.schedule == Tick(old(state.schedule))
      ensures r.Some? ==> r.value.succeeded == (target !in state.schedule.faulty)
      ensures r.Some? ==> state.At(target) == Apply(a, !r.value.succeeded, old(state.At(target)))
      ensures r.Some? ==> fresh(r.value.before) && r.value.before !in state.sources.Values && r.value.before.View() == old(state.At(target))
      ensures r.Some? ==> r.value.after.View() == state.At(target)
      ensures state.Others(target) == old(state.Others(target))
      ensures fresh(state.sources.Values - old(state.sources.Values))
    {
      if !IsKnown(a) { return None; }
      var before := state.Snapshot(target);
      var source := state.GetOrCreate(target);
      var fails := Strike(a, target, source);
      var after := state.Snapshot(target);
      r := Some(Execution(!fails, before, after));
    }

    // Puts back every field, from the copy taken before the action.
    method Rollback(target: string, snapshot: SourceState) returns (r: Execution)
      requires state.Valid()
      modifies state`sources
      ensures state.Valid() && state.At(target) == snapshot.View() && r.succeeded
      ensures target in state.sources && fresh(state.sources[target]) && state.sources[target] != snapshot
      ensures state.Others(target) == old(state.Others(target))
      ensures fresh(state.sources.Values - old(state.sources.Values))
    {
      var before := state.Snapshot(target);
      state.Restore(target, snapshot);
      var after := state.Snapshot(target);
      r := Execution(after.View() == snapshot.View(), before, after);
    }
  }

  // Reads the state afresh; knows nothing of what an executor claimed.  None: the call raises.
  method Verify(state: SimulatedNetworkState, a: Action, target: string) returns (verified: Option<bool>)
    requires state.Valid()
    ensures verified.None? <==> target in state.sources && !IsKnown(a)
    ensures verified.Some? ==> (verified.value <==> target in state.sources && IsReached(a, state.At(target)))
  {
    if target !in state.sources { return Some(false); }
    var s := state.sources[target];
    match a
    case MONITOR => verified := Some(s.monitored);
    case INCREASE_MONITORING => verified := Some(s.level == INCREASED);
    case RATE_LIMIT => verified := Some(s.rateLimited);
    case ISOLATE =>
      var suspended := s.active == 0 && s.suspended > 0;
      verified := Some(s.isolated && suspended);
    case BLOCK => verified := Some(s.blocked && s.rateLimited && s.active == 0);
    case TERMINATE => verified := Some(s.terminated && s.active == 0);
    case Unknown(_) => verified := None;
  }

  method VerifyRollback(state: SimulatedNetworkState, target: string, expected: SourceState) returns (matches: bool)
    requires state.Valid()
    ensures matches <==> target in state.sources && state.At(target) == expected.View()
  {
    matches := target in state.sources && state.sources[target].View() == expected.View();
  }
}
