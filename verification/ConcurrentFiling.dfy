/** The correlation index under concurrent callers: incidents enter it in the order in which their
    recordings finish, while a rebuild goes by the order of their first events. */
module ConcurrentFiling {
  import opened IncidentContracts
  import opened IncidentLog
  import opened IncidentIndexes
  import opened FilingOrder
  import opened ConcurrentProcessing

  function IncidentsOf(cs: seq<Created>): seq<string> {
    if cs == [] then [] else IncidentsOf(cs[..|cs| - 1]) + [cs[|cs| - 1].inc]
  }

  // Its thread has yet to file this incident.
  ghost predicate IsUnfiled(s: Shared, c: Created) {
    exists t :: (PcOf(s, t) == Recording(c.sample, c.inc) || PcOf(s, t) == Cached(c.sample, c.inc))
  }

  // Every created incident is filed or about to be.
  ghost predicate IsCovered(s: Shared) {
    forall c :: c in s.created ==> c in s.filed || IsUnfiled(s, c)
  }

  // A thread's incident is created, and filed only by it.
  ghost predicate IsHeld(s: Shared) {
    forall t :: (PcOf(s, t).Recording? || PcOf(s, t).Cached?) ==>
      Created(PcOf(s, t).sample, PcOf(s, t).inc) in s.created && Created(PcOf(s, t).sample, PcOf(s, t).inc) !in s.filed
  }

  // Filed are created incidents, each of them once.
  ghost predicate IsFiledOnce(s: Shared) {
    && (forall c :: c in s.filed ==> c in s.created)
    && (forall i, j :: 0 <= i < j < |s.filed| ==> s.filed[i] != s.filed[j])
    && (forall i, j :: 0 <= i < j < |s.created| ==> s.created[i].inc != s.created[j].inc)
  }

  ghost predicate FiledMatch(s: Shared) {
    IsCovered(s) && IsHeld(s) && IsFiledOnce(s)
  }

  lemma StepKeepsCovered(s: Shared, step: Step)
    requires IsCovered(s) && Enabled(s, step)
    ensures IsCovered(Perform(s, step))
  {
    var s' := Perform(s, step);
    forall c | c in s'.created ensures c in s'.filed || IsUnfiled(s', c) {
      if c !in s.created {
        assert PcOf(s', step.t) == Recording(c.sample, c.inc);
      } else if c !in s.filed {
        UnfiledAfter(s, step, c);
      }
    }
  }

  lemma UnfiledAfter(s: Shared, step: Step, c: Created)
    requires IsUnfiled(s, c) && Enabled(s, step)
    ensures IsUnfiled(Perform(s, step), c) || c in Perform(s, step).filed
  {
    var s' := Perform(s, step);
    var t :| PcOf(s, t) == Recording(c.sample, c.inc) || PcOf(s, t) == Cached(c.sample, c.inc);
    if t != step.t {
      PcAfter(s, step, t);
    }
    assert PcOf(s', t) == Recording(c.sample, c.inc) || PcOf(s', t) == Cached(c.sample, c.inc) || step.File?;
  }

  lemma StepKeepsHeld(s: Shared, step: Step)
    requires IsHeld(s) && (forall c :: c in s.filed ==> c in s.created) && MarksMatch(s) && Enabled(s, step)
    ensures IsHeld(Perform(s, step))
  {
    var s' := Perform(s, step);
    forall u | u != step.t ensures PcOf(s', u) == PcOf(s, u) { PcAfter(s, step, u); }
  }

  lemma StepKeepsFiledOnce(s: Shared, step: Step)
    requires IsFiledOnce(s) && IsHeld(s) && Enabled(s, step)
    ensures IsFiledOnce(Perform(s, step))
  {
  }

  lemma StepKeepsFiled(s: Shared, step: Step)
    requires FiledMatch(s) && Inv(s) && Enabled(s, step)
    ensures FiledMatch(Perform(s, step))
  {
    hide IsCovered, IsHeld, Perform, Enabled, MarksMatch;
    StepKeepsCovered(s, step);
    StepKeepsHeld(s, step);
    StepKeepsFiledOnce(s, step);
  }

  // Filing these incidents, one after the other, into an index.
  function FiledInto(base: map<string, seq<string>>, cs: seq<Created>, keyOf: string -> string): map<string, seq<string>> {
    if cs == [] then base
    else AddTo(FiledInto(base, cs[..|cs| - 1], keyOf), keyOf(cs[|cs| - 1].sample), cs[|cs| - 1].inc)
  }

  // The live index against the one the manager started with.
  ghost predicate IndexIsFiled(s: Shared, start: Shared) {
    s.keyOf == start.keyOf && s.correlation == FiledInto(start.correlation, s.filed, s.keyOf)
  }

  lemma StepKeepsIndexFiled(s: Shared, step: Step, start: Shared)
    requires IndexIsFiled(s, start) && Enabled(s, step)
    ensures IndexIsFiled(Perform(s, step), start)
  {
    hide AddTo;
    if step.File? {
      var c := Created(PcOf(s, step.t).sample, PcOf(s, step.t).inc);
      assert (s.filed + [c])[..|s.filed|] == s.filed;
    }
  }

  lemma {:induction false} RunFiles(states: seq<Shared>, steps: seq<Step>, n: nat)
    requires IsRun(states, steps) && n < |states|
    ensures FiledMatch(states[n]) && IndexIsFiled(states[n], states[0])
    decreases n
  {
    hide IsRun, Inv, Perform, Enabled;
    RunLength(states, steps);
    if n > 0 {
      RunFiles(states, steps, n - 1);
      RunStep(states, steps, n - 1);
      StepKeepsFiled(states[n - 1], steps[n - 1]);
      StepKeepsIndexFiled(states[n - 1], steps[n - 1], states[0]);
    }
  }

  // The log was written under the keys the callers use.
  predicate KeysMatch(log: seq<Event>, cs: seq<Created>, keyOf: string -> string) {
    forall c :: c in cs ==> KeyOf(log, c.inc) == keyOf(c.sample)
  }

  lemma {:induction false} FiledIsGrouped(log: seq<Event>, first: seq<string>, cs: seq<Created>, keyOf: string -> string)
    requires KeysMatch(log, cs, keyOf)
    ensures FiledInto(Grouped(log, first), cs, keyOf) == Grouped(log, first + IncidentsOf(cs))
    decreases |cs|
  {
    hide KeyOf, AddTo;
    if cs == [] {
      assert first + IncidentsOf(cs) == first;
    } else {
      var front, last := cs[..|cs| - 1], cs[|cs| - 1];
      assert last in cs;
      FiledIsGrouped(log, first, front, keyOf);
      assert (first + IncidentsOf(cs))[..|first + IncidentsOf(cs)| - 1] == first + IncidentsOf(front);
    }
  }

  lemma {:induction false} IncidentsOfEach(cs: seq<Created>)
    ensures |IncidentsOf(cs)| == |cs| && forall i :: 0 <= i < |cs| ==> IncidentsOf(cs)[i] == cs[i].inc
    decreases |cs|
  {
    if cs != [] {
      IncidentsOfEach(cs[..|cs| - 1]);
    }
  }

  // No thread is inside process().
  ghost predicate IsQuiet(s: Shared) {
    forall t :: PcOf(s, t).Outside?
  }

  lemma QuietIsFiled(s: Shared)
    requires FiledMatch(s) && IsQuiet(s)
    ensures var a, b := IncidentsOf(s.created), IncidentsOf(s.filed);
      AreDistinct(a) && AreDistinct(b) && SameMembers(a, b)
  {
    var a, b := IncidentsOf(s.created), IncidentsOf(s.filed);
    IncidentsOfEach(s.created);
    IncidentsOfEach(s.filed);
    forall x | x in a ensures x in b {
      var i :| 0 <= i < |a| && a[i] == x;
      assert s.created[i] in s.created;
      var j :| 0 <= j < |s.filed| && s.filed[j] == s.created[i];
      assert b[j] == x;
    }
    forall x | x in b ensures x in a {
      var i :| 0 <= i < |b| && b[i] == x;
      assert s.filed[i] in s.created;
      var j :| 0 <= j < |s.created| && s.created[j] == s.filed[i];
      assert a[j] == x;
    }
    forall i, j | 0 <= i < j < |b| ensures b[i] != b[j] {
      assert s.filed[i] in s.created && s.filed[j] in s.created;
    }
  }

  // Theorem: once all callers are done, the live correlation index is the one a rebuild would give
  // exactly when, within each key, recordings finished in the order in which they began.
  lemma CorrelationOrder(states: seq<Shared>, steps: seq<Step>, n: nat, log: seq<Event>, first: seq<string>)
    requires IsRun(states, steps) && n < |states| && IsQuiet(states[n])
    requires states[0].correlation == Grouped(log, first) && Incidents(log) == first + IncidentsOf(states[n].created)
    requires KeysMatch(log, states[n].created, states[0].keyOf)
    ensures states[n].correlation == CorrelationIndexOf(log)
      <==> KeepsOrder(log, IncidentsOf(states[n].created), IncidentsOf(states[n].filed))
  {
    hide IsRun, Grouped, KeyOf, Incidents, KeepsOrder, IncidentsOf, FiledInto;
    var s := states[n];
    var a, b := IncidentsOf(s.created), IncidentsOf(s.filed);
    RunFiles(states, steps, n);
    QuietIsFiled(s);
    IncidentsDistinct(log);
    ExchangeRest(first, a, b);
    GroupedExactly(log, first + a, first + b);
    KeepsOrderAfter(log, first, a, b);
    FiledIsGrouped(log, first, s.filed, s.keyOf);
  }

  // ---- The sample index -----------------------------------------------------------------------------

  // Whatever the sample index gained since the start are incidents created since then.
  ghost predicate IndexedMatch(s: Shared, start: Shared) {
    && (forall t :: PcOf(s, t).Filed? ==> Created(PcOf(s, t).sample, PcOf(s, t).inc) in s.filed)
    && (forall c :: c in s.filed ==> c in s.created)
    && (forall sample :: sample in s.sampleIndex ==>
          || (sample in start.sampleIndex && start.sampleIndex[sample] == s.sampleIndex[sample])
          || Created(sample, s.sampleIndex[sample]) in s.created)
  }

  lemma StepKeepsIndexed(s: Shared, step: Step, start: Shared)
    requires IndexedMatch(s, start) && FiledMatch(s) && Enabled(s, step)
    ensures IndexedMatch(Perform(s, step), start)
  {
    var s' := Perform(s, step);
    forall u | u != step.t ensures PcOf(s', u) == PcOf(s, u) { PcAfter(s, step, u); }
  }

  lemma {:induction false} RunIndexes(states: seq<Shared>, steps: seq<Step>, n: nat)
    requires IsRun(states, steps) && n < |states|
    ensures IndexedMatch(states[n], states[0])
    decreases n
  {
    hide Inv, Perform, Enabled, FiledMatch, IndexIsFiled;
    if n == 0 {
      StartIsIndexed(states[0]);
    } else {
      RunIndexes(states, steps, n - 1);
      RunStep(states, steps, n - 1);
      RunFiles(states, steps, n - 1);
      StepKeepsIndexed(states[n - 1], steps[n - 1], states[0]);
    }
  }

  lemma StartIsIndexed(s: Shared)
    requires IsInitial(s)
    ensures IndexedMatch(s, s)
  {
  }

  // Indexing these incidents, one after the other.
  function IndexedInto(base: map<string, string>, cs: seq<Created>): map<string, string> {
    if cs == [] then base else IndexedInto(base, cs[..|cs| - 1])[cs[|cs| - 1].sample := cs[|cs| - 1].inc]
  }

  predicate HasSample(cs: seq<Created>, sample: string) {
    exists i :: 0 <= i < |cs| && cs[i].sample == sample
  }

  lemma {:induction false} IndexedEach(base: map<string, string>, cs: seq<Created>, sample: string)
    requires forall i, j :: 0 <= i < j < |cs| ==> cs[i].sample != cs[j].sample
    ensures forall i :: 0 <= i < |cs| && cs[i].sample == sample ==> sample in IndexedInto(base, cs) && IndexedInto(base, cs)[sample] == cs[i].inc
    ensures !HasSample(cs, sample) ==> (sample in IndexedInto(base, cs) <==> sample in base)
    ensures !HasSample(cs, sample) && sample in base ==> IndexedInto(base, cs)[sample] == base[sample]
    decreases |cs|
  {
    if cs != [] {
      IndexedEach(base, cs[..|cs| - 1], sample);
      assert cs[|cs| - 1].sample == sample ==> HasSample(cs, sample);
      assert HasSample(cs[..|cs| - 1], sample) ==> HasSample(cs, sample);
    }
  }

  lemma {:induction false} IndexedIsSampled(log: seq<Event>, first: seq<string>, cs: seq<Created>)
    requires forall c :: c in cs ==> c.sample != "" && IsSampled(log, c.inc, c.sample)
    ensures IndexedInto(Sampled(log, first), cs) == Sampled(log, first + IncidentsOf(cs))
    decreases |cs|
  {
    hide IsDone, SampleOf, Own;
    if cs == [] {
      assert first + IncidentsOf(cs) == first;
    } else {
      var front, last := cs[..|cs| - 1], cs[|cs| - 1];
      assert last in cs;
      IndexedIsSampled(log, first, front);
      assert first + IncidentsOf(cs) == first + IncidentsOf(front) + [last.inc];
      SampledPlus(log, first + IncidentsOf(front), last.inc);
    }
  }

  // What the sample index holds once all callers are done.
  lemma QuietIndex(states: seq<Shared>, steps: seq<Step>, n: nat)
    requires IsRun(states, steps) && n < |states| && IsQuiet(states[n])
    ensures states[n].sampleIndex == IndexedInto(states[0].sampleIndex, states[n].created)
  {
    var s, base := states[n], states[0].sampleIndex;
    RunKeepsInv(states, steps, n);
    RunIndexes(states, steps, n);
    hide IsRun, IndexedInto, MarksMatch, BusyIsFresh, CachedIsDone, IndexIsDone;
    var m := IndexedInto(base, s.created);
    forall sample ensures (sample in s.sampleIndex <==> sample in m) && (sample in m ==> s.sampleIndex[sample] == m[sample]) {
      IndexedEach(base, s.created, sample);
      if HasSample(s.created, sample) {
        var i :| 0 <= i < |s.created| && s.created[i].sample == sample;
        assert sample in s.sampleIndex && s.sampleIndex[sample] == s.created[i].inc;
      } else if sample in base {
        IndexStays(states, steps, 0, n, sample);
      }
    }
  }

  // Theorem: once all callers are done, the live sample index is the one a rebuild would give,
  // in whatever order the recordings began and finished.
  lemma SampleIndexAgrees(states: seq<Shared>, steps: seq<Step>, n: nat, log: seq<Event>, first: seq<string>)
    requires IsRun(states, steps) && n < |states| && IsQuiet(states[n])
    requires states[0].sampleIndex == Sampled(log, first) && Incidents(log) == first + IncidentsOf(states[n].created)
    requires forall c :: c in states[n].created ==> c.sample != "" && IsSampled(log, c.inc, c.sample)
    ensures states[n].sampleIndex == SampleIndexOf(log)
  {
    hide IsRun, Sampled, Incidents, IndexedInto, IsSampled, IsQuiet;
    QuietIndex(states, steps, n);
    IndexedIsSampled(log, first, states[n].created);
  }

  // ---- An overtaken recording --------------------------------------------------------------------

  lemma RunOneMore(states: seq<Shared>, steps: seq<Step>, step: Step)
    requires IsRun(states, steps) && Enabled(states[|steps|], step)
    ensures IsRun(states + [Perform(states[|steps|], step)], steps + [step])
  {
    hide Perform, Enabled, IsInitial;
  }

  function Last(states: seq<Shared>): Shared
    requires states != []
  {
    states[|states| - 1]
  }

  // A thread records the rest of its incident and leaves.
  lemma FinishOne(states: seq<Shared>, steps: seq<Step>, t: nat) returns (states': seq<Shared>, steps': seq<Step>)
    requires IsRun(states, steps) && PcOf(Last(states), t).Recording?
    ensures IsRun(states', steps') && states'[0] == states[0]
    ensures var s, s', pc := Last(states), Last(states'), PcOf(Last(states), t);
      && s'.created == s.created && s'.correlation == AddTo(s.correlation, s.keyOf(pc.sample), pc.inc) && s'.keyOf == s.keyOf
      && PcOf(s', t).Outside? && (forall u :: u != t ==> PcOf(s', u) == PcOf(s, u))
  {
    hide IsRun, AddTo;
    RunLength(states, steps);
    var s0 := Last(states);
    var s1 := Perform(s0, Cache(t, RESOLVED));
    var s2 := Perform(s1, File(t));
    var s3 := Perform(s2, Index(t));
    var s4 := Perform(s3, Leave(t));
    RunOneMore(states, steps, Cache(t, RESOLVED));
    RunOneMore(states + [s1], steps + [Cache(t, RESOLVED)], File(t));
    RunOneMore(states + [s1] + [s2], steps + [Cache(t, RESOLVED)] + [File(t)], Index(t));
    RunOneMore(states + [s1] + [s2] + [s3], steps + [Cache(t, RESOLVED)] + [File(t)] + [Index(t)], Leave(t));
    states', steps' := states + [s1] + [s2] + [s3] + [s4], steps + [Cache(t, RESOLVED)] + [File(t)] + [Index(t)] + [Leave(t)];
  }

  // Two threads begin to record two samples of one key.
  lemma BeginTwo(keyOf: string -> string, x: Created, y: Created) returns (states: seq<Shared>, steps: seq<Step>)
    requires x.sample != y.sample && x.inc != y.inc
    ensures IsRun(states, steps) && states[0].correlation == map[] && states[0].keyOf == keyOf
    ensures var s := Last(states);
      && s.created == [x, y] && s.correlation == map[] && s.keyOf == keyOf
      && PcOf(s, 0) == Recording(x.sample, x.inc) && PcOf(s, 1) == Recording(y.sample, y.inc)
      && forall u :: u > 1 ==> PcOf(s, u).Outside?
  {
    hide IsRun;
    var s0 := Shared(keyOf, map[], map[], map[], {}, map[], [], [], []);
    StartOfRun(s0);
    var s1 := Perform(s0, Enter(0, x.sample));
    var s2 := Perform(s1, Begin(0, x.inc));
    var s3 := Perform(s2, Enter(1, y.sample));
    var s4 := Perform(s3, Begin(1, y.inc));
    RunOneMore([s0], [], Enter(0, x.sample));
    RunOneMore([s0] + [s1], [] + [Enter(0, x.sample)], Begin(0, x.inc));
    RunOneMore([s0] + [s1] + [s2], [] + [Enter(0, x.sample)] + [Begin(0, x.inc)], Enter(1, y.sample));
    RunOneMore([s0] + [s1] + [s2] + [s3], [] + [Enter(0, x.sample)] + [Begin(0, x.inc)] + [Enter(1, y.sample)], Begin(1, y.inc));
    states, steps := [s0] + [s1] + [s2] + [s3] + [s4], [] + [Enter(0, x.sample)] + [Begin(0, x.inc)] + [Enter(1, y.sample)] + [Begin(1, y.inc)];
  }

  lemma StartOfRun(s: Shared)
    requires IsInitial(s)
    ensures IsRun([s], [])
  {
  }

  // Theorem: for any two samples of one key there is a run in which the second recording overtakes
  // the first; the key's incidents then stand in the live index in the reverse of their order.
  lemma Overtaken(keyOf: string -> string, x: Created, y: Created) returns (states: seq<Shared>, steps: seq<Step>)
    requires x.sample != y.sample && x.inc != y.inc && keyOf(x.sample) == keyOf(y.sample)
    ensures IsRun(states, steps) && IsQuiet(Last(states)) && Last(states).created == [x, y]
    ensures states[0].correlation == map[] && Last(states).correlation == map[keyOf(x.sample) := [y.inc, x.inc]]
  {
    hide IsRun;
    states, steps := BeginTwo(keyOf, x, y);
    states, steps := FinishOne(states, steps, 1);
    assert [] + [y.inc] == [y.inc] && [y.inc] + [x.inc] == [y.inc, x.inc];
    states, steps := FinishOne(states, steps, 0);
  }
}
