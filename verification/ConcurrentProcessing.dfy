/** Concurrent callers of process().  Each critical section under the processing lock is one step;
    between them the steps of all threads interleave freely. */
module ConcurrentProcessing {
  import opened IncidentContracts
  import opened IncidentLog

  // Where a thread is inside process().
  datatype Pc =
    | Outside
    | Chain(sample: string)                      // mark set, detection .. defense running
    | Recording(sample: string, inc: string)     // lifecycle events being appended
    | Cached(sample: string, inc: string)        // snapshot cached
    | Filed(sample: string, inc: string)         // in the correlation index, sample index not yet set
    | Leaving(sample: string)                    // finally: the mark is still set

  datatype Created = Created(sample: string, inc: string)

  datatype Answer = Accepted | Returned(inc: string) | Refused

  // The answer of one call, and the sample it was for.
  datatype Call = Call(thread: nat, sample: string, answer: Answer)

  datatype Shared = Shared(
    keyOf: string -> string,
    sampleIndex: map<string, string>,
    correlation: map<string, seq<string>>,
    snapshots: map<string, State>,
    inFlight: set<string>,
    threads: map<nat, Pc>,
    created: seq<Created>,      // in the order of their first events
    filed: seq<Created>,        // in the order of entering the correlation index
    calls: seq<Call>)

  function PcOf(s: Shared, t: nat): Pc {
    if t in s.threads then s.threads[t] else Outside
  }

  datatype Step =
    | Enter(t: nat, sample: string)
    | Begin(t: nat, inc: string)        // the evidence is there: the first lifecycle event
    | Fail(t: nat)                      // something in the chain raises
    | Cache(t: nat, verdict: State)     // the last lifecycle event, and the snapshot
    | File(t: nat)
    | Index(t: nat)
    | Leave(t: nat)

  // The first locked section.
  function Answered(s: Shared, sample: string): Answer {
    if sample in s.sampleIndex && s.sampleIndex[sample] in s.snapshots && IsTerminal(s.snapshots[s.sampleIndex[sample]]) then
      Returned(s.sampleIndex[sample])
    else if sample in s.inFlight then Refused
    else Accepted
  }

  ghost predicate Enabled(s: Shared, step: Step) {
    match step
    case Enter(t, _) => PcOf(s, t).Outside?
    case Begin(t, inc) => PcOf(s, t).Chain? && inc !in s.snapshots && forall i :: 0 <= i < |s.created| ==> s.created[i].inc != inc
    case Fail(t) => PcOf(s, t).Chain?
    case Cache(t, verdict) => PcOf(s, t).Recording? && IsTerminal(verdict)
    case File(t) => PcOf(s, t).Cached?
    case Index(t) => PcOf(s, t).Filed?
    case Leave(t) => PcOf(s, t).Leaving?
  }

  function Perform(s: Shared, step: Step): Shared {
    match step
    case Enter(t, sample) =>
      var answer := Answered(s, sample);
      var s' := s.(calls := s.calls + [Call(t, sample, answer)]);
      if answer.Accepted? then s'.(inFlight := s.inFlight + {sample}, threads := s.threads[t := Chain(sample)]) else s'
    case Begin(t, inc) =>
      if PcOf(s, t).Chain? then
        s.(threads := s.threads[t := Recording(PcOf(s, t).sample, inc)], created := s.created + [Created(PcOf(s, t).sample, inc)])
      else s
    case Fail(t) =>
      if PcOf(s, t).Chain? then s.(threads := s.threads[t := Leaving(PcOf(s, t).sample)]) else s
    case Cache(t, verdict) =>
      if PcOf(s, t).Recording? then
        s.(threads := s.threads[t := Cached(PcOf(s, t).sample, PcOf(s, t).inc)], snapshots := s.snapshots[PcOf(s, t).inc := verdict])
      else s
    case File(t) =>
      if PcOf(s, t).Cached? then
        s.(threads := s.threads[t := Filed(PcOf(s, t).sample, PcOf(s, t).inc)],
           correlation := AddTo(s.correlation, s.keyOf(PcOf(s, t).sample), PcOf(s, t).inc),
           filed := s.filed + [Created(PcOf(s, t).sample, PcOf(s, t).inc)])
      else s
    case Index(t) =>
      if PcOf(s, t).Filed? then
        s.(threads := s.threads[t := Leaving(PcOf(s, t).sample)], sampleIndex := s.sampleIndex[PcOf(s, t).sample := PcOf(s, t).inc])
      else s
    case Leave(t) =>
      if PcOf(s, t).Leaving? then
        s.(threads := s.threads[t := Outside], inFlight := s.inFlight - {PcOf(s, t).sample})
      else s
  }

  predicate IsBusyWith(s: Shared, t: nat, sample: string) {
    !PcOf(s, t).Outside? && PcOf(s, t).sample == sample
  }

  // A manager just built: whatever its index names has a verdict, and nothing is in flight.
  predicate IsInitial(s: Shared) {
    && s.inFlight == {} && s.threads == map[] && s.created == [] && s.filed == [] && s.calls == []
    && IndexIsDone(s)
  }

  predicate IndexIsDone(s: Shared) {
    forall sample :: sample in s.sampleIndex ==> s.sampleIndex[sample] in s.snapshots && IsTerminal(s.snapshots[s.sampleIndex[sample]])
  }

  // The mark of a sample belongs to exactly one thread.
  ghost predicate MarksMatch(s: Shared) {
    && (forall t :: !PcOf(s, t).Outside? ==> PcOf(s, t).sample in s.inFlight)
    && (forall sample :: sample in s.inFlight ==> exists t :: IsBusyWith(s, t, sample))
    && (forall t, u :: !PcOf(s, t).Outside? && !PcOf(s, u).Outside? && PcOf(s, t).sample == PcOf(s, u).sample ==> t == u)
  }

  // An incident on its way into the index.
  ghost predicate IsUnderway(s: Shared, c: Created) {
    exists t :: (PcOf(s, t) == Recording(c.sample, c.inc) || PcOf(s, t) == Cached(c.sample, c.inc) || PcOf(s, t) == Filed(c.sample, c.inc))
  }

  // Each created incident is its sample's only one: indexed, or still held by its thread.
  ghost predicate CreatedAccounted(s: Shared) {
    && (forall i :: 0 <= i < |s.created| ==>
          IsUnderway(s, s.created[i]) || (s.created[i].sample in s.sampleIndex && s.sampleIndex[s.created[i].sample] == s.created[i].inc))
    && (forall i, j :: 0 <= i < j < |s.created| ==> s.created[i].sample != s.created[j].sample)
  }

  // Past the first check, and until it is indexed itself, a thread's sample is not in the index.
  ghost predicate BusyIsFresh(s: Shared) {
    forall t :: (PcOf(s, t).Chain? || PcOf(s, t).Recording? || PcOf(s, t).Cached? || PcOf(s, t).Filed?) ==> PcOf(s, t).sample !in s.sampleIndex
  }

  ghost predicate CachedIsDone(s: Shared) {
    forall t :: (PcOf(s, t).Cached? || PcOf(s, t).Filed?) ==> PcOf(s, t).inc in s.snapshots && IsTerminal(s.snapshots[PcOf(s, t).inc])
  }

  ghost predicate Inv(s: Shared) {
    IndexIsDone(s) && MarksMatch(s) && CreatedAccounted(s) && BusyIsFresh(s) && CachedIsDone(s)
  }

  lemma PcAfter(s: Shared, step: Step, u: nat)
    requires u != step.t
    ensures PcOf(Perform(s, step), u) == PcOf(s, u)
  {
  }

  lemma StepKeepsMarks(s: Shared, step: Step)
    requires MarksMatch(s) && Enabled(s, step)
    ensures MarksMatch(Perform(s, step))
  {
    var s' := Perform(s, step);
    forall u | u != step.t ensures PcOf(s', u) == PcOf(s, u) { PcAfter(s, step, u); }
    forall sample | sample in s'.inFlight ensures exists t :: IsBusyWith(s', t, sample) {
      if sample in s.inFlight {
        var t :| IsBusyWith(s, t, sample);
        assert IsBusyWith(s', t, sample);
      } else {
        assert IsBusyWith(s', step.t, sample);
      }
    }
  }

  lemma StepKeepsDone(s: Shared, step: Step)
    requires IndexIsDone(s) && CachedIsDone(s) && Enabled(s, step)
    ensures IndexIsDone(Perform(s, step)) && CachedIsDone(Perform(s, step))
  {
    var s' := Perform(s, step);
    forall u | u != step.t ensures PcOf(s', u) == PcOf(s, u) { PcAfter(s, step, u); }
  }

  lemma StepKeepsFresh(s: Shared, step: Step)
    requires Inv(s) && Enabled(s, step)
    ensures BusyIsFresh(Perform(s, step))
  {
    hide CreatedAccounted, CachedIsDone;
    var s' := Perform(s, step);
    forall u | u != step.t ensures PcOf(s', u) == PcOf(s, u) { PcAfter(s, step, u); }
  }

  lemma StepKeepsCreated(s: Shared, step: Step)
    requires Inv(s) && Enabled(s, step)
    ensures CreatedAccounted(Perform(s, step))
  {
    var s' := Perform(s, step);
    forall u | u != step.t ensures PcOf(s', u) == PcOf(s, u) { PcAfter(s, step, u); }
    forall i | 0 <= i < |s'.created|
      ensures IsUnderway(s', s'.created[i]) || (s'.created[i].sample in s'.sampleIndex && s'.sampleIndex[s'.created[i].sample] == s'.created[i].inc)
      ensures i < |s.created| ==> s'.created[i] == s.created[i]
    {
      var c := s'.created[i];
      if i < |s.created| {
        assert c == s.created[i];
        if IsUnderway(s, c) {
          var t :| PcOf(s, t) == Recording(c.sample, c.inc) || PcOf(s, t) == Cached(c.sample, c.inc) || PcOf(s, t) == Filed(c.sample, c.inc);
          assert (step.Index? && step.t == t) || PcOf(s', t) == Recording(c.sample, c.inc) || PcOf(s', t) == Cached(c.sample, c.inc) || PcOf(s', t) == Filed(c.sample, c.inc);
        }
      } else {
        assert PcOf(s', step.t) == Recording(c.sample, c.inc);
      }
    }
    if step.Begin? {
      NoneUnderwayYet(s, step.t);
    }
  }

  // A thread in the chain has no rival: no incident was created for its sample so far.
  lemma NoneUnderwayYet(s: Shared, t: nat)
    requires Inv(s) && PcOf(s, t).Chain?
    ensures forall i :: 0 <= i < |s.created| ==> s.created[i].sample != PcOf(s, t).sample
  {
  }

  lemma StepKeepsInv(s: Shared, step: Step)
    requires Inv(s) && Enabled(s, step)
    ensures Inv(Perform(s, step))
  {
    StepKeepsMarks(s, step);
    StepKeepsDone(s, step);
    StepKeepsFresh(s, step);
    StepKeepsCreated(s, step);
  }

  // ---- Runs -------------------------------------------------------------------------------------

  ghost predicate IsRun(states: seq<Shared>, steps: seq<Step>) {
    && |states| == |steps| + 1 && IsInitial(states[0])
    && forall i :: 0 <= i < |steps| ==> Enabled(states[i], steps[i]) && states[i + 1] == Perform(states[i], steps[i])
  }

  lemma {:induction false} RunKeepsInv(states: seq<Shared>, steps: seq<Step>, n: nat)
    requires IsRun(states, steps) && n < |states|
    ensures Inv(states[n])
    decreases n
  {
    if n > 0 {
      RunKeepsInv(states, steps, n - 1);
      StepKeepsInv(states[n - 1], steps[n - 1]);
    }
  }

  // Theorem: at most one thread works on a sample at a time, and it is marked as in flight
  // exactly while one does.
  lemma Exclusive(states: seq<Shared>, steps: seq<Step>, n: nat, t: nat, u: nat, sample: string)
    requires IsRun(states, steps) && n < |states|
    ensures IsBusyWith(states[n], t, sample) && IsBusyWith(states[n], u, sample) ==> t == u
    ensures sample in states[n].inFlight <==> exists v :: IsBusyWith(states[n], v, sample)
  {
    RunKeepsInv(states, steps, n);
  }

  lemma RunStep(states: seq<Shared>, steps: seq<Step>, n: nat)
    requires IsRun(states, steps) && n < |steps|
    ensures |states| == |steps| + 1 && Enabled(states[n], steps[n]) && states[n + 1] == Perform(states[n], steps[n])
    ensures Inv(states[n])
  {
    hide Inv;
    RunKeepsInv(states, steps, n);
  }

  lemma StepKeepsEntry(s: Shared, step: Step, sample: string)
    requires Inv(s) && Enabled(s, step) && sample in s.sampleIndex
    ensures sample in Perform(s, step).sampleIndex && Perform(s, step).sampleIndex[sample] == s.sampleIndex[sample]
  {
  }

  lemma {:induction false} IndexStays(states: seq<Shared>, steps: seq<Step>, n: nat, m: nat, sample: string)
    requires IsRun(states, steps) && n <= m < |states| && sample in states[n].sampleIndex
    ensures sample in states[m].sampleIndex && states[m].sampleIndex[sample] == states[n].sampleIndex[sample]
    decreases m
  {
    hide IsRun, Inv, Perform, Enabled;
    if n < m {
      RunLength(states, steps);
      RunStep(states, steps, m - 1);
      IndexStays(states, steps, n, m - 1, sample);
      StepKeepsEntry(states[m - 1], steps[m - 1], sample);
    }
  }

  lemma RunLength(states: seq<Shared>, steps: seq<Step>)
    requires IsRun(states, steps)
    ensures |states| == |steps| + 1 && IsInitial(states[0])
  {
  }

  // Theorem: one incident at most is ever created for a sample, and none if it had one before.
  lemma OneIncidentPerSample(states: seq<Shared>, steps: seq<Step>, n: nat, i: nat, j: nat)
    requires IsRun(states, steps) && n < |states| && i < |states[n].created| && j < |states[n].created|
    requires states[n].created[i].sample == states[n].created[j].sample
    ensures i == j && states[n].created[i].sample !in states[0].sampleIndex
  {
    RunKeepsInv(states, steps, n);
    var c := states[n].created[i];
    if c.sample in states[0].sampleIndex {
      IndexStays(states, steps, 0, n, c.sample);
      CreatedIsNew(states, steps, n, i);
    }
  }

  // A step creates at most one incident, of a sample not in the index.
  lemma StepCreates(s: Shared, step: Step)
    requires Inv(s) && Enabled(s, step)
    ensures s.created <= Perform(s, step).created && |Perform(s, step).created| <= |s.created| + 1
    ensures |Perform(s, step).created| == |s.created| + 1 ==> Perform(s, step).created[|s.created|].sample !in s.sampleIndex
  {
  }

  lemma {:induction false} CreatedIsNew(states: seq<Shared>, steps: seq<Step>, n: nat, i: nat)
    requires IsRun(states, steps) && n < |states| && i < |states[n].created|
    ensures states[n].created[i].sample !in states[0].sampleIndex
    decreases n
  {
    hide IsRun, Inv, Perform, Enabled;
    RunLength(states, steps);
    if n > 0 {
      RunStep(states, steps, n - 1);
      StepCreates(states[n - 1], steps[n - 1]);
      if i < |states[n - 1].created| {
        CreatedIsNew(states, steps, n - 1, i);
      } else if states[n].created[i].sample in states[0].sampleIndex {
        IndexStays(states, steps, 0, n - 1, states[n].created[i].sample);
      }
    }
  }

  // Theorem: once a sample is indexed, every later call for it returns that one incident; before,
  // a call is refused exactly when another thread is at work on the sample.
  lemma LaterCallsReturn(states: seq<Shared>, steps: seq<Step>, n: nat, m: nat, sample: string)
    requires IsRun(states, steps) && n <= m < |steps| && steps[m].Enter? && steps[m].sample == sample
    ensures var call := states[m + 1].calls[|states[m + 1].calls| - 1];
      && call.sample == sample && call.thread == steps[m].t
      && (sample in states[n].sampleIndex ==> call.answer == Returned(states[n].sampleIndex[sample]))
      && (sample !in states[m].sampleIndex ==> (call.answer.Refused? <==> exists v :: IsBusyWith(states[m], v, sample)))
  {
    RunKeepsInv(states, steps, m);
    if sample in states[n].sampleIndex {
      IndexStays(states, steps, n, m, sample);
    }
  }
}
