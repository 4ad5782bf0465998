/** How often a stage can publish a result for one event when a single consumer works on it at
    a time and idempotency keys do not expire: once, plus once for every crash of that consumer
    and every publish or mark that raised.  Handled failures and retries cost nothing. */
module PipelineDuplicates {
  import opened Wrappers
  import opened Messages
  import opened WorkerProtocol
  import opened Pipeline
  import opened PipelineSafety

  // At most one worker of the stage is in the middle of an entry.
  ghost predicate Sole(c: Chain, k: nat) {
    forall p, q :: p in c.processes && q in c.processes && WorksOn(c.processes[p], k) && WorksOn(c.processes[q], k) ==> p == q
  }

  predicate WorksOn(s: Process, k: nat) {
    s.stage == k && Active(s.worker.pc)
  }

  // The results published for an event at first hand; later retries of a result are the next
  // stage's own doing and carry a positive retry count.
  predicate IsResult(m: Message, id: string) {
    m.causationId == Some(id) && m.retryCount == 0
  }

  function Results(log: seq<Message>, id: string): nat {
    if log == [] then 0
    else Results(log[..|log| - 1], id) + if IsResult(log[|log| - 1], id) then 1 else 0
  }

  predicate IsFault(c: Chain, step: Step, k: nat) {
    match step
    case Crash(p) => p in c.processes && c.processes[p].stage == k
    case Talk(p, x, _, _) =>
      p in c.processes && c.processes[p].stage == k && x.reply.Raised? && (x.call.XAddOutput? || x.call.SetKey?)
    case _ => false
  }

  function Faults(states: seq<Chain>, steps: seq<Step>, k: nat, n: nat): nat
    requires n <= |steps| < |states|
  {
    if n == 0 then 0
    else Faults(states, steps, k, n - 1) + if IsFault(states[n - 1], steps[n - 1], k) then 1 else 0
  }

  // A run in which stage k has one consumer at a time and keeps its keys.
  ghost predicate IsSequentialRun(cfg: Config, states: seq<Chain>, steps: seq<Step>, k: nat) {
    && IsRun(cfg, states, steps)
    && (forall i :: 0 <= i < |states| ==> Sole(states[i], k))
    && (forall i :: 0 <= i < |steps| ==> !(steps[i].Expire? && steps[i].stage == k))
  }

  // Some worker has published for the event and is about to mark it.
  predicate Committed(c: Chain, k: nat, id: string) {
    exists p :: p in c.processes && IsMarking(c.processes[p], k, id)
  }

  predicate IsMarking(s: Process, k: nat, id: string) {
    s.stage == k && s.worker.pc.Marking? && s.worker.pc.entry.message.eventId == id
  }

  predicate IsBeforePublishing(s: Process, k: nat, id: string) {
    s.stage == k && (s.worker.pc.Handling? || s.worker.pc.Publishing?) && s.worker.pc.entry.message.eventId == id
  }

  ghost predicate Bounded(c: Chain, k: nat, id: string, faults: nat)
    requires Shape(c) && k < STAGES
  {
    && Results(c.brokers[k + 1].log, id) <= faults + (if id in c.brokers[k].marks || Committed(c, k, id) then 1 else 0)
    && forall p :: p in c.processes && IsBeforePublishing(c.processes[p], k, id) ==> id !in c.brokers[k].marks
  }

  lemma ResultsAppend(log: seq<Message>, m: Message, id: string)
    ensures Results(log + [m], id) == Results(log, id) + if IsResult(m, id) then 1 else 0
  {
  }

  predicate Publishes(s: Process, k: nat, id: string) {
    s.stage == k && s.worker.pc.Publishing? && s.worker.pc.entry.message.eventId == id
  }

  lemma LogAfter(cfg: Config, c: Chain, p: nat, x: Exchange, landed: bool, lost: nat, j: nat)
    requires CanTalk(cfg, c, p, x, landed, lost) && j <= STAGES
    ensures var c' := Perform(cfg, c, Talk(p, x, landed, lost));
      && Shape(c')
      && c'.brokers[j].log
         == if landed && (x.call.XAddInput? || x.call.XAddOutput?) && Target(c.processes[p].stage, x.call) == j
            then c.brokers[j].log + [x.call.m] else c.brokers[j].log
  {
    hide Perform, Enabled, LogOk, GroupOk, DeadOk, MarksOk, WorkerOk, RootsOk;
    BrokerAfter(cfg, c, p, x, landed, lost, j);
  }

  // What is appended to stream k + 1 is a result for the event exactly when a worker of stage k
  // publishes for it.
  lemma AppendedResult(cfg: Config, c: Chain, p: nat, x: Exchange, landed: bool, lost: nat, k: nat, id: string)
    requires CanTalk(cfg, c, p, x, landed, lost) && k < STAGES
    requires (x.call.XAddInput? || x.call.XAddOutput?) && Target(c.processes[p].stage, x.call) == k + 1
    ensures IsResult(x.call.m, id) <==> Publishes(c.processes[p], k, id)
  {
    var s := c.processes[p];
    assert WorkerOk(cfg, c, s.stage, s.worker);
  }

  lemma PublishingAppends(cfg: Config, c: Chain, p: nat, x: Exchange, landed: bool, lost: nat, k: nat, id: string)
    requires CanTalk(cfg, c, p, x, landed, lost) && k < STAGES
    ensures p in c.processes && c.processes[p].stage < STAGES
    ensures Publishes(c.processes[p], k, id) ==> x.call.XAddOutput? && Target(c.processes[p].stage, x.call) == k + 1
  {
  }

  // The results for an event grow by one exactly when a worker of the stage publishes for it.
  lemma ResultsAfter(cfg: Config, c: Chain, p: nat, x: Exchange, landed: bool, lost: nat, k: nat, id: string)
    requires CanTalk(cfg, c, p, x, landed, lost) && k < STAGES
    ensures var c' := Perform(cfg, c, Talk(p, x, landed, lost));
      Shape(c') && Results(c'.brokers[k + 1].log, id)
        == Results(c.brokers[k + 1].log, id) + if landed && Publishes(c.processes[p], k, id) then 1 else 0
  {
    hide Perform, Enabled, LogOk, GroupOk, DeadOk, MarksOk, WorkerOk, RootsOk, Effect, Results, IsResult, Publishes;
    PublishingAppends(cfg, c, p, x, landed, lost, k, id);
    LogAfter(cfg, c, p, x, landed, lost, k + 1);
    if (x.call.XAddInput? || x.call.XAddOutput?) && Target(c.processes[p].stage, x.call) == k + 1 {
      ResultsAppend(c.brokers[k + 1].log, x.call.m, id);
      AppendedResult(cfg, c, p, x, landed, lost, k, id);
    }
  }

  lemma MarksAfter(cfg: Config, c: Chain, p: nat, x: Exchange, landed: bool, lost: nat, k: nat)
    requires CanTalk(cfg, c, p, x, landed, lost) && k < STAGES
    ensures var c' := Perform(cfg, c, Talk(p, x, landed, lost));
      Shape(c') && c'.brokers[k].marks
        == if landed && c.processes[p].stage == k && x.call.SetKey? then c.brokers[k].marks + {x.call.id} else c.brokers[k].marks
  {
    hide Perform, Enabled, LogOk, GroupOk, DeadOk, MarksOk, WorkerOk, RootsOk;
    BrokerAfter(cfg, c, p, x, landed, lost, k);
  }

  lemma OtherStageKeepsBound(cfg: Config, c: Chain, p: nat, x: Exchange, landed: bool, lost: nat, k: nat, id: string, faults: nat)
    requires CanTalk(cfg, c, p, x, landed, lost) && k < STAGES && c.processes[p].stage != k
    requires Bounded(c, k, id, faults)
    ensures var c' := Perform(cfg, c, Talk(p, x, landed, lost));
      Shape(c') && Bounded(c', k, id, faults)
  {
    hide Perform, LogOk, GroupOk, DeadOk, MarksOk, WorkerOk, RootsOk, Effect, Results, Fresh, AllPending, Known, IsReplyTo;
    ResultsAfter(cfg, c, p, x, landed, lost, k, id);
    MarksAfter(cfg, c, p, x, landed, lost, k);
    ProcessAfter(cfg, c, p, x, landed, lost);
    var c' := Perform(cfg, c, Talk(p, x, landed, lost));
    if Committed(c, k, id) {
      var q :| q in c.processes && IsMarking(c.processes[q], k, id);
      assert IsMarking(c'.processes[q], k, id);
    }
  }

  // The consumer in the middle of an entry: nobody else of its stage is.
  lemma ConsumerKeepsBound(cfg: Config, c: Chain, p: nat, x: Exchange, landed: bool, lost: nat, k: nat, id: string, faults: nat)
    requires CanTalk(cfg, c, p, x, landed, lost) && k < STAGES && c.processes[p].stage == k
    requires Active(c.processes[p].worker.pc) && Sole(c, k) && Bounded(c, k, id, faults)
    ensures var c' := Perform(cfg, c, Talk(p, x, landed, lost));
      Shape(c') && Bounded(c', k, id, faults + if IsFault(c, Talk(p, x, landed, lost), k) then 1 else 0)
  {
    ResultsAfter(cfg, c, p, x, landed, lost, k, id);
    MarksAfter(cfg, c, p, x, landed, lost, k);
    NextPoint(cfg, c, p, x, landed, lost, k, id);
    BoundAfter(c, Perform(cfg, c, Talk(p, x, landed, lost)), p, x, landed, k, id, faults);
  }

  // The counting behind the bound, from what one call changes.
  lemma BoundAfter(c: Chain, c': Chain, p: nat, x: Exchange, landed: bool, k: nat, id: string, faults: nat)
    requires Shape(c) && Shape(c') && k < STAGES && p in c.processes && WorksOn(c.processes[p], k)
    requires Sole(c, k) && Bounded(c, k, id, faults)
    requires !x.reply.Raised? ==> landed
    requires c'.processes.Keys == c.processes.Keys
    requires forall q :: q in c.processes && q != p ==> c'.processes[q] == c.processes[q]
    requires Results(c'.brokers[k + 1].log, id)
      == Results(c.brokers[k + 1].log, id) + if landed && Publishes(c.processes[p], k, id) then 1 else 0
    requires c'.brokers[k].marks == if landed && x.call.SetKey? then c.brokers[k].marks + {x.call.id} else c.brokers[k].marks
    requires PointAfter(c, c.processes[p], c'.processes[p], x, k, id)
    ensures Bounded(c', k, id, faults + if x.reply.Raised? && (x.call.XAddOutput? || x.call.SetKey?) then 1 else 0)
  {
    assert forall q :: q in c.processes && q != p ==> !WorksOn(c'.processes[q], k);
    assert Committed(c, k, id) <==> IsMarking(c.processes[p], k, id);
    assert Committed(c', k, id) <==> IsMarking(c'.processes[p], k, id);
  }

  predicate PointAfter(c: Chain, s: Process, s': Process, x: Exchange, k: nat, id: string)
    requires Shape(c) && k < STAGES
  {
    && (IsBeforePublishing(s', k, id) ==> id !in c.brokers[k].marks || IsBeforePublishing(s, k, id))
    && (IsBeforePublishing(s', k, id) ==> !x.call.SetKey?)
    && (IsMarking(s, k, id) ==> x.call == SetKey(id))
    && (Publishes(s, k, id) ==> x.call.XAddOutput? && (IsMarking(s', k, id) || x.reply.Raised?))
  }

  // Only a check that found no mark leads a worker to the handler.
  lemma NextPoint(cfg: Config, c: Chain, p: nat, x: Exchange, landed: bool, lost: nat, k: nat, id: string)
    requires CanTalk(cfg, c, p, x, landed, lost) && k < STAGES && c.processes[p].stage == k
    requires Active(c.processes[p].worker.pc)
    ensures PointAfter(c, c.processes[p], Perform(cfg, c, Talk(p, x, landed, lost)).processes[p], x, k, id)
  {
    hide Perform, LogOk, GroupOk, DeadOk, MarksOk, WorkerOk, RootsOk, Effect, Fresh, AllPending, Known, IsReplyTo;
    ProcessAfter(cfg, c, p, x, landed, lost);
    AdvancePoint(cfg, c, c.processes[p], x, k, id);
  }

  lemma AdvancePoint(cfg: Config, c: Chain, s: Process, x: Exchange, k: nat, id: string)
    requires Shape(c) && k < STAGES && s.stage == k && Active(s.worker.pc)
    requires Issues(s.worker, x.call) && Fits(x.call, x.reply)
    requires x.call.Exists? && x.reply.Found? ==> x.reply.yes == (x.call.id in c.brokers[k].marks)
    ensures PointAfter(c, s, Process(k, Advance(cfg, s.worker, x)), x, k, id)
  {
  }

  // A worker between entries neither publishes nor marks.
  lemma RestingKeepsBound(cfg: Config, c: Chain, p: nat, x: Exchange, landed: bool, lost: nat, k: nat, id: string, faults: nat)
    requires CanTalk(cfg, c, p, x, landed, lost) && k < STAGES && c.processes[p].stage == k
    requires !Active(c.processes[p].worker.pc) && Bounded(c, k, id, faults)
    ensures var c' := Perform(cfg, c, Talk(p, x, landed, lost));
      Shape(c') && Bounded(c', k, id, faults)
  {
    hide Perform, LogOk, GroupOk, DeadOk, MarksOk, WorkerOk, RootsOk, Effect, Results, Fresh, AllPending, Known, IsReplyTo;
    ResultsAfter(cfg, c, p, x, landed, lost, k, id);
    MarksAfter(cfg, c, p, x, landed, lost, k);
    ProcessAfter(cfg, c, p, x, landed, lost);
    var c' := Perform(cfg, c, Talk(p, x, landed, lost));
    if Committed(c, k, id) {
      var q :| q in c.processes && IsMarking(c.processes[q], k, id);
      assert IsMarking(c'.processes[q], k, id);
    }
  }

  lemma QuietStepKeepsBound(cfg: Config, c: Chain, step: Step, k: nat, id: string, faults: nat)
    requires Inv(cfg, c) && Enabled(c, step) && !step.Talk? && !(step.Expire? && step.stage == k)
    requires k < STAGES && Bounded(c, k, id, faults)
    ensures var c' := Perform(cfg, c, step);
      Shape(c') && Bounded(c', k, id, faults + if IsFault(c, step, k) then 1 else 0)
  {
    hide LogOk, GroupOk, DeadOk, MarksOk, WorkerOk, RootsOk;
    var c' := Perform(cfg, c, step);
    assert c'.brokers[k + 1].log == c.brokers[k + 1].log && c'.brokers[k].marks == c.brokers[k].marks;
    hide Results;
    if Committed(c, k, id) {
      var q :| q in c.processes && IsMarking(c.processes[q], k, id);
      if !(step.Crash? && step.p == q) {
        assert IsMarking(c'.processes[q], k, id);
      }
    }
  }

  lemma StepKeepsBound(cfg: Config, c: Chain, step: Step, c': Chain, k: nat, id: string, faults: nat)
    requires Inv(cfg, c) && IsStep(cfg, c, step, c') && k < STAGES
    requires Sole(c, k) && !(step.Expire? && step.stage == k)
    requires Bounded(c, k, id, faults)
    ensures Shape(c') && Bounded(c', k, id, faults + if IsFault(c, step, k) then 1 else 0)
  {
    match step
    case Talk(p, x, landed, lost) =>
      if c.processes[p].stage == k && Active(c.processes[p].worker.pc) {
        ConsumerKeepsBound(cfg, c, p, x, landed, lost, k, id, faults);
      } else if c.processes[p].stage == k {
        RestingKeepsBound(cfg, c, p, x, landed, lost, k, id, faults);
      } else {
        OtherStageKeepsBound(cfg, c, p, x, landed, lost, k, id, faults);
      }
    case _ => QuietStepKeepsBound(cfg, c, step, k, id, faults);
  }

  lemma {:induction false} ReachableBounded(cfg: Config, states: seq<Chain>, steps: seq<Step>, k: nat, n: nat, id: string)
    requires IsSequentialRun(cfg, states, steps, k) && n < |states| && k < STAGES
    ensures Shape(states[n]) && Bounded(states[n], k, id, Faults(states, steps, k, n))
    decreases n
  {
    if n > 0 {
      ReachableBounded(cfg, states, steps, k, n - 1, id);
      ReachableInv(cfg, states, steps, n - 1);
      StepKeepsBound(cfg, states[n - 1], steps[n - 1], states[n], k, id, Faults(states, steps, k, n - 1));
    }
  }

  // ---- Theorem: the duplicate bound -----------------------------------------------------------

  lemma DuplicateBound(cfg: Config, states: seq<Chain>, steps: seq<Step>, k: nat, n: nat, id: string)
    requires IsSequentialRun(cfg, states, steps, k) && n < |states| && k < STAGES
    ensures Shape(states[n])
    ensures Results(states[n].brokers[k + 1].log, id) <= 1 + Faults(states, steps, k, n)
  {
    ReachableBounded(cfg, states, steps, k, n, id);
  }

  lemma {:induction false} ResultsPositive(log: seq<Message>, j: nat, id: string)
    requires j < |log| && IsResult(log[j], id)
    ensures Results(log, id) >= 1
    decreases |log|
  {
    if j < |log| - 1 {
      ResultsPositive(log[..|log| - 1], j, id);
    }
  }

  // Without faults a processed event has exactly one result.
  lemma ExactlyOnce(cfg: Config, states: seq<Chain>, steps: seq<Step>, k: nat, n: nat, id: string)
    requires IsSequentialRun(cfg, states, steps, k) && n < |states| && k < STAGES
    requires Faults(states, steps, k, n) == 0
    requires |states[n].brokers| == STAGES + 1 && id in states[n].brokers[k].everMarked
    ensures Results(states[n].brokers[k + 1].log, id) == 1
  {
    DuplicateBound(cfg, states, steps, k, n, id);
    ReachableInv(cfg, states, steps, n);
    assert MarksOk(states[n], k) && HasOutput(states[n], k, id);
    var log := states[n].brokers[k + 1].log;
    var j: nat :| j < |log| && IsOutputFor(states[n], id, log[j]);
    ResultsPositive(log, j, id);
  }
}
