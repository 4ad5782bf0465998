/** What every reachable state of the pipeline satisfies: no event is lost at a stage, no
    incident is lost along the chain, and every message descends from exactly one ingest. */
module PipelineSafety {
  import opened Wrappers
  import opened Messages
  import opened WorkerProtocol
  import opened Pipeline

  // ---- One call of one worker -------------------------------------------------------------

  ghost predicate CanTalk(cfg: Config, c: Chain, p: nat, x: Exchange, landed: bool, lost: nat) {
    Inv(cfg, c) && Enabled(c, Talk(p, x, landed, lost))
  }

  // What a call does to each stream's broker.
  lemma BrokerAfter(cfg: Config, c: Chain, p: nat, x: Exchange, landed: bool, lost: nat, j: nat)
    requires CanTalk(cfg, c, p, x, landed, lost) && j <= STAGES
    ensures p in c.processes && c.processes[p].stage < STAGES
    ensures var c', t := Perform(cfg, c, Talk(p, x, landed, lost)), Target(c.processes[p].stage, x.call);
      && Shape(c')
      && c'.brokers[j] == (if landed && j == t then Effect(c.brokers[t], x, ReadSize(x, lost)) else c.brokers[j])
      && (x.call.XReadGroup? ==> c.brokers[t].delivered + ReadSize(x, lost) <= |c.brokers[t].log|)
  {
  }

  lemma EffectGrows(b: Broker, x: Exchange, n: nat)
    requires GroupOk(b) && (x.call.XReadGroup? ==> b.delivered + n <= |b.log|)
    ensures var b' := Effect(b, x, n);
      BrokerGrows(b, b') && b'.delivered <= |b'.log| && b'.marks <= b'.everMarked
  {
  }

  lemma TalkGrows(cfg: Config, c: Chain, p: nat, x: Exchange, landed: bool, lost: nat)
    requires CanTalk(cfg, c, p, x, landed, lost)
    ensures var c' := Perform(cfg, c, Talk(p, x, landed, lost));
      && Grows(c, c')
      && (forall k: nat :: k <= STAGES ==> c'.brokers[k].delivered <= |c'.brokers[k].log| && c'.brokers[k].marks <= c'.brokers[k].everMarked)
  {
    IdentityGrows(cfg, c, p, x, landed, lost);
    hide Perform, Enabled, LogOk, DeadOk, MarksOk, WorkerOk, RootsOk, Effect;
    forall j: nat | j <= STAGES
      ensures var c' := Perform(cfg, c, Talk(p, x, landed, lost));
        && Shape(c') && BrokerGrows(c.brokers[j], c'.brokers[j])
        && c'.brokers[j].delivered <= |c'.brokers[j].log| && c'.brokers[j].marks <= c'.brokers[j].everMarked
    {
      BrokerAfter(cfg, c, p, x, landed, lost, j);
      assert GroupOk(c.brokers[j]);
      if landed && j == Target(c.processes[p].stage, x.call) {
        EffectGrows(c.brokers[j], x, ReadSize(x, lost));
      }
    }
  }

  lemma IdentityGrows(cfg: Config, c: Chain, p: nat, x: Exchange, landed: bool, lost: nat)
    requires CanTalk(cfg, c, p, x, landed, lost)
    ensures var c' := Perform(cfg, c, Talk(p, x, landed, lost));
      Shape(c') && forall id :: id in c.identity ==> id in c'.identity && c'.identity[id] == c.identity[id]
  {
    hide LogOk, GroupOk, DeadOk, MarksOk, WorkerOk, RootsOk, Effect;
  }

  // The facts of the worker that made the call, at its new program point.
  lemma TalkerOk(cfg: Config, c: Chain, p: nat, x: Exchange, landed: bool, lost: nat)
    requires CanTalk(cfg, c, p, x, landed, lost)
    ensures var c' := Perform(cfg, c, Talk(p, x, landed, lost));
      Shape(c') && WorkerOk(cfg, c', c.processes[p].stage, c'.processes[p].worker)
  {
    TalkGrows(cfg, c, p, x, landed, lost);
    var k, w := c.processes[p].stage, c.processes[p].worker;
    assert WorkerOk(cfg, c, k, w);
    if Active(w.pc) {
      PcAdvances(cfg, c, p, x, landed, lost);
      QueueAdvances(cfg, c, p, x, landed, lost);
    } else {
      BatchArrives(cfg, c, p, x, landed, lost);
    }
  }

  lemma ProcessAfter(cfg: Config, c: Chain, p: nat, x: Exchange, landed: bool, lost: nat)
    requires CanTalk(cfg, c, p, x, landed, lost)
    ensures p in c.processes && Issues(c.processes[p].worker, x.call) && Fits(x.call, x.reply)
    ensures Perform(cfg, c, Talk(p, x, landed, lost)).processes
      == c.processes[p := Process(c.processes[p].stage, Advance(cfg, c.processes[p].worker, x))]
  {
  }

  // What a batch holds is in the log, and delivered once the read has taken effect.
  lemma BatchIsGood(cfg: Config, c: Chain, p: nat, x: Exchange, landed: bool, lost: nat, y: Entry)
    requires CanTalk(cfg, c, p, x, landed, lost) && x.reply.Batch? && y in x.reply.entries
    ensures p in c.processes && c.processes[p].stage < STAGES
    ensures EntryOk(Effect(c.brokers[c.processes[p].stage], x, ReadSize(x, lost)), y) && landed
  {
    assert GroupOk(c.brokers[c.processes[p].stage]);
    hide LogOk, DeadOk, MarksOk, WorkerOk, RootsOk, Resolved;
  }

  lemma BatchArrives(cfg: Config, c: Chain, p: nat, x: Exchange, landed: bool, lost: nat)
    requires CanTalk(cfg, c, p, x, landed, lost) && !Active(c.processes[p].worker.pc)
    ensures var c' := Perform(cfg, c, Talk(p, x, landed, lost));
      Shape(c') && WorkerOk(cfg, c', c.processes[p].stage, c'.processes[p].worker)
  {
    hide Perform, Enabled, LogOk, GroupOk, DeadOk, MarksOk, RootsOk, WorkerOk, Effect, EntryOk, Settle;
    ProcessAfter(cfg, c, p, x, landed, lost);
    var k := c.processes[p].stage;
    BrokerAfter(cfg, c, p, x, landed, lost, k);
    var c' := Perform(cfg, c, Talk(p, x, landed, lost));
    if x.reply.Batch? {
      forall y | y in x.reply.entries ensures EntryOk(c'.brokers[k], y) {
        BatchIsGood(cfg, c, p, x, landed, lost, y);
      }
      BatchWorkerOk(cfg, c', k, x.reply.entries);
    } else {
      DeadWorkerOk(cfg, c', k);
    }
  }

  lemma BatchWorkerOk(cfg: Config, c: Chain, k: nat, entries: seq<Entry>)
    requires Shape(c) && k < STAGES && forall y :: y in entries ==> EntryOk(c.brokers[k], y)
    ensures WorkerOk(cfg, c, k, Settle(entries, Idle))
  {
    hide EntryOk;
  }

  lemma DeadWorkerOk(cfg: Config, c: Chain, k: nat)
    requires Shape(c) && k < STAGES
    ensures WorkerOk(cfg, c, k, DEAD)
  {
  }

  // Taking up the next entry of a good queue.
  lemma SettledQueue(b: Broker, w: Worker, pc: Pc)
    requires (forall y :: y in w.queue ==> EntryOk(b, y)) && (Active(pc) ==> EntryOk(b, pc.entry))
    ensures QueueOk(b, Settle(w.queue, pc))
  {
  }

  lemma QueueAdvances(cfg: Config, c: Chain, p: nat, x: Exchange, landed: bool, lost: nat)
    requires CanTalk(cfg, c, p, x, landed, lost) && Active(c.processes[p].worker.pc)
    ensures var c' := Perform(cfg, c, Talk(p, x, landed, lost));
      var k := c.processes[p].stage;
      Shape(c') && QueueOk(c'.brokers[k], c'.processes[p].worker)
  {
    TalkGrows(cfg, c, p, x, landed, lost);
    var c' := Perform(cfg, c, Talk(p, x, landed, lost));
    var k, w := c.processes[p].stage, c.processes[p].worker;
    var b, b' := c.brokers[k], c'.brokers[k];
    assert WorkerOk(cfg, c, k, w) && BrokerGrows(b, b');
    hide LogOk, GroupOk, DeadOk, MarksOk, RootsOk, PcOk, Effect, Honest, EntryOk, BrokerGrows;
    forall y | y in w.queue ensures EntryOk(b', y) { EntryGrows(b, b', y); }
    EntryGrows(b, b', w.pc.entry);
    SettledQueue(b', w, Resume(cfg, w.pc, x.reply));
  }

  lemma PcAdvances(cfg: Config, c: Chain, p: nat, x: Exchange, landed: bool, lost: nat)
    requires CanTalk(cfg, c, p, x, landed, lost) && Active(c.processes[p].worker.pc)
    ensures var c' := Perform(cfg, c, Talk(p, x, landed, lost));
      var k := c.processes[p].stage;
      Shape(c') && PcOk(cfg, c', k, c'.brokers[k], Resume(cfg, c.processes[p].worker.pc, x.reply))
  {
    var c' := Perform(cfg, c, Talk(p, x, landed, lost));
    var k, pc := c.processes[p].stage, c.processes[p].worker.pc;
    var b, b' := c.brokers[k], c'.brokers[k];
    BrokerAfter(cfg, c, p, x, landed, lost, k);
    assert WorkerOk(cfg, c, k, c.processes[p].worker) && GroupOk(b);
    if !x.reply.Raised? && pc.Publishing? {
      PublishedIsOutput(cfg, c, p, x, landed, lost);
    } else if !x.reply.Raised? && pc.Handling? {
      HandledIsKnown(cfg, c, p, x, landed, lost);
    } else {
      SimpleAdvance(cfg, c, c', k, pc, x, landed, ReadSize(x, lost));
    }
  }

  // Every program point that rests on the stage's own broker alone.
  lemma SimpleAdvance(cfg: Config, c: Chain, c': Chain, k: nat, pc: Pc, x: Exchange, landed: bool, n: nat)
    requires Shape(c) && Shape(c') && k < STAGES
    requires Active(pc) && x.call == Issue(pc) && Fits(x.call, x.reply) && (!x.reply.Raised? ==> landed)
    requires x.reply.Raised? || !(pc.Publishing? || pc.Handling?)
    requires c'.brokers[k] == if landed && !pc.Publishing? then Effect(c.brokers[k], x, n) else c.brokers[k]
    requires PcOk(cfg, c, k, c.brokers[k], pc) && EntryOk(c.brokers[k], pc.entry) && c.brokers[k].marks <= c.brokers[k].everMarked
    requires pc.Checking? && !x.reply.Raised? ==> x.reply.yes == (pc.entry.message.eventId in c.brokers[k].marks)
    ensures PcOk(cfg, c', k, c'.brokers[k], Resume(cfg, pc, x.reply))
  {
    hide Known, HasOutput, Span;
    var b' := c'.brokers[k];
    if !x.reply.Raised? && pc.Requeueing? {
      assert b'.log[|b'.log| - 1].eventId == pc.entry.message.eventId;
    } else if !x.reply.Raised? && pc.Burying? {
      assert b'.dead[|b'.dead| - 1].eventId == pc.entry.message.eventId;
    }
  }

  lemma HandledIsKnown(cfg: Config, c: Chain, p: nat, x: Exchange, landed: bool, lost: nat)
    requires CanTalk(cfg, c, p, x, landed, lost) && c.processes[p].worker.pc.Handling? && !x.reply.Raised?
    ensures x.reply.Returned? && x.reply.result.Some?
    ensures var c', out := Perform(cfg, c, Talk(p, x, landed, lost)), x.reply.result.value;
      Shape(c') && Known(c', out) && IsReplyTo(c.processes[p].worker.pc.entry.message, c.processes[p].stage, out)
  {
    hide LogOk, GroupOk, DeadOk, MarksOk, WorkerOk, RootsOk, Effect;
  }

  lemma PublishedIsOutput(cfg: Config, c: Chain, p: nat, x: Exchange, landed: bool, lost: nat)
    requires CanTalk(cfg, c, p, x, landed, lost) && c.processes[p].worker.pc.Publishing? && !x.reply.Raised?
    ensures var c' := Perform(cfg, c, Talk(p, x, landed, lost));
      Shape(c') && HasOutput(c', c.processes[p].stage, c.processes[p].worker.pc.entry.message.eventId)
  {
    var c' := Perform(cfg, c, Talk(p, x, landed, lost));
    var k, pc := c.processes[p].stage, c.processes[p].worker.pc;
    assert WorkerOk(cfg, c, k, c.processes[p].worker);
    assert LogOk(cfg, c, k) && MessageOk(cfg, c, k, c.brokers[k].log[pc.entry.index]);
    var log' := c'.brokers[k + 1].log;
    assert log'[|log'| - 1] == pc.out;
    assert IsOutputFor(c', pc.entry.message.eventId, log'[|log'| - 1]);
  }

  // The message a call appends to a stream fits that stream.
  lemma AppendedOk(cfg: Config, c: Chain, c': Chain, stage: nat, w: Worker, m: Message)
    requires Inv(cfg, c) && Grows(c, c') && stage < STAGES
    requires WorkerOk(cfg, c, stage, w) && Active(w.pc)
    requires Issue(w.pc) == XAddInput(m) || Issue(w.pc) == XAddOutput(m)
    ensures MessageOk(cfg, c', Target(stage, Issue(w.pc)), m)
  {
    var b, y := c.brokers[stage], w.pc.entry;
    assert LogOk(cfg, c, stage) && MessageOk(cfg, c, stage, b.log[y.index]);
    if w.pc.Requeueing? {
      MessageKeeps(cfg, c, c', stage, y.message);
    } else {
      assert HasParent(b.log, m);
      MessageKeeps(cfg, c, c', stage + 1, m);
    }
  }

  lemma TalkKeepsLogs(cfg: Config, c: Chain, p: nat, x: Exchange, landed: bool, lost: nat)
    requires CanTalk(cfg, c, p, x, landed, lost)
    ensures var c' := Perform(cfg, c, Talk(p, x, landed, lost));
      Shape(c') && forall j: nat :: j <= STAGES ==> LogOk(cfg, c', j)
  {
    TalkGrows(cfg, c, p, x, landed, lost);
    var c' := Perform(cfg, c, Talk(p, x, landed, lost));
    var k, w := c.processes[p].stage, c.processes[p].worker;
    assert WorkerOk(cfg, c, k, w);
    if x.call.XAddInput? || x.call.XAddOutput? {
      AppendedOk(cfg, c, c', k, w, x.call.m);
    }
    forall j: nat | j <= STAGES ensures LogOk(cfg, c', j) {
      assert LogOk(cfg, c, j);
      LogKeeps(cfg, c, c', j);
    }
  }

  lemma TalkKeepsRoots(cfg: Config, c: Chain, p: nat, x: Exchange, landed: bool, lost: nat)
    requires CanTalk(cfg, c, p, x, landed, lost)
    ensures var c' := Perform(cfg, c, Talk(p, x, landed, lost));
      Shape(c') && RootsOk(c')
  {
    RequeueIsCopy(cfg, c, p, x, landed, lost);
    hide Perform, Enabled, LogOk, GroupOk, DeadOk, MarksOk, WorkerOk;
    BrokerAfter(cfg, c, p, x, landed, lost, 0);
  }

  // A worker requeues only a copy of an entry of its own stream.
  lemma RequeueIsCopy(cfg: Config, c: Chain, p: nat, x: Exchange, landed: bool, lost: nat)
    requires CanTalk(cfg, c, p, x, landed, lost)
    ensures p in c.processes && c.processes[p].stage < STAGES
    ensures var log := c.brokers[c.processes[p].stage].log;
      x.call.XAddInput? ==> exists i :: 0 <= i < |log| && log[i].incidentId == x.call.m.incidentId && log[i].eventId == x.call.m.eventId
  {
    var k, w := c.processes[p].stage, c.processes[p].worker;
    assert WorkerOk(cfg, c, k, w);
    if x.call.XAddInput? {
      assert c.brokers[k].log[w.pc.entry.index] == w.pc.entry.message;
    }
  }

  // An acknowledgement comes only after the entry is resolved, a burial only of an entry of the
  // stream whose retries are used up.
  lemma CallIsDue(cfg: Config, c: Chain, p: nat, x: Exchange, landed: bool, lost: nat)
    requires CanTalk(cfg, c, p, x, landed, lost)
    ensures var b := c.brokers[c.processes[p].stage];
      && (x.call.XAck? ==> x.call.index < b.delivered <= |b.log| && Resolved(b, x.call.index, b.log[x.call.index].eventId))
      && (x.call.XAddDead? ==> x.call.m in b.log && x.call.m.retryCount == cfg.maxRetries)
  {
    var k, w := c.processes[p].stage, c.processes[p].worker;
    assert WorkerOk(cfg, c, k, w) && LogOk(cfg, c, k);
    assert Active(w.pc) ==> MessageOk(cfg, c, k, w.pc.entry.message);
  }

  lemma EffectKeepsGroup(b: Broker, x: Exchange, n: nat)
    requires GroupOk(b) && (x.call.XReadGroup? ==> b.delivered + n <= |b.log|)
    requires x.call.XAck? && x.call.index < b.delivered ==> Resolved(b, x.call.index, b.log[x.call.index].eventId)
    ensures GroupOk(Effect(b, x, n))
  {
    var b' := Effect(b, x, n);
    var acked: set<nat> := if x.call.XAck? then {x.call.index} else {};
    assert b'.pending == b.pending - acked + Span(b.delivered, b'.delivered);
    GroupKeeps(b, b', acked);
  }

  lemma TalkKeepsGroups(cfg: Config, c: Chain, p: nat, x: Exchange, landed: bool, lost: nat)
    requires CanTalk(cfg, c, p, x, landed, lost)
    ensures var c' := Perform(cfg, c, Talk(p, x, landed, lost));
      Shape(c') && forall j: nat :: j <= STAGES ==> GroupOk(c'.brokers[j]) && DeadOk(cfg, c'.brokers[j])
  {
    CallIsDue(cfg, c, p, x, landed, lost);
    hide Perform, Enabled, LogOk, GroupOk, MarksOk, WorkerOk, RootsOk, Resolved, Effect, DeadOk, BrokerGrows;
    forall j: nat | j <= STAGES
      ensures var c' := Perform(cfg, c, Talk(p, x, landed, lost)); Shape(c') && GroupOk(c'.brokers[j]) && DeadOk(cfg, c'.brokers[j])
    {
      BrokerAfter(cfg, c, p, x, landed, lost, j);
      if landed && j == Target(c.processes[p].stage, x.call) {
        EffectKeepsGroup(c.brokers[j], x, ReadSize(x, lost));
        EffectKeepsDead(cfg, c.brokers[j], x, ReadSize(x, lost));
      }
    }
  }

  lemma EffectKeepsDead(cfg: Config, b: Broker, x: Exchange, n: nat)
    requires DeadOk(cfg, b) && (x.call.XAddDead? ==> x.call.m in b.log && x.call.m.retryCount == cfg.maxRetries)
    ensures DeadOk(cfg, Effect(b, x, n))
  {
  }

  // A key is set only when the result is on the next stream.
  lemma MarkIsDue(cfg: Config, c: Chain, p: nat, x: Exchange, landed: bool, lost: nat)
    requires CanTalk(cfg, c, p, x, landed, lost)
    ensures p in c.processes && c.processes[p].stage < STAGES
    ensures x.call.SetKey? ==> HasOutput(c, c.processes[p].stage, x.call.id)
  {
    assert WorkerOk(cfg, c, c.processes[p].stage, c.processes[p].worker);
  }

  lemma TalkKeepsMarks(cfg: Config, c: Chain, p: nat, x: Exchange, landed: bool, lost: nat)
    requires CanTalk(cfg, c, p, x, landed, lost)
    ensures var c' := Perform(cfg, c, Talk(p, x, landed, lost));
      Shape(c') && forall j: nat :: j < STAGES ==> MarksOk(c', j)
  {
    TalkGrows(cfg, c, p, x, landed, lost);
    MarkIsDue(cfg, c, p, x, landed, lost);
    var c' := Perform(cfg, c, Talk(p, x, landed, lost));
    hide Perform, Enabled, LogOk, DeadOk, GroupOk, RootsOk, WorkerOk, HasOutput, Grows;
    forall j: nat, id | j < STAGES && id in c'.brokers[j].everMarked ensures HasOutput(c', j, id) {
      BrokerAfter(cfg, c, p, x, landed, lost, j);
      assert MarksOk(c, j);
      OutputGrows(c, c', j, id);
    }
  }

  lemma TalkKeepsInv(cfg: Config, c: Chain, p: nat, x: Exchange, landed: bool, lost: nat)
    requires CanTalk(cfg, c, p, x, landed, lost)
    ensures Inv(cfg, Perform(cfg, c, Talk(p, x, landed, lost)))
  {
    var c' := Perform(cfg, c, Talk(p, x, landed, lost));
    TalkGrows(cfg, c, p, x, landed, lost);
    TalkKeepsLogs(cfg, c, p, x, landed, lost);
    TalkKeepsRoots(cfg, c, p, x, landed, lost);
    TalkKeepsGroups(cfg, c, p, x, landed, lost);
    TalkKeepsMarks(cfg, c, p, x, landed, lost);
    hide Perform, Enabled, LogOk, GroupOk, DeadOk, MarksOk, WorkerOk, RootsOk, Effect;
    forall q | q in c'.processes ensures WorkerOk(cfg, c', c'.processes[q].stage, c'.processes[q].worker) {
      if q == p {
        TalkerOk(cfg, c, p, x, landed, lost);
      } else {
        WorkerKeeps(cfg, c, c', c.processes[q].stage, c.processes[q].worker);
      }
    }
  }

  // ---- The other steps -----------------------------------------------------------------------

  lemma IngestKeepsInv(cfg: Config, c: Chain, m: Message)
    requires Inv(cfg, c) && Enabled(c, Ingest(m))
    ensures Inv(cfg, Perform(cfg, c, Ingest(m)))
  {
    var c' := Perform(cfg, c, Ingest(m));
    assert GroupOk(c.brokers[0]) && LogOk(cfg, c, 0);
    forall k: nat | k <= STAGES ensures BrokerGrows(c.brokers[k], c'.brokers[k]) {}
    forall k: nat | k <= STAGES ensures LogOk(cfg, c', k) && GroupOk(c'.brokers[k]) && DeadOk(cfg, c'.brokers[k]) {
      assert LogOk(cfg, c, k) && GroupOk(c.brokers[k]) && DeadOk(cfg, c.brokers[k]);
      LogKeeps(cfg, c, c', k);
      GroupKeeps(c.brokers[k], c'.brokers[k], {});
      DeadKeeps(cfg, c.brokers[k], c'.brokers[k]);
    }
    forall k: nat, id | k < STAGES && id in c'.brokers[k].everMarked ensures HasOutput(c', k, id) {
      assert MarksOk(c, k);
      OutputGrows(c, c', k, id);
    }
    forall q | q in c'.processes ensures WorkerOk(cfg, c', c'.processes[q].stage, c'.processes[q].worker) {
      WorkerKeeps(cfg, c, c', c.processes[q].stage, c.processes[q].worker);
    }
    var log := c.brokers[0].log;
    forall i | 0 <= i < |log| ensures log[i].incidentId != m.incidentId {
      assert MessageOk(cfg, c, 0, log[i]);
    }
  }

  lemma ExpireKeepsInv(cfg: Config, c: Chain, stage: nat, id: string)
    requires Inv(cfg, c) && Enabled(c, Expire(stage, id))
    ensures Inv(cfg, Perform(cfg, c, Expire(stage, id)))
  {
    var c' := Perform(cfg, c, Expire(stage, id));
    assert GroupOk(c.brokers[stage]);
    forall k: nat | k <= STAGES ensures BrokerGrows(c.brokers[k], c'.brokers[k]) {}
    forall k: nat | k <= STAGES ensures LogOk(cfg, c', k) && GroupOk(c'.brokers[k]) && DeadOk(cfg, c'.brokers[k]) {
      assert LogOk(cfg, c, k) && GroupOk(c.brokers[k]) && DeadOk(cfg, c.brokers[k]);
      LogKeeps(cfg, c, c', k);
      GroupKeeps(c.brokers[k], c'.brokers[k], {});
    }
    forall k: nat, id | k < STAGES && id in c'.brokers[k].everMarked ensures HasOutput(c', k, id) {
      assert MarksOk(c, k);
      OutputGrows(c, c', k, id);
    }
    forall q | q in c'.processes ensures WorkerOk(cfg, c', c'.processes[q].stage, c'.processes[q].worker) {
      WorkerKeeps(cfg, c, c', c.processes[q].stage, c.processes[q].worker);
    }
  }

  // Starting a worker, or losing one between two calls, touches no stream.
  lemma RestartKeepsInv(cfg: Config, c: Chain, step: Step)
    requires Inv(cfg, c) && Enabled(c, step) && (step.Spawn? || step.Crash?)
    ensures Inv(cfg, Perform(cfg, c, step))
  {
    var c' := Perform(cfg, c, step);
    assert forall k: nat :: k <= STAGES ==> BrokerGrows(c.brokers[k], c'.brokers[k]);
    assert Grows(c, c');
    forall k: nat | k <= STAGES ensures LogOk(cfg, c', k) && GroupOk(c'.brokers[k]) && DeadOk(cfg, c'.brokers[k]) {
      assert LogOk(cfg, c, k) && GroupOk(c.brokers[k]) && DeadOk(cfg, c.brokers[k]);
      LogKeeps(cfg, c, c', k);
    }
    forall k: nat, id | k < STAGES && id in c'.brokers[k].everMarked ensures HasOutput(c', k, id) {
      assert MarksOk(c, k);
      OutputGrows(c, c', k, id);
    }
    forall q | q in c'.processes ensures WorkerOk(cfg, c', c'.processes[q].stage, c'.processes[q].worker) {
      assert GroupOk(c.brokers[c'.processes[q].stage]);
      if q != step.p {
        WorkerKeeps(cfg, c, c', c.processes[q].stage, c.processes[q].worker);
      }
    }
  }

  lemma StepKeepsInv(cfg: Config, c: Chain, step: Step, c': Chain)
    requires Inv(cfg, c) && IsStep(cfg, c, step, c')
    ensures Inv(cfg, c')
  {
    match step
    case Ingest(m) => IngestKeepsInv(cfg, c, m);
    case Talk(p, x, landed, lost) => TalkKeepsInv(cfg, c, p, x, landed, lost);
    case Expire(stage, id) => ExpireKeepsInv(cfg, c, stage, id);
    case _ => RestartKeepsInv(cfg, c, step);
  }

  lemma {:induction false} ReachableInv(cfg: Config, states: seq<Chain>, steps: seq<Step>, n: nat)
    requires IsRun(cfg, states, steps) && n < |states|
    ensures Inv(cfg, states[n])
    decreases n
  {
    if n > 0 {
      ReachableInv(cfg, states, steps, n - 1);
      assert IsStep(cfg, states[n - 1], steps[n - 1], states[n]);
      StepKeepsInv(cfg, states[n - 1], steps[n - 1], states[n]);
    }
  }

  // ---- Theorem: no event is lost at a stage ------------------------------------------------

  // An entry that is still to be worked on: not delivered yet, or delivered and unacknowledged.
  predicate IsLive(b: Broker, i: nat) {
    i < |b.log| && (i >= b.delivered || i in b.pending)
  }

  predicate HasLiveEntry(b: Broker, id: string) {
    exists i: nat :: i < |b.log| && IsLive(b, i) && b.log[i].eventId == id
  }

  lemma {:induction false} Accounted(b: Broker, i: nat)
    requires GroupOk(b) && i < |b.log|
    ensures HasLiveEntry(b, b.log[i].eventId) || b.log[i].eventId in b.everMarked || IsDead(b, b.log[i].eventId)
    decreases |b.log| - i
  {
    var id := b.log[i].eventId;
    if IsLive(b, i) {
    } else {
      assert Resolved(b, i, id);
      if id !in b.everMarked && !IsDead(b, id) {
        var j: nat :| i < j < |b.log| && b.log[j].eventId == id;
        Accounted(b, j);
      }
    }
  }

  // Whatever interleaving of workers, exceptions, crashes and key expiries led here: every event
  // ever put on a stage's stream is still live, has been processed, or is in the dead letters.
  lemma NoLoss(cfg: Config, states: seq<Chain>, steps: seq<Step>, n: nat, stage: nat, i: nat)
    requires IsRun(cfg, states, steps) && n < |states| && stage < STAGES
    requires |states[n].brokers| == STAGES + 1 && i < |states[n].brokers[stage].log|
    ensures var b := states[n].brokers[stage];
      HasLiveEntry(b, b.log[i].eventId) || b.log[i].eventId in b.everMarked || IsDead(b, b.log[i].eventId)
  {
    ReachableInv(cfg, states, steps, n);
    Accounted(states[n].brokers[stage], i);
  }

  // An acknowledged entry was processed, buried, or superseded by a later copy of its event.
  lemma AckedIsResolved(cfg: Config, states: seq<Chain>, steps: seq<Step>, n: nat, stage: nat, i: nat)
    requires IsRun(cfg, states, steps) && n < |states| && stage < STAGES
    requires |states[n].brokers| == STAGES + 1 && i < states[n].brokers[stage].delivered && i !in states[n].brokers[stage].pending
    ensures var b := states[n].brokers[stage];
      i < |b.log| && (b.log[i].eventId in b.everMarked || IsDead(b, b.log[i].eventId) || HasLaterCopy(b, i, b.log[i].eventId))
  {
    ReachableInv(cfg, states, steps, n);
    assert GroupOk(states[n].brokers[stage]);
  }

  // Marking is never premature, and burial never early: a marked event has its result on the
  // next stream, and a dead letter is an entry of the stream with all its retries used up.
  lemma NoFalseVerdict(cfg: Config, states: seq<Chain>, steps: seq<Step>, n: nat, stage: nat)
    requires IsRun(cfg, states, steps) && n < |states| && stage < STAGES
    ensures Shape(states[n])
    ensures forall id :: id in states[n].brokers[stage].everMarked ==> HasOutput(states[n], stage, id)
    ensures forall d :: d in states[n].brokers[stage].dead ==> d in states[n].brokers[stage].log && d.retryCount == cfg.maxRetries
  {
    ReachableInv(cfg, states, steps, n);
    assert MarksOk(states[n], stage) && DeadOk(cfg, states[n].brokers[stage]);
  }

  // ---- Theorem: no incident is lost along the chain -------------------------------------------

  predicate LiveSomewhere(c: Chain, incidentId: string)
    requires Shape(c)
  {
    exists k: nat :: k < STAGES && LiveFor(c.brokers[k], incidentId)
  }

  predicate LiveFor(b: Broker, incidentId: string) {
    exists i: nat :: i < |b.log| && IsLive(b, i) && b.log[i].incidentId == incidentId
  }

  predicate BuriedSomewhere(c: Chain, incidentId: string)
    requires Shape(c)
  {
    exists k: nat :: k < STAGES && BuriedFor(c.brokers[k], incidentId)
  }

  predicate BuriedFor(b: Broker, incidentId: string) {
    exists d :: d in b.dead && d.incidentId == incidentId
  }

  predicate IsUpdated(log: seq<Message>, incidentId: string) {
    exists i :: 0 <= i < |log| && log[i].incidentId == incidentId && log[i].eventType == IncidentUpdated
  }

  // Entry i of some stream k: follow its results down the chain.
  lemma {:induction false} Follow(cfg: Config, c: Chain, k: nat, i: nat)
    requires Inv(cfg, c) && k <= STAGES && i < |c.brokers[k].log|
    ensures var inc := c.brokers[k].log[i].incidentId;
      LiveSomewhere(c, inc) || BuriedSomewhere(c, inc) || IsUpdated(c.brokers[STAGES].log, inc)
    decreases STAGES - k
  {
    hide LogOk, GroupOk, DeadOk, MarksOk, WorkerOk, RootsOk, IsUpdated, LiveFor, BuriedFor, HasOutput;
    var b, inc := c.brokers[k], c.brokers[k].log[i].incidentId;
    assert LogOk(cfg, c, k) && GroupOk(b) && DeadOk(cfg, b);
    if k == STAGES {
      LastIsUpdated(cfg, c, i);
    } else {
      var id := b.log[i].eventId;
      SameIncident(cfg, c, k, i);
      Accounted(b, i);
      if id in b.everMarked && !LiveFor(b, inc) && !BuriedFor(b, inc) {
        assert MarksOk(c, k);
        var j := ResultOf(cfg, c, k, i);
        Follow(cfg, c, k + 1, j);
      }
    }
  }

  lemma LastIsUpdated(cfg: Config, c: Chain, i: nat)
    requires Shape(c) && LogOk(cfg, c, STAGES) && i < |c.brokers[STAGES].log|
    ensures IsUpdated(c.brokers[STAGES].log, c.brokers[STAGES].log[i].incidentId)
  {
  }

  // Every copy of an event is about the same incident.
  lemma SameIncident(cfg: Config, c: Chain, k: nat, i: nat)
    requires Shape(c) && k < STAGES && LogOk(cfg, c, k) && DeadOk(cfg, c.brokers[k]) && i < |c.brokers[k].log|
    ensures var b, m := c.brokers[k], c.brokers[k].log[i];
      && (HasLiveEntry(b, m.eventId) ==> LiveFor(b, m.incidentId))
      && (IsDead(b, m.eventId) ==> BuriedFor(b, m.incidentId))
  {
  }

  // The result of a processed event, on the next stream.
  lemma ResultOf(cfg: Config, c: Chain, k: nat, i: nat) returns (j: nat)
    requires Shape(c) && k < STAGES && LogOk(cfg, c, k) && MarksOk(c, k) && i < |c.brokers[k].log|
    requires c.brokers[k].log[i].eventId in c.brokers[k].everMarked
    ensures j < |c.brokers[k + 1].log| && c.brokers[k + 1].log[j].incidentId == c.brokers[k].log[i].incidentId
  {
    var m, next := c.brokers[k].log[i], c.brokers[k + 1].log;
    assert MessageOk(cfg, c, k, m) && HasOutput(c, k, m.eventId);
    j :| 0 <= j < |next| && IsOutputFor(c, m.eventId, next[j]);
  }

  lemma NoIncidentLost(cfg: Config, states: seq<Chain>, steps: seq<Step>, n: nat, i: nat)
    requires IsRun(cfg, states, steps) && n < |states|
    requires |states[n].brokers| == STAGES + 1 && i < |states[n].brokers[0].log|
    ensures Shape(states[n])
    ensures var inc := states[n].brokers[0].log[i].incidentId;
      LiveSomewhere(states[n], inc) || BuriedSomewhere(states[n], inc) || IsUpdated(states[n].brokers[STAGES].log, inc)
  {
    ReachableInv(cfg, states, steps, n);
    Follow(cfg, states[n], 0, i);
  }

  // ---- Theorem: every message descends from exactly one ingest -------------------------------

  // path[s] is the position in stream s of the ancestor: each caused the next, for one incident.
  predicate IsLineage(c: Chain, path: seq<nat>)
    requires Shape(c) && |path| <= STAGES + 1
  {
    && (forall s :: 0 <= s < |path| ==> path[s] < |c.brokers[s].log|)
    && (|path| > 0 ==> c.brokers[0].log[path[0]].causationId == None)
    && (forall s :: 0 < s < |path| ==> Caused(c.brokers[s - 1].log[path[s - 1]], c.brokers[s].log[path[s]]))
  }

  predicate Caused(parent: Message, child: Message) {
    child.causationId == Some(parent.eventId) && child.Ident() == parent.Ident()
  }

  lemma LineageExtends(c: Chain, path: seq<nat>, i: nat)
    requires Shape(c) && 0 < |path| <= STAGES && IsLineage(c, path)
    requires i < |c.brokers[|path|].log|
    requires Caused(c.brokers[|path| - 1].log[path[|path| - 1]], c.brokers[|path|].log[i])
    ensures IsLineage(c, path + [i])
  {
  }

  // The entry of the previous stream that caused entry i of stream k.
  lemma ParentOf(cfg: Config, c: Chain, k: nat, i: nat) returns (j: nat)
    requires Inv(cfg, c) && 0 < k <= STAGES && i < |c.brokers[k].log|
    ensures j < |c.brokers[k - 1].log| && Caused(c.brokers[k - 1].log[j], c.brokers[k].log[i])
  {
    var m, previous := c.brokers[k].log[i], c.brokers[k - 1].log;
    assert LogOk(cfg, c, k) && MessageOk(cfg, c, k, m);
    j :| 0 <= j < |previous| && previous[j].eventId == m.causationId.value && previous[j].Ident() == m.Ident();
  }

  lemma {:induction false} Ancestry(cfg: Config, c: Chain, k: nat, i: nat) returns (path: seq<nat>)
    requires Inv(cfg, c) && k <= STAGES && i < |c.brokers[k].log|
    ensures |path| == k + 1 && path[k] == i && IsLineage(c, path)
    ensures c.brokers[0].log[path[0]].Ident() == c.brokers[k].log[i].Ident()
    decreases k
  {
    if k == 0 {
      path := [i];
      assert LogOk(cfg, c, 0) && MessageOk(cfg, c, 0, c.brokers[0].log[i]);
    } else {
      var j := ParentOf(cfg, c, k, i);
      var shorter := Ancestry(cfg, c, k - 1, j);
      LineageExtends(c, shorter, i);
      path := shorter + [i];
    }
  }

  // Every ingested entry of the incident carries the same event as entry `root`.
  predicate IsOnlyRoot(log: seq<Message>, root: nat, incidentId: string)
    requires root < |log|
  {
    && log[root].incidentId == incidentId
    && forall r :: 0 <= r < |log| && log[r].incidentId == incidentId ==> log[r].eventId == log[root].eventId
  }

  lemma OneRoot(cfg: Config, states: seq<Chain>, steps: seq<Step>, n: nat, k: nat, i: nat) returns (path: seq<nat>)
    requires IsRun(cfg, states, steps) && n < |states| && k <= STAGES
    requires |states[n].brokers| == STAGES + 1 && i < |states[n].brokers[k].log|
    ensures Shape(states[n]) && |path| == k + 1 && path[k] == i && IsLineage(states[n], path)
    ensures IsOnlyRoot(states[n].brokers[0].log, path[0], states[n].brokers[k].log[i].incidentId)
  {
    ReachableInv(cfg, states, steps, n);
    path := Ancestry(cfg, states[n], k, i);
  }
}
