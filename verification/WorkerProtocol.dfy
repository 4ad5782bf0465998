/** The order in which a stream worker talks to Redis while it deals with one entry.

    A worker is an automaton: its program counter says which call it issues next, and the
    reply it gets (an answer, or an exception) says where it goes.  The class in
    StreamWorker.dfy is proved to follow this automaton against any environment; the
    machine in Pipeline.dfy runs any number of these automata against the brokers. */
module WorkerProtocol {
  import opened Wrappers
  import opened Messages

  datatype Config = Config(maxRetries: nat, hasOutput: bool)

  datatype Entry = Entry(index: nat, message: Message)

  datatype Pc =
    | Idle
    | Checking(entry: Entry)                    // is the event id already marked?
    | SkipAcking(entry: Entry)                  // duplicate: acknowledge and leave
    | Handling(entry: Entry)                    // run the service's own handler
    | Publishing(entry: Entry, out: Message)    // append the handler's result downstream
    | Marking(entry: Entry)                     // record the event id as processed
    | Acking(entry: Entry)
    | Requeueing(entry: Entry)                  // append a copy with one more retry
    | Burying(entry: Entry)                     // append to the dead-letter stream
    | Closing(entry: Entry)                     // acknowledge after a requeue or a burial
    | Stopped                                   // an exception left the loop, or the process died

  datatype Call =
    | Exists(id: string)
    | Handle(m: Message)
    | XAddOutput(m: Message)
    | SetKey(id: string)
    | XAck(index: nat)
    | XAddInput(m: Message)
    | XAddDead(m: Message)
    | XReadGroup
    | XAutoClaim(cursor: nat)

  datatype Reply =
    | Done
    | Found(yes: bool)
    | Returned(result: Option<Message>)
    | Batch(entries: seq<Entry>, next: nat)
    | Raised

  datatype Exchange = Exchange(call: Call, reply: Reply)

  // The kind of answer a call can get; any call can raise instead.
  predicate Fits(call: Call, reply: Reply) {
    reply.Raised? ||
    match call
    case Exists(_) => reply.Found?
    case Handle(_) => reply.Returned?
    case XReadGroup => reply.Batch?
    case XAutoClaim(_) => reply.Batch?
    case _ => reply.Done?
  }

  predicate Active(pc: Pc) {
    !pc.Idle? && !pc.Stopped?
  }

  function Issue(pc: Pc): Call
    requires Active(pc)
  {
    match pc
    case Checking(x) => Exists(x.message.eventId)
    case SkipAcking(x) => XAck(x.index)
    case Handling(x) => Handle(x.message)
    case Publishing(x, out) => XAddOutput(out)
    case Marking(x) => SetKey(x.message.eventId)
    case Acking(x) => XAck(x.index)
    case Requeueing(x) => XAddInput(x.message.NextRetry())
    case Burying(x) => XAddDead(x.message)
    case Closing(x) => XAck(x.index)
  }

  // Where a handled failure goes.
  function OnFailure(cfg: Config, x: Entry): Pc {
    if x.message.retryCount < cfg.maxRetries then Requeueing(x) else Burying(x)
  }

  function Resume(cfg: Config, pc: Pc, reply: Reply): Pc
    requires Active(pc) && Fits(Issue(pc), reply)
  {
    match pc
    case Checking(x) => if reply.Raised? then Stopped else if reply.yes then SkipAcking(x) else Handling(x)
    case SkipAcking(_) => if reply.Raised? then Stopped else Idle
    case Handling(x) =>
      if reply.Raised? then OnFailure(cfg, x)
      else if reply.result.Some? && cfg.hasOutput then Publishing(x, reply.result.value)
      else Marking(x)
    case Publishing(x, _) => if reply.Raised? then OnFailure(cfg, x) else Marking(x)
    case Marking(x) => if reply.Raised? then OnFailure(cfg, x) else Acking(x)
    case Acking(x) => if reply.Raised? then OnFailure(cfg, x) else Idle
    case Requeueing(x) => if reply.Raised? then Stopped else Closing(x)
    case Burying(x) => if reply.Raised? then Stopped else Closing(x)
    case Closing(_) => if reply.Raised? then Stopped else Idle
  }

  // A worker process: the rest of the batch it was given, and where it is in the current entry.
  datatype Worker = Worker(queue: seq<Entry>, pc: Pc)

  const RESTING := Worker([], Idle)
  const DEAD := Worker([], Stopped)

  // Take up the next entry of the batch once the current one is finished.
  function Settle(queue: seq<Entry>, pc: Pc): Worker {
    if pc.Stopped? then DEAD
    else if pc.Idle? && queue != [] then Worker(queue[1..], Checking(queue[0]))
    else Worker(queue, pc)
  }

  // The worker may issue this call now.
  predicate Issues(w: Worker, call: Call) {
    if Active(w.pc) then call == Issue(w.pc)
    else w == RESTING && (call.XReadGroup? || call.XAutoClaim?)
  }

  function Advance(cfg: Config, w: Worker, x: Exchange): Worker
    requires Issues(w, x.call) && Fits(x.call, x.reply)
  {
    if Active(w.pc) then Settle(w.queue, Resume(cfg, w.pc, x.reply))
    else if x.reply.Raised? then DEAD
    else Settle(x.reply.entries, Idle)
  }

  // The exchanges of `trace` lead the worker from w to w'.
  predicate Conforms(cfg: Config, w: Worker, trace: seq<Exchange>, w': Worker)
    decreases |trace|
  {
    if trace == [] then w == w'
    else
      && Issues(w, trace[0].call)
      && Fits(trace[0].call, trace[0].reply)
      && Conforms(cfg, Advance(cfg, w, trace[0]), trace[1..], w')
  }

  lemma {:induction false} ConformsThen(cfg: Config, w: Worker, s: seq<Exchange>, w1: Worker, t: seq<Exchange>, w2: Worker)
    requires Conforms(cfg, w, s, w1) && Conforms(cfg, w1, t, w2)
    ensures Conforms(cfg, w, s + t, w2)
    decreases |s|
  {
    if s == [] {
      assert s + t == t;
    } else {
      ConformsThen(cfg, Advance(cfg, w, s[0]), s[1..], w1, t, w2);
      assert (s + t)[1..] == s[1..] + t;
    }
  }

  // The bookkeeping of a growing trace: one more conforming exchange.
  lemma ConformsOneMore(cfg: Config, w: Worker, s: seq<Exchange>, w1: Worker, x: Exchange)
    requires Conforms(cfg, w, s, w1)
    requires Issues(w1, x.call) && Fits(x.call, x.reply)
    ensures Conforms(cfg, w, s + [x], Advance(cfg, w1, x))
  {
    assert Conforms(cfg, w1, [x], Advance(cfg, w1, x)) by {
      assert [x][1..] == [];
    }
    ConformsThen(cfg, w, s, w1, [x], Advance(cfg, w1, x));
  }

  // ---- The exchanges of one entry ----------------------------------------------------------------

  // These exchanges lead from this point in an entry to its end.
  predicate IsEntry(cfg: Config, pc: Pc, t: seq<Exchange>)
    decreases |t|
  {
    if !Active(pc) then t == []
    else t != [] && t[0].call == Issue(pc) && Fits(t[0].call, t[0].reply) && IsEntry(cfg, Resume(cfg, pc, t[0].reply), t[1..])
  }

  function EndOf(cfg: Config, pc: Pc, t: seq<Exchange>): Pc
    requires IsEntry(cfg, pc, t)
    decreases |t|
  {
    if Active(pc) then EndOf(cfg, Resume(cfg, pc, t[0].reply), t[1..]) else pc
  }

  lemma {:induction false} EntryConforms(cfg: Config, pc: Pc, t: seq<Exchange>)
    requires IsEntry(cfg, pc, t)
    ensures !Active(EndOf(cfg, pc, t)) && Conforms(cfg, Worker([], pc), t, Worker([], EndOf(cfg, pc, t)))
    decreases |t|
  {
    if Active(pc) {
      EntryConforms(cfg, Resume(cfg, pc, t[0].reply), t[1..]);
    }
  }

  predicate IsRetry(x: Exchange) { x.call.XAddInput? || x.call.XAddDead? }

  // The handler, its publication, or the mark raised; or the acknowledgement right after a mark did.
  predicate HasFailed(t: seq<Exchange>, marked: bool)
    decreases |t|
  {
    t != [] && (
      (t[0].reply.Raised? && (t[0].call.Handle? || t[0].call.XAddOutput? || t[0].call.SetKey? || (t[0].call.XAck? && marked)))
      || HasFailed(t[1..], t[0].call.SetKey?))
  }

  predicate IsRetried(t: seq<Exchange>)
    decreases |t|
  {
    t != [] && (IsRetry(t[0]) || IsRetried(t[1..]))
  }

  // Acknowledgements that came through.
  function Acks(t: seq<Exchange>): nat
    decreases |t|
  {
    if t == [] then 0 else One(t[0].call.XAck? && !t[0].reply.Raised?) + Acks(t[1..])
  }

  // Theorem: an entry is requeued or buried exactly when its handler, the publication, the mark, or
  // the acknowledgement after the mark raised; it is acknowledged once if it comes to a regular
  // end, last of all, and not at all otherwise.
  lemma {:induction false} RetriedExactly(cfg: Config, pc: Pc, t: seq<Exchange>)
    requires IsEntry(cfg, pc, t)
    ensures pc.Requeueing? || pc.Burying? ==> IsRetried(t) && !HasFailed(t, false)
    ensures !pc.Requeueing? && !pc.Burying? ==> (IsRetried(t) <==> HasFailed(t, pc.Acking?))
    ensures pc.SkipAcking? || pc.Closing? ==> !IsRetried(t)
    ensures Active(pc) ==> t != [] && (EndOf(cfg, pc, t).Stopped? <==> t[|t| - 1].reply.Raised?)
    ensures Active(pc) ==> Acks(t) == One(EndOf(cfg, pc, t).Idle?) && (EndOf(cfg, pc, t).Idle? ==> t[|t| - 1] == Exchange(XAck(pc.entry.index), Done))
    decreases |t|
  {
    if Active(pc) {
      RetriedExactly(cfg, Resume(cfg, pc, t[0].reply), t[1..]);
    }
  }

  // Theorem: every call of the entry is about the entry: its id, its message, its position, and as
  // a retry its copy while retries remain, itself as a dead letter otherwise.
  lemma {:induction false} CallsAreOwn(cfg: Config, pc: Pc, t: seq<Exchange>, i: nat)
    requires IsEntry(cfg, pc, t) && i < |t|
    requires (pc.Requeueing? ==> pc.entry.message.retryCount < cfg.maxRetries) && (pc.Burying? ==> pc.entry.message.retryCount >= cfg.maxRetries)
    ensures Active(pc) && !t[i].call.XReadGroup? && !t[i].call.XAutoClaim?
    ensures var m, call := pc.entry.message, t[i].call;
      && (call.Exists? || call.SetKey? ==> call.id == m.eventId)
      && (call.Handle? ==> call.m == m)
      && (call.XAck? ==> call.index == pc.entry.index)
      && (call.XAddInput? ==> call.m == m.NextRetry() && m.retryCount < cfg.maxRetries)
      && (call.XAddDead? ==> call.m == m && m.retryCount >= cfg.maxRetries)
    decreases |t|
  {
    if i > 0 {
      CallsAreOwn(cfg, Resume(cfg, pc, t[0].reply), t[1..], i - 1);
    }
  }
}
