/** The whole chain as one transition system: a gateway, five consuming services with any
    number of worker processes each, and the six streams between them.

    Every Redis call is one atomic step; any call may raise with or without having taken
    effect, a worker may die between any two calls, and idempotency keys may expire. */
module Pipeline {
  import opened Wrappers
  import opened Messages
  import opened WorkerProtocol

  // One stream together with its consumer group: the log, how much of it has been delivered,
  // which delivered entries are not yet acknowledged, the live idempotency keys, every id that
  // was ever given a key, and what the group's service sent to the dead-letter stream.
  datatype Broker = Broker(
    log: seq<Message>,
    delivered: nat,
    pending: set<nat>,
    marks: set<string>,
    everMarked: set<string>,
    dead: seq<Message>)

  datatype Process = Process(stage: nat, worker: Worker)

  // `identity` remembers, for every event id handed out so far, the incident it was made for.
  datatype Chain = Chain(
    brokers: seq<Broker>,
    processes: map<nat, Process>,
    identity: map<string, Identity>)

  datatype Step =
    | Ingest(m: Message)
    | Spawn(p: nat, stage: nat)
    // landed: the call took effect at the server; lost: how many entries a read delivered
    // when its answer never arrived.
    | Talk(p: nat, x: Exchange, landed: bool, lost: nat)
    | Crash(p: nat)
    | Expire(stage: nat, id: string)

  // ---- What a call does at the server ------------------------------------------------------

  // The broker a call of a worker of `stage` changes: publishing goes one stream further.
  function Target(stage: nat, call: Call): nat {
    if call.XAddOutput? then stage + 1 else stage
  }

  // The entries a read hands out: the first n undelivered ones.
  function Fresh(b: Broker, n: nat): (r: seq<Entry>)
    requires b.delivered + n <= |b.log|
    ensures |r| == n
    ensures forall i :: 0 <= i < n ==> r[i] == Entry(b.delivered + i, b.log[b.delivered + i])
  {
    if n == 0 then [] else Fresh(b, n - 1) + [Entry(b.delivered + n - 1, b.log[b.delivered + n - 1])]
  }

  function Span(lo: nat, hi: nat): (r: set<nat>)
    ensures forall i: nat :: i in r <==> lo <= i < hi
    decreases hi - lo
  {
    if lo >= hi then {} else {lo} + Span(lo + 1, hi)
  }

  function Effect(b: Broker, x: Exchange, n: nat): Broker {
    match x.call
    case XAddOutput(m) => b.(log := b.log + [m])
    case XAddInput(m) => b.(log := b.log + [m])
    case XAddDead(m) => b.(dead := b.dead + [m])
    case SetKey(id) => b.(marks := b.marks + {id}, everMarked := b.everMarked + {id})
    case XAck(i) => b.(pending := b.pending - {i})
    case XReadGroup => b.(delivered := b.delivered + n, pending := b.pending + Span(b.delivered, b.delivered + n))
    case _ => b
  }

  // How many entries a read delivers.
  function ReadSize(x: Exchange, lost: nat): nat {
    if x.reply.Batch? then |x.reply.entries| else lost
  }

  predicate AllPending(b: Broker, entries: seq<Entry>) {
    forall y :: y in entries ==> y.index in b.pending && y.index < |b.log| && y.message == b.log[y.index]
  }

  // The reply is one the server or the handler can give to the call in this state.
  predicate Honest(b: Broker, identity: map<string, Identity>, stage: nat, x: Exchange)
    requires stage < STAGES
  {
    x.reply.Raised? ||
    match x.call
    case Exists(id) => x.reply == Found(id in b.marks)
    case Handle(m) =>
      && x.reply.Returned? && x.reply.result.Some?
      && IsReplyTo(m, stage, x.reply.result.value)
      && x.reply.result.value.eventId !in identity
    case XReadGroup =>
      && x.reply.Batch?
      && b.delivered + |x.reply.entries| <= |b.log|
      && x.reply.entries == Fresh(b, |x.reply.entries|)
    case XAutoClaim(_) =>
      && x.reply.Batch?
      && AllPending(b, x.reply.entries)
    case _ => x.reply.Done?
  }

  predicate Shape(c: Chain) {
    && |c.brokers| == STAGES + 1
    && forall p :: p in c.processes ==> c.processes[p].stage < STAGES
  }

  // Both ids of an ingested message are fresh.
  predicate IsNew(identity: map<string, Identity>, m: Message) {
    && m.eventId !in identity
    && forall id :: id in identity ==> identity[id].incidentId != m.incidentId
  }

  predicate Enabled(c: Chain, step: Step)
    requires Shape(c)
  {
    match step
    case Ingest(m) =>
      && IsNew(c.identity, m)
      && m.causationId == None && m.eventType == TypeOf(0) && m.retryCount == 0
    case Spawn(p, stage) => p !in c.processes && stage < STAGES
    case Talk(p, x, landed, lost) =>
      && p in c.processes
      && Issues(c.processes[p].worker, x.call) && Fits(x.call, x.reply)
      && Honest(c.brokers[c.processes[p].stage], c.identity, c.processes[p].stage, x)
      && (!x.reply.Raised? ==> landed)
      && c.brokers[c.processes[p].stage].delivered + lost <= |c.brokers[c.processes[p].stage].log|
    case Crash(p) => p in c.processes
    case Expire(stage, id) => stage < STAGES
  }

  function Perform(cfg: Config, c: Chain, step: Step): Chain
    requires Shape(c) && Enabled(c, step)
  {
    match step
    case Ingest(m) =>
      c.(brokers := c.brokers[0 := c.brokers[0].(log := c.brokers[0].log + [m])],
         identity := c.identity[m.eventId := m.Ident()])
    case Spawn(p, stage) => c.(processes := c.processes[p := Process(stage, RESTING)])
    case Talk(p, x, landed, lost) =>
      var k := c.processes[p].stage;
      var t := Target(k, x.call);
      Chain(
        if landed then c.brokers[t := Effect(c.brokers[t], x, ReadSize(x, lost))] else c.brokers,
        c.processes[p := Process(k, Advance(cfg, c.processes[p].worker, x))],
        if x.call.Handle? && x.reply.Returned? && x.reply.result.Some?
        then c.identity[x.reply.result.value.eventId := x.reply.result.value.Ident()]
        else c.identity)
    case Crash(p) => c.(processes := c.processes[p := Process(c.processes[p].stage, RESTING)])
    case Expire(stage, id) =>
      c.(brokers := c.brokers[stage := c.brokers[stage].(marks := c.brokers[stage].marks - {id})])
  }

  const EMPTY_BROKER := Broker([], 0, {}, {}, {}, [])
  const START := Chain([EMPTY_BROKER, EMPTY_BROKER, EMPTY_BROKER, EMPTY_BROKER, EMPTY_BROKER, EMPTY_BROKER], map[], map[])

  predicate IsStep(cfg: Config, c: Chain, step: Step, c': Chain) {
    Shape(c) && Enabled(c, step) && c' == Perform(cfg, c, step)
  }

  // A finite execution from the empty pipeline.  All five services publish what they produce.
  ghost predicate IsRun(cfg: Config, states: seq<Chain>, steps: seq<Step>) {
    && cfg.hasOutput
    && |states| == |steps| + 1
    && states[0] == START
    && forall i :: 0 <= i < |steps| ==> IsStep(cfg, states[i], steps[i], states[i + 1])
  }

  // ---- The invariant --------------------------------------------------------------------

  predicate Known(c: Chain, m: Message) {
    m.eventId in c.identity && c.identity[m.eventId] == m.Ident()
  }

  // Some entry of the previous stream caused this message, for the same incident.
  predicate HasParent(previous: seq<Message>, m: Message) {
    m.causationId.Some? &&
    exists i :: 0 <= i < |previous| && previous[i].eventId == m.causationId.value && previous[i].Ident() == m.Ident()
  }

  predicate IsOutputFor(c: Chain, id: string, out: Message) {
    out.causationId == Some(id) && out.retryCount == 0 && id in c.identity && out.Ident() == c.identity[id]
  }

  predicate HoldsOutput(c: Chain, log: seq<Message>, id: string) {
    exists j :: 0 <= j < |log| && IsOutputFor(c, id, log[j])
  }

  // The next stream holds a first-hand result of the event.
  predicate HasOutput(c: Chain, stage: nat, id: string)
    requires Shape(c) && stage < STAGES
  {
    HoldsOutput(c, c.brokers[stage + 1].log, id)
  }

  predicate IsDead(b: Broker, id: string) {
    exists d :: 0 <= d < |b.dead| && b.dead[d].eventId == id
  }

  predicate HasLaterCopy(b: Broker, i: nat, id: string) {
    exists j :: i < j < |b.log| && b.log[j].eventId == id
  }

  // Whoever acknowledges entry i of event `id` may rely on this.
  predicate Resolved(b: Broker, i: nat, id: string) {
    id in b.everMarked || IsDead(b, id) || HasLaterCopy(b, i, id)
  }

  predicate EntryOk(b: Broker, x: Entry) {
    x.index < b.delivered <= |b.log| && b.log[x.index] == x.message
  }

  // What holds at each program point of a worker of `stage`.
  predicate WorkerOk(cfg: Config, c: Chain, stage: nat, w: Worker)
    requires Shape(c) && stage < STAGES
  {
    && QueueOk(c.brokers[stage], w)
    && PcOk(cfg, c, stage, c.brokers[stage], w.pc)
  }

  predicate QueueOk(b: Broker, w: Worker) {
    && (forall y :: y in w.queue ==> EntryOk(b, y))
    && (Active(w.pc) ==> EntryOk(b, w.pc.entry))
    && (!Active(w.pc) ==> w.queue == [])
  }

  predicate PcOk(cfg: Config, c: Chain, stage: nat, b: Broker, pc: Pc)
    requires Shape(c) && stage < STAGES
  {
    match pc
    case SkipAcking(x) => x.message.eventId in b.everMarked
    case Publishing(x, out) => IsReplyTo(x.message, stage, out) && Known(c, out)
    case Marking(x) => HasOutput(c, stage, x.message.eventId)
    case Acking(x) => x.message.eventId in b.everMarked
    case Requeueing(x) => x.message.retryCount < cfg.maxRetries
    case Burying(x) => x.message.retryCount >= cfg.maxRetries
    case Closing(x) => Resolved(b, x.index, x.message.eventId)
    case _ => true
  }

  predicate MessageOk(cfg: Config, c: Chain, stream: nat, m: Message)
    requires Shape(c) && stream <= STAGES
  {
    && Known(c, m)
    && m.eventType == TypeOf(stream)
    && m.retryCount <= cfg.maxRetries
    && (if stream == 0 then m.causationId == None else HasParent(c.brokers[stream - 1].log, m))
  }

  predicate LogOk(cfg: Config, c: Chain, stream: nat)
    requires Shape(c) && stream <= STAGES
  {
    forall i :: 0 <= i < |c.brokers[stream].log| ==> MessageOk(cfg, c, stream, c.brokers[stream].log[i])
  }

  predicate GroupOk(b: Broker) {
    && b.delivered <= |b.log|
    && b.marks <= b.everMarked
    && (forall i :: i in b.pending ==> i < b.delivered)
    && (forall i: nat :: i < b.delivered && i !in b.pending ==> Resolved(b, i, b.log[i].eventId))
  }

  predicate MarksOk(c: Chain, stage: nat)
    requires Shape(c) && stage < STAGES
  {
    forall id :: id in c.brokers[stage].everMarked ==> HasOutput(c, stage, id)
  }

  predicate DeadOk(cfg: Config, b: Broker) {
    forall d :: 0 <= d < |b.dead| ==> b.dead[d] in b.log && b.dead[d].retryCount == cfg.maxRetries
  }

  // Copies of one ingested message are the only root messages of its incident.
  predicate RootsOk(c: Chain)
    requires Shape(c)
  {
    SameRoots(c.brokers[0].log)
  }

  predicate SameRoots(log: seq<Message>) {
    forall i, j :: 0 <= i < |log| && 0 <= j < |log| && log[i].incidentId == log[j].incidentId ==> log[i].eventId == log[j].eventId
  }

  ghost predicate Inv(cfg: Config, c: Chain) {
    && cfg.hasOutput
    && Shape(c)
    && (forall k: nat :: k <= STAGES ==> LogOk(cfg, c, k) && GroupOk(c.brokers[k]) && DeadOk(cfg, c.brokers[k]))
    && (forall k: nat :: k < STAGES ==> MarksOk(c, k))
    && (forall p :: p in c.processes ==> WorkerOk(cfg, c, c.processes[p].stage, c.processes[p].worker))
    && RootsOk(c)
  }

  // ---- Everything the invariant's facts rest on only ever grows ---------------------------

  predicate BrokerGrows(b: Broker, b': Broker) {
    b.log <= b'.log && b.delivered <= b'.delivered && b.everMarked <= b'.everMarked && b.dead <= b'.dead
  }

  ghost predicate Grows(c: Chain, c': Chain) {
    && Shape(c) && Shape(c')
    && (forall k: nat :: k <= STAGES ==> BrokerGrows(c.brokers[k], c'.brokers[k]))
    && (forall id :: id in c.identity ==> id in c'.identity && c'.identity[id] == c.identity[id])
  }

  lemma OutputGrows(c: Chain, c': Chain, stage: nat, id: string)
    requires Grows(c, c') && stage < STAGES && HasOutput(c, stage, id)
    ensures HasOutput(c', stage, id)
  {
  }

  lemma ResolvedGrows(b: Broker, b': Broker, i: nat, id: string)
    requires BrokerGrows(b, b') && Resolved(b, i, id)
    ensures Resolved(b', i, id)
  {
  }

  lemma EntryGrows(b: Broker, b': Broker, x: Entry)
    requires BrokerGrows(b, b') && b'.delivered <= |b'.log| && EntryOk(b, x)
    ensures EntryOk(b', x)
  {
  }

  // A worker that does not move keeps its facts.
  lemma WorkerKeeps(cfg: Config, c: Chain, c': Chain, stage: nat, w: Worker)
    requires Grows(c, c') && stage < STAGES && WorkerOk(cfg, c, stage, w)
    requires c'.brokers[stage].delivered <= |c'.brokers[stage].log|
    ensures WorkerOk(cfg, c', stage, w)
  {
  }

  lemma MessageKeeps(cfg: Config, c: Chain, c': Chain, stream: nat, m: Message)
    requires Grows(c, c') && stream <= STAGES && MessageOk(cfg, c, stream, m)
    ensures MessageOk(cfg, c', stream, m)
  {
  }

  // Logs that gained at most one good message stay good.
  lemma LogKeeps(cfg: Config, c: Chain, c': Chain, stream: nat)
    requires Grows(c, c') && stream <= STAGES && LogOk(cfg, c, stream)
    requires |c'.brokers[stream].log| <= |c.brokers[stream].log| + 1
    requires |c'.brokers[stream].log| == |c.brokers[stream].log| + 1 ==>
               MessageOk(cfg, c', stream, c'.brokers[stream].log[|c.brokers[stream].log|])
    ensures LogOk(cfg, c', stream)
  {
  }

  // A group that delivers more, acknowledges at most one resolved entry, and otherwise grows.
  lemma GroupKeeps(b: Broker, b': Broker, acked: set<nat>)
    requires BrokerGrows(b, b') && GroupOk(b)
    requires b'.delivered <= |b'.log| && b'.marks <= b'.everMarked
    requires b'.pending == b.pending - acked + Span(b.delivered, b'.delivered)
    requires forall i :: i in acked && i < b.delivered ==> Resolved(b, i, b.log[i].eventId)
    ensures GroupOk(b')
  {
  }

  lemma DeadKeeps(cfg: Config, b: Broker, b': Broker)
    requires BrokerGrows(b, b') && DeadOk(cfg, b)
    requires forall d :: |b.dead| <= d < |b'.dead| ==> b'.dead[d] in b'.log && b'.dead[d].retryCount == cfg.maxRetries
    ensures DeadOk(cfg, b')
  {
  }
}
