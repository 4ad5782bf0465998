/** A single consumer without crashes: it empties its stream, and what happens to every event
    (processed or buried, after how many handler calls, after how much waiting) is exactly what
    the retry policy says. */
module Drain {
  import opened Wrappers
  import opened Messages
  import opened Backoffs
  import opened WorkerProtocol
  import opened Pipeline

  // ---- The automaton on one entry, when every Redis call succeeds -------------------------

  function Rank(pc: Pc): nat {
    match pc
    case Checking(_) => 6
    case Handling(_) => 5
    case Publishing(_, _) => 4
    case Marking(_) => 3
    case Requeueing(_) => 3
    case Burying(_) => 3
    case SkipAcking(_) => 1
    case Acking(_) => 1
    case Closing(_) => 1
    case _ => 0
  }

  function Answer(b: Broker, call: Call, handled: bool, result: Option<Message>): Reply {
    match call
    case Exists(id) => Found(id in b.marks)
    case Handle(_) => if handled then Returned(result) else Raised
    case XReadGroup => Batch([], 0)
    case XAutoClaim(_) => Batch([], 0)
    case _ => Done
  }

  // The consumer's own broker after it has run the automaton from `pc` to the end of the entry.
  function Finish(cfg: Config, b: Broker, pc: Pc, handled: bool, result: Option<Message>): Broker
    decreases Rank(pc)
  {
    if !Active(pc) then b
    else
      var x := Exchange(Issue(pc), Answer(b, Issue(pc), handled, result));
      Finish(cfg, if x.call.XAddOutput? then b else Effect(b, x, 0), Resume(cfg, pc, x.reply), handled, result)
  }

  lemma LastAck(cfg: Config, b: Broker, pc: Pc, handled: bool, result: Option<Message>)
    requires pc.SkipAcking? || pc.Acking? || pc.Closing?
    ensures Finish(cfg, b, pc, handled, result) == b.(pending := b.pending - {pc.entry.index})
  {
  }

  // What the automaton does to the broker, in one expression.
  lemma FinishEntry(cfg: Config, b: Broker, x: Entry, handled: bool, result: Option<Message>)
    ensures var id, acked := x.message.eventId, b.(pending := b.pending - {x.index});
      Finish(cfg, b, Checking(x), handled, result) ==
        if id in b.marks then acked
        else if handled then acked.(marks := b.marks + {id}, everMarked := b.everMarked + {id})
        else if x.message.retryCount < cfg.maxRetries then acked.(log := b.log + [x.message.NextRetry()])
        else acked.(dead := b.dead + [x.message])
  {
    if x.message.eventId in b.marks {
      LastAck(cfg, b, SkipAcking(x), handled, result);
      assert Finish(cfg, b, Checking(x), handled, result) == Finish(cfg, b, SkipAcking(x), handled, result);
    } else {
      assert Finish(cfg, b, Checking(x), handled, result) == Finish(cfg, b, Handling(x), handled, result);
      if handled {
        var marked := Effect(b, Exchange(SetKey(x.message.eventId), Done), 0);
        assert Finish(cfg, b, Handling(x), handled, result) == Finish(cfg, b, Marking(x), handled, result);
        assert Finish(cfg, b, Marking(x), handled, result) == Finish(cfg, marked, Acking(x), handled, result);
        LastAck(cfg, marked, Acking(x), handled, result);
      } else {
        assert Finish(cfg, b, Handling(x), handled, result) == Finish(cfg, b, OnFailure(cfg, x), handled, result);
        var sent := Effect(b, Exchange(Issue(OnFailure(cfg, x)), Done), 0);
        assert Finish(cfg, b, OnFailure(cfg, x), handled, result) == Finish(cfg, sent, Closing(x), handled, result);
        LastAck(cfg, sent, Closing(x), handled, result);
      }
    }
  }

  // ---- The queue of entries that are still to be processed, and the running accounts ---------

  datatype Tally = Tally(
    queue: seq<Message>,
    processed: set<string>,
    dead: seq<Message>,
    calls: map<string, nat>,
    slept: map<string, real>)

  function CallsOf(t: Tally, id: string): nat {
    if id in t.calls then t.calls[id] else 0
  }

  function SleptOf(t: Tally, id: string): real {
    if id in t.slept then t.slept[id] else 0.0
  }

  // The handler's outcome for an event at a given retry: an arbitrary function.
  type Handler = (string, nat) -> bool

  function Serve(cfg: Config, policy: Backoff, h: Handler, t: Tally): Tally
    requires t.queue != []
  {
    var m, rest := t.queue[0], t.queue[1..];
    var id := m.eventId;
    if id in t.processed then t.(queue := rest)
    else
      var called := t.(calls := t.calls[id := CallsOf(t, id) + 1]);
      if h(id, m.retryCount) then called.(queue := rest, processed := t.processed + {id})
      else if m.retryCount < cfg.maxRetries then
        called.(queue := rest + [m.NextRetry()], slept := t.slept[id := SleptOf(t, id) + Delay(policy, m.retryCount)])
      else called.(queue := rest, dead := t.dead + [m])
  }

  // ---- The measure that falls ----------------------------------------------------------------

  function Weight(cfg: Config, m: Message): nat {
    if m.retryCount < cfg.maxRetries then cfg.maxRetries - m.retryCount + 1 else 1
  }

  function Measure(cfg: Config, queue: seq<Message>): nat {
    if queue == [] then 0 else Weight(cfg, queue[0]) + Measure(cfg, queue[1..])
  }

  lemma {:induction false} MeasureAppend(cfg: Config, queue: seq<Message>, m: Message)
    ensures Measure(cfg, queue + [m]) == Measure(cfg, queue) + Weight(cfg, m)
    decreases |queue|
  {
    if queue == [] {
      assert queue + [m] == [m];
    } else {
      MeasureAppend(cfg, queue[1..], m);
      assert (queue + [m])[1..] == queue[1..] + [m];
    }
  }

  lemma MeasureFalls(cfg: Config, policy: Backoff, h: Handler, t: Tally)
    requires t.queue != []
    ensures Measure(cfg, Serve(cfg, policy, h, t).queue) < Measure(cfg, t.queue)
  {
    MeasureAppend(cfg, t.queue[1..], t.queue[0].NextRetry());
  }

  // ---- The fate of one event -------------------------------------------------------------------

  datatype Verdict = Verdict(processed: bool, calls: nat, slept: real)

  function Fate(cfg: Config, policy: Backoff, h: Handler, m: Message): Verdict
    decreases Weight(cfg, m)
  {
    if h(m.eventId, m.retryCount) then Verdict(true, 1, 0.0)
    else if m.retryCount < cfg.maxRetries then
      var v := Fate(cfg, policy, h, m.NextRetry());
      Verdict(v.processed, v.calls + 1, v.slept + Delay(policy, m.retryCount))
    else Verdict(false, 1, 0.0)
  }

  // Processed exactly when some permitted attempt succeeds, and the number of handler calls is
  // the position of the first success, or all permitted attempts.
  lemma {:induction false} FateIsFirstSuccess(cfg: Config, policy: Backoff, h: Handler, m: Message)
    ensures var v := Fate(cfg, policy, h, m);
      && 1 <= v.calls <= Weight(cfg, m)
      && (forall r: nat :: m.retryCount <= r < m.retryCount + v.calls - 1 ==> !h(m.eventId, r))
      && v.processed == h(m.eventId, m.retryCount + v.calls - 1)
      && (!v.processed ==> v.calls == Weight(cfg, m))
    decreases Weight(cfg, m)
  {
    if !h(m.eventId, m.retryCount) && m.retryCount < cfg.maxRetries {
      FateIsFirstSuccess(cfg, policy, h, m.NextRetry());
    }
  }

  // The waiting is the geometric sum over the failed retries, hence at most the whole sum.
  lemma FateBackoff(cfg: Config, policy: Backoff, h: Handler, m: Message)
    requires policy.seconds >= 0.0 && policy.multiplier >= 0.0
    ensures var v := Fate(cfg, policy, h, m);
      && 0.0 <= v.slept <= Delays(policy, m.retryCount, cfg.maxRetries)
      && v.calls > 0 && v.slept == Delays(policy, m.retryCount, m.retryCount + v.calls - 1)
      && (v.calls == 1 ==> v.slept == 0.0)
      && (v.calls == 2 && m.retryCount == 0 ==> v.slept == policy.seconds)
      && IsGeometric(policy, m.retryCount, m.retryCount + v.calls - 1, v.slept)
  {
    hide Delay, IsGeometric;
    FateIsSum(cfg, policy, h, m);
    FateIsFirstSuccess(cfg, policy, h, m);
    var last := m.retryCount + Fate(cfg, policy, h, m).calls - 1;
    DelaysSum(policy, m.retryCount, last);
    DelayGrows(policy, 0);
    DelaysNonNegative(policy, m.retryCount, last);
  }

  lemma {:induction false} FateIsSum(cfg: Config, policy: Backoff, h: Handler, m: Message)
    requires policy.seconds >= 0.0 && policy.multiplier >= 0.0
    ensures Fate(cfg, policy, h, m).slept <= Delays(policy, m.retryCount, cfg.maxRetries)
    ensures Fate(cfg, policy, h, m).slept == Delays(policy, m.retryCount, m.retryCount + Fate(cfg, policy, h, m).calls - 1)
    decreases Weight(cfg, m)
  {
    if h(m.eventId, m.retryCount) || m.retryCount >= cfg.maxRetries {
      DelaysNonNegative(policy, m.retryCount, cfg.maxRetries);
    } else {
      FateIsSum(cfg, policy, h, m.NextRetry());
      FateIsFirstSuccess(cfg, policy, h, m.NextRetry());
    }
  }

  // With the shipped policy of three retries a handler that always raises costs four calls and the
  // waits of 0.5, 1 and 2 seconds.
  lemma ShippedBackoff(m: Message)
    requires m.retryCount == 0
    ensures Fate(Config(3, true), Backoff(0.5, 2.0), (id: string, retry: nat) => false, m) == Verdict(false, 4, 3.5)
  {
    var cfg, policy, h := Config(3, true), Backoff(0.5, 2.0), (id: string, retry: nat) => false;
    DelayGrows(policy, 0);
    DelayGrows(policy, 1);
    hide Delay;
    var once, twice := m.NextRetry(), m.NextRetry().NextRetry();
    assert Fate(cfg, policy, h, twice.NextRetry()) == Verdict(false, 1, 0.0);
    assert Fate(cfg, policy, h, twice) == Verdict(false, 2, 2.0);
    assert Fate(cfg, policy, h, once) == Verdict(false, 3, 3.0);
  }

  // ---- The accounts add up at every moment --------------------------------------------------

  predicate Distinct(queue: seq<Message>) {
    forall i, j :: 0 <= i < j < |queue| ==> queue[i].eventId != queue[j].eventId
  }

  predicate InQueue(queue: seq<Message>, id: string) {
    exists i :: 0 <= i < |queue| && queue[i].eventId == id
  }

  predicate IsBuried(dead: seq<Message>, id: string) {
    exists i :: 0 <= i < |dead| && dead[i].eventId == id
  }

  // What has been spent on the event so far plus what its live copy will still cost is its fate.
  predicate Owes(cfg: Config, policy: Backoff, h: Handler, t: Tally, m: Message, total: Verdict) {
    var v := Fate(cfg, policy, h, m);
    && m.eventId !in t.processed && !IsBuried(t.dead, m.eventId)
    && total == Verdict(v.processed, CallsOf(t, m.eventId) + v.calls, SleptOf(t, m.eventId) + v.slept)
  }

  predicate IsSettled(t: Tally, id: string, total: Verdict) {
    && (id in t.processed <==> total.processed)
    && (IsBuried(t.dead, id) <==> !total.processed)
    && total.calls == CallsOf(t, id) && total.slept == SleptOf(t, id)
  }

  ghost predicate Balanced(cfg: Config, policy: Backoff, h: Handler, t: Tally, ids: map<string, Verdict>) {
    && Distinct(t.queue)
    && (forall i :: 0 <= i < |t.queue| ==>
          t.queue[i].eventId in ids && Owes(cfg, policy, h, t, t.queue[i], ids[t.queue[i].eventId]))
    && (forall id :: id in ids && !InQueue(t.queue, id) ==> IsSettled(t, id, ids[id]))
  }

  lemma BuriedAppend(dead: seq<Message>, m: Message, id: string)
    ensures IsBuried(dead + [m], id) <==> IsBuried(dead, id) || m.eventId == id
  {
    if IsBuried(dead, id) {
      var i :| 0 <= i < |dead| && dead[i].eventId == id;
      assert (dead + [m])[i] == dead[i];
    }
    if m.eventId == id {
      assert (dead + [m])[|dead|] == m;
    }
    if IsBuried(dead + [m], id) {
      var i :| 0 <= i < |dead + [m]| && (dead + [m])[i].eventId == id;
      assert i < |dead| ==> dead[i].eventId == id;
    }
  }

  lemma QueueAfter(cfg: Config, policy: Backoff, h: Handler, t: Tally, id: string)
    requires t.queue != [] && Distinct(t.queue) && t.queue[0].eventId !in t.processed
    ensures var q := Serve(cfg, policy, h, t).queue;
      Distinct(q) && (id != t.queue[0].eventId ==> (InQueue(q, id) <==> InQueue(t.queue, id)))
  {
    var q, m := Serve(cfg, policy, h, t).queue, t.queue[0];
    if id != m.eventId {
      if InQueue(t.queue, id) {
        var i :| 0 <= i < |t.queue| && t.queue[i].eventId == id;
        assert q[i - 1] == t.queue[i];
      }
      if InQueue(q, id) {
        var i :| 0 <= i < |q| && q[i].eventId == id;
        assert t.queue[i + 1] == q[i];
      }
    }
  }

  // Serving the head changes no other event's account.
  lemma OthersUntouched(cfg: Config, policy: Backoff, h: Handler, t: Tally, id: string)
    requires t.queue != [] && t.queue[0].eventId != id
    ensures var t' := Serve(cfg, policy, h, t);
      && (id in t'.processed <==> id in t.processed)
      && (IsBuried(t'.dead, id) <==> IsBuried(t.dead, id))
      && CallsOf(t', id) == CallsOf(t, id) && SleptOf(t', id) == SleptOf(t, id)
  {
    BuriedAppend(t.dead, t.queue[0], id);
  }

  // The head either settles its account or passes the debt on to its retry.
  lemma HeadServed(cfg: Config, policy: Backoff, h: Handler, t: Tally, total: Verdict)
    requires t.queue != [] && Owes(cfg, policy, h, t, t.queue[0], total)
    ensures var t', m := Serve(cfg, policy, h, t), t.queue[0];
      if !h(m.eventId, m.retryCount) && m.retryCount < cfg.maxRetries
      then t'.queue == t.queue[1..] + [m.NextRetry()] && Owes(cfg, policy, h, t', m.NextRetry(), total)
      else t'.queue == t.queue[1..] && IsSettled(t', m.eventId, total)
  {
    BuriedAppend(t.dead, t.queue[0], t.queue[0].eventId);
  }

  lemma ServeKeepsBalance(cfg: Config, policy: Backoff, h: Handler, t: Tally, ids: map<string, Verdict>)
    requires t.queue != [] && Balanced(cfg, policy, h, t, ids)
    ensures Balanced(cfg, policy, h, Serve(cfg, policy, h, t), ids)
  {
    var t', m := Serve(cfg, policy, h, t), t.queue[0];
    HeadServed(cfg, policy, h, t, ids[m.eventId]);
    QueueAfter(cfg, policy, h, t, m.eventId);
    forall i | 0 <= i < |t'.queue|
      ensures t'.queue[i].eventId in ids && Owes(cfg, policy, h, t', t'.queue[i], ids[t'.queue[i].eventId])
    {
      if i < |t.queue| - 1 {
        assert t'.queue[i] == t.queue[i + 1] && t.queue[0].eventId != t.queue[i + 1].eventId;
        OthersUntouched(cfg, policy, h, t, t.queue[i + 1].eventId);
      }
    }
    assert t'.queue != [] ==> InQueue(t'.queue, t'.queue[|t'.queue| - 1].eventId);
    forall id | id in ids && !InQueue(t'.queue, id) ensures IsSettled(t', id, ids[id]) {
      if id != m.eventId {
        QueueAfter(cfg, policy, h, t, id);
        OthersUntouched(cfg, policy, h, t, id);
      }
    }
  }

  // ---- The consumer ------------------------------------------------------------------------------

  class Consumer {
    const cfg: Config
    const policy: Backoff
    const handler: Handler
    const result: Message -> Option<Message>
    var broker: Broker
    var next: nat  // entries below it are acknowledged
    var calls: map<string, nat>
    var slept: map<string, real>

    constructor (cfg: Config, policy: Backoff, handler: Handler, result: Message -> Option<Message>, log: seq<Message>)
      ensures Valid() && View() == Tally(log, {}, [], map[], map[]) && broker.log == log && next == broker.delivered
      ensures this.cfg == cfg && this.policy == policy && this.handler == handler && this.result == result
    {
      this.cfg, this.policy, this.handler, this.result := cfg, policy, handler, result;
      broker, next := EMPTY_BROKER.(log := log), 0;
      calls, slept := map[], map[];
    }

    ghost predicate Valid()
      reads this
    {
      && next <= broker.delivered <= |broker.log|
      && (forall i: nat :: i in broker.pending <==> next <= i < broker.delivered)
    }

    // Everything from `next` on is still to be processed.
    ghost function View(): Tally
      reads this
      requires Valid()
    {
      Tally(broker.log[next..], broker.marks, broker.dead, calls, slept)
    }

    method ProcessNext()
      requires Valid() && next < broker.delivered
      modifies this
      ensures Valid() && broker.delivered == old(broker.delivered) && next == old(next) + 1
      ensures View() == Serve(cfg, policy, handler, old(View()))
      ensures var m := old(broker.log[next]);
        broker == Finish(cfg, old(broker), Checking(Entry(old(next), m)), handler(m.eventId, m.retryCount), result(m))
    {
      hide Finish;
      var m := broker.log[next];
      var id := m.eventId;
      if id !in broker.marks {
        calls := calls[id := (if id in calls then calls[id] else 0) + 1];
        if handler(id, m.retryCount) {
          broker := broker.(marks := broker.marks + {id}, everMarked := broker.everMarked + {id});
        } else if m.retryCount < cfg.maxRetries {
          slept := slept[id := (if id in slept then slept[id] else 0.0) + Delay(policy, m.retryCount)];
          broker := broker.(log := broker.log + [m.NextRetry()]);
        } else {
          broker := broker.(dead := broker.dead + [m]);
        }
      }
      broker := broker.(pending := broker.pending - {next});
      next := next + 1;
      FinishEntry(cfg, old(broker), Entry(old(next), m), handler(id, m.retryCount), result(m));
      assert broker.log[next..] == Serve(cfg, policy, handler, old(View())).queue;
    }

    // One batch: what was read first is processed first, retries queue up behind it.
    method RunOnce(batchSize: nat, ghost ids: map<string, Verdict>) returns (processedAny: bool, served: nat)
      requires Valid() && next == broker.delivered && batchSize > 0
      requires Balanced(cfg, policy, handler, View(), ids)
      modifies this
      ensures Valid() && next == broker.delivered
      ensures Balanced(cfg, policy, handler, View(), ids)
      ensures processedAny <==> old(View()).queue != []
      ensures processedAny <==> served > 0
      ensures Measure(cfg, View().queue) + served <= Measure(cfg, old(View()).queue)
    {
      var size := if |broker.log| - broker.delivered < batchSize then |broker.log| - broker.delivered else batchSize;
      var last := broker.delivered + size;
      broker := broker.(delivered := last, pending := broker.pending + Span(broker.delivered, last));
      served := 0;
      while next < last
        invariant Valid() && next <= last == broker.delivered && next == old(next) + served
        invariant Balanced(cfg, policy, handler, View(), ids)
        invariant Measure(cfg, View().queue) + served <= Measure(cfg, old(View()).queue)
      {
        ServeKeepsBalance(cfg, policy, handler, View(), ids);
        MeasureFalls(cfg, policy, handler, View());
        ProcessNext();
        served := served + 1;
      }
      processedAny := size > 0;
    }

    // Repeated batches come to an end, after no more entries than the initial measure; then
    // every event has met its fate.
    method DrainAll(batchSize: nat, ghost ids: map<string, Verdict>) returns (served: nat)
      requires Valid() && next == broker.delivered && batchSize > 0
      requires Balanced(cfg, policy, handler, View(), ids)
      modifies this
      ensures Valid() && View().queue == []
      ensures served <= Measure(cfg, old(View()).queue)
      ensures forall id :: id in ids ==> IsSettled(View(), id, ids[id])
    {
      served := 0;
      var more := true;
      while more
        invariant Valid() && next == broker.delivered
        invariant Balanced(cfg, policy, handler, View(), ids)
        invariant !more ==> View().queue == []
        invariant served + Measure(cfg, View().queue) <= Measure(cfg, old(View()).queue)
        decreases Measure(cfg, View().queue), more
      {
        var n;
        more, n := RunOnce(batchSize, ids);
        served := served + n;
      }
    }
  }

  // ---- Theorem: the drain -----------------------------------------------------------------------

  function Fates(cfg: Config, policy: Backoff, h: Handler, log: seq<Message>): map<string, Verdict> {
    if log == [] then map[]
    else Fates(cfg, policy, h, log[1..])[log[0].eventId := Fate(cfg, policy, h, log[0])]
  }

  lemma {:induction false} FatesOf(cfg: Config, policy: Backoff, h: Handler, log: seq<Message>)
    requires Distinct(log)
    ensures var ids := Fates(cfg, policy, h, log);
      && (forall i :: 0 <= i < |log| ==> log[i].eventId in ids && ids[log[i].eventId] == Fate(cfg, policy, h, log[i]))
      && (forall id :: id in ids ==> InQueue(log, id))
    decreases |log|
  {
    if log != [] {
      FatesOf(cfg, policy, h, log[1..]);
      var ids := Fates(cfg, policy, h, log);
      forall i | 0 <= i < |log| ensures log[i].eventId in ids && ids[log[i].eventId] == Fate(cfg, policy, h, log[i]) {
        assert i > 0 ==> log[i] == log[1..][i - 1] && log[i].eventId != log[0].eventId;
      }
      forall id | id in ids ensures InQueue(log, id) {
        if id == log[0].eventId {
          assert log[0].eventId == id;
        } else {
          var i :| 0 <= i < |log[1..]| && log[1..][i].eventId == id;
          assert log[i + 1].eventId == id;
        }
      }
    }
  }

  // From a stream of distinct events, a crash-free consumer reaches the end of its stream.  Each
  // event is then processed or buried, never both, after exactly the handler calls and the
  // waiting of its fate; and the number of entries served is bounded by the initial measure.
  method EmptyStream(cfg: Config, policy: Backoff, h: Handler, result: Message -> Option<Message>, log: seq<Message>, batchSize: nat)
    returns (c: Consumer, served: nat)
    requires Distinct(log) && batchSize > 0
    ensures fresh(c) && c.Valid() && c.View().queue == []
    ensures served <= Measure(cfg, log)
    ensures forall i :: 0 <= i < |log| ==> IsSettled(c.View(), log[i].eventId, Fate(cfg, policy, h, log[i]))
  {
    c := new Consumer(cfg, policy, h, result, log);
    ghost var ids := Fates(cfg, policy, h, log);
    FatesOf(cfg, policy, h, log);
    served := c.DrainAll(batchSize, ids);
    assert forall i :: 0 <= i < |log| ==> ids[log[i].eventId] == Fate(cfg, policy, h, log[i]);
  }
}
