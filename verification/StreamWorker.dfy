/** The consume loop itself, in the form the service has: methods that call Redis and the
    handler one after the other.  Every method is proved to follow the automaton of
    WorkerProtocol.dfy whatever the environment answers, and wherever it raises. */
module StreamWorkers {
  import opened Wrappers
  import opened Messages
  import opened WorkerProtocol

  // Everything the worker talks to: the Redis client, the idempotency store and the domain
  // handler.  Its answers are unconstrained functions of time, so other workers, crashes of
  // the server and key expiry may all show up between two calls.
  class Environment {
    ghost var trace: seq<Exchange>
    var tick: nat
    const raises: nat -> bool
    const found: nat -> bool
    const handled: nat -> Option<Message>
    const batch: nat -> seq<Entry>
    const cursor: nat -> nat
    const horizon: nat  // no stream position lies beyond this one

    constructor (raises: nat -> bool, found: nat -> bool, handled: nat -> Option<Message>,
                 batch: nat -> seq<Entry>, cursor: nat -> nat, horizon: nat)
      ensures trace == []
    {
      this.raises, this.found, this.handled := raises, found, handled;
      this.batch, this.cursor, this.horizon := batch, cursor, horizon;
      tick, trace := 0, [];
    }

    // XAUTOCLAIM scans forward: its next cursor is 0 at the end of the stream, and otherwise
    // lies beyond the one it was given.
    method Do(call: Call) returns (reply: Reply)
      modifies this
      ensures Fits(call, reply)
      ensures trace == old(trace) + [Exchange(call, reply)]
      ensures call.XAutoClaim? && reply.Batch? ==> reply.next == 0 || call.cursor < reply.next <= horizon
    {
      tick := tick + 1;
      if raises(tick) {
        reply := Raised;
      } else {
        match call
        case Exists(_) => reply := Found(found(tick));
        case Handle(_) => reply := Returned(handled(tick));
        case XReadGroup => reply := Batch(batch(tick), 0);
        case XAutoClaim(c) =>
          var next := cursor(tick);
          reply := Batch(batch(tick), if c < next <= horizon then next else 0);
        case _ => reply := Done;
      }
      trace := trace + [Exchange(call, reply)];
    }
  }

  // The indices of the entries handed out by the non-empty claims of a trace, in order.
  function Claimed(trace: seq<Exchange>): seq<nat> {
    if trace == [] then []
    else
      var x := trace[|trace| - 1];
      Claimed(trace[..|trace| - 1]) +
      if x.call.XAutoClaim? && x.reply.Batch? then Indices(x.reply.entries) else []
  }

  function Indices(entries: seq<Entry>): (r: seq<nat>)
    ensures |r| == |entries|
    ensures forall i :: 0 <= i < |entries| ==> r[i] == entries[i].index
  {
    if entries == [] then [] else [entries[0].index] + Indices(entries[1..])
  }

  predicate IsPoll(x: Exchange) {
    x.call.XAutoClaim? || x.call.XReadGroup?
  }

  // The reads and claims of a trace, in order.
  function Polls(trace: seq<Exchange>): seq<Exchange> {
    if trace == [] then []
    else Polls(trace[..|trace| - 1]) + if IsPoll(trace[|trace| - 1]) then [trace[|trace| - 1]] else []
  }

  // The work on entries, between two polls.
  predicate NoPolls(trace: seq<Exchange>) {
    forall x :: x in trace ==> !IsPoll(x)
  }

  lemma NoPollsThen(s: seq<Exchange>, t: seq<Exchange>)
    requires NoPolls(s) && NoPolls(t)
    ensures NoPolls(s + t)
  {
  }

  // Such a stretch adds nothing to what was polled or claimed.
  lemma {:induction false} WorkAppended(s: seq<Exchange>, t: seq<Exchange>)
    requires NoPolls(t)
    ensures Claimed(s + t) == Claimed(s) && Polls(s + t) == Polls(s)
    decreases |t|
  {
    if t == [] {
      assert s + t == s;
    } else {
      assert (s + t)[..|s + t| - 1] == s + t[..|t| - 1];
      assert (s + t)[|s + t| - 1] == t[|t| - 1] && t[|t| - 1] in t;
      WorkAppended(s, t[..|t| - 1]);
      assert Claimed(s + t) == Claimed(s) + [] && Polls(s + t) == Polls(s) + [];
    }
  }

  lemma NothingPolled()
    ensures Claimed([]) == [] && Polls([]) == [] && ScansTo([], 0)
  {
  }

  // One more poll, and then the work on what it brought.
  lemma PollAppended(s: seq<Exchange>, x: Exchange, t: seq<Exchange>)
    requires IsPoll(x) && NoPolls(t)
    ensures Polls(s + [x] + t) == Polls(s) + [x]
    ensures x.call.XAutoClaim? && x.reply.Batch? ==> Claimed(s + [x] + t) == Claimed(s) + Indices(x.reply.entries)
  {
    assert (s + [x])[..|s|] == s;
    WorkAppended(s + [x], t);
  }

  // Claims that each went on where the one before it stopped, up to this cursor.
  predicate ScansTo(claims: seq<Exchange>, cursor: nat) {
    if claims == [] then cursor == 0
    else
      var x := claims[|claims| - 1];
      && x.call.XAutoClaim? && x.reply.Batch? && x.reply.entries != []
      && x.reply.next == cursor != 0
      && ScansTo(claims[..|claims| - 1], x.call.cursor)
  }

  // A scan from the start of the stream that stopped because a claim came back empty or was the
  // last one.
  predicate IsWholeScan(claims: seq<Exchange>) {
    claims != [] &&
    var x := claims[|claims| - 1];
    && x.call.XAutoClaim? && x.reply.Batch? && (x.reply.entries == [] || x.reply.next == 0)
    && ScansTo(claims[..|claims| - 1], x.call.cursor)
  }

  lemma ScanGoesOn(claims: seq<Exchange>, x: Exchange)
    requires x.call.XAutoClaim? && x.reply.Batch? && ScansTo(claims, x.call.cursor)
    ensures if x.reply.entries == [] || x.reply.next == 0 then IsWholeScan(claims + [x]) else ScansTo(claims + [x], x.reply.next)
  {
    assert (claims + [x])[..|claims|] == claims;
  }

  // n rounds of one whole recovery scan and then one read.
  predicate AreRounds(polls: seq<Exchange>, n: nat)
    decreases n
  {
    if n == 0 then polls == []
    else
      && polls != [] && polls[|polls| - 1].call.XReadGroup?
      && exists k :: 0 <= k < |polls| && IsWholeScan(polls[k..|polls| - 1]) && AreRounds(polls[..k], n - 1)
  }

  lemma OneMoreRound(polls: seq<Exchange>, n: nat, scan: seq<Exchange>, read: Exchange)
    requires AreRounds(polls, n) && IsWholeScan(scan) && read.call.XReadGroup?
    ensures AreRounds(polls + scan + [read], n + 1)
  {
    var all := polls + scan + [read];
    assert all[..|polls|] == polls && all[|polls|..|all| - 1] == scan;
  }

  lemma {:induction false} PollsConcat(s: seq<Exchange>, t: seq<Exchange>)
    ensures Polls(s + t) == Polls(s) + Polls(t)
    decreases |t|
  {
    if t == [] {
      assert s + t == s;
    } else {
      assert (s + t)[..|s + t| - 1] == s + t[..|t| - 1];
      PollsConcat(s, t[..|t| - 1]);
    }
  }

  class StreamWorker {
    const cfg: Config
    const client: Environment
    var running: bool

    constructor (cfg: Config, client: Environment)
      ensures this.cfg == cfg && this.client == client && !running
    {
      this.cfg, this.client, running := cfg, client, false;
    }

    // One call, recorded as one more exchange of a trace that began at `base` in worker state w0.
    method Ask(call: Call, ghost base: nat, ghost w0: Worker, ghost w: Worker) returns (reply: Reply, ghost w': Worker)
      requires base <= |client.trace| && Conforms(cfg, w0, client.trace[base..], w)
      requires Issues(w, call)
      modifies client
      ensures client.trace == old(client.trace) + [Exchange(call, reply)]
      ensures Fits(call, reply) && w' == Advance(cfg, w, Exchange(call, reply))
      ensures Conforms(cfg, w0, client.trace[base..], w')
      ensures call.XAutoClaim? && reply.Batch? ==> reply.next == 0 || call.cursor < reply.next <= client.horizon
    {
      reply := client.Do(call);
      w' := Advance(cfg, w, Exchange(call, reply));
      ConformsOneMore(cfg, w0, old(client.trace)[base..], w, Exchange(call, reply));
      assert client.trace[base..] == old(client.trace)[base..] + [Exchange(call, reply)];
    }

    // Deals with one delivered entry.  `alive` is false when an exception leaves the method.
    method ProcessEntry(x: Entry, ghost base: nat, ghost w0: Worker, ghost rest: seq<Entry>) returns (alive: bool)
      requires base <= |client.trace| && Conforms(cfg, w0, client.trace[base..], Worker(rest, Checking(x)))
      modifies client
      ensures old(client.trace) <= client.trace
      ensures NoPolls(client.trace[|old(client.trace)|..])
      ensures Conforms(cfg, w0, client.trace[base..], if alive then Settle(rest, Idle) else DEAD)
    {
      ghost var w := Worker(rest, Checking(x));
      var reply;
      reply, w := Ask(Exists(x.message.eventId), base, w0, w);
      if reply.Raised? { return false; }
      if reply.yes {
        reply, w := Ask(XAck(x.index), base, w0, w);
        return !reply.Raised?;
      }

      // try: ... except:
      var failed := Attempt(x, base, w0, rest);
      if failed {
        alive := HandleFailure(x, base, w0, rest);
      } else {
        alive := true;
      }
    }

    // The guarded part: run the handler, publish its result, mark the event, acknowledge the
    // entry.  An exception in any of the four skips the rest.
    method Attempt(x: Entry, ghost base: nat, ghost w0: Worker, ghost rest: seq<Entry>) returns (failed: bool)
      requires base <= |client.trace| && Conforms(cfg, w0, client.trace[base..], Worker(rest, Handling(x)))
      modifies client
      ensures old(client.trace) <= client.trace
      ensures NoPolls(client.trace[|old(client.trace)|..])
      ensures Conforms(cfg, w0, client.trace[base..], if failed then Worker(rest, OnFailure(cfg, x)) else Settle(rest, Idle))
    {
      ghost var w;
      var reply;
      reply, w := Ask(Handle(x.message), base, w0, Worker(rest, Handling(x)));
      if reply.Raised? { return true; }
      if reply.result.Some? && cfg.hasOutput {
        reply, w := Ask(XAddOutput(reply.result.value), base, w0, w);
        if reply.Raised? { return true; }
      }
      assert w == Worker(rest, Marking(x));
      failed := MarkAndAck(x, base, w0, rest);
    }

    method MarkAndAck(x: Entry, ghost base: nat, ghost w0: Worker, ghost rest: seq<Entry>) returns (failed: bool)
      requires base <= |client.trace| && Conforms(cfg, w0, client.trace[base..], Worker(rest, Marking(x)))
      modifies client
      ensures old(client.trace) <= client.trace
      ensures NoPolls(client.trace[|old(client.trace)|..])
      ensures Conforms(cfg, w0, client.trace[base..], if failed then Worker(rest, OnFailure(cfg, x)) else Settle(rest, Idle))
    {
      ghost var w;
      var reply;
      reply, w := Ask(SetKey(x.message.eventId), base, w0, Worker(rest, Marking(x)));
      if reply.Raised? { return true; }
      reply, w := Ask(XAck(x.index), base, w0, w);
      failed := reply.Raised?;
    }

    method HandleFailure(x: Entry, ghost base: nat, ghost w0: Worker, ghost rest: seq<Entry>) returns (alive: bool)
      requires base <= |client.trace| && Conforms(cfg, w0, client.trace[base..], Worker(rest, OnFailure(cfg, x)))
      modifies client
      ensures old(client.trace) <= client.trace
      ensures NoPolls(client.trace[|old(client.trace)|..])
      ensures Conforms(cfg, w0, client.trace[base..], if alive then Settle(rest, Idle) else DEAD)
    {
      ghost var w := Worker(rest, OnFailure(cfg, x));
      var reply;
      if x.message.retryCount < cfg.maxRetries {
        reply, w := Ask(XAddInput(x.message.NextRetry()), base, w0, w);
      } else {
        reply, w := Ask(XAddDead(x.message), base, w0, w);
      }
      if reply.Raised? { return false; }
      reply, w := Ask(XAck(x.index), base, w0, w);
      alive := !reply.Raised?;
    }

    // Processes a whole batch in the order it was delivered, stopping at an escaped exception.
    method ProcessBatch(entries: seq<Entry>, ghost base: nat, ghost w0: Worker) returns (alive: bool)
      requires base <= |client.trace| && Conforms(cfg, w0, client.trace[base..], Settle(entries, Idle))
      modifies client
      ensures old(client.trace) <= client.trace
      ensures NoPolls(client.trace[|old(client.trace)|..])
      ensures Conforms(cfg, w0, client.trace[base..], if alive then RESTING else DEAD)
    {
      for i := 0 to |entries|
        invariant old(client.trace) <= client.trace
        invariant NoPolls(client.trace[|old(client.trace)|..])
        invariant Conforms(cfg, w0, client.trace[base..], Settle(entries[i..], Idle))
      {
        ghost var before := client.trace;
        assert entries[i..][1..] == entries[i + 1..];
        alive := ProcessEntry(entries[i], base, w0, entries[i + 1..]);
        assert client.trace[|old(client.trace)|..]
            == before[|old(client.trace)|..] + client.trace[|before|..];
        NoPollsThen(before[|old(client.trace)|..], client.trace[|before|..]);
        if !alive { return; }
      }
      alive := true;
    }

    method RunOnce(ghost base: nat, ghost w0: Worker) returns (alive: bool, processedAny: bool)
      requires base <= |client.trace| && Conforms(cfg, w0, client.trace[base..], RESTING)
      modifies client
      ensures old(client.trace) <= client.trace
      ensures Conforms(cfg, w0, client.trace[base..], if alive then RESTING else DEAD)
      ensures |Polls(client.trace[|old(client.trace)|..])| == 1
      ensures var read := Polls(client.trace[|old(client.trace)|..])[0];
        read.call == XReadGroup && (alive ==> read.reply.Batch? && processedAny == (read.reply.entries != []))
    {
      hide Conforms, Polls, NoPolls;
      ghost var before := client.trace;
      NothingPolled();
      var reply;
      ghost var w;
      reply, w := Ask(XReadGroup, base, w0, RESTING);
      ghost var x := Exchange(XReadGroup, reply);
      processedAny := false;
      if reply.Raised? {
        assert client.trace[|before|..] == [] + [x] + [];
        NoWork();
        PollAppended([], x, []);
        return false, false;
      }
      processedAny := reply.entries != [];
      alive := ProcessBatch(reply.entries, base, w0);
      assert client.trace[|before|..] == [] + [x] + client.trace[|before| + 1..];
      PollAppended([], x, client.trace[|before| + 1..]);
    }

    // Reclaims pending entries batch by batch.  It always comes to an end: unless something
    // raises, with a claim that is empty or the last.  What it returns is exactly what the claims
    // handed out.
    method RecoverPending(ghost base: nat, ghost w0: Worker) returns (alive: bool, claimedIds: seq<nat>)
      requires base <= |client.trace| && Conforms(cfg, w0, client.trace[base..], RESTING)
      modifies client
      ensures old(client.trace) <= client.trace
      ensures Conforms(cfg, w0, client.trace[base..], if alive then RESTING else DEAD)
      ensures alive ==> claimedIds == Claimed(client.trace[|old(client.trace)|..])
      ensures alive ==> IsWholeScan(Polls(client.trace[|old(client.trace)|..]))
    {
      hide Conforms, Claimed, Polls, NoPolls, ScansTo, IsWholeScan;
      ghost var before := client.trace;
      claimedIds := [];
      NothingPolled();
      NoWork();
      assert client.trace[|before|..] == [];
      var cursor: nat := 0;
      var scanning := true;
      while scanning
        invariant before <= client.trace
        invariant Conforms(cfg, w0, client.trace[base..], RESTING)
        invariant claimedIds == Claimed(client.trace[|before|..])
        invariant if scanning then ScansTo(Polls(client.trace[|before|..]), cursor) else IsWholeScan(Polls(client.trace[|before|..]))
        invariant cursor <= client.horizon || cursor == 0
        decreases scanning, client.horizon - cursor
      {
        ghost var seen := client.trace;
        var reply;
        ghost var w;
        ghost var x := Exchange(XAutoClaim(cursor), Raised);
        reply, w := Ask(XAutoClaim(cursor), base, w0, RESTING);
        if reply.Raised? { return false, claimedIds; }
        x := x.(reply := reply);
        cursor := reply.next;
        assert seen + [x] == client.trace;
        ScanGoesOn(Polls(seen[|before|..]), x);
        if reply.entries == [] {
          scanning := false;
          assert client.trace[|before|..] == seen[|before|..] + [x] + [];
          PollAppended(seen[|before|..], x, []);
        } else {
          alive := ProcessBatch(reply.entries, base, w0);
          if !alive { return false, claimedIds; }
          assert client.trace[|before|..] == seen[|before|..] + [x] + client.trace[|seen| + 1..];
          PollAppended(seen[|before|..], x, client.trace[|seen| + 1..]);
          claimedIds := claimedIds + Indices(reply.entries);
          scanning := cursor != 0;
        }
      }
      alive := true;
    }

    // Rounds of recovery and reading until the last permitted one, or until stopped from outside.
    method RunForever(maxIterations: nat, stopped: nat -> bool, ghost base: nat, ghost w0: Worker) returns (alive: bool, iterations: nat)
      requires base <= |client.trace| && Conforms(cfg, w0, client.trace[base..], RESTING)
      modifies client, this
      ensures old(client.trace) <= client.trace
      ensures Conforms(cfg, w0, client.trace[base..], if alive then RESTING else DEAD)
      ensures iterations <= if maxIterations == 0 then 1 else maxIterations
      ensures alive ==> AreRounds(Polls(client.trace[|old(client.trace)|..]), iterations)
      ensures alive ==> iterations > 0 && (iterations >= maxIterations || stopped(iterations))
    {
      hide Conforms, Polls, AreRounds, IsWholeScan;
      ghost var before := client.trace;
      NothingPolled();
      assert client.trace[|before|..] == [];
      NoRounds();
      running := true;
      iterations := 0;
      while running
        invariant before <= client.trace
        invariant Conforms(cfg, w0, client.trace[base..], RESTING)
        invariant AreRounds(Polls(client.trace[|before|..]), iterations)
        invariant if running then iterations == 0 || iterations < maxIterations else iterations > 0 && (iterations >= maxIterations || stopped(iterations))
        invariant iterations <= if maxIterations == 0 then 1 else maxIterations
        decreases running, maxIterations - iterations
      {
        ghost var start := client.trace;
        var claimed, any;
        alive, claimed := RecoverPending(base, w0);
        if !alive { return; }
        ghost var recovered := client.trace;
        alive, any := RunOnce(base, w0);
        if !alive { return; }
        RoundAppended(before, start, recovered, client.trace, iterations);
        iterations := iterations + 1;
        // Another thread may have called stop() in the meantime.
        running := iterations < maxIterations && !stopped(iterations);
      }
      alive := true;
    }
  }

  lemma RoundAppended(before: seq<Exchange>, start: seq<Exchange>, recovered: seq<Exchange>, now: seq<Exchange>, n: nat)
    requires before <= start <= recovered <= now
    requires AreRounds(Polls(start[|before|..]), n) && IsWholeScan(Polls(recovered[|start|..]))
    requires |Polls(now[|recovered|..])| == 1 && Polls(now[|recovered|..])[0].call.XReadGroup?
    ensures AreRounds(Polls(now[|before|..]), n + 1)
  {
    hide Polls, AreRounds, IsWholeScan;
    var scan, read := Polls(recovered[|start|..]), Polls(now[|recovered|..]);
    assert now[|before|..] == start[|before|..] + recovered[|start|..] + now[|recovered|..];
    PollsConcat(start[|before|..] + recovered[|start|..], now[|recovered|..]);
    PollsConcat(start[|before|..], recovered[|start|..]);
    assert read == [read[0]];
    OneMoreRound(Polls(start[|before|..]), n, scan, read[0]);
  }

  lemma NoWork()
    ensures NoPolls([])
  {
  }

  lemma NoRounds()
    ensures AreRounds([], 0)
  {
  }
}
