/** The drain when the consumer may die between any two calls, a bounded number of times: it still
    comes to an end, by the lexicographic order of crashes left and work left, and then every
    event has been processed or buried. */
module DrainWithCrashes {
  import opened Wrappers
  import opened Messages
  import opened WorkerProtocol
  import opened Pipeline
  import opened PipelineSafety
  import opened Drain

  // The broker after at most n calls of the automaton; with enough calls this is Finish.
  function RunFor(cfg: Config, b: Broker, pc: Pc, handled: bool, result: Option<Message>, n: nat): Broker
    decreases n
  {
    if n == 0 || !Active(pc) then b
    else
      var x := Exchange(Issue(pc), Answer(b, Issue(pc), handled, result));
      RunFor(cfg, if x.call.XAddOutput? then b else Effect(b, x, 0), Resume(cfg, pc, x.reply), handled, result, n - 1)
  }

  // Given enough calls an entry is dealt with to the end.
  lemma {:induction false} EnoughCalls(cfg: Config, b: Broker, pc: Pc, handled: bool, result: Option<Message>, n: nat)
    requires n >= Rank(pc)
    ensures RunFor(cfg, b, pc, handled, result, n) == Finish(cfg, b, pc, handled, result)
    decreases Rank(pc)
  {
    if Active(pc) {
      var x := Exchange(Issue(pc), Answer(b, Issue(pc), handled, result));
      EnoughCalls(cfg, if x.call.XAddOutput? then b else Effect(b, x, 0), Resume(cfg, pc, x.reply), handled, result, n - 1);
    }
  }

  // What a crash can leave behind while the entry stays pending: nothing, the key, the copy for
  // the retry, or the dead letter.
  predicate IsInterruption(cfg: Config, b: Broker, x: Entry, handled: bool, b': Broker) {
    || b' == b
    || (handled && b' == b.(marks := b.marks + {x.message.eventId}, everMarked := b.everMarked + {x.message.eventId}))
    || (!handled && x.message.retryCount < cfg.maxRetries && b' == b.(log := b.log + [x.message.NextRetry()]))
    || (!handled && x.message.retryCount >= cfg.maxRetries && b' == b.(dead := b.dead + [x.message]))
  }

  lemma LastCall(cfg: Config, b: Broker, pc: Pc, handled: bool, result: Option<Message>, n: nat)
    requires pc.SkipAcking? || pc.Acking? || pc.Closing?
    ensures RunFor(cfg, b, pc, handled, result, n) == if n == 0 then b else Finish(cfg, b, pc, handled, result)
  {
  }

  // From the point where the entry's fate is decided.
  lemma SecondHalf(cfg: Config, b: Broker, pc: Pc, handled: bool, result: Option<Message>, n: nat)
    requires (handled && pc.Marking?) || (!handled && pc.Requeueing? && pc.entry.message.retryCount < cfg.maxRetries)
      || (!handled && pc.Burying? && pc.entry.message.retryCount >= cfg.maxRetries)
    ensures var b' := RunFor(cfg, b, pc, handled, result, n);
      IsInterruption(cfg, b, pc.entry, handled, b') || b' == Finish(cfg, b, pc, handled, result)
  {
    if n > 0 {
      var x := Exchange(Issue(pc), Done);
      LastCall(cfg, Effect(b, x, 0), Resume(cfg, pc, Done), handled, result, n - 1);
    }
  }

  lemma Interrupted(cfg: Config, b: Broker, x: Entry, handled: bool, result: Option<Message>, n: nat)
    ensures var b' := RunFor(cfg, b, Checking(x), handled, result, n);
      IsInterruption(cfg, b, x, handled, b') || b' == Finish(cfg, b, Checking(x), handled, result)
  {
    if n > 0 {
      if x.message.eventId in b.marks {
        LastCall(cfg, b, SkipAcking(x), handled, result, n - 1);
      } else if n > 1 {
        var next := if handled then Resume(cfg, Handling(x), Returned(result)) else OnFailure(cfg, x);
        assert RunFor(cfg, b, Checking(x), handled, result, n) == RunFor(cfg, b, Handling(x), handled, result, n - 1);
        assert RunFor(cfg, b, Handling(x), handled, result, n - 1) == RunFor(cfg, b, next, handled, result, n - 2);
        assert Finish(cfg, b, Checking(x), handled, result) == Finish(cfg, b, Handling(x), handled, result) == Finish(cfg, b, next, handled, result);
        if next.Publishing? {
          if n > 2 {
            assert RunFor(cfg, b, next, handled, result, n - 2) == RunFor(cfg, b, Marking(x), handled, result, n - 3);
            SecondHalf(cfg, b, Marking(x), handled, result, n - 3);
          }
        } else {
          SecondHalf(cfg, b, next, handled, result, n - 2);
        }
      }
    }
  }

  // ---- The work left -----------------------------------------------------------------------------

  function WorkFrom(cfg: Config, b: Broker, i: nat): nat
    decreases |b.log| - i
  {
    if i >= |b.log| then 0
    else (if IsLive(b, i) then Weight(cfg, b.log[i]) else 0) + WorkFrom(cfg, b, i + 1)
  }

  function Work(cfg: Config, b: Broker): nat {
    WorkFrom(cfg, b, 0)
  }

  lemma {:induction false} WorkAcked(cfg: Config, b: Broker, k: nat, i: nat)
    requires k in b.pending && k < b.delivered <= |b.log|
    ensures WorkFrom(cfg, b.(pending := b.pending - {k}), i) == WorkFrom(cfg, b, i) - (if i <= k then Weight(cfg, b.log[k]) else 0)
    decreases |b.log| - i
  {
    if i < |b.log| {
      WorkAcked(cfg, b, k, i + 1);
    }
  }

  lemma {:induction false} WorkAppended(cfg: Config, b: Broker, m: Message, i: nat)
    requires b.delivered <= |b.log| && i <= |b.log| && forall j :: j in b.pending ==> j < b.delivered
    ensures WorkFrom(cfg, b.(log := b.log + [m]), i) == WorkFrom(cfg, b, i) + Weight(cfg, m)
    decreases |b.log| - i
  {
    var b' := b.(log := b.log + [m]);
    if i < |b.log| {
      WorkAppended(cfg, b, m, i + 1);
    } else {
      assert WorkFrom(cfg, b', i + 1) == 0;
    }
  }

  lemma {:induction false} WorkOfOthers(cfg: Config, b: Broker, b': Broker, i: nat)
    requires b'.log == b.log && b'.pending == b.pending && b'.delivered == b.delivered
    ensures WorkFrom(cfg, b', i) == WorkFrom(cfg, b, i)
    decreases |b.log| - i
  {
    if i < |b.log| {
      WorkOfOthers(cfg, b, b', i + 1);
    }
  }

  // An entry dealt with to the end takes work away.
  lemma FinishWorks(cfg: Config, b: Broker, x: Entry, handled: bool, result: Option<Message>)
    requires GroupOk(b) && EntryOk(b, x) && x.index in b.pending
    ensures Work(cfg, Finish(cfg, b, Checking(x), handled, result)) < Work(cfg, b)
  {
    FinishEntry(cfg, b, x, handled, result);
    hide Finish;
    var m, acked := x.message, b.(pending := b.pending - {x.index});
    WorkAcked(cfg, b, x.index, 0);
    if m.eventId !in b.marks {
      if handled {
        WorkOfOthers(cfg, acked, acked.(marks := b.marks + {m.eventId}, everMarked := b.everMarked + {m.eventId}), 0);
      } else if m.retryCount < cfg.maxRetries {
        WorkAppended(cfg, acked, m.NextRetry(), 0);
      } else {
        WorkOfOthers(cfg, acked, acked.(dead := b.dead + [m]), 0);
      }
    }
  }

  // ---- Nothing is lost on the way ---------------------------------------------------------------

  lemma FinishKeepsGroup(cfg: Config, b: Broker, x: Entry, handled: bool, result: Option<Message>)
    requires GroupOk(b) && EntryOk(b, x)
    ensures GroupOk(Finish(cfg, b, Checking(x), handled, result)) && BrokerGrows(b, Finish(cfg, b, Checking(x), handled, result))
  {
    FinishEntry(cfg, b, x, handled, result);
    hide Finish;
    var b' := Finish(cfg, b, Checking(x), handled, result);
    assert b'.pending == b.pending - {x.index} + Span(b.delivered, b'.delivered);
    var id := x.message.eventId;
    if id !in b.marks && !handled {
      assert x.message.retryCount < cfg.maxRetries ==> b'.log[|b.log|].eventId == id;
      assert x.message.retryCount >= cfg.maxRetries ==> b'.dead[|b.dead|].eventId == id;
    }
    assert Resolved(b', x.index, id);
    ResolvedInsteadOf(b, b', x);
  }

  // An acknowledged entry may be resolved by what the same step did.
  lemma ResolvedInsteadOf(b: Broker, b': Broker, x: Entry)
    requires BrokerGrows(b, b') && GroupOk(b) && EntryOk(b, x)
    requires b'.delivered == b.delivered <= |b'.log| && b'.marks <= b'.everMarked && b'.pending == b.pending - {x.index}
    requires Resolved(b', x.index, x.message.eventId)
    ensures GroupOk(b')
  {
  }

  lemma InterruptionKeepsGroup(cfg: Config, b: Broker, x: Entry, handled: bool, b': Broker)
    requires GroupOk(b) && IsInterruption(cfg, b, x, handled, b')
    ensures GroupOk(b') && BrokerGrows(b, b') && b'.pending == b.pending && b'.delivered == b.delivered
  {
    hide Resolved;
    assert BrokerGrows(b, b');
    forall i: nat | i < b'.delivered && i !in b'.pending ensures Resolved(b', i, b'.log[i].eventId) {
      assert b'.log[i] == b.log[i];
      ResolvedGrows(b, b', i, b.log[i].eventId);
    }
  }

  // ---- Theorem -------------------------------------------------------------------------------------

  lemma {:induction false} NoWorkNoLive(cfg: Config, b: Broker, i: nat, k: nat)
    requires WorkFrom(cfg, b, i) == 0 && i <= k < |b.log|
    ensures !IsLive(b, k)
    decreases |b.log| - i
  {
    if i < k {
      NoWorkNoLive(cfg, b, i + 1, k);
    }
  }

  // Reading delivers up to n more entries; what is live stays live.
  method Deliver(cfg: Config, b: Broker, n: nat) returns (b': Broker)
    requires GroupOk(b)
    ensures GroupOk(b') && BrokerGrows(b, b') && b.pending <= b'.pending
    ensures b' == b.(delivered := b'.delivered, pending := b'.pending) && Work(cfg, b') == Work(cfg, b)
    ensures b'.delivered == if b.delivered + n <= |b.log| then b.delivered + n else |b.log|
    ensures forall i :: b.delivered <= i < b'.delivered ==> i in b'.pending
  {
    b' := b;
    var i := 0;
    while i < n && b'.delivered < |b.log|
      invariant i <= n && b'.delivered == b.delivered + i <= |b.log|
      invariant GroupOk(b') && BrokerGrows(b, b') && b.pending <= b'.pending
      invariant forall k :: b.delivered <= k < b'.delivered ==> k in b'.pending
      invariant b' == b.(delivered := b'.delivered, pending := b'.pending) && Work(cfg, b') == Work(cfg, b)
    {
      var last := b';
      b' := b'.(delivered := b'.delivered + 1, pending := b'.pending + {b'.delivered});
      SameLive(cfg, last, b', 0);
      i := i + 1;
    }
  }

  // The wanted entry if it is pending, and otherwise the first live one, delivered now if need be.
  method NextLive(cfg: Config, b: Broker, wanted: nat) returns (b': Broker, x: Entry)
    requires GroupOk(b) && Work(cfg, b) > 0
    ensures GroupOk(b') && BrokerGrows(b, b') && EntryOk(b', x) && x.index in b'.pending
    ensures b' == b.(delivered := b'.delivered, pending := b'.pending) && Work(cfg, b') == Work(cfg, b)
    ensures wanted in b.pending ==> x.index == wanted
  {
    b' := b;
    if wanted in b.pending {
      x := Entry(wanted, b.log[wanted]);
    } else {
      var i := 0;
      while !(i in b.pending || i >= b.delivered)
        invariant i <= b.delivered && WorkFrom(cfg, b, i) == Work(cfg, b)
        decreases b.delivered - i
      {
        i := i + 1;
      }
      if i !in b.pending {
        b' := Deliver(cfg, b, 1);
      }
      x := Entry(i, b.log[i]);
    }
  }

  lemma {:induction false} SameLive(cfg: Config, b: Broker, b': Broker, i: nat)
    requires b'.log == b.log && forall k :: 0 <= k < |b.log| ==> (IsLive(b, k) <==> IsLive(b', k))
    ensures WorkFrom(cfg, b', i) == WorkFrom(cfg, b, i)
    decreases |b.log| - i
  {
    if i < |b.log| {
      SameLive(cfg, b, b', i + 1);
    }
  }

  // What the outside does at one turn: how many entries are read, which pending one is served, how
  // its handler ends and what it returns, and after how many calls the process dies, if it does.
  datatype Turn = Turn(fetched: nat, wanted: nat, handled: bool, result: Option<Message>, dies: Option<nat>)

  // From any reachable state of the group: whatever crashes, at most `crashes` of them, hit
  // whatever calls, whichever entries are read and served, and however each attempt ends, serving
  // comes to an end, and then every event ever on the stream is processed or in the dead letters.
  method DrainThrough(cfg: Config, turns: nat -> Turn, start: Broker, crashes: nat) returns (b: Broker, survived: nat)
    requires GroupOk(start)
    ensures GroupOk(b) && BrokerGrows(start, b) && survived <= crashes
    ensures forall i: nat :: i < |b.log| ==> !IsLive(b, i) && (b.log[i].eventId in b.everMarked || IsDead(b, b.log[i].eventId))
  {
    hide Finish, RunFor, WorkFrom, GroupOk, IsInterruption, EntryOk, BrokerGrows;
    b, survived := start, 0;
    var tick := 0;
    GrowsNothing(start);
    while Work(cfg, b) > 0
      invariant GroupOk(b) && BrokerGrows(start, b) && survived <= crashes
      decreases crashes - survived, Work(cfg, b)
    {
      var turn, last := turns(tick), b;
      tick := tick + 1;
      b := Deliver(cfg, b, turn.fetched);
      var read := b;
      var x;
      b, x := NextLive(cfg, b, turn.wanted);
      GrowsThen(last, read, b);
      read := b;
      if survived < crashes && turn.dies.Some? {
        survived := survived + 1;
        b := RunFor(cfg, b, Checking(x), turn.handled, turn.result, turn.dies.value);
        Interrupted(cfg, read, x, turn.handled, turn.result, turn.dies.value);
        if IsInterruption(cfg, read, x, turn.handled, b) {
          InterruptionKeepsGroup(cfg, read, x, turn.handled, b);
        } else {
          FinishKeepsGroup(cfg, read, x, turn.handled, turn.result);
        }
      } else {
        b := Finish(cfg, b, Checking(x), turn.handled, turn.result);
        FinishKeepsGroup(cfg, read, x, turn.handled, turn.result);
        FinishWorks(cfg, read, x, turn.handled, turn.result);
      }
      GrowsThen(last, read, b);
      GrowsThen(start, last, b);
    }
    forall i: nat | i < |b.log|
      ensures !IsLive(b, i) && (b.log[i].eventId in b.everMarked || IsDead(b, b.log[i].eventId))
    {
      AllDealtWith(cfg, b, i);
    }
  }

  lemma GrowsNothing(b: Broker)
    ensures BrokerGrows(b, b)
  {
  }

  lemma GrowsThen(a: Broker, b: Broker, c: Broker)
    requires BrokerGrows(a, b) && BrokerGrows(b, c)
    ensures BrokerGrows(a, c)
  {
  }

  lemma AllDealtWith(cfg: Config, b: Broker, i: nat)
    requires GroupOk(b) && Work(cfg, b) == 0 && i < |b.log|
    ensures !IsLive(b, i) && (b.log[i].eventId in b.everMarked || IsDead(b, b.log[i].eventId))
  {
    NoWorkNoLive(cfg, b, 0, i);
    Accounted(b, i);
    if HasLiveEntry(b, b.log[i].eventId) {
      var j: nat :| j < |b.log| && IsLive(b, j) && b.log[j].eventId == b.log[i].eventId;
      NoWorkNoLive(cfg, b, 0, j);
    }
  }
}
