/** The append-only JSON-lines store: a durable file, and the in-memory list and id set that
    mirror it.  The process may die at any append, before or after the line is on disk. */
module EventStores {
  import opened Wrappers
  import opened IncidentContracts
  import opened IncidentLog

  predicate HasId(events: seq<Event>, id: nat) {
    exists i :: 0 <= i < |events| && events[i].eventId == id
  }

  // What loading the file yields: the first line of every event id, in file order.
  function Dedup(file: seq<Event>): seq<Event> {
    if file == [] then []
    else
      var before := Dedup(file[..|file| - 1]);
      if HasId(before, file[|file| - 1].eventId) then before else before + [file[|file| - 1]]
  }

  lemma DedupAppend(file: seq<Event>, e: Event)
    ensures Dedup(file + [e]) == if HasId(Dedup(file), e.eventId) then Dedup(file) else Dedup(file) + [e]
  {
  }

  // Loading is faithful: no id is lost, and no id appears twice.
  lemma {:induction false} DedupFaithful(file: seq<Event>, id: nat)
    ensures HasId(Dedup(file), id) <==> HasId(file, id)
    decreases |file|
  {
    if file != [] {
      var front, e := file[..|file| - 1], file[|file| - 1];
      DedupFaithful(front, id);
      var before := Dedup(front);
      HasIdAppend(before, e, id);
      HasIdAppend(front, e, id);
      assert front + [e] == file;
    }
  }

  lemma HasIdAppend(events: seq<Event>, e: Event, id: nat)
    ensures HasId(events + [e], id) <==> HasId(events, id) || e.eventId == id
  {
    if HasId(events, id) {
      var i :| 0 <= i < |events| && events[i].eventId == id;
      assert (events + [e])[i] == events[i];
    }
    if e.eventId == id {
      assert (events + [e])[|events|] == e;
    }
    if HasId(events + [e], id) {
      var i :| 0 <= i < |events + [e]| && (events + [e])[i].eventId == id;
      assert i < |events| ==> events[i].eventId == id;
    }
  }

  lemma {:induction false} DedupDistinct(file: seq<Event>)
    ensures forall i, j :: 0 <= i < j < |Dedup(file)| ==> Dedup(file)[i].eventId != Dedup(file)[j].eventId
    decreases |file|
  {
    if file != [] {
      DedupDistinct(file[..|file| - 1]);
    }
  }

  // An id no event of the list has: one more than the largest.
  function Unused(events: seq<Event>): (r: nat)
    ensures forall i :: 0 <= i < |events| ==> events[i].eventId < r
  {
    if events == [] then 0
    else
      var last := events[|events| - 1].eventId;
      if Unused(events[..|events| - 1]) > last then Unused(events[..|events| - 1]) else last + 1
  }

  datatype Written = Appended | Duplicate | Died

  class JsonlEventStore {
    var file: seq<Event>
    var events: seq<Event>
    var seen: set<nat>
    var fuse: nat                 // appends this process still lives through
    const diesAfterWriting: bool

    // The log a restarted process would load.
    ghost function Log(): seq<Event>
      reads this
    {
      Dedup(file)
    }

    ghost predicate Valid()
      reads this
    {
      events == Log() && forall id :: id in seen <==> HasId(events, id)
    }

    constructor (file: seq<Event>, fuse: nat, diesAfterWriting: bool)
      ensures Valid() && this.file == file && Log() == Dedup(file)
    {
      this.file, this.fuse, this.diesAfterWriting := file, fuse, diesAfterWriting;
      events, seen := [], {};
      new;
      LoadFromDisk();
    }

    method LoadFromDisk()
      requires events == [] && seen == {}
      modifies this
      ensures Valid() && file == old(file)
    {
      for i := 0 to |file|
        invariant file == old(file) && events == Dedup(file[..i])
        invariant forall id :: id in seen <==> HasId(events, id)
      {
        assert file[..i + 1] == file[..i] + [file[i]];
        DedupAppend(file[..i], file[i]);
        if file[i].eventId !in seen {
          forall id { HasIdAppend(events, file[i], id); }
          seen := seen + {file[i].eventId};
          events := events + [file[i]];
        }
      }
      assert file[..|file|] == file;
    }

    method Append(e: Event) returns (r: Written)
      requires Valid()
      modifies this
      ensures r.Duplicate? <==> HasId(old(Log()), e.eventId)
      ensures r.Duplicate? ==> Valid() && file == old(file)
      ensures r.Appended? ==> Valid() && file == old(file) + [e] && Log() == old(Log()) + [e]
      ensures r.Died? ==> Log() == old(Log()) || Log() == old(Log()) + [e]
    {
      if e.eventId in seen { return Duplicate; }
      DedupAppend(file, e);
      if fuse == 0 {
        if diesAfterWriting {
          file := file + [e];
        }
        return Died;
      }
      fuse := fuse - 1;
      file := file + [e];
      forall id { HasIdAppend(events, e, id); }
      seen := seen + {e.eventId};
      events := events + [e];
      r := Appended;
    }

    method ReadAll(key: Option<string>) returns (r: seq<Event>)
      requires Valid()
      ensures r == if key.None? then Log() else WithKey(Log(), key.value)
    {
      if key.None? { return events; }
      r := [];
      for i := 0 to |events|
        invariant r == WithKey(events[..i], key.value)
      {
        assert events[..i + 1][..i] == events[..i];
        if events[i].fact.correlationId == key.value {
          r := r + [events[i]];
        }
      }
      assert events[..|events|] == events;
    }

    // A random unique id, as far as a caller can tell.
    method NewEventId() returns (id: nat)
      requires Valid()
      ensures !HasId(Log(), id)
    {
      id := Unused(events);
    }
  }
}
