/** The in-memory event store. */
module EventStore {
  import opened Basics
  import opened EventLog

  // ---------------------------------------------------------------------------
  // Specification of the reading operations
  // ---------------------------------------------------------------------------

  function Highest(log: Log): Option<Sequence> {
    if log == [] then None
    else
      var last := log[|log| - 1].sequence;
      match Highest(log[..|log| - 1])
      case None => Some(last)
      case Some(h) => Some(if last > h then last else h)
  }

  function NextSequence(log: Log): Outcome<Sequence> {
    match Highest(log)
    case None => Ok(0)
    case Some(h) => if h == U64_MAX then Err("event sequence overflow") else Ok(h + 1)
  }

  /** The next free position: one past the highest, or an overflow. */
  ghost predicate IsNext(log: Log, r: Outcome<Sequence>) {
    match r
    case Ok(n) => (forall e :: e in log ==> e.sequence < n) && (n > 0 ==> HasPosition(log, n - 1))
    case Err(_) => HasPosition(log, U64_MAX)
  }

  predicate After(e: Event, after: Option<Sequence>) {
    after.Some? ==> e.sequence > after.value
  }

  function KeepAfter(log: Log, after: Option<Sequence>): Log {
    if log == [] then []
    else KeepAfter(log[..|log| - 1], after) + (if After(log[|log| - 1], after) then [log[|log| - 1]] else [])
  }

  function KeepKind(log: Log, prefix: Kind): Log {
    if log == [] then []
    else KeepKind(log[..|log| - 1], prefix) + (if prefix <= log[|log| - 1].kind then [log[|log| - 1]] else [])
  }

  function Truncate(log: Log, limit: Option<nat>): Log {
    if limit.Some? && limit.value < |log| then log[..limit.value] else log
  }

  /** What `list_session_range` promises on a sorted log: the positions after `after`, at most `limit`. */
  function Range(log: Log, after: Option<Sequence>, limit: Option<nat>): Log {
    Truncate(KeepAfter(log, after), limit)
  }

  lemma {:induction false} KeepAfterSorted(log: Log, after: Option<Sequence>)
    requires Sorted(log)
    ensures Sorted(KeepAfter(log, after))
    ensures forall e :: e in KeepAfter(log, after) <==> e in log && After(e, after)
  {
    if log != [] {
      var init, last := log[..|log| - 1], log[|log| - 1];
      KeepAfterSorted(init, after);
      forall i | 0 <= i < |KeepAfter(init, after)| ensures KeepAfter(init, after)[i].sequence <= last.sequence {
        assert KeepAfter(init, after)[i] in init;
      }
      assert log == init + [last];
    }
  }

  lemma AscendingIsSorted(log: Log)
    requires Ascending(log)
    ensures Sorted(log)
  {
  }

  lemma {:induction false} HighestIsHighest(log: Log)
    requires log != []
    ensures Highest(log).Some? && HasPosition(log, Highest(log).value)
    ensures forall e :: e in log ==> e.sequence <= Highest(log).value
  {
    var init, last := log[..|log| - 1], log[|log| - 1];
    if init != [] {
      HighestIsHighest(init);
      var i :| 0 <= i < |init| && init[i].sequence == Highest(init).value;
      assert log[i].sequence == Highest(init).value;
    }
    forall e | e in log ensures e.sequence <= Highest(log).value {
      assert e in init || e == last;
    }
  }

  lemma NextIsNext(log: Log)
    ensures IsNext(log, NextSequence(log))
  {
    if log != [] { HighestIsHighest(log); }
  }

  /** The position is determined: no other answer would do. */
  lemma NextIsUnique(log: Log, n: Sequence)
    requires IsNext(log, Ok(n))
    ensures NextSequence(log) == Ok(n)
  {
    NextIsNext(log);
    if log != [] {
      HighestIsHighest(log);
      assert n > 0 ==> HasPosition(log, n - 1);
    }
  }

  method InMemoryNextSequence(log: Log) returns (r: Outcome<Sequence>)
    ensures r == NextSequence(log)
    ensures IsNext(log, r)
  {
    NextIsNext(log);
    var highest: Option<Sequence> := None;
    for i := 0 to |log|
      invariant highest == Highest(log[..i])
    {
      assert log[..i + 1][..i] == log[..i];
      if highest.None? || log[i].sequence > highest.value { highest := Some(log[i].sequence); }
    }
    assert log[..|log|] == log;
    if highest.None? {
      return Ok(0);
    }
    r := if highest.value == U64_MAX then Err("event sequence overflow") else Ok(highest.value + 1);
  }

  /** `append_with_sequence`: allocate and push under one lock. */
  function AppendNext(st: Store, s: SessionId, id: string, kind: Kind, rest: string): Outcome<Store> {
    match NextSequence(LogOf(st, s))
    case Err(why) => Err(why)
    case Ok(n) => Ok(st[s := LogOf(st, s) + [Event(id, s, n, kind, rest)]])
  }

  /** A pushed event is above the log, so pushing is placing. */
  lemma NextKeepsValid(st: Store, s: SessionId, id: string, kind: Kind, rest: string)
    requires Valid(st) && !HasId(st, id) && AppendNext(st, s, id, kind, rest).Ok?
    ensures Valid(AppendNext(st, s, id, kind, rest).value)
  {
    var log := LogOf(st, s);
    var e := Event(id, s, NextSequence(log).value, kind, rest);
    NextIsNext(log);
    assert Place(log, e) == log + [e] by {
      if log != [] { assert log[|log| - 1] in log; }
    }
    PlaceKeepsValid(st, e);
  }

  // ---------------------------------------------------------------------------
  // Batches
  // ---------------------------------------------------------------------------

  ghost function SortAll(st: Store): Store {
    map s | s in st :: SortLog(st[s])
  }

  /** The unsorted candidate a batch builds stands for the store reached one event at a time. */
  ghost predicate Stands(candidate: Store, ids: set<string>, st: Store) {
    SortAll(candidate) == st && forall id :: id in ids <==> HasId(st, id)
  }

  lemma SortedPosition(log: Log, n: nat)
    ensures HasPosition(SortLog(log), n) <==> HasPosition(log, n)
  {
    LogContents(log);
    if HasPosition(log, n) {
      var i :| 0 <= i < |log| && log[i].sequence == n;
      assert log[i] in SortLog(log);
    }
    if HasPosition(SortLog(log), n) {
      var i :| 0 <= i < |SortLog(log)| && SortLog(log)[i].sequence == n;
      assert SortLog(log)[i] in log;
    }
  }

  lemma StandsAccepts(candidate: Store, ids: set<string>, st: Store, e: Event)
    requires Stands(candidate, ids, st)
    ensures AppendTo(st, e).Ok? <==> e.id !in ids && !HasPosition(LogOf(candidate, e.sessionId), e.sequence)
    ensures LogOf(st, e.sessionId) == SortLog(LogOf(candidate, e.sessionId))
  {
    SortedPosition(LogOf(candidate, e.sessionId), e.sequence);
  }

  lemma StandsNext(candidate: Store, ids: set<string>, st: Store, e: Event)
    requires Stands(candidate, ids, st) && AppendTo(st, e).Ok?
    ensures Stands(candidate[e.sessionId := LogOf(candidate, e.sessionId) + [e]], ids + {e.id}, AppendTo(st, e).value)
  {
    var log := LogOf(candidate, e.sessionId);
    StandsAccepts(candidate, ids, st, e);
    SortPushed(log, e);
    assert AppendTo(st, e).value == st[e.sessionId := Place(LogOf(st, e.sessionId), e)];
    assert SortAll(candidate[e.sessionId := log + [e]]) == SortAll(candidate)[e.sessionId := SortLog(log + [e])];
    PlaceIds(st, e);
  }

  /** Sorting after every push and sorting once at the end agree. */
  lemma SortPushed(log: Log, e: Event)
    ensures SortLog(SortLog(log) + [e]) == SortLog(log + [e]) == Place(SortLog(log), e)
  {
    SortSorted(log);
    SortAppend(SortLog(log), e);
    assert (log + [e])[..|log|] == log;
  }

  lemma PlaceIds(st: Store, e: Event)
    ensures forall id :: HasId(st[e.sessionId := Place(LogOf(st, e.sessionId), e)], id) <==> HasId(st, id) || id == e.id
  {
    var st': Store := st[e.sessionId := Place(LogOf(st, e.sessionId), e)];
    PlaceContents(LogOf(st, e.sessionId), e);
    forall id ensures HasId(st', id) <==> HasId(st, id) || id == e.id {
      if HasId(st', id) {
        var s, i :| s in st' && 0 <= i < |st'[s]| && st'[s][i].id == id;
        if s == e.sessionId {
          assert st'[s][i] in st'[s];
        } else {
          assert st[s][i].id == id;
        }
      }
      if HasId(st, id) {
        var s, i :| s in st && 0 <= i < |st[s]| && st[s][i].id == id;
        assert st[s][i] in st'[s];
        var k :| 0 <= k < |st'[s]| && st'[s][k] == st[s][i];
      }
      assert e in st'[e.sessionId];
      var k :| 0 <= k < |st'[e.sessionId]| && st'[e.sessionId][k] == e;
    }
  }

  // ---------------------------------------------------------------------------
  // The store
  // ---------------------------------------------------------------------------

  method PositionTaken(session: Log, n: Sequence) returns (taken: bool)
    ensures taken <==> HasPosition(session, n)
  {
    for i := 0 to |session|
      invariant forall k :: 0 <= k < i ==> session[k].sequence != n
    {
      if session[i].sequence == n { return true; }
    }
    taken := false;
  }

  class InMemoryEventStore {
    var events: Store

    constructor ()
      ensures events == map[] && Valid(events)
    {
      events := map[];
    }

    /** The scan of `append` over every event of every session. */
    method IdTaken(id: string) returns (taken: bool)
      ensures taken <==> HasId(events, id)
    {
      var rest := events.Keys;
      while rest != {}
        invariant rest <= events.Keys
        invariant forall s, i :: s in events && s !in rest && 0 <= i < |events[s]| ==> events[s][i].id != id
        decreases rest
      {
        var s :| s in rest;
        for i := 0 to |events[s]|
          invariant forall k :: 0 <= k < i ==> events[s][k].id != id
        {
          if events[s][i].id == id { return true; }
        }
        rest := rest - {s};
      }
      taken := false;
    }

    method Append(e: Event) returns (r: Outcome<()>)
      requires Valid(events)
      modifies this
      ensures Valid(events)
      ensures match AppendTo(old(events), e)
              case Ok(st) => r.Ok? && events == st
              case Err(why) => r == Err(why) && events == old(events)
    {
      var taken := IdTaken(e.id);
      if taken {
        return Err("duplicate event id");
      }
      var session := LogOf(events, e.sessionId);
      taken := PositionTaken(session, e.sequence);
      if taken {
        return Err("duplicate event position");
      }
      AppendKeepsValid(events, e);
      events := events[e.sessionId := SortLog(session + [e])];
      r := Ok(());
    }

    /** The check of a batch that the sessions it must own are empty. */
    method AllEmpty(sessions: seq<SessionId>) returns (empty: bool)
      ensures empty <==> forall s :: s in sessions ==> LogOf(events, s) == []
    {
      for i := 0 to |sessions|
        invariant forall k :: 0 <= k < i ==> LogOf(events, sessions[k]) == []
      {
        if LogOf(events, sessions[i]) != [] { return false; }
      }
      empty := true;
    }

    /** The candidate a batch builds on the side: pushed, not yet sorted. */
    method BuildCandidate(batch: seq<Event>) returns (r: Outcome<Store>)
      requires Valid(events)
      ensures r.Ok? <==> AppendEach(events, batch).Ok?
      ensures r.Ok? ==> SortAll(r.value) == AppendEach(events, batch).value
    {
      var candidate := events;
      var ids := set s, i | s in events && 0 <= i < |events[s]| :: events[s][i].id;
      StandsAtStart(events, ids);
      for i := 0 to |batch|
        invariant AppendEach(events, batch[..i]).Ok?
        invariant Stands(candidate, ids, AppendEach(events, batch[..i]).value)
      {
        var e := batch[i];
        ghost var st := AppendEach(events, batch[..i]).value;
        StandsAccepts(candidate, ids, st, e);
        EachNext(events, batch, i);
        if e.id in ids {
          return Err("duplicate event id");
        }
        var session := LogOf(candidate, e.sessionId);
        var taken := PositionTaken(session, e.sequence);
        if taken {
          return Err("duplicate event position");
        }
        StandsNext(candidate, ids, st, e);
        ids := ids + {e.id};
        candidate := candidate[e.sessionId := session + [e]];
      }
      assert batch[..|batch|] == batch;
      r := Ok(candidate);
    }

    /**
     All or nothing: the batch goes in exactly when the required sessions are empty and its
     events could be appended one at a time, and then leaves the very same store.
     */
    method AppendBatchAtomicIfSessionsEmpty(batch: seq<Event>, requiredEmpty: seq<SessionId>) returns (r: Outcome<()>)
      requires Valid(events)
      modifies this
      ensures Valid(events)
      ensures r.Ok? <==> (forall s :: s in requiredEmpty ==> LogOf(old(events), s) == []) && AppendEach(old(events), batch).Ok?
      ensures r.Ok? ==> events == AppendEach(old(events), batch).value
      ensures r.Err? ==> events == old(events)
    {
      var empty := AllEmpty(requiredEmpty);
      if !empty {
        return Err("event batch requires empty session");
      }
      var built := BuildCandidate(batch);
      if built.Err? {
        return Err(built.reason);
      }
      var candidate := built.value;
      EachKeepsValid(events, batch);
      events := map s | s in candidate :: SortLog(candidate[s]);
      r := Ok(());
    }

    method AppendWithSequence(s: SessionId, freshId: string, kind: Kind, rest: string) returns (r: Outcome<Event>)
      requires Valid(events) && !HasId(events, freshId)
      modifies this
      ensures Valid(events)
      ensures match AppendNext(old(events), s, freshId, kind, rest)
              case Ok(st) => r.Ok? && events == st && r.value == events[s][|events[s]| - 1]
              case Err(why) => r == Err(why) && events == old(events)
    {
      var log := LogOf(events, s);
      var next := InMemoryNextSequence(log);
      if next.Err? {
        return Err(next.reason);
      }
      NextKeepsValid(events, s, freshId, kind, rest);
      var event := Event(freshId, s, next.value, kind, rest);
      events := events[s := log + [event]];
      r := Ok(event);
    }

    /** Compare-and-append: `Ok(None)` leaves the store alone. */
    method AppendWithSequenceIfNext(s: SessionId, expected: Sequence, freshId: string, kind: Kind, rest: string)
      returns (r: Outcome<Option<Event>>)
      requires Valid(events) && !HasId(events, freshId)
      modifies this
      ensures Valid(events)
      ensures r.Err? <==> NextSequence(LogOf(old(events), s)).Err?
      ensures r.Ok? && r.value.Some? <==> NextSequence(LogOf(old(events), s)) == Ok(expected)
      ensures if r.Ok? && r.value.Some?
              then AppendNext(old(events), s, freshId, kind, rest) == Ok(events) && r.value.value.sequence == expected
              else events == old(events)
    {
      var log := LogOf(events, s);
      var next := InMemoryNextSequence(log);
      if next.Err? {
        return Err(next.reason);
      }
      if next.value != expected {
        return Ok(None);
      }
      NextKeepsValid(events, s, freshId, kind, rest);
      var event := Event(freshId, s, next.value, kind, rest);
      events := events[s := log + [event]];
      r := Ok(Some(event));
    }

    static method FilterAfter(log: Log, after: Option<Sequence>) returns (kept: Log)
      ensures kept == KeepAfter(log, after)
    {
      kept := [];
      for i := 0 to |log|
        invariant kept == KeepAfter(log[..i], after)
      {
        assert log[..i + 1][..i] == log[..i];
        if After(log[i], after) { kept := kept + [log[i]]; }
      }
      assert log[..|log|] == log;
    }

    method ListSessionRange(s: SessionId, after: Option<Sequence>, limit: Option<nat>) returns (page: Log)
      requires Valid(events)
      ensures page == Range(LogOf(events, s), after, limit)
    {
      var log := LogOf(events, s);
      var kept := FilterAfter(log, after);
      KeepAfterSorted(log, after);
      SortIdle(kept);
      page := SortLog(kept);
      if limit.Some? && limit.value < |page| {
        page := page[..limit.value];
      }
    }

    method ListSession(s: SessionId) returns (log: Log)
      requires Valid(events)
      ensures log == LogOf(events, s)
    {
      log := ListSessionRange(s, None, None);
      KeepAll(LogOf(events, s));
    }

    /** Filters without sorting; the invariant makes that the ordered filter of `list_session`. */
    method ListSessionKindPrefix(s: SessionId, prefix: Kind) returns (found: Log)
      requires Valid(events)
      ensures found == KeepKind(LogOf(events, s), prefix)
      ensures Ascending(found) && forall e :: e in found <==> e in LogOf(events, s) && prefix <= e.kind
    {
      var log := LogOf(events, s);
      found := [];
      for i := 0 to |log|
        invariant found == KeepKind(log[..i], prefix)
      {
        assert log[..i + 1][..i] == log[..i];
        if prefix <= log[i].kind { found := found + [log[i]]; }
      }
      assert log[..|log|] == log;
      KeepKindOrdered(log, prefix);
    }
  }

  lemma {:induction false} KeepAll(log: Log)
    ensures KeepAfter(log, None) == log
  {
    if log != [] { KeepAll(log[..|log| - 1]); }
  }

  lemma {:induction false} KeepKindOrdered(log: Log, prefix: Kind)
    requires Ascending(log)
    ensures Ascending(KeepKind(log, prefix))
    ensures forall e :: e in KeepKind(log, prefix) <==> e in log && prefix <= e.kind
  {
    if log != [] {
      var init, last := log[..|log| - 1], log[|log| - 1];
      KeepKindOrdered(init, prefix);
      forall i | 0 <= i < |KeepKind(init, prefix)| ensures KeepKind(init, prefix)[i].sequence < last.sequence {
        assert KeepKind(init, prefix)[i] in init;
      }
      assert log == init + [last];
    }
  }

  /** The next event decides between one more step and a failure of the whole batch. */
  lemma EachNext(st: Store, batch: seq<Event>, i: nat)
    requires i < |batch| && AppendEach(st, batch[..i]).Ok?
    ensures AppendEach(st, batch[..i + 1]) == AppendTo(AppendEach(st, batch[..i]).value, batch[i])
    ensures AppendEach(st, batch[..i + 1]).Err? ==> AppendEach(st, batch).Err?
  {
    assert batch[..i + 1][..i] == batch[..i];
    if AppendEach(st, batch[..i + 1]).Err? {
      EachFails(st, batch, i + 1);
    }
  }

  lemma StandsAtStart(st: Store, ids: set<string>)
    requires Valid(st) && forall id :: id in ids <==> HasId(st, id)
    ensures Stands(st, ids, st)
  {
    forall s | s in st ensures SortLog(st[s]) == st[s] {
      AscendingIsSorted(st[s]);
      SortIdle(st[s]);
    }
  }
}
