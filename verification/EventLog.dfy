/** Session logs of the in-memory event store, as values. */
module EventLog {
  import opened Basics
  import opened Sorting

  type SessionId = string
  type Byte = b: int | 0 <= b < 256
  /** An event kind, as its UTF-8 bytes. */
  type Kind = seq<Byte>
  type Sequence = n: nat | n <= U64_MAX

  datatype Event = Event(id: string, sessionId: SessionId, sequence: Sequence, kind: Kind, rest: string)

  type Log = seq<Event>
  type Store = map<SessionId, Log>

  function LogOf(st: Store, s: SessionId): Log {
    if s in st then st[s] else []
  }

  // ---------------------------------------------------------------------------
  // Order
  // ---------------------------------------------------------------------------

  ghost predicate Sorted(log: Log) {
    NoneBelow(log, BySequence())
  }

  ghost predicate Ascending(log: Log) {
    forall i, j :: 0 <= i < j < |log| ==> log[i].sequence < log[j].sequence
  }

  predicate HasPosition(log: Log, n: nat) {
    exists i :: 0 <= i < |log| && log[i].sequence == n
  }

  function BySequence(): Order<Event> {
    (a: Event, b: Event) => a.sequence < b.sequence
  }

  /** Put `e` after every element that is not above it. */
  function Place(log: Log, e: Event): Log {
    Insert(log, e, BySequence())
  }

  /** The stable sort by sequence number. */
  function SortLog(log: Log): Log {
    Sort(log, BySequence())
  }

  lemma PlaceContents(log: Log, e: Event)
    ensures forall x :: x in Place(log, e) <==> x in log || x == e
    ensures |Place(log, e)| == |log| + 1
  {
    InsertCounts(log, e, BySequence());
    InsertContents(log, e, BySequence());
    assert |Place(log, e)| == |multiset(Place(log, e))| == |multiset(log + [e])| == |log + [e]|;
    forall x ensures x in Place(log, e) <==> x in log || x == e {
      assert x in Place(log, e) <==> x in Elements(Place(log, e));
    }
  }

  lemma LogContents(log: Log)
    ensures forall x :: x in SortLog(log) <==> x in log
  {
    SortContents(log, BySequence());
    forall x ensures x in SortLog(log) <==> x in log {
      assert x in SortLog(log) <==> x in Elements(SortLog(log));
    }
  }

  lemma SortSorted(log: Log)
    ensures Sorted(SortLog(log))
  {
    SortNoneBelow(log, BySequence());
  }

  lemma {:induction false} SortIdle(log: Log)
    requires Sorted(log)
    ensures SortLog(log) == log
  {
    if log != [] {
      var init, last := log[..|log| - 1], log[|log| - 1];
      SortIdle(init);
      assert init != [] ==> init[|init| - 1].sequence <= last.sequence;
      assert Place(init, last) == log;
    }
  }

  /** Appending to a sorted log and sorting is one insertion. */
  lemma SortAppend(log: Log, e: Event)
    requires Sorted(log)
    ensures SortLog(log + [e]) == Place(log, e)
  {
    assert (log + [e])[..|log|] == log;
    SortIdle(log);
  }

  lemma {:induction false} PlaceAscending(log: Log, e: Event)
    requires Ascending(log) && !HasPosition(log, e.sequence)
    ensures Ascending(Place(log, e))
  {
    if !(log == [] || log[|log| - 1].sequence <= e.sequence) {
      var init, last := log[..|log| - 1], log[|log| - 1];
      PlaceAscending(init, e);
      PlaceContents(init, e);
      forall i | 0 <= i < |init| + 1 ensures Place(init, e)[i].sequence < last.sequence {
        assert Place(init, e)[i] in Place(init, e);
      }
    }
  }

  // ---------------------------------------------------------------------------
  // A store and what every operation keeps of it
  // ---------------------------------------------------------------------------

  predicate HasId(st: Store, id: string) {
    exists s, i :: s in st && 0 <= i < |st[s]| && st[s][i].id == id
  }

  /** Logs strictly ascending and filed under their session; ids unique across the store. */
  ghost predicate Valid(st: Store) {
    && (forall s :: s in st ==> Ascending(st[s]))
    && (forall s, i :: s in st && 0 <= i < |st[s]| ==> st[s][i].sessionId == s)
    && (forall s, t, e, f :: s in st && t in st && e in st[s] && f in st[t] && e.id == f.id ==> e == f)
  }

  /** `append`: reject a taken id or position, otherwise push and sort. */
  function AppendTo(st: Store, e: Event): Outcome<Store> {
    if HasId(st, e.id) then Err("duplicate event id")
    else if HasPosition(LogOf(st, e.sessionId), e.sequence) then Err("duplicate event position")
    else Ok(st[e.sessionId := SortLog(LogOf(st, e.sessionId) + [e])])
  }

  lemma AppendKeepsValid(st: Store, e: Event)
    requires Valid(st) && AppendTo(st, e).Ok?
    ensures Valid(AppendTo(st, e).value)
    ensures AppendTo(st, e).value == st[e.sessionId := Place(LogOf(st, e.sessionId), e)]
  {
    SortAppend(LogOf(st, e.sessionId), e);
    PlaceKeepsValid(st, e);
  }

  lemma PlaceKeepsValid(st: Store, e: Event)
    requires Valid(st) && !HasId(st, e.id) && !HasPosition(LogOf(st, e.sessionId), e.sequence)
    ensures Valid(st[e.sessionId := Place(LogOf(st, e.sessionId), e)])
  {
    var log := LogOf(st, e.sessionId);
    PlaceAscending(log, e);
    var st': Store := st[e.sessionId := Place(log, e)];
    forall s, i | s in st' && 0 <= i < |st'[s]| ensures st'[s][i].sessionId == s {
      FiledOrNew(st, e, s, st'[s][i]);
    }
    forall s, t, x, y | s in st' && t in st' && x in st'[s] && y in st'[t] && x.id == y.id ensures x == y {
      FiledOrNew(st, e, s, x);
      FiledOrNew(st, e, t, y);
    }
  }

  lemma FiledOrNew(st: Store, e: Event, s: SessionId, x: Event)
    requires Valid(st) && !HasId(st, e.id)
    requires var st' := st[e.sessionId := Place(LogOf(st, e.sessionId), e)]; s in st' && x in st'[s]
    ensures x == e || (s in st && x in st[s] && x.id != e.id)
    ensures x.sessionId == s
  {
    PlaceContents(LogOf(st, e.sessionId), e);
    if x != e {
      var i :| 0 <= i < |st[s]| && st[s][i] == x;
    }
  }

  /** Appending events one at a time, stopping at the first failure. */
  function AppendEach(st: Store, events: seq<Event>): Outcome<Store>
    decreases |events|
  {
    if events == [] then Ok(st)
    else match AppendEach(st, events[..|events| - 1])
      case Ok(st') => AppendTo(st', events[|events| - 1])
      case Err(why) => Err(why)
  }

  lemma {:induction false} EachKeepsValid(st: Store, events: seq<Event>)
    requires Valid(st) && AppendEach(st, events).Ok?
    ensures Valid(AppendEach(st, events).value)
    decreases |events|
  {
    if events != [] {
      EachKeepsValid(st, events[..|events| - 1]);
      AppendKeepsValid(AppendEach(st, events[..|events| - 1]).value, events[|events| - 1]);
    }
  }

  /** A failure among the first events is a failure of all of them. */
  lemma {:induction false} EachFails(st: Store, events: seq<Event>, n: nat)
    requires n <= |events| && AppendEach(st, events[..n]).Err?
    ensures AppendEach(st, events).Err?
    decreases |events| - n
  {
    if n == |events| {
      assert events[..n] == events;
    } else {
      assert events[..n + 1][..n] == events[..n];
      EachFails(st, events, n + 1);
    }
  }
}
