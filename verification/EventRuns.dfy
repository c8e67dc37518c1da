/** What holds of the event store after every sequence of writes. */
module EventRuns {
  import opened Basics
  import opened EventLog
  import opened EventStore

  /** One write. Each holds the store's lock throughout, so concurrent writers form a sequence. */
  datatype Write =
    | Push(event: Event)
    | Batch(events: seq<Event>, requiredEmpty: seq<SessionId>)
    | Next(session: SessionId, freshId: string, kind: Kind, rest: string)
    | CompareNext(session: SessionId, expected: Sequence, freshId: string, kind: Kind, rest: string)

  /** Generated ids are new; nothing else is asked of a caller. */
  predicate Allowed(st: Store, w: Write) {
    w.Next? || w.CompareNext? ==> !HasId(st, w.freshId)
  }

  function OrSame(st: Store, r: Outcome<Store>): Store {
    if r.Ok? then r.value else st
  }

  predicate Wins(st: Store, w: Write) {
    w.CompareNext? && NextSequence(LogOf(st, w.session)) == Ok(w.expected)
  }

  function Do(st: Store, w: Write): Store {
    match w
    case Push(e) => OrSame(st, AppendTo(st, e))
    case Batch(events, required) =>
      if forall s :: s in required ==> LogOf(st, s) == [] then OrSame(st, AppendEach(st, events)) else st
    case Next(s, id, kind, rest) => OrSame(st, AppendNext(st, s, id, kind, rest))
    case CompareNext(s, n, id, kind, rest) =>
      if Wins(st, w) then OrSame(st, AppendNext(st, s, id, kind, rest)) else st
  }

  function After(ws: seq<Write>): Store
    decreases |ws|
  {
    if ws == [] then map[] else Do(After(ws[..|ws| - 1]), ws[|ws| - 1])
  }

  ghost predicate AllAllowed(ws: seq<Write>)
    decreases |ws|
  {
    ws != [] ==> AllAllowed(ws[..|ws| - 1]) && Allowed(After(ws[..|ws| - 1]), ws[|ws| - 1])
  }

  lemma DoKeepsValid(st: Store, w: Write)
    requires Valid(st) && Allowed(st, w)
    ensures Valid(Do(st, w))
  {
    match w
    case Push(e) => if AppendTo(st, e).Ok? { AppendKeepsValid(st, e); }
    case Batch(events, _) => if AppendEach(st, events).Ok? { EachKeepsValid(st, events); }
    case Next(s, id, kind, rest) =>
      if AppendNext(st, s, id, kind, rest).Ok? { NextKeepsValid(st, s, id, kind, rest); }
    case CompareNext(s, _, id, kind, rest) =>
      if AppendNext(st, s, id, kind, rest).Ok? { NextKeepsValid(st, s, id, kind, rest); }
  }

  /** Ids stay globally unique and every log strictly ascending, whatever is written. */
  lemma {:induction false} AlwaysValid(ws: seq<Write>)
    requires AllAllowed(ws)
    ensures Valid(After(ws))
    decreases |ws|
  {
    if ws != [] {
      AlwaysValid(ws[..|ws| - 1]);
      DoKeepsValid(After(ws[..|ws| - 1]), ws[|ws| - 1]);
    }
  }

  // ---------------------------------------------------------------------------
  // Allocated sequences are contiguous
  // ---------------------------------------------------------------------------

  ghost predicate Contiguous(log: Log) {
    forall i :: 0 <= i < |log| ==> log[i].sequence == i
  }

  /** The write leaves positions of `s` to the store. */
  predicate Allocates(w: Write, s: SessionId) {
    match w
    case Push(e) => e.sessionId != s
    case Batch(events, _) => forall e :: e in events ==> e.sessionId != s
    case Next(_, _, _, _) => true
    case CompareNext(_, _, _, _, _) => true
  }

  lemma {:induction false} EachElsewhere(st: Store, events: seq<Event>, s: SessionId)
    requires AppendEach(st, events).Ok? && forall e :: e in events ==> e.sessionId != s
    ensures LogOf(AppendEach(st, events).value, s) == LogOf(st, s)
    decreases |events|
  {
    if events != [] {
      EachElsewhere(st, events[..|events| - 1], s);
      assert events[|events| - 1] in events;
    }
  }

  lemma NextOfContiguous(log: Log)
    requires Contiguous(log)
    ensures NextSequence(log) == if |log| <= U64_MAX then Ok(|log|) else Err("event sequence overflow")
  {
    NextIsNext(log);
    if log != [] {
      HighestIsHighest(log);
      assert log[|log| - 1] in log;
    }
  }

  lemma DoContiguous(st: Store, w: Write, s: SessionId)
    requires Contiguous(LogOf(st, s)) && Allocates(w, s)
    ensures Contiguous(LogOf(Do(st, w), s))
  {
    match w
    case Push(_) =>
    case Batch(events, _) => if AppendEach(st, events).Ok? { EachElsewhere(st, events, s); }
    case Next(_, _, _, _) => NextOfContiguous(LogOf(st, s));
    case CompareNext(_, _, _, _, _) => NextOfContiguous(LogOf(st, s));
  }

  /** A session whose positions the store allocates holds exactly 0, 1, 2, ... in order. */
  lemma {:induction false} AllocatedIsContiguous(ws: seq<Write>, s: SessionId)
    requires forall w :: w in ws ==> Allocates(w, s)
    ensures Contiguous(LogOf(After(ws), s))
    decreases |ws|
  {
    if ws != [] {
      AllocatedIsContiguous(ws[..|ws| - 1], s);
      assert ws[|ws| - 1] in ws;
      DoContiguous(After(ws[..|ws| - 1]), ws[|ws| - 1], s);
    }
  }

  // ---------------------------------------------------------------------------
  // Compare-and-append has one winner
  // ---------------------------------------------------------------------------

  lemma {:induction false} EachKeepsPosition(st: Store, events: seq<Event>, s: SessionId, n: nat)
    requires AppendEach(st, events).Ok? && HasPosition(LogOf(st, s), n)
    ensures HasPosition(LogOf(AppendEach(st, events).value, s), n)
    decreases |events|
  {
    if events != [] {
      EachKeepsPosition(st, events[..|events| - 1], s, n);
      AppendKeepsPosition(AppendEach(st, events[..|events| - 1]).value, events[|events| - 1], s, n);
    }
  }

  lemma AppendKeepsPosition(st: Store, e: Event, s: SessionId, n: nat)
    requires AppendTo(st, e).Ok? && HasPosition(LogOf(st, s), n)
    ensures HasPosition(LogOf(AppendTo(st, e).value, s), n)
  {
    var log := LogOf(st, s);
    var i :| 0 <= i < |log| && log[i].sequence == n;
    if s == e.sessionId {
      assert (log + [e])[i].sequence == n;
      SortedPosition(log + [e], n);
    }
  }

  lemma PushKeepsPosition(log: Log, e: Event, n: nat)
    requires HasPosition(log, n) || e.sequence == n
    ensures HasPosition(log + [e], n)
  {
    if HasPosition(log, n) {
      var i :| 0 <= i < |log| && log[i].sequence == n;
      assert (log + [e])[i].sequence == n;
    } else {
      assert (log + [e])[|log|].sequence == n;
    }
  }

  lemma DoKeepsPosition(st: Store, w: Write, s: SessionId, n: nat)
    requires HasPosition(LogOf(st, s), n)
    ensures HasPosition(LogOf(Do(st, w), s), n)
  {
    match w
    case Push(e) => if AppendTo(st, e).Ok? { AppendKeepsPosition(st, e, s, n); }
    case Batch(events, _) => if AppendEach(st, events).Ok? { EachKeepsPosition(st, events, s, n); }
    case Next(t, id, kind, rest) =>
      var r := NextSequence(LogOf(st, t));
      if r.Ok? && s == t { PushKeepsPosition(LogOf(st, s), Event(id, t, r.value, kind, rest), n); }
    case CompareNext(t, _, id, kind, rest) =>
      var r := NextSequence(LogOf(st, t));
      if r.Ok? && s == t { PushKeepsPosition(LogOf(st, s), Event(id, t, r.value, kind, rest), n); }
  }

  /** A position once taken stays taken. */
  lemma {:induction false} PositionStays(ws: seq<Write>, n: nat, s: SessionId, position: nat)
    requires n <= |ws| && HasPosition(LogOf(After(ws[..n]), s), position)
    ensures HasPosition(LogOf(After(ws), s), position)
    decreases |ws| - n
  {
    if n == |ws| {
      assert ws[..n] == ws;
    } else {
      assert ws[..n + 1][..n] == ws[..n];
      DoKeepsPosition(After(ws[..n]), ws[n], s, position);
      PositionStays(ws, n + 1, s, position);
    }
  }

  lemma WinTakes(st: Store, w: Write)
    requires Wins(st, w)
    ensures HasPosition(LogOf(Do(st, w), w.session), w.expected)
  {
    PushKeepsPosition(LogOf(st, w.session), Event(w.freshId, w.session, w.expected, w.kind, w.rest), w.expected);
  }

  lemma TakenLoses(st: Store, w: Write)
    requires w.CompareNext? && HasPosition(LogOf(st, w.session), w.expected)
    ensures !Wins(st, w) && Do(st, w) == st
  {
    var log := LogOf(st, w.session);
    NextIsNext(log);
    var k :| 0 <= k < |log| && log[k].sequence == w.expected;
    assert log[k] in log;
  }

  /** Of all the writes in a run that expect the same tail of a session, at most one is appended. */
  lemma SingleWinner(ws: seq<Write>, i: nat, j: nat)
    requires i < j < |ws| && Wins(After(ws[..i]), ws[i]) && ws[j].CompareNext?
    requires ws[j].session == ws[i].session && ws[j].expected == ws[i].expected
    ensures !Wins(After(ws[..j]), ws[j])
    ensures Do(After(ws[..j]), ws[j]) == After(ws[..j])
  {
    WinTakes(After(ws[..i]), ws[i]);
    assert ws[..i + 1][..i] == ws[..i];
    assert ws[..j][..i + 1] == ws[..i + 1];
    PositionStays(ws[..j], i + 1, ws[i].session, ws[i].expected);
    TakenLoses(After(ws[..j]), ws[j]);
  }
}
