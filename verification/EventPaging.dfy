/** Replaying a session page by page, on either backend. */
module EventPaging {
  import opened Basics
  import opened EventLog
  import opened EventStore

  lemma {:induction false} KeepAfterAppend(a: Log, b: Log, after: Option<Sequence>)
    ensures KeepAfter(a + b, after) == KeepAfter(a, after) + KeepAfter(b, after)
  {
    if b == [] {
      assert a + b == a;
    } else {
      KeepAfterAppend(a, b[..|b| - 1], after);
      assert (a + b)[..|a + b| - 1] == a + b[..|b| - 1];
    }
  }

  lemma {:induction false} KeepEach(log: Log, after: Option<Sequence>)
    requires forall i :: 0 <= i < |log| ==> After(log[i], after)
    ensures KeepAfter(log, after) == log
  {
    if log != [] { KeepEach(log[..|log| - 1], after); }
  }

  lemma {:induction false} KeepNone(log: Log, after: Option<Sequence>)
    requires forall i :: 0 <= i < |log| ==> !After(log[i], after)
    ensures KeepAfter(log, after) == []
  {
    if log != [] { KeepNone(log[..|log| - 1], after); }
  }

  /** The first event after a position, looking from `k` on. */
  lemma {:induction false} FirstAfter(log: Log, after: Option<Sequence>, k: nat) returns (n: nat)
    requires Ascending(log) && k <= |log| && forall i :: 0 <= i < k ==> !After(log[i], after)
    ensures n <= |log| && forall i :: 0 <= i < |log| ==> (After(log[i], after) <==> n <= i)
    decreases |log| - k
  {
    if k == |log| || After(log[k], after) {
      n := k;
      assert forall i :: k < i < |log| ==> log[k].sequence < log[i].sequence;
    } else {
      n := FirstAfter(log, after, k + 1);
    }
  }

  /** In an ascending log the events after a position are a suffix. */
  lemma AfterIsSuffix(log: Log, after: Option<Sequence>) returns (n: nat)
    requires Ascending(log)
    ensures n <= |log| && KeepAfter(log, after) == log[n..]
    ensures forall i :: 0 <= i < |log| ==> (After(log[i], after) <==> n <= i)
  {
    n := FirstAfter(log, after, 0);
    var a, b := log[..n], log[n..];
    assert log == a + b;
    KeepSuffix(a, b, after);
  }

  lemma KeepSuffix(a: Log, b: Log, after: Option<Sequence>)
    requires (forall i :: 0 <= i < |a| ==> !After(a[i], after)) && forall i :: 0 <= i < |b| ==> After(b[i], after)
    ensures KeepAfter(a + b, after) == b
  {
    KeepNone(a, after);
    KeepEach(b, after);
    KeepAfterAppend(a, b, after);
  }

  /** Asking again with the last position of a page continues right behind it. */
  lemma PageContinues(log: Log, after: Option<Sequence>, limit: nat)
    requires Ascending(log) && limit > 0 && KeepAfter(log, after) != []
    ensures var page := Range(log, after, Some(limit));
            page != [] && KeepAfter(log, after) == page + KeepAfter(log, Some(page[|page| - 1].sequence))
  {
    var n := AfterIsSuffix(log, after);
    var page := Range(log, after, Some(limit));
    var m := n + |page|;
    assert page == log[n..m] && page[|page| - 1] == log[m - 1];
    var k := AfterIsSuffix(log, Some(log[m - 1].sequence));
    assert k == m by {
      assert !After(log[m - 1], Some(log[m - 1].sequence));
      if m < |log| { assert After(log[m], Some(log[m - 1].sequence)); }
    }
  }

  /** All pages of a replay, joined: ask, and ask again after the last position, until nothing comes. */
  function Replay(log: Log, after: Option<Sequence>, limit: nat): Log
    requires Ascending(log) && limit > 0
    decreases |KeepAfter(log, after)|
  {
    var page := Range(log, after, Some(limit));
    if page == [] then []
    else
      PageContinues(log, after, limit);
      page + Replay(log, Some(page[|page| - 1].sequence), limit)
  }

  lemma {:induction false} ReplayIsRest(log: Log, after: Option<Sequence>, limit: nat)
    requires Ascending(log) && limit > 0
    ensures Replay(log, after, limit) == KeepAfter(log, after)
    decreases |KeepAfter(log, after)|
  {
    var page := Range(log, after, Some(limit));
    if page != [] {
      PageContinues(log, after, limit);
      ReplayIsRest(log, Some(page[|page| - 1].sequence), limit);
    }
  }

  /** For every page size the replay ends and yields the log, nothing lost and nothing twice. */
  lemma ReplayIsLog(log: Log, limit: nat)
    requires Ascending(log) && limit > 0
    ensures Replay(log, None, limit) == log
  {
    ReplayIsRest(log, None, limit);
    KeepAll(log);
  }

  // ---------------------------------------------------------------------------
  // SQLite: positions are stored as i64, pages are capped
  // ---------------------------------------------------------------------------

  const I64_RANGE: nat := 0x8000_0000_0000_0000
  const DEFAULT_LIMIT: nat := 1_000
  const MAX_LIMIT: nat := 10_000

  function AsI64(n: Sequence): int {
    if n < I64_RANGE then n else n - 2 * I64_RANGE
  }

  function Cap(limit: Option<nat>): nat {
    var n := if limit.Some? then limit.value else DEFAULT_LIMIT;
    if n < MAX_LIMIT then n else MAX_LIMIT
  }

  /** `WHERE sequence > ?2`, with -1 for no position. */
  predicate SqlAfter(e: Event, after: Option<Sequence>) {
    AsI64(e.sequence) > if after.Some? then AsI64(after.value) else -1
  }

  /**
   What `... WHERE sequence > ? ORDER BY sequence LIMIT ?` may return: matching rows in ascending
   order, and any matching row left out lies above a full page.
   */
  ghost predicate IsSqlPage(rows: Log, after: Option<Sequence>, limit: Option<nat>, page: Log) {
    && |page| <= Cap(limit)
    && (forall i, j :: 0 <= i < j < |page| ==> AsI64(page[i].sequence) < AsI64(page[j].sequence))
    && (forall e :: e in page ==> e in rows && SqlAfter(e, after))
    && (forall e, i :: e in rows && SqlAfter(e, after) && e !in page && 0 <= i < |page| ==>
          AsI64(page[i].sequence) < AsI64(e.sequence))
    && ((exists e :: e in rows && SqlAfter(e, after) && e !in page) ==> |page| == Cap(limit))
  }

  ghost predicate InI64(log: Log) {
    forall e :: e in log ==> e.sequence < I64_RANGE
  }

  // ---------------------------------------------------------------------------
  // A page is the front of what matches, by stored position
  // ---------------------------------------------------------------------------

  ghost predicate StoredAscending(log: Log) {
    forall i, j :: 0 <= i < j < |log| ==> AsI64(log[i].sequence) < AsI64(log[j].sequence)
  }

  /** `page` takes the elements of `rest` from the front. */
  ghost predicate TakesFirst(rest: Log, page: Log) {
    && StoredAscending(rest) && StoredAscending(page)
    && (forall i :: 0 <= i < |page| ==> page[i] in rest)
    && (forall k, i :: 0 <= k < |rest| && 0 <= i < |page| && rest[k] !in page ==>
          AsI64(page[i].sequence) < AsI64(rest[k].sequence))
  }

  /** Where the first `n` agree, the next of the page stands no earlier than `n` ... */
  lemma NoEarlier(rest: Log, page: Log, n: nat, k: nat)
    requires StoredAscending(page) && n < |page| && n <= |rest| && k < |rest| && rest[k] == page[n]
    requires forall i :: 0 <= i < n ==> page[i] == rest[i]
    ensures k >= n
  {
    assert forall i :: 0 <= i < n ==> AsI64(page[i].sequence) < AsI64(page[n].sequence);
    assert forall i :: 0 <= i < n ==> rest[i] != page[n];
  }

  /** ... and no later. */
  lemma NoLater(rest: Log, page: Log, n: nat, k: nat)
    requires TakesFirst(rest, page) && n < |page| && n <= k < |rest| && rest[k] == page[n]
    requires forall i :: 0 <= i < n ==> page[i] == rest[i]
    ensures k == n
  {
    assert AsI64(rest[n].sequence) <= AsI64(page[n].sequence);
    assert rest[n] in page;
    var m :| 0 <= m < |page| && page[m] == rest[n];
    NoEarlier(page, rest, n, m);
    assert AsI64(page[n].sequence) <= AsI64(page[m].sequence);
  }

  lemma PageNext(rest: Log, page: Log, n: nat)
    requires TakesFirst(rest, page) && n < |page| && n <= |rest|
    requires forall i :: 0 <= i < n ==> page[i] == rest[i]
    ensures n < |rest| && page[n] == rest[n]
  {
    assert page[n] in rest;
    var k :| 0 <= k < |rest| && rest[k] == page[n];
    NoEarlier(rest, page, n, k);
    NoLater(rest, page, n, k);
  }

  lemma {:induction false} PagePrefix(rest: Log, page: Log, n: nat)
    requires TakesFirst(rest, page) && n <= |page|
    ensures n <= |rest| && forall i :: 0 <= i < n ==> page[i] == rest[i]
  {
    if n > 0 {
      PagePrefix(rest, page, n - 1);
      PageNext(rest, page, n - 1);
    }
  }

  /** `rest` is what matches, each row once, by stored position. */
  ghost predicate IsRest(rows: Log, after: Option<Sequence>, rest: Log) {
    StoredAscending(rest) && forall e :: e in rest <==> e in rows && SqlAfter(e, after)
  }

  lemma SqlPageTakesFirst(rows: Log, rest: Log, after: Option<Sequence>, limit: Option<nat>, page: Log)
    requires IsRest(rows, after, rest) && IsSqlPage(rows, after, limit, page)
    ensures TakesFirst(rest, page)
  {
    forall i | 0 <= i < |page| ensures page[i] in rest {
      assert page[i] in page;
    }
    forall k, i | 0 <= k < |rest| && 0 <= i < |page| && rest[k] !in page
      ensures AsI64(page[i].sequence) < AsI64(rest[k].sequence)
    {
      assert rest[k] in rest;
    }
  }

  lemma PageIsFront(rows: Log, rest: Log, after: Option<Sequence>, limit: Option<nat>, page: Log)
    requires IsRest(rows, after, rest) && IsSqlPage(rows, after, limit, page)
    ensures page == Truncate(rest, Some(Cap(limit)))
  {
    SqlPageTakesFirst(rows, rest, after, limit, page);
    PagePrefix(rest, page, |page|);
    assert page == rest[..|page|];
    if |page| < |rest| {
      var e := rest[|page|];
      assert e in rest;
      assert forall i :: 0 <= i < |page| ==> AsI64(page[i].sequence) < AsI64(e.sequence);
    }
  }

  lemma FrontIsPage(rows: Log, rest: Log, after: Option<Sequence>, limit: Option<nat>)
    requires IsRest(rows, after, rest)
    ensures IsSqlPage(rows, after, limit, Truncate(rest, Some(Cap(limit))))
  {
    var page := Truncate(rest, Some(Cap(limit)));
    forall i | 0 <= i < |page| ensures page[i] == rest[i] && page[i] in rest {}
    forall e | e in rest && e !in page
      ensures |page| == Cap(limit) && forall i :: 0 <= i < |page| ==> AsI64(page[i].sequence) < AsI64(e.sequence)
    {
      var k :| 0 <= k < |rest| && rest[k] == e;
      assert forall i :: 0 <= i < |page| ==> rest[i] != e;
    }
  }

  // ---------------------------------------------------------------------------
  // Positions from 2^63 on are stored as negative numbers
  // ---------------------------------------------------------------------------

  /** The rows whose position is stored as it is. */
  function Low(rows: Log): Log {
    if rows == [] then []
    else Low(rows[..|rows| - 1]) + (if rows[|rows| - 1].sequence < I64_RANGE then [rows[|rows| - 1]] else [])
  }

  /** The rows whose position is stored as a negative number. */
  function High(rows: Log): Log {
    if rows == [] then []
    else High(rows[..|rows| - 1]) + (if rows[|rows| - 1].sequence < I64_RANGE then [] else [rows[|rows| - 1]])
  }

  lemma {:induction false} LowAppend(a: Log, b: Log)
    ensures Low(a + b) == Low(a) + Low(b)
  {
    if b == [] {
      assert a + b == a;
    } else {
      LowAppend(a, b[..|b| - 1]);
      assert (a + b)[..|a + b| - 1] == a + b[..|b| - 1];
    }
  }

  lemma {:induction false} HighAppend(a: Log, b: Log)
    ensures High(a + b) == High(a) + High(b)
  {
    if b == [] {
      assert a + b == a;
    } else {
      HighAppend(a, b[..|b| - 1]);
      assert (a + b)[..|a + b| - 1] == a + b[..|b| - 1];
    }
  }

  lemma {:induction false} HalvesCounted(rows: Log)
    ensures |Low(rows)| + |High(rows)| == |rows|
  {
    if rows != [] { HalvesCounted(rows[..|rows| - 1]); }
  }

  lemma {:induction false} LowIsAll(rows: Log)
    ensures |Low(rows)| <= |rows|
    ensures Low(rows) == rows <==> InI64(rows)
  {
    if rows != [] {
      var init, last := rows[..|rows| - 1], rows[|rows| - 1];
      LowIsAll(init);
      assert rows == init + [last];
      assert InI64(rows) <==> InI64(init) && last.sequence < I64_RANGE;
    }
  }

  ghost predicate AboveI64(log: Log) {
    forall e :: e in log ==> e.sequence >= I64_RANGE
  }

  lemma {:induction false} HighIsAll(rows: Log)
    requires AboveI64(rows)
    ensures High(rows) == rows
  {
    if rows != [] {
      var init, last := rows[..|rows| - 1], rows[|rows| - 1];
      assert rows == init + [last];
      HighIsAll(init);
    }
  }

  lemma HalvesOf(a: Log, b: Log)
    requires InI64(a) && AboveI64(b)
    ensures Low(a + b) == a && High(a + b) == b
  {
    LowIsAll(a);
    HighIsAll(b);
    HalvesCounted(a);
    HalvesCounted(b);
    LowAppend(a, b);
    HighAppend(a, b);
  }

  /** The first high row, looking from `k` on. */
  lemma {:induction false} FirstHigh(rows: Log, k: nat) returns (n: nat)
    requires Ascending(rows) && k <= |rows| && forall i :: 0 <= i < k ==> rows[i].sequence < I64_RANGE
    ensures n <= |rows| && forall i :: 0 <= i < |rows| ==> (rows[i].sequence >= I64_RANGE <==> n <= i)
    decreases |rows| - k
  {
    if k == |rows| || rows[k].sequence >= I64_RANGE {
      n := k;
      assert forall i :: k < i < |rows| ==> rows[k].sequence < rows[i].sequence;
    } else {
      n := FirstHigh(rows, k + 1);
    }
  }

  /** An ascending log is its low rows and then its high rows. */
  lemma Halves(rows: Log)
    requires Ascending(rows)
    ensures rows == Low(rows) + High(rows)
  {
    var n := FirstHigh(rows, 0);
    var a, b := rows[..n], rows[n..];
    assert rows == a + b;
    HalvesOf(a, b);
  }

  lemma {:induction false} HalvesApart(rows: Log)
    ensures InI64(Low(rows)) && AboveI64(High(rows))
  {
    if rows != [] { HalvesApart(rows[..|rows| - 1]); }
  }

  lemma AscendingParts(a: Log, b: Log)
    requires Ascending(a + b)
    ensures Ascending(a) && Ascending(b)
  {
    var c := a + b;
    forall i, j | 0 <= i < j < |a| ensures a[i].sequence < a[j].sequence {
      assert c[i].sequence < c[j].sequence;
    }
    forall i, j | 0 <= i < j < |b| ensures b[i].sequence < b[j].sequence {
      assert c[|a| + i].sequence < c[|a| + j].sequence;
    }
  }

  lemma HalvesAscending(rows: Log)
    requires Ascending(rows)
    ensures rows == Low(rows) + High(rows) && Ascending(Low(rows)) && Ascending(High(rows))
    ensures InI64(Low(rows)) && AboveI64(High(rows))
  {
    Halves(rows);
    HalvesApart(rows);
    AscendingParts(Low(rows), High(rows));
  }

  /** A position to continue behind that is stored as a negative number. */
  predicate HighCursor(after: Option<Sequence>) {
    after.Some? && after.value >= I64_RANGE
  }

  /**
   What SQLite has behind a position. Behind one that is stored as it is, or behind none: the low rows
   that follow. Behind one stored as a negative number: the high rows that follow, and then every low row.
   */
  function SqlRest(rows: Log, after: Option<Sequence>): Log {
    if HighCursor(after) then KeepAfter(High(rows), after) + Low(rows) else KeepAfter(Low(rows), after)
  }

  lemma AscendingStored(log: Log)
    requires Ascending(log) && (InI64(log) || AboveI64(log))
    ensures StoredAscending(log)
  {
    forall i, j | 0 <= i < j < |log| ensures AsI64(log[i].sequence) < AsI64(log[j].sequence) {
      assert log[i] in log && log[j] in log;
    }
  }

  lemma KeptAscending(log: Log, after: Option<Sequence>)
    requires Ascending(log)
    ensures Ascending(KeepAfter(log, after)) && forall e :: e in KeepAfter(log, after) <==> e in log && After(e, after)
  {
    var n := AfterIsSuffix(log, after);
    KeepAfterSorted(log, after);
  }

  lemma LowRest(rows: Log, after: Option<Sequence>)
    requires Ascending(rows) && !HighCursor(after)
    ensures IsRest(rows, after, KeepAfter(Low(rows), after))
  {
    HalvesAscending(rows);
    KeptAscending(Low(rows), after);
    AscendingStored(KeepAfter(Low(rows), after));
    forall e ensures e in KeepAfter(Low(rows), after) <==> e in rows && SqlAfter(e, after) {
      assert e in rows <==> e in Low(rows) || e in High(rows);
    }
  }

  lemma HighRest(rows: Log, after: Option<Sequence>)
    requires Ascending(rows) && HighCursor(after)
    ensures IsRest(rows, after, KeepAfter(High(rows), after) + Low(rows))
  {
    var low, high := Low(rows), KeepAfter(High(rows), after);
    HalvesAscending(rows);
    KeptAscending(High(rows), after);
    AscendingStored(low);
    AscendingStored(high);
    forall i, j | 0 <= i < |high| && 0 <= j < |low| ensures AsI64(high[i].sequence) < AsI64(low[j].sequence) {
      assert high[i] in high && low[j] in low;
    }
    forall e ensures e in high + low <==> e in rows && SqlAfter(e, after) {
      assert e in rows <==> e in low || e in High(rows);
    }
  }

  /** What SQLite returns is determined, on every log and behind every position. */
  lemma SqlPageMeans(rows: Log, after: Option<Sequence>, limit: Option<nat>, page: Log)
    requires Ascending(rows)
    ensures IsSqlPage(rows, after, limit, page) <==> page == Truncate(SqlRest(rows, after), Some(Cap(limit)))
  {
    if HighCursor(after) { HighRest(rows, after); } else { LowRest(rows, after); }
    FrontIsPage(rows, SqlRest(rows, after), after, limit);
    if IsSqlPage(rows, after, limit, page) {
      PageIsFront(rows, SqlRest(rows, after), after, limit, page);
    }
  }

  /** What the in-memory store has behind a position, half by half. */
  lemma RestInHalves(rows: Log, after: Option<Sequence>)
    requires Ascending(rows)
    ensures KeepAfter(rows, after) ==
            if HighCursor(after) then KeepAfter(High(rows), after) else KeepAfter(Low(rows), after) + High(rows)
  {
    HalvesAscending(rows);
    KeepAfterAppend(Low(rows), High(rows), after);
    if HighCursor(after) {
      forall i | 0 <= i < |Low(rows)| ensures !After(Low(rows)[i], after) { assert Low(rows)[i] in Low(rows); }
      KeepNone(Low(rows), after);
    } else {
      forall i | 0 <= i < |High(rows)| ensures After(High(rows)[i], after) { assert High(rows)[i] in High(rows); }
      KeepEach(High(rows), after);
    }
  }

  lemma TruncateSame(a: Log, b: Log, n: nat)
    ensures Truncate(a + b, Some(n)) == Truncate(a, Some(n)) <==> b == [] || n <= |a|
  {
    assert b == [] ==> a + b == a;
    if n <= |a| { assert (a + b)[..n] == a[..n]; }
    if b != [] && n > |a| { assert |Truncate(a + b, Some(n))| > |a|; }
  }

  /**
   A SQLite page is the in-memory page of the capped size exactly when the half of the log that the
   stored order puts on the wrong side is empty, or does not fit on the page any more.
   */
  lemma SqlPageAgrees(rows: Log, after: Option<Sequence>, limit: Option<nat>, page: Log)
    requires Ascending(rows) && IsSqlPage(rows, after, limit, page)
    ensures page == Range(rows, after, Some(Cap(limit))) <==>
      if HighCursor(after) then Low(rows) == [] || Cap(limit) <= |KeepAfter(High(rows), after)|
      else High(rows) == [] || Cap(limit) <= |KeepAfter(Low(rows), after)|
  {
    SqlPageMeans(rows, after, limit, page);
    RestInHalves(rows, after);
    if HighCursor(after) {
      TruncateSame(KeepAfter(High(rows), after), Low(rows), Cap(limit));
    } else {
      TruncateSame(KeepAfter(Low(rows), after), High(rows), Cap(limit));
    }
  }

  // ---------------------------------------------------------------------------
  // Replay in pages
  // ---------------------------------------------------------------------------

  /** A complete replay: pages until the first empty one. */
  ghost predicate IsSqlReplay(rows: Log, after: Option<Sequence>, limit: nat, pages: seq<Log>)
    decreases |pages|
  {
    && pages != [] && IsSqlPage(rows, after, Some(limit), pages[0])
    && (if pages[0] == [] then |pages| == 1
        else IsSqlReplay(rows, Some(pages[0][|pages[0]| - 1].sequence), limit, pages[1..]))
  }

  function Concat(pages: seq<Log>): Log {
    if pages == [] then [] else pages[0] + Concat(pages[1..])
  }

  lemma EmptyPage(log: Log, after: Option<Sequence>, limit: nat)
    requires limit > 0
    ensures Range(log, after, Some(limit)) == [] <==> KeepAfter(log, after) == []
  {
  }

  lemma {:induction false} KeptInI64(rows: Log, after: Option<Sequence>)
    requires InI64(rows)
    ensures InI64(KeepAfter(rows, after))
  {
    if rows != [] { KeptInI64(rows[..|rows| - 1], after); }
  }

  /** A page is where the rest starts; an empty one is where it ends. */
  lemma SqlPageContinues(rows: Log, after: Option<Sequence>, limit: nat, page: Log)
    requires Ascending(rows) && limit > 0 && !HighCursor(after)
    requires IsSqlPage(rows, after, Some(limit), page)
    ensures var rest := KeepAfter(Low(rows), after);
            if page == [] then rest == []
            else page[|page| - 1].sequence < I64_RANGE && rest == page + KeepAfter(Low(rows), Some(page[|page| - 1].sequence))
  {
    SqlPageMeans(rows, after, Some(limit), page);
    HalvesAscending(rows);
    LowPageContinues(Low(rows), after, Cap(Some(limit)), page);
  }

  lemma LowPageContinues(low: Log, after: Option<Sequence>, cap: nat, page: Log)
    requires Ascending(low) && InI64(low) && cap > 0 && page == Range(low, after, Some(cap))
    ensures if page == [] then KeepAfter(low, after) == []
            else page[|page| - 1].sequence < I64_RANGE
                 && KeepAfter(low, after) == page + KeepAfter(low, Some(page[|page| - 1].sequence))
  {
    EmptyPage(low, after, cap);
    if page != [] {
      PageContinues(low, after, cap);
      LowEnd(low, after, cap, page);
    }
  }

  lemma LowEnd(low: Log, after: Option<Sequence>, cap: nat, page: Log)
    requires InI64(low) && page == Range(low, after, Some(cap)) && page != []
    ensures page[|page| - 1].sequence < I64_RANGE
  {
    var rest := KeepAfter(low, after);
    KeptInI64(low, after);
    assert page[|page| - 1] == rest[|page| - 1] && rest[|page| - 1] in rest;
  }

  /** Every replay from SQLite, whatever the page size and the cap, ends with exactly the low rows. */
  lemma {:induction false} SqlReplayIsRest(rows: Log, after: Option<Sequence>, limit: nat, pages: seq<Log>)
    requires Ascending(rows) && limit > 0 && !HighCursor(after)
    requires IsSqlReplay(rows, after, limit, pages)
    ensures Concat(pages) == KeepAfter(Low(rows), after) && |pages| <= |KeepAfter(Low(rows), after)| + 1
    decreases |pages|
  {
    SqlPageContinues(rows, after, limit, pages[0]);
    if pages[0] != [] {
      var last := pages[0][|pages[0]| - 1];
      SqlReplayIsRest(rows, Some(last.sequence), limit, pages[1..]);
    }
  }

  /** There is one, for every log and every page size: paging ends. */
  lemma {:induction false} SqlReplayEnds(rows: Log, after: Option<Sequence>, limit: nat) returns (pages: seq<Log>)
    requires Ascending(rows) && limit > 0 && !HighCursor(after)
    ensures IsSqlReplay(rows, after, limit, pages)
    decreases |KeepAfter(Low(rows), after)|
  {
    var page := Range(Low(rows), after, Some(Cap(Some(limit))));
    SqlPageMeans(rows, after, Some(limit), page);
    SqlPageContinues(rows, after, limit, page);
    pages := [page];
    if page != [] {
      var more := SqlReplayEnds(rows, Some(page[|page| - 1].sequence), limit);
      pages := [page] + more;
      assert pages[1..] == more;
    }
  }

  /**
   Paged replay from SQLite, under its cap of ten thousand rows a page, yields the whole log
   exactly when every position fits a signed 64-bit integer.
   */
  lemma SqlReplayComplete(rows: Log, limit: nat, pages: seq<Log>)
    requires Ascending(rows) && limit > 0 && IsSqlReplay(rows, None, limit, pages)
    ensures Concat(pages) == Low(rows)
    ensures Concat(pages) == rows <==> InI64(rows)
  {
    SqlReplayIsRest(rows, None, limit, pages);
    KeepAll(Low(rows));
    LowIsAll(rows);
  }

  /** Without a limit SQLite returns the whole session only if it is short and its positions fit. */
  lemma SqlListSession(rows: Log, page: Log)
    requires Ascending(rows) && IsSqlPage(rows, None, None, page)
    ensures page == rows <==> InI64(rows) && |rows| <= DEFAULT_LIMIT
  {
    SqlPageMeans(rows, None, None, page);
    KeepAll(Low(rows));
    LowIsAll(rows);
  }

  // ---------------------------------------------------------------------------
  // Logs on which SQLite falls short
  // ---------------------------------------------------------------------------

  function Row(n: Sequence): Event {
    Event("id", "session", n, [], "")
  }

  /** One event at position 2^63: neither the session nor any replay of it shows it. */
  lemma HighRowIsLost(limit: nat)
    requires limit > 0
    ensures var rows := [Row(I64_RANGE)];
            && Ascending(rows)
            && IsSqlPage(rows, None, None, [])
            && IsSqlReplay(rows, None, limit, [[]]) && Concat([[]]) == []
  {
    var rows := [Row(I64_RANGE)];
    assert Low(rows) == [];
    SqlPageMeans(rows, None, None, []);
    SqlPageMeans(rows, None, Some(limit), []);
    assert Concat([[]]) == [];
  }

  lemma TwoRows(a: Event, b: Event)
    requires a.sequence < I64_RANGE <= b.sequence
    ensures Low([a, b]) == [a] && High([a, b]) == [b]
  {
    HalvesOf([a], [b]);
    assert [a] + [b] == [a, b];
  }

  /** Asked for what follows a row from 2^63 on, SQLite starts over with a row passed long before. */
  lemma StartsOver(a: Event, b: Event)
    requires a.sequence < I64_RANGE <= b.sequence
    ensures Ascending([a, b])
    ensures IsSqlPage([a, b], Some(b.sequence), None, [a]) && Range([a, b], Some(b.sequence), None) == []
  {
    TwoRows(a, b);
    KeepNone([b], Some(b.sequence));
    RestInHalves([a, b], Some(b.sequence));
    assert SqlRest([a, b], Some(b.sequence)) == [a];
    SqlPageMeans([a, b], Some(b.sequence), None, [a]);
  }

  lemma HighCursorStartsOver(rows: Log)
    requires rows == [Row(1), Row(I64_RANGE)]
    ensures Ascending(rows)
    ensures IsSqlPage(rows, Some(I64_RANGE), None, [Row(1)]) && Range(rows, Some(I64_RANGE), None) == []
  {
    StartsOver(Row(1), Row(I64_RANGE));
  }

  /** A session at positions 0 to n - 1. */
  function Rows(n: nat): (rows: Log)
    requires n <= U64_MAX
    ensures |rows| == n && forall i :: 0 <= i < n ==> rows[i].sequence == i
  {
    if n == 0 then [] else Rows(n - 1) + [Row(n - 1)]
  }

  /** A thousand and one events: the last one is cut off. */
  lemma LastRowIsCut(rows: Log, page: Log)
    requires rows == Rows(DEFAULT_LIMIT + 1) && page == rows[..DEFAULT_LIMIT]
    ensures Ascending(rows) && InI64(rows) && IsSqlPage(rows, None, None, page) && page != rows
  {
    LowIsAll(rows);
    KeepAll(rows);
    SqlPageMeans(rows, None, None, page);
  }
}
