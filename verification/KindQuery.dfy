/** `list_session_kind_prefix`: what SQLite answers, and when that is what the in-memory store answers. */
module KindQuery {
  import opened Sorting
  import opened EventLog
  import opened EventStore
  import opened EventPaging
  import opened KindPrefix

  // ---------------------------------------------------------------------------
  // The query, and its one answer
  // ---------------------------------------------------------------------------

  /** By the number that is stored, which from 2^63 on is negative. */
  function ByStored(): Order<Event> {
    (a: Event, b: Event) => AsI64(a.sequence) < AsI64(b.sequence)
  }

  /** `... WHERE kind >= ? AND kind < ? ORDER BY sequence`: exactly the selected rows, by stored position. */
  ghost predicate IsSqlAnswer(rows: Log, prefix: Kind, answer: Log) {
    && Strict(answer, ByStored())
    && forall e :: e in answer <==> e in rows && Selects(e.kind, prefix)
  }

  lemma StoredIsTotal(rows: Log, s: set<Event>)
    requires Ascending(rows) && forall e :: e in s ==> e in rows
    ensures TotalOn(s, ByStored())
  {
    forall x, y | x in s && y in s && x != y ensures ByStored()(x, y) || ByStored()(y, x) {
      var i :| 0 <= i < |rows| && rows[i] == x;
      var j :| 0 <= j < |rows| && rows[j] == y;
    }
  }

  /** The relation leaves no choice. */
  lemma SqlAnswerUnique(rows: Log, prefix: Kind, a: Log, b: Log)
    requires Ascending(rows) && IsSqlAnswer(rows, prefix, a) && IsSqlAnswer(rows, prefix, b)
    ensures a == b
  {
    forall e ensures e in Elements(a) <==> e in Elements(b) {}
    StoredIsTotal(rows, Elements(a));
    StrictUnique(a, b, ByStored());
  }

  /** The rows the scan selects, in log order. */
  function KeepSelected(rows: Log, prefix: Kind): Log {
    if rows == [] then []
    else
      var last := rows[|rows| - 1];
      KeepSelected(rows[..|rows| - 1], prefix) + (if Selects(last.kind, prefix) then [last] else [])
  }

  lemma {:induction false} SelectedIs(rows: Log, prefix: Kind, e: Event)
    ensures e in KeepSelected(rows, prefix) <==> e in rows && Selects(e.kind, prefix)
  {
    if rows != [] {
      var init, last := rows[..|rows| - 1], rows[|rows| - 1];
      SelectedIs(init, prefix, e);
      assert e in rows <==> e in init || e == last;
    }
  }

  lemma {:induction false} SelectedAscending(rows: Log, prefix: Kind)
    requires Ascending(rows)
    ensures Ascending(KeepSelected(rows, prefix))
  {
    if rows != [] {
      var init, last := rows[..|rows| - 1], rows[|rows| - 1];
      SelectedAscending(init, prefix);
      forall i | 0 <= i < |KeepSelected(init, prefix)| ensures KeepSelected(init, prefix)[i].sequence < last.sequence {
        SelectedIs(init, prefix, KeepSelected(init, prefix)[i]);
      }
    }
  }

  /** And there is always an answer. */
  lemma SqlAnswers(rows: Log, prefix: Kind)
    requires Ascending(rows)
    ensures IsSqlAnswer(rows, prefix, Sort(KeepSelected(rows, prefix), ByStored()))
  {
    var selected := KeepSelected(rows, prefix);
    SelectedAscending(rows, prefix);
    forall e ensures e in selected <==> e in rows && Selects(e.kind, prefix) { SelectedIs(rows, prefix, e); }
    StoredIsTotal(rows, Elements(selected));
    SortStrict(selected, ByStored());
    forall e ensures e in Sort(selected, ByStored()) <==> e in selected {
      assert e in Elements(Sort(selected, ByStored())) <==> e in Elements(selected);
    }
  }

  // ---------------------------------------------------------------------------
  // Against the in-memory store
  // ---------------------------------------------------------------------------

  /** Some positions are stored as they are and some as negative numbers. */
  ghost predicate Straddles(log: Log) {
    exists i, j :: 0 <= i < |log| && 0 <= j < |log| && log[i].sequence < I64_RANGE <= log[j].sequence
  }

  /** Storing keeps the order of a log exactly when it does not straddle 2^63. */
  lemma StoredInOrder(log: Log)
    requires Ascending(log)
    ensures Strict(log, ByStored()) <==> !Straddles(log)
  {
    if Straddles(log) {
      var i, j :| 0 <= i < |log| && 0 <= j < |log| && log[i].sequence < I64_RANGE <= log[j].sequence;
      assert i < j && !ByStored()(log[i], log[j]);
    } else {
      forall i, j | 0 <= i < j < |log| ensures ByStored()(log[i], log[j]) {
        assert !(log[i].sequence < I64_RANGE <= log[j].sequence);
      }
    }
  }

  lemma NothingSelected(rows: Log, prefix: Kind, answer: Log)
    requires Utf8(prefix) && !Scannable(prefix) && IsSqlAnswer(rows, prefix, answer)
    ensures answer == []
  {
    if answer != [] {
      assert answer[0] in answer;
      ScanFindsNothing(prefix, answer[0].kind);
    }
  }

  lemma KindIsAnswer(rows: Log, prefix: Kind)
    requires Ascending(rows) && Utf8(prefix) && Scannable(prefix)
    ensures IsSqlAnswer(rows, prefix, KeepKind(rows, prefix)) <==> !Straddles(KeepKind(rows, prefix))
  {
    KeepKindOrdered(rows, prefix);
    StoredInOrder(KeepKind(rows, prefix));
    forall e ensures e in KeepKind(rows, prefix) <==> e in rows && Selects(e.kind, prefix) { ScanSelects(prefix, e.kind); }
  }

  /**
   Both backends answer alike exactly when the prefix can be scanned, or nothing starts with it,
   and what starts with it lies on one side of 2^63.
   */
  lemma BackendsAgree(rows: Log, prefix: Kind, answer: Log)
    requires Ascending(rows) && Utf8(prefix) && IsSqlAnswer(rows, prefix, answer)
    ensures answer == KeepKind(rows, prefix) <==>
      && (Scannable(prefix) || forall e :: e in rows ==> !(prefix <= e.kind))
      && !Straddles(KeepKind(rows, prefix))
  {
    KeepKindOrdered(rows, prefix);
    if Scannable(prefix) {
      KindIsAnswer(rows, prefix);
      if IsSqlAnswer(rows, prefix, KeepKind(rows, prefix)) {
        SqlAnswerUnique(rows, prefix, answer, KeepKind(rows, prefix));
      }
    } else {
      NothingSelected(rows, prefix, answer);
      assert |KeepKind(rows, prefix)| > 0 ==> KeepKind(rows, prefix)[0] in KeepKind(rows, prefix);
    }
  }

  /** Two events, at 1 and at 2^63: SQLite returns the later one first. */
  lemma HighRowComesFirst()
    ensures var rows := [Row(1), Row(I64_RANGE)];
            && Ascending(rows)
            && IsSqlAnswer(rows, [], [Row(I64_RANGE), Row(1)]) && KeepKind(rows, []) == rows
  {
    var rows := [Row(1), Row(I64_RANGE)];
    assert rows[..1] == [Row(1)] && rows[..1][..0] == [];
    assert KeepKind(rows[..1], []) == [Row(1)];
    forall e: Event ensures Selects(e.kind, []) { ScanSelects([], e.kind); }
  }
}
