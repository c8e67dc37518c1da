/** The canonical form decides equality up to member order. */
module JsonCanon {
  import opened Basics
  import opened Sorting
  import opened Json

  function ByKey(): Order<Member> {
    (m: Member, n: Member) => KeyLess(m.key, n.key)
  }

  ghost predicate Ascending(ms: seq<Member>) {
    Strict(ms, ByKey())
  }

  /** Members in strictly ascending key order at every depth. */
  ghost predicate InOrder(v: Json) {
    match v
    case Arr(items) => forall i :: 0 <= i < |items| ==> InOrder(items[i])
    case Obj(ms) => Ascending(ms) && forall i :: 0 <= i < |ms| ==> InOrder(ms[i].value)
    case _ => true
  }

  // ---------------------------------------------------------------------------
  // Put
  // ---------------------------------------------------------------------------

  /** Filing a member keeps the order, replaces its key and leaves the rest. */
  lemma {:induction false} PutFiles(ms: seq<Member>, m: Member)
    requires Ascending(ms)
    ensures Ascending(Put(ms, m))
    ensures forall x :: x in Put(ms, m) <==> x == m || (x in ms && x.key != m.key)
  {
    if ms != [] {
      var init, last := ms[..|ms| - 1], ms[|ms| - 1];
      assert ms == init + [last];
      KeyTotal(last.key, m.key);
      forall i | 0 <= i < |init| ensures KeyLess(init[i].key, last.key) {
        assert ByKey()(ms[i], last);
      }
      if KeyLess(last.key, m.key) {
        PutBehind(ms, m);
      } else if last.key == m.key {
        PutOver(ms, m);
      } else {
        PutFiles(init, m);
        PutBefore(init, m, last);
      }
    }
  }

  lemma PutBehind(ms: seq<Member>, m: Member)
    requires ms != [] && Ascending(ms) && KeyLess(ms[|ms| - 1].key, m.key)
    ensures Ascending(ms + [m]) && forall x :: x in ms ==> x.key != m.key
  {
    forall i | 0 <= i < |ms| ensures KeyLess(ms[i].key, m.key) && ms[i].key != m.key {
      if i < |ms| - 1 {
        assert ByKey()(ms[i], ms[|ms| - 1]);
        KeyTransitive(ms[i].key, ms[|ms| - 1].key, m.key);
      }
      KeyIrreflexive(m.key);
    }
  }

  lemma PutOver(ms: seq<Member>, m: Member)
    requires ms != [] && Ascending(ms) && ms[|ms| - 1].key == m.key
    ensures Ascending(ms[..|ms| - 1] + [m]) && forall x :: x in ms[..|ms| - 1] ==> x.key != m.key
  {
    forall i | 0 <= i < |ms| - 1 ensures KeyLess(ms[i].key, m.key) && ms[i].key != m.key {
      assert ByKey()(ms[i], ms[|ms| - 1]);
      KeyIrreflexive(m.key);
    }
  }

  lemma PutBefore(init: seq<Member>, m: Member, last: Member)
    requires Ascending(Put(init, m)) && KeyLess(m.key, last.key)
    requires forall i :: 0 <= i < |init| ==> KeyLess(init[i].key, last.key)
    requires forall x :: x in Put(init, m) <==> x == m || (x in init && x.key != m.key)
    ensures Ascending(Put(init, m) + [last]) && last.key != m.key
  {
    KeyIrreflexive(m.key);
    var r := Put(init, m);
    forall i | 0 <= i < |r| ensures KeyLess(r[i].key, last.key) {
      assert r[i] in r;
    }
  }

  // ---------------------------------------------------------------------------
  // Members of a canonical object
  // ---------------------------------------------------------------------------

  function Canonised(m: Member): Member {
    Member(m.key, Canonical(m.value))
  }

  lemma {:induction false} MembersAscending(ms: seq<Member>)
    ensures Ascending(CanonicalMembers(ms))
    ensures forall x :: x in CanonicalMembers(ms) ==> exists i :: 0 <= i < |ms| && x == Canonised(ms[i])
  {
    if ms != [] {
      var init, last := ms[..|ms| - 1], ms[|ms| - 1];
      MembersAscending(init);
      PutFiles(CanonicalMembers(init), Canonised(last));
      forall x | x in CanonicalMembers(ms) ensures exists i :: 0 <= i < |ms| && x == Canonised(ms[i]) {
        if x == Canonised(last) {
          assert x == Canonised(ms[|ms| - 1]);
        } else {
          var i :| 0 <= i < |init| && x == Canonised(init[i]);
          assert x == Canonised(ms[i]);
        }
      }
    }
  }

  /** With unique keys nothing is lost. */
  lemma {:induction false} MembersComplete(ms: seq<Member>, i: nat)
    requires UniqueKeys(ms) && i < |ms|
    ensures Canonised(ms[i]) in CanonicalMembers(ms)
  {
    var init, last := ms[..|ms| - 1], ms[|ms| - 1];
    MembersAscending(init);
    PutFiles(CanonicalMembers(init), Canonised(last));
    if i < |init| {
      MembersComplete(init, i);
      assert ms[i].key != last.key;
    }
  }

  lemma AscendingIsTotal(ms: seq<Member>)
    requires Ascending(ms)
    ensures TotalOn(Elements(ms), ByKey())
  {
    forall x | x in Elements(ms) ensures !ByKey()(x, x) { KeyIrreflexive(x.key); }
    forall x, y, z | x in Elements(ms) && y in Elements(ms) && z in Elements(ms) && ByKey()(x, y) && ByKey()(y, z)
      ensures ByKey()(x, z)
    {
      KeyTransitive(x.key, y.key, z.key);
    }
    forall x, y | x in Elements(ms) && y in Elements(ms) && x != y ensures ByKey()(x, y) || ByKey()(y, x) {
      var i :| 0 <= i < |ms| && ms[i] == x;
      var j :| 0 <= j < |ms| && ms[j] == y;
    }
  }

  lemma AscendingUnique(xs: seq<Member>, ys: seq<Member>)
    requires Ascending(xs) && Ascending(ys) && forall x :: x in xs <==> x in ys
    ensures xs == ys
  {
    assert Elements(xs) == Elements(ys);
    AscendingIsTotal(xs);
    StrictUnique(xs, ys, ByKey());
  }

  lemma {:induction false} ItemsAt(items: seq<Json>, i: nat)
    requires i < |items|
    ensures CanonicalItems(items)[i] == Canonical(items[i])
  {
    if i < |items| - 1 { ItemsAt(items[..|items| - 1], i); }
  }

  // ---------------------------------------------------------------------------
  // Theorems
  // ---------------------------------------------------------------------------

  /** The result is in order at every depth, whatever the input. */
  lemma {:induction false} CanonicalInOrder(v: Json)
    ensures InOrder(Canonical(v))
    decreases v
  {
    match v
    case Arr(items) =>
      forall i | 0 <= i < |items| ensures InOrder(CanonicalItems(items)[i]) {
        ItemsAt(items, i);
        CanonicalInOrder(items[i]);
      }
    case Obj(ms) =>
      MembersAscending(ms);
      var r := CanonicalMembers(ms);
      forall k | 0 <= k < |r| ensures InOrder(r[k].value) {
        assert r[k] in r;
        var i :| 0 <= i < |ms| && r[k] == Canonised(ms[i]);
        CanonicalInOrder(ms[i].value);
      }
    case _ =>
  }

  lemma AscendingUniqueKeys(ms: seq<Member>)
    requires Ascending(ms)
    ensures UniqueKeys(ms)
  {
    forall i, j | 0 <= i < j < |ms| ensures ms[i].key != ms[j].key {
      assert ByKey()(ms[i], ms[j]);
      KeyIrreflexive(ms[i].key);
    }
  }

  /** A value in order is its own canonical form. */
  lemma {:induction false} InOrderIsCanonical(v: Json)
    requires InOrder(v)
    ensures Canonical(v) == v
    decreases v
  {
    match v
    case Arr(items) =>
      forall i | 0 <= i < |items| ensures CanonicalItems(items)[i] == items[i] {
        ItemsAt(items, i);
        InOrderIsCanonical(items[i]);
      }
    case Obj(ms) =>
      forall i | 0 <= i < |ms| ensures Canonised(ms[i]) == ms[i] {
        InOrderIsCanonical(ms[i].value);
      }
      AscendingUniqueKeys(ms);
      MembersAscending(ms);
      forall x ensures x in CanonicalMembers(ms) <==> x in ms {
        if x in ms {
          var i :| 0 <= i < |ms| && ms[i] == x;
          MembersComplete(ms, i);
        }
      }
      AscendingUnique(CanonicalMembers(ms), ms);
    case _ =>
  }

  /** Canonicalising twice changes nothing. */
  lemma CanonicalIdempotent(v: Json)
    ensures Canonical(Canonical(v)) == Canonical(v)
  {
    CanonicalInOrder(v);
    InOrderIsCanonical(Canonical(v));
  }

  /** Equal canonical forms come from values that differ only in member order. */
  lemma {:induction false} EqualFormsAreEquivalent(v: Json, w: Json)
    requires WellFormed(v) && WellFormed(w) && Canonical(v) == Canonical(w)
    ensures Equivalent(v, w)
    decreases v, 1
  {
    match v
    case Arr(items) =>
      forall i | 0 <= i < |items| ensures Equivalent(items[i], w.items[i]) {
        ItemsAt(items, i);
        ItemsAt(w.items, i);
        EqualFormsAreEquivalent(items[i], w.items[i]);
      }
    case Obj(ms) => EqualMembersAreEquivalent(ms, w.members);
    case _ =>
  }

  lemma {:induction false} EqualMembersAreEquivalent(ms: seq<Member>, ns: seq<Member>)
    requires WellFormed(Obj(ms)) && WellFormed(Obj(ns)) && CanonicalMembers(ms) == CanonicalMembers(ns)
    ensures Equivalent(Obj(ms), Obj(ns))
    decreases ms, 0
  {
    forall i | 0 <= i < |ms| ensures MatchedBy(ms[i], ns) {
      var j := Counterpart(ms, ns, i);
      EqualFormsAreEquivalent(ms[i].value, ns[j].value);
      assert EquivalentMember(ms[i], ns[j]);
    }
    forall j | 0 <= j < |ns| ensures Matches(ms, ns[j]) {
      var i := Counterpart(ns, ms, j);
      EqualFormsAreEquivalent(ms[i].value, ns[j].value);
      assert EquivalentMember(ms[i], ns[j]);
    }
  }

  lemma Counterpart(ms: seq<Member>, ns: seq<Member>, i: nat) returns (j: nat)
    requires UniqueKeys(ms) && CanonicalMembers(ms) == CanonicalMembers(ns) && i < |ms|
    ensures j < |ns| && Canonised(ms[i]) == Canonised(ns[j])
  {
    MembersComplete(ms, i);
    MembersAscending(ns);
    j :| 0 <= j < |ns| && Canonised(ms[i]) == Canonised(ns[j]);
  }

  /** Values that differ only in member order have one canonical form. */
  lemma {:induction false} EquivalentHaveOneForm(v: Json, w: Json)
    requires WellFormed(v) && WellFormed(w) && Equivalent(v, w)
    ensures Canonical(v) == Canonical(w)
    decreases v, 1
  {
    match v
    case Arr(items) =>
      forall i | 0 <= i < |items| ensures CanonicalItems(items)[i] == CanonicalItems(w.items)[i] {
        ItemsAt(items, i);
        ItemsAt(w.items, i);
        EquivalentHaveOneForm(items[i], w.items[i]);
      }
      assert CanonicalItems(items) == CanonicalItems(w.items);
    case Obj(ms) => EquivalentMembersHaveOneForm(ms, w.members);
    case _ =>
  }

  lemma {:induction false} EquivalentMembersHaveOneForm(ms: seq<Member>, ns: seq<Member>)
    requires WellFormed(Obj(ms)) && WellFormed(Obj(ns)) && Equivalent(Obj(ms), Obj(ns))
    ensures CanonicalMembers(ms) == CanonicalMembers(ns)
    decreases ms, 1
  {
    forall i | 0 <= i < |ms| ensures Canonised(ms[i]) in CanonicalMembers(ns) {
      assert MatchedBy(ms[i], ns);
      var j :| 0 <= j < |ns| && EquivalentMember(ms[i], ns[j]);
      MembersMeet(ms, ns, i, j);
    }
    forall j | 0 <= j < |ns| ensures Canonised(ns[j]) in CanonicalMembers(ms) {
      assert Matches(ms, ns[j]);
      var i :| 0 <= i < |ms| && EquivalentMember(ms[i], ns[j]);
      MembersMeet(ms, ns, i, j);
    }
    SameMembers(ms, ns);
  }

  lemma {:induction false} MembersMeet(ms: seq<Member>, ns: seq<Member>, i: nat, j: nat)
    requires UniqueKeys(ms) && UniqueKeys(ns) && i < |ms| && j < |ns| && EquivalentMember(ms[i], ns[j])
    requires WellFormed(ms[i].value) && WellFormed(ns[j].value)
    ensures Canonised(ms[i]) in CanonicalMembers(ns) && Canonised(ns[j]) in CanonicalMembers(ms)
    decreases ms, 0
  {
    EquivalentHaveOneForm(ms[i].value, ns[j].value);
    MembersComplete(ms, i);
    MembersComplete(ns, j);
  }

  lemma SameMembers(ms: seq<Member>, ns: seq<Member>)
    requires forall i :: 0 <= i < |ms| ==> Canonised(ms[i]) in CanonicalMembers(ns)
    requires forall j :: 0 <= j < |ns| ==> Canonised(ns[j]) in CanonicalMembers(ms)
    ensures CanonicalMembers(ms) == CanonicalMembers(ns)
  {
    MembersAscending(ms);
    MembersAscending(ns);
    AscendingUnique(CanonicalMembers(ms), CanonicalMembers(ns));
  }

  /** Canonical trees are equal exactly when the values differ only in member order. */
  lemma CanonicalDecides(v: Json, w: Json)
    requires WellFormed(v) && WellFormed(w)
    ensures Canonical(v) == Canonical(w) <==> Equivalent(v, w)
  {
    if Canonical(v) == Canonical(w) { EqualFormsAreEquivalent(v, w); }
    if Equivalent(v, w) { EquivalentHaveOneForm(v, w); }
  }

  lemma {:induction false} InOrderIsWellFormed(v: Json)
    requires InOrder(v)
    ensures WellFormed(v)
  {
    match v
    case Arr(items) =>
      forall i | 0 <= i < |items| ensures WellFormed(items[i]) { InOrderIsWellFormed(items[i]); }
    case Obj(ms) =>
      AscendingUniqueKeys(ms);
      forall i | 0 <= i < |ms| ensures WellFormed(ms[i].value) { InOrderIsWellFormed(ms[i].value); }
    case _ =>
  }

  /** The canonical form is the same value, members reordered. */
  lemma CanonicalPreserves(v: Json)
    requires WellFormed(v)
    ensures WellFormed(Canonical(v)) && Equivalent(v, Canonical(v))
  {
    CanonicalInOrder(v);
    InOrderIsWellFormed(Canonical(v));
    CanonicalIdempotent(v);
    EqualFormsAreEquivalent(v, Canonical(v));
  }

  // ---------------------------------------------------------------------------
  // Looking a member up
  // ---------------------------------------------------------------------------

  function CanonicalOption(v: Option<Json>): Option<Json> {
    if v.Some? then Some(Canonical(v.value)) else None
  }

  lemma GetAt(ms: seq<Member>, i: nat)
    requires UniqueKeys(ms) && i < |ms|
    ensures Get(ms, ms[i].key) == Some(ms[i].value)
  {
    var r := Get(ms, ms[i].key);
    var j :| 0 <= j < |ms| && ms[j].key == ms[i].key && ms[j].value == r.value;
  }

  /** Canonicalising an object canonicalises each of its fields. */
  lemma {:induction false} GetCanonical(ms: seq<Member>, key: string)
    ensures Get(CanonicalMembers(ms), key) == CanonicalOption(Get(ms, key))
  {
    if ms != [] {
      var init, last := ms[..|ms| - 1], ms[|ms| - 1];
      GetCanonical(init, key);
      MembersAscending(init);
      PutGet(CanonicalMembers(init), Canonised(last), key);
    }
  }

  lemma PutGet(ms: seq<Member>, m: Member, key: string)
    requires Ascending(ms)
    ensures Get(Put(ms, m), key) == if m.key == key then Some(m.value) else Get(ms, key)
  {
    PutFiles(ms, m);
    var r := Put(ms, m);
    AscendingUniqueKeys(r);
    if m.key == key {
      var k :| 0 <= k < |r| && r[k] == m;
      GetAt(r, k);
    } else if Get(ms, key).Some? {
      var i :| 0 <= i < |ms| && ms[i].key == key && ms[i].value == Get(ms, key).value;
      assert ms[i] in r;
      var k :| 0 <= k < |r| && r[k] == ms[i];
      GetAt(r, k);
    } else {
      forall k | 0 <= k < |r| ensures r[k].key != key {
        assert r[k] in r;
      }
    }
  }

  lemma {:induction false} GetAppend(ms: seq<Member>, ns: seq<Member>, key: string)
    ensures Get(ms + ns, key) == if Get(ns, key).Some? then Get(ns, key) else Get(ms, key)
  {
    if ns == [] {
      assert ms + ns == ms;
    } else {
      GetAppend(ms, ns[..|ns| - 1], key);
      assert (ms + ns)[..|ms + ns| - 1] == ms + ns[..|ns| - 1];
    }
  }
}
