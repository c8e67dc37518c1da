/** Stable sorting and adjacent de-duplication by a caller's order. */
module Sorting {

  type Order<!T> = (T, T) -> bool

  /** A strict order that decides between any two different elements of `s`. */
  ghost predicate TotalOn<T(!new)>(s: set<T>, less: Order<T>) {
    && (forall x :: x in s ==> !less(x, x))
    && (forall x, y, z :: x in s && y in s && z in s && less(x, y) && less(y, z) ==> less(x, z))
    && (forall x, y :: x in s && y in s && x != y ==> less(x, y) || less(y, x))
  }

  ghost predicate Strict<T(!new)>(xs: seq<T>, less: Order<T>) {
    forall i, j :: 0 <= i < j < |xs| ==> less(xs[i], xs[j])
  }

  function Elements<T>(xs: seq<T>): set<T> {
    set x | x in xs
  }

  /** Put `x` behind everything it is not below. */
  function Insert<T>(xs: seq<T>, x: T, less: Order<T>): seq<T> {
    if xs == [] || !less(x, xs[|xs| - 1]) then xs + [x]
    else Insert(xs[..|xs| - 1], x, less) + [xs[|xs| - 1]]
  }

  /** Stable sort. */
  function Sort<T>(xs: seq<T>, less: Order<T>): seq<T> {
    if xs == [] then [] else Insert(Sort(xs[..|xs| - 1], less), xs[|xs| - 1], less)
  }

  /** Drop every element that repeats the one kept before it. */
  function Dedup<T>(xs: seq<T>, same: Order<T>): (r: seq<T>)
    ensures xs != [] ==> r != []
  {
    if |xs| <= 1 then xs
    else
      var kept := Dedup(xs[..|xs| - 1], same);
      if same(xs[|xs| - 1], kept[|kept| - 1]) then kept else kept + [xs[|xs| - 1]]
  }

  lemma SameElements<T>(xs: seq<T>, ys: seq<T>)
    requires multiset(xs) == multiset(ys)
    ensures Elements(xs) == Elements(ys)
  {
    forall x ensures x in xs <==> x in ys {
      assert x in xs <==> x in multiset(xs);
      assert x in ys <==> x in multiset(ys);
    }
  }

  lemma {:induction false} InsertCounts<T>(xs: seq<T>, x: T, less: Order<T>)
    ensures multiset(Insert(xs, x, less)) == multiset(xs + [x])
  {
    if !(xs == [] || !less(x, xs[|xs| - 1])) {
      InsertCounts(xs[..|xs| - 1], x, less);
      assert xs == xs[..|xs| - 1] + [xs[|xs| - 1]];
    }
  }

  lemma InsertContents<T>(xs: seq<T>, x: T, less: Order<T>)
    ensures Elements(Insert(xs, x, less)) == Elements(xs) + {x}
  {
    InsertCounts(xs, x, less);
    SameElements(Insert(xs, x, less), xs + [x]);
  }

  lemma {:induction false} SortCounts<T>(xs: seq<T>, less: Order<T>)
    ensures multiset(Sort(xs, less)) == multiset(xs)
  {
    if xs != [] {
      SortCounts(xs[..|xs| - 1], less);
      InsertCounts(Sort(xs[..|xs| - 1], less), xs[|xs| - 1], less);
      assert xs == xs[..|xs| - 1] + [xs[|xs| - 1]];
    }
  }

  lemma SortContents<T>(xs: seq<T>, less: Order<T>)
    ensures multiset(Sort(xs, less)) == multiset(xs)
    ensures Elements(Sort(xs, less)) == Elements(xs)
  {
    SortCounts(xs, less);
    SameElements(Sort(xs, less), xs);
  }

  /** In order, equal elements side by side. */
  ghost predicate Ordered<T(!new)>(xs: seq<T>, less: Order<T>) {
    forall i, j :: 0 <= i < j < |xs| ==> xs[i] == xs[j] || less(xs[i], xs[j])
  }

  lemma {:induction false} InsertOrdered<T(!new)>(xs: seq<T>, x: T, less: Order<T>)
    requires TotalOn(Elements(xs) + {x}, less) && Ordered(xs, less)
    ensures Ordered(Insert(xs, x, less), less)
  {
    if xs != [] {
      var init, last := xs[..|xs| - 1], xs[|xs| - 1];
      assert last in Elements(xs);
      if less(x, last) {
        InsertOrdered(init, x, less);
        InsertContents(init, x, less);
        var r := Insert(init, x, less);
        forall i | 0 <= i < |r| ensures r[i] == last || less(r[i], last) {
          assert r[i] in Elements(r);
          if r[i] != x {
            assert r[i] in init;
          }
        }
      } else {
        forall i | 0 <= i < |xs| ensures xs[i] == x || less(xs[i], x) {
          assert xs[i] in Elements(xs);
        }
      }
    }
  }

  lemma {:induction false} SortOrdered<T(!new)>(xs: seq<T>, less: Order<T>)
    requires TotalOn(Elements(xs), less)
    ensures Ordered(Sort(xs, less), less)
  {
    if xs != [] {
      var init, last := xs[..|xs| - 1], xs[|xs| - 1];
      assert Elements(xs) == Elements(init) + {last};
      SortOrdered(init, less);
      SortContents(init, less);
      InsertOrdered(Sort(init, less), last, less);
    }
  }

  /** A strictly ordered list is determined by its elements. */
  lemma {:induction false} StrictUnique<T(!new)>(xs: seq<T>, ys: seq<T>, less: Order<T>)
    requires Elements(xs) == Elements(ys) && TotalOn(Elements(xs), less)
    requires Strict(xs, less) && Strict(ys, less)
    ensures xs == ys
  {
    if xs == [] {
      assert forall i :: 0 <= i < |ys| ==> ys[i] in Elements(ys);
    } else {
      assert xs[0] in Elements(ys);
      var x, y := xs[|xs| - 1], ys[|ys| - 1];
      assert x in Elements(ys) && y in Elements(xs);
      assert x == y;
      StrictWithoutLast(xs, less);
      StrictWithoutLast(ys, less);
      StrictUnique(xs[..|xs| - 1], ys[..|ys| - 1], less);
    }
  }

  lemma StrictWithoutLast<T(!new)>(xs: seq<T>, less: Order<T>)
    requires xs != [] && Strict(xs, less) && TotalOn(Elements(xs), less)
    ensures Elements(xs[..|xs| - 1]) == Elements(xs) - {xs[|xs| - 1]}
  {
    forall i | 0 <= i < |xs| - 1 ensures xs[i] != xs[|xs| - 1] {
      assert xs[i] in Elements(xs);
    }
  }

  ghost predicate Distinct<T>(xs: seq<T>) {
    forall i, j :: 0 <= i < j < |xs| ==> xs[i] != xs[j]
  }

  lemma {:induction false} DistinctCount<T>(xs: seq<T>)
    ensures Distinct(xs) <==> forall x :: x in xs ==> multiset(xs)[x] == 1
  {
    if xs != [] {
      var init, last := xs[..|xs| - 1], xs[|xs| - 1];
      assert xs == init + [last];
      DistinctCount(init);
      if Distinct(xs) {
        forall x | x in xs ensures multiset(xs)[x] == 1 {
          assert last !in init;
        }
      } else {
        var i, j :| 0 <= i < j < |xs| && xs[i] == xs[j];
        if j == |xs| - 1 {
          assert init[i] == last;
          assert multiset(init)[last] >= 1;
          assert last in xs && multiset(xs)[last] >= 2;
        } else {
          assert init[i] == init[j];
          assert !Distinct(init);
          var x :| x in init && multiset(init)[x] != 1;
          assert x in xs && multiset(xs)[x] >= multiset(init)[x] >= 1;
        }
      }
    }
  }

  /** Without repetitions, sorting depends only on which elements there are. */
  lemma SortUnique<T(!new)>(xs: seq<T>, ys: seq<T>, less: Order<T>)
    requires Elements(xs) == Elements(ys) && Distinct(xs) && Distinct(ys) && TotalOn(Elements(xs), less)
    ensures Sort(xs, less) == Sort(ys, less)
  {
    SortStrict(xs, less);
    SortStrict(ys, less);
    StrictUnique(Sort(xs, less), Sort(ys, less), less);
  }

  lemma SortStrict<T(!new)>(xs: seq<T>, less: Order<T>)
    requires Distinct(xs) && TotalOn(Elements(xs), less)
    ensures Strict(Sort(xs, less), less) && Elements(Sort(xs, less)) == Elements(xs)
  {
    SortOrdered(xs, less);
    SortContents(xs, less);
    DistinctCount(xs);
    var r := Sort(xs, less);
    forall x | x in r ensures multiset(r)[x] == 1 {
      assert x in Elements(r);
    }
    DistinctCount(r);
  }

  // ---------------------------------------------------------------------------
  // sort followed by dedup
  // ---------------------------------------------------------------------------

  function Same<T(==)>(): Order<T> {
    (x, y) => x == y
  }

  function SortDedup<T(==)>(xs: seq<T>, less: Order<T>): seq<T> {
    Dedup(Sort(xs, less), Same())
  }

  lemma DedupSame<T(!new)>(xs: seq<T>)
    ensures Elements(Dedup(xs, Same())) == Elements(xs)
    ensures xs != [] ==> Dedup(xs, Same())[|Dedup(xs, Same())| - 1] == xs[|xs| - 1]
  {
    var id := (x: T) => x;
    DedupContents(xs, id, Same());
    if xs != [] { DedupLast(xs, id, Same()); }
    forall x | x in xs ensures x in Dedup(xs, Same()) {
      var y :| y in Dedup(xs, Same()) && id(y) == id(x);
    }
  }

  lemma AppendStrict<T(!new)>(xs: seq<T>, x: T, less: Order<T>)
    requires Strict(xs, less) && TotalOn(Elements(xs) + {x}, less) && xs != [] && less(xs[|xs| - 1], x)
    ensures Strict(xs + [x], less)
  {
    var s := Elements(xs) + {x};
    forall i | 0 <= i < |xs| ensures less(xs[i], x) {
      assert xs[i] in s && xs[|xs| - 1] in s && x in s;
      assert i < |xs| - 1 ==> less(xs[i], xs[|xs| - 1]);
    }
  }

  lemma WithLast<T>(xs: seq<T>)
    requires xs != []
    ensures Elements(xs) == Elements(xs[..|xs| - 1]) + {xs[|xs| - 1]}
  {
    assert xs == xs[..|xs| - 1] + [xs[|xs| - 1]];
  }

  lemma {:induction false} DedupStrict<T(!new)>(xs: seq<T>, less: Order<T>)
    requires Ordered(xs, less) && TotalOn(Elements(xs), less)
    ensures Strict(Dedup(xs, Same()), less)
  {
    if |xs| > 1 {
      var init, last := xs[..|xs| - 1], xs[|xs| - 1];
      WithLast(xs);
      assert Ordered(init, less) && TotalOn(Elements(init), less);
      DedupStrict(init, less);
      DedupSame(init);
      var kept := Dedup(init, Same());
      assert kept[|kept| - 1] == xs[|xs| - 2];
      if kept[|kept| - 1] != last {
        AppendStrict(kept, last, less);
      }
    }
  }

  /** The result holds each element once, in order. */
  lemma SortDedupStrict<T(!new)>(xs: seq<T>, less: Order<T>)
    requires TotalOn(Elements(xs), less)
    ensures Strict(SortDedup(xs, less), less) && Elements(SortDedup(xs, less)) == Elements(xs)
  {
    SortOrdered(xs, less);
    SortContents(xs, less);
    DedupStrict(Sort(xs, less), less);
    DedupSame(Sort(xs, less));
  }

  /** Order and repetition of the input do not matter. */
  lemma SortDedupUnique<T(!new)>(xs: seq<T>, ys: seq<T>, less: Order<T>)
    requires Elements(xs) == Elements(ys) && TotalOn(Elements(xs), less)
    ensures SortDedup(xs, less) == SortDedup(ys, less)
  {
    SortDedupStrict(xs, less);
    SortDedupStrict(ys, less);
    StrictUnique(SortDedup(xs, less), SortDedup(ys, less), less);
  }

  /** Behind a sort whose ties need not be equal: nothing is below what stands before it. */
  ghost predicate NoneBelow<T>(xs: seq<T>, less: Order<T>) {
    forall i, j :: 0 <= i < j < |xs| ==> !less(xs[j], xs[i])
  }

  ghost predicate WeakOrder<T(!new)>(less: Order<T>) {
    && (forall x, y :: less(x, y) ==> !less(y, x))
    && (forall x, y, z :: !less(y, x) && !less(z, y) ==> !less(z, x))
  }

  lemma {:induction false} InsertNoneBelow<T(!new)>(xs: seq<T>, x: T, less: Order<T>)
    requires WeakOrder(less) && NoneBelow(xs, less)
    ensures NoneBelow(Insert(xs, x, less), less)
  {
    if xs != [] {
      var init, last := xs[..|xs| - 1], xs[|xs| - 1];
      if less(x, last) {
        InsertNoneBelow(init, x, less);
        InsertContents(init, x, less);
        var r := Insert(init, x, less);
        forall i | 0 <= i < |r| ensures !less(last, r[i]) {
          assert r[i] in Elements(r);
        }
      }
    }
  }

  lemma {:induction false} SortNoneBelow<T(!new)>(xs: seq<T>, less: Order<T>)
    requires WeakOrder(less)
    ensures NoneBelow(Sort(xs, less), less)
  {
    if xs != [] {
      SortNoneBelow(xs[..|xs| - 1], less);
      InsertNoneBelow(Sort(xs[..|xs| - 1], less), xs[|xs| - 1], less);
    }
  }

  // ---------------------------------------------------------------------------
  // Lexicographic order
  // ---------------------------------------------------------------------------

  predicate LexLess<T(==)>(xs: seq<T>, ys: seq<T>, less: Order<T>) {
    ys != [] && (xs == [] || less(xs[0], ys[0]) || (xs[0] == ys[0] && LexLess(xs[1..], ys[1..], less)))
  }

  function Lex<T(==)>(less: Order<T>): Order<seq<T>> {
    (xs: seq<T>, ys: seq<T>) => LexLess(xs, ys, less)
  }

  ghost predicate StrictTotal<T(!new)>(less: Order<T>) {
    && (forall x :: !less(x, x))
    && (forall x, y, z :: less(x, y) && less(y, z) ==> less(x, z))
    && (forall x, y :: x == y || less(x, y) || less(y, x))
  }

  lemma {:induction false} LexIrreflexive<T(!new)>(xs: seq<T>, less: Order<T>)
    requires StrictTotal(less)
    ensures !LexLess(xs, xs, less)
  {
    if xs != [] { LexIrreflexive(xs[1..], less); }
  }

  lemma {:induction false} LexTransitive<T(!new)>(xs: seq<T>, ys: seq<T>, zs: seq<T>, less: Order<T>)
    requires StrictTotal(less) && LexLess(xs, ys, less) && LexLess(ys, zs, less)
    ensures LexLess(xs, zs, less)
  {
    if xs != [] && xs[0] == ys[0] == zs[0] && !less(xs[0], ys[0]) && !less(ys[0], zs[0]) {
      LexTransitive(xs[1..], ys[1..], zs[1..], less);
    }
  }

  lemma {:induction false} LexTotal<T(!new)>(xs: seq<T>, ys: seq<T>, less: Order<T>)
    requires StrictTotal(less)
    ensures xs == ys || LexLess(xs, ys, less) || LexLess(ys, xs, less)
  {
    if xs != [] && ys != [] && xs[0] == ys[0] {
      LexTotal(xs[1..], ys[1..], less);
      assert xs == [xs[0]] + xs[1..] && ys == [ys[0]] + ys[1..];
    }
  }

  lemma LexStrictTotal<T(!new)>(less: Order<T>)
    requires StrictTotal(less)
    ensures StrictTotal(Lex(less))
  {
    forall xs ensures !Lex(less)(xs, xs) { LexIrreflexive(xs, less); }
    forall xs, ys, zs | Lex(less)(xs, ys) && Lex(less)(ys, zs) ensures Lex(less)(xs, zs) {
      LexTransitive(xs, ys, zs, less);
    }
    forall xs, ys ensures xs == ys || Lex(less)(xs, ys) || Lex(less)(ys, xs) { LexTotal(xs, ys, less); }
  }

  /** A strict total order on keys gives a weak order on what they belong to ... */
  lemma KeyedWeak<T(!new), K(!new)>(key: T -> K, less: Order<K>, keyed: Order<T>)
    requires StrictTotal(less) && forall x, y :: keyed(x, y) <==> less(key(x), key(y))
    ensures WeakOrder(keyed)
  {
    forall x, y, z | !keyed(y, x) && !keyed(z, y) ensures !keyed(z, x) {
      assert key(x) == key(y) || less(key(x), key(y));
      assert key(y) == key(z) || less(key(y), key(z));
    }
  }

  /** ... and a total one where different things have different keys. */
  lemma KeyedTotal<T(!new), K(!new)>(s: set<T>, key: T -> K, less: Order<K>, keyed: Order<T>)
    requires StrictTotal(less) && forall x, y :: keyed(x, y) <==> less(key(x), key(y))
    requires forall x, y :: x in s && y in s && key(x) == key(y) ==> x == y
    ensures TotalOn(s, keyed)
  {
  }

  ghost predicate KeysAscend<T, K>(xs: seq<T>, key: T -> K, less: Order<K>) {
    forall i, j :: 0 <= i < j < |xs| ==> less(key(xs[i]), key(xs[j]))
  }

  ghost predicate ByKeys<T(!new), K>(key: T -> K, same: Order<T>) {
    forall x, y :: same(x, y) <==> key(x) == key(y)
  }

  ghost predicate Represented<T, K>(xs: seq<T>, ys: seq<T>, key: T -> K) {
    forall x :: x in xs ==> exists y :: y in ys && key(y) == key(x)
  }

  lemma {:induction false} DedupLast<T(!new), K>(xs: seq<T>, key: T -> K, same: Order<T>)
    requires ByKeys(key, same) && xs != []
    ensures key(Dedup(xs, same)[|Dedup(xs, same)| - 1]) == key(xs[|xs| - 1])
  {
    if |xs| > 1 { DedupLast(xs[..|xs| - 1], key, same); }
  }

  lemma {:induction false} DedupRepresents<T(!new), K>(xs: seq<T>, key: T -> K, same: Order<T>, i: nat) returns (k: nat)
    requires ByKeys(key, same) && i < |xs|
    ensures k < |Dedup(xs, same)| && key(Dedup(xs, same)[k]) == key(xs[i])
  {
    if i == |xs| - 1 {
      DedupLast(xs, key, same);
      k := |Dedup(xs, same)| - 1;
    } else {
      k := DedupRepresents(xs[..|xs| - 1], key, same, i);
    }
  }

  lemma {:induction false} DedupInside<T>(xs: seq<T>, same: Order<T>)
    ensures Elements(Dedup(xs, same)) <= Elements(xs)
  {
    if |xs| > 1 {
      var init := xs[..|xs| - 1];
      DedupInside(init, same);
      forall x | x in Dedup(xs, same) ensures x in xs {
        assert x in Elements(Dedup(init, same)) ==> x in Elements(init);
      }
    }
  }

  /** Dropping neighbours with equal keys keeps only elements, and keeps one for each key. */
  lemma DedupContents<T(!new), K>(xs: seq<T>, key: T -> K, same: Order<T>)
    requires ByKeys(key, same)
    ensures Elements(Dedup(xs, same)) <= Elements(xs) && Represented(xs, Dedup(xs, same), key)
  {
    DedupInside(xs, same);
    forall x | x in xs ensures exists y :: y in Dedup(xs, same) && key(y) == key(x) {
      var i :| 0 <= i < |xs| && xs[i] == x;
      var k := DedupRepresents(xs, key, same, i);
    }
  }

  ghost predicate KeysNeverFall<T, K>(xs: seq<T>, key: T -> K, less: Order<K>) {
    forall i, j :: 0 <= i < j < |xs| ==> !less(key(xs[j]), key(xs[i]))
  }

  /** In a list sorted by key, that leaves every key once. */
  lemma {:induction false} DedupKeys<T(!new), K(!new)>(xs: seq<T>, key: T -> K, less: Order<K>, same: Order<T>)
    requires StrictTotal(less) && ByKeys(key, same) && KeysNeverFall(xs, key, less)
    ensures KeysAscend(Dedup(xs, same), key, less)
  {
    if |xs| > 1 {
      var init, last := xs[..|xs| - 1], xs[|xs| - 1];
      assert KeysNeverFall(init, key, less);
      DedupKeys(init, key, less, same);
      DedupLast(init, key, same);
      var kept := Dedup(init, same);
      var top := kept[|kept| - 1];
      assert key(top) == key(xs[|xs| - 2]) && !less(key(last), key(top));
      if !same(last, top) {
        AppendAscends(kept, last, key, less);
      }
    }
  }

  lemma AppendAscends<T, K(!new)>(xs: seq<T>, x: T, key: T -> K, less: Order<K>)
    requires StrictTotal(less) && KeysAscend(xs, key, less) && xs != [] && less(key(xs[|xs| - 1]), key(x))
    ensures KeysAscend(xs + [x], key, less)
  {
    forall i | 0 <= i < |xs| ensures less(key(xs[i]), key(x)) {
      assert i < |xs| - 1 ==> less(key(xs[i]), key(xs[|xs| - 1]));
    }
  }

  /** A comparison that is equality on the list drops what equality drops. */
  lemma {:induction false} DedupAgrees<T(!new)>(xs: seq<T>, same: Order<T>)
    requires forall x, y :: x in xs && y in xs ==> (same(x, y) <==> x == y)
    ensures Dedup(xs, same) == Dedup(xs, Same())
  {
    if |xs| > 1 {
      var init, last := xs[..|xs| - 1], xs[|xs| - 1];
      assert forall x :: x in init ==> x in xs;
      DedupAgrees(init, same);
      DedupInside(init, same);
      var kept := Dedup(init, same);
      assert kept[|kept| - 1] in Elements(init);
    }
  }
}
