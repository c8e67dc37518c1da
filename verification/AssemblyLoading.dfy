/** A locked component counts as loaded when it is in one place only, and can run there. */
module AssemblyLoading {
  import opened Component
  import opened AssemblyModel

  ghost predicate NoMatch(nl: NodeLock, ps: seq<Package>) {
    forall i, k :: !Matching(nl, ps, i, k)
  }

  ghost predicate HoldsNone(nl: NodeLock, p: Package) {
    forall k :: !Holds(nl, p, k)
  }

  ghost predicate OnlyMatch(nl: NodeLock, ps: seq<Package>, i: int, k: int) {
    Matching(nl, ps, i, k) && forall i', k' :: Matching(nl, ps, i', k') ==> i' == i && k' == k
  }

  lemma {:induction false} NoneIn(nl: NodeLock, p: Package, cs: seq<ComponentDescriptor>)
    ensures MatchesIn(nl, p, cs) == [] <==> forall k :: 0 <= k < |cs| ==> !MatchesLock(nl, p, cs[k])
  {
    if cs != [] {
      NoneIn(nl, p, cs[..|cs| - 1]);
      assert forall k :: 0 <= k < |cs| - 1 ==> cs[..|cs| - 1][k] == cs[k];
    }
  }

  ghost predicate OnlyIn(nl: NodeLock, p: Package, cs: seq<ComponentDescriptor>, k: int) {
    0 <= k < |cs| && MatchesLock(nl, p, cs[k]) && forall j :: 0 <= j < |cs| && MatchesLock(nl, p, cs[j]) ==> j == k
  }

  lemma OnlyInBefore(nl: NodeLock, p: Package, cs: seq<ComponentDescriptor>, k: int)
    requires cs != [] && !MatchesLock(nl, p, cs[|cs| - 1])
    ensures OnlyIn(nl, p, cs, k) <==> OnlyIn(nl, p, cs[..|cs| - 1], k)
  {
    var init := cs[..|cs| - 1];
    assert forall j :: 0 <= j < |init| ==> init[j] == cs[j];
  }

  lemma OnlyInLast(nl: NodeLock, p: Package, cs: seq<ComponentDescriptor>, k: int)
    requires cs != [] && MatchesLock(nl, p, cs[|cs| - 1])
    ensures OnlyIn(nl, p, cs, k) <==> k == |cs| - 1 && MatchesIn(nl, p, cs[..|cs| - 1]) == []
  {
    var init := cs[..|cs| - 1];
    NoneIn(nl, p, init);
    assert forall j :: 0 <= j < |init| ==> init[j] == cs[j];
    if MatchesIn(nl, p, init) != [] {
      var j :| 0 <= j < |init| && MatchesLock(nl, p, init[j]);
      assert MatchesLock(nl, p, cs[j]);
    }
  }

  lemma {:induction false} OneIn(nl: NodeLock, p: Package, cs: seq<ComponentDescriptor>) returns (k: int)
    ensures |MatchesIn(nl, p, cs)| == 1 ==> OnlyIn(nl, p, cs, k) && MatchesIn(nl, p, cs) == [Candidate(p, cs[k])]
    ensures |MatchesIn(nl, p, cs)| != 1 ==> forall j :: !OnlyIn(nl, p, cs, j)
  {
    k := |cs| - 1;
    if cs != [] {
      if MatchesLock(nl, p, cs[|cs| - 1]) {
        forall j ensures OnlyIn(nl, p, cs, j) <==> j == |cs| - 1 && MatchesIn(nl, p, cs[..|cs| - 1]) == [] {
          OnlyInLast(nl, p, cs, j);
        }
      } else {
        k := OneIn(nl, p, cs[..|cs| - 1]);
        forall j ensures OnlyIn(nl, p, cs, j) <==> OnlyIn(nl, p, cs[..|cs| - 1], j) { OnlyInBefore(nl, p, cs, j); }
      }
    }
  }

  lemma MatchingLast(nl: NodeLock, ps: seq<Package>)
    requires ps != []
    ensures forall i, k :: Matching(nl, ps[..|ps| - 1], i, k) <==> i != |ps| - 1 && Matching(nl, ps, i, k)
  {
    var init := ps[..|ps| - 1];
    forall i, k ensures Matching(nl, init, i, k) <==> i != |ps| - 1 && Matching(nl, ps, i, k) {
      if 0 <= i < |init| { assert init[i] == ps[i]; }
    }
  }

  lemma {:induction false} NoneMatch(nl: NodeLock, ps: seq<Package>)
    ensures Matches(nl, ps) == [] <==> NoMatch(nl, ps)
  {
    if ps != [] {
      var n := |ps| - 1;
      NoneMatch(nl, ps[..n]);
      NoneIn(nl, ps[n], ps[n].components);
      MatchingLast(nl, ps);
      if Matches(nl, ps) != [] {
        if Matches(nl, ps[..n]) != [] {
          var i, k :| Matching(nl, ps[..n], i, k);
          assert Matching(nl, ps, i, k);
        } else {
          var k :| 0 <= k < |ps[n].components| && MatchesLock(nl, ps[n], ps[n].components[k]);
          assert Matching(nl, ps, n, k);
        }
      }
    }
  }

  lemma OnlyBefore(nl: NodeLock, ps: seq<Package>, i: int, k: int)
    requires ps != [] && HoldsNone(nl, ps[|ps| - 1])
    ensures OnlyMatch(nl, ps, i, k) <==> OnlyMatch(nl, ps[..|ps| - 1], i, k)
  {
    MatchingLast(nl, ps);
    var init := ps[..|ps| - 1];
    forall i', k' ensures Matching(nl, ps, i', k') <==> Matching(nl, init, i', k') {
      assert Matching(nl, init, i', k') <==> i' != |ps| - 1 && Matching(nl, ps, i', k');
    }
    if OnlyMatch(nl, init, i, k) { assert OnlyMatch(nl, ps, i, k); }
    if OnlyMatch(nl, ps, i, k) { assert OnlyMatch(nl, init, i, k); }
  }

  lemma OnlyHere(nl: NodeLock, ps: seq<Package>, i: int, k: int)
    requires ps != [] && NoMatch(nl, ps[..|ps| - 1])
    ensures OnlyMatch(nl, ps, i, k) <==>
            i == |ps| - 1 && ps[i].ready && OnlyIn(nl, ps[i], ps[i].components, k)
  {
    MatchingLast(nl, ps);
    var n, p := |ps| - 1, ps[|ps| - 1];
    assert forall i', k' :: Matching(nl, ps, i', k') ==> i' == n;
    if OnlyMatch(nl, ps, i, k) {
      forall j | 0 <= j < |p.components| && MatchesLock(nl, p, p.components[j]) ensures j == k {
        assert Matching(nl, ps, n, j);
      }
    }
  }

  lemma OnlyNowhere(nl: NodeLock, ps: seq<Package>, i: int, k: int, j: int)
    requires ps != [] && !NoMatch(nl, ps[..|ps| - 1]) && Holds(nl, ps[|ps| - 1], j)
    ensures !OnlyMatch(nl, ps, i, k)
  {
    MatchingLast(nl, ps);
    var init, n := ps[..|ps| - 1], |ps| - 1;
    var a, b :| Matching(nl, init, a, b);
    assert Matching(nl, ps, a, b) && Matching(nl, ps, n, j) && a != n;
  }

  lemma HereMatches(nl: NodeLock, ps: seq<Package>) returns (j: int)
    requires ps != []
    ensures var p := ps[|ps| - 1];
            if p.ready && MatchesIn(nl, p, p.components) != [] then Holds(nl, p, j) else HoldsNone(nl, p)
  {
    var p := ps[|ps| - 1];
    NoneIn(nl, p, p.components);
    j := 0;
    if p.ready && MatchesIn(nl, p, p.components) != [] {
      j :| 0 <= j < |p.components| && MatchesLock(nl, p, p.components[j]);
    }
  }

  /** Exactly one candidate is found exactly when one position matches and no other does. */
  lemma {:induction false} OneMatch(nl: NodeLock, ps: seq<Package>) returns (i: int, k: int)
    ensures |Matches(nl, ps)| == 1 ==>
      OnlyMatch(nl, ps, i, k) && Matches(nl, ps) == [Candidate(ps[i], ps[i].components[k])]
    ensures |Matches(nl, ps)| != 1 ==> forall i', k' :: !OnlyMatch(nl, ps, i', k')
  {
    i, k := 0, 0;
    if ps != [] {
      var n := |ps| - 1;
      var j := HereMatches(nl, ps);
      NoneMatch(nl, ps[..n]);
      if !ps[n].ready || MatchesIn(nl, ps[n], ps[n].components) == [] {
        i, k := OneMatch(nl, ps[..n]);
        forall i', k' ensures OnlyMatch(nl, ps, i', k') <==> OnlyMatch(nl, ps[..n], i', k') { OnlyBefore(nl, ps, i', k'); }
      } else if Matches(nl, ps[..n]) == [] {
        i := n;
        k := OneIn(nl, ps[n], ps[n].components);
        forall i', k' ensures OnlyMatch(nl, ps, i', k') <==> i' == n && OnlyIn(nl, ps[n], ps[n].components, k') {
          OnlyHere(nl, ps, i', k');
        }
      } else {
        forall i', k' ensures !OnlyMatch(nl, ps, i', k') { OnlyNowhere(nl, ps, i', k', j); }
      }
    }
  }

  /** A package entry this host can run. */
  predicate Runnable(e: PackageEntry) {
    e.RustInproc? || e.SurfaceBundle? || (e.Subprocess? && e.transport == JSON_RPC_STDIO)
  }

  /** Loaded exactly when one ready package holds one matching component and may run it here. */
  lemma LoadedMeans(nl: NodeLock, ps: seq<Package>)
    ensures ExactLoaded(nl, ps).Loaded? <==>
      exists i, k :: OnlyMatch(nl, ps, i, k) && ps[i].components[k].payload.trustClass != ForeignCapsule
                     && ps[i].contract == V1 && Runnable(ps[i].entry)
    ensures ExactLoaded(nl, ps).Loaded? ==>
      var claim := ExactLoaded(nl, ps).component.claim;
      claim.package in ps && claim.component in claim.package.components && MatchesLock(nl, claim.package, claim.component)
  {
    var i, k := OneMatch(nl, ps);
    if |Matches(nl, ps)| == 1 {
      assert forall i', k' :: OnlyMatch(nl, ps, i', k') ==> i' == i && k' == k;
    }
  }
}
