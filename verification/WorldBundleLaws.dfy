/** What a bundle that passes the one-pass checks is, seen as a whole. */
module WorldBundleLaws {
  import opened Sorting
  import opened Artifact
  import opened WorldBundle

  // ---------------------------------------------------------------------------
  // The lineage is an acyclic, complete history
  // ---------------------------------------------------------------------------

  ghost predicate ParentEdge(lineage: seq<LineageEntry>, i: nat, p: nat, child: string, parent: string) {
    && i < |lineage| && p < |lineage[i].parentHeads|
    && lineage[i].head.digest == child && lineage[i].parentHeads[p].digest == parent
  }

  /** Some lineage entry for `child` names `parent` as a parent. */
  ghost predicate IsParent(lineage: seq<LineageEntry>, child: string, parent: string) {
    exists i, p :: ParentEdge(lineage, i, p, child, parent)
  }

  /** A walk from a head to one of its ancestors, one parent link at a time. */
  ghost predicate Ancestry(lineage: seq<LineageEntry>, ds: seq<string>) {
    ds != [] && forall k :: 0 <= k < |ds| - 1 ==> IsParent(lineage, ds[k], ds[k + 1])
  }

  ghost predicate HeadAt(lineage: seq<LineageEntry>, d: string, i: nat) {
    i < |lineage| && lineage[i].head.digest == d
  }

  lemma HeadUnique(lineage: seq<LineageEntry>, d: string, i: nat, j: nat)
    requires ValidLineage(lineage) && HeadAt(lineage, d, i) && HeadAt(lineage, d, j)
    ensures i == j
  {
    assert EntryInPlace(lineage, i) && EntryInPlace(lineage, j);
    assert i < j ==> Precedes(lineage, d, j);
    assert j < i ==> Precedes(lineage, d, i);
  }

  /** A parent stands strictly earlier than its child. */
  lemma ParentIsEarlier(lineage: seq<LineageEntry>, child: string, parent: string, i: nat) returns (j: nat)
    requires ValidLineage(lineage) && IsParent(lineage, child, parent) && HeadAt(lineage, child, i)
    ensures j < i && HeadAt(lineage, parent, j)
  {
    var n, p :| ParentEdge(lineage, n, p, child, parent);
    HeadUnique(lineage, child, i, n);
    assert EntryInPlace(lineage, n);
    j :| 0 <= j < n && lineage[j].head.digest == parent;
  }

  lemma {:induction false} AncestorsEarlier(lineage: seq<LineageEntry>, ds: seq<string>, i: nat) returns (j: nat)
    requires ValidLineage(lineage) && Ancestry(lineage, ds) && HeadAt(lineage, ds[0], i)
    ensures HeadAt(lineage, ds[|ds| - 1], j) && (if |ds| == 1 then j == i else j < i)
  {
    if |ds| == 1 {
      j := i;
    } else {
      var k := ParentIsEarlier(lineage, ds[0], ds[1], i);
      forall m | 0 <= m < |ds[1..]| - 1 ensures IsParent(lineage, ds[1..][m], ds[1..][m + 1]) {
        assert IsParent(lineage, ds[m + 1], ds[m + 2]);
      }
      j := AncestorsEarlier(lineage, ds[1..], k);
    }
  }

  /** No head is its own ancestor. */
  lemma LineageAcyclic(m: Manifest, ds: seq<string>)
    requires ValidManifest(m) && Ancestry(m.lineage, ds) && |ds| > 1
    ensures ds[0] != ds[|ds| - 1]
  {
    assert IsParent(m.lineage, ds[0], ds[1]);
    var i, p :| ParentEdge(m.lineage, i, p, ds[0], ds[1]);
    var j := AncestorsEarlier(m.lineage, ds, i);
    if ds[0] == ds[|ds| - 1] { HeadUnique(m.lineage, ds[0], i, j); }
  }

  /** Every transitive parent of the world head is itself an entry of the lineage. */
  lemma AncestorsPresent(m: Manifest, ds: seq<string>) returns (j: nat)
    requires ValidManifest(m) && Ancestry(m.lineage, ds) && ds[0] == m.worldHead.digest
    ensures HeadAt(m.lineage, ds[|ds| - 1], j)
  {
    j := AncestorsEarlier(m.lineage, ds, |m.lineage| - 1);
  }

  // ---------------------------------------------------------------------------
  // The inline objects are the inventory
  // ---------------------------------------------------------------------------

  lemma DistinctDigests(ds: seq<ArtifactDescriptor>)
    requires Distinct(Digests(ds))
    ensures Distinct(ds)
  {
    forall i, j | 0 <= i < j < |ds| ensures ds[i] != ds[j] {
      assert Digests(ds)[i] != Digests(ds)[j];
    }
  }

  lemma MatchCovers(ds: seq<ArtifactDescriptor>, inventory: seq<ArtifactDescriptor>, k: nat)
    requires ObjectsMatch(ds, inventory) && Distinct(Digests(inventory)) && k < |inventory|
    ensures inventory[k] in ds
  {
    assert inventory[k].digest in Digests(ds);
    var i :| 0 <= i < |ds| && Digests(ds)[i] == inventory[k].digest;
    var n :| 0 <= n < |inventory| && inventory[n] == ds[i];
    assert Digests(inventory)[n] == Digests(inventory)[k];
  }

  /** A permutation: the same descriptors, each as often. */
  lemma ObjectsArePermutation(a: Archive, bytesOf: Manifest -> Bytes, sha256: Bytes -> string)
    requires ValidShape(a, bytesOf, sha256)
    ensures multiset(Descriptors(a.objects)) == multiset(a.manifest.objectDescriptors)
  {
    var ds, inventory := Descriptors(a.objects), a.manifest.objectDescriptors;
    MatchIsPermutation(ds, inventory);
  }

  lemma MatchIsPermutation(ds: seq<ArtifactDescriptor>, inventory: seq<ArtifactDescriptor>)
    requires ObjectsMatch(ds, inventory) && Distinct(Digests(inventory))
    ensures multiset(ds) == multiset(inventory)
  {
    DistinctDigests(ds);
    DistinctDigests(inventory);
    DistinctCount(ds);
    DistinctCount(inventory);
    forall x ensures multiset(ds)[x] == multiset(inventory)[x] {
      if x in inventory {
        var k :| 0 <= k < |inventory| && inventory[k] == x;
        MatchCovers(ds, inventory, k);
      } else {
        assert x !in ds;
      }
    }
  }

  /** `n` is the only inline object with digest `d`. */
  ghost predicate OnlyObject(a: Archive, d: string, n: nat) {
    && n < |a.objects| && a.objects[n].descriptor.digest == d
    && forall k :: 0 <= k < |a.objects| && a.objects[k].descriptor.digest == d ==> k == n
  }

  /** Every artifact the bundle hangs on is inlined exactly once. */
  lemma RootsInlinedOnce(a: Archive, bytesOf: Manifest -> Bytes, sha256: Bytes -> string, r: nat) returns (n: nat)
    requires ValidShape(a, bytesOf, sha256) && r < |RequiredRoots(a.manifest)|
    ensures OnlyObject(a, RequiredRoots(a.manifest)[r].digest, n)
  {
    n := InlinedOnce(a, RequiredRoots(a.manifest)[r].digest);
  }

  lemma InlinedOnce(a: Archive, d: string) returns (n: nat)
    requires ObjectsMatch(Descriptors(a.objects), a.manifest.objectDescriptors)
    requires d in Digests(a.manifest.objectDescriptors)
    ensures OnlyObject(a, d, n)
  {
    var ds, inventory := Descriptors(a.objects), a.manifest.objectDescriptors;
    var k :| 0 <= k < |inventory| && Digests(inventory)[k] == d;
    assert inventory[k].digest in Digests(ds);
    n :| 0 <= n < |ds| && Digests(ds)[n] == d;
    forall m | 0 <= m < |a.objects| && a.objects[m].descriptor.digest == d ensures m == n {
      assert Digests(ds)[m] == Digests(ds)[n];
    }
  }

  // ---------------------------------------------------------------------------
  // The journal is counted without overflow
  // ---------------------------------------------------------------------------

  function TotalLength(ranges: seq<JournalRange>): int {
    if ranges == [] then 0
    else TotalLength(ranges[..|ranges| - 1]) + ranges[|ranges| - 1].lastSequence - ranges[|ranges| - 1].firstSequence + 1
  }

  lemma {:induction false} EnvelopesCounted(ranges: seq<JournalRange>, n: nat)
    requires ValidRanges(ranges) && n <= |ranges|
    ensures |Envelopes(ranges)| == TotalLength(ranges)
    ensures 0 <= TotalLength(ranges[..n]) <= TotalLength(ranges)
    decreases |ranges|
  {
    if ranges == [] {
      assert ranges[..n] == [];
    } else {
      var init, last := ranges[..|ranges| - 1], ranges[|ranges| - 1];
      assert ValidRange(last);
      if n == |ranges| {
        assert ranges[..n] == ranges;
        EnvelopesCounted(init, 0);
      } else {
        assert ranges[..n] == init[..n];
        EnvelopesCounted(init, n);
      }
    }
  }

  /**
   The original envelopes number the sum of the range lengths, and adding the lengths up never
   exceeds that number, so a counter that can hold the list's length does not overflow.
   */
  lemma EnvelopesAreTheRanges(m: Manifest, n: nat)
    requires ValidManifest(m) && n <= |m.journalRanges|
    ensures |m.originalEnvelopes| == TotalLength(m.journalRanges)
    ensures 0 <= TotalLength(m.journalRanges[..n]) <= |m.originalEnvelopes|
    ensures forall i :: 0 <= i < |m.journalRanges| ==> RangeLength(m.journalRanges[i]).Some?
  {
    EnvelopesCounted(m.journalRanges, n);
    assert |Digests(Envelopes(m.journalRanges))| == |Digests(m.originalEnvelopes)|;
  }
}
