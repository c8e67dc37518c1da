/** Neither the order nor the repetition of declared entries reaches a component's digests. */
module ComponentOrder {
  import opened Sorting
  import opened Json
  import opened Artifact
  import opened Component

  // ---------------------------------------------------------------------------
  // The orders
  // ---------------------------------------------------------------------------

  lemma StringsTotal()
    ensures StrictTotal(StringOrder()) && StrictTotal(Lex(StringOrder())) && StrictTotal(Lex(Lex(StringOrder())))
  {
    assert StrictTotal(CharOrder());
    LexStrictTotal(CharOrder());
    LexStrictTotal(StringOrder());
    LexStrictTotal(Lex(StringOrder()));
  }

  lemma ProtocolsTotal(s: set<ProtocolImplementation>)
    ensures TotalOn(s, ProtocolOrder())
  {
    StringsTotal();
    KeyedTotal(s, ProtocolKey, Lex(Lex(StringOrder())), ProtocolOrder());
  }

  lemma RootsTotal(s: set<ArtifactDescriptor>)
    requires forall x, y :: x in s && y in s && x.digest == y.digest ==> x == y
    ensures TotalOn(s, RootOrder())
  {
    StringsTotal();
    forall x, y | x in s && y in s && RootKey(x) == RootKey(y) ensures x == y {
      assert RootKey(x)[0] == RootKey(y)[0];
    }
    KeyedTotal(s, RootKey, Lex(StringOrder()), RootOrder());
  }

  lemma ClaimsTotal(s: set<Capability>)
    requires forall x, y :: x in s && y in s && x.id == y.id && x.version == y.version ==> x == y
    ensures TotalOn(s, ClaimOrder())
  {
    StringsTotal();
    forall x, y | x in s && y in s && ClaimKey(x) == ClaimKey(y) ensures x == y {
      assert ClaimKey(x)[0] == ClaimKey(y)[0] && ClaimKey(x)[1] == ClaimKey(y)[1];
    }
    KeyedTotal(s, ClaimKey, Lex(StringOrder()), ClaimOrder());
  }

  lemma NormalStringsUnique(xs: seq<string>, ys: seq<string>)
    requires Elements(xs) == Elements(ys)
    ensures NormalStrings(xs) == NormalStrings(ys)
  {
    StringsTotal();
    SortDedupUnique(xs, ys, StringOrder());
  }

  lemma NormalStringsStrict(xs: seq<string>)
    ensures Elements(NormalStrings(xs)) == Elements(xs) && Distinct(NormalStrings(xs))
  {
    StringsTotal();
    SortDedupStrict(xs, StringOrder());
    var r := NormalStrings(xs);
    forall i, j | 0 <= i < j < |r| ensures r[i] != r[j] {
      assert StringOrder()(r[i], r[j]);
    }
  }

  // ---------------------------------------------------------------------------
  // Declarations that say the same
  // ---------------------------------------------------------------------------

  /** Same implementation, its lists read as sets. */
  ghost predicate SameProtocol(p: ProtocolImplementation, q: ProtocolImplementation) {
    && p.protocolId == q.protocolId && p.version == q.version
    && Elements(p.profiles) == Elements(q.profiles) && Elements(p.vectors) == Elements(q.vectors)
  }

  /** Same capability, its side effects read as a set. */
  ghost predicate SameCapability(c: Capability, e: Capability) {
    c.(sideEffects := []) == e.(sideEffects := []) && Elements(c.sideEffects) == Elements(e.sideEffects)
  }

  ghost predicate ProtocolsCovered(ps: seq<ProtocolImplementation>, qs: seq<ProtocolImplementation>) {
    forall p :: p in ps ==> exists q :: q in qs && SameProtocol(p, q)
  }

  ghost predicate CapabilitiesCovered(cs: seq<Capability>, es: seq<Capability>) {
    forall c :: c in cs ==> exists e :: e in es && SameCapability(c, e)
  }

  ghost predicate UniqueCapabilities(cs: seq<Capability>) {
    forall i, j :: 0 <= i < j < |cs| ==> cs[i].id != cs[j].id || cs[i].version != cs[j].version
  }

  /** Listed once or often, one id is one surface. */
  ghost predicate OneSurfaceEach(ss: seq<Surface>) {
    forall s, t :: s in ss && t in ss && s.id == t.id ==> s == t
  }

  /** Listed once or often, one digest is one descriptor. */
  ghost predicate OneRootEach(ds: seq<ArtifactDescriptor>) {
    forall d, e :: d in ds && e in ds && d.digest == e.digest ==> d == e
  }

  /** Identities of capabilities, surfaces and content roots say which is meant. */
  ghost predicate Unambiguous(m: Manifest, d: Declaration) {
    UniqueCapabilities(m.provided) && OneSurfaceEach(m.surfaces) && OneRootEach(d.contentRoots)
  }

  /** The two differ at most in the order and repetition of entries, and in the package's id. */
  ghost predicate SaysTheSame(m: Manifest, d: Declaration, m': Manifest, d': Declaration) {
    && d.id == d'.id && d.version == d'.version && d.annotations == d'.annotations
    && m.entry == m'.entry && m.contract == m'.contract
    && Elements(DeclaredCapabilities(m, d)) == Elements(DeclaredCapabilities(m', d'))
    && Elements(DeclaredSurfaces(m, d)) == Elements(DeclaredSurfaces(m', d'))
    && ProtocolsCovered(d.protocols, d'.protocols) && ProtocolsCovered(d'.protocols, d.protocols)
    && Elements(d.contentRoots) == Elements(d'.contentRoots)
    && CapabilitiesCovered(m.provided, m'.provided) && CapabilitiesCovered(m'.provided, m.provided)
    && Elements(m.surfaces) == Elements(m'.surfaces)
  }

  // ---------------------------------------------------------------------------
  // Field by field
  // ---------------------------------------------------------------------------

  lemma ProtocolsInside(ps: seq<ProtocolImplementation>, qs: seq<ProtocolImplementation>)
    requires ProtocolsCovered(ps, qs)
    ensures Elements(Map(ps, NormalProtocol)) <= Elements(Map(qs, NormalProtocol))
  {
    forall x | x in Map(ps, NormalProtocol) ensures x in Map(qs, NormalProtocol) {
      var i :| 0 <= i < |ps| && NormalProtocol(ps[i]) == x;
      assert ps[i] in ps;
      var q :| q in qs && SameProtocol(ps[i], q);
      NormalStringsUnique(ps[i].profiles, q.profiles);
      NormalStringsUnique(ps[i].vectors, q.vectors);
      var j :| 0 <= j < |qs| && qs[j] == q;
      assert Map(qs, NormalProtocol)[j] == x;
    }
  }

  lemma NormalProtocolsUnique(ps: seq<ProtocolImplementation>, qs: seq<ProtocolImplementation>)
    requires ProtocolsCovered(ps, qs) && ProtocolsCovered(qs, ps)
    ensures NormalProtocols(ps) == NormalProtocols(qs)
  {
    ProtocolsInside(ps, qs);
    ProtocolsInside(qs, ps);
    ProtocolsTotal(Elements(Map(ps, NormalProtocol)));
    SortDedupUnique(Map(ps, NormalProtocol), Map(qs, NormalProtocol), ProtocolOrder());
  }

  lemma NormalRootsAre(ds: seq<ArtifactDescriptor>)
    requires OneRootEach(ds)
    ensures NormalRoots(ds) == SortDedup(ds, RootOrder())
  {
    var sorted := Sort(ds, RootOrder());
    SortContents(ds, RootOrder());
    forall x, y | x in sorted && y in sorted ensures SameDigest()(x, y) <==> x == y {
      assert x in Elements(ds) && y in Elements(ds);
    }
    DedupAgrees(sorted, SameDigest());
  }

  lemma NormalRootsUnique(ds: seq<ArtifactDescriptor>, es: seq<ArtifactDescriptor>)
    requires OneRootEach(ds) && Elements(ds) == Elements(es)
    ensures NormalRoots(ds) == NormalRoots(es)
  {
    forall d, e | d in es && e in es && d.digest == e.digest ensures d == e {
      assert d in Elements(ds) && e in Elements(ds);
    }
    NormalRootsAre(ds);
    NormalRootsAre(es);
    RootsTotal(Elements(ds));
    SortDedupUnique(ds, es, RootOrder());
  }

  ghost predicate Claimed(cs: seq<Capability>, ids: set<string>, x: Capability) {
    exists c :: c in cs && c.id in ids && x == NormalClaim(c)
  }

  lemma {:induction false} ClaimsAre(cs: seq<Capability>, ids: set<string>, x: Capability)
    ensures x in ClaimsIn(cs, ids) <==> Claimed(cs, ids, x)
  {
    if cs != [] {
      var init, last := cs[..|cs| - 1], cs[|cs| - 1];
      ClaimsAre(init, ids, x);
      assert cs == init + [last];
    }
  }

  lemma {:induction false} ClaimsDistinct(cs: seq<Capability>, ids: set<string>)
    requires UniqueCapabilities(cs)
    ensures Distinct(ClaimsIn(cs, ids))
  {
    if cs != [] {
      var init, last := cs[..|cs| - 1], cs[|cs| - 1];
      ClaimsDistinct(init, ids);
      ClaimsAre(init, ids, NormalClaim(last));
    }
  }

  lemma ClaimCovered(cs: seq<Capability>, es: seq<Capability>, ids: set<string>, x: Capability)
    requires CapabilitiesCovered(cs, es) && Claimed(cs, ids, x)
    ensures Claimed(es, ids, x)
  {
    var c :| c in cs && c.id in ids && x == NormalClaim(c);
    var e :| e in es && SameCapability(c, e);
    NormalStringsUnique(c.sideEffects, e.sideEffects);
    assert c.(sideEffects := []).id == e.(sideEffects := []).id;
    assert NormalClaim(e) == x;
  }

  lemma ClaimsInside(cs: seq<Capability>, es: seq<Capability>, ids: set<string>)
    requires CapabilitiesCovered(cs, es)
    ensures Elements(ClaimsIn(cs, ids)) <= Elements(ClaimsIn(es, ids))
  {
    forall x | x in ClaimsIn(cs, ids) ensures x in ClaimsIn(es, ids) {
      ClaimsAre(cs, ids, x);
      ClaimCovered(cs, es, ids, x);
      ClaimsAre(es, ids, x);
    }
  }

  lemma ClaimsKeyed(cs: seq<Capability>, ids: set<string>)
    requires UniqueCapabilities(cs)
    ensures TotalOn(Elements(ClaimsIn(cs, ids)), ClaimOrder())
  {
    var s := Elements(ClaimsIn(cs, ids));
    forall x, y | x in s && y in s && x.id == y.id && x.version == y.version ensures x == y {
      ClaimsAre(cs, ids, x);
      ClaimsAre(cs, ids, y);
    }
    ClaimsTotal(s);
  }

  lemma NormalClaimsUnique(cs: seq<Capability>, es: seq<Capability>, ids: seq<string>)
    requires UniqueCapabilities(cs) && UniqueCapabilities(es)
    requires CapabilitiesCovered(cs, es) && CapabilitiesCovered(es, cs)
    ensures NormalClaims(cs, ids) == NormalClaims(es, ids)
  {
    var s := Elements(ids);
    ClaimsInside(cs, es, s);
    ClaimsInside(es, cs, s);
    ClaimsDistinct(cs, s);
    ClaimsDistinct(es, s);
    ClaimsKeyed(cs, s);
    SortUnique(ClaimsIn(cs, s), ClaimsIn(es, s), ClaimOrder());
  }

  lemma FindSurfaceUnique(ss: seq<Surface>, ts: seq<Surface>, id: string)
    requires OneSurfaceEach(ss) && Elements(ss) == Elements(ts)
    ensures FindSurface(ss, id) == FindSurface(ts, id)
  {
    var a, b := FindSurface(ss, id), FindSurface(ts, id);
    if a.Some? { assert a.value in Elements(ts); }
    if b.Some? { assert b.value in Elements(ss); }
  }

  lemma {:induction false} FindSurfacesUnique(ss: seq<Surface>, ts: seq<Surface>, ids: seq<string>)
    requires OneSurfaceEach(ss) && Elements(ss) == Elements(ts)
    ensures FindSurfaces(ss, ids) == FindSurfaces(ts, ids)
  {
    if ids != [] {
      FindSurfacesUnique(ss, ts, ids[..|ids| - 1]);
      FindSurfaceUnique(ss, ts, ids[|ids| - 1]);
    }
  }

  /** Declarations that say the same build the same component, digests and all. */
  lemma OrderDoesNotMatter(codec: Codec, m: Manifest, d: Declaration, m': Manifest, d': Declaration, explicit: bool)
    requires Unambiguous(m, d) && Unambiguous(m', d') && SaysTheSame(m, d, m', d')
    ensures Build(codec, m, d, explicit) == Build(codec, m', d', explicit)
  {
    NormalStringsUnique(DeclaredCapabilities(m, d), DeclaredCapabilities(m', d'));
    NormalStringsUnique(DeclaredSurfaces(m, d), DeclaredSurfaces(m', d'));
    NormalProtocolsUnique(d.protocols, d'.protocols);
    NormalRootsUnique(d.contentRoots, d'.contentRoots);
    NormalClaimsUnique(m.provided, m'.provided, CapabilityIds(m, d));
    FindSurfacesUnique(m.surfaces, m'.surfaces, SurfaceIds(m, d));
    assert Normalize(m, d) == Normalize(m', d');
  }
}
