/** Counting gaps, and the way back from root ports to pins. */
module AssemblyAccounts {
  import opened Basics
  import opened AssemblyModel
  import opened AssemblyCollect
  import opened AssemblyLaws
  import opened AssemblyImports

  // ---------------------------------------------------------------------------
  // How often a gap is reported
  // ---------------------------------------------------------------------------

  /** The port is reported by this gap. */
  ghost predicate Reported(env: Env, root: string, site: Site, p: Port, gap: Gap)
    requires Known(env, root) && site.path != []
  {
    ReportOf(site, p, Climb(env, root, site.path, p.portId)) == Some(gap)
  }

  /** The site's component is not loaded, and this is the gap that says so. */
  ghost predicate Unloaded(env: Env, site: Site, gap: Gap) {
    match ExactLoaded(site.nodeLock, env.packages)
    case Loaded(_) => false
    case Missing(reason) => gap == Gap(reason, Some(site.node.nodeId), None)
  }

  /** The ports of a site that a gap reports. */
  ghost function PortsReported(env: Env, root: string, site: Site, ps: seq<Port>, gap: Gap): set<int>
    requires Known(env, root) && site.path != []
  {
    set k | 0 <= k < |ps| && Reported(env, root, site, ps[k], gap)
  }

  /** The ports a gap reports, as pairs of a site and a port of it. */
  ghost function ReportedPairs(env: Env, root: string, sites: seq<Site>, gap: Gap): set<(int, int)>
    requires Known(env, root) && Placeable(sites)
  {
    set i, k | 0 <= i < |sites| && k in PortsReported(env, root, sites[i], sites[i].node.ports, gap) :: (i, k)
  }

  ghost function UnloadedSites(env: Env, sites: seq<Site>, gap: Gap): set<int> {
    set i | 0 <= i < |sites| && Unloaded(env, sites[i], gap)
  }

  function Count(gaps: seq<Gap>, gap: Gap): nat {
    multiset(gaps)[gap]
  }

  lemma CountAppend(a: seq<Gap>, b: seq<Gap>, gap: Gap)
    ensures Count(a + b, gap) == Count(a, gap) + Count(b, gap)
  {
    assert multiset(a + b) == multiset(a) + multiset(b);
  }

  lemma PortCounted(env: Env, root: string, site: Site, p: Port, gap: Gap)
    requires Known(env, root) && site.path != []
    ensures Count(AtPort(env, root, site, p).gaps, gap) == if Reported(env, root, site, p, gap) then 1 else 0
  {
  }

  lemma PortsNext(env: Env, root: string, site: Site, ps: seq<Port>, gap: Gap)
    requires Known(env, root) && site.path != [] && ps != []
    ensures |PortsReported(env, root, site, ps, gap)| == |PortsReported(env, root, site, ps[..|ps| - 1], gap)|
              + if Reported(env, root, site, ps[|ps| - 1], gap) then 1 else 0
  {
    var n := |ps| - 1;
    assert PortsReported(env, root, site, ps, gap) ==
           PortsReported(env, root, site, ps[..n], gap) + if Reported(env, root, site, ps[n], gap) then {n} else {};
  }

  lemma {:induction false} PortsCounted(env: Env, root: string, site: Site, ps: seq<Port>, gap: Gap)
    requires Known(env, root) && site.path != []
    ensures Count(ClimbPorts(env, root, site, ps).gaps, gap) == |PortsReported(env, root, site, ps, gap)|
  {
    if ps == [] {
      assert PortsReported(env, root, site, ps, gap) == {};
    } else {
      var init, last := ps[..|ps| - 1], ps[|ps| - 1];
      PortsCounted(env, root, site, init, gap);
      PortCounted(env, root, site, last, gap);
      CountAppend(ClimbPorts(env, root, site, init).gaps, AtPort(env, root, site, last).gaps, gap);
      PortsNext(env, root, site, ps, gap);
    }
  }

  lemma LoadingCounted(env: Env, site: Site, gap: Gap)
    ensures Count(LoadingFound(site.node, site.path, ExactLoaded(site.nodeLock, env.packages)).gaps, gap)
            == if Unloaded(env, site, gap) then 1 else 0
  {
  }

  ghost function Tagged(n: int, ks: set<int>): set<(int, int)> {
    set k | k in ks :: (n, k)
  }

  lemma {:induction false} TaggedCount(n: int, ks: set<int>)
    ensures |Tagged(n, ks)| == |ks|
  {
    if forall k :: k !in ks {
      assert ks == {};
    } else {
      var k :| k in ks;
      TaggedCount(n, ks - {k});
      assert Tagged(n, ks) == Tagged(n, ks - {k}) + {(n, k)};
    }
  }

  lemma PairsNext(env: Env, root: string, sites: seq<Site>, gap: Gap)
    requires Known(env, root) && Placeable(sites) && sites != []
    ensures var n := |sites| - 1;
            |ReportedPairs(env, root, sites, gap)| ==
            |ReportedPairs(env, root, sites[..n], gap)| + |PortsReported(env, root, sites[n], sites[n].node.ports, gap)|
  {
    var n := |sites| - 1;
    var before, here := ReportedPairs(env, root, sites[..n], gap),
                        Tagged(n, PortsReported(env, root, sites[n], sites[n].node.ports, gap));
    TaggedCount(n, PortsReported(env, root, sites[n], sites[n].node.ports, gap));
    assert ReportedPairs(env, root, sites, gap) == before + here && before !! here;
  }

  lemma UnloadedNext(env: Env, sites: seq<Site>, gap: Gap)
    requires sites != []
    ensures var n := |sites| - 1;
            |UnloadedSites(env, sites, gap)| ==
            |UnloadedSites(env, sites[..n], gap)| + if Unloaded(env, sites[n], gap) then 1 else 0
  {
    var n, init := |sites| - 1, sites[..|sites| - 1];
    assert forall i :: 0 <= i < n ==> init[i] == sites[i];
    assert UnloadedSites(env, sites, gap) ==
           UnloadedSites(env, init, gap) + if Unloaded(env, sites[n], gap) then {n} else {};
  }

  lemma SiteCounted(env: Env, root: string, site: Site, gap: Gap)
    requires Known(env, root) && site.path != []
    ensures Count(SiteFound(env, root, site).gaps, gap) ==
            |PortsReported(env, root, site, site.node.ports, gap)| + if Unloaded(env, site, gap) then 1 else 0
  {
    PortsCounted(env, root, site, site.node.ports, gap);
    LoadingCounted(env, site, gap);
    CountAppend(ClimbPorts(env, root, site, site.node.ports).gaps,
                LoadingFound(site.node, site.path, ExactLoaded(site.nodeLock, env.packages)).gaps, gap);
  }

  lemma {:induction false} SitesCounted(env: Env, root: string, sites: seq<Site>, gap: Gap)
    requires Known(env, root) && Placeable(sites)
    ensures Count(SitesFound(env, root, sites).gaps, gap) ==
            |ReportedPairs(env, root, sites, gap)| + |UnloadedSites(env, sites, gap)|
  {
    if sites == [] {
      assert ReportedPairs(env, root, sites, gap) == {} && UnloadedSites(env, sites, gap) == {};
    } else {
      var n := |sites| - 1;
      SitesCounted(env, root, sites[..n], gap);
      SiteCounted(env, root, sites[n], gap);
      CountAppend(SitesFound(env, root, sites[..n]).gaps, SiteFound(env, root, sites[n]).gaps, gap);
      PairsNext(env, root, sites, gap);
      UnloadedNext(env, sites, gap);
    }
  }

  /** A gap is in the list once for each port it reports and once for each site whose loading it reports. */
  lemma GapsCounted(env: Env, rank: Ranking, root: string, gap: Gap)
    requires Known(env, root) && ValidEnv(env) && Ranked(env, rank) && CollectRoot(env, rank, root).Ok?
    ensures Sites(env, rank, root, []).Ok? && Placeable(Sites(env, rank, root, []).value)
    ensures var sites := Sites(env, rank, root, []).value;
            Count(CollectRoot(env, rank, root).value.gaps, gap) ==
            |ReportedPairs(env, root, sites, gap)| + |UnloadedSites(env, sites, gap)|
  {
    RootWalkIsSum(env, rank, root);
    SitesCounted(env, root, Sites(env, rank, root, []).value, gap);
  }

  // ---------------------------------------------------------------------------
  // Every component leaf: one selected entry or one component gap
  // ---------------------------------------------------------------------------

  /** The number of gaps about a component, which name no port. */
  function ComponentGaps(gaps: seq<Gap>): nat {
    if gaps == [] then 0
    else ComponentGaps(gaps[..|gaps| - 1]) + if gaps[|gaps| - 1].portId.None? then 1 else 0
  }

  lemma {:induction false} ComponentGapsAppend(a: seq<Gap>, b: seq<Gap>)
    ensures ComponentGaps(a + b) == ComponentGaps(a) + ComponentGaps(b)
  {
    if b == [] {
      assert a + b == a;
    } else {
      ComponentGapsAppend(a, b[..|b| - 1]);
      assert (a + b)[..|a + b| - 1] == a + b[..|b| - 1];
    }
  }

  lemma {:induction false} PortsNameThemselves(env: Env, root: string, site: Site, ps: seq<Port>)
    requires Known(env, root) && site.path != []
    ensures ComponentGaps(ClimbPorts(env, root, site, ps).gaps) == 0
  {
    if ps != [] {
      var init, last := ps[..|ps| - 1], ps[|ps| - 1];
      PortsNameThemselves(env, root, site, init);
      ComponentGapsAppend(ClimbPorts(env, root, site, init).gaps, AtPort(env, root, site, last).gaps);
    }
  }

  lemma OneOrTheOther(env: Env, root: string, site: Site)
    requires Known(env, root) && site.path != []
    ensures var found := SiteFound(env, root, site); |found.selected| + ComponentGaps(found.gaps) == 1
  {
    var ports, loading := ClimbPorts(env, root, site, site.node.ports),
                          LoadingFound(site.node, site.path, ExactLoaded(site.nodeLock, env.packages));
    PortsSelectNothing(env, root, site, site.node.ports);
    PortsNameThemselves(env, root, site, site.node.ports);
    ComponentGapsAppend(ports.gaps, loading.gaps);
    assert |loading.selected| + ComponentGaps(loading.gaps) == 1;
  }

  lemma {:induction false} EachSiteOnce(env: Env, root: string, sites: seq<Site>)
    requires Known(env, root) && Placeable(sites)
    ensures var found := SitesFound(env, root, sites); |found.selected| + ComponentGaps(found.gaps) == |sites|
  {
    if sites != [] {
      var init, last := sites[..|sites| - 1], sites[|sites| - 1];
      EachSiteOnce(env, root, init);
      OneOrTheOther(env, root, last);
      ComponentGapsAppend(SitesFound(env, root, init).gaps, SiteFound(env, root, last).gaps);
    }
  }

  /** Selected entries and component gaps together are as many as there are component leaves. */
  lemma LeavesCounted(env: Env, rank: Ranking, root: string)
    requires Known(env, root) && ValidEnv(env) && Ranked(env, rank) && CollectRoot(env, rank, root).Ok?
    ensures Sites(env, rank, root, []).Ok?
    ensures var found := CollectRoot(env, rank, root).value;
            |found.selected| + ComponentGaps(found.gaps) == |Sites(env, rank, root, []).value|
  {
    RootWalkIsSum(env, rank, root);
    EachSiteOnce(env, root, Sites(env, rank, root, []).value);
  }

  // ---------------------------------------------------------------------------
  // From a root port to its pin
  // ---------------------------------------------------------------------------

  lemma {:induction false} SitesAmongHold(env: Env, rank: Ranking, ld: string, prefix: Path, ns: seq<Node>, j: nat)
    requires Known(env, ld) && Ranked(env, rank) && SitesAmong(env, rank, ld, prefix, ns).Ok? && j < |ns|
    ensures SitesOf(env, rank, ld, prefix, ns[j]).Ok?
    ensures forall site :: site in SitesOf(env, rank, ld, prefix, ns[j]).value ==>
              site in SitesAmong(env, rank, ld, prefix, ns).value
  {
    if j < |ns| - 1 { SitesAmongHold(env, rank, ld, prefix, ns[..|ns| - 1], j); }
  }

  /** The leaf a port traces to is one of the sites. */
  lemma {:induction false} TracedIsSite(env: Env, rank: Ranking, ld: string, prefix: Path, port: string) returns (site: Site)
    requires Known(env, ld) && Ranked(env, rank) && Sites(env, rank, ld, prefix).Ok?
    requires Trace(env, rank, ld, prefix, port, Import).Ok?
    ensures site in Sites(env, rank, ld, prefix).value
    ensures var t := Trace(env, rank, ld, prefix, port, Import).value;
            site.path == t.path && site.nodeLock == t.nodeLock && t.port in site.node.ports
    decreases rank(ld)
  {
    var a := AssemblyOf(env, ld);
    var x := FindExposure(a.exposedPorts, port, Import).value;
    var node := FindNode(a.nodes, x.target.nodeId).value;
    var j :| 0 <= j < |a.nodes| && a.nodes[j] == node;
    SitesAmongHold(env, rank, ld, prefix, a.nodes, j);
    match Open(env, ld, node) {
      case Nested(inner) => site := TracedIsSite(env, rank, inner, prefix + [node.nodeId], x.target.portId);
      case Leaf(nl) => site := Site(prefix + [node.nodeId], node, nl);
      case Broken(_) => assert false;
    }
  }

  /** The pin at the leaf the port traces to, if there is one, is the pin of the port it climbs to. */
  lemma PinAtLeaf(env: Env, rank: Ranking, root: string, t: Traced)
    requires Known(env, root) && ValidEnv(env) && Ranked(env, rank) && CollectRoot(env, rank, root).Ok?
    requires t.path != [] && Deferred(t.port) && Bindable(t.port)
    requires Sites(env, rank, root, []).Ok?
    requires exists site :: site in Sites(env, rank, root, []).value && site.path == t.path && t.port in site.node.ports
    ensures var c, pins := Climb(env, root, t.path, t.port.portId), CollectRoot(env, rank, root).value.pins;
            && (PinnedAt(pins, t.path, t.port.portId) <==> c.FromRoot?)
            && (c.FromRoot? ==> PinOf(env, c.rootPort, t.path, t.path[|t.path| - 1], t.port) in pins)
  {
    var sites := Sites(env, rank, root, []).value;
    var site :| site in sites && site.path == t.path && t.port in site.node.ports;
    var i :| 0 <= i < |sites| && sites[i] == site;
    var k :| 0 <= k < |site.node.ports| && site.node.ports[k] == t.port;
    ImportsAccounted(env, rank, root, i, k);
    SitesAreSited(env, rank, root, root, []);
    assert Sited(env, root, sites[i]);
  }

  /**
   A root import that traces to a deferred leaf that can be bound has a pin exactly when no binding
   and no earlier exposure of the same target stands between; it then has one pin, and it is that leaf's.
   */
  lemma RootImportPinned(env: Env, rank: Ranking, root: string, port: string)
    requires Known(env, root) && ValidEnv(env) && Ranked(env, rank) && CollectRoot(env, rank, root).Ok?
    requires Trace(env, rank, root, [], port, Import).Ok?
    requires var p := Trace(env, rank, root, [], port, Import).value.port; Deferred(p) && Bindable(p)
    ensures Trace(env, rank, root, [], port, Import).value.path != []
    ensures var t, pins := Trace(env, rank, root, [], port, Import).value, CollectRoot(env, rank, root).value.pins;
            && ((exists pin :: pin in pins && pin.rootPort == port) <==>
                Climb(env, root, t.path, t.port.portId) != AlreadyBound && !Shadowed(env, rank, root, port))
            && (forall pin :: pin in pins && pin.rootPort == port ==>
                  pin == PinOf(env, port, t.path, t.path[|t.path| - 1], t.port))
            && (forall i, j :: 0 <= i < j < |pins| ==> pins[i].rootPort != pins[j].rootPort)
  {
    var via := TraceClimbs(env, rank, root, root, [], port);
    var t := Trace(env, rank, root, [], port, Import).value;
    RootPortsDistinct(env, rank, root);
    TracedPin(env, rank, root, port);
    RootPinClimbs(env, rank, root, port, t, Climb(env, root, t.path, t.port.portId));
  }

  lemma TracedPin(env: Env, rank: Ranking, root: string, port: string)
    requires Known(env, root) && ValidEnv(env) && Ranked(env, rank) && CollectRoot(env, rank, root).Ok?
    requires Trace(env, rank, root, [], port, Import).Ok? && Trace(env, rank, root, [], port, Import).value.path != []
    requires var p := Trace(env, rank, root, [], port, Import).value.port; Deferred(p) && Bindable(p)
    ensures var t, pins := Trace(env, rank, root, [], port, Import).value, CollectRoot(env, rank, root).value.pins;
            var c := Climb(env, root, t.path, t.port.portId);
            && (PinnedAt(pins, t.path, t.port.portId) <==> c.FromRoot?)
            && (c.FromRoot? ==> PinOf(env, c.rootPort, t.path, t.path[|t.path| - 1], t.port) in pins)
            && (forall pin :: pin in pins && pin.rootPort == port ==>
                  pin == PinOf(env, port, t.path, t.path[|t.path| - 1], t.port))
  {
    var t, pins := Trace(env, rank, root, [], port, Import).value, CollectRoot(env, rank, root).value.pins;
    RootWalkIsSum(env, rank, root);
    var site := TracedIsSite(env, rank, root, [], port);
    PinAtLeaf(env, rank, root, t);
    forall pin | pin in pins && pin.rootPort == port ensures pin == PinOf(env, port, t.path, t.path[|t.path| - 1], t.port) {
      PinsAreSound(env, rank, root, pin);
    }
  }

  lemma RootPinClimbs(env: Env, rank: Ranking, root: string, port: string, t: Traced, c: Supply)
    requires Known(env, root) && Ranked(env, rank) && CollectRoot(env, rank, root).Ok? && t.path != []
    requires var pins := CollectRoot(env, rank, root).value.pins;
      && (PinnedAt(pins, t.path, t.port.portId) <==> c.FromRoot?)
      && (c.FromRoot? ==> PinOf(env, c.rootPort, t.path, t.path[|t.path| - 1], t.port) in pins)
      && DistinctLeaves(pins)
      && (forall pin :: pin in pins && pin.rootPort == port ==> pin == PinOf(env, port, t.path, t.path[|t.path| - 1], t.port))
    ensures (exists pin :: pin in CollectRoot(env, rank, root).value.pins && pin.rootPort == port) <==> c == FromRoot(port)
  {
    var pins := CollectRoot(env, rank, root).value.pins;
    if pin :| pin in pins && pin.rootPort == port {
      var i :| 0 <= i < |pins| && pins[i] == pin;
      assert PinnedAt(pins, t.path, t.port.portId);
      var other := PinOf(env, c.rootPort, t.path, t.path[|t.path| - 1], t.port);
      var j :| 0 <= j < |pins| && pins[j] == other;
      assert SameLeaf(pins[i], pins[j]) && SameLeaf(pins[j], pins[i]);
      assert i == j;
    }
    if c == FromRoot(port) {
      assert PinOf(env, port, t.path, t.path[|t.path| - 1], t.port).rootPort == port;
    }
  }
}
