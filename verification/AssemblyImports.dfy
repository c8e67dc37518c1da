/** Import tracing is sound and complete, and every component leaf is accounted for. */
module AssemblyImports {
  import opened Basics
  import opened AssemblyModel
  import opened AssemblyCollect
  import opened AssemblyLaws

  // ---------------------------------------------------------------------------
  // Climbing and tracing are inverse
  // ---------------------------------------------------------------------------

  /** Tracing an exposed import starts at what it exposes ... */
  lemma TraceExposed(env: Env, rank: Ranking, ld: string, prefix: Path, x: Exposure)
    requires Known(env, ld) && ValidEnv(env) && Ranked(env, rank) && x in AssemblyOf(env, ld).exposedPorts
    ensures Trace(env, rank, ld, prefix, x.portId, x.direction) == TraceTarget(env, rank, ld, prefix, x.target, x.direction)
  {
    ExposureIsFound(AssemblyOf(env, ld).exposedPorts, x);
  }

  /** ... and at a nested assembly goes on inside it. */
  lemma TraceNested(env: Env, rank: Ranking, root: string, path: Path, port: string)
    requires Known(env, root) && Ranked(env, rank) && path != [] && LockAt(env, root, path).Some?
    ensures var outer := path[..|path| - 1];
            && LockAt(env, root, outer).Some?
            && TraceTarget(env, rank, LockAt(env, root, outer).value, outer, Endpoint(path[|path| - 1], port), Import)
               == Trace(env, rank, LockAt(env, root, path).value, path, port, Import)
  {
    assert path[..|path| - 1] + [path[|path| - 1]] == path;
  }

  /** A root port found by climbing traces back down to where the climb began. */
  lemma {:induction false} ClimbTraces(env: Env, rank: Ranking, root: string, path: Path, port: string)
    requires Known(env, root) && ValidEnv(env) && Ranked(env, rank) && path != []
    requires Climb(env, root, path, port).FromRoot?
    ensures var outer := path[..|path| - 1];
            && LockAt(env, root, outer).Some?
            && Trace(env, rank, root, [], Climb(env, root, path, port).rootPort, Import)
               == TraceTarget(env, rank, LockAt(env, root, outer).value, outer, Endpoint(path[|path| - 1], port), Import)
    decreases |path|
  {
    var outer, nodeId := path[..|path| - 1], path[|path| - 1];
    var l := LockAt(env, root, outer).value;
    var x := FindTargeting(AssemblyOf(env, l).exposedPorts, Endpoint(nodeId, port)).value;
    TraceExposed(env, rank, l, outer, x);
    if outer != [] {
      ClimbTraces(env, rank, root, outer, x.portId);
      TraceNested(env, rank, root, outer, x.portId);
    }
  }

  /** One level of climbing. */
  lemma ClimbStep(env: Env, root: string, ld: string, prefix: Path, consumer: Endpoint)
    requires Known(env, root) && Known(env, ld) && LockAt(env, root, prefix) == Some(ld)
    ensures var y := FindTargeting(AssemblyOf(env, ld).exposedPorts, consumer);
            Climb(env, root, prefix + [consumer.nodeId], consumer.portId) ==
            if Fixed(env.locks[ld], consumer) then AlreadyBound
            else if y.None? then Unexposed else Outward(env, root, prefix, y.value.portId)
  {
    var path := prefix + [consumer.nodeId];
    assert path[..|path| - 1] == prefix;
    assert consumer == Endpoint(consumer.nodeId, consumer.portId);
  }

  /** On the way down, some exposure is not the first import exposure of what it exposes. */
  ghost predicate Shadowed(env: Env, rank: Ranking, ld: string, port: string)
    requires Known(env, ld) && Ranked(env, rank)
    decreases rank(ld)
  {
    match FindExposure(AssemblyOf(env, ld).exposedPorts, port, Import)
    case None => false
    case Some(x) =>
      || FindTargeting(AssemblyOf(env, ld).exposedPorts, x.target) != Some(x)
      || match FindNode(AssemblyOf(env, ld).nodes, x.target.nodeId)
         case None => false
         case Some(node) =>
           match Open(env, ld, node)
           case Nested(inner) => Shadowed(env, rank, inner, x.target.portId)
           case _ => false
  }

  /** Exposures of different endpoints, or another exposure of the same one, have another port. */
  lemma OtherExposure(xs: seq<Exposure>, x: Exposure, target: Endpoint)
    requires UniqueExposures(xs) && x in xs && x.direction == Import && FindTargeting(xs, target).Some?
    ensures FindTargeting(xs, target).value.portId == x.portId <==> FindTargeting(xs, target) == Some(x)
    ensures FindTargeting(xs, target) == Some(x) ==> target == x.target
  {
    var y := FindTargeting(xs, target).value;
    var i :| 0 <= i < |xs| && xs[i] == x;
    var j :| 0 <= j < |xs| && xs[j] == y;
  }

  /** Climbing from a traced leaf, level by level: `via` is the port it comes out at, if it does. */
  ghost predicate ComesOut(env: Env, rank: Ranking, root: string, ld: string, prefix: Path, port: string, via: string)
    requires Known(env, root) && Known(env, ld) && Ranked(env, rank) && Trace(env, rank, ld, prefix, port, Import).Ok?
    requires Trace(env, rank, ld, prefix, port, Import).value.path != []
  {
    var t := Trace(env, rank, ld, prefix, port, Import).value;
    var c := Climb(env, root, t.path, t.port.portId);
    if Shadowed(env, rank, ld, port)
    then c in {AlreadyBound, Unexposed} || (via != port && c == Outward(env, root, prefix, via))
    else c in {AlreadyBound, Outward(env, root, prefix, port)}
  }

  lemma {:induction false} TraceEnds(env: Env, rank: Ranking, ld: string, prefix: Path, port: string, direction: Direction)
    requires Known(env, ld) && Ranked(env, rank) && Trace(env, rank, ld, prefix, port, direction).Ok?
    ensures Trace(env, rank, ld, prefix, port, direction).value.path != []
    decreases rank(ld)
  {
    var x := FindExposure(AssemblyOf(env, ld).exposedPorts, port, direction).value;
    var node := FindNode(AssemblyOf(env, ld).nodes, x.target.nodeId).value;
    if Open(env, ld, node).Nested? {
      TraceEnds(env, rank, Open(env, ld, node).inner, prefix + [node.nodeId], x.target.portId, direction);
    }
  }

  /** One more level out, from the port `via` of the node the exposure `x` leads to. */
  lemma ComesOutFurther(env: Env, root: string, ld: string, prefix: Path, x: Exposure, via: string) returns (further: string)
    requires Known(env, root) && Known(env, ld) && ValidEnv(env) && LockAt(env, root, prefix) == Some(ld)
    requires x in AssemblyOf(env, ld).exposedPorts && x.direction == Import
    ensures var xs := AssemblyOf(env, ld).exposedPorts;
            var c := Climb(env, root, prefix + [x.target.nodeId], via);
            if via == x.target.portId && FindTargeting(xs, x.target) == Some(x)
            then c in {AlreadyBound, Outward(env, root, prefix, x.portId)}
            else c in {AlreadyBound, Unexposed} || (further != x.portId && c == Outward(env, root, prefix, further))
  {
    var xs, target := AssemblyOf(env, ld).exposedPorts, Endpoint(x.target.nodeId, via);
    ClimbStep(env, root, ld, prefix, target);
    further := x.portId;
    if FindTargeting(xs, target).Some? {
      OtherExposure(xs, x, target);
      further := FindTargeting(xs, target).value.portId;
    }
    assert x.target == Endpoint(x.target.nodeId, x.target.portId);
  }

  /** What a port traces down to climbs back to that port, unless it is bound or shadowed on the way. */
  lemma {:induction false} TraceClimbs(env: Env, rank: Ranking, root: string, ld: string, prefix: Path, port: string)
    returns (via: string)
    requires Known(env, root) && Known(env, ld) && ValidEnv(env) && Ranked(env, rank) && LockAt(env, root, prefix) == Some(ld)
    requires Trace(env, rank, ld, prefix, port, Import).Ok?
    ensures Trace(env, rank, ld, prefix, port, Import).value.path != []
    ensures ComesOut(env, rank, root, ld, prefix, port, via)
    decreases rank(ld)
  {
    var a := AssemblyOf(env, ld);
    var x := FindExposure(a.exposedPorts, port, Import).value;
    var node := FindNode(a.nodes, x.target.nodeId).value;
    var path := prefix + [node.nodeId];
    TraceEnds(env, rank, ld, prefix, port, Import);
    if Open(env, ld, node).Nested? {
      var inner := Open(env, ld, node).inner;
      assert path[..|path| - 1] == prefix && LockAt(env, root, path) == Some(inner);
      var below := TraceClimbs(env, rank, root, inner, path, x.target.portId);
      var at := if Shadowed(env, rank, inner, x.target.portId) then below else x.target.portId;
      via := ComesOutFurther(env, root, ld, prefix, x, at);
    } else {
      via := ComesOutFurther(env, root, ld, prefix, x, x.target.portId);
    }
  }

  // ---------------------------------------------------------------------------
  // Soundness of pins
  // ---------------------------------------------------------------------------

  lemma SitePortsUnique(env: Env, root: string, site: Site)
    requires Known(env, root) && ValidEnv(env) && Sited(env, root, site)
    ensures UniquePorts(site.node.ports)
  {
    var l := LockAt(env, root, site.path[..|site.path| - 1]).value;
    assert ValidAssembly(AssemblyOf(env, l)) && site.node in AssemblyOf(env, l).nodes;
  }

  lemma TraceAtLeaf(env: Env, rank: Ranking, l: string, outer: Path, node: Node, k: nat)
    requires Known(env, l) && Ranked(env, rank) && k < |node.ports| && UniquePorts(node.ports) && node.ports[k].role.ImportRole?
    requires FindNode(AssemblyOf(env, l).nodes, node.nodeId) == Some(node) && Open(env, l, node).Leaf?
    ensures TraceTarget(env, rank, l, outer, Endpoint(node.nodeId, node.ports[k].portId), Import)
            == Ok(Traced(outer + [node.nodeId], node.ports[k], Open(env, l, node).nodeLock))
  {
    PortIsFound(node.ports, k);
  }

  /** A deferred import of a site whose climb reaches the root is what that root port resolves to. */
  lemma SiteTraces(env: Env, rank: Ranking, root: string, site: Site, k: nat)
    requires Known(env, root) && ValidEnv(env) && Ranked(env, rank) && Sited(env, root, site) && k < |site.node.ports|
    requires Deferred(site.node.ports[k]) && Climb(env, root, site.path, site.node.ports[k].portId).FromRoot?
    ensures var p := site.node.ports[k];
            Trace(env, rank, root, [], Climb(env, root, site.path, p.portId).rootPort, Import)
            == Ok(Traced(site.path, p, site.nodeLock))
  {
    ClimbTraces(env, rank, root, site.path, site.node.ports[k].portId);
    TraceAtSite(env, rank, root, site, k);
  }

  lemma TraceAtSite(env: Env, rank: Ranking, root: string, site: Site, k: nat)
    requires Known(env, root) && ValidEnv(env) && Ranked(env, rank) && Sited(env, root, site) && k < |site.node.ports|
    requires site.node.ports[k].role.ImportRole?
    ensures var outer := site.path[..|site.path| - 1];
            TraceTarget(env, rank, LockAt(env, root, outer).value, outer,
                        Endpoint(site.path[|site.path| - 1], site.node.ports[k].portId), Import)
            == Ok(Traced(site.path, site.node.ports[k], site.nodeLock))
  {
    var outer := site.path[..|site.path| - 1];
    SitePortsUnique(env, root, site);
    TraceAtLeaf(env, rank, LockAt(env, root, outer).value, outer, site.node, k);
    assert outer + [site.node.nodeId] == site.path;
  }

  /** What one port of a site contributes. */
  function AtPort(env: Env, root: string, site: Site, p: Port): Found
    requires Known(env, root) && site.path != []
  {
    PortFound(env, site.node, site.path, p, Climb(env, root, site.path, p.portId))
  }

  ghost predicate Within(a: Found, b: Found) {
    && (forall x :: x in a.selected ==> x in b.selected)
    && (forall x :: x in a.pins ==> x in b.pins)
    && (forall x :: x in a.gaps ==> x in b.gaps)
    && |a.gaps| <= |b.gaps|
  }

  lemma {:induction false} PortWithin(env: Env, root: string, site: Site, ps: seq<Port>, k: nat)
    requires Known(env, root) && site.path != [] && k < |ps|
    ensures Within(AtPort(env, root, site, ps[k]), ClimbPorts(env, root, site, ps))
  {
    if k < |ps| - 1 { PortWithin(env, root, site, ps[..|ps| - 1], k); }
  }

  lemma {:induction false} SiteWithin(env: Env, root: string, sites: seq<Site>, i: nat)
    requires Known(env, root) && Placeable(sites) && i < |sites|
    ensures Within(SiteFound(env, root, sites[i]), SitesFound(env, root, sites))
  {
    if i < |sites| - 1 { SiteWithin(env, root, sites[..|sites| - 1], i); }
  }

  lemma {:induction false} PinFromPort(env: Env, root: string, site: Site, ps: seq<Port>, pin: Pin) returns (k: nat)
    requires Known(env, root) && site.path != [] && pin in ClimbPorts(env, root, site, ps).pins
    ensures k < |ps| && pin in AtPort(env, root, site, ps[k]).pins
  {
    if pin in ClimbPorts(env, root, site, ps[..|ps| - 1]).pins {
      k := PinFromPort(env, root, site, ps[..|ps| - 1], pin);
    } else {
      k := |ps| - 1;
    }
  }

  lemma {:induction false} GapFromPort(env: Env, root: string, site: Site, ps: seq<Port>, gap: Gap) returns (k: nat)
    requires Known(env, root) && site.path != [] && gap in ClimbPorts(env, root, site, ps).gaps
    ensures k < |ps| && gap in AtPort(env, root, site, ps[k]).gaps
  {
    if gap in ClimbPorts(env, root, site, ps[..|ps| - 1]).gaps {
      k := GapFromPort(env, root, site, ps[..|ps| - 1], gap);
    } else {
      k := |ps| - 1;
    }
  }

  lemma {:induction false} PinFromSite(env: Env, root: string, sites: seq<Site>, pin: Pin) returns (i: nat)
    requires Known(env, root) && Placeable(sites) && pin in SitesFound(env, root, sites).pins
    ensures i < |sites| && pin in SiteFound(env, root, sites[i]).pins
  {
    if pin in SitesFound(env, root, sites[..|sites| - 1]).pins {
      i := PinFromSite(env, root, sites[..|sites| - 1], pin);
    } else {
      i := |sites| - 1;
    }
  }

  lemma {:induction false} GapFromSite(env: Env, root: string, sites: seq<Site>, gap: Gap) returns (i: nat)
    requires Known(env, root) && Placeable(sites) && gap in SitesFound(env, root, sites).gaps
    ensures i < |sites| && gap in SiteFound(env, root, sites[i]).gaps
  {
    if gap in SitesFound(env, root, sites[..|sites| - 1]).gaps {
      i := GapFromSite(env, root, sites[..|sites| - 1], gap);
    } else {
      i := |sites| - 1;
    }
  }

  lemma OnlyPortsPin(env: Env, root: string, site: Site)
    requires Known(env, root) && site.path != []
    ensures SiteFound(env, root, site).pins == ClimbPorts(env, root, site, site.node.ports).pins
  {
  }

  /** The pin is what its root port resolves to, all but the loading of the component. */
  ghost predicate SoundPin(env: Env, rank: Ranking, root: string, pin: Pin)
    requires Known(env, root) && Ranked(env, rank)
  {
    var t := Trace(env, rank, root, [], pin.rootPort, Import);
    && t.Ok? && pin.path != [] && pin.path == t.value.path
    && pin == PinOf(env, pin.rootPort, pin.path, pin.path[|pin.path| - 1], t.value.port)
    && Deferred(t.value.port)
  }

  lemma SitePinsAreSound(env: Env, rank: Ranking, root: string, site: Site, pin: Pin)
    requires Known(env, root) && ValidEnv(env) && Ranked(env, rank) && Sited(env, root, site)
    requires pin in SiteFound(env, root, site).pins
    ensures SoundPin(env, rank, root, pin) && pin.path == site.path
  {
    OnlyPortsPin(env, root, site);
    var k := PinFromPort(env, root, site, site.node.ports, pin);
    SiteTraces(env, rank, root, site, k);
  }

  /** Every pin the walk puts out is sound. */
  lemma PinsAreSound(env: Env, rank: Ranking, root: string, pin: Pin)
    requires Known(env, root) && ValidEnv(env) && Ranked(env, rank)
    requires CollectRoot(env, rank, root).Ok? && pin in CollectRoot(env, rank, root).value.pins
    ensures SoundPin(env, rank, root, pin)
  {
    RootWalkIsSum(env, rank, root);
    var sites := Sites(env, rank, root, []).value;
    SitesAreSited(env, rank, root, root, []);
    var i := PinFromSite(env, root, sites, pin);
    SitePinsAreSound(env, rank, root, sites[i], pin);
  }

  /** A pin whose component is loaded is exactly what its root port resolves to. */
  lemma PinsResolve(env: Env, rank: Ranking, root: string, pin: Pin)
    requires Known(env, root) && ValidEnv(env) && Ranked(env, rank)
    requires CollectRoot(env, rank, root).Ok? && pin in CollectRoot(env, rank, root).value.pins
    ensures Trace(env, rank, root, [], pin.rootPort, Import).Ok?
    ensures var nl := Trace(env, rank, root, [], pin.rootPort, Import).value.nodeLock;
            var r := Resolve(env, rank, root, pin.rootPort, Import);
            && (r.Ok? <==> ExactLoaded(nl, env.packages).Loaded?)
            && (r.Ok? ==> r.value.path == pin.path && pin.path != []
                          && pin.leaf == Endpoint(pin.path[|pin.path| - 1], r.value.port.portId)
                          && pin.contractDigest == (env.contractDigest)(r.value.port.contract))
  {
    PinsAreSound(env, rank, root, pin);
  }

  // ---------------------------------------------------------------------------
  // No two pins share a root port
  // ---------------------------------------------------------------------------

  ghost predicate SameLeaf(a: Pin, b: Pin) {
    a.path == b.path && a.leaf.portId == b.leaf.portId
  }

  ghost predicate DistinctLeaves(pins: seq<Pin>) {
    forall i, j :: 0 <= i < j < |pins| ==> !SameLeaf(pins[i], pins[j])
  }

  lemma DistinctLeavesAppend(a: seq<Pin>, b: seq<Pin>)
    requires DistinctLeaves(a) && DistinctLeaves(b)
    requires forall x, y :: x in a && y in b ==> !SameLeaf(x, y)
    ensures DistinctLeaves(a + b)
  {
    var c := a + b;
    forall i, j | 0 <= i < j < |c| ensures !SameLeaf(c[i], c[j]) {
      if i < |a| <= j {
        assert c[i] in a && c[j] in b;
      }
    }
  }

  lemma {:induction false} PortLeavesDistinct(env: Env, root: string, site: Site, ps: seq<Port>)
    requires Known(env, root) && site.path != [] && UniquePorts(ps)
    ensures DistinctLeaves(ClimbPorts(env, root, site, ps).pins)
  {
    if ps != [] {
      var init, last := ps[..|ps| - 1], ps[|ps| - 1];
      PortLeavesDistinct(env, root, site, init);
      var a, b := ClimbPorts(env, root, site, init).pins, AtPort(env, root, site, last).pins;
      forall x, y | x in a && y in b ensures !SameLeaf(x, y) {
        var k := PinFromPort(env, root, site, init, x);
      }
      DistinctLeavesAppend(a, b);
    }
  }

  lemma SitePinsHere(env: Env, root: string, site: Site, pin: Pin)
    requires Known(env, root) && site.path != [] && pin in SiteFound(env, root, site).pins
    ensures pin.path == site.path
  {
    OnlyPortsPin(env, root, site);
    var k := PinFromPort(env, root, site, site.node.ports, pin);
  }

  ghost predicate PortsUnique(sites: seq<Site>) {
    forall i :: 0 <= i < |sites| ==> UniquePorts(sites[i].node.ports)
  }

  lemma {:induction false} SiteLeavesDistinct(env: Env, root: string, sites: seq<Site>)
    requires Known(env, root) && Placeable(sites) && DistinctPaths(sites) && PortsUnique(sites)
    ensures DistinctLeaves(SitesFound(env, root, sites).pins)
  {
    if sites != [] {
      var init, last := sites[..|sites| - 1], sites[|sites| - 1];
      SiteLeavesDistinct(env, root, init);
      PortLeavesDistinct(env, root, last, last.node.ports);
      OnlyPortsPin(env, root, last);
      var a, b := SitesFound(env, root, init).pins, SiteFound(env, root, last).pins;
      forall x, y | x in a && y in b ensures !SameLeaf(x, y) {
        var k := PinFromSite(env, root, init, x);
        SitePinsHere(env, root, init[k], x);
        SitePinsHere(env, root, last, y);
      }
      DistinctLeavesAppend(a, b);
    }
  }

  /** Root ports of required imports are pairwise distinct, and so are their leaves. */
  lemma RootPortsDistinct(env: Env, rank: Ranking, root: string)
    requires Known(env, root) && ValidEnv(env) && Ranked(env, rank) && CollectRoot(env, rank, root).Ok?
    ensures var pins := CollectRoot(env, rank, root).value.pins;
            && DistinctLeaves(pins)
            && forall i, j :: 0 <= i < j < |pins| ==> pins[i].rootPort != pins[j].rootPort
  {
    RootWalkIsSum(env, rank, root);
    var sites, pins := Sites(env, rank, root, []).value, CollectRoot(env, rank, root).value.pins;
    SitesDistinct(env, rank, root, []);
    SitesAreSited(env, rank, root, root, []);
    SitedPortsUnique(env, root, sites);
    SiteLeavesDistinct(env, root, sites);
    forall i, j | 0 <= i < j < |pins| ensures pins[i].rootPort != pins[j].rootPort {
      PinsAreSound(env, rank, root, pins[i]);
      PinsAreSound(env, rank, root, pins[j]);
    }
  }

  lemma SitedPortsUnique(env: Env, root: string, sites: seq<Site>)
    requires Known(env, root) && ValidEnv(env) && AllSited(env, root, sites)
    ensures Placeable(sites) && PortsUnique(sites)
  {
    forall i | 0 <= i < |sites| ensures UniquePorts(sites[i].node.ports) && sites[i].path != [] {
      SitePortsUnique(env, root, sites[i]);
    }
  }

  // ---------------------------------------------------------------------------
  // Completeness: every deferred import falls in exactly one class
  // ---------------------------------------------------------------------------

  ghost predicate PinnedAt(pins: seq<Pin>, path: Path, port: string) {
    exists i :: 0 <= i < |pins| && pins[i].path == path && pins[i].leaf.portId == port
  }

  lemma PinNamesPort(env: Env, root: string, site: Site, p: Port, pin: Pin)
    requires Known(env, root) && site.path != [] && pin in AtPort(env, root, site, p).pins
    ensures pin.leaf.portId == p.portId
  {
  }

  lemma PinOfPort(env: Env, root: string, site: Site, k: nat, pin: Pin)
    requires Known(env, root) && site.path != [] && UniquePorts(site.node.ports) && k < |site.node.ports|
    requires pin in SiteFound(env, root, site).pins && pin.leaf.portId == site.node.ports[k].portId
    ensures pin in AtPort(env, root, site, site.node.ports[k]).pins
  {
    OnlyPortsPin(env, root, site);
    var m := PinFromPort(env, root, site, site.node.ports, pin);
    PinNamesPort(env, root, site, site.node.ports[m], pin);
    assert m == k;
  }

  lemma PinOfSite(env: Env, root: string, sites: seq<Site>, i: nat, pin: Pin)
    requires Known(env, root) && Placeable(sites) && DistinctPaths(sites) && i < |sites|
    requires pin in SitesFound(env, root, sites).pins && pin.path == sites[i].path
    ensures pin in SiteFound(env, root, sites[i]).pins
  {
    var j := PinFromSite(env, root, sites, pin);
    SitePinsHere(env, root, sites[j], pin);
    assert j == i;
  }

  lemma PinnedOnlyByItself(env: Env, root: string, sites: seq<Site>, i: nat, k: nat)
    requires Known(env, root) && Placeable(sites) && DistinctPaths(sites) && PortsUnique(sites)
    requires i < |sites| && k < |sites[i].node.ports|
    requires PinnedAt(SitesFound(env, root, sites).pins, sites[i].path, sites[i].node.ports[k].portId)
    ensures AtPort(env, root, sites[i], sites[i].node.ports[k]).pins != []
  {
    var pins, p := SitesFound(env, root, sites).pins, sites[i].node.ports[k];
    var n :| 0 <= n < |pins| && pins[n].path == sites[i].path && pins[n].leaf.portId == p.portId;
    PinOfSite(env, root, sites, i, pins[n]);
    PinOfPort(env, root, sites[i], k, pins[n]);
  }

  /** The gap a port of a site is reported by, if it is. */
  function ReportOf(site: Site, p: Port, supply: Supply): Option<Gap> {
    if !Deferred(p) then None
    else match supply
      case AlreadyBound => None
      case Unexposed => Some(PortGap(NotExposed, site.node, p))
      case FromRoot(_) => if Bindable(p) then None else Some(PortGap(NoAdapter, site.node, p))
  }

  /** What became of a deferred import: bound on the way out, pinned, or reported, and one only. */
  ghost predicate Accounted(env: Env, found: Found, site: Site, p: Port, supply: Supply) {
    var pinned, report := PinnedAt(found.pins, site.path, p.portId), ReportOf(site, p, supply);
    && (report.Some? ==> report.value in found.gaps)
    && match supply
       case AlreadyBound => !pinned && report.None?
       case Unexposed => !pinned && report.Some?
       case FromRoot(r) =>
         if Bindable(p) then pinned && report.None? && PinOf(env, r, site.path, site.node.nodeId, p) in found.pins
         else !pinned && report.Some?
  }

  lemma PortAccounted(env: Env, root: string, sites: seq<Site>, i: nat, k: nat)
    requires Known(env, root) && Placeable(sites) && DistinctPaths(sites) && PortsUnique(sites)
    requires i < |sites| && k < |sites[i].node.ports| && Deferred(sites[i].node.ports[k])
    ensures var p := sites[i].node.ports[k];
            Accounted(env, SitesFound(env, root, sites), sites[i], p, Climb(env, root, sites[i].path, p.portId))
  {
    var site, p, found := sites[i], sites[i].node.ports[k], SitesFound(env, root, sites);
    PortWithin(env, root, site, site.node.ports, k);
    SiteWithin(env, root, sites, i);
    var here := AtPort(env, root, site, p);
    assert forall x :: x in here.gaps ==> x in SiteFound(env, root, site).gaps;
    assert forall x :: x in here.pins ==> x in found.pins;
    if PinnedAt(found.pins, site.path, p.portId) {
      PinnedOnlyByItself(env, root, sites, i, k);
    }
    if here.pins != [] {
      assert here.pins[0] in found.pins;
    }
    if here.gaps != [] {
      assert here.gaps[0] in found.gaps;
    }
  }

  /** Each deferred import of the expansion: bound, pinned exactly once, or a gap. */
  lemma ImportsAccounted(env: Env, rank: Ranking, root: string, i: nat, k: nat)
    requires Known(env, root) && ValidEnv(env) && Ranked(env, rank) && CollectRoot(env, rank, root).Ok?
    requires Sites(env, rank, root, []).Ok? && i < |Sites(env, rank, root, []).value|
    requires var site := Sites(env, rank, root, []).value[i]; k < |site.node.ports| && Deferred(site.node.ports[k])
    ensures var found, site := CollectRoot(env, rank, root).value, Sites(env, rank, root, []).value[i];
            && site.path != [] && DistinctLeaves(found.pins)
            && Accounted(env, found, site, site.node.ports[k], Climb(env, root, site.path, site.node.ports[k].portId))
  {
    RootWalkIsSum(env, rank, root);
    var sites := Sites(env, rank, root, []).value;
    SitesDistinct(env, rank, root, []);
    SitesAreSited(env, rank, root, root, []);
    SitedPortsUnique(env, root, sites);
    PortAccounted(env, root, sites, i, k);
    RootPortsDistinct(env, rank, root);
  }

  /** Why a gap is reported: a deferred import of a site, or a site whose component is not loaded. */
  ghost predicate Explains(env: Env, root: string, site: Site, gap: Gap)
    requires Known(env, root) && site.path != []
  {
    || (exists p :: p in site.node.ports && Deferred(p) && gap in AtPort(env, root, site, p).gaps)
    || (var loading := ExactLoaded(site.nodeLock, env.packages);
        loading.Missing? && gap == Gap(loading.reason, Some(site.node.nodeId), None))
  }

  lemma SiteGapExplained(env: Env, root: string, site: Site, gap: Gap)
    requires Known(env, root) && site.path != []
    ensures gap in SiteFound(env, root, site).gaps <==> Explains(env, root, site, gap)
  {
    var ps := site.node.ports;
    if gap in ClimbPorts(env, root, site, ps).gaps {
      var k := GapFromPort(env, root, site, ps, gap);
      assert ps[k] in ps && Deferred(ps[k]);
    }
    if p :| p in ps && Deferred(p) && gap in AtPort(env, root, site, p).gaps {
      var k :| 0 <= k < |ps| && ps[k] == p;
      PortWithin(env, root, site, ps, k);
    }
  }

  /** Exactly the gaps that some site explains are reported. */
  lemma GapsAccounted(env: Env, rank: Ranking, root: string, gap: Gap)
    requires Known(env, root) && ValidEnv(env) && Ranked(env, rank) && CollectRoot(env, rank, root).Ok?
    ensures Sites(env, rank, root, []).Ok? && Placeable(Sites(env, rank, root, []).value)
    ensures var sites := Sites(env, rank, root, []).value;
            gap in CollectRoot(env, rank, root).value.gaps <==>
            exists i :: 0 <= i < |sites| && Explains(env, root, sites[i], gap)
  {
    RootWalkIsSum(env, rank, root);
    var sites := Sites(env, rank, root, []).value;
    if gap in CollectRoot(env, rank, root).value.gaps {
      var i := GapFromSite(env, root, sites, gap);
      SiteGapExplained(env, root, sites[i], gap);
    }
    if i :| 0 <= i < |sites| && Explains(env, root, sites[i], gap) {
      SiteGapExplained(env, root, sites[i], gap);
      SiteWithin(env, root, sites, i);
    }
  }

  ghost predicate NothingExplained(env: Env, root: string, sites: seq<Site>)
    requires Known(env, root) && Placeable(sites)
  {
    forall i, gap :: 0 <= i < |sites| ==> !Explains(env, root, sites[i], gap)
  }

  /** The walk reports nothing exactly when no site gives it a reason to. */
  lemma GaplessWalk(env: Env, rank: Ranking, root: string)
    requires Known(env, root) && ValidEnv(env) && Ranked(env, rank) && CollectRoot(env, rank, root).Ok?
    ensures Sites(env, rank, root, []).Ok? && Placeable(Sites(env, rank, root, []).value)
    ensures CollectRoot(env, rank, root).value.gaps == [] <==> NothingExplained(env, root, Sites(env, rank, root, []).value)
  {
    RootWalkIsSum(env, rank, root);
    var gaps, sites := CollectRoot(env, rank, root).value.gaps, Sites(env, rank, root, []).value;
    if gaps != [] {
      GapsAccounted(env, rank, root, gaps[0]);
    } else {
      forall i, gap | 0 <= i < |sites| ensures !Explains(env, root, sites[i], gap) {
        GapsAccounted(env, rank, root, gap);
      }
    }
  }

  // ---------------------------------------------------------------------------
  // Every component leaf is selected once or reported
  // ---------------------------------------------------------------------------

  /** The sites whose component is loaded exactly once and can run, in walking order. */
  function LoadedSites(env: Env, sites: seq<Site>): seq<Placed> {
    if sites == [] then []
    else
      var last := sites[|sites| - 1];
      LoadedSites(env, sites[..|sites| - 1])
      + (match ExactLoaded(last.nodeLock, env.packages)
         case Loaded(c) => [Placed(last.path, c)]
         case Missing(_) => [])
  }

  lemma {:induction false} PortsSelectNothing(env: Env, root: string, site: Site, ps: seq<Port>)
    requires Known(env, root) && site.path != []
    ensures ClimbPorts(env, root, site, ps).selected == []
  {
    if ps != [] { PortsSelectNothing(env, root, site, ps[..|ps| - 1]); }
  }

  lemma {:induction false} SelectedAre(env: Env, root: string, sites: seq<Site>)
    requires Known(env, root) && Placeable(sites)
    ensures SitesFound(env, root, sites).selected == LoadedSites(env, sites)
  {
    if sites != [] {
      var last := sites[|sites| - 1];
      SelectedAre(env, root, sites[..|sites| - 1]);
      PortsSelectNothing(env, root, last, last.node.ports);
    }
  }

  /** The components selected are those of the sites where one is loaded, each once, in order. */
  lemma SitesSelected(env: Env, rank: Ranking, root: string)
    requires Known(env, root) && ValidEnv(env) && Ranked(env, rank) && CollectRoot(env, rank, root).Ok?
    ensures Sites(env, rank, root, []).Ok?
    ensures CollectRoot(env, rank, root).value.selected == LoadedSites(env, Sites(env, rank, root, []).value)
    ensures DistinctPaths(Sites(env, rank, root, []).value)
  {
    RootWalkIsSum(env, rank, root);
    SelectedAre(env, root, Sites(env, rank, root, []).value);
    SitesDistinct(env, rank, root, []);
  }

  ghost predicate AllLoaded(env: Env, sites: seq<Site>, selected: seq<Placed>) {
    && |selected| == |sites|
    && forall i :: 0 <= i < |sites| ==>
         selected[i].path == sites[i].path && ExactLoaded(sites[i].nodeLock, env.packages) == Loaded(selected[i].component)
  }

  lemma AllLoadedNext(env: Env, sites: seq<Site>, selected: seq<Placed>, site: Site, c: SelectedComponent)
    requires AllLoaded(env, sites, selected) && ExactLoaded(site.nodeLock, env.packages) == Loaded(c)
    ensures AllLoaded(env, sites + [site], selected + [Placed(site.path, c)])
  {
  }

  lemma GaplessSite(env: Env, root: string, site: Site)
    requires Known(env, root) && site.path != [] && SiteFound(env, root, site).gaps == []
    ensures ExactLoaded(site.nodeLock, env.packages).Loaded?
  {
    assert LoadingFound(site.node, site.path, ExactLoaded(site.nodeLock, env.packages)).gaps == [];
  }

  ghost predicate EachLoaded(env: Env, sites: seq<Site>) {
    forall i :: 0 <= i < |sites| ==> ExactLoaded(sites[i].nodeLock, env.packages).Loaded?
  }

  lemma GaplessLoads(env: Env, root: string, sites: seq<Site>)
    requires Known(env, root) && Placeable(sites) && SitesFound(env, root, sites).gaps == []
    ensures EachLoaded(env, sites)
  {
    forall i | 0 <= i < |sites| ensures ExactLoaded(sites[i].nodeLock, env.packages).Loaded? {
      SiteWithin(env, root, sites, i);
      GaplessSite(env, root, sites[i]);
    }
  }

  lemma {:induction false} LoadedSitesAll(env: Env, sites: seq<Site>)
    requires EachLoaded(env, sites)
    ensures AllLoaded(env, sites, LoadedSites(env, sites))
  {
    if sites != [] {
      var init, last := sites[..|sites| - 1], sites[|sites| - 1];
      LoadedSitesAll(env, init);
      var c := ExactLoaded(last.nodeLock, env.packages).component;
      AllLoadedNext(env, init, LoadedSites(env, init), last, c);
      assert init + [last] == sites;
    }
  }

  /** Without gaps, every component leaf of the expansion is selected, in order. */
  lemma NoGapsSelectsAll(env: Env, rank: Ranking, root: string)
    requires Known(env, root) && ValidEnv(env) && Ranked(env, rank) && CollectRoot(env, rank, root).Ok?
    requires CollectRoot(env, rank, root).value.gaps == []
    ensures Sites(env, rank, root, []).Ok?
    ensures AllLoaded(env, Sites(env, rank, root, []).value, CollectRoot(env, rank, root).value.selected)
  {
    RootWalkIsSum(env, rank, root);
    GaplessLoads(env, root, Sites(env, rank, root, []).value);
    LoadedSitesAll(env, Sites(env, rank, root, []).value);
    SitesSelected(env, rank, root);
  }
}
