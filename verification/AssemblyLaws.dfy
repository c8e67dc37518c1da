/**
 The walk, seen from the leaves.

 `Climb` starts at a leaf port and follows exposures outwards, level by level, without any map of
 available imports. It is the reference the walk is measured against, and the inverse of `Trace`.
 */
module AssemblyLaws {
  import opened Basics
  import opened AssemblyModel
  import opened AssemblyCollect

  // ---------------------------------------------------------------------------
  // Positions in the nested expansion
  // ---------------------------------------------------------------------------

  /** The lock in force inside the nested assembly at `path`. */
  function LockAt(env: Env, root: string, path: Path): (r: Option<string>)
    requires Known(env, root)
    ensures r.Some? ==> Known(env, r.value)
  {
    if path == [] then Some(root)
    else match LockAt(env, root, path[..|path| - 1])
      case None => None
      case Some(l) =>
        match FindNode(AssemblyOf(env, l).nodes, path[|path| - 1])
        case None => None
        case Some(node) =>
          match Open(env, l, node)
          case Nested(inner) => Some(inner)
          case _ => None
  }

  /** Where the import `port` of the node at `path` gets its provider from, seen from that node. */
  function Climb(env: Env, root: string, path: Path, port: string): Supply
    requires Known(env, root) && path != []
    decreases |path|
  {
    var outer, nodeId := path[..|path| - 1], path[|path| - 1];
    match LockAt(env, root, outer)
    case None => Unexposed
    case Some(l) =>
      if Fixed(env.locks[l], Endpoint(nodeId, port)) then AlreadyBound
      else match FindTargeting(AssemblyOf(env, l).exposedPorts, Endpoint(nodeId, port))
        case None => Unexposed
        case Some(x) => if outer == [] then FromRoot(x.portId) else Climb(env, root, outer, x.portId)
  }

  /** A component node of the nested expansion. */
  datatype Site = Site(path: Path, node: Node, nodeLock: NodeLock)

  /** Every component node below a lock, in walking order. */
  function Sites(env: Env, ghost rank: Ranking, ld: string, prefix: Path): Outcome<seq<Site>>
    requires Known(env, ld) && Ranked(env, rank)
    decreases rank(ld), 2, 0
  {
    if |LockedIds(env.locks[ld].nodes)| != |AssemblyOf(env, ld).nodes| then Err("lock node set is inconsistent")
    else SitesAmong(env, rank, ld, prefix, AssemblyOf(env, ld).nodes)
  }

  function SitesAmong(env: Env, ghost rank: Ranking, ld: string, prefix: Path, ns: seq<Node>): Outcome<seq<Site>>
    requires Known(env, ld) && Ranked(env, rank)
    decreases rank(ld), 1, |ns|
  {
    if ns == [] then Ok([])
    else match SitesAmong(env, rank, ld, prefix, ns[..|ns| - 1])
      case Err(why) => Err(why)
      case Ok(sites) =>
        match SitesOf(env, rank, ld, prefix, ns[|ns| - 1])
        case Err(why) => Err(why)
        case Ok(more) => Ok(sites + more)
  }

  function SitesOf(env: Env, ghost rank: Ranking, ld: string, prefix: Path, node: Node): Outcome<seq<Site>>
    requires Known(env, ld) && Ranked(env, rank)
    decreases rank(ld), 0, 0
  {
    match Open(env, ld, node)
    case Broken(why) => Err(why)
    case Nested(inner) => Sites(env, rank, inner, prefix + [node.nodeId])
    case Leaf(nl) => Ok([Site(prefix + [node.nodeId], node, nl)])
  }

  // ---------------------------------------------------------------------------
  // What each site contributes, by climbing
  // ---------------------------------------------------------------------------

  function ClimbPorts(env: Env, root: string, site: Site, ps: seq<Port>): Found
    requires Known(env, root) && site.path != []
  {
    if ps == [] then NOTHING
    else
      var p := ps[|ps| - 1];
      Join(ClimbPorts(env, root, site, ps[..|ps| - 1]),
           PortFound(env, site.node, site.path, p, Climb(env, root, site.path, p.portId)))
  }

  function SiteFound(env: Env, root: string, site: Site): Found
    requires Known(env, root) && site.path != []
  {
    Join(ClimbPorts(env, root, site, site.node.ports),
         LoadingFound(site.node, site.path, ExactLoaded(site.nodeLock, env.packages)))
  }

  ghost predicate Placeable(sites: seq<Site>) {
    forall i :: 0 <= i < |sites| ==> sites[i].path != []
  }

  function SitesFound(env: Env, root: string, sites: seq<Site>): Found
    requires Known(env, root) && Placeable(sites)
  {
    if sites == [] then NOTHING
    else Join(SitesFound(env, root, sites[..|sites| - 1]), SiteFound(env, root, sites[|sites| - 1]))
  }

  lemma {:induction false} SitesFoundAppend(env: Env, root: string, a: seq<Site>, b: seq<Site>)
    requires Known(env, root) && Placeable(a) && Placeable(b)
    ensures Placeable(a + b) && SitesFound(env, root, a + b) == Join(SitesFound(env, root, a), SitesFound(env, root, b))
  {
    if b == [] {
      assert a + b == a;
    } else {
      var c, last := b[..|b| - 1], b[|b| - 1];
      SitesFoundAppend(env, root, a, c);
      assert (a + b)[..|a + b| - 1] == a + c && (a + b)[|a + b| - 1] == last;
      assert SitesFound(env, root, a + b) == Join(SitesFound(env, root, a + c), SiteFound(env, root, last));
      JoinJoin(SitesFound(env, root, a), SitesFound(env, root, c), SiteFound(env, root, last));
    }
  }

  // ---------------------------------------------------------------------------
  // The map handed down agrees with climbing
  // ---------------------------------------------------------------------------

  function Outward(env: Env, root: string, prefix: Path, port: string): Supply
    requires Known(env, root)
  {
    if prefix == [] then FromRoot(port) else Climb(env, root, prefix, port)
  }

  /** At the level of `ld`, each exposed import is supplied as climbing from there says. */
  ghost predicate Agrees(env: Env, root: string, ld: string, prefix: Path, imports: Imports)
    requires Known(env, root) && Known(env, ld)
  {
    && LockAt(env, root, prefix) == Some(ld)
    && forall x :: x in AssemblyOf(env, ld).exposedPorts && x.direction == Import ==>
         Lookup(imports, x.portId) == Outward(env, root, prefix, x.portId)
  }

  lemma SupplyIsClimb(env: Env, root: string, ld: string, prefix: Path, imports: Imports, consumer: Endpoint)
    requires Known(env, root) && Known(env, ld) && Agrees(env, root, ld, prefix, imports)
    ensures SupplyOf(env, ld, imports, consumer) == Climb(env, root, prefix + [consumer.nodeId], consumer.portId)
  {
    var path := prefix + [consumer.nodeId];
    assert path[..|path| - 1] == prefix;
  }

  /** The map built for a nested assembly: for its exposed imports, the supply of the node's port. */
  lemma {:induction false} NestedLookup(env: Env, ld: string, imports: Imports, nodeId: string, xs: seq<Exposure>, port: string)
    requires Known(env, ld)
    ensures var r := Lookup(NestedImports(env, ld, imports, nodeId, xs), port);
      if exists x :: x in xs && x.direction == Import && x.portId == port
      then r == SupplyOf(env, ld, imports, Endpoint(nodeId, port)) else r == Unexposed
  {
    if xs != [] {
      var init, last := xs[..|xs| - 1], xs[|xs| - 1];
      NestedLookup(env, ld, imports, nodeId, init, port);
      assert xs == init + [last];
    }
  }

  lemma NestedAgrees(env: Env, root: string, ld: string, prefix: Path, imports: Imports, i: nat)
    requires Known(env, root) && Known(env, ld) && ValidEnv(env) && Agrees(env, root, ld, prefix, imports)
    requires i < |AssemblyOf(env, ld).nodes| && Open(env, ld, AssemblyOf(env, ld).nodes[i]).Nested?
    ensures var node := AssemblyOf(env, ld).nodes[i];
            var inner := Open(env, ld, node).inner;
            Agrees(env, root, inner, prefix + [node.nodeId],
                   NestedImports(env, ld, imports, node.nodeId, AssemblyOf(env, inner).exposedPorts))
  {
    var node := AssemblyOf(env, ld).nodes[i];
    var inner, path := Open(env, ld, node).inner, prefix + [node.nodeId];
    var xs := AssemblyOf(env, inner).exposedPorts;
    NodeIsFound(AssemblyOf(env, ld).nodes, i);
    assert path[..|path| - 1] == prefix;
    forall x | x in xs && x.direction == Import
      ensures Lookup(NestedImports(env, ld, imports, node.nodeId, xs), x.portId) == Outward(env, root, path, x.portId)
    {
      NestedLookup(env, ld, imports, node.nodeId, xs, x.portId);
      SupplyIsClimb(env, root, ld, prefix, imports, Endpoint(node.nodeId, x.portId));
    }
  }

  lemma {:induction false} PortsByClimbing(env: Env, root: string, ld: string, prefix: Path, imports: Imports, site: Site, ps: seq<Port>)
    requires Known(env, root) && Known(env, ld) && Agrees(env, root, ld, prefix, imports)
    requires site.path == prefix + [site.node.nodeId]
    ensures PortsFound(env, ld, site.node, site.path, imports, ps) == ClimbPorts(env, root, site, ps)
  {
    if ps != [] {
      PortsByClimbing(env, root, ld, prefix, imports, site, ps[..|ps| - 1]);
      SupplyIsClimb(env, root, ld, prefix, imports, Endpoint(site.node.nodeId, ps[|ps| - 1].portId));
    }
  }

  // ---------------------------------------------------------------------------
  // The walk is the sum over its sites
  // ---------------------------------------------------------------------------

  ghost predicate IsSum(env: Env, root: string, walked: Outcome<Found>, sites: Outcome<seq<Site>>)
    requires Known(env, root)
  {
    match sites
    case Err(why) => walked == Err(why)
    case Ok(ss) => Placeable(ss) && walked == Ok(SitesFound(env, root, ss))
  }

  lemma {:induction false} WalkIsSum(env: Env, rank: Ranking, root: string, ld: string, prefix: Path, imports: Imports)
    requires Known(env, root) && Known(env, ld) && ValidEnv(env) && Ranked(env, rank) && Agrees(env, root, ld, prefix, imports)
    ensures IsSum(env, root, Collect(env, rank, ld, prefix, imports), Sites(env, rank, ld, prefix))
    decreases rank(ld), 2, 0
  {
    var ns := AssemblyOf(env, ld).nodes;
    WalkAmongIsSum(env, rank, root, ld, prefix, imports, |ns|);
    assert ns[..|ns|] == ns;
  }

  lemma {:induction false} WalkAmongIsSum(env: Env, rank: Ranking, root: string, ld: string, prefix: Path, imports: Imports, k: nat)
    requires Known(env, root) && Known(env, ld) && ValidEnv(env) && Ranked(env, rank) && Agrees(env, root, ld, prefix, imports)
    requires k <= |AssemblyOf(env, ld).nodes|
    ensures var ns := AssemblyOf(env, ld).nodes[..k];
            IsSum(env, root, CollectNodes(env, rank, ld, prefix, imports, ns), SitesAmong(env, rank, ld, prefix, ns))
    decreases rank(ld), 1, k
  {
    if k > 0 {
      var all := AssemblyOf(env, ld).nodes;
      WalkAmongIsSum(env, rank, root, ld, prefix, imports, k - 1);
      WalkOneIsSum(env, rank, root, ld, prefix, imports, k - 1);
      assert all[..k][..k - 1] == all[..k - 1] && all[..k][k - 1] == all[k - 1];
      var before, here := SitesAmong(env, rank, ld, prefix, all[..k - 1]), SitesOf(env, rank, ld, prefix, all[k - 1]);
      if before.Ok? && here.Ok? {
        SitesFoundAppend(env, root, before.value, here.value);
      }
    }
  }

  lemma {:induction false} WalkOneIsSum(env: Env, rank: Ranking, root: string, ld: string, prefix: Path, imports: Imports, i: nat)
    requires Known(env, root) && Known(env, ld) && ValidEnv(env) && Ranked(env, rank) && Agrees(env, root, ld, prefix, imports)
    requires i < |AssemblyOf(env, ld).nodes|
    ensures var node := AssemblyOf(env, ld).nodes[i];
            IsSum(env, root, CollectNode(env, rank, ld, prefix, imports, node), SitesOf(env, rank, ld, prefix, node))
    decreases rank(ld), 0, 0
  {
    var node := AssemblyOf(env, ld).nodes[i];
    match Open(env, ld, node) {
      case Broken(_) =>
      case Nested(inner) =>
        NestedAgrees(env, root, ld, prefix, imports, i);
        WalkIsSum(env, rank, root, inner, prefix + [node.nodeId],
                  NestedImports(env, ld, imports, node.nodeId, AssemblyOf(env, inner).exposedPorts));
      case Leaf(nl) =>
        var site := Site(prefix + [node.nodeId], node, nl);
        PortsByClimbing(env, root, ld, prefix, imports, site, node.ports);
        assert SitesFound(env, root, [site]) == SiteFound(env, root, site);
    }
  }

  /** The imports of the root assembly: each stands for itself. */
  function RootImports(xs: seq<Exposure>): Imports {
    map x | x in xs && x.direction == Import :: x.portId := Some(x.portId)
  }

  lemma RootAgrees(env: Env, root: string)
    requires Known(env, root)
    ensures Agrees(env, root, root, [], RootImports(AssemblyOf(env, root).exposedPorts))
  {
  }

  function CollectRoot(env: Env, ghost rank: Ranking, root: string): Outcome<Found>
    requires Known(env, root) && Ranked(env, rank)
  {
    Collect(env, rank, root, [], RootImports(AssemblyOf(env, root).exposedPorts))
  }

  /** The walk from the root finds, site by site, what climbing from each site finds. */
  lemma RootWalkIsSum(env: Env, rank: Ranking, root: string)
    requires Known(env, root) && ValidEnv(env) && Ranked(env, rank)
    ensures IsSum(env, root, CollectRoot(env, rank, root), Sites(env, rank, root, []))
  {
    RootAgrees(env, root);
    WalkIsSum(env, rank, root, root, [], RootImports(AssemblyOf(env, root).exposedPorts));
  }

  // ---------------------------------------------------------------------------
  // Sites are where they say they are, each in a place of its own
  // ---------------------------------------------------------------------------

  ghost predicate Sited(env: Env, root: string, site: Site)
    requires Known(env, root)
  {
    && site.path != [] && site.path[|site.path| - 1] == site.node.nodeId
    && var l := LockAt(env, root, site.path[..|site.path| - 1]);
       && l.Some?
       && FindNode(AssemblyOf(env, l.value).nodes, site.node.nodeId) == Some(site.node)
       && Open(env, l.value, site.node) == Leaf(site.nodeLock)
  }

  ghost predicate AllSited(env: Env, root: string, sites: seq<Site>)
    requires Known(env, root)
  {
    forall i :: 0 <= i < |sites| ==> Sited(env, root, sites[i])
  }

  lemma SitedAppend(env: Env, root: string, a: seq<Site>, b: seq<Site>)
    requires Known(env, root) && AllSited(env, root, a) && AllSited(env, root, b)
    ensures AllSited(env, root, a + b)
  {
  }

  lemma {:induction false} SitesAreSited(env: Env, rank: Ranking, root: string, ld: string, prefix: Path)
    requires Known(env, root) && Known(env, ld) && ValidEnv(env) && Ranked(env, rank) && LockAt(env, root, prefix) == Some(ld)
    requires Sites(env, rank, ld, prefix).Ok?
    ensures AllSited(env, root, Sites(env, rank, ld, prefix).value)
    decreases rank(ld), 2, 0
  {
    var ns := AssemblyOf(env, ld).nodes;
    assert ns[..|ns|] == ns;
    SitesAmongAreSited(env, rank, root, ld, prefix, |ns|);
  }

  lemma {:induction false} SitesAmongAreSited(env: Env, rank: Ranking, root: string, ld: string, prefix: Path, k: nat)
    requires Known(env, root) && Known(env, ld) && ValidEnv(env) && Ranked(env, rank) && LockAt(env, root, prefix) == Some(ld)
    requires k <= |AssemblyOf(env, ld).nodes| && SitesAmong(env, rank, ld, prefix, AssemblyOf(env, ld).nodes[..k]).Ok?
    ensures AllSited(env, root, SitesAmong(env, rank, ld, prefix, AssemblyOf(env, ld).nodes[..k]).value)
    decreases rank(ld), 1, k
  {
    if k > 0 {
      var all := AssemblyOf(env, ld).nodes;
      assert all[..k][..k - 1] == all[..k - 1] && all[..k][k - 1] == all[k - 1];
      SitesAmongAreSited(env, rank, root, ld, prefix, k - 1);
      SitesOfAreSited(env, rank, root, ld, prefix, k - 1);
      SitedAppend(env, root, SitesAmong(env, rank, ld, prefix, all[..k - 1]).value, SitesOf(env, rank, ld, prefix, all[k - 1]).value);
    }
  }

  lemma {:induction false} SitesOfAreSited(env: Env, rank: Ranking, root: string, ld: string, prefix: Path, i: nat)
    requires Known(env, root) && Known(env, ld) && ValidEnv(env) && Ranked(env, rank) && LockAt(env, root, prefix) == Some(ld)
    requires i < |AssemblyOf(env, ld).nodes| && SitesOf(env, rank, ld, prefix, AssemblyOf(env, ld).nodes[i]).Ok?
    ensures AllSited(env, root, SitesOf(env, rank, ld, prefix, AssemblyOf(env, ld).nodes[i]).value)
    decreases rank(ld), 0, 0
  {
    var node := AssemblyOf(env, ld).nodes[i];
    var path := prefix + [node.nodeId];
    NodeIsFound(AssemblyOf(env, ld).nodes, i);
    assert path[..|path| - 1] == prefix;
    if Open(env, ld, node).Nested? {
      SitesAreSited(env, rank, root, Open(env, ld, node).inner, path);
    }
  }

  /** Paths below `prefix` that continue with one of `ids`. */
  ghost predicate Below(sites: seq<Site>, prefix: Path, ids: set<string>) {
    forall i :: 0 <= i < |sites| ==> prefix < sites[i].path && sites[i].path[|prefix|] in ids
  }

  ghost predicate DistinctPaths(sites: seq<Site>) {
    forall i, j :: 0 <= i < j < |sites| ==> sites[i].path != sites[j].path
  }

  lemma DistinctPathsAppend(a: seq<Site>, b: seq<Site>, prefix: Path, ids: set<string>, id: string)
    requires DistinctPaths(a) && DistinctPaths(b) && Below(a, prefix, ids) && Below(b, prefix, {id}) && id !in ids
    ensures DistinctPaths(a + b) && Below(a + b, prefix, ids + {id})
  {
    var c := a + b;
    forall i, j | 0 <= i < j < |c| ensures c[i].path != c[j].path {
      if i < |a| <= j {
        assert c[i].path[|prefix|] in ids && c[j].path[|prefix|] == id;
      }
    }
  }

  ghost function IdsOf(ns: seq<Node>): set<string> {
    set n | n in ns :: n.nodeId
  }

  lemma {:induction false} SitesDistinct(env: Env, rank: Ranking, ld: string, prefix: Path)
    requires Known(env, ld) && ValidEnv(env) && Ranked(env, rank) && Sites(env, rank, ld, prefix).Ok?
    ensures DistinctPaths(Sites(env, rank, ld, prefix).value)
    ensures Below(Sites(env, rank, ld, prefix).value, prefix, IdsOf(AssemblyOf(env, ld).nodes))
    decreases rank(ld), 2, 0
  {
    var ns := AssemblyOf(env, ld).nodes;
    assert ns[..|ns|] == ns;
    SitesAmongDistinct(env, rank, ld, prefix, |ns|);
  }

  lemma {:induction false} SitesAmongDistinct(env: Env, rank: Ranking, ld: string, prefix: Path, k: nat)
    requires Known(env, ld) && ValidEnv(env) && Ranked(env, rank)
    requires k <= |AssemblyOf(env, ld).nodes| && SitesAmong(env, rank, ld, prefix, AssemblyOf(env, ld).nodes[..k]).Ok?
    ensures var ns := AssemblyOf(env, ld).nodes[..k];
            var sites := SitesAmong(env, rank, ld, prefix, ns).value;
            DistinctPaths(sites) && Below(sites, prefix, IdsOf(ns))
    decreases rank(ld), 1, k
  {
    if k > 0 {
      var all := AssemblyOf(env, ld).nodes;
      var init, node := all[..k - 1], all[k - 1];
      assert all[..k][..k - 1] == init && all[..k] == init + [node];
      SitesAmongDistinct(env, rank, ld, prefix, k - 1);
      SitesOfDistinct(env, rank, ld, prefix, node);
      assert IdsOf(all[..k]) == IdsOf(init) + {node.nodeId};
      assert node.nodeId !in IdsOf(init);
      DistinctPathsAppend(SitesAmong(env, rank, ld, prefix, init).value, SitesOf(env, rank, ld, prefix, node).value, prefix,
                          IdsOf(init), node.nodeId);
    }
  }

  lemma {:induction false} SitesOfDistinct(env: Env, rank: Ranking, ld: string, prefix: Path, node: Node)
    requires Known(env, ld) && ValidEnv(env) && Ranked(env, rank) && SitesOf(env, rank, ld, prefix, node).Ok?
    ensures var sites := SitesOf(env, rank, ld, prefix, node).value;
            DistinctPaths(sites) && Below(sites, prefix, {node.nodeId})
    decreases rank(ld), 0, 0
  {
    if Open(env, ld, node).Nested? {
      var path := prefix + [node.nodeId];
      SitesDistinct(env, rank, Open(env, ld, node).inner, path);
      forall p: Path | path < p ensures prefix < p && p[|prefix|] == node.nodeId {
        assert p[..|path|] == path;
      }
    }
  }
}
