/** The walk over a locked assembly that gathers components, required imports and gaps. */
module AssemblyCollect {
  import opened Basics
  import opened AssemblyModel

  /** An import a run must bind before it starts: a root port and the leaf port behind it. */
  datatype Pin = Pin(rootPort: string, path: Path, leaf: Endpoint, contractDigest: string)

  datatype Placed = Placed(path: Path, component: SelectedComponent)

  datatype Found = Found(selected: seq<Placed>, pins: seq<Pin>, gaps: seq<Gap>)

  const NOTHING := Found([], [], [])

  function Join(a: Found, b: Found): Found {
    Found(a.selected + b.selected, a.pins + b.pins, a.gaps + b.gaps)
  }

  lemma JoinJoin(a: Found, b: Found, c: Found)
    ensures Join(Join(a, b), c) == Join(a, Join(b, c))
  {
  }

  /** For each import a level exposes: `Some(r)`, the root port it comes from; `None`, already bound. */
  type Imports = map<string, Option<string>>

  /** Where an import endpoint gets its provider from. */
  datatype Supply = AlreadyBound | Unexposed | FromRoot(rootPort: string)

  function Lookup(imports: Imports, port: string): Supply {
    if port !in imports then Unexposed
    else match imports[port]
      case None => AlreadyBound
      case Some(r) => FromRoot(r)
  }

  function SupplyOf(env: Env, ld: string, imports: Imports, consumer: Endpoint): Supply
    requires Known(env, ld)
  {
    if Fixed(env.locks[ld], consumer) then AlreadyBound
    else match FindTargeting(AssemblyOf(env, ld).exposedPorts, consumer)
      case None => Unexposed
      case Some(x) => Lookup(imports, x.portId)
  }

  // ---------------------------------------------------------------------------
  // validate_required_bindings
  // ---------------------------------------------------------------------------

  /** A required import that may stay open until launch. */
  predicate Deferred(p: Port) {
    p.role == ImportRole(Launch, Required)
  }

  predicate Bindable(p: Port) {
    p.interaction == CAPABILITY_UNARY || p.interaction == CAPABILITY_STREAM
  }

  function PortGap(reason: Reason, node: Node, p: Port): Gap {
    Gap(reason, Some(node.nodeId), Some(p.portId))
  }

  function PinOf(env: Env, rootPort: string, path: Path, nodeId: string, p: Port): Pin {
    Pin(rootPort, path, Endpoint(nodeId, p.portId), (env.contractDigest)(p.contract))
  }

  /** What one port of a component node adds, given where its provider comes from. */
  function PortFound(env: Env, node: Node, path: Path, p: Port, supply: Supply): Found {
    if !Deferred(p) then NOTHING
    else match supply
      case AlreadyBound => NOTHING
      case Unexposed => NOTHING.(gaps := [PortGap(NotExposed, node, p)])
      case FromRoot(r) =>
        if Bindable(p) then NOTHING.(pins := [PinOf(env, r, path, node.nodeId, p)])
        else NOTHING.(gaps := [PortGap(NoAdapter, node, p)])
  }

  function PortsFound(env: Env, ld: string, node: Node, path: Path, imports: Imports, ps: seq<Port>): Found
    requires Known(env, ld)
  {
    if ps == [] then NOTHING
    else
      var p := ps[|ps| - 1];
      Join(PortsFound(env, ld, node, path, imports, ps[..|ps| - 1]),
           PortFound(env, node, path, p, SupplyOf(env, ld, imports, Endpoint(node.nodeId, p.portId))))
  }

  function LoadingFound(node: Node, path: Path, loading: Loading): Found {
    match loading
    case Loaded(c) => NOTHING.(selected := [Placed(path, c)])
    case Missing(reason) => NOTHING.(gaps := [Gap(reason, Some(node.nodeId), None)])
  }

  // ---------------------------------------------------------------------------
  // collect_locked_nodes
  // ---------------------------------------------------------------------------

  /** The imports of a nested assembly, from the imports of the assembly around it. */
  function NestedImports(env: Env, ld: string, imports: Imports, nodeId: string, xs: seq<Exposure>): Imports
    requires Known(env, ld)
  {
    if xs == [] then map[]
    else
      var x, rest := xs[|xs| - 1], NestedImports(env, ld, imports, nodeId, xs[..|xs| - 1]);
      if x.direction != Import then rest
      else match SupplyOf(env, ld, imports, Endpoint(nodeId, x.portId))
        case AlreadyBound => rest[x.portId := None]
        case Unexposed => rest
        case FromRoot(r) => rest[x.portId := Some(r)]
  }

  function LockedIds(ls: seq<NodeLock>): set<string> {
    set l | l in ls :: l.nodeId
  }

  function Collect(env: Env, ghost rank: Ranking, ld: string, prefix: Path, imports: Imports): Outcome<Found>
    requires Known(env, ld) && Ranked(env, rank)
    decreases rank(ld), 2, 0
  {
    if |LockedIds(env.locks[ld].nodes)| != |AssemblyOf(env, ld).nodes| then Err("lock node set is inconsistent")
    else CollectNodes(env, rank, ld, prefix, imports, AssemblyOf(env, ld).nodes)
  }

  function CollectNodes(env: Env, ghost rank: Ranking, ld: string, prefix: Path, imports: Imports, ns: seq<Node>)
    : Outcome<Found>
    requires Known(env, ld) && Ranked(env, rank)
    decreases rank(ld), 1, |ns|
  {
    if ns == [] then Ok(NOTHING)
    else match CollectNodes(env, rank, ld, prefix, imports, ns[..|ns| - 1])
      case Err(why) => Err(why)
      case Ok(found) =>
        match CollectNode(env, rank, ld, prefix, imports, ns[|ns| - 1])
        case Err(why) => Err(why)
        case Ok(more) => Ok(Join(found, more))
  }

  function CollectNode(env: Env, ghost rank: Ranking, ld: string, prefix: Path, imports: Imports, node: Node)
    : Outcome<Found>
    requires Known(env, ld) && Ranked(env, rank)
    decreases rank(ld), 0, 0
  {
    var path := prefix + [node.nodeId];
    match Open(env, ld, node)
    case Broken(why) => Err(why)
    case Nested(inner) =>
      Collect(env, rank, inner, path, NestedImports(env, ld, imports, node.nodeId, AssemblyOf(env, inner).exposedPorts))
    case Leaf(nl) =>
      Ok(Join(PortsFound(env, ld, node, path, imports, node.ports), LoadingFound(node, path, ExactLoaded(nl, env.packages))))
  }

  // ---------------------------------------------------------------------------
  // The walk as it is coded: three lists that grow
  // ---------------------------------------------------------------------------

  method IsFixed(lock: Lock, consumer: Endpoint) returns (fixed: bool)
    ensures fixed <==> Fixed(lock, consumer)
  {
    for i := 0 to |lock.bindings|
      invariant forall k :: 0 <= k < i ==>
        !(lock.bindings[k].consumer == consumer && (lock.bindings[k].phase == Authoring || lock.bindings[k].phase == Installation))
    {
      var b := lock.bindings[i];
      if b.consumer == consumer && (b.phase == Authoring || b.phase == Installation) {
        return true;
      }
    }
    fixed := false;
  }

  method CollectImports(env: Env, ld: string, imports: Imports, nodeId: string, xs: seq<Exposure>) returns (r: Imports)
    requires Known(env, ld)
    ensures r == NestedImports(env, ld, imports, nodeId, xs)
  {
    r := map[];
    for i := 0 to |xs|
      invariant r == NestedImports(env, ld, imports, nodeId, xs[..i])
    {
      assert xs[..i + 1][..i] == xs[..i];
      var x := xs[i];
      if x.direction == Import {
        var fixed := IsFixed(env.locks[ld], Endpoint(nodeId, x.portId));
        if fixed {
          r := r[x.portId := None];
        } else {
          var parent := FindTargeting(AssemblyOf(env, ld).exposedPorts, Endpoint(nodeId, x.portId));
          if parent.Some? && parent.value.portId in imports {
            r := r[x.portId := imports[parent.value.portId]];
          }
        }
      }
    }
    assert xs[..|xs|] == xs;
  }

  class Collector {
    var selected: seq<Placed>
    var requiredImports: seq<Pin>
    var gaps: seq<Gap>

    constructor (before: seq<Gap>)
      ensures Contents() == Found([], [], before)
    {
      selected, requiredImports, gaps := [], [], before;
    }

    function Contents(): Found
      reads this
    {
      Found(selected, requiredImports, gaps)
    }

    /** The lists grew by what the specification finds, or the walk failed as it does. */
    ghost predicate Reports(expected: Outcome<Found>, done: Outcome<bool>, before: Found)
      reads this
    {
      match expected
      case Ok(found) => done.Ok? && Contents() == Join(before, found)
      case Err(why) => done == Err(why)
    }

    /** One port: fixed, not exposed, bound further out, without an adapter, or pinned. */
    method ValidatePort(env: Env, ld: string, node: Node, path: Path, imports: Imports, p: Port)
      requires Known(env, ld)
      modifies this
      ensures Contents() == Join(old(Contents()), PortFound(env, node, path, p,
                                                            SupplyOf(env, ld, imports, Endpoint(node.nodeId, p.portId))))
    {
      if !Deferred(p) {
        return;
      }
      var fixed := IsFixed(env.locks[ld], Endpoint(node.nodeId, p.portId));
      if fixed {
        return;
      }
      var exposed := FindTargeting(AssemblyOf(env, ld).exposedPorts, Endpoint(node.nodeId, p.portId));
      if exposed.None? || exposed.value.portId !in imports {
        gaps := gaps + [PortGap(NotExposed, node, p)];
        return;
      }
      var rootPort := imports[exposed.value.portId];
      if rootPort.None? {
        return;
      }
      if !Bindable(p) {
        gaps := gaps + [PortGap(NoAdapter, node, p)];
        return;
      }
      requiredImports := requiredImports + [PinOf(env, rootPort.value, path, node.nodeId, p)];
    }

    method ValidateRequiredBindings(env: Env, ld: string, node: Node, path: Path, imports: Imports)
      requires Known(env, ld)
      modifies this
      ensures Contents() == Join(old(Contents()), PortsFound(env, ld, node, path, imports, node.ports))
    {
      var ps := node.ports;
      ghost var sofar := NOTHING;
      for i := 0 to |ps|
        invariant PortsFound(env, ld, node, path, imports, ps[..i]) == sofar
        invariant Contents() == Join(old(Contents()), sofar)
      {
        assert ps[..i + 1][..i] == ps[..i];
        ValidatePort(env, ld, node, path, imports, ps[i]);
        ghost var more := PortFound(env, node, path, ps[i], SupplyOf(env, ld, imports, Endpoint(node.nodeId, ps[i].portId)));
        JoinJoin(old(Contents()), sofar, more);
        sofar := Join(sofar, more);
      }
      assert ps[..|ps|] == ps;
    }

    method Place(nl: NodeLock, packages: seq<Package>, node: Node, path: Path)
      modifies this
      ensures Contents() == Join(old(Contents()), LoadingFound(node, path, ExactLoaded(nl, packages)))
    {
      var loading := ExactLoadedComponent(nl, packages);
      match loading {
        case Loaded(c) => selected := selected + [Placed(path, c)];
        case Missing(reason) => gaps := gaps + [Gap(reason, Some(node.nodeId), None)];
      }
    }

    method CollectLockedNodes(env: Env, ghost rank: Ranking, ld: string, prefix: Path, imports: Imports)
      returns (done: Outcome<bool>)
      requires Known(env, ld) && Ranked(env, rank)
      modifies this
      ensures Reports(Collect(env, rank, ld, prefix, imports), done, old(Contents()))
      decreases rank(ld), 2
    {
      if |LockedIds(env.locks[ld].nodes)| != |AssemblyOf(env, ld).nodes| {
        return Err("lock node set is inconsistent");
      }
      done := CollectEach(env, rank, ld, prefix, imports, AssemblyOf(env, ld).nodes);
    }

    /** The loop over the nodes of one assembly. */
    method CollectEach(env: Env, ghost rank: Ranking, ld: string, prefix: Path, imports: Imports, ns: seq<Node>)
      returns (done: Outcome<bool>)
      requires Known(env, ld) && Ranked(env, rank)
      modifies this
      ensures Reports(CollectNodes(env, rank, ld, prefix, imports, ns), done, old(Contents()))
      decreases rank(ld), 1
    {
      ghost var sofar := NOTHING;
      for i := 0 to |ns|
        invariant CollectNodes(env, rank, ld, prefix, imports, ns[..i]) == Ok(sofar)
        invariant Contents() == Join(old(Contents()), sofar)
      {
        done := CollectLockedNode(env, rank, ld, prefix, imports, ns[i]);
        NextNode(env, rank, ld, prefix, imports, ns, i);
        if done.Err? {
          ErrorStays(env, rank, ld, prefix, imports, ns, i + 1);
          return;
        }
        ghost var more := CollectNode(env, rank, ld, prefix, imports, ns[i]).value;
        JoinJoin(old(Contents()), sofar, more);
        sofar := Join(sofar, more);
      }
      assert ns[..|ns|] == ns;
      done := Ok(true);
    }

    /** The body of the loop: one node. */
    method CollectLockedNode(env: Env, ghost rank: Ranking, ld: string, prefix: Path, imports: Imports, node: Node)
      returns (done: Outcome<bool>)
      requires Known(env, ld) && Ranked(env, rank)
      modifies this
      ensures Reports(CollectNode(env, rank, ld, prefix, imports, node), done, old(Contents()))
      decreases rank(ld), 0
    {
      var path := prefix + [node.nodeId];
      match Open(env, ld, node) {
        case Broken(why) =>
          done := Err(why);
        case Nested(inner) =>
          var nested := CollectImports(env, ld, imports, node.nodeId, AssemblyOf(env, inner).exposedPorts);
          done := CollectLockedNodes(env, rank, inner, path, nested);
        case Leaf(nl) =>
          ValidateRequiredBindings(env, ld, node, path, imports);
          Place(nl, env.packages, node, path);
          JoinJoin(old(Contents()), PortsFound(env, ld, node, path, imports, node.ports),
                   LoadingFound(node, path, ExactLoaded(nl, env.packages)));
          done := Ok(true);
      }
    }
  }

  lemma NextNode(env: Env, rank: Ranking, ld: string, prefix: Path, imports: Imports, ns: seq<Node>, i: nat)
    requires Known(env, ld) && Ranked(env, rank) && i < |ns|
    requires CollectNodes(env, rank, ld, prefix, imports, ns[..i]).Ok?
    ensures CollectNodes(env, rank, ld, prefix, imports, ns[..i + 1]) ==
            match CollectNode(env, rank, ld, prefix, imports, ns[i])
            case Err(why) => Err(why)
            case Ok(more) => Ok(Join(CollectNodes(env, rank, ld, prefix, imports, ns[..i]).value, more))
  {
    assert ns[..i + 1][..i] == ns[..i];
  }

  /** Once a node fails, so does every longer walk. */
  lemma {:induction false} ErrorStays(env: Env, rank: Ranking, ld: string, prefix: Path, imports: Imports, ns: seq<Node>, i: nat)
    requires Known(env, ld) && Ranked(env, rank) && i <= |ns|
    requires CollectNodes(env, rank, ld, prefix, imports, ns[..i]).Err?
    ensures CollectNodes(env, rank, ld, prefix, imports, ns) == CollectNodes(env, rank, ld, prefix, imports, ns[..i])
  {
    if i == |ns| {
      assert ns[..i] == ns;
    } else {
      var init := ns[..|ns| - 1];
      assert init[..i] == ns[..i];
      ErrorStays(env, rank, ld, prefix, imports, init, i);
    }
  }
}
