/**
 Assemblies, their locks, and the packages loaded to run them.

 Nested assemblies are reached through two maps keyed by digest. A lock names its nested locks
 by digest, so locks cannot contain each other in a circle: `Ranked` says so, and every
 recursion below follows it.
 */
module AssemblyModel {
  import opened Basics
  import opened Json
  import opened Artifact
  import opened Component

  const LOCK_TYPE_URI := "urn:plurora:assembly-lock:v1"
  const CAPABILITY_UNARY := "plurora.interaction.capability-unary/v1"
  const CAPABILITY_STREAM := "plurora.interaction.capability-stream/v1"

  type Path = seq<string>

  datatype Endpoint = Endpoint(nodeId: string, portId: string)

  datatype Direction = Import | Export

  datatype Phase = Authoring | Installation | Launch | Runtime

  datatype Availability = Required | DegradedWithout | Dispensable

  datatype PortRole = ImportRole(latestPhase: Phase, availability: Availability) | ExportRole

  datatype Port = Port(portId: string, role: PortRole, interaction: string, contract: Json)

  datatype NodeSource = ComponentSource(component: ArtifactDescriptor) | AssemblySource(assembly: ArtifactDescriptor)

  datatype Node = Node(nodeId: string, source: NodeSource, ports: seq<Port>)

  datatype Exposure = Exposure(portId: string, direction: Direction, target: Endpoint)

  datatype Assembly = Assembly(nodes: seq<Node>, exposedPorts: seq<Exposure>)

  datatype Binding = Binding(consumer: Endpoint, phase: Phase)

  datatype NodeLock = NodeLock(
    nodeId: string,
    artifact: ArtifactDescriptor,
    behaviorDigest: Option<string>,
    trustClass: Option<TrustClass>)

  datatype Lock = Lock(assembly: ArtifactDescriptor, nodes: seq<NodeLock>, bindings: seq<Binding>)

  datatype Package = Package(
    id: string,
    ready: bool,
    entryKind: string,
    entry: PackageEntry,
    contract: ContractMode,
    components: seq<ComponentDescriptor>)

  /** The verified closure of an installation, the loaded packages, and the digest of a contract. */
  datatype Env = Env(
    assemblies: map<string, Assembly>,
    locks: map<string, Lock>,
    packages: seq<Package>,
    contractDigest: Json -> string)

  // ---------------------------------------------------------------------------
  // What revisions and closures satisfy
  // ---------------------------------------------------------------------------

  ghost predicate UniqueNodes(ns: seq<Node>) {
    forall i, j :: 0 <= i < j < |ns| ==> ns[i].nodeId != ns[j].nodeId
  }

  ghost predicate UniquePorts(ps: seq<Port>) {
    forall i, j :: 0 <= i < j < |ps| ==> ps[i].portId != ps[j].portId
  }

  ghost predicate UniqueExposures(xs: seq<Exposure>) {
    forall i, j :: 0 <= i < j < |xs| ==> xs[i].portId != xs[j].portId
  }

  /** What `AssemblyRevision::validate` enforces of identifiers. */
  ghost predicate ValidAssembly(a: Assembly) {
    UniqueNodes(a.nodes) && UniqueExposures(a.exposedPorts) && forall n :: n in a.nodes ==> UniquePorts(n.ports)
  }

  ghost predicate ValidEnv(env: Env) {
    forall d :: d in env.assemblies ==> ValidAssembly(env.assemblies[d])
  }

  type Ranking = string -> nat

  /** Nested locks rank below the locks that name them. */
  ghost predicate Ranked(env: Env, rank: Ranking) {
    forall ld, nl :: ld in env.locks && nl in env.locks[ld].nodes && nl.artifact.digest in env.locks
      ==> rank(nl.artifact.digest) < rank(ld)
  }

  // ---------------------------------------------------------------------------
  // Lookups
  // ---------------------------------------------------------------------------

  function Find<T>(xs: seq<T>, p: T -> bool): (r: Option<T>)
    ensures r.Some? ==> r.value in xs && p(r.value)
    ensures r.None? ==> forall x :: x in xs ==> !p(x)
  {
    if xs == [] then None else if p(xs[0]) then Some(xs[0]) else Find(xs[1..], p)
  }

  function FindNode(ns: seq<Node>, id: string): (r: Option<Node>)
    ensures r.Some? ==> r.value in ns && r.value.nodeId == id
    ensures r.None? ==> forall n :: n in ns ==> n.nodeId != id
  {
    Find(ns, (n: Node) => n.nodeId == id)
  }

  function FindLock(ls: seq<NodeLock>, id: string): (r: Option<NodeLock>)
    ensures r.Some? ==> r.value in ls && r.value.nodeId == id
    ensures r.None? ==> forall l :: l in ls ==> l.nodeId != id
  {
    Find(ls, (l: NodeLock) => l.nodeId == id)
  }

  function FindPort(ps: seq<Port>, id: string): (r: Option<Port>)
    ensures r.Some? ==> r.value in ps && r.value.portId == id
    ensures r.None? ==> forall p :: p in ps ==> p.portId != id
  {
    Find(ps, (p: Port) => p.portId == id)
  }

  function FindExposure(xs: seq<Exposure>, id: string, direction: Direction): (r: Option<Exposure>)
    ensures r.Some? ==> r.value in xs && r.value.portId == id && r.value.direction == direction
    ensures r.None? ==> forall x :: x in xs ==> !(x.portId == id && x.direction == direction)
  {
    Find(xs, (x: Exposure) => x.portId == id && x.direction == direction)
  }

  /** The first import exposure of an endpoint. */
  function FindTargeting(xs: seq<Exposure>, target: Endpoint): (r: Option<Exposure>)
    ensures r.Some? ==> r.value in xs && r.value.direction == Import && r.value.target == target
    ensures r.None? ==> forall x :: x in xs ==> !(x.direction == Import && x.target == target)
  {
    Find(xs, (x: Exposure) => x.direction == Import && x.target == target)
  }

  /** Bound by its author or at installation. */
  predicate Fixed(lock: Lock, consumer: Endpoint) {
    exists b :: b in lock.bindings && b.consumer == consumer && (b.phase == Authoring || b.phase == Installation)
  }

  lemma NodeIsFound(ns: seq<Node>, i: nat)
    requires UniqueNodes(ns) && i < |ns|
    ensures FindNode(ns, ns[i].nodeId) == Some(ns[i])
  {
    var r := FindNode(ns, ns[i].nodeId);
    assert ns[i] in ns;
    var j :| 0 <= j < |ns| && ns[j] == r.value;
  }

  lemma PortIsFound(ps: seq<Port>, i: nat)
    requires UniquePorts(ps) && i < |ps|
    ensures FindPort(ps, ps[i].portId) == Some(ps[i])
  {
    var r := FindPort(ps, ps[i].portId);
    assert ps[i] in ps;
    var j :| 0 <= j < |ps| && ps[j] == r.value;
  }

  lemma ExposureIsFound(xs: seq<Exposure>, x: Exposure)
    requires UniqueExposures(xs) && x in xs
    ensures FindExposure(xs, x.portId, x.direction) == Some(x)
  {
    var r := FindExposure(xs, x.portId, x.direction);
    var i :| 0 <= i < |xs| && xs[i] == x;
    var j :| 0 <= j < |xs| && xs[j] == r.value;
  }

  // ---------------------------------------------------------------------------
  // One level of the nested expansion
  // ---------------------------------------------------------------------------

  /** A lock of the closure, together with the assembly it locks. */
  predicate Known(env: Env, ld: string) {
    ld in env.locks && env.locks[ld].assembly.digest in env.assemblies
  }

  function AssemblyOf(env: Env, ld: string): Assembly
    requires Known(env, ld)
  {
    env.assemblies[env.locks[ld].assembly.digest]
  }

  /** What a node turns out to be once its lock entry is consulted. */
  datatype Opened = Leaf(nodeLock: NodeLock) | Nested(inner: string) | Broken(why: string)

  function Open(env: Env, ld: string, node: Node): (r: Opened)
    requires Known(env, ld)
    ensures r.Nested? ==> Known(env, r.inner) && exists nl :: nl in env.locks[ld].nodes && nl.artifact.digest == r.inner
  {
    match FindLock(env.locks[ld].nodes, node.nodeId)
    case None => Broken("lock is missing the node")
    case Some(nl) =>
      match node.source
      case ComponentSource(component) =>
        if nl.artifact.typeUri != DESCRIPTOR_TYPE_URI then Broken("node kinds disagree")
        else if component != nl.artifact then Broken("component pin differs")
        else Leaf(nl)
      case AssemblySource(nested) =>
        if nl.artifact.typeUri != LOCK_TYPE_URI then Broken("node kinds disagree")
        else if nl.artifact.digest !in env.locks then Broken("nested lock is unavailable")
        else if env.locks[nl.artifact.digest].assembly != nested then Broken("nested lock pins another assembly")
        else if nested.digest !in env.assemblies then Broken("nested assembly is unavailable")
        else Nested(nl.artifact.digest)
  }

  // ---------------------------------------------------------------------------
  // resolve_powerbox_leaf
  // ---------------------------------------------------------------------------

  predicate RoleIs(role: PortRole, direction: Direction) {
    (role.ImportRole? && direction == Import) || (role.ExportRole? && direction == Export)
  }

  datatype Traced = Traced(path: Path, port: Port, nodeLock: NodeLock)

  /** From a root port down to the leaf port behind it. */
  function Trace(env: Env, ghost rank: Ranking, ld: string, prefix: Path, port: string, direction: Direction): Outcome<Traced>
    requires Known(env, ld) && Ranked(env, rank)
    decreases rank(ld), 1
  {
    match FindExposure(AssemblyOf(env, ld).exposedPorts, port, direction)
    case None => Err("port is unavailable or has the wrong direction")
    case Some(x) => TraceTarget(env, rank, ld, prefix, x.target, direction)
  }

  function TraceTarget(env: Env, ghost rank: Ranking, ld: string, prefix: Path, target: Endpoint, direction: Direction)
    : Outcome<Traced>
    requires Known(env, ld) && Ranked(env, rank)
    decreases rank(ld), 0
  {
    match FindNode(AssemblyOf(env, ld).nodes, target.nodeId)
    case None => Err("port targets an unknown node")
    case Some(node) =>
      match Open(env, ld, node)
      case Broken(why) => Err(why)
      case Leaf(nl) =>
        (match FindPort(node.ports, target.portId)
         case None => Err("leaf port is unavailable")
         case Some(p) =>
           if RoleIs(p.role, direction) then Ok(Traced(prefix + [node.nodeId], p, nl))
           else Err("leaf role disagrees with direction"))
      case Nested(inner) => Trace(env, rank, inner, prefix + [node.nodeId], target.portId, direction)
  }

  // ---------------------------------------------------------------------------
  // exact_loaded_component
  // ---------------------------------------------------------------------------

  datatype Reason =
    | NotExposed | NoAdapter | NotLoaded | LoadedTwice | NotEnforced | NoBackend
    | BindingMissing | BindingAmbiguous | ControlUnavailable
    | Reported(code: string, nextStep: string)

  datatype Gap = Gap(reason: Reason, nodeId: Option<string>, portId: Option<string>)

  function Code(r: Reason): string {
    match r
    case NotExposed => "target_unsatisfied"
    case NoAdapter => "unsupported_interaction"
    case NotLoaded => "artifact_missing"
    case LoadedTwice => "binding_ambiguous"
    case NotEnforced => "unsupported_backend"
    case NoBackend => "unsupported_backend"
    case BindingMissing => "binding_unavailable"
    case BindingAmbiguous => "binding_ambiguous"
    case ControlUnavailable => "binding_unavailable"
    case Reported(code, _) => code
  }

  datatype Candidate = Candidate(package: Package, component: ComponentDescriptor)

  /** The claim on a package, and whether running the node starts it. */
  datatype SelectedComponent = SelectedComponent(claim: Candidate, activates: bool)

  datatype Loading = Loaded(component: SelectedComponent) | Missing(reason: Reason)

  predicate MatchesLock(nl: NodeLock, p: Package, c: ComponentDescriptor) {
    && c.artifact == nl.artifact
    && Some(c.behavior.digest) == nl.behaviorDigest
    && Some(c.payload.trustClass) == nl.trustClass
    && c.payload.entryKind == p.entryKind
  }

  const JSON_RPC_STDIO := "json_rpc_stdio"

  function Admit(found: Candidate): Loading {
    if found.component.payload.trustClass == ForeignCapsule || found.package.contract == NoContract then Missing(NotEnforced)
    else match found.package.entry
      case RustInproc(_, _, _) => Loaded(SelectedComponent(found, true))
      case Subprocess(_, transport) =>
        if transport == JSON_RPC_STDIO then Loaded(SelectedComponent(found, true)) else Missing(NoBackend)
      case SurfaceBundle(_) => Loaded(SelectedComponent(found, false))
      case Wasm(_, _, _) => Missing(NoBackend)
      case Remote(_, _, _) => Missing(NoBackend)
  }

  /** The package is loaded and its `k`-th component is the one the lock entry pins. */
  ghost predicate Holds(nl: NodeLock, p: Package, k: int) {
    p.ready && 0 <= k < |p.components| && MatchesLock(nl, p, p.components[k])
  }

  ghost predicate Matching(nl: NodeLock, ps: seq<Package>, i: int, k: int) {
    0 <= i < |ps| && Holds(nl, ps[i], k)
  }

  function MatchesIn(nl: NodeLock, p: Package, cs: seq<ComponentDescriptor>): seq<Candidate> {
    if cs == [] then []
    else
      var last := cs[|cs| - 1];
      MatchesIn(nl, p, cs[..|cs| - 1]) + (if MatchesLock(nl, p, last) then [Candidate(p, last)] else [])
  }

  function Matches(nl: NodeLock, ps: seq<Package>): seq<Candidate> {
    if ps == [] then []
    else
      var last := ps[|ps| - 1];
      Matches(nl, ps[..|ps| - 1]) + (if last.ready then MatchesIn(nl, last, last.components) else [])
  }

  function ExactLoaded(nl: NodeLock, ps: seq<Package>): Loading {
    var found := Matches(nl, ps);
    if found == [] then Missing(NotLoaded)
    else if |found| > 1 then Missing(LoadedTwice)
    else Admit(found[0])
  }

  method ExactLoadedComponent(nl: NodeLock, ps: seq<Package>) returns (r: Loading)
    ensures r == ExactLoaded(nl, ps)
  {
    var found: seq<Candidate> := [];
    for i := 0 to |ps|
      invariant found == Matches(nl, ps[..i])
    {
      assert ps[..i + 1][..i] == ps[..i];
      if ps[i].ready {
        ghost var before := found;
        var cs := ps[i].components;
        for k := 0 to |cs|
          invariant found == before + MatchesIn(nl, ps[i], cs[..k])
        {
          assert cs[..k + 1][..k] == cs[..k];
          if MatchesLock(nl, ps[i], cs[k]) {
            found := found + [Candidate(ps[i], cs[k])];
          }
        }
        assert cs[..|cs|] == cs;
      }
    }
    assert ps[..|ps|] == ps;
    if found == [] {
      return Missing(NotLoaded);
    }
    if |found| > 1 {
      return Missing(LoadedTwice);
    }
    r := Admit(found[0]);
  }

  datatype Resolved = Resolved(path: Path, port: Port, component: SelectedComponent)

  /** The leaf a root port stands for, once its component is found among the loaded packages. */
  function Resolve(env: Env, ghost rank: Ranking, ld: string, port: string, direction: Direction): Outcome<Resolved>
    requires Known(env, ld) && Ranked(env, rank)
  {
    match Trace(env, rank, ld, [], port, direction)
    case Err(why) => Err(why)
    case Ok(t) =>
      match ExactLoaded(t.nodeLock, env.packages)
      case Missing(reason) => Err(Code(reason))
      case Loaded(c) => Ok(Resolved(t.path, t.port, c))
  }
}
