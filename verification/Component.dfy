/**
 Component descriptors derived from a package manifest.

 Serialization, hashing and parsing are parameters (`Codec`): the documents that are hashed are
 built here field by field, what turns them into bytes and digests is not.
 */
module Component {
  import opened Basics
  import opened Sorting
  import opened Json
  import opened Artifact

  const DESCRIPTOR_TYPE_URI := "urn:plurora:component-descriptor:v1"
  const BEHAVIOR_TYPE_URI := "urn:plurora:component-behavior:v1"
  const PROTOCOL_TYPE_URI := "urn:plurora:packaged-protocol:v1"
  const SURFACE_TYPE_URI := "urn:plurora:packaged-surface:v1"
  const JSON_MEDIA_TYPE := "application/json"

  type Bytes = seq<int>

  datatype PackageEntry =
    | RustInproc(crateRef: string, symbol: string, abiVersion: nat)
    | Subprocess(command: seq<string>, transport: string)
    | Wasm(wasmModule: string, abiVersion: nat, memoryLimitMb: nat)
    | Remote(endpoint: string, authScheme: string, authConfig: Json)
    | SurfaceBundle(bundle: string)

  datatype ContractMode = V1 | NoContract

  datatype TrustClass =
    SandboxedComponent | IsolatedProcess | RemoteBoundary | TrustedNative | StaticResource | ForeignCapsule

  datatype ClaimStatus = Declared | LegacyAdapted | ForeignStatus

  datatype BoundaryClaims = BoundaryClaims(
    processFailureIsolation: bool,
    networkIsolation: bool,
    filesystemIsolation: bool,
    resourceLimitsEnforced: bool,
    remoteIdentity: bool,
    tenancyIsolation: bool,
    revocationEnforced: bool,
    noCodeExecution: bool)

  datatype ProtocolImplementation = ProtocolImplementation(
    protocolId: string,
    version: string,
    profiles: seq<string>,
    vectors: seq<string>)

  datatype Surface = Surface(
    id: string,
    version: string,
    slot: string,
    title: string,
    description: Json,
    capabilityId: Json,
    allowedCapabilityIds: seq<string>,
    activation: Json,
    requiredPermissions: Json,
    approvalPolicy: Json,
    metadata: Json)

  datatype Capability = Capability(
    id: string,
    version: string,
    inputSchema: Json,
    outputSchema: Json,
    streaming: bool,
    sideEffects: seq<string>)

  datatype Declaration = Declaration(
    id: string,
    version: string,
    capabilityIds: seq<string>,
    protocols: seq<ProtocolImplementation>,
    contentRoots: seq<ArtifactDescriptor>,
    surfaceIds: seq<string>,
    annotations: seq<Member>)

  datatype Manifest = Manifest(
    packageId: string,
    entry: PackageEntry,
    contract: ContractMode,
    provided: seq<Capability>,
    surfaces: seq<Surface>)

  datatype PackagedProtocol = PackagedProtocol(implementation: ProtocolImplementation, artifact: ArtifactDescriptor)
  datatype PackagedSurface = PackagedSurface(surfaceId: string, version: string, artifact: ArtifactDescriptor)

  datatype Payload = Payload(
    componentId: string,
    version: string,
    behavior: ArtifactDescriptor,
    entryKind: string,
    entry: PackageEntry,
    contract: ContractMode,
    trustClass: TrustClass,
    claimStatus: ClaimStatus,
    boundaries: BoundaryClaims,
    protocolArtifacts: seq<ArtifactDescriptor>,
    contentRoots: seq<ArtifactDescriptor>,
    surfaceArtifacts: seq<ArtifactDescriptor>,
    annotations: seq<Member>)

  datatype ComponentDescriptor = ComponentDescriptor(
    componentId: string,
    version: string,
    artifact: ArtifactDescriptor,
    behavior: ArtifactDescriptor,
    capabilityIds: seq<string>,
    protocols: seq<PackagedProtocol>,
    surfaces: seq<PackagedSurface>,
    payload: Payload)

  /** Serialization of payloads and entries, printing of canonical trees, the hash, and the typed parser. */
  datatype Codec = Codec(
    payloadJson: Payload -> Json,
    entryJson: PackageEntry -> Json,
    render: Json -> Bytes,
    sha256: Bytes -> string,
    parse: Bytes -> Option<Payload>)

  // ---------------------------------------------------------------------------
  // Derived classifications
  // ---------------------------------------------------------------------------

  function EntryKind(e: PackageEntry): string {
    match e
    case RustInproc(_, _, _) => "rust_inproc"
    case Subprocess(_, _) => "subprocess"
    case Wasm(_, _, _) => "wasm"
    case Remote(_, _, _) => "remote"
    case SurfaceBundle(_) => "surface_bundle"
  }

  function TrustClassFor(contract: ContractMode, e: PackageEntry): TrustClass {
    if contract == NoContract then ForeignCapsule
    else match e
      case RustInproc(_, _, _) => TrustedNative
      case Subprocess(_, _) => IsolatedProcess
      case Wasm(_, _, _) => SandboxedComponent
      case Remote(_, _, _) => RemoteBoundary
      case SurfaceBundle(_) => StaticResource
  }

  const NO_CLAIMS := BoundaryClaims(false, false, false, false, false, false, false, false)

  function BoundariesOf(t: TrustClass): BoundaryClaims {
    match t
    case IsolatedProcess => NO_CLAIMS.(processFailureIsolation := true)
    case StaticResource => NO_CLAIMS.(noCodeExecution := true)
    case _ => NO_CLAIMS
  }

  // ---------------------------------------------------------------------------
  // The documents
  // ---------------------------------------------------------------------------

  function Map<T, U>(xs: seq<T>, f: T -> U): (r: seq<U>)
    ensures |r| == |xs| && forall i :: 0 <= i < |xs| ==> r[i] == f(xs[i])
  {
    seq(|xs|, i requires 0 <= i < |xs| => f(xs[i]))
  }

  function Strings(xs: seq<string>): Json {
    Arr(Map(xs, (x: string) => Str(x)))
  }

  /** A list field that is left out when empty. */
  function Optional(key: string, xs: seq<string>): seq<Member> {
    if xs == [] then [] else [Member(key, Strings(xs))]
  }

  function ProtocolJson(p: ProtocolImplementation): Json {
    Obj([Member("protocol_id", Str(p.protocolId)), Member("version", Str(p.version))]
        + Optional("profiles", p.profiles) + Optional("conformance_vectors", p.vectors))
  }

  function SurfaceJson(s: Surface): Json {
    Obj([Member("id", Str(s.id)), Member("version", Str(s.version)), Member("slot", Str(s.slot)),
         Member("title", Str(s.title)), Member("description", s.description), Member("capability_id", s.capabilityId)]
        + Optional("allowed_capability_ids", s.allowedCapabilityIds)
        + [Member("activation", s.activation), Member("required_permissions", s.requiredPermissions),
           Member("approval_policy", s.approvalPolicy), Member("metadata", s.metadata)])
  }

  function ClaimJson(c: Capability): Json {
    Obj([Member("id", Str(c.id)), Member("version", Str(c.version)), Member("input_schema", c.inputSchema),
         Member("output_schema", c.outputSchema), Member("streaming", Bool(c.streaming)),
         Member("side_effects", Strings(c.sideEffects))])
  }

  function BehaviorJson(id: string, version: string, capabilityIds: seq<string>, claims: seq<Capability>,
                        protocolDigests: seq<string>): Json {
    Obj([Member("component_id", Str(id)), Member("version", Str(version)),
         Member("capability_ids", Strings(capabilityIds)),
         Member("capability_claims", Arr(Map(claims, (c: Capability) => ClaimJson(c)))),
         Member("protocol_digests", Strings(protocolDigests))])
  }

  /** `canonical_json_bytes`. */
  function CanonicalBytes(codec: Codec, v: Json): Bytes {
    (codec.render)(Canonical(v))
  }

  function DigestOf(codec: Codec, v: Json): string {
    (codec.sha256)(CanonicalBytes(codec, v))
  }

  function JsonArtifact(codec: Codec, typeUri: string, v: Json, references: seq<string>, key: string, name: string)
    : ArtifactDescriptor
  {
    ArtifactDescriptor(typeUri, JSON_MEDIA_TYPE, DigestOf(codec, v), |CanonicalBytes(codec, v)|, references,
                       [Member(key, Str(name))])
  }

  // ---------------------------------------------------------------------------
  // Normal forms of the declared lists
  // ---------------------------------------------------------------------------

  function StringOrder(): Order<string> {
    Lex(CharOrder())
  }

  function NormalStrings(xs: seq<string>): seq<string> {
    SortDedup(xs, StringOrder())
  }

  function NormalProtocol(p: ProtocolImplementation): ProtocolImplementation {
    p.(profiles := NormalStrings(p.profiles), vectors := NormalStrings(p.vectors))
  }

  function ProtocolKey(p: ProtocolImplementation): seq<seq<string>> {
    [[p.protocolId], [p.version], p.profiles, p.vectors]
  }

  function ProtocolOrder(): Order<ProtocolImplementation> {
    (a: ProtocolImplementation, b: ProtocolImplementation) => LexLess(ProtocolKey(a), ProtocolKey(b), Lex(StringOrder()))
  }

  function NormalProtocols(ps: seq<ProtocolImplementation>): seq<ProtocolImplementation> {
    SortDedup(Map(ps, NormalProtocol), ProtocolOrder())
  }

  function RootKey(d: ArtifactDescriptor): seq<string> {
    [d.digest, d.typeUri, d.mediaType]
  }

  function RootOrder(): Order<ArtifactDescriptor> {
    (a: ArtifactDescriptor, b: ArtifactDescriptor) => LexLess(RootKey(a), RootKey(b), StringOrder())
  }

  function SameDigest(): Order<ArtifactDescriptor> {
    (a: ArtifactDescriptor, b: ArtifactDescriptor) => a.digest == b.digest
  }

  function NormalRoots(ds: seq<ArtifactDescriptor>): seq<ArtifactDescriptor> {
    Dedup(Sort(ds, RootOrder()), SameDigest())
  }

  function NormalClaim(c: Capability): Capability {
    c.(sideEffects := NormalStrings(c.sideEffects))
  }

  function ClaimKey(c: Capability): seq<string> {
    [c.id, c.version]
  }

  function ClaimOrder(): Order<Capability> {
    (a: Capability, b: Capability) => LexLess(ClaimKey(a), ClaimKey(b), StringOrder())
  }

  /** The claims about the capabilities in `ids`, in manifest order. */
  function ClaimsIn(provided: seq<Capability>, ids: set<string>): seq<Capability> {
    if provided == [] then []
    else
      var last := provided[|provided| - 1];
      ClaimsIn(provided[..|provided| - 1], ids) + (if last.id in ids then [NormalClaim(last)] else [])
  }

  function NormalClaims(provided: seq<Capability>, ids: seq<string>): seq<Capability> {
    Sort(ClaimsIn(provided, Elements(ids)), ClaimOrder())
  }

  /** What a declaration that names no capabilities or surfaces stands for. */
  function DeclaredCapabilities(m: Manifest, d: Declaration): seq<string> {
    if d.capabilityIds == [] then Map(m.provided, (c: Capability) => c.id) else d.capabilityIds
  }

  function DeclaredSurfaces(m: Manifest, d: Declaration): seq<string> {
    if d.surfaceIds == [] then Map(m.surfaces, (s: Surface) => s.id) else d.surfaceIds
  }

  function CapabilityIds(m: Manifest, d: Declaration): seq<string> {
    NormalStrings(DeclaredCapabilities(m, d))
  }

  function SurfaceIds(m: Manifest, d: Declaration): seq<string> {
    NormalStrings(DeclaredSurfaces(m, d))
  }

  function Protocols(m: Manifest, d: Declaration): seq<ProtocolImplementation> {
    if TrustClassFor(m.contract, m.entry) == ForeignCapsule then [] else NormalProtocols(d.protocols)
  }

  /** The first contributed surface with this id. */
  function FindSurface(surfaces: seq<Surface>, id: string): (r: Option<Surface>)
    ensures r.Some? ==> r.value in surfaces && r.value.id == id
    ensures r.None? ==> forall s :: s in surfaces ==> s.id != id
  {
    if surfaces == [] then None
    else if surfaces[0].id == id then Some(surfaces[0])
    else FindSurface(surfaces[1..], id)
  }

  function FindSurfaces(surfaces: seq<Surface>, ids: seq<string>): (r: Outcome<seq<Surface>>)
    ensures r.Ok? ==> |r.value| == |ids| && forall i :: 0 <= i < |ids| ==> Some(r.value[i]) == FindSurface(surfaces, ids[i])
  {
    if ids == [] then Ok([])
    else match FindSurfaces(surfaces, ids[..|ids| - 1])
      case Err(why) => Err(why)
      case Ok(found) =>
        match FindSurface(surfaces, ids[|ids| - 1])
        case None => Err("component surface not found")
        case Some(s) => Ok(found + [s])
  }

  // ---------------------------------------------------------------------------
  // build_component_descriptor
  // ---------------------------------------------------------------------------

  function PackProtocol(codec: Codec, p: ProtocolImplementation): PackagedProtocol {
    PackagedProtocol(p, JsonArtifact(codec, PROTOCOL_TYPE_URI, ProtocolJson(p), [], "protocol_id", p.protocolId))
  }

  function PackSurface(codec: Codec, s: Surface): PackagedSurface {
    PackagedSurface(s.id, s.version, JsonArtifact(codec, SURFACE_TYPE_URI, SurfaceJson(s), [], "surface_id", s.id))
  }

  function Artifacts(ps: seq<PackagedProtocol>): seq<ArtifactDescriptor> {
    Map(ps, (p: PackagedProtocol) => p.artifact)
  }

  function SurfaceArtifacts(ss: seq<PackagedSurface>): seq<ArtifactDescriptor> {
    Map(ss, (s: PackagedSurface) => s.artifact)
  }

  function DigestList(ds: seq<ArtifactDescriptor>): seq<string> {
    Map(ds, (d: ArtifactDescriptor) => d.digest)
  }

  /** Everything the result depends on: the normalized declaration. */
  datatype Normal = Normal(
    id: string,
    version: string,
    entry: PackageEntry,
    contract: ContractMode,
    capabilityIds: seq<string>,
    claims: seq<Capability>,
    protocols: seq<ProtocolImplementation>,
    contentRoots: seq<ArtifactDescriptor>,
    surfaces: seq<Surface>,
    annotations: seq<Member>)

  function Normalize(m: Manifest, d: Declaration): Outcome<Normal> {
    match FindSurfaces(m.surfaces, SurfaceIds(m, d))
    case Err(why) => Err(why)
    case Ok(surfaces) =>
      Ok(Normal(d.id, d.version, m.entry, m.contract, CapabilityIds(m, d),
                NormalClaims(m.provided, CapabilityIds(m, d)), Protocols(m, d), NormalRoots(d.contentRoots), surfaces,
                d.annotations))
  }

  function BehaviorDocument(codec: Codec, n: Normal): Json {
    BehaviorJson(n.id, n.version, n.capabilityIds, n.claims, DigestList(Artifacts(PackProtocols(codec, n))))
  }

  function PackProtocols(codec: Codec, n: Normal): seq<PackagedProtocol> {
    Map(n.protocols, (p: ProtocolImplementation) => PackProtocol(codec, p))
  }

  function PackSurfaces(codec: Codec, n: Normal): seq<PackagedSurface> {
    Map(n.surfaces, (s: Surface) => PackSurface(codec, s))
  }

  function BehaviorOf(codec: Codec, n: Normal): ArtifactDescriptor {
    JsonArtifact(codec, BEHAVIOR_TYPE_URI, BehaviorDocument(codec, n), DigestList(Artifacts(PackProtocols(codec, n))),
                 "component_id", n.id)
  }

  function PayloadOf(codec: Codec, n: Normal, explicit: bool): Payload {
    var trust := TrustClassFor(n.contract, n.entry);
    var status := if trust == ForeignCapsule then ForeignStatus else if explicit then Declared else LegacyAdapted;
    Payload(n.id, n.version, BehaviorOf(codec, n), EntryKind(n.entry), n.entry, n.contract, trust, status,
            BoundariesOf(trust), Artifacts(PackProtocols(codec, n)), n.contentRoots,
            SurfaceArtifacts(PackSurfaces(codec, n)), n.annotations)
  }

  /** The digests an artifact refers to: behavior, protocols, content roots, surfaces. */
  function ReferencesOf(p: Payload): seq<string> {
    [p.behavior.digest] + DigestList(p.protocolArtifacts) + DigestList(p.contentRoots) + DigestList(p.surfaceArtifacts)
  }

  function DescriptorOf(codec: Codec, n: Normal, explicit: bool): ComponentDescriptor {
    var payload := PayloadOf(codec, n, explicit);
    ComponentDescriptor(
      n.id, n.version,
      JsonArtifact(codec, DESCRIPTOR_TYPE_URI, (codec.payloadJson)(payload), ReferencesOf(payload), "component_id", n.id),
      payload.behavior, n.capabilityIds, PackProtocols(codec, n), PackSurfaces(codec, n), payload)
  }

  function Build(codec: Codec, m: Manifest, d: Declaration, explicit: bool): Outcome<ComponentDescriptor> {
    match Normalize(m, d)
    case Err(why) => Err(why)
    case Ok(n) => Ok(DescriptorOf(codec, n, explicit))
  }

  /** The loop that sorts and dedups the lists inside every protocol implementation. */
  method NormalizeEach(ps: seq<ProtocolImplementation>) returns (r: seq<ProtocolImplementation>)
    ensures r == Map(ps, NormalProtocol)
  {
    r := [];
    for i := 0 to |ps|
      invariant |r| == i && forall k :: 0 <= k < i ==> r[k] == NormalProtocol(ps[k])
    {
      r := r + [NormalProtocol(ps[i])];
    }
  }

  /** The declaration's lists, rewritten in place one after the other. */
  method NormalizeDeclaration(m: Manifest, declared: Declaration) returns (d: Declaration)
    ensures d == declared.(capabilityIds := CapabilityIds(m, declared), surfaceIds := SurfaceIds(m, declared),
                           protocols := Protocols(m, declared), contentRoots := NormalRoots(declared.contentRoots))
  {
    d := declared;
    if d.capabilityIds == [] {
      d := d.(capabilityIds := Map(m.provided, (c: Capability) => c.id));
    }
    if d.surfaceIds == [] {
      d := d.(surfaceIds := Map(m.surfaces, (s: Surface) => s.id));
    }
    d := d.(capabilityIds := NormalStrings(d.capabilityIds));
    d := d.(surfaceIds := NormalStrings(d.surfaceIds));
    var implementations := NormalizeEach(d.protocols);
    d := d.(protocols := SortDedup(implementations, ProtocolOrder()));
    d := d.(contentRoots := NormalRoots(d.contentRoots));
    if TrustClassFor(m.contract, m.entry) == ForeignCapsule {
      d := d.(protocols := []);
    }
  }

  method BuildComponentDescriptor(codec: Codec, m: Manifest, declared: Declaration, explicit: bool)
    returns (r: Outcome<ComponentDescriptor>)
    ensures r == Build(codec, m, declared, explicit)
  {
    var d := NormalizeDeclaration(m, declared);
    var surfaces := FindSurfaces(m.surfaces, d.surfaceIds);
    if surfaces.Err? {
      return Err(surfaces.reason);
    }
    var n := Normal(d.id, d.version, m.entry, m.contract, d.capabilityIds, NormalClaims(m.provided, d.capabilityIds),
                    d.protocols, d.contentRoots, surfaces.value, d.annotations);
    assert Normalize(m, declared) == Ok(n);
    r := Ok(DescriptorOf(codec, n, explicit));
  }
}
