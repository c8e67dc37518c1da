/** What the build writes, the decoder accepts: exactly when the declaration is presentable. */
module ComponentLaws {
  import opened Basics
  import opened Sorting
  import opened Json
  import opened JsonCanon
  import opened Artifact
  import opened Component
  import opened ComponentOrder
  import opened ComponentDecode

  // ---------------------------------------------------------------------------
  // Telling documents apart
  // ---------------------------------------------------------------------------

  lemma SameField(ms: seq<Member>, ns: seq<Member>, key: string)
    requires Canonical(Obj(ms)) == Canonical(Obj(ns))
    ensures CanonicalOption(Get(ms, key)) == CanonicalOption(Get(ns, key))
  {
    assert CanonicalMembers(ms) == CanonicalMembers(ns);
    calc {
      CanonicalOption(Get(ms, key));
      { GetCanonical(ms, key); }
      Get(CanonicalMembers(ms), key);
      { GetCanonical(ns, key); }
      CanonicalOption(Get(ns, key));
    }
  }

  lemma StringsAreCanonical(xs: seq<string>)
    ensures Canonical(Strings(xs)) == Strings(xs)
  {
    var items := Strings(xs).items;
    forall i | 0 <= i < |items| ensures CanonicalItems(items)[i] == items[i] {
      ItemsAt(items, i);
    }
  }

  lemma StringsInjective(xs: seq<string>, ys: seq<string>)
    requires Strings(xs) == Strings(ys)
    ensures xs == ys
  {
    var a, b := Strings(xs).items, Strings(ys).items;
    forall i | 0 <= i < |xs| ensures xs[i] == ys[i] {
      assert a[i] == b[i];
    }
  }

  function OptionalValue(xs: seq<string>): Option<Json> {
    if xs == [] then None else Some(Strings(xs))
  }

  lemma OptionalInjective(xs: seq<string>, ys: seq<string>)
    requires CanonicalOption(OptionalValue(xs)) == CanonicalOption(OptionalValue(ys))
    ensures xs == ys
  {
    StringsAreCanonical(xs);
    StringsAreCanonical(ys);
    if xs != [] && ys != [] { StringsInjective(xs, ys); }
  }

  lemma ProtocolField(p: ProtocolImplementation, key: string)
    ensures Get(ProtocolJson(p).members, key) ==
            if key == "conformance_vectors" then OptionalValue(p.vectors)
            else if key == "profiles" then OptionalValue(p.profiles)
            else if key == "version" then Some(Str(p.version))
            else if key == "protocol_id" then Some(Str(p.protocolId))
            else None
  {
    var head := [Member("protocol_id", Str(p.protocolId)), Member("version", Str(p.version))];
    var profiles, vectors := Optional("profiles", p.profiles), Optional("conformance_vectors", p.vectors);
    GetAppend(head + profiles, vectors, key);
    GetAppend(head, profiles, key);
    assert head[..1] == [head[0]];
  }

  lemma ProtocolJsonInjective(p: ProtocolImplementation, q: ProtocolImplementation)
    requires Canonical(ProtocolJson(p)) == Canonical(ProtocolJson(q))
    ensures p == q
  {
    ProtocolFieldsAgree(p, q, "protocol_id");
    ProtocolFieldsAgree(p, q, "version");
    ProtocolFieldsAgree(p, q, "profiles");
    ProtocolFieldsAgree(p, q, "conformance_vectors");
    OptionalInjective(p.profiles, q.profiles);
    OptionalInjective(p.vectors, q.vectors);
  }

  lemma ProtocolFieldsAgree(p: ProtocolImplementation, q: ProtocolImplementation, key: string)
    requires Canonical(ProtocolJson(p)) == Canonical(ProtocolJson(q))
    ensures key == "protocol_id" ==> p.protocolId == q.protocolId
    ensures key == "version" ==> p.version == q.version
    ensures key == "profiles" ==> CanonicalOption(OptionalValue(p.profiles)) == CanonicalOption(OptionalValue(q.profiles))
    ensures key == "conformance_vectors" ==>
              CanonicalOption(OptionalValue(p.vectors)) == CanonicalOption(OptionalValue(q.vectors))
  {
    ProtocolField(p, key);
    ProtocolField(q, key);
    SameField(ProtocolJson(p).members, ProtocolJson(q).members, key);
  }

  lemma SurfaceField(s: Surface)
    ensures Get(SurfaceJson(s).members, "id") == Some(Str(s.id))
    ensures Get(SurfaceJson(s).members, "protocol_id").None? && Get(SurfaceJson(s).members, "component_id").None?
  {
    var ms := SurfaceJson(s).members;
    assert ms[0] == Member("id", Str(s.id));
    forall i | 0 < i < |ms| ensures |ms[i].key| > 2 {}
    assert forall i :: 0 <= i < |ms| ==> ms[i].key != "protocol_id" && ms[i].key != "component_id";
  }

  lemma BehaviorField(codec: Codec, n: Normal)
    ensures Get(BehaviorDocument(codec, n).members, "component_id").Some?
  {
    assert BehaviorDocument(codec, n).members[0].key == "component_id";
  }

  // ---------------------------------------------------------------------------
  // Normalized declarations repeat nothing
  // ---------------------------------------------------------------------------

  lemma RootsByDigest(ds: seq<ArtifactDescriptor>, i: nat, j: nat)
    requires i < j < |ds| && NoneBelow(ds, RootOrder())
    ensures !StringOrder()(ds[j].digest, ds[i].digest)
  {
    var a, b := RootKey(ds[j]), RootKey(ds[i]);
    assert !LexLess(a, b, StringOrder());
    assert a[0] == ds[j].digest && b[0] == ds[i].digest;
  }

  lemma NormalRootsDistinct(ds: seq<ArtifactDescriptor>)
    ensures Distinct(DigestList(NormalRoots(ds))) && Elements(NormalRoots(ds)) <= Elements(ds)
    ensures Elements(DigestList(NormalRoots(ds))) == Elements(DigestList(ds))
  {
    StringsTotal();
    KeyedWeak(RootKey, Lex(StringOrder()), RootOrder());
    SortNoneBelow(ds, RootOrder());
    SortContents(ds, RootOrder());
    var sorted, key := Sort(ds, RootOrder()), (d: ArtifactDescriptor) => d.digest;
    forall i, j | 0 <= i < j < |sorted| ensures !StringOrder()(key(sorted[j]), key(sorted[i])) {
      RootsByDigest(sorted, i, j);
    }
    DedupKeys(sorted, key, StringOrder(), SameDigest());
    DedupContents(sorted, key, SameDigest());
    AscendDistinct(NormalRoots(ds));
    SameDigests(ds, sorted, NormalRoots(ds));
  }

  lemma AscendDistinct(ds: seq<ArtifactDescriptor>)
    requires KeysAscend(ds, (d: ArtifactDescriptor) => d.digest, StringOrder())
    ensures Distinct(DigestList(ds))
  {
    StringsTotal();
    var key := (d: ArtifactDescriptor) => d.digest;
    forall i, j | 0 <= i < j < |ds| ensures ds[i].digest != ds[j].digest {
      assert StringOrder()(key(ds[i]), key(ds[j]));
    }
  }

  lemma SameDigests(ds: seq<ArtifactDescriptor>, sorted: seq<ArtifactDescriptor>, r: seq<ArtifactDescriptor>)
    requires Elements(sorted) == Elements(ds) && Elements(r) <= Elements(sorted)
    requires Represented(sorted, r, (d: ArtifactDescriptor) => d.digest)
    ensures Elements(r) <= Elements(ds) && Elements(DigestList(r)) == Elements(DigestList(ds))
  {
    var key := (d: ArtifactDescriptor) => d.digest;
    forall g | g in DigestList(ds) ensures g in DigestList(r) {
      var i :| 0 <= i < |ds| && DigestList(ds)[i] == g;
      assert ds[i] in Elements(sorted);
      var y :| y in r && key(y) == key(ds[i]);
      var k :| 0 <= k < |r| && r[k] == y;
      assert DigestList(r)[k] == g;
    }
    forall g | g in DigestList(r) ensures g in DigestList(ds) {
      var k :| 0 <= k < |r| && DigestList(r)[k] == g;
      assert r[k] in Elements(sorted);
      var i :| 0 <= i < |ds| && ds[i] == r[k];
      assert DigestList(ds)[i] == g;
    }
  }

  lemma NormalProtocolsDistinct(ps: seq<ProtocolImplementation>)
    ensures Distinct(NormalProtocols(ps)) && Elements(NormalProtocols(ps)) == Elements(Map(ps, NormalProtocol))
  {
    var mapped := Map(ps, NormalProtocol);
    ProtocolsTotal(Elements(mapped));
    SortDedupStrict(mapped, ProtocolOrder());
    var r := NormalProtocols(ps);
    forall i, j | 0 <= i < j < |r| ensures r[i] != r[j] {
      assert ProtocolOrder()(r[i], r[j]) && r[i] in Elements(r);
    }
  }

  /** Nothing in a normalized declaration appears twice. */
  ghost predicate Repeatless(n: Normal) {
    && Distinct(n.protocols)
    && (forall i, j :: 0 <= i < j < |n.surfaces| ==> n.surfaces[i].id != n.surfaces[j].id)
    && Distinct(DigestList(n.contentRoots))
  }

  lemma NormalizeRepeatless(m: Manifest, d: Declaration)
    requires Normalize(m, d).Ok?
    ensures Repeatless(Normalize(m, d).value)
  {
    NormalProtocolsDistinct(d.protocols);
    NormalStringsStrict(DeclaredSurfaces(m, d));
    NormalRootsDistinct(d.contentRoots);
  }

  // ---------------------------------------------------------------------------
  // Distinct documents have distinct digests
  // ---------------------------------------------------------------------------

  /** The generated documents: behavior, protocols, surfaces. */
  ghost predicate Generated(codec: Codec, n: Normal, v: Json) {
    || v == BehaviorDocument(codec, n)
    || (exists p :: p in n.protocols && v == ProtocolJson(p))
    || (exists s :: s in n.surfaces && v == SurfaceJson(s))
  }

  /** The hash yields well-formed digests and has no collision among the generated documents. */
  ghost predicate HashesApart(codec: Codec, n: Normal) {
    && (forall v :: Generated(codec, n, v) ==> IsSha256(DigestOf(codec, v)))
    && (forall v, w :: Generated(codec, n, v) && Generated(codec, n, w) && DigestOf(codec, v) == DigestOf(codec, w)
          ==> Canonical(v) == Canonical(w))
  }

  function ProtocolDigests(codec: Codec, n: Normal): seq<string> {
    DigestList(Artifacts(PackProtocols(codec, n)))
  }

  function SurfaceDigests(codec: Codec, n: Normal): seq<string> {
    DigestList(SurfaceArtifacts(PackSurfaces(codec, n)))
  }

  lemma ProtocolDigestsDistinct(codec: Codec, n: Normal)
    requires HashesApart(codec, n) && Repeatless(n)
    ensures Distinct(ProtocolDigests(codec, n))
  {
    var ds := ProtocolDigests(codec, n);
    forall i, j | 0 <= i < j < |ds| ensures ds[i] != ds[j] {
      var p, q := n.protocols[i], n.protocols[j];
      assert Generated(codec, n, ProtocolJson(p)) && Generated(codec, n, ProtocolJson(q));
      if ds[i] == ds[j] { ProtocolJsonInjective(p, q); }
    }
  }

  /** A field that differs, canonically, tells two generated documents apart. */
  lemma ToldApart(codec: Codec, n: Normal, ms: seq<Member>, ns: seq<Member>, key: string)
    requires HashesApart(codec, n) && Generated(codec, n, Obj(ms)) && Generated(codec, n, Obj(ns))
    requires CanonicalOption(Get(ms, key)) != CanonicalOption(Get(ns, key))
    ensures DigestOf(codec, Obj(ms)) != DigestOf(codec, Obj(ns))
  {
    if DigestOf(codec, Obj(ms)) == DigestOf(codec, Obj(ns)) { SameField(ms, ns, key); }
  }

  lemma SurfacesToldApart(codec: Codec, n: Normal, s: Surface, t: Surface)
    requires HashesApart(codec, n) && s in n.surfaces && t in n.surfaces && s.id != t.id
    ensures DigestOf(codec, SurfaceJson(s)) != DigestOf(codec, SurfaceJson(t))
  {
    SurfaceField(s);
    SurfaceField(t);
    ToldApart(codec, n, SurfaceJson(s).members, SurfaceJson(t).members, "id");
  }

  lemma SurfaceDigestsDistinct(codec: Codec, n: Normal)
    requires HashesApart(codec, n) && Repeatless(n)
    ensures Distinct(SurfaceDigests(codec, n))
  {
    var ds := SurfaceDigests(codec, n);
    forall i, j | 0 <= i < j < |ds| ensures ds[i] != ds[j] {
      SurfacesToldApart(codec, n, n.surfaces[i], n.surfaces[j]);
    }
  }

  lemma BehaviorNotProtocol(codec: Codec, n: Normal, p: ProtocolImplementation)
    requires HashesApart(codec, n) && p in n.protocols
    ensures DigestOf(codec, BehaviorDocument(codec, n)) != DigestOf(codec, ProtocolJson(p))
  {
    BehaviorField(codec, n);
    ProtocolField(p, "component_id");
    ToldApart(codec, n, BehaviorDocument(codec, n).members, ProtocolJson(p).members, "component_id");
  }

  lemma BehaviorNotSurface(codec: Codec, n: Normal, s: Surface)
    requires HashesApart(codec, n) && s in n.surfaces
    ensures DigestOf(codec, BehaviorDocument(codec, n)) != DigestOf(codec, SurfaceJson(s))
  {
    BehaviorField(codec, n);
    SurfaceField(s);
    ToldApart(codec, n, BehaviorDocument(codec, n).members, SurfaceJson(s).members, "component_id");
  }

  lemma BehaviorApart(codec: Codec, n: Normal)
    requires HashesApart(codec, n)
    ensures BehaviorOf(codec, n).digest !in ProtocolDigests(codec, n)
    ensures BehaviorOf(codec, n).digest !in SurfaceDigests(codec, n)
  {
    var ps, ss := ProtocolDigests(codec, n), SurfaceDigests(codec, n);
    forall i | 0 <= i < |ps| ensures BehaviorOf(codec, n).digest != ps[i] {
      BehaviorNotProtocol(codec, n, n.protocols[i]);
    }
    forall i | 0 <= i < |ss| ensures BehaviorOf(codec, n).digest != ss[i] {
      BehaviorNotSurface(codec, n, n.surfaces[i]);
    }
  }

  lemma KindsToldApart(codec: Codec, n: Normal, s: Surface, p: ProtocolImplementation)
    requires HashesApart(codec, n) && s in n.surfaces && p in n.protocols
    ensures DigestOf(codec, SurfaceJson(s)) != DigestOf(codec, ProtocolJson(p))
  {
    SurfaceField(s);
    ProtocolField(p, "protocol_id");
    ToldApart(codec, n, SurfaceJson(s).members, ProtocolJson(p).members, "protocol_id");
  }

  lemma SurfacesApart(codec: Codec, n: Normal)
    requires HashesApart(codec, n)
    ensures Elements(SurfaceDigests(codec, n)) !! Elements(ProtocolDigests(codec, n))
  {
    var ss, ps := SurfaceDigests(codec, n), ProtocolDigests(codec, n);
    forall i, j | 0 <= i < |ss| && 0 <= j < |ps| ensures ss[i] != ps[j] {
      KindsToldApart(codec, n, n.surfaces[i], n.protocols[j]);
    }
  }

  // ---------------------------------------------------------------------------
  // Decoding what was built
  // ---------------------------------------------------------------------------

  /** An annotation that names something may be stored. */
  ghost predicate PortableName(policy: Policy, key: string, name: string) {
    PortableMember(policy, Member(key, Str(name)))
  }

  ghost predicate ProtocolsNamed(policy: Policy, ps: seq<ProtocolImplementation>) {
    forall i :: 0 <= i < |ps| ==> PortableName(policy, "protocol_id", ps[i].protocolId)
  }

  ghost predicate SurfacesNamed(policy: Policy, ss: seq<Surface>) {
    forall i :: 0 <= i < |ss| ==> PortableName(policy, "surface_id", ss[i].id)
  }

  lemma OneAnnotation(policy: Policy, key: string, name: string)
    ensures Portable(policy, Obj([Member(key, Str(name))]), None) <==> PortableName(policy, key, name)
    ensures Get([Member(key, Str(name))], key) == Some(Str(name))
  {
    var ms := [Member(key, Str(name))];
    assert ms[0] == Member(key, Str(name));
  }

  lemma NotBlank(s: string)
    requires s != [] && !IsWhitespace(s[0])
    ensures !Blank(s)
  {
  }

  lemma ConstantsNotBlank(e: PackageEntry)
    ensures !Blank(EntryKind(e)) && !Blank(JSON_MEDIA_TYPE)
    ensures !Blank(BEHAVIOR_TYPE_URI) && !Blank(PROTOCOL_TYPE_URI) && !Blank(SURFACE_TYPE_URI)
  {
    NotBlank(EntryKind(e));
    NotBlank(JSON_MEDIA_TYPE);
    NotBlank(BEHAVIOR_TYPE_URI);
    NotBlank(PROTOCOL_TYPE_URI);
    NotBlank(SURFACE_TYPE_URI);
  }

  lemma LeafReference(codec: Codec, policy: Policy, typeUri: string, v: Json, key: string, name: string)
    requires IsSha256(DigestOf(codec, v)) && !Blank(typeUri) && !Blank(JSON_MEDIA_TYPE)
    ensures ValidReference(policy, JsonArtifact(codec, typeUri, v, [], key, name)) <==> PortableName(policy, key, name)
  {
    OneAnnotation(policy, key, name);
  }

  lemma BehaviorReference(codec: Codec, policy: Policy, n: Normal)
    requires HashesApart(codec, n) && Repeatless(n)
    ensures ValidReference(policy, BehaviorOf(codec, n)) <==> PortableName(policy, "component_id", n.id)
  {
    ConstantsNotBlank(n.entry);
    OneAnnotation(policy, "component_id", n.id);
    ProtocolDigestsDistinct(codec, n);
    BehaviorApart(codec, n);
    assert IsSha256(DigestOf(codec, BehaviorDocument(codec, n)));
    ProtocolDigestsValid(codec, n);
  }

  lemma ProtocolDigestsValid(codec: Codec, n: Normal)
    requires HashesApart(codec, n)
    ensures AllSha256(ProtocolDigests(codec, n))
  {
    forall i | 0 <= i < |n.protocols| ensures IsSha256(DigestOf(codec, ProtocolJson(n.protocols[i]))) {
      assert Generated(codec, n, ProtocolJson(n.protocols[i]));
    }
  }

  lemma ProtocolReferences(codec: Codec, policy: Policy, n: Normal)
    requires HashesApart(codec, n)
    ensures ValidReferences(policy, Artifacts(PackProtocols(codec, n)), Some(PROTOCOL_TYPE_URI)) <==>
            ProtocolsNamed(policy, n.protocols)
  {
    ConstantsNotBlank(n.entry);
    ProtocolDigestsValid(codec, n);
    var ds := Artifacts(PackProtocols(codec, n));
    forall i | 0 <= i < |ds|
      ensures Typed(ds[i], Some(PROTOCOL_TYPE_URI))
      ensures ValidReference(policy, ds[i]) <==> PortableName(policy, "protocol_id", n.protocols[i].protocolId)
    {
      assert ProtocolDigests(codec, n)[i] == ds[i].digest;
      LeafReference(codec, policy, PROTOCOL_TYPE_URI, ProtocolJson(n.protocols[i]), "protocol_id", n.protocols[i].protocolId);
    }
  }

  lemma SurfaceReferences(codec: Codec, policy: Policy, n: Normal)
    requires HashesApart(codec, n)
    ensures ValidReferences(policy, SurfaceArtifacts(PackSurfaces(codec, n)), Some(SURFACE_TYPE_URI)) <==>
            SurfacesNamed(policy, n.surfaces)
  {
    ConstantsNotBlank(n.entry);
    var ds := SurfaceArtifacts(PackSurfaces(codec, n));
    forall i | 0 <= i < |ds|
      ensures Typed(ds[i], Some(SURFACE_TYPE_URI))
      ensures ValidReference(policy, ds[i]) <==> PortableName(policy, "surface_id", n.surfaces[i].id)
    {
      assert Generated(codec, n, SurfaceJson(n.surfaces[i]));
      LeafReference(codec, policy, SURFACE_TYPE_URI, SurfaceJson(n.surfaces[i]), "surface_id", n.surfaces[i].id);
    }
  }

  ghost function GeneratedDigests(codec: Codec, n: Normal): set<string> {
    {BehaviorOf(codec, n).digest} + Elements(ProtocolDigests(codec, n)) + Elements(SurfaceDigests(codec, n))
  }

  lemma ReferencesDistinct(codec: Codec, n: Normal, explicit: bool)
    requires HashesApart(codec, n) && Repeatless(n)
    ensures Distinct(ReferencesOf(PayloadOf(codec, n, explicit))) <==>
            Elements(DigestList(n.contentRoots)) !! GeneratedDigests(codec, n)
  {
    ReferencesSplit(PayloadOf(codec, n, explicit));
    ProtocolDigestsDistinct(codec, n);
    SurfaceDigestsDistinct(codec, n);
    BehaviorApart(codec, n);
    SurfacesApart(codec, n);
  }

  ghost predicate AllSha256(xs: seq<string>) {
    forall i :: 0 <= i < |xs| ==> IsSha256(xs[i])
  }

  lemma SurfaceDigestsValid(codec: Codec, n: Normal)
    requires HashesApart(codec, n)
    ensures AllSha256(SurfaceDigests(codec, n))
  {
    forall i | 0 <= i < |n.surfaces| ensures IsSha256(DigestOf(codec, SurfaceJson(n.surfaces[i]))) {
      assert Generated(codec, n, SurfaceJson(n.surfaces[i]));
    }
  }

  lemma RootDigestsValid(policy: Policy, ds: seq<ArtifactDescriptor>)
    requires ValidReferences(policy, ds, None)
    ensures AllSha256(DigestList(ds))
  {
    forall i | 0 <= i < |ds| ensures IsSha256(ds[i].digest) {
      assert ValidReference(policy, ds[i]);
    }
  }

  lemma AllAppend(xs: seq<string>, ys: seq<string>)
    requires AllSha256(xs) && AllSha256(ys)
    ensures AllSha256(xs + ys)
  {
  }

  lemma ReferencesValid(codec: Codec, policy: Policy, n: Normal, explicit: bool)
    requires HashesApart(codec, n) && ValidReferences(policy, n.contentRoots, None)
    ensures AllSha256(ReferencesOf(PayloadOf(codec, n, explicit)))
  {
    var b, ps, rs, ss := [BehaviorOf(codec, n).digest], ProtocolDigests(codec, n), DigestList(n.contentRoots),
                         SurfaceDigests(codec, n);
    ProtocolDigestsValid(codec, n);
    SurfaceDigestsValid(codec, n);
    RootDigestsValid(policy, n.contentRoots);
    assert IsSha256(DigestOf(codec, BehaviorDocument(codec, n)));
    AllAppend(b, ps);
    AllAppend(b + ps, rs);
    AllAppend(b + ps + rs, ss);
  }

  lemma ReferencesListed(codec: Codec, policy: Policy, n: Normal, explicit: bool)
    requires HashesApart(codec, n) && ValidReferences(policy, n.contentRoots, None)
    ensures var references := ReferencesOf(PayloadOf(codec, n, explicit));
            Lists(references, Elements(references)) <==> Distinct(references)
  {
    ReferencesValid(codec, policy, n, explicit);
  }

  /** A component with a usable name and version, whose settings may leave the host. */
  ghost predicate Identified(codec: Codec, policy: Policy, id: string, version: string, entry: PackageEntry,
                             annotations: seq<Member>) {
    && !Blank(id) && !Blank(version)
    && Portable(policy, Arr([(codec.entryJson)(entry), Obj(annotations)]), None)
    && PortableName(policy, "component_id", id)
  }

  /** What a normalized declaration must be for its artifact to decode. */
  ghost predicate PresentableNormal(codec: Codec, policy: Policy, n: Normal) {
    && Identified(codec, policy, n.id, n.version, n.entry, n.annotations)
    && ProtocolsNamed(policy, n.protocols)
    && SurfacesNamed(policy, n.surfaces)
    && ValidReferences(policy, n.contentRoots, None)
    && Elements(DigestList(n.contentRoots)) !! GeneratedDigests(codec, n)
  }

  lemma BuiltIsClassified(codec: Codec, n: Normal, explicit: bool)
    requires n.contract == NoContract ==> n.protocols == []
    ensures Classified(PayloadOf(codec, n, explicit)) <==> !Blank(n.id) && !Blank(n.version)
  {
    ConstantsNotBlank(n.entry);
    ForeignMeans(n.contract, n.entry);
    assert n.protocols == [] ==> Artifacts(PackProtocols(codec, n)) == [];
  }

  lemma BuiltIsSound(codec: Codec, policy: Policy, n: Normal, explicit: bool)
    requires HashesApart(codec, n) && Repeatless(n)
    ensures SoundReferences(policy, PayloadOf(codec, n, explicit)) <==>
      && PortableName(policy, "component_id", n.id)
      && ProtocolsNamed(policy, n.protocols)
      && SurfacesNamed(policy, n.surfaces)
      && ValidReferences(policy, n.contentRoots, None)
      && Elements(DigestList(n.contentRoots)) !! GeneratedDigests(codec, n)
  {
    BehaviorReference(codec, policy, n);
    ProtocolReferences(codec, policy, n);
    SurfaceReferences(codec, policy, n);
    ReferencesDistinct(codec, n, explicit);
  }

  function BytesOf(codec: Codec, c: ComponentDescriptor): Bytes {
    CanonicalBytes(codec, (codec.payloadJson)(c.payload))
  }

  lemma NormalDecodes(codec: Codec, policy: Policy, n: Normal, explicit: bool)
    requires HashesApart(codec, n) && Repeatless(n) && (n.contract == NoContract ==> n.protocols == [])
    ensures var c := DescriptorOf(codec, n, explicit);
            Decodes(codec, policy, c.artifact, BytesOf(codec, c), c.payload) <==> PresentableNormal(codec, policy, n)
  {
    var c := DescriptorOf(codec, n, explicit);
    BuiltIsClassified(codec, n, explicit);
    BuiltIsSound(codec, policy, n, explicit);
    OneAnnotation(policy, "component_id", n.id);
    if SoundReferences(policy, c.payload) {
      ReferencesListed(codec, policy, n, explicit);
    }
    assert Describes(codec, c.artifact, BytesOf(codec, c), c.payload);
  }

  ghost predicate IdsNamed(policy: Policy, ids: seq<string>) {
    forall id :: id in ids ==> PortableName(policy, "surface_id", id)
  }

  /** What a declaration must be, before anything is built, for its artifact to decode. */
  ghost predicate Presentable(codec: Codec, policy: Policy, m: Manifest, d: Declaration)
    requires Normalize(m, d).Ok?
  {
    && Identified(codec, policy, d.id, d.version, m.entry, d.annotations)
    && (m.contract == V1 ==> ProtocolsNamed(policy, d.protocols))
    && IdsNamed(policy, DeclaredSurfaces(m, d))
    && ValidReferences(policy, NormalRoots(d.contentRoots), None)
    && Elements(DigestList(d.contentRoots)) !! GeneratedDigests(codec, Normalize(m, d).value)
  }

  lemma ProtocolNames(policy: Policy, ps: seq<ProtocolImplementation>)
    ensures ProtocolsNamed(policy, ps) <==> ProtocolsNamed(policy, NormalProtocols(ps))
  {
    NormalProtocolsDistinct(ps);
    var r, mapped := NormalProtocols(ps), Map(ps, NormalProtocol);
    forall i | 0 <= i < |r| ensures exists k :: 0 <= k < |ps| && ps[k].protocolId == r[i].protocolId {
      assert r[i] in Elements(mapped);
      var k :| 0 <= k < |ps| && mapped[k] == r[i];
    }
    forall k | 0 <= k < |ps| ensures exists i :: 0 <= i < |r| && ps[k].protocolId == r[i].protocolId {
      assert mapped[k] in Elements(r);
      var i :| 0 <= i < |r| && r[i] == mapped[k];
    }
  }

  lemma SurfaceNames(policy: Policy, m: Manifest, d: Declaration)
    requires Normalize(m, d).Ok?
    ensures IdsNamed(policy, DeclaredSurfaces(m, d)) <==> SurfacesNamed(policy, Normalize(m, d).value.surfaces)
  {
    NormalStringsStrict(DeclaredSurfaces(m, d));
    var ids, ss := SurfaceIds(m, d), Normalize(m, d).value.surfaces;
    assert forall i :: 0 <= i < |ss| ==> ss[i].id == ids[i];
    forall id ensures id in DeclaredSurfaces(m, d) <==> exists i :: 0 <= i < |ss| && ss[i].id == id {
      assert id in DeclaredSurfaces(m, d) <==> id in Elements(ids);
      assert id in ids <==> exists i :: 0 <= i < |ss| && ss[i].id == id;
    }
  }

  lemma PresentableMeans(codec: Codec, policy: Policy, m: Manifest, d: Declaration)
    requires Normalize(m, d).Ok?
    ensures Presentable(codec, policy, m, d) <==> PresentableNormal(codec, policy, Normalize(m, d).value)
  {
    var n := Normalize(m, d).value;
    KeptProtocolsNamed(policy, m, d);
    SurfaceNames(policy, m, d);
    NormalRootsDistinct(d.contentRoots);
  }

  lemma ForeignMeans(contract: ContractMode, entry: PackageEntry)
    ensures TrustClassFor(contract, entry) == ForeignCapsule <==> contract == NoContract
  {
  }

  lemma KeptProtocolsNamed(policy: Policy, m: Manifest, d: Declaration)
    ensures ProtocolsNamed(policy, Protocols(m, d)) <==> (m.contract == V1 ==> ProtocolsNamed(policy, d.protocols))
  {
    ForeignMeans(m.contract, m.entry);
    ProtocolNames(policy, d.protocols);
  }

  /** A built artifact decodes to its own payload exactly when the declaration was presentable. */
  lemma BuiltDecodes(codec: Codec, policy: Policy, m: Manifest, d: Declaration, explicit: bool)
    requires Normalize(m, d).Ok? && HashesApart(codec, Normalize(m, d).value)
    requires var c := DescriptorOf(codec, Normalize(m, d).value, explicit); (codec.parse)(BytesOf(codec, c)) == Some(c.payload)
    ensures Build(codec, m, d, explicit).Ok?
    ensures var c := Build(codec, m, d, explicit).value;
            Decoded(codec, policy, c.artifact, BytesOf(codec, c)) ==
            if Presentable(codec, policy, m, d) then Some(c.payload) else None
  {
    var n := Normalize(m, d).value;
    NormalizeRepeatless(m, d);
    NormalDecodes(codec, policy, n, explicit);
    PresentableMeans(codec, policy, m, d);
  }
}
