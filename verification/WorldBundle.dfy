/** World bundle manifests and archives, and the validators that read them once. */
module WorldBundle {
  import opened Basics
  import opened Sorting
  import opened Json
  import opened Artifact

  const ARCHIVE_FORMAT := "plurora.world-bundle.archive.v1"
  const BUNDLE_TYPE_URI := "urn:plurora:world-bundle:v1"
  const BUNDLE_MEDIA_TYPE := "application/vnd.plurora.world-bundle+json;version=1"
  const HEAD_TYPE_URI := "urn:plurora:world-head:v1"
  const HEAD_MEDIA_TYPE := "application/vnd.plurora.world-head+json;version=1"
  const EVENT_TYPE_URI := "urn:plurora:event-envelope:v1"
  const EVENT_MEDIA_TYPE := "application/vnd.plurora.event-envelope+json;version=1"
  const LOCK_TYPE_URI := "urn:plurora:assembly-lock:v1"
  const LOCK_MEDIA_TYPE := "application/json"
  const RECEIPT_TYPE_URI := "urn:plurora:effect-receipt:v1"
  const PROTOCOL_ID := "plurora.world.bundle"
  const PROTOCOL_VERSION := "1.0.0"
  const PROTOCOL_PROFILE := "plurora.world.bundle/experimental/v1"

  datatype JournalRange = JournalRange(
    sessionId: string,
    firstSequence: nat,
    lastSequence: nat,
    envelopeRefs: seq<ArtifactDescriptor>)

  datatype LineageEntry = LineageEntry(
    head: ArtifactDescriptor,
    parentHeads: seq<ArtifactDescriptor>,
    relation: string,
    effectReceipts: seq<ArtifactDescriptor>)

  datatype ProfilePin = ProfilePin(protocolId: string, version: string, profile: string)

  datatype Manifest = Manifest(
    schemaVersion: nat,
    bundleTypeUri: string,
    protocolId: string,
    protocolVersion: string,
    protocolProfile: string,
    worldId: string,
    worldHead: ArtifactDescriptor,
    journalRanges: seq<JournalRange>,
    objectDescriptors: seq<ArtifactDescriptor>,
    assemblyLock: ArtifactDescriptor,
    protocolProfiles: seq<ProfilePin>,
    policyRefs: seq<ArtifactDescriptor>,
    effectReceipts: seq<ArtifactDescriptor>,
    lineage: seq<LineageEntry>,
    originalEnvelopes: seq<ArtifactDescriptor>,
    annotations: seq<Member>)

  datatype BundleObject = BundleObject(descriptor: ArtifactDescriptor, dataBase64: string)

  datatype Archive = Archive(
    archiveFormat: string,
    bundleDescriptor: ArtifactDescriptor,
    manifest: Manifest,
    objects: seq<BundleObject>)

  /** A valid descriptor of the given type, and of the given media type when one is prescribed. */
  ghost predicate TypedAs(d: ArtifactDescriptor, typeUri: string, mediaType: Option<string>) {
    ValidDescriptor(d) && d.typeUri == typeUri && (mediaType.Some? ==> d.mediaType == mediaType.value)
  }

  ghost predicate AllTypedAs(ds: seq<ArtifactDescriptor>, typeUri: string, mediaType: Option<string>) {
    forall i :: 0 <= i < |ds| ==> TypedAs(ds[i], typeUri, mediaType)
  }

  method CheckType(d: ArtifactDescriptor, typeUri: string, mediaType: Option<string>) returns (ok: bool)
    ensures ok <==> TypedAs(d, typeUri, mediaType)
  {
    ok := ValidateDescriptor(d);
    ok := ok && d.typeUri == typeUri && (mediaType.Some? ==> d.mediaType == mediaType.value);
  }

  method CheckTypes(ds: seq<ArtifactDescriptor>, typeUri: string, mediaType: Option<string>) returns (ok: bool)
    ensures ok <==> AllTypedAs(ds, typeUri, mediaType)
  {
    for i := 0 to |ds|
      invariant forall k :: 0 <= k < i ==> TypedAs(ds[k], typeUri, mediaType)
    {
      var typed := CheckType(ds[i], typeUri, mediaType);
      if !typed {
        return false;
      }
    }
    ok := true;
  }

  // ---------------------------------------------------------------------------
  // Journal ranges
  // ---------------------------------------------------------------------------

  /** `checked_sub` then `checked_add` on u64: the number of positions, if it can be written down. */
  function RangeLength(r: JournalRange): Option<nat>
    requires r.firstSequence <= r.lastSequence
  {
    var span := r.lastSequence - r.firstSequence;
    if span < U64_MAX then Some(span + 1) else None
  }

  ghost predicate ValidRange(r: JournalRange) {
    && !Blank(r.sessionId)
    && r.firstSequence <= r.lastSequence
    && RangeLength(r) == Some(|r.envelopeRefs|)
    && AllTypedAs(r.envelopeRefs, EVENT_TYPE_URI, Some(EVENT_MEDIA_TYPE))
  }

  method ValidateRange(r: JournalRange) returns (ok: bool)
    ensures ok <==> ValidRange(r)
  {
    if Blank(r.sessionId) || r.firstSequence > r.lastSequence || RangeLength(r) != Some(|r.envelopeRefs|) {
      return false;
    }
    ok := CheckTypes(r.envelopeRefs, EVENT_TYPE_URI, Some(EVENT_MEDIA_TYPE));
  }

  // ---------------------------------------------------------------------------
  // Lineage
  // ---------------------------------------------------------------------------

  ghost predicate ValidEntry(e: LineageEntry) {
    && !Blank(e.relation)
    && TypedAs(e.head, HEAD_TYPE_URI, Some(HEAD_MEDIA_TYPE))
    && AllTypedAs(e.parentHeads, HEAD_TYPE_URI, Some(HEAD_MEDIA_TYPE))
    && AllTypedAs(e.effectReceipts, RECEIPT_TYPE_URI, None)
  }

  method ValidateEntry(e: LineageEntry) returns (ok: bool)
    ensures ok <==> ValidEntry(e)
  {
    if Blank(e.relation) {
      return false;
    }
    var head := CheckType(e.head, HEAD_TYPE_URI, Some(HEAD_MEDIA_TYPE));
    var parents := CheckTypes(e.parentHeads, HEAD_TYPE_URI, Some(HEAD_MEDIA_TYPE));
    var receipts := CheckTypes(e.effectReceipts, RECEIPT_TYPE_URI, None);
    ok := head && parents && receipts;
  }

  /** Some earlier entry has this head digest. */
  ghost predicate Precedes(lineage: seq<LineageEntry>, digest: string, i: nat) {
    exists j :: 0 <= j < i && j < |lineage| && lineage[j].head.digest == digest
  }

  ghost predicate ParentsPrecede(lineage: seq<LineageEntry>, i: nat)
    requires i < |lineage|
  {
    forall p :: 0 <= p < |lineage[i].parentHeads| ==> Precedes(lineage, lineage[i].parentHeads[p].digest, i)
  }

  ghost predicate EntryInPlace(lineage: seq<LineageEntry>, i: nat)
    requires i < |lineage|
  {
    ValidEntry(lineage[i]) && ParentsPrecede(lineage, i) && !Precedes(lineage, lineage[i].head.digest, i)
  }

  ghost predicate InPlaceUpTo(lineage: seq<LineageEntry>, n: nat) {
    forall i :: 0 <= i < n && i < |lineage| ==> EntryInPlace(lineage, i)
  }

  ghost predicate ValidLineage(lineage: seq<LineageEntry>) {
    InPlaceUpTo(lineage, |lineage|)
  }

  method CheckParents(lineage: seq<LineageEntry>, i: nat, priorHeads: set<string>) returns (ok: bool)
    requires i < |lineage| && forall d :: d in priorHeads <==> Precedes(lineage, d, i)
    ensures ok <==> ParentsPrecede(lineage, i)
  {
    var parents := lineage[i].parentHeads;
    for p := 0 to |parents|
      invariant forall q :: 0 <= q < p ==> Precedes(lineage, parents[q].digest, i)
    {
      if parents[p].digest !in priorHeads {
        return false;
      }
    }
    ok := true;
  }

  method CheckEntry(lineage: seq<LineageEntry>, i: nat, priorHeads: set<string>) returns (ok: bool)
    requires i < |lineage| && forall d :: d in priorHeads <==> Precedes(lineage, d, i)
    ensures ok <==> EntryInPlace(lineage, i)
  {
    var valid := ValidateEntry(lineage[i]);
    var parents := CheckParents(lineage, i, priorHeads);
    ok := valid && parents && lineage[i].head.digest !in priorHeads;
  }

  lemma PrecedesNext(lineage: seq<LineageEntry>, d: string, i: nat)
    requires i < |lineage|
    ensures Precedes(lineage, d, i + 1) <==> Precedes(lineage, d, i) || d == lineage[i].head.digest
  {
  }

  lemma InPlaceNext(lineage: seq<LineageEntry>, n: nat)
    requires n < |lineage| && InPlaceUpTo(lineage, n) && EntryInPlace(lineage, n)
    ensures InPlaceUpTo(lineage, n + 1)
  {
  }

  /** The single pass over the lineage with the set of heads seen so far. */
  method ValidateLineage(lineage: seq<LineageEntry>) returns (ok: bool)
    ensures ok <==> ValidLineage(lineage)
  {
    var priorHeads: set<string> := {};
    for i := 0 to |lineage|
      invariant InPlaceUpTo(lineage, i)
      invariant forall d :: d in priorHeads <==> Precedes(lineage, d, i)
    {
      var inPlace := CheckEntry(lineage, i, priorHeads);
      if !inPlace {
        return false;
      }
      InPlaceNext(lineage, i);
      forall d ensures Precedes(lineage, d, i + 1) <==> Precedes(lineage, d, i) || d == lineage[i].head.digest {
        PrecedesNext(lineage, d, i);
      }
      priorHeads := priorHeads + {lineage[i].head.digest};
    }
    ok := true;
  }

  // ---------------------------------------------------------------------------
  // Profiles, identity, inventory
  // ---------------------------------------------------------------------------

  ghost predicate ValidProfiles(profiles: seq<ProfilePin>) {
    && (forall i :: 0 <= i < |profiles| ==>
          !Blank(profiles[i].protocolId) && !Blank(profiles[i].version) && !Blank(profiles[i].profile))
    && (forall i, j :: 0 <= i < j < |profiles| ==> profiles[i] != profiles[j])
  }

  method ValidateProfiles(profiles: seq<ProfilePin>) returns (ok: bool)
    ensures ok <==> ValidProfiles(profiles)
  {
    var seen: set<ProfilePin> := {};
    for i := 0 to |profiles|
      invariant ValidProfiles(profiles[..i])
      invariant forall p :: p in seen <==> p in profiles[..i]
    {
      var p := profiles[i];
      if Blank(p.protocolId) || Blank(p.version) || Blank(p.profile) || p in seen {
        assert p in profiles[..i] ==> exists k :: 0 <= k < i && profiles[k] == profiles[i];
        return false;
      }
      assert profiles[..i + 1] == profiles[..i] + [p];
      seen := seen + {p};
    }
    assert profiles[..|profiles|] == profiles;
    ok := true;
  }

  predicate IsAsciiAlphabetic(c: char) {
    'a' <= c <= 'z' || 'A' <= c <= 'Z'
  }

  /** `validate_portable_identity`: neither empty nor a host path nor a URL. */
  predicate PortableIdentity(value: string) {
    var t := Trim(value);
    && t != []
    && !(|t| >= 3 && IsAsciiAlphabetic(t[0]) && t[1] == ':' && (t[2] == '/' || t[2] == '\\'))
    && !("/" <= t) && !("\\\\" <= t) && !("file:" <= t) && !Contains(t, "://")
  }

  function Digests(ds: seq<ArtifactDescriptor>): (r: seq<string>)
    ensures |r| == |ds| && forall i :: 0 <= i < |ds| ==> r[i] == ds[i].digest
  {
    seq(|ds|, i requires 0 <= i < |ds| => ds[i].digest)
  }

  /** Every descriptor is valid and no digest is listed twice. */
  ghost predicate ValidInventory(ds: seq<ArtifactDescriptor>) {
    (forall i :: 0 <= i < |ds| ==> ValidDescriptor(ds[i])) && Distinct(Digests(ds))
  }

  method ValidateInventory(ds: seq<ArtifactDescriptor>) returns (ok: bool, digests: set<string>)
    ensures ok <==> ValidInventory(ds)
    ensures ok ==> digests == set i | 0 <= i < |ds| :: ds[i].digest
  {
    digests := {};
    for i := 0 to |ds|
      invariant forall k :: 0 <= k < i ==> ValidDescriptor(ds[k])
      invariant digests == set k | 0 <= k < i :: ds[k].digest
      invariant Distinct(Digests(ds[..i]))
    {
      var valid := ValidateDescriptor(ds[i]);
      if !valid {
        return false, digests;
      }
      if ds[i].digest in digests {
        ghost var k :| 0 <= k < i && ds[k].digest == ds[i].digest;
        assert Digests(ds)[k] == Digests(ds)[i];
        return false, digests;
      }
      digests := digests + {ds[i].digest};
    }
    assert ds[..|ds|] == ds;
    ok := true;
  }

  // ---------------------------------------------------------------------------
  // The manifest
  // ---------------------------------------------------------------------------

  function Envelopes(ranges: seq<JournalRange>): seq<ArtifactDescriptor> {
    if ranges == [] then [] else Envelopes(ranges[..|ranges| - 1]) + ranges[|ranges| - 1].envelopeRefs
  }

  function LineageRoots(lineage: seq<LineageEntry>): seq<ArtifactDescriptor> {
    if lineage == [] then []
    else
      var e := lineage[|lineage| - 1];
      LineageRoots(lineage[..|lineage| - 1]) + [e.head] + e.parentHeads + e.effectReceipts
  }

  /** `required_root_descriptors`. */
  function RequiredRoots(m: Manifest): seq<ArtifactDescriptor> {
    [m.worldHead, m.assemblyLock] + Envelopes(m.journalRanges) + m.policyRefs + m.effectReceipts
    + m.originalEnvelopes + LineageRoots(m.lineage)
  }

  ghost predicate Listed(roots: seq<ArtifactDescriptor>, inventory: seq<ArtifactDescriptor>) {
    forall i :: 0 <= i < |roots| ==> roots[i].digest in Digests(inventory)
  }

  predicate ValidHeader(m: Manifest) {
    && m.schemaVersion == 1
    && m.bundleTypeUri == BUNDLE_TYPE_URI
    && m.protocolId == PROTOCOL_ID && m.protocolVersion == PROTOCOL_VERSION && m.protocolProfile == PROTOCOL_PROFILE
    && PortableIdentity(m.worldId)
    && m.journalRanges != []
    && m.lineage != []
  }

  ghost predicate ValidRanges(ranges: seq<JournalRange>) {
    forall i :: 0 <= i < |ranges| ==> ValidRange(ranges[i])
  }

  ghost predicate ValidManifest(m: Manifest) {
    && ValidHeader(m)
    && TypedAs(m.worldHead, HEAD_TYPE_URI, Some(HEAD_MEDIA_TYPE))
    && TypedAs(m.assemblyLock, LOCK_TYPE_URI, Some(LOCK_MEDIA_TYPE))
    && ValidProfiles(m.protocolProfiles)
    && ValidRanges(m.journalRanges)
    && ValidLineage(m.lineage)
    && m.lineage[|m.lineage| - 1].head == m.worldHead
    && ValidInventory(m.objectDescriptors)
    && Listed(RequiredRoots(m), m.objectDescriptors)
    && Digests(Envelopes(m.journalRanges)) == Digests(m.originalEnvelopes)
  }

  method ValidateRanges(ranges: seq<JournalRange>) returns (ok: bool)
    ensures ok <==> ValidRanges(ranges)
  {
    for i := 0 to |ranges|
      invariant ValidRanges(ranges[..i])
    {
      var valid := ValidateRange(ranges[i]);
      if !valid {
        return false;
      }
      assert ranges[..i + 1] == ranges[..i] + [ranges[i]];
    }
    assert ranges[..|ranges|] == ranges;
    ok := true;
  }

  method CheckListed(roots: seq<ArtifactDescriptor>, inventory: seq<ArtifactDescriptor>, digests: set<string>)
    returns (ok: bool)
    requires digests == set i | 0 <= i < |inventory| :: inventory[i].digest
    ensures ok <==> Listed(roots, inventory)
  {
    forall d ensures d in digests <==> d in Digests(inventory) {
      if d in digests {
        var i :| 0 <= i < |inventory| && inventory[i].digest == d;
        assert Digests(inventory)[i] == d;
      }
    }
    for i := 0 to |roots|
      invariant forall k :: 0 <= k < i ==> roots[k].digest in Digests(inventory)
    {
      if roots[i].digest !in digests {
        return false;
      }
    }
    ok := true;
  }

  method ValidateManifest(m: Manifest) returns (ok: bool)
    ensures ok <==> ValidManifest(m)
  {
    if !ValidHeader(m) {
      return false;
    }
    var head := CheckType(m.worldHead, HEAD_TYPE_URI, Some(HEAD_MEDIA_TYPE));
    var lock := CheckType(m.assemblyLock, LOCK_TYPE_URI, Some(LOCK_MEDIA_TYPE));
    var profiles := ValidateProfiles(m.protocolProfiles);
    var ranges := ValidateRanges(m.journalRanges);
    var lineage := ValidateLineage(m.lineage);
    if !head || !lock || !profiles || !ranges || !lineage || m.lineage[|m.lineage| - 1].head != m.worldHead {
      return false;
    }
    var inventory, digests := ValidateInventory(m.objectDescriptors);
    if !inventory {
      return false;
    }
    ok := CheckListed(RequiredRoots(m), m.objectDescriptors, digests);
    ok := ok && Digests(Envelopes(m.journalRanges)) == Digests(m.originalEnvelopes);
  }

  // ---------------------------------------------------------------------------
  // The archive
  // ---------------------------------------------------------------------------

  type Bytes = seq<int>

  /** The descriptor a manifest has under a serializer and a hash. */
  function ManifestDescriptor(m: Manifest, bytesOf: Manifest -> Bytes, sha256: Bytes -> string): ArtifactDescriptor {
    ArtifactDescriptor(
      BUNDLE_TYPE_URI, BUNDLE_MEDIA_TYPE, sha256(bytesOf(m)), |bytesOf(m)|, Digests(m.objectDescriptors),
      [Member("protocol_profile", Str(m.protocolProfile)), Member("world_id", Str(m.worldId))])
  }

  function Descriptors(objects: seq<BundleObject>): (r: seq<ArtifactDescriptor>)
    ensures |r| == |objects| && forall i :: 0 <= i < |objects| ==> r[i] == objects[i].descriptor
  {
    seq(|objects|, i requires 0 <= i < |objects| => objects[i].descriptor)
  }

  /** Inline objects and inventory list the same descriptors, neither twice. */
  ghost predicate ObjectsMatch(ds: seq<ArtifactDescriptor>, inventory: seq<ArtifactDescriptor>) {
    && ValidInventory(ds)
    && (forall i :: 0 <= i < |ds| ==> ds[i] in inventory)
    && (forall k :: 0 <= k < |inventory| ==> inventory[k].digest in Digests(ds))
  }

  ghost predicate ValidShape(a: Archive, bytesOf: Manifest -> Bytes, sha256: Bytes -> string) {
    && a.archiveFormat == ARCHIVE_FORMAT
    && ValidManifest(a.manifest)
    && a.bundleDescriptor == ManifestDescriptor(a.manifest, bytesOf, sha256)
    && ObjectsMatch(Descriptors(a.objects), a.manifest.objectDescriptors)
  }

  /** The inventory as the map `validate_shape` looks digests up in. */
  ghost predicate IsIndex(index: map<string, ArtifactDescriptor>, inventory: seq<ArtifactDescriptor>) {
    && (forall d :: d in index <==> d in Digests(inventory))
    && (forall k :: 0 <= k < |inventory| ==> inventory[k].digest in index && index[inventory[k].digest] == inventory[k])
  }

  method IndexInventory(inventory: seq<ArtifactDescriptor>) returns (index: map<string, ArtifactDescriptor>)
    requires Distinct(Digests(inventory))
    ensures IsIndex(index, inventory)
  {
    index := map[];
    for i := 0 to |inventory|
      invariant IsIndex(index, inventory[..i])
    {
      assert inventory[..i + 1] == inventory[..i] + [inventory[i]];
      assert Digests(inventory[..i + 1]) == Digests(inventory[..i]) + [inventory[i].digest];
      forall k | 0 <= k < i ensures inventory[k].digest != inventory[i].digest {
        assert Digests(inventory)[k] != Digests(inventory)[i];
      }
      index := index[inventory[i].digest := inventory[i]];
    }
    assert inventory[..|inventory|] == inventory;
  }

  lemma IndexedMeansIn(index: map<string, ArtifactDescriptor>, inventory: seq<ArtifactDescriptor>, d: ArtifactDescriptor)
    requires IsIndex(index, inventory)
    ensures d in inventory <==> d.digest in index && index[d.digest] == d
  {
    if d.digest in index {
      var k :| 0 <= k < |inventory| && Digests(inventory)[k] == d.digest;
    }
  }

  method CheckObjects(ds: seq<ArtifactDescriptor>, inventory: seq<ArtifactDescriptor>) returns (ok: bool)
    requires ValidInventory(inventory)
    ensures ok <==> ObjectsMatch(ds, inventory)
  {
    var index := IndexInventory(inventory);
    var valid, digests := ValidateInventory(ds);
    if !valid {
      return false;
    }
    for i := 0 to |ds|
      invariant forall k :: 0 <= k < i ==> ds[k] in inventory
    {
      IndexedMeansIn(index, inventory, ds[i]);
      if ds[i].digest !in index || index[ds[i].digest] != ds[i] {
        return false;
      }
    }
    var covered := CheckListed(inventory, ds, digests);
    if covered { SameDigests(ds, inventory, digests, index); }
    ok := |digests| == |index| && covered;
  }

  lemma SameDigests(ds: seq<ArtifactDescriptor>, inventory: seq<ArtifactDescriptor>, digests: set<string>,
                    index: map<string, ArtifactDescriptor>)
    requires IsIndex(index, inventory) && Listed(inventory, ds)
    requires digests == set i | 0 <= i < |ds| :: ds[i].digest
    requires forall k :: 0 <= k < |ds| ==> ds[k] in inventory
    ensures |digests| == |index|
  {
    forall d ensures d in digests <==> d in index.Keys {
      if d in digests {
        var i :| 0 <= i < |ds| && ds[i].digest == d;
        IndexedMeansIn(index, inventory, ds[i]);
      }
      if d in index {
        var k :| 0 <= k < |inventory| && Digests(inventory)[k] == d;
        var i :| 0 <= i < |ds| && Digests(ds)[i] == inventory[k].digest;
      }
    }
    assert digests == index.Keys;
  }

  method ValidateShape(a: Archive, bytesOf: Manifest -> Bytes, sha256: Bytes -> string) returns (ok: bool)
    ensures ok <==> ValidShape(a, bytesOf, sha256)
  {
    var manifest := ValidateManifest(a.manifest);
    if a.archiveFormat != ARCHIVE_FORMAT || !manifest
       || a.bundleDescriptor != ManifestDescriptor(a.manifest, bytesOf, sha256) {
      return false;
    }
    ok := CheckObjects(Descriptors(a.objects), a.manifest.objectDescriptors);
  }
}
