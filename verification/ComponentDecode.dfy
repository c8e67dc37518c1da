/** Decoding a component artifact: the checks a stored payload must pass before it is used. */
module ComponentDecode {
  import opened Basics
  import opened Sorting
  import opened Json
  import opened Artifact
  import opened Component

  /** The text heuristics: what counts as a raw secret, a secret field, a reference, a host path. */
  datatype Policy = Policy(
    rawSecret: string -> bool,
    secretField: string -> bool,
    secretRef: string -> bool,
    hostPath: (string, Option<string>) -> bool)

  // ---------------------------------------------------------------------------
  // validate_component_payload_value
  // ---------------------------------------------------------------------------

  /** Nothing but references may stand in a secret field. */
  ghost predicate OnlyReferences(policy: Policy, v: Json) {
    match v
    case Null => true
    case Str(s) => (policy.secretRef)(s)
    case Arr(items) => forall i :: 0 <= i < |items| ==> items[i].Str? && (policy.secretRef)(items[i].s)
    case _ => false
  }

  predicate PortableKey(policy: Policy, key: string) {
    !(policy.rawSecret)(key) && !(policy.hostPath)(key, None)
  }

  /** No secret and no host path anywhere in `v`, read as the value of `field`. */
  ghost predicate Portable(policy: Policy, v: Json, field: Option<string>) {
    match v
    case Arr(items) => forall i :: 0 <= i < |items| ==> Portable(policy, items[i], field)
    case Obj(ms) => forall i :: 0 <= i < |ms| ==> PortableMember(policy, ms[i])
    case Str(s) => !(policy.rawSecret)(s) && !(policy.hostPath)(s, field)
    case _ => true
  }

  ghost predicate PortableMember(policy: Policy, m: Member) {
    && PortableKey(policy, m.key)
    && ((policy.secretField)(m.key) ==> OnlyReferences(policy, m.value))
    && Portable(policy, m.value, Some(m.key))
  }

  method CheckReferencesOnly(policy: Policy, v: Json) returns (ok: bool)
    ensures ok <==> OnlyReferences(policy, v)
  {
    match v {
      case Null => return true;
      case Str(s) => return (policy.secretRef)(s);
      case Arr(items) =>
        for i := 0 to |items|
          invariant forall k :: 0 <= k < i ==> items[k].Str? && (policy.secretRef)(items[k].s)
        {
          if !items[i].Str? || !(policy.secretRef)(items[i].s) {
            return false;
          }
        }
        return true;
      case _ => return false;
    }
  }

  method Walk(policy: Policy, v: Json, field: Option<string>) returns (ok: bool)
    ensures ok <==> Portable(policy, v, field)
    decreases v
  {
    match v {
      case Arr(items) =>
        for i := 0 to |items|
          invariant forall k :: 0 <= k < i ==> Portable(policy, items[k], field)
        {
          ok := Walk(policy, items[i], field);
          if !ok {
            return;
          }
        }
        return true;
      case Obj(ms) =>
        for i := 0 to |ms|
          invariant forall k :: 0 <= k < i ==> PortableMember(policy, ms[k])
        {
          if !PortableKey(policy, ms[i].key) {
            return false;
          }
          if (policy.secretField)(ms[i].key) {
            ok := CheckReferencesOnly(policy, ms[i].value);
            if !ok {
              return;
            }
          }
          ok := Walk(policy, ms[i].value, Some(ms[i].key));
          if !ok {
            return;
          }
        }
        return true;
      case Str(s) => return !(policy.rawSecret)(s) && !(policy.hostPath)(s, field);
      case _ => return true;
    }
  }

  // ---------------------------------------------------------------------------
  // validate_component_payload_descriptor
  // ---------------------------------------------------------------------------

  ghost predicate ValidReference(policy: Policy, d: ArtifactDescriptor) {
    ValidDescriptor(d) && Portable(policy, Obj(d.annotations), None)
  }

  method ValidatePayloadDescriptor(policy: Policy, d: ArtifactDescriptor) returns (ok: bool)
    ensures ok <==> ValidReference(policy, d)
  {
    ok := ValidateDescriptor(d);
    if ok {
      ok := Walk(policy, Obj(d.annotations), None);
    }
  }

  /** `Some(uri)` asks for that artifact type, as JSON; `None` takes any type. */
  predicate Typed(d: ArtifactDescriptor, kind: Option<string>) {
    kind.Some? ==> d.typeUri == kind.value && d.mediaType == JSON_MEDIA_TYPE
  }

  ghost predicate ValidReferences(policy: Policy, ds: seq<ArtifactDescriptor>, kind: Option<string>) {
    forall i :: 0 <= i < |ds| ==> Typed(ds[i], kind) && ValidReference(policy, ds[i])
  }

  lemma ElementsAppend(xs: seq<string>, ys: seq<string>)
    ensures Elements(xs + ys) == Elements(xs) + Elements(ys)
  {
    forall x ensures x in xs + ys <==> x in xs || x in ys {}
  }

  lemma DistinctAppend(xs: seq<string>, ys: seq<string>)
    ensures Distinct(xs + ys) <==> Distinct(xs) && Distinct(ys) && Elements(xs) !! Elements(ys)
  {
    var zs := xs + ys;
    if Distinct(zs) {
      assert forall i :: 0 <= i < |xs| ==> zs[i] == xs[i];
      assert forall j :: 0 <= j < |ys| ==> zs[|xs| + j] == ys[j];
      forall x | x in Elements(xs) ensures x !in Elements(ys) {
        var i :| 0 <= i < |xs| && xs[i] == x;
        assert forall j :: 0 <= j < |ys| ==> ys[j] != zs[i];
      }
    }
    if Distinct(xs) && Distinct(ys) && Elements(xs) !! Elements(ys) {
      forall i, j | 0 <= i < j < |zs| ensures zs[i] != zs[j] {
        if i < |xs| <= j {
          assert xs[i] in Elements(xs) && ys[j - |xs|] in Elements(ys);
        }
      }
    }
  }

  /** All valid, with digests that repeat neither each other nor those seen before. */
  ghost predicate Collects(policy: Policy, ds: seq<ArtifactDescriptor>, kind: Option<string>, seen: set<string>) {
    && ValidReferences(policy, ds, kind)
    && Distinct(DigestList(ds)) && Elements(DigestList(ds)) !! seen
  }

  lemma CollectsNext(policy: Policy, ds: seq<ArtifactDescriptor>, d: ArtifactDescriptor, kind: Option<string>,
                     seen: set<string>)
    ensures Elements(DigestList(ds + [d])) == Elements(DigestList(ds)) + {d.digest}
    ensures Collects(policy, ds + [d], kind, seen) <==>
      && Collects(policy, ds, kind, seen)
      && Typed(d, kind) && ValidReference(policy, d) && d.digest !in seen + Elements(DigestList(ds))
  {
    var es := ds + [d];
    assert DigestList(es) == DigestList(ds) + [d.digest];
    DistinctAppend(DigestList(ds), [d.digest]);
    ElementsAppend(DigestList(ds), [d.digest]);
    assert Elements([d.digest]) == {d.digest};
    assert es[|ds|] == d && forall i :: 0 <= i < |ds| ==> es[i] == ds[i];
  }

  lemma CollectsPrefix(policy: Policy, ds: seq<ArtifactDescriptor>, kind: Option<string>, seen: set<string>, i: nat)
    requires i <= |ds| && Collects(policy, ds, kind, seen)
    ensures Collects(policy, ds[..i], kind, seen)
  {
    if i < |ds| {
      assert ds == ds[..|ds| - 1] + [ds[|ds| - 1]];
      CollectsNext(policy, ds[..|ds| - 1], ds[|ds| - 1], kind, seen);
      CollectsPrefix(policy, ds[..|ds| - 1], kind, seen, i);
      assert ds[..|ds| - 1][..i] == ds[..i];
    }
  }

  /** One of the three loops that collect the digests the payload refers to. */
  method CollectReferences(policy: Policy, ds: seq<ArtifactDescriptor>, kind: Option<string>, seen: set<string>)
    returns (ok: bool, all: set<string>)
    ensures ok <==> Collects(policy, ds, kind, seen)
    ensures ok ==> all == seen + Elements(DigestList(ds))
  {
    all := seen;
    for i := 0 to |ds|
      invariant Collects(policy, ds[..i], kind, seen)
      invariant all == seen + Elements(DigestList(ds[..i]))
    {
      CollectsNext(policy, ds[..i], ds[i], kind, seen);
      assert ds[..i + 1] == ds[..i] + [ds[i]];
      ok := false;
      if Typed(ds[i], kind) {
        ok := ValidatePayloadDescriptor(policy, ds[i]);
      }
      if !ok || ds[i].digest in all {
        if Collects(policy, ds, kind, seen) { CollectsPrefix(policy, ds, kind, seen, i + 1); }
        return false, all;
      }
      all := all + {ds[i].digest};
    }
    assert ds[..|ds|] == ds;
    ok := true;
  }

  lemma DistinctNext(xs: seq<string>, i: nat)
    requires i < |xs| && Distinct(xs[..i])
    ensures Distinct(xs[..i + 1]) <==> xs[i] !in Elements(xs[..i])
    ensures xs[i] in Elements(xs[..i]) ==> !Distinct(xs)
    ensures Elements(xs[..i + 1]) == Elements(xs[..i]) + {xs[i]}
  {
    assert xs[..i + 1] == xs[..i] + [xs[i]];
    if xs[i] in Elements(xs[..i]) {
      var k :| 0 <= k < i && xs[k] == xs[i];
    }
  }

  // ---------------------------------------------------------------------------
  // decode_component_artifact_payload
  // ---------------------------------------------------------------------------

  /** The descriptor is of the right type and its digest and size are those of the canonical bytes. */
  predicate Describes(codec: Codec, d: ArtifactDescriptor, bytes: Bytes, p: Payload) {
    && d.typeUri == DESCRIPTOR_TYPE_URI && d.mediaType == JSON_MEDIA_TYPE
    && CanonicalBytes(codec, (codec.payloadJson)(p)) == bytes
    && d.digest == (codec.sha256)(bytes) && d.sizeBytes == |bytes|
  }

  /** The derived fields say what the entry and the contract say. */
  predicate Classified(p: Payload) {
    && !Blank(p.componentId) && !Blank(p.version) && !Blank(p.entryKind)
    && p.entryKind == EntryKind(p.entry)
    && p.trustClass == TrustClassFor(p.contract, p.entry)
    && p.boundaries == BoundariesOf(p.trustClass)
    && (if p.trustClass == ForeignCapsule then p.claimStatus == ForeignStatus && p.protocolArtifacts == []
        else p.claimStatus != ForeignStatus)
  }

  function Settings(codec: Codec, p: Payload): Json {
    Arr([(codec.entryJson)(p.entry), Obj(p.annotations)])
  }

  /** Everything the payload refers to is well formed and of its kind. */
  ghost predicate SoundReferences(policy: Policy, p: Payload) {
    && ValidReference(policy, p.behavior) && p.behavior.typeUri == BEHAVIOR_TYPE_URI
    && ValidReferences(policy, p.protocolArtifacts, Some(PROTOCOL_TYPE_URI))
    && ValidReferences(policy, p.contentRoots, None)
    && ValidReferences(policy, p.surfaceArtifacts, Some(SURFACE_TYPE_URI))
    && Distinct(ReferencesOf(p))
  }

  /** The list names each digest of the set once, and nothing else. */
  ghost predicate Lists(references: seq<string>, digests: set<string>) {
    && (forall i :: 0 <= i < |references| ==> IsSha256(references[i]))
    && Distinct(references) && Elements(references) == digests
  }

  ghost predicate Decodes(codec: Codec, policy: Policy, d: ArtifactDescriptor, bytes: Bytes, p: Payload) {
    && Describes(codec, d, bytes, p)
    && Classified(p)
    && Portable(policy, Settings(codec, p), None)
    && SoundReferences(policy, p)
    && Lists(d.references, Elements(ReferencesOf(p)))
    && Get(d.annotations, "component_id") == Some(Str(p.componentId))
  }

  /** The references of a payload, digest by digest. */
  lemma ReferencesSplit(p: Payload)
    ensures Distinct(ReferencesOf(p)) <==>
      var b, ps, rs, ss := {p.behavior.digest}, DigestList(p.protocolArtifacts), DigestList(p.contentRoots),
                           DigestList(p.surfaceArtifacts);
      && Distinct(ps) && Distinct(rs) && Distinct(ss)
      && Elements(ps) !! b && Elements(rs) !! b + Elements(ps) && Elements(ss) !! b + Elements(ps) + Elements(rs)
    ensures Elements(ReferencesOf(p)) == {p.behavior.digest} + Elements(DigestList(p.protocolArtifacts))
                                         + Elements(DigestList(p.contentRoots)) + Elements(DigestList(p.surfaceArtifacts))
  {
    var b, ps, rs, ss := [p.behavior.digest], DigestList(p.protocolArtifacts), DigestList(p.contentRoots),
                         DigestList(p.surfaceArtifacts);
    assert Elements(b) == {p.behavior.digest} && Distinct(b);
    DistinctAppend(b, ps);
    DistinctAppend(b + ps, rs);
    DistinctAppend(b + ps + rs, ss);
    ElementsAppend(b, ps);
    ElementsAppend(b + ps, rs);
    ElementsAppend(b + ps + rs, ss);
  }

  method CheckSound(policy: Policy, p: Payload) returns (ok: bool, required: set<string>)
    ensures ok <==> SoundReferences(policy, p)
    ensures ok ==> required == Elements(ReferencesOf(p))
  {
    ReferencesSplit(p);
    required := {p.behavior.digest};
    ok := ValidatePayloadDescriptor(policy, p.behavior);
    if !ok || p.behavior.typeUri != BEHAVIOR_TYPE_URI {
      return false, required;
    }
    ok, required := CollectReferences(policy, p.protocolArtifacts, Some(PROTOCOL_TYPE_URI), required);
    if !ok {
      return;
    }
    ok, required := CollectReferences(policy, p.contentRoots, None, required);
    if !ok {
      return;
    }
    ok, required := CollectReferences(policy, p.surfaceArtifacts, Some(SURFACE_TYPE_URI), required);
  }

  method CheckListed(references: seq<string>, required: set<string>) returns (ok: bool)
    ensures ok <==> Lists(references, required)
  {
    var listed: set<string> := {};
    for i := 0 to |references|
      invariant forall k :: 0 <= k < i ==> IsSha256(references[k])
      invariant Distinct(references[..i]) && listed == Elements(references[..i])
    {
      DistinctNext(references, i);
      if !IsSha256(references[i]) || references[i] in listed {
        return false;
      }
      listed := listed + {references[i]};
    }
    assert references[..|references|] == references;
    ok := listed == required;
  }

  ghost function Decoded(codec: Codec, policy: Policy, d: ArtifactDescriptor, bytes: Bytes): Option<Payload> {
    var parsed := (codec.parse)(bytes);
    if parsed.Some? && Decodes(codec, policy, d, bytes, parsed.value) then parsed else None
  }

  method Decode(codec: Codec, policy: Policy, d: ArtifactDescriptor, bytes: Bytes) returns (r: Option<Payload>)
    ensures r == Decoded(codec, policy, d, bytes)
  {
    var parsed := (codec.parse)(bytes);
    if parsed.None? || !Describes(codec, d, bytes, parsed.value) || !Classified(parsed.value) {
      return None;
    }
    var portable := Walk(policy, Settings(codec, parsed.value), None);
    if !portable {
      return None;
    }
    var sound, required := CheckSound(policy, parsed.value);
    if !sound {
      return None;
    }
    var listed := CheckListed(d.references, required);
    if !listed || Get(d.annotations, "component_id") != Some(Str(parsed.value.componentId)) {
      return None;
    }
    r := parsed;
  }
}
