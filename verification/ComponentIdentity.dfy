/** A behavior digest stands for what the component does: everything hashed can be told from it. */
module ComponentIdentity {
  import opened Json
  import opened JsonCanon
  import opened Component
  import opened ComponentLaws

  /** Different canonical documents hash differently. */
  predicate NoCollision(codec: Codec, v: Json, w: Json) {
    DigestOf(codec, v) == DigestOf(codec, w) ==> Canonical(v) == Canonical(w)
  }

  ghost predicate SameKeys(ms: seq<Member>, ns: seq<Member>) {
    |ms| == |ns| && UniqueKeys(ms) && UniqueKeys(ns) && forall i :: 0 <= i < |ms| ==> ms[i].key == ns[i].key
  }

  /** Objects with the same keys and one canonical form agree, canonically, field by field. */
  lemma FieldsAgree(ms: seq<Member>, ns: seq<Member>, i: nat)
    requires SameKeys(ms, ns) && Canonical(Obj(ms)) == Canonical(Obj(ns)) && i < |ms|
    ensures Canonical(ms[i].value) == Canonical(ns[i].value)
  {
    GetAt(ms, i);
    GetAt(ns, i);
    SameField(ms, ns, ms[i].key);
  }

  lemma StringsAgree(xs: seq<string>, ys: seq<string>)
    requires Canonical(Strings(xs)) == Canonical(Strings(ys))
    ensures xs == ys
  {
    StringsAreCanonical(xs);
    StringsAreCanonical(ys);
    StringsInjective(xs, ys);
  }

  /** The same claim, its schemas compared up to member order. */
  ghost predicate SameClaim(c: Capability, e: Capability) {
    && c.id == e.id && c.version == e.version && c.streaming == e.streaming && c.sideEffects == e.sideEffects
    && Canonical(c.inputSchema) == Canonical(e.inputSchema) && Canonical(c.outputSchema) == Canonical(e.outputSchema)
  }

  lemma ClaimKeys(c: Capability)
    ensures UniqueKeys(ClaimJson(c).members)
  {
  }

  lemma ClaimTold(c: Capability, e: Capability)
    requires Canonical(ClaimJson(c)) == Canonical(ClaimJson(e))
    ensures SameClaim(c, e)
  {
    var ms, ns := ClaimJson(c).members, ClaimJson(e).members;
    ClaimKeys(c);
    ClaimKeys(e);
    forall i | 0 <= i < |ms| ensures Canonical(ms[i].value) == Canonical(ns[i].value) { FieldsAgree(ms, ns, i); }
    assert ms[0].value == Str(c.id) && ns[0].value == Str(e.id);
    assert ms[1].value == Str(c.version) && ns[1].value == Str(e.version);
    assert ms[2].value == c.inputSchema && ns[2].value == e.inputSchema;
    assert ms[3].value == c.outputSchema && ns[3].value == e.outputSchema;
    assert ms[4].value == Bool(c.streaming) && ns[4].value == Bool(e.streaming);
    assert ms[5].value == Strings(c.sideEffects) && ns[5].value == Strings(e.sideEffects);
    StringsAgree(c.sideEffects, e.sideEffects);
  }

  function Claims(cs: seq<Capability>): seq<Json> {
    Map(cs, (c: Capability) => ClaimJson(c))
  }

  lemma ClaimsTold(cs: seq<Capability>, es: seq<Capability>)
    requires CanonicalItems(Claims(cs)) == CanonicalItems(Claims(es))
    ensures |cs| == |es| && forall i :: 0 <= i < |cs| ==> SameClaim(cs[i], es[i])
  {
    assert |cs| == |CanonicalItems(Claims(cs))| == |es|;
    forall i | 0 <= i < |cs| ensures SameClaim(cs[i], es[i]) {
      ItemsAt(Claims(cs), i);
      ItemsAt(Claims(es), i);
      ClaimTold(cs[i], es[i]);
    }
  }

  lemma BehaviorKeys(id: string, version: string, ids: seq<string>, claims: seq<Capability>, digests: seq<string>)
    ensures UniqueKeys(BehaviorJson(id, version, ids, claims, digests).members)
  {
  }

  lemma BehaviorTold(id: string, version: string, ids: seq<string>, claims: seq<Capability>, digests: seq<string>,
                     id': string, version': string, ids': seq<string>, claims': seq<Capability>, digests': seq<string>)
    requires Canonical(BehaviorJson(id, version, ids, claims, digests)) == Canonical(BehaviorJson(id', version', ids', claims', digests'))
    ensures id == id' && version == version' && ids == ids' && digests == digests'
    ensures CanonicalItems(Claims(claims)) == CanonicalItems(Claims(claims'))
  {
    var ms, ns := BehaviorJson(id, version, ids, claims, digests).members, BehaviorJson(id', version', ids', claims', digests').members;
    BehaviorKeys(id, version, ids, claims, digests);
    BehaviorKeys(id', version', ids', claims', digests');
    forall i | 0 <= i < |ms| ensures Canonical(ms[i].value) == Canonical(ns[i].value) { FieldsAgree(ms, ns, i); }
    assert ms[0].value == Str(id) && ns[0].value == Str(id');
    assert ms[1].value == Str(version) && ns[1].value == Str(version');
    assert ms[2].value == Strings(ids) && ns[2].value == Strings(ids');
    assert ms[3].value == Arr(Claims(claims)) && ns[3].value == Arr(Claims(claims'));
    assert ms[4].value == Strings(digests) && ns[4].value == Strings(digests');
    StringsAgree(ids, ids');
    StringsAgree(digests, digests');
  }

  lemma ProtocolsTold(codec: Codec, n: Normal, n': Normal)
    requires ProtocolDigests(codec, n) == ProtocolDigests(codec, n')
    requires forall p, q :: p in n.protocols && q in n'.protocols ==> NoCollision(codec, ProtocolJson(p), ProtocolJson(q))
    ensures n.protocols == n'.protocols
  {
    var ds, es := ProtocolDigests(codec, n), ProtocolDigests(codec, n');
    assert |n.protocols| == |ds| == |n'.protocols|;
    forall i | 0 <= i < |n.protocols| ensures n.protocols[i] == n'.protocols[i] {
      var p, q := n.protocols[i], n'.protocols[i];
      assert ds[i] == DigestOf(codec, ProtocolJson(p)) && es[i] == DigestOf(codec, ProtocolJson(q));
      assert NoCollision(codec, ProtocolJson(p), ProtocolJson(q));
      ProtocolJsonInjective(p, q);
    }
  }

  /** Components with one behavior digest agree on name, version, capabilities, claims and protocols. */
  lemma BehaviorDigestPins(codec: Codec, n: Normal, n': Normal)
    requires BehaviorOf(codec, n).digest == BehaviorOf(codec, n').digest
    requires NoCollision(codec, BehaviorDocument(codec, n), BehaviorDocument(codec, n'))
    requires forall p, q :: p in n.protocols && q in n'.protocols ==> NoCollision(codec, ProtocolJson(p), ProtocolJson(q))
    ensures n.id == n'.id && n.version == n'.version && n.capabilityIds == n'.capabilityIds && n.protocols == n'.protocols
    ensures |n.claims| == |n'.claims| && forall i :: 0 <= i < |n.claims| ==> SameClaim(n.claims[i], n'.claims[i])
  {
    BehaviorTold(n.id, n.version, n.capabilityIds, n.claims, ProtocolDigests(codec, n),
                 n'.id, n'.version, n'.capabilityIds, n'.claims, ProtocolDigests(codec, n'));
    ClaimsTold(n.claims, n'.claims);
    ProtocolsTold(codec, n, n');
  }
}
