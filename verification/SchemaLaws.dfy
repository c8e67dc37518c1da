/** Laws of the schema checker. */
module SchemaLaws {
  import opened Basics
  import opened Json
  import opened JsonCanon
  import opened Schema

  /** An object schema accepts exactly what passes every keyword it has. */
  lemma AcceptsObject(ms: seq<Member>, v: Json)
    ensures Accepts(Obj(ms), v) <==>
              && CheckConst(ms, v).Ok? && CheckOneOf(ms, v).Ok? && CheckType(ms, v).Ok?
              && CheckRequired(ms, v).Ok? && CheckProperties(ms, v).Ok?
  {
  }

  /** `oneOf` accepts exactly when one branch, and no other, accepts. */
  lemma OneOfMeansExactlyOne(ms: seq<Member>, branches: seq<Json>, v: Json)
    requires Get(ms, "oneOf") == Some(Arr(branches))
    ensures CheckOneOf(ms, v).Ok? <==> exists i :: OnlyBranch(branches, v, i)
  {
    CountOne(branches, v);
  }

  // ---------------------------------------------------------------------------
  // Discriminated unions
  // ---------------------------------------------------------------------------

  /** The branch requires `field` and pins it to the constant `tag`. */
  ghost predicate Tagged(branch: Json, field: string, tag: Json) {
    && branch.Obj?
    && var required, properties := Get(branch.members, "required"), Get(branch.members, "properties");
       && required.Some? && required.value.Arr? && Str(field) in required.value.items
       && properties.Some? && properties.value.Obj?
       && var p := Get(properties.value.members, field);
          p.Some? && p.value.Obj? && Get(p.value.members, "const") == Some(tag)
  }

  lemma TaggedAccepts(branch: Json, field: string, tag: Json, v: Json)
    requires Tagged(branch, field, tag) && Accepts(branch, v)
    ensures v.Obj? && Get(v.members, field).Some? && SameValue(Get(v.members, field).value, tag)
  {
    var ms := branch.members;
    AcceptsObject(ms, v);
    var fields := Get(ms, "required").value.items;
    FieldsMean(fields, v.members);
    var i :| 0 <= i < |fields| && fields[i] == Str(field);
    var properties := Get(ms, "properties").value.members;
    EachMeans(properties, v.members);
    var k :| 0 <= k < |properties| && properties[k].key == field && properties[k].value == Get(properties, field).value;
    assert Fits(properties[k], v.members);
    AcceptsObject(properties[k].value.members, Get(v.members, field).value);
  }

  /** All branches discriminate on one field, by constants that differ. */
  ghost predicate Discriminated(branches: seq<Json>, field: string, tags: seq<Json>) {
    && |tags| == |branches|
    && (forall i :: 0 <= i < |branches| ==> Tagged(branches[i], field, tags[i]))
    && (forall i, j :: 0 <= i < j < |tags| ==> !SameValue(tags[i], tags[j]))
  }

  lemma AtMostOneBranch(branches: seq<Json>, field: string, tags: seq<Json>, v: Json, i: nat, j: nat)
    requires Discriminated(branches, field, tags) && i < |branches| && j < |branches|
    requires Accepts(branches[i], v) && Accepts(branches[j], v)
    ensures i == j
  {
    TaggedAccepts(branches[i], field, tags[i], v);
    TaggedAccepts(branches[j], field, tags[j], v);
  }

  lemma SomeBranchIsOnly(branches: seq<Json>, field: string, tags: seq<Json>, v: Json, i: nat)
    requires Discriminated(branches, field, tags) && i < |branches| && Accepts(branches[i], v)
    ensures OnlyBranch(branches, v, i)
  {
    forall j | 0 <= j < |branches| && Accepts(branches[j], v) ensures j == i {
      AtMostOneBranch(branches, field, tags, v, i, j);
    }
  }

  ghost predicate SomeBranch(branches: seq<Json>, v: Json) {
    exists i :: 0 <= i < |branches| && Accepts(branches[i], v)
  }

  /** On a discriminated union, exactly-one is plain disjunction. */
  lemma DiscriminatedIsDisjunction(ms: seq<Member>, branches: seq<Json>, field: string, tags: seq<Json>, v: Json)
    requires Get(ms, "oneOf") == Some(Arr(branches)) && Discriminated(branches, field, tags)
    ensures CheckOneOf(ms, v).Ok? <==> SomeBranch(branches, v)
  {
    OneOfMeansExactlyOne(ms, branches, v);
    if SomeBranch(branches, v) {
      var i :| 0 <= i < |branches| && Accepts(branches[i], v);
      SomeBranchIsOnly(branches, field, tags, v, i);
    }
  }

  // ---------------------------------------------------------------------------
  // Member order, of schema and value, never matters
  // ---------------------------------------------------------------------------

  lemma GetWellFormed(ms: seq<Member>, key: string)
    requires WellFormed(Obj(ms)) && Get(ms, key).Some?
    ensures WellFormed(Get(ms, key).value)
  {
  }

  lemma {:induction false} CountCanonical(branches: seq<Json>, v: Json)
    requires WellFormed(v) && forall i :: 0 <= i < |branches| ==> WellFormed(branches[i])
    ensures Count(CanonicalItems(branches), Canonical(v)) == Count(branches, v)
    decreases branches, 0
  {
    if branches != [] {
      var n := |branches| - 1;
      CountCanonical(branches[..n], v);
      AcceptsCanonical(branches[n], v);
      assert CanonicalItems(branches)[..n] == CanonicalItems(branches[..n]);
    }
  }

  lemma OneOfCanonical(ms: seq<Member>, v: Json)
    requires WellFormed(Obj(ms)) && WellFormed(v)
    ensures CheckOneOf(CanonicalMembers(ms), Canonical(v)).Ok? <==> CheckOneOf(ms, v).Ok?
    decreases ms, 1
  {
    GetCanonical(ms, "oneOf");
    var branches := Get(ms, "oneOf");
    if branches.Some? && branches.value.Arr? {
      GetWellFormed(ms, "oneOf");
      assert Get(CanonicalMembers(ms), "oneOf") == Some(Arr(CanonicalItems(branches.value.items)));
      CountCanonical(branches.value.items, v);
    }
  }

  lemma ConstCanonical(ms: seq<Member>, v: Json)
    ensures CheckConst(CanonicalMembers(ms), Canonical(v)).Ok? <==> CheckConst(ms, v).Ok?
  {
    GetCanonical(ms, "const");
    CanonicalIdempotent(v);
    if Get(ms, "const").Some? { CanonicalIdempotent(Get(ms, "const").value); }
  }

  lemma NamedCanonical(t: Option<TypeName>, v: Json)
    ensures CheckNamed(t, Canonical(v)) == CheckNamed(t, v)
  {
  }

  lemma TypeCanonical(ms: seq<Member>, v: Json)
    ensures CheckType(CanonicalMembers(ms), Canonical(v)).Ok? <==> CheckType(ms, v).Ok?
  {
    GetCanonical(ms, "type");
    var name := Get(ms, "type");
    if name.Some? && name.value.Str? {
      assert Get(CanonicalMembers(ms), "type") == name;
      NamedCanonical(TypeNamed(name.value.s), v);
      assert CheckType(ms, v) == CheckNamed(TypeNamed(name.value.s), v);
      assert CheckType(CanonicalMembers(ms), Canonical(v)) == CheckNamed(TypeNamed(name.value.s), Canonical(v));
    }
  }

  ghost predicate NamesPresent(field: Json, data: seq<Member>) {
    field.Str? && Get(data, field.s).Some?
  }

  lemma NamesCanonical(fields: seq<Json>, data: seq<Member>, i: nat)
    requires i < |fields|
    ensures NamesPresent(CanonicalItems(fields)[i], CanonicalMembers(data)) <==> NamesPresent(fields[i], data)
  {
    ItemsAt(fields, i);
    if fields[i].Str? { GetCanonical(data, fields[i].s); }
  }

  lemma FieldsNamed(fields: seq<Json>, data: seq<Member>)
    ensures CheckFields(fields, data).Ok? <==> forall i :: 0 <= i < |fields| ==> NamesPresent(fields[i], data)
  {
    FieldsMean(fields, data);
  }

  lemma FieldsCanonical(fields: seq<Json>, data: seq<Member>)
    ensures CheckFields(CanonicalItems(fields), CanonicalMembers(data)).Ok? <==> CheckFields(fields, data).Ok?
  {
    FieldsNamed(fields, data);
    FieldsNamed(CanonicalItems(fields), CanonicalMembers(data));
    forall i | 0 <= i < |fields|
      ensures NamesPresent(CanonicalItems(fields)[i], CanonicalMembers(data)) <==> NamesPresent(fields[i], data)
    {
      NamesCanonical(fields, data, i);
    }
  }

  lemma RequiredCanonical(ms: seq<Member>, v: Json)
    ensures CheckRequired(CanonicalMembers(ms), Canonical(v)).Ok? <==> CheckRequired(ms, v).Ok?
  {
    GetCanonical(ms, "required");
    if Get(ms, "required").Some? && Get(ms, "required").value.Arr? && v.Obj? {
      FieldsCanonical(Get(ms, "required").value.items, v.members);
    }
  }

  lemma {:induction false} FitsCanonical(p: Member, data: seq<Member>)
    requires WellFormed(p.value) && WellFormed(Obj(data))
    ensures Fits(Canonised(p), CanonicalMembers(data)) <==> Fits(p, data)
    decreases p, 0
  {
    GetCanonical(data, p.key);
    if Get(data, p.key).Some? {
      GetWellFormed(data, p.key);
      AcceptsCanonical(p.value, Get(data, p.key).value);
    }
  }

  lemma {:induction false} EachCanonical(ps: seq<Member>, data: seq<Member>)
    requires WellFormed(Obj(ps)) && WellFormed(Obj(data))
    ensures CheckEach(CanonicalMembers(ps), CanonicalMembers(data)).Ok? <==> CheckEach(ps, data).Ok?
    decreases ps, 1
  {
    var cs, cd := CanonicalMembers(ps), CanonicalMembers(data);
    EachMeans(ps, data);
    EachMeans(cs, cd);
    MembersAscending(ps);
    forall i | 0 <= i < |ps| ensures Canonised(ps[i]) in cs && (Fits(Canonised(ps[i]), cd) <==> Fits(ps[i], data)) {
      MembersComplete(ps, i);
      FitsCanonical(ps[i], data);
    }
    FitsTransfer(ps, cs, data, cd);
  }

  lemma FitsTransfer(ps: seq<Member>, cs: seq<Member>, data: seq<Member>, cd: seq<Member>)
    requires forall i :: 0 <= i < |ps| ==> Canonised(ps[i]) in cs && (Fits(Canonised(ps[i]), cd) <==> Fits(ps[i], data))
    requires forall x :: x in cs ==> exists i :: 0 <= i < |ps| && x == Canonised(ps[i])
    ensures (forall k :: 0 <= k < |cs| ==> Fits(cs[k], cd)) <==> forall i :: 0 <= i < |ps| ==> Fits(ps[i], data)
  {
    if forall k :: 0 <= k < |cs| ==> Fits(cs[k], cd) {
      forall i | 0 <= i < |ps| ensures Fits(ps[i], data) {
        var k :| 0 <= k < |cs| && cs[k] == Canonised(ps[i]);
      }
    }
    if forall i :: 0 <= i < |ps| ==> Fits(ps[i], data) {
      forall k | 0 <= k < |cs| ensures Fits(cs[k], cd) {
        assert cs[k] in cs;
        var i :| 0 <= i < |ps| && cs[k] == Canonised(ps[i]);
      }
    }
  }

  lemma PropertiesCanonical(ms: seq<Member>, v: Json)
    requires WellFormed(Obj(ms)) && WellFormed(v)
    ensures CheckProperties(CanonicalMembers(ms), Canonical(v)).Ok? <==> CheckProperties(ms, v).Ok?
    decreases ms, 1
  {
    GetCanonical(ms, "properties");
    if Get(ms, "properties").Some? && Get(ms, "properties").value.Obj? && v.Obj? {
      GetWellFormed(ms, "properties");
      EachCanonical(Get(ms, "properties").value.members, v.members);
    }
  }

  lemma {:induction false} AcceptsCanonical(schema: Json, v: Json)
    requires WellFormed(schema) && WellFormed(v)
    ensures Accepts(Canonical(schema), Canonical(v)) <==> Accepts(schema, v)
    decreases schema, 2
  {
    if schema.Obj? {
      var ms := schema.members;
      AcceptsObject(ms, v);
      AcceptsObject(CanonicalMembers(ms), Canonical(v));
      ConstCanonical(ms, v);
      TypeCanonical(ms, v);
      OneOfCanonical(ms, v);
      RequiredCanonical(ms, v);
      PropertiesCanonical(ms, v);
    }
  }

  /** Reordering members of schema or value, at any depth, never changes the verdict. */
  lemma OrderNeverMatters(schema: Json, schema': Json, v: Json, v': Json)
    requires WellFormed(schema) && WellFormed(schema') && WellFormed(v) && WellFormed(v')
    requires Equivalent(schema, schema') && Equivalent(v, v')
    ensures Accepts(schema, v) <==> Accepts(schema', v')
  {
    CanonicalDecides(schema, schema');
    CanonicalDecides(v, v');
    AcceptsCanonical(schema, v);
    AcceptsCanonical(schema', v');
  }
}
