/** The JSON Schema subset checker. */
module Schema {
  import opened Basics
  import opened Json

  /** Equality of JSON values: member order does not count. */
  predicate SameValue(v: Json, w: Json) {
    Canonical(v) == Canonical(w)
  }

  datatype TypeName = ObjectType | ArrayType | StringType | NumberType | IntegerType | BooleanType | NullType

  /** `None` for a type name the checker does not know. */
  function TypeNamed(name: string): Option<TypeName> {
    if name == "object" then Some(ObjectType)
    else if name == "array" then Some(ArrayType)
    else if name == "string" then Some(StringType)
    else if name == "number" then Some(NumberType)
    else if name == "integer" then Some(IntegerType)
    else if name == "boolean" then Some(BooleanType)
    else if name == "null" then Some(NullType)
    else None
  }

  predicate HasType(v: Json, t: TypeName) {
    match t
    case ObjectType => v.Obj?
    case ArrayType => v.Arr?
    case StringType => v.Str?
    case NumberType => v.Num?
    case IntegerType => v.Num? && v.n.Int?
    case BooleanType => v.Bool?
    case NullType => v.Null?
  }

  function First(a: Outcome<()>, b: Outcome<()>): Outcome<()> {
    if a.Err? then a else b
  }

  /** `validate_json_schema_subset`. */
  function Validate(schema: Json, value: Json): Outcome<()>
    decreases schema, 2
  {
    if schema.Null? || schema == Obj([]) then Ok(())
    else if !schema.Obj? then Err("schema must be an object or null")
    else
      var ms := schema.members;
      First(CheckConst(ms, value),
      First(CheckOneOf(ms, value),
      First(CheckType(ms, value),
      First(CheckRequired(ms, value),
            CheckProperties(ms, value)))))
  }

  predicate Accepts(schema: Json, value: Json)
    decreases schema, 3
  {
    Validate(schema, value).Ok?
  }

  function CheckConst(ms: seq<Member>, value: Json): Outcome<()> {
    match Get(ms, "const")
    case None => Ok(())
    case Some(expected) => if SameValue(value, expected) then Ok(()) else Err("value does not match schema const")
  }

  function CheckOneOf(ms: seq<Member>, value: Json): Outcome<()>
    decreases ms, 1
  {
    match Get(ms, "oneOf")
    case None => Ok(())
    case Some(oneOf) =>
      if !oneOf.Arr? then Err("schema oneOf must be an array")
      else if oneOf.items == [] then Err("schema oneOf must contain at least one branch")
      else if Count(oneOf.items, value) == 1 then Ok(())
      else Err("value must match exactly one schema oneOf branch")
  }

  /** How many branches accept the value. */
  function Count(branches: seq<Json>, value: Json): nat
    decreases branches, 0
  {
    if branches == [] then 0
    else Count(branches[..|branches| - 1], value) + (if Accepts(branches[|branches| - 1], value) then 1 else 0)
  }

  function CheckType(ms: seq<Member>, value: Json): Outcome<()> {
    match Get(ms, "type")
    case None => Ok(())
    case Some(name) =>
      if !name.Str? then Err("schema type must be a string") else CheckNamed(TypeNamed(name.s), value)
  }

  function CheckNamed(t: Option<TypeName>, value: Json): Outcome<()> {
    match t
    case None => Err("unsupported schema type")
    case Some(t) => if HasType(value, t) then Ok(()) else Err("value does not match schema type")
  }

  function CheckRequired(ms: seq<Member>, value: Json): Outcome<()> {
    match Get(ms, "required")
    case None => Ok(())
    case Some(required) =>
      if !required.Arr? then Err("schema required must be an array")
      else if !value.Obj? then Err("required fields need an object value")
      else CheckFields(required.items, value.members)
  }

  function CheckFields(fields: seq<Json>, data: seq<Member>): Outcome<()> {
    if fields == [] then Ok(())
    else First(CheckFields(fields[..|fields| - 1], data), CheckField(fields[|fields| - 1], data))
  }

  function CheckField(field: Json, data: seq<Member>): Outcome<()> {
    if !field.Str? then Err("required field names must be strings")
    else if Get(data, field.s).None? then Err("missing required field")
    else Ok(())
  }

  function CheckProperties(ms: seq<Member>, value: Json): Outcome<()>
    decreases ms, 1
  {
    match Get(ms, "properties")
    case None => Ok(())
    case Some(properties) =>
      if !properties.Obj? then Err("schema properties must be an object")
      else if !value.Obj? then Ok(())
      else CheckEach(properties.members, value.members)
  }

  function CheckEach(properties: seq<Member>, data: seq<Member>): Outcome<()>
    decreases properties, 0
  {
    if properties == [] then Ok(())
    else
      var p := properties[|properties| - 1];
      First(CheckEach(properties[..|properties| - 1], data),
            match Get(data, p.key)
            case None => Ok(())
            case Some(v) => Validate(p.value, v))
  }

  // ---------------------------------------------------------------------------
  // What acceptance means, keyword by keyword
  // ---------------------------------------------------------------------------

  lemma {:induction false} FieldsMean(fields: seq<Json>, data: seq<Member>)
    ensures CheckFields(fields, data).Ok? <==>
              forall i :: 0 <= i < |fields| ==> fields[i].Str? && Get(data, fields[i].s).Some?
  {
    if fields != [] { FieldsMean(fields[..|fields| - 1], data); }
  }

  /** The value's field, when present, satisfies the property's schema. */
  ghost predicate Fits(p: Member, data: seq<Member>) {
    Get(data, p.key).Some? ==> Accepts(p.value, Get(data, p.key).value)
  }

  lemma {:induction false} EachMeans(properties: seq<Member>, data: seq<Member>)
    ensures CheckEach(properties, data).Ok? <==> forall i :: 0 <= i < |properties| ==> Fits(properties[i], data)
  {
    if properties != [] {
      var init, last := properties[..|properties| - 1], properties[|properties| - 1];
      EachMeans(init, data);
      assert CheckEach(properties, data).Ok? <==> CheckEach(init, data).Ok? && Fits(last, data);
    }
  }

  /** The branch is the only one that accepts the value. */
  ghost predicate OnlyBranch(branches: seq<Json>, value: Json, i: nat) {
    && i < |branches| && Accepts(branches[i], value)
    && forall j :: 0 <= j < |branches| && Accepts(branches[j], value) ==> j == i
  }

  lemma {:induction false} CountZero(branches: seq<Json>, value: Json)
    ensures Count(branches, value) == 0 <==> forall i :: 0 <= i < |branches| ==> !Accepts(branches[i], value)
  {
    if branches != [] { CountZero(branches[..|branches| - 1], value); }
  }

  lemma {:induction false} CountOne(branches: seq<Json>, value: Json)
    ensures Count(branches, value) == 1 <==> exists i :: OnlyBranch(branches, value, i)
  {
    if branches != [] {
      var n := |branches| - 1;
      var init := branches[..n];
      CountZero(init, value);
      CountOne(init, value);
      if Accepts(branches[n], value) {
        if Count(init, value) == 0 { assert OnlyBranch(branches, value, n); }
      } else {
        if i :| OnlyBranch(init, value, i) { assert OnlyBranch(branches, value, i); }
        if i :| OnlyBranch(branches, value, i) { assert OnlyBranch(init, value, i); }
      }
    }
  }
}
