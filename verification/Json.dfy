/** JSON values and their canonical form. */
module Json {
  import opened Basics
  import opened Sorting

  datatype Number = Int(i: int) | Float(r: real)

  /** An object keeps its members in the order they were written. */
  datatype Json =
    | Null
    | Bool(b: bool)
    | Num(n: Number)
    | Str(s: string)
    | Arr(items: seq<Json>)
    | Obj(members: seq<Member>)

  datatype Member = Member(key: string, value: Json)

  // ---------------------------------------------------------------------------
  // Key order: Unicode scalar values compare like their UTF-8 bytes
  // ---------------------------------------------------------------------------

  function CharOrder(): Order<char> {
    (a: char, b: char) => a < b
  }

  predicate KeyLess(a: string, b: string) {
    LexLess(a, b, CharOrder())
  }

  lemma KeyIrreflexive(a: string)
    ensures !KeyLess(a, a)
  {
    LexIrreflexive(a, CharOrder());
  }

  lemma KeyTransitive(a: string, b: string, c: string)
    requires KeyLess(a, b) && KeyLess(b, c)
    ensures KeyLess(a, c)
  {
    LexTransitive(a, b, c, CharOrder());
  }

  lemma KeyTotal(a: string, b: string)
    ensures a == b || KeyLess(a, b) || KeyLess(b, a)
  {
    LexTotal(a, b, CharOrder());
  }

  /** The value of a member, by key. */
  function Get(ms: seq<Member>, key: string): (r: Option<Json>)
    ensures r.Some? ==> exists i :: 0 <= i < |ms| && ms[i].key == key && ms[i].value == r.value
    ensures r.None? <==> forall i :: 0 <= i < |ms| ==> ms[i].key != key
  {
    if ms == [] then None
    else if ms[|ms| - 1].key == key then Some(ms[|ms| - 1].value)
    else Get(ms[..|ms| - 1], key)
  }

  // ---------------------------------------------------------------------------
  // Well-formed values, and what it means to differ only in member order
  // ---------------------------------------------------------------------------

  ghost predicate UniqueKeys(ms: seq<Member>) {
    forall i, j :: 0 <= i < j < |ms| ==> ms[i].key != ms[j].key
  }

  /** No object at any depth repeats a key. */
  ghost predicate WellFormed(v: Json) {
    match v
    case Arr(items) => forall i :: 0 <= i < |items| ==> WellFormed(items[i])
    case Obj(ms) => UniqueKeys(ms) && forall i :: 0 <= i < |ms| ==> WellFormed(ms[i].value)
    case _ => true
  }

  /** Equal but for the order of object members, at every depth. */
  ghost predicate Equivalent(v: Json, w: Json)
    decreases v, 2
  {
    match v
    case Arr(items) =>
      w.Arr? && |items| == |w.items| && forall i :: 0 <= i < |items| ==> Equivalent(items[i], w.items[i])
    case Obj(ms) =>
      && w.Obj?
      && (forall i :: 0 <= i < |ms| ==> MatchedBy(ms[i], w.members))
      && (forall j :: 0 <= j < |w.members| ==> Matches(ms, w.members[j]))
    case _ => v == w
  }

  ghost predicate EquivalentMember(m: Member, n: Member)
    decreases m, 0
  {
    m.key == n.key && Equivalent(m.value, n.value)
  }

  ghost predicate MatchedBy(m: Member, ns: seq<Member>)
    decreases m, 1
  {
    exists j :: 0 <= j < |ns| && EquivalentMember(m, ns[j])
  }

  ghost predicate Matches(ms: seq<Member>, n: Member)
    decreases ms, 0
  {
    exists i :: 0 <= i < |ms| && EquivalentMember(ms[i], n)
  }

  // ---------------------------------------------------------------------------
  // Canonical form
  // ---------------------------------------------------------------------------

  /** `BTreeMap::insert` on the members in key order: replace, or file in order. */
  function Put(ms: seq<Member>, m: Member): seq<Member> {
    if ms == [] || KeyLess(ms[|ms| - 1].key, m.key) then ms + [m]
    else if ms[|ms| - 1].key == m.key then ms[..|ms| - 1] + [m]
    else Put(ms[..|ms| - 1], m) + [ms[|ms| - 1]]
  }

  function Canonical(v: Json): Json
    decreases v, 1
  {
    match v
    case Arr(items) => Arr(CanonicalItems(items))
    case Obj(ms) => Obj(CanonicalMembers(ms))
    case _ => v
  }

  function CanonicalItems(items: seq<Json>): (r: seq<Json>)
    ensures |r| == |items|
    decreases items, 0
  {
    if items == [] then [] else CanonicalItems(items[..|items| - 1]) + [Canonical(items[|items| - 1])]
  }

  function CanonicalMembers(ms: seq<Member>): seq<Member>
    decreases ms, 0
  {
    if ms == [] then []
    else
      var last := ms[|ms| - 1];
      Put(CanonicalMembers(ms[..|ms| - 1]), Member(last.key, Canonical(last.value)))
  }

  /** `sort_json_value`, which rewrites a value from the inside out. */
  method SortJsonValue(v: Json) returns (r: Json)
    ensures r == Canonical(v)
    decreases v
  {
    match v
    case Arr(items) =>
      var done: seq<Json> := [];
      for i := 0 to |items|
        invariant done == CanonicalItems(items[..i])
      {
        var item := SortJsonValue(items[i]);
        assert items[..i + 1][..i] == items[..i];
        done := done + [item];
      }
      assert items[..|items|] == items;
      r := Arr(done);
    case Obj(ms) =>
      var sorted: seq<Member> := [];
      for i := 0 to |ms|
        invariant sorted == CanonicalMembers(ms[..i])
      {
        var value := SortJsonValue(ms[i].value);
        assert ms[..i + 1][..i] == ms[..i];
        sorted := Put(sorted, Member(ms[i].key, value));
      }
      assert ms[..|ms|] == ms;
      r := Obj(sorted);
    case _ => r := v;
  }
}
