/** The range scan that stands in for a prefix match on event kinds. */
module KindPrefix {
  import opened Basics
  import opened Sorting
  import opened EventLog

  // ---------------------------------------------------------------------------
  // UTF-8 (table 3-7 of the Unicode Standard)
  // ---------------------------------------------------------------------------

  predicate Continuation(b: Byte) {
    0x80 <= b <= 0xBF
  }

  /** The range of the second byte after a lead byte of a longer sequence. */
  predicate Second(lead: Byte, b: Byte) {
    if lead == 0xE0 then 0xA0 <= b <= 0xBF
    else if lead == 0xED then 0x80 <= b <= 0x9F
    else if lead == 0xF0 then 0x90 <= b <= 0xBF
    else if lead == 0xF4 then 0x80 <= b <= 0x8F
    else Continuation(b)
  }

  /** The length a lead byte announces; zero for a byte that starts no character. */
  function Announced(lead: Byte): (n: nat)
    ensures n <= 4
  {
    if lead <= 0x7F then 1
    else if 0xC2 <= lead <= 0xDF then 2
    else if 0xE0 <= lead <= 0xEF then 3
    else if 0xF0 <= lead <= 0xF4 then 4
    else 0
  }

  /** The bytes start with one well-formed character. */
  predicate StartsWell(bytes: Kind) {
    && bytes != []
    && var n := Announced(bytes[0]);
       && 0 < n <= |bytes|
       && (n > 1 ==> Second(bytes[0], bytes[1]))
       && forall i :: 2 <= i < n ==> Continuation(bytes[i])
  }

  predicate Utf8(bytes: Kind)
    decreases |bytes|
  {
    bytes == [] || (StartsWell(bytes) && Utf8(bytes[Announced(bytes[0])..]))
  }

  // ---------------------------------------------------------------------------
  // Byte order and the bound
  // ---------------------------------------------------------------------------

  function ByteOrder(): Order<Byte> {
    (a: Byte, b: Byte) => a < b
  }

  predicate Less(a: Kind, b: Kind) {
    LexLess(a, b, ByteOrder())
  }

  /** The smallest string above everything that starts with `p`; none if `p` is all 0xFF. */
  function Bump(p: Kind): Option<Kind> {
    if p == [] then None
    else match Bump(p[1..])
      case Some(t) => Some([p[0]] + t)
      case None => if p[0] < 0xFF then Some([p[0] + 1]) else None
  }

  /** `kind_prefix_upper_bound`: the bound, or the empty string where it is not UTF-8. */
  function UpperBound(p: Kind): Option<Kind> {
    match Bump(p)
    case None => None
    case Some(u) => Some(if Utf8(u) then u else [])
  }

  lemma {:induction false} BumpLast(q: Kind, b: Byte)
    ensures b < 0xFF ==> Bump(q + [b]) == Some(q + [b + 1])
    ensures b == 0xFF ==> Bump(q + [b]) == Bump(q)
  {
    if q == [] {
      assert (q + [b])[1..] == [] && q + [b] == [b];
      assert b < 0xFF ==> q + [b + 1] == [b + 1];
    } else {
      BumpLast(q[1..], b);
      assert (q + [b])[1..] == q[1..] + [b];
      assert b < 0xFF ==> [q[0]] + (q[1..] + [b + 1]) == q + [b + 1];
    }
  }

  method KindPrefixUpperBound(prefix: Kind) returns (upper: Option<Kind>)
    ensures upper == UpperBound(prefix)
  {
    var bytes := prefix;
    while true
      invariant Bump(bytes) == Bump(prefix)
      decreases |bytes|
    {
      if bytes == [] {
        return None;
      }
      var last := bytes[|bytes| - 1];
      BumpLast(bytes[..|bytes| - 1], last);
      assert bytes == bytes[..|bytes| - 1] + [last];
      if last < 0xFF {
        assert bytes[|bytes| - 1 := last + 1] == bytes[..|bytes| - 1] + [last + 1];
        bytes := bytes[|bytes| - 1 := last + 1];
        return Some(if Utf8(bytes) then bytes else []);
      }
      bytes := bytes[..|bytes| - 1];
    }
  }

  // ---------------------------------------------------------------------------
  // The range is the prefix match, on bytes
  // ---------------------------------------------------------------------------

  predicate InRange(k: Kind, low: Kind, high: Kind) {
    !Less(k, low) && Less(k, high)
  }

  /** At least an all-0xFF string means starting with it. */
  lemma {:induction false} AboveMaximal(p: Kind, k: Kind)
    requires Bump(p).None?
    ensures !Less(k, p) <==> p <= k
  {
    if p != [] && k != [] {
      AboveMaximal(p[1..], k[1..]);
      assert p <= k <==> p[0] == k[0] && p[1..] <= k[1..];
    }
  }

  lemma {:induction false} RangeIsPrefix(p: Kind, k: Kind)
    requires Bump(p).Some?
    ensures InRange(k, p, Bump(p).value) <==> p <= k
  {
    if k != [] {
      assert p <= k <==> p[0] == k[0] && p[1..] <= k[1..];
      if Bump(p[1..]).Some? {
        RangeIsPrefix(p[1..], k[1..]);
        assert Bump(p).value[1..] == Bump(p[1..]).value;
      } else {
        AboveMaximal(p[1..], k[1..]);
        var u: Kind := [p[0] + 1];
        assert Bump(p).value == u && !Less(k[1..], u[1..]);
      }
    }
  }

  // ---------------------------------------------------------------------------
  // Where the bound is UTF-8
  // ---------------------------------------------------------------------------

  function Raised(p: Kind): Kind
    requires p != [] && p[|p| - 1] < 0xFF
  {
    p[..|p| - 1] + [p[|p| - 1] + 1]
  }

  lemma {:induction false} Utf8Last(p: Kind)
    requires Utf8(p) && p != []
    ensures p[|p| - 1] <= 0xF4
    decreases |p|
  {
    var n := Announced(p[0]);
    if n < |p| {
      Utf8Last(p[n..]);
    }
  }

  /** One character: an ASCII byte below 0x7F, or a trailing byte below 0xBF, can be raised. */
  lemma RaisedCharacter(p: Kind)
    requires StartsWell(p) && Announced(p[0]) == |p| && p[|p| - 1] < 0xFF
    ensures Utf8(Raised(p)) <==> p[|p| - 1] != 0x7F && p[|p| - 1] != 0xBF
  {
    var n, r := |p|, Raised(p);
    if n == 1 {
      assert r[0] == p[0] + 1 && r[1..] == [];
      assert p[0] == 0x7F ==> Announced(r[0]) == 0;
    } else {
      assert r[0] == p[0] && r[n..] == [];
      assert r[n - 1] == p[n - 1] + 1;
      assert forall i :: 2 <= i < n - 1 ==> r[i] == p[i];
      assert n > 2 ==> r[1] == p[1];
      assert Utf8(r) <==> StartsWell(r);
    }
  }

  /** The last byte of a text can go up by one, except from 0x7F and from 0xBF. */
  lemma {:induction false} RaisedUtf8(p: Kind)
    requires Utf8(p) && p != [] && p[|p| - 1] < 0xFF
    ensures Utf8(Raised(p)) <==> p[|p| - 1] != 0x7F && p[|p| - 1] != 0xBF
    decreases |p|
  {
    var n, r := Announced(p[0]), Raised(p);
    if n == |p| {
      RaisedCharacter(p);
    } else {
      RaisedUtf8(p[n..]);
      assert r[n..] == Raised(p[n..]);
      assert forall i :: 0 <= i < n ==> r[i] == p[i];
      assert StartsWell(r);
    }
  }

  // ---------------------------------------------------------------------------
  // The query
  // ---------------------------------------------------------------------------

  /** The row test of the SQL: the range, or `LIKE '%'` when there is no bound. */
  predicate Selects(k: Kind, prefix: Kind) {
    match UpperBound(prefix)
    case Some(u) => InRange(k, prefix, u)
    case None => true
  }

  /** A text has no bound only when it is empty, so the fallback is always the full scan. */
  lemma BoundOfText(prefix: Kind)
    requires Utf8(prefix)
    ensures UpperBound(prefix).None? <==> prefix == []
    ensures prefix != [] ==> prefix[|prefix| - 1] < 0xFF && Bump(prefix) == Some(Raised(prefix))
  {
    if prefix != [] {
      Utf8Last(prefix);
      BumpLast(prefix[..|prefix| - 1], prefix[|prefix| - 1]);
      assert prefix == prefix[..|prefix| - 1] + [prefix[|prefix| - 1]];
    }
  }

  /** What a caller can see of a prefix: whether its last byte can be raised. */
  predicate Scannable(prefix: Kind) {
    prefix == [] || (prefix[|prefix| - 1] != 0x7F && prefix[|prefix| - 1] != 0xBF)
  }

  lemma ScanSelects(prefix: Kind, k: Kind)
    requires Utf8(prefix) && Scannable(prefix)
    ensures Selects(k, prefix) <==> prefix <= k
  {
    BoundOfText(prefix);
    if prefix != [] {
      RaisedUtf8(prefix);
      RangeIsPrefix(prefix, k);
    }
  }

  /** Otherwise the bound is empty and the scan finds nothing at all. */
  lemma ScanFindsNothing(prefix: Kind, k: Kind)
    requires Utf8(prefix) && !Scannable(prefix)
    ensures !Selects(k, prefix)
  {
    BoundOfText(prefix);
    RaisedUtf8(prefix);
  }

  /** The pushdown is the prefix match, for every kind, exactly when the prefix is scannable. */
  lemma PushdownExact(prefix: Kind)
    requires Utf8(prefix)
    ensures (forall k :: Utf8(k) ==> (Selects(k, prefix) <==> prefix <= k)) <==> Scannable(prefix)
  {
    if Scannable(prefix) {
      forall k | Utf8(k) ensures Selects(k, prefix) <==> prefix <= k {
        ScanSelects(prefix, k);
      }
    } else {
      ScanFindsNothing(prefix, prefix);
      assert Utf8(prefix) && prefix <= prefix;
    }
  }

  /** A kind ending in the delete character is one such prefix: it does not even find itself. */
  lemma DeleteIsNotFound()
    ensures Utf8([0x61, 0x7F]) && !Selects([0x61, 0x7F], [0x61, 0x7F])
  {
    var p: Kind := [0x61, 0x7F];
    assert p[1..] == [0x7F] && p[1..][1..] == [];
    ScanFindsNothing(p, p);
  }
}
