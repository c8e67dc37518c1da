/** Vocabulary shared by every module of the project. */
module Basics {

  datatype Option<+T> = None | Some(value: T)

  /** The outcome of a fallible operation; the reason is a short code. */
  datatype Outcome<+T> = Ok(value: T) | Err(reason: string)

  const U64_MAX: nat := 0xFFFF_FFFF_FFFF_FFFF

  /** Unsigned 64-bit addition of one that sticks at the maximum. */
  function SaturatingInc(n: nat): (r: nat)
    requires n <= U64_MAX
    ensures r <= U64_MAX
    ensures n < U64_MAX ==> r == n + 1
  {
    if n == U64_MAX then n else n + 1
  }

  /** Unsigned subtraction of one that sticks at zero. */
  function SaturatingDec(n: nat): (r: nat)
    ensures 0 < n ==> r == n - 1
  {
    if n == 0 then 0 else n - 1
  }

  /** The code points Rust's `trim` removes (Unicode White_Space). */
  predicate IsWhitespace(c: char) {
    || '\t' <= c <= '\r'
    || c == ' '
    || c == '\U{0085}'
    || c == '\U{00A0}'
    || c == '\U{1680}'
    || '\U{2000}' <= c <= '\U{200A}'
    || c == '\U{2028}'
    || c == '\U{2029}'
    || c == '\U{202F}'
    || c == '\U{205F}'
    || c == '\U{3000}'
  }

  /** True when trimming leaves nothing. */
  predicate Blank(s: string) {
    forall i :: 0 <= i < |s| ==> IsWhitespace(s[i])
  }

  function TrimStart(s: string): string {
    if s != [] && IsWhitespace(s[0]) then TrimStart(s[1..]) else s
  }

  function TrimEnd(s: string): string {
    if s != [] && IsWhitespace(s[|s| - 1]) then TrimEnd(s[..|s| - 1]) else s
  }

  function Trim(s: string): string {
    TrimEnd(TrimStart(s))
  }

  predicate PartAt(s: string, part: string, i: nat) {
    i + |part| <= |s| && s[i..i + |part|] == part
  }

  predicate Contains(s: string, part: string) {
    exists i :: 0 <= i <= |s| && PartAt(s, part, i)
  }
}
