// Small shared vocabulary: optional values, bit-word helpers and the
// arithmetic macros of WR_Implementation.h.
module Wrappers {
  datatype Option<T> = None | Some(value: T)

  /** An unsigned char read as a number. */
  type Byte = x: int | 0 <= x < 0x100

  /** CHECK_BITS(bit, mask): every bit of `bit` is set in `mask`. */
  predicate CheckBits(bit: bv32, mask: bv32)
  {
    mask & bit == bit
  }

  /** The flag word after SetFlags(bit, on): SET_BITS or CLEAR_BITS. */
  function SetFlag(word: bv32, bit: bv32, on: bool): bv32
  {
    if on then word | bit else word & !bit
  }

  /** IS_POW2 on a 32-bit unsigned word; note that 0 passes. */
  predicate IsPow2(n: bv32)
  {
    n & (n - 1) == 0
  }

  /** MIN(a, b) and MAX(a, b) of WR_Implementation.h on integers. */
  function Min(a: int, b: int): (r: int)
    ensures r <= a && r <= b && (r == a || r == b)
  {
    if a < b then a else b
  }

  function Max(a: int, b: int): (r: int)
    ensures r >= a && r >= b && (r == a || r == b)
  {
    if a < b then b else a
  }

  /** CLAMP(num, lo, hi) on reals, as the macro evaluates it. */
  function Clamp(num: real, lo: real, hi: real): (r: real)
    ensures lo <= hi ==> lo <= r <= hi
    ensures lo <= num <= hi ==> r == num
  {
    if num < lo then lo else if num > hi then hi else num
  }

  /** CLAMP(num, lo, hi) on integers. */
  function ClampInt(num: int, lo: int, hi: int): (r: int)
    ensures lo <= hi ==> lo <= r <= hi
    ensures lo <= num <= hi ==> r == num
  {
    if num < lo then lo else if num > hi then hi else num
  }

  function Abs(x: real): (r: real)
    ensures r >= 0.0 && (r == x || r == -x)
  {
    if x < 0.0 then -x else x
  }

  /** PI and DEGTORAD as WR_Implementation.h defines them. */
  const PI: real := 3.14159265

  function DegToRad(deg: real): real
  {
    deg * (PI / 180.0)
  }

  /** Concatenation is associative (stated once, for any element type). */
  lemma Append<T>(a: seq<T>, b: seq<T>, c: seq<T>)
    ensures (a + b) + c == a + (b + c)
  {
  }

  /** A log of on (true) and off (false) edges that alternates, beginning with an on,
      and ends in the state `on`. */
  predicate Alternating(edges: seq<bool>, on: bool)
  {
    (forall i :: 0 <= i < |edges| ==> edges[i] == (i % 2 == 0)) && (on <==> |edges| % 2 == 1)
  }

  /** Switching the state, and logging that edge, keeps the log alternating. */
  lemma Toggle(edges: seq<bool>, on: bool)
    requires Alternating(edges, on)
    ensures Alternating(edges + [!on], !on)
  {
  }
}
