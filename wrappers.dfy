/** Option and Result, the two sum types every module returns. */
module Wrappers {
  datatype Option<T> = None | Some(value: T)
  {
    function GetOr(default: T): T
    {
      match this
      case None => default
      case Some(v) => v
    }
  }

  datatype Result<T, E> = Success(value: T) | Failure(error: E)
}

/** Fixed-width integers of the original program, as bounded naturals. */
module Numeric {
  const U16_LIMIT: nat := 0x1_0000
  const U32_LIMIT: nat := 0x1_0000_0000
  const U32_MAX: nat := 0xFFFF_FFFF
  const U64_MAX: nat := 0xFFFF_FFFF_FFFF_FFFF
  const I32_MAX: nat := 0x7FFF_FFFF

  type u16 = x: nat | x < U16_LIMIT
  type u32 = x: nat | x <= U32_MAX
  type u64 = x: nat | x <= U64_MAX
  type NonZeroU32 = x: nat | 1 <= x <= U32_MAX witness 1

  /** `x.wrapping_add(1)` on a 32-bit unsigned integer. */
  function WrappingInc32(x: u32): u32
  {
    if x == U32_MAX then 0 else x + 1
  }

  /** `x.wrapping_add(1)` on a 64-bit unsigned integer (what `fetch_add(1)` stores). */
  function WrappingInc64(x: u64): u64
  {
    if x == U64_MAX then 0 else x + 1
  }
}

/** Searching and removing in vectors, as `Iterator::position` and `Vec::remove` do. */
module Seqs {
  import opened Wrappers

  /** The index of the first element satisfying `p`, or `None` when no element does. */
  function FirstIndex<T>(s: seq<T>, p: T -> bool): (r: Option<nat>)
    ensures r.Some? ==> r.value < |s| && p(s[r.value])
    ensures r.Some? ==> forall j :: 0 <= j < r.value ==> !p(s[j])
    ensures r.None? <==> forall j :: 0 <= j < |s| ==> !p(s[j])
  {
    if |s| == 0 then None
    else if p(s[0]) then Some(0)
    else
      match FirstIndex(s[1..], p)
      case None => None
      case Some(k) => Some(k + 1)
  }

  /** `Vec::remove(i)`: the element at `i` leaves, the others keep their order. */
  function RemoveAt<T>(s: seq<T>, i: nat): (r: seq<T>)
    requires i < |s|
    ensures |r| == |s| - 1
    ensures forall j :: 0 <= j < i ==> r[j] == s[j]
    ensures forall j :: i <= j < |r| ==> r[j] == s[j + 1]
    ensures multiset(r) + multiset{s[i]} == multiset(s)
  {
    assert s == s[..i] + [s[i]] + s[i + 1..];
    s[..i] + s[i + 1..]
  }
}
