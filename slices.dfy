/** The array slicing the views use. */
module Slices {

  function Min(a: nat, b: nat): nat
  {
    if a < b then a else b
  }

  /** JavaScript's `s.slice(-n)` for a positive `n`: the last `n` elements
      of `s`, or all of `s` when it is shorter, in their original order. */
  function Last<T>(s: seq<T>, n: nat): (r: seq<T>)
    requires n > 0
    ensures |r| == Min(n, |s|)
    ensures s == s[..|s| - |r|] + r
  {
    if |s| <= n then s else s[|s| - n..]
  }

  /** JavaScript's `s.reverse()` on a fresh copy. */
  function Reverse<T>(s: seq<T>): (r: seq<T>)
    ensures |r| == |s|
    ensures forall k :: 0 <= k < |s| ==> r[k] == s[|s| - 1 - k]
  {
    if s == [] then [] else Reverse(s[1..]) + [s[0]]
  }
}
