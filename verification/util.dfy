/** The prefix-copy helper of src/util.rs, used to load a program image and to
    fetch an instruction window. A Rust `&mut [T]` parameter is modelled by its
    value going in and its value coming out; `from` is an immutable sequence, so
    it cannot be modified. */
module Util {

  function Min(a: int, b: int): int
  {
    if a <= b then a else b
  }

  /** The value of `into` after copying `from` over it: the first
      `min(|into|, |from|)` elements come from `from`, the rest are untouched.
      A longer `from` is silently truncated, and nothing can fail. */
  function Copied<T>(into: seq<T>, from: seq<T>): (r: seq<T>)
    ensures |r| == |into|
    ensures forall i :: 0 <= i < |into| && i < |from| ==> r[i] == from[i]
    ensures forall i :: |from| <= i < |into| ==> r[i] == into[i]
  {
    var l := Min(|into|, |from|);
    from[..l] + into[l..]
  }

  /** `copy(into, from)`: the element-by-element loop of the source. */
  method Copy<T>(into: seq<T>, from: seq<T>) returns (r: seq<T>)
    ensures r == Copied(into, from)
  {
    var l := Min(|into|, |from|);
    r := into;
    for i := 0 to l
      invariant |r| == |into|
      invariant forall j :: 0 <= j < i ==> r[j] == from[j]
      invariant forall j :: i <= j < |into| ==> r[j] == into[j]
    {
      r := r[i := from[i]];
    }
  }
}
