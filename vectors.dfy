/**
 * `std::vector<float>` as the core uses it: an object whose contents a
 * callee may overwrite in place (`render(timedata, spectrum)`) and whose
 * length `resize` changes, keeping the common prefix and value-initialising
 * any new elements.
 */
module Vectors {

  /** `n` zeros, the contents of a value-initialised `std::vector<float>(n)`. */
  function Zeros(n: nat): (z: seq<real>)
    ensures |z| == n
  {
    if n == 0 then [] else Zeros(n - 1) + [0.0]
  }

  lemma {:induction false} ZerosAt(n: nat, i: int)
    requires 0 <= i < n
    ensures Zeros(n)[i] == 0.0
  {
    if i < n - 1 {
      ZerosAt(n - 1, i);
    }
  }

  /** The contents `resize(n)` leaves: the first `n` old elements, then `fill`. */
  function Resized<T>(s: seq<T>, n: nat, fill: T): (r: seq<T>)
    ensures |r| == n
    ensures forall i :: 0 <= i < n && i < |s| ==> r[i] == s[i]
    ensures forall i :: |s| <= i < n ==> r[i] == fill
  {
    if n <= |s| then s[..n] else s + seq(n - |s|, _ => fill)
  }

  /** Resizing to the current length changes nothing. */
  lemma ResizedSameLength<T>(s: seq<T>, fill: T)
    ensures Resized(s, |s|, fill) == s
  {
  }

  class FloatVector {
    var elems: seq<real>

    /** `std::vector<float>(n)`: n zeros. */
    constructor (n: nat)
      ensures elems == Zeros(n)
    {
      elems := Zeros(n);
    }

    method Resize(n: nat)
      modifies this
      ensures elems == Resized(old(elems), n, 0.0)
    {
      elems := Resized(elems, n, 0.0);
    }
  }
}
