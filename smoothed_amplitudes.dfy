/**
 * `SmoothedAmplitudes` of src/SmoothedAmplitudes.hpp: a vector built from
 * a caller's amplitudes by filling every exact zero with a cubic spline
 * through the nonzero entries, provided there are at least three of them;
 * otherwise the new vector takes over the caller's contents by swapping
 * buffers, and the caller is left holding the zeros the new vector was
 * created with.
 */
module SmoothedAmplitudes {
  import opened Vectors
  import opened Spline

  class SmoothedAmplitudes {
    var elems: seq<real>

    constructor (amplitudes: FloatVector, fit: SplineFn)
      modifies amplitudes
      ensures |elems| == |old(amplitudes.elems)|
      ensures KnotCount(old(amplitudes.elems)) >= 3 ==>
                elems == GapFill(old(amplitudes.elems), fit, CubicSpline) && amplitudes.elems == old(amplitudes.elems)
      ensures KnotCount(old(amplitudes.elems)) < 3 ==>
                elems == old(amplitudes.elems) && amplitudes.elems == Zeros(|old(amplitudes.elems)|)
    {
      var n := |amplitudes.elems|;
      elems := Zeros(n);
      new;
      var indices, values := CollectKnots(amplitudes.elems);
      if |indices| >= 3 {
        ghost var r := GapFill(amplitudes.elems, fit, CubicSpline);
        ghost var s := amplitudes.elems;
        var i := 0;
        while i < n
          invariant 0 <= i <= n && |elems| == n && amplitudes.elems == s
          invariant forall j :: 0 <= j < i ==> elems[j] == r[j]
        {
          elems := elems[i := if amplitudes.elems[i] != 0.0 then amplitudes.elems[i] else fit.At(CubicSpline, indices, values, i)];
          i := i + 1;
        }
      } else {
        elems, amplitudes.elems := amplitudes.elems, elems;
      }
    }
  }
}
