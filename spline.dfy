/**
 * Gap filling by curve fit, the step the three spectrum renderers share:
 * the nonzero entries of a spectrum become the knots of a spline, and when
 * there are at least three of them every entry that is exactly zero is
 * replaced by the spline's value at its index.
 *
 * The spline library (`tk::spline`) is an external collaborator: a
 * `SplineFn`, given by its graph, gives the fitted curve's value at `x` for
 * a kind of curve and the knots' abscissae and ordinates (0 where the graph
 * leaves them out).
 */
module Spline {
  import opened Vectors

  /** `tk::spline::spline_type`. */
  datatype SplineKind = LinearSpline | CubicSpline | CubicHermiteSpline

  datatype SplineFn = SplineFn(graph: imap<(SplineKind, seq<int>, seq<real>, int), real>)
  {
    function At(kind: SplineKind, xs: seq<int>, ys: seq<real>, x: int): real
    {
      if (kind, xs, ys, x) in graph then graph[(kind, xs, ys, x)] else 0.0
    }
  }

  /** The indices `i < n` with `s[i] != 0`, in the order the fill loop visits them. */
  function NonzeroIndices(s: seq<real>, n: nat): seq<int>
    requires n <= |s|
  {
    if n == 0 then []
    else NonzeroIndices(s, n - 1) + (if s[n - 1] != 0.0 then [n - 1] else [])
  }

  /** The values `s[i]` at those indices, in the same order. */
  function NonzeroValues(s: seq<real>, n: nat): seq<real>
    requires n <= |s|
  {
    if n == 0 then []
    else NonzeroValues(s, n - 1) + (if s[n - 1] != 0.0 then [s[n - 1]] else [])
  }

  /**
   * The knots are exactly the nonzero entries among the first `n`: every
   * abscissa is the index of a nonzero entry and its ordinate is that
   * entry; the abscissae strictly ascend; and no nonzero entry is missed.
   */
  lemma {:induction false} KnotsAreNonzeroEntries(s: seq<real>, n: nat)
    requires n <= |s|
    ensures |NonzeroValues(s, n)| == |NonzeroIndices(s, n)| <= n
    ensures forall k :: 0 <= k < |NonzeroIndices(s, n)| ==>
              0 <= NonzeroIndices(s, n)[k] < n && s[NonzeroIndices(s, n)[k]] != 0.0
              && NonzeroValues(s, n)[k] == s[NonzeroIndices(s, n)[k]]
    ensures forall k, l :: 0 <= k < l < |NonzeroIndices(s, n)| ==> NonzeroIndices(s, n)[k] < NonzeroIndices(s, n)[l]
    ensures forall i :: 0 <= i < n && s[i] != 0.0 ==> i in NonzeroIndices(s, n)
  {
    if n > 0 {
      KnotsAreNonzeroEntries(s, n - 1);
    }
  }

  /** The number of spline knots a spectrum yields. */
  function KnotCount(s: seq<real>): nat
  {
    |NonzeroIndices(s, |s|)|
  }

  /**
   * The spectrum after gap filling: with fewer than three knots nothing
   * changes; otherwise nonzero entries keep their value and zero entries
   * take the spline's value at their index.
   */
  function GapFill(s: seq<real>, fit: SplineFn, kind: SplineKind): (r: seq<real>)
    ensures |r| == |s|
    ensures KnotCount(s) < 3 ==> r == s
    ensures forall i :: 0 <= i < |s| && s[i] != 0.0 ==> r[i] == s[i]
    ensures KnotCount(s) >= 3 ==>
              forall i :: 0 <= i < |s| && s[i] == 0.0 ==>
                r[i] == fit.At(kind, NonzeroIndices(s, |s|), NonzeroValues(s, |s|), i)
  {
    var xs, ys := NonzeroIndices(s, |s|), NonzeroValues(s, |s|);
    if |xs| < 3 then s
    else seq(|s|, i requires 0 <= i < |s| => if s[i] != 0.0 then s[i] else fit.At(kind, xs, ys, i))
  }

  /**
   * Filling only ever rewrites zero entries, so the knots of the result
   * include the knots of the input: every nonzero entry survives.
   */
  lemma {:induction false} GapFillKeepsKnots(s: seq<real>, fit: SplineFn, kind: SplineKind)
    ensures forall i :: i in NonzeroIndices(s, |s|) ==> i in NonzeroIndices(GapFill(s, fit, kind), |s|)
  {
    var r := GapFill(s, fit, kind);
    KnotsAreNonzeroEntries(s, |s|);
    KnotsAreNonzeroEntries(r, |r|);
    forall i | i in NonzeroIndices(s, |s|)
      ensures i in NonzeroIndices(r, |r|)
    {
      var k :| 0 <= k < |NonzeroIndices(s, |s|)| && NonzeroIndices(s, |s|)[k] == i;
      assert 0 <= i < |s| && s[i] != 0.0;
      assert r[i] == s[i];
    }
  }

  /**
   * The first loop of the fill: push back the value and the index of
   * every nonzero entry, in ascending index order.
   */
  method CollectKnots(s: seq<real>) returns (indices: seq<int>, values: seq<real>)
    ensures indices == NonzeroIndices(s, |s|) && values == NonzeroValues(s, |s|)
  {
    values, indices := [], [];
    var i := 0;
    while i < |s|
      invariant 0 <= i <= |s|
      invariant indices == NonzeroIndices(s, i) && values == NonzeroValues(s, i)
    {
      if s[i] != 0.0 {
        values := values + [s[i]];
        indices := indices + [i];
      }
      i := i + 1;
    }
  }

  /**
   * The fill loop shared by `FrequencySpectrum::interpolate` and the older
   * `smooth_spectrum`: collect the knots, give up below three, then
   * overwrite each zero entry in place with the spline value.
   */
  method FillGaps(spectrum: FloatVector, fit: SplineFn, kind: SplineKind)
    modifies spectrum
    ensures spectrum.elems == GapFill(old(spectrum.elems), fit, kind)
  {
    ghost var s := spectrum.elems;
    var n := |spectrum.elems|;
    var indices, values := CollectKnots(spectrum.elems);
    if |indices| < 3 {
      return;
    }
    ghost var r := GapFill(s, fit, kind);
    var i := 0;
    while i < n
      invariant 0 <= i <= n && |spectrum.elems| == n
      invariant forall j :: 0 <= j < i ==> spectrum.elems[j] == r[j]
      invariant forall j :: i <= j < n ==> spectrum.elems[j] == s[j]
    {
      var y := if spectrum.elems[i] != 0.0 then spectrum.elems[i] else fit.At(kind, indices, values, i);
      spectrum.elems := spectrum.elems[i := y];
      i := i + 1;
    }
  }
}
