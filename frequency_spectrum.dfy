/**
 * The current spectrum renderer, class `FrequencySpectrum` of
 * src/FrequencySpectrum.hpp: FFT of one frame, amplitudes of the bins,
 * frequency-axis warp (linear, logarithmic or n-th root) from bin index to
 * output column, summation into the caller's vector, normalisation by
 * 1/fft_size, and optional spline filling of the columns left at zero.
 *
 * The mapping from bin index to column is pure and lives at module level
 * (`CalcIndexRatio`, `CalcIndex`), as does the specification of a whole
 * render (`Rendered`); the class holds the state the setters change.
 */
module FrequencySpectrum {
  import opened Numeric
  import opened Vectors
  import opened Spline
  import opened Bins

  datatype Scale = Linear | Log | NthRoot

  datatype InterpType = NoInterp | LinearInterp | CSplineInterp | CSplineHermiteInterp

  /** The spline kind an interpolation type names (the cast to `tk::spline::spline_type`). */
  function KindOf(t: InterpType): SplineKind
    requires t != NoInterp
  {
    match t
    case LinearInterp => LinearSpline
    case CSplineInterp => CubicSpline
    case CSplineHermiteInterp => CubicHermiteSpline
  }

  /** The cached denominators of the ratio formulas (`scale_max`). */
  datatype ScaleMax = ScaleMax(log: real, sqrt: real, cbrt: real, nthroot: real)

  /** Every denominator is positive. */
  ghost predicate Positive(d: ScaleMax)
  {
    d.log > 0.0 && d.sqrt > 0.0 && d.cbrt > 0.0 && d.nthroot > 0.0
  }

  /**
   * `scale_max.set`: the denominators for `bins` bins and root `root`. With
   * at least two bins and a lawful math library every one of them is
   * positive, so the ratio formulas never divide by zero.
   */
  function ScaleMaxFor(m: Libm, bins: nat, root: int): (d: ScaleMax)
    requires root != 0
    ensures Laws(m) && bins >= 2 ==> Positive(d)
  {
    var n := bins as real;
    SignsIfLawful(m, n);
    ScaleMax(m.log(n), m.sqrt(n), m.cbrt(n), m.pow(n, 1.0 / root as real))
  }

  /** Everything `calc_index_ratio` reads. */
  datatype Axis = Axis(math: Libm, scale: Scale, nthRoot: int, bins: nat, scaleMax: ScaleMax)
  {
    /** What the ratio needs to be defined: two or more bins, a nonzero root, positive denominators. */
    ghost predicate Valid()
    {
      bins >= 2 && nthRoot != 0 && Positive(scaleMax)
    }

    /** The math library is lawful and the log, sqrt and cbrt denominators are those of `bins`. */
    ghost predicate Exact()
    {
      && Valid() && Laws(math)
      && scaleMax.log == math.log(bins as real)
      && scaleMax.sqrt == math.sqrt(bins as real)
      && scaleMax.cbrt == math.cbrt(bins as real)
    }
  }

  /**
   * The position of bin `i` along the output, as a fraction of the output
   * width. The default n-th root branch raises to `1 / nth_root`, an
   * integer division.
   */
  function CalcIndexRatio(a: Axis, i: int): (r: real)
    requires a.Valid() && i >= 0
    ensures Laws(a.math) && (a.scale == NthRoot && a.nthRoot == -1 ==> i > 0) ==> r >= 0.0
  {
    var x := i as real;
    SignsIfLawful(a.math, x);
    SignsIfLawful(a.math, if i != 0 then x else 1.0);
    match a.scale
    case Linear => x / a.bins as real
    case Log => a.math.log(if i != 0 then x else 1.0) / a.scaleMax.log
    case NthRoot =>
      if a.nthRoot == 1 then x / a.bins as real
      else if a.nthRoot == 2 then a.math.sqrt(x) / a.scaleMax.sqrt
      else if a.nthRoot == 3 then a.math.cbrt(x) / a.scaleMax.cbrt
      else a.math.pow(x, CDiv(1, a.nthRoot) as real) / a.scaleMax.nthroot
  }

  /**
   * The destination column of bin `i` for `max_index == spectrum.size() - 1`:
   * the truncated scaled ratio, clamped to [0, max_index - 1].
   */
  function CalcIndex(a: Axis, i: int, maxIndex: int): (r: int)
    requires a.Valid() && i >= 0
    ensures 0 <= r
    ensures maxIndex >= 1 ==> r < maxIndex
    ensures maxIndex < 1 ==> r == 0
    ensures 0 <= Trunc(CalcIndexRatio(a, i) * maxIndex as real) < maxIndex ==>
              r == Trunc(CalcIndexRatio(a, i) * maxIndex as real)
  {
    Max(0, Min(Trunc(CalcIndexRatio(a, i) * maxIndex as real), maxIndex - 1))
  }

  /** The destinations of the first `n` bins in a `width`-column spectrum. */
  function Destinations(a: Axis, width: nat, n: nat): (d: seq<int>)
    requires a.Valid()
    ensures |d| == n
    ensures width >= 1 ==> InColumns(d, width, n)
    ensures width >= 2 ==> forall k :: 0 <= k < n ==> d[k] != width - 1
  {
    if n == 0 then [] else Destinations(a, width, n - 1) + [CalcIndex(a, n - 1, width - 1)]
  }

  /** Bin `k` goes to `calc_index(k, width - 1)`. */
  lemma {:induction false} DestinationAt(a: Axis, width: nat, n: nat, k: int)
    requires a.Valid() && 0 <= k < n
    ensures Destinations(a, width, n)[k] == CalcIndex(a, k, width - 1)
  {
    if k < n - 1 {
      DestinationAt(a, width, n - 1, k);
    }
  }

  /** Everything `render` reads besides its arguments. */
  datatype Settings = Settings(axis: Axis, fft: Fft, fit: SplineFn, fftSize: int, interp: InterpType, normalizer: real)
  {
    ghost predicate Valid()
    {
      axis.Valid() && FftShape(fft) && fftSize >= 2 && fftSize % 2 == 0 && axis.bins == fftSize / 2 + 1
    }

    /** Interpolation runs only when it is switched on and the scale is not linear. */
    predicate Interpolates()
    {
      interp != NoInterp && axis.scale != Linear
    }
  }

  /** The bin amplitudes of the FFT of the first `fft_size` samples. */
  function BinAmplitudes(st: Settings, timedata: seq<real>): (amps: seq<real>)
    requires st.Valid() && |timedata| >= st.fftSize
    ensures |amps| == st.axis.bins
  {
    Amplitudes(st.axis.math, st.fft.Transform(st.fftSize, timedata[..st.fftSize]))
  }

  /**
   * Summation and normalisation of any bin amplitudes `amps` into `width`
   * columns: each amplitude is added into column `calc_index(k, width - 1)`,
   * then every column is multiplied by `normalizer`.
   */
  function Columns(a: Axis, amps: seq<real>, width: nat, normalizer: real): (r: seq<real>)
    requires a.Valid() && |amps| == a.bins && width >= 1
    ensures |r| == width
  {
    Scaled(Accumulate(amps, Destinations(a, width, a.bins), width, a.bins), normalizer)
  }

  /** The spectrum after summation and normalisation, before interpolation. */
  function Normalized(st: Settings, timedata: seq<real>, width: nat): (r: seq<real>)
    requires st.Valid() && |timedata| >= st.fftSize && width >= 1
    ensures |r| == width
  {
    Columns(st.axis, BinAmplitudes(st, timedata), width, st.normalizer)
  }

  /**
   * The spectrum `render` leaves in a `width`-column vector: normalised
   * sums, gap-filled when interpolation applies. Filling never changes a
   * nonzero column, and it changes nothing at all when interpolation does
   * not apply or fewer than three columns are nonzero.
   */
  function Rendered(st: Settings, timedata: seq<real>, width: nat): (r: seq<real>)
    requires st.Valid() && |timedata| >= st.fftSize && width >= 1
    ensures |r| == width
    ensures forall c :: 0 <= c < width && Normalized(st, timedata, width)[c] != 0.0 ==>
              r[c] == Normalized(st, timedata, width)[c]
    ensures !st.Interpolates() || KnotCount(Normalized(st, timedata, width)) < 3 ==>
              r == Normalized(st, timedata, width)
  {
    var pre := Normalized(st, timedata, width);
    if st.Interpolates() then GapFill(pre, st.fit, KindOf(st.interp)) else pre
  }

  /**
   * Column `c` holds `normalizer` times the sum of the amplitudes of the
   * bins mapped to it.
   */
  lemma ColumnIsBinSum(a: Axis, amps: seq<real>, width: nat, normalizer: real, c: int)
    requires a.Valid() && |amps| == a.bins && width >= 1 && 0 <= c < width
    ensures Columns(a, amps, width, normalizer)[c]
            == BinSum(amps, Destinations(a, width, a.bins), c, a.bins) * normalizer
  {
    var d := Destinations(a, width, a.bins);
    assert Columns(a, amps, width, normalizer) == Scaled(Accumulate(amps, d, width, a.bins), normalizer);
    ScaledColumnIsBinSum(amps, d, width, a.bins, c, normalizer);
  }

  /** A column no bin is mapped to is 0. */
  lemma UnmappedColumnIsEmpty(a: Axis, amps: seq<real>, width: nat, normalizer: real, c: int)
    requires a.Valid() && |amps| == a.bins && width >= 1 && 0 <= c < width
    requires forall k :: 0 <= k < a.bins ==> Destinations(a, width, a.bins)[k] != c
    ensures Columns(a, amps, width, normalizer)[c] == 0.0
  {
    ColumnIsBinSum(a, amps, width, normalizer, c);
    UnmappedColumnIsZero(amps, Destinations(a, width, a.bins), c, a.bins);
  }

  /** With two or more columns the last one never receives a bin, so it is 0. */
  lemma LastColumnIsEmpty(a: Axis, amps: seq<real>, width: nat, normalizer: real)
    requires a.Valid() && |amps| == a.bins && width >= 2
    ensures Columns(a, amps, width, normalizer)[width - 1] == 0.0
  {
    UnmappedColumnIsEmpty(a, amps, width, normalizer, width - 1);
  }

  /**
   * LINEAR and NTH_ROOT with root 1 use the same ratio `i / bins`; it lies
   * in [0, 1) for every bin and never decreases with the bin index.
   */
  lemma LinearRatio(a: Axis, i: int, j: int)
    requires a.Exact() && (a.scale == Linear || (a.scale == NthRoot && a.nthRoot == 1))
    requires 0 <= i <= j < a.bins
    ensures CalcIndexRatio(a, i) == i as real / a.bins as real
    ensures 0.0 <= CalcIndexRatio(a, i) < 1.0
    ensures CalcIndexRatio(a, i) <= CalcIndexRatio(a, j)
  {
    DivBelowOne(i as real, a.bins as real);
    DivMonotone(i as real, j as real, a.bins as real);
  }

  /** LOG sends bin 0 and bin 1 to the same ratio, 0. */
  lemma LogMergesFirstTwoBins(a: Axis)
    requires a.Exact() && a.scale == Log
    ensures CalcIndexRatio(a, 0) == CalcIndexRatio(a, 1) == 0.0
  {
  }

  /**
   * For LINEAR, LOG and the roots 1, 2 and 3, every bin's ratio lies in
   * [0, 1).
   */
  lemma {:induction false} RatioInUnitInterval(a: Axis, i: int)
    requires a.Exact() && 0 <= i < a.bins
    requires a.scale == NthRoot ==> 1 <= a.nthRoot <= 3
    ensures 0.0 <= CalcIndexRatio(a, i) < 1.0
  {
    var x, n := i as real, a.bins as real;
    match a.scale
    case Linear => DivBelowOne(x, n);
    case Log =>
      var y := if i != 0 then x else 1.0;
      LogSign(a.math, y);
      assert Below(a.math.logs, y, n);
      DivBelowOne(a.math.log(y), a.scaleMax.log);
    case NthRoot =>
      if a.nthRoot == 1 {
        DivBelowOne(x, n);
      } else if a.nthRoot == 2 {
        RootSign(a.math, x);
        assert Below(a.math.sqrts, x, n);
        DivBelowOne(a.math.sqrt(x), a.scaleMax.sqrt);
      } else {
        RootSign(a.math, x);
        assert Below(a.math.cbrts, x, n);
        DivBelowOne(a.math.cbrt(x), a.scaleMax.cbrt);
      }
  }

  /**
   * For a root other than 1, 2, 3 and -1 the exponent `1 / nth_root` is the
   * integer 0, so every bin has the same ratio `1 / scale_max.nthroot`.
   */
  lemma WideRootRatioIsConstant(a: Axis, i: int)
    requires a.Exact() && a.scale == NthRoot && i >= 0
    requires a.nthRoot >= 4 || a.nthRoot <= -2
    ensures CalcIndexRatio(a, i) == 1.0 / a.scaleMax.nthroot
  {
    OneOverWideIsZero(a.nthRoot);
  }

  /**
   * The ratio never decreases with the bin index, for every scale and
   * every root except -1 (whose exponent is -1).
   */
  lemma {:induction false} RatioMonotone(a: Axis, i: int, j: int)
    requires a.Exact() && 0 <= i <= j
    requires a.scale == NthRoot ==> a.nthRoot != -1
    ensures CalcIndexRatio(a, i) <= CalcIndexRatio(a, j)
  {
    var x, y := i as real, j as real;
    match a.scale
    case Linear => DivMonotone(x, y, a.bins as real);
    case Log =>
      var x1, y1 := if i != 0 then x else 1.0, if j != 0 then y else 1.0;
      assert x1 < y1 ==> Below(a.math.logs, x1, y1);
      DivMonotone(a.math.log(x1), a.math.log(y1), a.scaleMax.log);
    case NthRoot =>
      if a.nthRoot == 1 {
        DivMonotone(x, y, a.bins as real);
      } else if a.nthRoot == 2 {
        assert x < y ==> Below(a.math.sqrts, x, y);
        DivMonotone(a.math.sqrt(x), a.math.sqrt(y), a.scaleMax.sqrt);
      } else if a.nthRoot == 3 {
        assert x < y ==> Below(a.math.cbrts, x, y);
        DivMonotone(a.math.cbrt(x), a.math.cbrt(y), a.scaleMax.cbrt);
      } else {
        WideRootRatioIsConstant(a, i);
        WideRootRatioIsConstant(a, j);
      }
  }

  /**
   * The first loop of `render`: clear the vector, then add each bin's
   * amplitude into the column `calc_index` gives it.
   */
  method SumBins(a: Axis, bins: seq<Complex>, spectrum: FloatVector)
    requires a.Valid() && |bins| == a.bins && |spectrum.elems| >= 1
    modifies spectrum
    ensures spectrum.elems == Accumulate(Amplitudes(a.math, bins), Destinations(a, |old(spectrum.elems)|, a.bins),
                                         |old(spectrum.elems)|, a.bins)
  {
    var width := |spectrum.elems|;
    spectrum.elems := Zeros(width);
    ghost var amps, dests := Amplitudes(a.math, bins), Destinations(a, width, a.bins);
    var i := 0;
    while i < |bins|
      invariant 0 <= i <= |bins|
      invariant spectrum.elems == Accumulate(amps, dests, width, i)
    {
      var amplitude := Amplitude(a.math, bins[i]);
      var index := CalcIndex(a, i, width - 1);
      DestinationAt(a, width, a.bins, i);
      AmplitudeAt(a.math, bins, i);
      AccumulateStep(amps, dests, width, i);
      spectrum.elems := spectrum.elems[index := spectrum.elems[index] + amplitude];
      i := i + 1;
    }
  }

  class FrequencySpectrum {
    const math: Libm
    const fft: Fft
    const fit: SplineFn
    /** Whatever the never-initialised `fftsize_inv` holds until `set_fft_size` runs. */
    const indeterminate: real

    /** The transform size kissfft is configured for (`kf`). */
    var kfSize: int
    var freqdata: seq<Complex>
    var nthRoot: int
    var interp: InterpType
    var scale: Scale
    var fftsizeInv: Option<real>
    var scaleMax: ScaleMax
    /** The root `scale_max` was last computed with. */
    ghost var cachedRoot: int

    ghost predicate Valid()
      reads this
    {
      && Laws(math) && FftShape(fft)
      && kfSize >= 2 && kfSize % 2 == 0 && |freqdata| == kfSize / 2 + 1
      && nthRoot != 0 && cachedRoot != 0
      && scaleMax == ScaleMaxFor(math, |freqdata|, cachedRoot) && Positive(scaleMax)
    }

    /** The factor the sums are multiplied by. */
    function FftSizeInv(): real
      reads this
    {
      match fftsizeInv
      case Some(v) => v
      case None => indeterminate
    }

    function Snapshot(): (st: Settings)
      reads this
      ensures Valid() ==> st.Valid() && st.axis.Exact()
    {
      Settings(Axis(math, scale, nthRoot, |freqdata|, scaleMax), fft, fit, kfSize, interp, FftSizeInv())
    }

    /** `FrequencySpectrum(fft_size, scale, interp)`; `fftsize_inv` is left unset. */
    constructor (fftSize: int, scale: Scale, interp: InterpType,
                 math: Libm, fft: Fft, fit: SplineFn, indeterminate: real)
      requires fftSize >= 2 && fftSize % 2 == 0 && Laws(math) && FftShape(fft)
      ensures Valid()
      ensures this.math == math && this.fft == fft && this.fit == fit && this.indeterminate == indeterminate
      ensures kfSize == fftSize && freqdata == seq(fftSize / 2 + 1, _ => Complex(0.0, 0.0))
      ensures this.scale == scale && this.interp == interp && nthRoot == 2 && fftsizeInv == None
      ensures scaleMax == ScaleMaxFor(math, fftSize / 2 + 1, 2)
    {
      this.math, this.fft, this.fit, this.indeterminate := math, fft, fit, indeterminate;
      kfSize := fftSize;
      freqdata := seq(fftSize / 2 + 1, _ => Complex(0.0, 0.0));
      nthRoot := 2;
      this.interp, this.scale := interp, scale;
      fftsizeInv := None;
      scaleMax := ScaleMaxFor(math, fftSize / 2 + 1, 2);
      cachedRoot := 2;
    }

    /**
     * `set_fft_size`: reconfigure the transform, resize the bins to
     * `fft_size/2 + 1`, store `1/fft_size` and recompute `scale_max`. No
     * evenness check is made here; the caller must pass an even size.
     */
    method SetFftSize(fftSize: int)
      requires Valid() && fftSize >= 2 && fftSize % 2 == 0
      modifies this
      ensures Valid()
      ensures kfSize == fftSize && freqdata == Resized(old(freqdata), fftSize / 2 + 1, Complex(0.0, 0.0))
      ensures fftsizeInv == Some(1.0 / fftSize as real)
      ensures scaleMax == ScaleMaxFor(math, fftSize / 2 + 1, nthRoot) && cachedRoot == nthRoot
      ensures nthRoot == old(nthRoot) && interp == old(interp) && scale == old(scale)
    {
      kfSize := fftSize;
      freqdata := Resized(freqdata, fftSize / 2 + 1, Complex(0.0, 0.0));
      fftsizeInv := Some(1.0 / fftSize as real);
      scaleMax := ScaleMaxFor(math, |freqdata|, nthRoot);
      cachedRoot := nthRoot;
    }

    method SetInterpType(interpType: InterpType)
      modifies this`interp
      ensures interp == interpType
    {
      interp := interpType;
    }

    method SetScale(s: Scale)
      modifies this`scale
      ensures scale == s
    {
      scale := s;
    }

    /**
     * `set_nth_root`: zero is refused with `invalid_argument` and changes
     * nothing; any other root is stored. `scale_max` is not recomputed.
     */
    method SetNthRoot(root: int) returns (o: Outcome)
      requires Valid()
      modifies this`nthRoot
      ensures Valid()
      ensures root == 0 <==> o.Fail?
      ensures o.Fail? ==> o.failure.InvalidArgument? && nthRoot == old(nthRoot)
      ensures o.Pass? ==> nthRoot == root
    {
      if root == 0 {
        return Fail(InvalidArgument("preventing division by zero"));
      }
      nthRoot := root;
      return Pass;
    }

    /**
     * `render(timedata, spectrum)`: the vector keeps its length and ends up
     * holding `Rendered` of the frame. An empty vector is excluded, since
     * the source would then write `spectrum[0]` out of range.
     */
    method Render(timedata: seq<real>, spectrum: FloatVector)
      requires Valid() && |timedata| >= kfSize && |spectrum.elems| >= 1
      modifies this`freqdata, spectrum
      ensures Valid() && Snapshot() == old(Snapshot())
      ensures spectrum.elems == Rendered(Snapshot(), timedata, |old(spectrum.elems)|)
    {
      var st := Snapshot();
      freqdata := fft.Transform(kfSize, timedata[..kfSize]);
      SumBins(st.axis, freqdata, spectrum);
      ScaleInPlace(spectrum, FftSizeInv());
      assert spectrum.elems == Normalized(st, timedata, |old(spectrum.elems)|);
      if interp != NoInterp && scale != Linear {
        FillGaps(spectrum, fit, KindOf(interp));
      }
    }
  }
}
