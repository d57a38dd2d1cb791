/**
 * The older spectrum renderer kept in src/FrequencySpetcrum.hpp: the same
 * FFT-and-sum pipeline as `FrequencySpectrum`, with three scales (linear,
 * logarithmic, square root), no normalisation, destinations clamped to
 * [0, max_index] rather than [0, max_index - 1], and spline smoothing
 * whenever the scale is not linear.
 */
module FrequencySpetcrum {
  import opened Numeric
  import opened Vectors
  import opened Spline
  import opened Bins

  datatype Scale = Linear | Log | Sqrt

  /** Everything `calc_index_ratio` reads: the scale, the bin count and the cached `logmax`, `sqrtmax`. */
  datatype Axis = Axis(math: Libm, scale: Scale, bins: nat, logmax: real, sqrtmax: real)
  {
    /** What the ratio needs to be defined: two or more bins and positive denominators. */
    ghost predicate Valid()
    {
      bins >= 2 && logmax > 0.0 && sqrtmax > 0.0
    }

    /** The math library is lawful and `logmax`, `sqrtmax` are those of `bins`. */
    ghost predicate Exact()
    {
      Valid() && Laws(math) && logmax == math.log(bins as real) && sqrtmax == math.sqrt(bins as real)
    }
  }

  /** With at least two bins and a lawful math library, both denominators are positive. */
  lemma DenominatorsPositive(m: Libm, bins: nat)
    requires Laws(m) && bins >= 2
    ensures m.log(bins as real) > 0.0 && m.sqrt(bins as real) > 0.0
  {
    LogSign(m, bins as real);
    RootSign(m, bins as real);
  }

  /** The position of bin `i` along the output, as a fraction of the output width. */
  function CalcIndexRatio(a: Axis, i: int): (r: real)
    requires a.Valid() && i >= 0
    ensures Laws(a.math) ==> r >= 0.0
  {
    var x := i as real;
    SignsIfLawful(a.math, x);
    SignsIfLawful(a.math, if i != 0 then x else 1.0);
    match a.scale
    case Linear => x / a.bins as real
    case Log => a.math.log(if i != 0 then x else 1.0) / a.logmax
    case Sqrt => a.math.sqrt(x) / a.sqrtmax
  }

  /** The destination column of bin `i`: the truncated scaled ratio, clamped to [0, max_index]. */
  function CalcIndex(a: Axis, i: int, maxIndex: int): (r: int)
    requires a.Valid() && i >= 0
    ensures 0 <= r
    ensures maxIndex >= 0 ==> r <= maxIndex
    ensures maxIndex < 0 ==> r == 0
    ensures 0 <= Trunc(CalcIndexRatio(a, i) * maxIndex as real) <= maxIndex ==>
              r == Trunc(CalcIndexRatio(a, i) * maxIndex as real)
  {
    Max(0, Min(Trunc(CalcIndexRatio(a, i) * maxIndex as real), maxIndex))
  }

  /**
   * Every bin's ratio lies in [0, 1), whatever the scale, and it never
   * decreases with the bin index.
   */
  lemma {:induction false} RatioInUnitInterval(a: Axis, i: int)
    requires a.Exact() && 0 <= i < a.bins
    ensures 0.0 <= CalcIndexRatio(a, i) < 1.0
  {
    var x, n := i as real, a.bins as real;
    match a.scale
    case Linear => DivBelowOne(x, n);
    case Log =>
      var y := if i != 0 then x else 1.0;
      LogSign(a.math, y);
      assert Below(a.math.logs, y, n);
      DivBelowOne(a.math.log(y), a.logmax);
    case Sqrt =>
      RootSign(a.math, x);
      assert Below(a.math.sqrts, x, n);
      DivBelowOne(a.math.sqrt(x), a.sqrtmax);
  }

  lemma {:induction false} RatioMonotone(a: Axis, i: int, j: int)
    requires a.Exact() && 0 <= i <= j
    ensures CalcIndexRatio(a, i) <= CalcIndexRatio(a, j)
  {
    var x, y := i as real, j as real;
    match a.scale
    case Linear => DivMonotone(x, y, a.bins as real);
    case Log =>
      var x1, y1 := if i != 0 then x else 1.0, if j != 0 then y else 1.0;
      assert x1 < y1 ==> Below(a.math.logs, x1, y1);
      DivMonotone(a.math.log(x1), a.math.log(y1), a.logmax);
    case Sqrt =>
      assert x < y ==> Below(a.math.sqrts, x, y);
      DivMonotone(a.math.sqrt(x), a.math.sqrt(y), a.sqrtmax);
  }

  /**
   * Although the clamp admits `max_index`, no bin reaches it: the ratio is
   * below 1, so the truncated product is below `max_index`.
   */
  lemma LastColumnUnreached(a: Axis, i: int, maxIndex: int)
    requires a.Exact() && 0 <= i < a.bins && maxIndex >= 1
    ensures CalcIndex(a, i, maxIndex) < maxIndex
  {
    RatioInUnitInterval(a, i);
    var r := CalcIndexRatio(a, i);
    var x := r * maxIndex as real;
    assert 0.0 <= x < maxIndex as real by {
      assert (1.0 - r) * maxIndex as real > 0.0;
    }
    assert Trunc(x) as real <= x;
  }

  /** The destinations of the first `n` bins in a `width`-column spectrum. */
  function Destinations(a: Axis, width: nat, n: nat): (d: seq<int>)
    requires a.Valid()
    ensures |d| == n
    ensures width >= 1 ==> InColumns(d, width, n)
  {
    if n == 0 then [] else Destinations(a, width, n - 1) + [CalcIndex(a, n - 1, width - 1)]
  }

  /** Bin `k` goes to `calc_index(k, width - 1)`. */
  lemma {:induction false} DestinationAt(a: Axis, width: nat, n: nat, k: int)
    requires a.Valid() && 0 <= k < n
    ensures Destinations(a, width, n)[k] == CalcIndex(a, k, width - 1)
  {
    if k < n - 1 {
      DestinationAt(a, width, n - 1, k);
    }
  }

  /** Everything `render` reads besides its arguments. */
  datatype Settings = Settings(axis: Axis, fft: Fft, fit: SplineFn, fftSize: int, splineType: SplineKind)
  {
    ghost predicate Valid()
    {
      axis.Valid() && FftShape(fft) && fftSize >= 2 && fftSize % 2 == 0 && axis.bins == fftSize / 2 + 1
    }
  }

  /** The spectrum after summation, before smoothing: no normalisation is applied. */
  function Summed(st: Settings, timedata: seq<real>, width: nat): (r: seq<real>)
    requires st.Valid() && |timedata| >= st.fftSize && width >= 1
    ensures |r| == width
  {
    var amps := Amplitudes(st.axis.math, st.fft.Transform(st.fftSize, timedata[..st.fftSize]));
    Accumulate(amps, Destinations(st.axis, width, st.axis.bins), width, st.axis.bins)
  }

  /** The spectrum `render` leaves: the sums, smoothed unless the scale is linear. */
  function Rendered(st: Settings, timedata: seq<real>, width: nat): (r: seq<real>)
    requires st.Valid() && |timedata| >= st.fftSize && width >= 1
    ensures |r| == width
    ensures forall c :: 0 <= c < width && Summed(st, timedata, width)[c] != 0.0 ==>
              r[c] == Summed(st, timedata, width)[c]
    ensures st.axis.scale == Linear || KnotCount(Summed(st, timedata, width)) < 3 ==>
              r == Summed(st, timedata, width)
  {
    var pre := Summed(st, timedata, width);
    if st.axis.scale != Linear then GapFill(pre, st.fit, st.splineType) else pre
  }

  /**
   * The sums lose nothing: before smoothing, the columns add up to the total
   * amplitude of all bins.
   */
  lemma SummedConserves(st: Settings, timedata: seq<real>, width: nat)
    requires st.Valid() && |timedata| >= st.fftSize && width >= 1
    ensures Sum(Summed(st, timedata, width))
            == Sum(Amplitudes(st.axis.math, st.fft.Transform(st.fftSize, timedata[..st.fftSize])))
  {
    var amps := Amplitudes(st.axis.math, st.fft.Transform(st.fftSize, timedata[..st.fftSize]));
    AccumulateConserves(amps, Destinations(st.axis, width, st.axis.bins), width, st.axis.bins);
    assert amps[..st.axis.bins] == amps;
  }

  /** The first loop of `render`: clear the vector and sum each bin into its column. */
  method SumBins(a: Axis, bins: seq<Complex>, spectrum: FloatVector)
    requires a.Valid() && |bins| == a.bins && |spectrum.elems| >= 1
    modifies spectrum
    ensures spectrum.elems == Accumulate(Amplitudes(a.math, bins), Destinations(a, |old(spectrum.elems)|, a.bins),
                                         |old(spectrum.elems)|, a.bins)
  {
    var width := |spectrum.elems|;
    spectrum.elems := Zeros(width);
    ghost var amps, dests := Amplitudes(a.math, bins), Destinations(a, width, a.bins);
    var i := 0;
    while i < |bins|
      invariant 0 <= i <= |bins|
      invariant spectrum.elems == Accumulate(amps, dests, width, i)
    {
      var amplitude := Amplitude(a.math, bins[i]);
      var index := CalcIndex(a, i, width - 1);
      DestinationAt(a, width, a.bins, i);
      AmplitudeAt(a.math, bins, i);
      AccumulateStep(amps, dests, width, i);
      spectrum.elems := spectrum.elems[index := spectrum.elems[index] + amplitude];
      i := i + 1;
    }
  }

  class FrequencySpectrum {
    const math: Libm
    const fft: Fft
    const fit: SplineFn

    var kfSize: int
    var freqdata: seq<Complex>
    var logmax: real
    var sqrtmax: real
    var splineType: SplineKind
    var scale: Scale

    ghost predicate Valid()
      reads this
    {
      && Laws(math) && FftShape(fft)
      && kfSize >= 2 && kfSize % 2 == 0 && |freqdata| == kfSize / 2 + 1
      && logmax == math.log(|freqdata| as real) && sqrtmax == math.sqrt(|freqdata| as real)
      && logmax > 0.0 && sqrtmax > 0.0
    }

    function Snapshot(): (st: Settings)
      reads this
      ensures Valid() ==> st.Valid() && st.axis.Exact()
    {
      Settings(Axis(math, scale, |freqdata|, logmax, sqrtmax), fft, fit, kfSize, splineType)
    }

    /** `FrequencySpectrum(fft_size, scale, spline_type)`; the source's defaults are LOG and cubic. */
    constructor (fftSize: int, scale: Scale, splineType: SplineKind, math: Libm, fft: Fft, fit: SplineFn)
      requires fftSize >= 2 && fftSize % 2 == 0 && Laws(math) && FftShape(fft)
      ensures Valid()
      ensures this.math == math && this.fft == fft && this.fit == fit
      ensures kfSize == fftSize && freqdata == seq(fftSize / 2 + 1, _ => Complex(0.0, 0.0))
      ensures this.scale == scale && this.splineType == splineType
    {
      this.math, this.fft, this.fit := math, fft, fit;
      kfSize := fftSize;
      freqdata := seq(fftSize / 2 + 1, _ => Complex(0.0, 0.0));
      logmax := math.log((fftSize / 2 + 1) as real);
      sqrtmax := math.sqrt((fftSize / 2 + 1) as real);
      this.splineType, this.scale := splineType, scale;
      DenominatorsPositive(math, fftSize / 2 + 1);
    }

    /** `set_fft_size`: reconfigure the transform, resize the bins and recompute `logmax` and `sqrtmax`. */
    method SetFftSize(fftSize: int)
      requires Valid() && fftSize >= 2 && fftSize % 2 == 0
      modifies this
      ensures Valid()
      ensures kfSize == fftSize && freqdata == Resized(old(freqdata), fftSize / 2 + 1, Complex(0.0, 0.0))
      ensures logmax == math.log((fftSize / 2 + 1) as real) && sqrtmax == math.sqrt((fftSize / 2 + 1) as real)
      ensures scale == old(scale) && splineType == old(splineType)
    {
      kfSize := fftSize;
      freqdata := Resized(freqdata, fftSize / 2 + 1, Complex(0.0, 0.0));
      logmax := math.log(|freqdata| as real);
      sqrtmax := math.sqrt(|freqdata| as real);
      DenominatorsPositive(math, |freqdata|);
    }

    method SetSplineType(kind: SplineKind)
      modifies this`splineType
      ensures splineType == kind
    {
      splineType := kind;
    }

    method SetScale(s: Scale)
      modifies this`scale
      ensures scale == s
    {
      scale := s;
    }

    /**
     * `render(timedata, spectrum)`: the vector keeps its length and ends up
     * holding `Rendered` of the frame. An empty vector is excluded: the
     * clamp then yields column 0, which does not exist.
     */
    method Render(timedata: seq<real>, spectrum: FloatVector)
      requires Valid() && |timedata| >= kfSize && |spectrum.elems| >= 1
      modifies this`freqdata, spectrum
      ensures Valid() && Snapshot() == old(Snapshot())
      ensures spectrum.elems == Rendered(Snapshot(), timedata, |old(spectrum.elems)|)
    {
      var st := Snapshot();
      freqdata := fft.Transform(kfSize, timedata[..kfSize]);
      SumBins(st.axis, freqdata, spectrum);
      if scale != Linear {
        FillGaps(spectrum, fit, splineType);
      }
    }
  }
}
