/**
 * The program's main loop, `_main` in src/main.cpp: the older, stand-alone
 * visualiser. Each pass tracks the terminal size, reads a block of
 * interleaved audio and plays it, takes the first channel through the FFT,
 * sums the bin amplitudes into one column per terminal column (linear,
 * logarithmic or square-root placement), smooths the sums with a cubic
 * spline unless the placement is linear, and draws one vertical bar per
 * column, optionally coloured.
 *
 * The audio file, the audio output stream, the terminal query and
 * `std::cout` are outside the model: the block read and the terminal size
 * are parameters, what is played is recorded in `played`, and what is
 * printed in `out`, as `Terminal` tokens.
 */
module MainProgram {
  import opened Numeric
  import opened Vectors
  import opened Spline
  import opened ColorUtils
  import opened Terminal
  import opened Audio
  import opened Bins
  import SA = SmoothedAmplitudes
  import Legacy = FrequencySpetcrum

  /**
   * The options `_main` reads from `Args`. `Args::Scale` has the same three
   * values (linear, log, sqrt) as the older renderer's scale, whose type is
   * shared here.
   */
  datatype Args = Args(fftSize: int, scale: Legacy.Scale, color: bool, hsv: Hsv,
                       character: char, peakChar: char, multiplier: real)

  /** One `sf.readf`: how many frames it returned and the samples it stored. */
  datatype Read = Read(frames: nat, samples: seq<real>)

  /** The blocks that are played: every read of at least one frame, in order. */
  function PlayedBlocks(input: seq<Read>): (p: seq<seq<real>>)
    ensures |p| <= |input|
  {
    if |input| == 0 then []
    else
      var last := input[|input| - 1];
      PlayedBlocks(input[..|input| - 1]) + (if last.frames > 0 then [last.samples] else [])
  }

  // ------------------------------------------------------- bin placement

  /**
   * `index` for bin `i`: the product of the bin's ratio and the width,
   * truncated. It is never negative, which is why the clamp below needs no
   * floor.
   */
  function Index(a: Legacy.Axis, i: int, width: int): (r: int)
    requires a.Valid() && i >= 0
    ensures Laws(a.math) && width >= 0 ==> r >= 0
  {
    Trunc(Legacy.CalcIndexRatio(a, i) * width as real)
  }

  /**
   * `std::min(index, width - 1)`: there is a cap at the last column but no
   * floor at 0.
   */
  function Destination(a: Legacy.Axis, i: int, width: int): int
    requires a.Valid() && i >= 0
  {
    Min(Index(a, i, width), width - 1)
  }

  /**
   * With `logmax` and `sqrtmax` those of the bin count, every bin lands in
   * a column of the output, and the cap at `width - 1` never changes the
   * truncated index.
   */
  lemma DestinationInColumns(a: Legacy.Axis, i: int, width: int)
    requires a.Exact() && 0 <= i < a.bins && width >= 1
    ensures 0 <= Destination(a, i, width) < width
    ensures Destination(a, i, width) == Index(a, i, width)
  {
    Legacy.RatioInUnitInterval(a, i);
    var r := Legacy.CalcIndexRatio(a, i);
    var x := r * width as real;
    assert 0.0 <= x < width as real by {
      assert (1.0 - r) * width as real > 0.0;
    }
    assert Trunc(x) as real <= x;
  }

  /** The destinations of the first `n` bins in a `width`-column output. */
  function Destinations(a: Legacy.Axis, width: nat, n: nat): (d: seq<int>)
    requires a.Valid()
    ensures |d| == n
  {
    if n == 0 then [] else Destinations(a, width, n - 1) + [Destination(a, n - 1, width)]
  }

  /** Every destination is a column of the output. */
  lemma {:induction false} DestinationsInColumns(a: Legacy.Axis, width: nat, n: nat)
    requires a.Exact() && n <= a.bins && width >= 1
    ensures InColumns(Destinations(a, width, n), width, n)
  {
    if n > 0 {
      DestinationsInColumns(a, width, n - 1);
      DestinationInColumns(a, n - 1, width);
    }
  }

  lemma {:induction false} DestinationAt(a: Legacy.Axis, width: nat, n: nat, k: int)
    requires a.Valid() && 0 <= k < n
    ensures Destinations(a, width, n)[k] == Destination(a, k, width)
  {
    if k < n - 1 {
      DestinationAt(a, width, n - 1, k);
    }
  }

  /** The amplitudes after the bin loop: every bin's amplitude summed into its destination. */
  function Summed(a: Legacy.Axis, bins: seq<Complex>, width: nat): (r: seq<real>)
    requires a.Exact() && |bins| == a.bins && width >= 1
    ensures |r| == width
  {
    DestinationsInColumns(a, width, a.bins);
    Accumulate(Amplitudes(a.math, bins), Destinations(a, width, a.bins), width, a.bins)
  }

  /**
   * Each column holds the total amplitude of the bins placed in it, and the
   * columns together hold the total amplitude of all bins.
   */
  lemma SummedColumns(a: Legacy.Axis, bins: seq<Complex>, width: nat, c: int)
    requires a.Exact() && |bins| == a.bins && width >= 1 && 0 <= c < width
    ensures Summed(a, bins, width)[c] == BinSum(Amplitudes(a.math, bins), Destinations(a, width, a.bins), c, a.bins)
    ensures Sum(Summed(a, bins, width)) == Sum(Amplitudes(a.math, bins))
  {
    var amps, dests := Amplitudes(a.math, bins), Destinations(a, width, a.bins);
    DestinationsInColumns(a, width, a.bins);
    AccumulateIsBinSum(amps, dests, width, a.bins, c);
    AccumulateConserves(amps, dests, width, a.bins);
    assert amps[..a.bins] == amps;
  }

  /**
   * `amplitudes = SmoothedAmplitudes(amplitudes)` when the scale is not
   * linear: zero entries are filled by a cubic spline through the nonzero
   * ones, if there are at least three.
   */
  function Smoothed(scale: Legacy.Scale, fit: SplineFn, s: seq<real>): (r: seq<real>)
    ensures |r| == |s|
    ensures forall c :: 0 <= c < |s| && s[c] != 0.0 ==> r[c] == s[c]
    ensures scale == Legacy.Linear || KnotCount(s) < 3 ==> r == s
  {
    if scale != Legacy.Linear then GapFill(s, fit, CubicSpline) else s
  }

  // ---------------------------------------------------------------- bars

  /** Everything the drawing loop reads. */
  datatype Style = Style(color: bool, hsv: Hsv, character: char, peakChar: char,
                         fftsizeInv: real, width: nat, height: nat)

  /** `bar_height`: `fftsize_inv * amplitude * height`, truncated to `int`. */
  function BarHeight(fftsizeInv: real, amplitude: real, height: nat): int
  {
    Trunc(fftsizeInv * amplitude * height as real)
  }

  /**
   * The first `n` rungs of a bar `h` high: the character (the peak
   * character on rung `h - 1`), then cursor up and cursor left.
   */
  function Rungs(h: int, n: nat, character: char, peakChar: char): (t: seq<Token>)
    ensures |t| == 3 * n
  {
    if n == 0 then []
    else Rungs(h, n - 1, character, peakChar) + [Glyph(if n - 1 == h - 1 then peakChar else character), CursorUp, CursorLeft]
  }

  /** What the inner loop draws for a bar `h` high: `h` rungs, none when `h <= 0`. */
  function Bar(h: int, character: char, peakChar: char): seq<Token>
  {
    if h <= 0 then [] else Rungs(h, h, character, peakChar)
  }

  lemma {:induction false} RungsGlyphs(h: int, n: nat, character: char, peakChar: char)
    ensures Glyphs(Rungs(h, n, character, peakChar)) == seq(n, j => if j == h - 1 then peakChar else character)
    ensures Moves(Rungs(h, n, character, peakChar)) == []
  {
    if n > 0 {
      RungsGlyphs(h, n - 1, character, peakChar);
      var g := if n - 1 == h - 1 then peakChar else character;
      GlyphsAppend(Rungs(h, n - 1, character, peakChar), [Glyph(g), CursorUp, CursorLeft]);
      MovesAppend(Rungs(h, n - 1, character, peakChar), [Glyph(g), CursorUp, CursorLeft]);
      RungTokens(g);
    }
  }

  /**
   * A bar of height `h > 0` draws exactly `h` characters, `h - 1` copies of
   * the bar character and then the peak character; a bar of height `h <= 0`
   * draws nothing. A bar never moves the cursor to a column.
   */
  lemma BarGlyphs(h: int, character: char, peakChar: char)
    ensures h <= 0 ==> Glyphs(Bar(h, character, peakChar)) == []
    ensures h > 0 ==> Glyphs(Bar(h, character, peakChar)) == seq(h - 1, _ => character) + [peakChar]
    ensures Moves(Bar(h, character, peakChar)) == []
  {
    if h > 0 {
      RungsGlyphs(h, h, character, peakChar);
      assert seq(h, j => if j == h - 1 then peakChar else character) == seq(h - 1, _ => character) + [peakChar];
    } else {
      assert Glyphs([]) == [] && Moves([]) == [];
    }
  }

  /**
   * The colour written for column `i` when colouring is on: the hue moves
   * by `i / width` across the screen, and `hsvToRgb` may raise.
   */
  function ColorTokens(st: Style, i: int): Result<seq<Token>>
    requires 0 <= i < st.width
  {
    if !st.color then Ok([])
    else
      match HsvToRgb(i as real / st.width as real + st.hsv.h, st.hsv.s, st.hsv.v)
      case Ok(c) => Ok([Color(c)])
      case Err(f) => Err(f)
  }

  /** What column `i`, of amplitude `amplitude`, draws: colour, cursor move to the bottom row, bar. */
  function ColumnTokens(st: Style, amplitude: real, i: int): Result<seq<Token>>
    requires 0 <= i < st.width
  {
    match ColorTokens(st, i)
    case Err(f) => Err(f)
    case Ok(t) =>
      Ok(t + [MoveTo(st.height, i)] + Bar(BarHeight(st.fftsizeInv, amplitude, st.height), st.character, st.peakChar))
  }

  /**
   * A column fails exactly when colouring is on and the saturation or the
   * value lies outside [0, 1], with `invalid_argument`; otherwise it moves
   * the cursor once, to its own column.
   */
  lemma ColumnOutcome(st: Style, amplitude: real, i: int)
    requires 0 <= i < st.width
    ensures ColumnTokens(st, amplitude, i).Err? <==> st.color && !InRange(st.hsv.s, st.hsv.v)
    ensures ColumnTokens(st, amplitude, i).Err? ==> ColumnTokens(st, amplitude, i).failure.InvalidArgument?
    ensures ColumnTokens(st, amplitude, i).Ok? ==> Moves(ColumnTokens(st, amplitude, i).value) == [i]
  {
    var t := ColorTokens(st, i);
    if t.Ok? {
      var bar := Bar(BarHeight(st.fftsizeInv, amplitude, st.height), st.character, st.peakChar);
      var move := [MoveTo(st.height, i)];
      BarGlyphs(BarHeight(st.fftsizeInv, amplitude, st.height), st.character, st.peakChar);
      assert Moves(t.value) == [] by {
        if st.color {
          MovesOfToken(t.value[0]);
          assert t.value == [t.value[0]];
        }
      }
      MovesOfToken(move[0]);
      MovesAppend(t.value, move);
      MovesAppend(t.value + move, bar);
    }
  }

  /**
   * What the first `n` passes of the drawing loop write. An exception in a
   * pass ends the loop: nothing of that column is written.
   */
  function Bars(st: Style, amps: seq<real>, n: nat): Printed
    requires n <= st.width && n <= |amps|
  {
    if n == 0 then Printed([], None)
    else
      var p := Bars(st, amps, n - 1);
      if p.failure.Some? then p
      else
        match ColumnTokens(st, amps[n - 1], n - 1)
        case Ok(t) => Printed(p.tokens + t, None)
        case Err(f) => Printed(p.tokens, Some(f))
  }

  /**
   * The drawing loop fails exactly when it draws a column and the colour
   * is out of range; it then fails in the first column, having written
   * nothing, with `invalid_argument`.
   */
  lemma {:induction false} BarsFailure(st: Style, amps: seq<real>, n: nat)
    requires n <= st.width && n <= |amps|
    ensures Bars(st, amps, n).failure.Some? <==> n > 0 && st.color && !InRange(st.hsv.s, st.hsv.v)
    ensures Bars(st, amps, n).failure.Some? ==>
              Bars(st, amps, n).tokens == [] && Bars(st, amps, n).failure.value.InvalidArgument?
  {
    if n > 0 {
      BarsFailure(st, amps, n - 1);
      ColumnOutcome(st, amps[n - 1], n - 1);
    }
  }

  /** When the drawing loop does not fail, it moves the cursor to columns 0, 1, ..., n - 1 in that order. */
  lemma {:induction false} BarsMoves(st: Style, amps: seq<real>, n: nat)
    requires n <= st.width && n <= |amps|
    requires Bars(st, amps, n).failure.None?
    ensures Moves(Bars(st, amps, n).tokens) == seq(n, k => k)
  {
    if n > 0 {
      BarsMoves(st, amps, n - 1);
      var p := Bars(st, amps, n - 1);
      var t := ColumnTokens(st, amps[n - 1], n - 1);
      ColumnOutcome(st, amps[n - 1], n - 1);
      MovesAppend(p.tokens, t.value);
      CountUp(n);
    }
  }

  lemma CountUp(n: nat)
    requires n > 0
    ensures seq(n - 1, k => k) + [n - 1] == seq(n, k => k)
  {
  }

  /** A pass whose column succeeds appends that column's tokens. */
  lemma BarsStep(st: Style, amps: seq<real>, n: nat)
    requires n < st.width && n < |amps|
    requires Bars(st, amps, n).failure.None? && ColumnTokens(st, amps[n], n).Ok?
    ensures Bars(st, amps, n + 1) == Printed(Bars(st, amps, n).tokens + ColumnTokens(st, amps[n], n).value, None)
  {
  }

  /** Once the loop has failed, later passes change nothing. */
  lemma {:induction false} BarsStops(st: Style, amps: seq<real>, n: nat, m: nat)
    requires n <= m <= st.width && m <= |amps|
    requires Bars(st, amps, n).failure.Some?
    ensures Bars(st, amps, m) == Bars(st, amps, n)
  {
    if m > n {
      BarsStops(st, amps, n, m - 1);
    }
  }

  // ---------------------------------------------------------- the program

  /** The state `_main` keeps across passes of its loop. */
  class Visualizer {
    const args: Args
    const channels: nat
    const math: Libm
    const fft: Fft
    const fit: SplineFn

    /** `freqdata_len`, `fftsize_inv`, `logmax`, `sqrtmax`. */
    const freqdataLen: nat
    const fftsizeInv: real
    const logmax: real
    const sqrtmax: real

    /** The fixed-size arrays `timedata` and `buffer`. */
    const timedata: array<real>
    const buffer: array<real>
    /** `freqdata`, as the transform leaves it. */
    var freqdata: seq<Complex>

    const amplitudes: FloatVector
    var tsize: TerminalSize
    /** Everything written to `std::cout`. */
    var out: seq<Token>
    /** Every block written to the audio output stream. */
    var played: seq<seq<real>>

    ghost predicate Valid()
      reads this, amplitudes
    {
      && args.fftSize >= 2 && args.fftSize % 2 == 0 && channels >= 1
      && FftShape(fft) && Axis().Exact()
      && freqdataLen == args.fftSize / 2 + 1 && |freqdata| == freqdataLen
      && fftsizeInv == args.multiplier / args.fftSize as real
      && timedata.Length == args.fftSize && buffer.Length == args.fftSize * channels && timedata != buffer
      && |amplitudes.elems| == tsize.width
    }

    /** The bin placement the mapping loop uses. */
    function Axis(): Legacy.Axis
    {
      Legacy.Axis(math, args.scale, freqdataLen, logmax, sqrtmax)
    }

    function Look(): Style
      reads this`tsize
    {
      Style(args.color, args.hsv, args.character, args.peakChar, fftsizeInv, tsize.width, tsize.height)
    }

    /**
     * The set-up before the loop, for a file of `channels` channels and a
     * terminal of size `size`: the constants, the arrays, and `width`
     * zero amplitudes. The arrays' contents are left unspecified, as the
     * source leaves them uninitialised.
     */
    constructor (args: Args, channels: nat, size: TerminalSize, math: Libm, fft: Fft, fit: SplineFn)
      requires args.fftSize >= 2 && args.fftSize % 2 == 0 && channels >= 1 && Laws(math) && FftShape(fft)
      ensures Valid() && fresh(timedata) && fresh(buffer) && fresh(amplitudes)
      ensures this.args == args && this.channels == channels && this.math == math && this.fft == fft && this.fit == fit
      ensures tsize == size && amplitudes.elems == Zeros(size.width) && out == [] && played == []
    {
      this.args, this.channels, this.math, this.fft, this.fit := args, channels, math, fft, fit;
      freqdataLen := args.fftSize / 2 + 1;
      fftsizeInv := args.multiplier / args.fftSize as real;
      logmax := math.log((args.fftSize / 2 + 1) as real);
      sqrtmax := math.sqrt((args.fftSize / 2 + 1) as real);
      timedata := new real[args.fftSize];
      buffer := new real[args.fftSize * channels];
      freqdata := seq(args.fftSize / 2 + 1, _ => Complex(0.0, 0.0));
      tsize := size;
      amplitudes := new FloatVector(size.width);
      out, played := [], [];
      Legacy.DenominatorsPositive(math, args.fftSize / 2 + 1);
    }

    /** The first block of the loop: resize the amplitudes only when the width changes; track the height. */
    method UpdateSize(newSize: TerminalSize)
      requires Valid()
      modifies this`tsize, amplitudes
      ensures Valid() && tsize == newSize
      ensures amplitudes.elems == if old(tsize.width) != newSize.width
                                  then Resized(old(amplitudes.elems), newSize.width, 0.0)
                                  else old(amplitudes.elems)
    {
      if tsize.width != newSize.width {
        amplitudes.Resize(newSize.width);
        tsize := tsize.(width := newSize.width);
      }
      if tsize.height != newSize.height {
        tsize := tsize.(height := newSize.height);
      }
    }

    /** `sf.readf(buffer, fft_size)` yielding `frame`: the first samples are overwritten, the rest kept. */
    method ReadFrames(frame: seq<real>)
      requires |frame| <= buffer.Length
      modifies buffer
      ensures buffer[..] == frame + old(buffer[..])[|frame|..]
    {
      var i := 0;
      while i < |frame|
        invariant 0 <= i <= |frame|
        invariant forall j :: 0 <= j < i ==> buffer[j] == frame[j]
        invariant forall j :: i <= j < buffer.Length ==> buffer[j] == old(buffer[j])
      {
        buffer[i] := frame[i];
        i := i + 1;
      }
    }

    /**
     * The channel loop and the transform: `timedata` becomes the first
     * channel of the buffer, every read in bounds, and `freqdata` its
     * spectrum.
     */
    method Analyse()
      requires Valid()
      modifies timedata, this`freqdata
      ensures Valid()
      ensures timedata[..] == Channel(buffer[..], channels, 1, args.fftSize)
      ensures freqdata == fft.Transform(args.fftSize, timedata[..])
    {
      CopyFirstChannel();
      freqdata := fft.Transform(args.fftSize, timedata[..]);
    }

    /** The channel loop: `timedata[i] = buffer[i * channels]` for every frame. */
    method CopyFirstChannel()
      requires channels >= 1 && timedata.Length == args.fftSize && buffer.Length == args.fftSize * channels
      requires timedata != buffer
      modifies timedata
      ensures timedata[..] == Channel(buffer[..], channels, 1, args.fftSize)
    {
      ghost var buf := buffer[..];
      ghost var ch := Channel(buf, channels, 1, args.fftSize);
      var i := 0;
      while i < args.fftSize
        invariant 0 <= i <= args.fftSize
        invariant forall j :: 0 <= j < i ==> timedata[j] == ch[j]
      {
        ChannelAt(buf, channels, 1, args.fftSize, i);
        timedata[i] := buffer[i * channels];
        i := i + 1;
      }
      assert timedata[..] == ch;
    }

    /** `for (auto &a : amplitudes) a = 0;` */
    method ZeroAmplitudes()
      modifies amplitudes
      ensures amplitudes.elems == Zeros(|old(amplitudes.elems)|)
    {
      ghost var n := |amplitudes.elems|;
      var i := 0;
      while i < |amplitudes.elems|
        invariant 0 <= i <= |amplitudes.elems| == n
        invariant forall j :: 0 <= j < i ==> amplitudes.elems[j] == 0.0
      {
        amplitudes.elems := amplitudes.elems[i := 0.0];
        i := i + 1;
      }
      forall j | 0 <= j < n
        ensures amplitudes.elems[j] == Zeros(n)[j]
      {
        ZerosAt(n, j);
      }
    }

    /**
     * The mapping loop, on zeroed amplitudes: each bin's amplitude
     * `sqrt(re*re + im*im)` is added at its destination, which is always a
     * column of the vector.
     */
    method MapBins()
      requires Valid() && tsize.width >= 1 && amplitudes.elems == Zeros(tsize.width)
      modifies amplitudes
      ensures amplitudes.elems == Summed(Axis(), freqdata, tsize.width)
    {
      ghost var a := Axis();
      ghost var w := tsize.width;
      ghost var amps, dests := Amplitudes(math, freqdata), Destinations(a, w, freqdataLen);
      DestinationsInColumns(a, w, freqdataLen);
      var i := 0;
      while i < freqdataLen
        invariant 0 <= i <= freqdataLen
        invariant amplitudes.elems == Accumulate(amps, dests, w, i)
      {
        var amplitude := Amplitude(math, freqdata[i]);
        var index := BinIndex(i);
        var d := Min(index, tsize.width - 1);
        DestinationAt(a, w, freqdataLen, i);
        assert d == dests[i];
        AmplitudeAt(math, freqdata, i);
        AccumulateStep(amps, dests, w, i);
        amplitudes.elems := amplitudes.elems[d := amplitudes.elems[d] + amplitude];
        i := i + 1;
      }
    }

    /**
     * The `switch` on the scale: `index` for bin `i`, before the cap, is the
     * fraction of the width the scale assigns to the bin, times the width,
     * truncated.
     */
    method BinIndex(i: nat) returns (index: int)
      requires Axis().Valid()
      ensures index == Index(Axis(), i, tsize.width)
    {
      var ratio := BinRatio(i);
      index := Trunc(ratio * tsize.width as real);
    }

    /** The fraction of the width the configured scale assigns to bin `i`. */
    method BinRatio(i: nat) returns (ratio: real)
      requires Axis().Valid()
      ensures ratio == Legacy.CalcIndexRatio(Axis(), i)
    {
      var x := i as real;
      match args.scale {
        case Linear =>
          ratio := x / freqdataLen as real;
        case Log =>
          ratio := math.log(if i != 0 then x else 1.0) / logmax;
        case Sqrt =>
          ratio := math.sqrt(x) / sqrtmax;
      }
    }

    /** Zero the amplitudes and sum the bins into them. */
    method SumBins()
      requires Valid() && tsize.width >= 1
      modifies amplitudes
      ensures Valid()
      ensures amplitudes.elems == Summed(Axis(), freqdata, tsize.width)
    {
      ZeroAmplitudes();
      MapBins();
    }

    /** `amplitudes = SmoothedAmplitudes(amplitudes)` unless the scale is linear. */
    method Smooth()
      modifies amplitudes
      ensures amplitudes.elems == Smoothed(args.scale, fit, old(amplitudes.elems))
    {
      if args.scale != Legacy.Linear {
        var s := new SA.SmoothedAmplitudes(amplitudes, fit);
        amplitudes.elems := s.elems;
      }
    }

    /** The inner loop: `bar_height` rungs, the last with the peak character. */
    method DrawBar(h: int)
      modifies this`out
      ensures out == old(out) + Bar(h, args.character, args.peakChar)
    {
      var j := 0;
      while j < h
        invariant 0 <= j <= Max(h, 0)
        invariant out == old(out) + Rungs(h, j, args.character, args.peakChar)
      {
        out := out + [Glyph(if j == h - 1 then args.peakChar else args.character), CursorUp, CursorLeft];
        j := j + 1;
      }
    }

    /** One pass of the drawing loop: colour, cursor move, bar of column `i`. */
    method DrawColumn(i: int) returns (o: Outcome)
      requires 0 <= i < tsize.width && i < |amplitudes.elems|
      modifies this`out
      ensures ColumnTokens(Look(), amplitudes.elems[i], i).Ok? ==>
                o.Pass? && out == old(out) + ColumnTokens(Look(), amplitudes.elems[i], i).value
      ensures ColumnTokens(Look(), amplitudes.elems[i], i).Err? ==>
                o == Fail(ColumnTokens(Look(), amplitudes.elems[i], i).failure) && out == old(out)
    {
      ghost var t := ColorTokens(Look(), i);
      if args.color {
        var c := HsvToRgb(i as real / tsize.width as real + args.hsv.h, args.hsv.s, args.hsv.v);
        if c.Err? {
          return Fail(c.failure);
        }
        out := out + [Color(c.value)];
      }
      var move := [MoveTo(tsize.height, i)];
      out := out + move;
      assert out == old(out) + t.value + move;
      var h := BarHeight(fftsizeInv, amplitudes.elems[i], tsize.height);
      ghost var bar := Bar(h, args.character, args.peakChar);
      DrawBar(h);
      assert out == old(out) + (t.value + move + bar);
      o := Pass;
    }

    /** The drawing loop over every column; an exception from `hsvToRgb` ends it. */
    method DrawBars() returns (o: Outcome)
      requires |amplitudes.elems| == tsize.width
      modifies this`out
      ensures var p := Bars(Look(), amplitudes.elems, tsize.width);
              out == old(out) + p.tokens && (o.Fail? <==> p.failure.Some?) && (o.Fail? ==> o.failure == p.failure.value)
    {
      ghost var st := Look();
      var i := 0;
      while i < tsize.width
        invariant 0 <= i <= tsize.width && Look() == st
        invariant Bars(st, amplitudes.elems, i).failure.None?
        invariant out == old(out) + Bars(st, amplitudes.elems, i).tokens
      {
        ghost var p := Bars(st, amplitudes.elems, i);
        ghost var t := ColumnTokens(st, amplitudes.elems[i], i);
        o := DrawColumn(i);
        if o.Fail? {
          BarsStops(st, amplitudes.elems, i + 1, tsize.width);
          return;
        }
        BarsStep(st, amplitudes.elems, i);
        WritesAssociate(old(out), p.tokens, t.value);
        i := i + 1;
      }
      o := Pass;
    }

    /** What a full block leads to: analysis, sums, clearing the screen, smoothing, drawing. */
    method Frame() returns (o: Outcome)
      requires Valid() && tsize.width >= 1
      modifies timedata, this`freqdata, this`out, amplitudes
      ensures Valid()
      ensures timedata[..] == Channel(buffer[..], channels, 1, args.fftSize)
      ensures freqdata == fft.Transform(args.fftSize, timedata[..])
      ensures amplitudes.elems == Smoothed(args.scale, fit, Summed(Axis(), freqdata, tsize.width))
      ensures var p := Bars(Look(), amplitudes.elems, tsize.width);
              out == old(out) + [Clear] + p.tokens && (o.Fail? <==> p.failure.Some?) && (o.Fail? ==> o.failure == p.failure.value)
    {
      Analyse();
      SumBins();
      out := out + [Clear];
      Smooth();
      o := DrawBars();
    }

    /**
     * One pass of the loop, with the terminal now reporting `newSize` and
     * the file yielding `framesRead` frames, `frame`. Nothing read: stop,
     * playing nothing. Otherwise the frames read are played; a short read
     * then stops. A full read goes through `Frame`; an exception it raises
     * is the `Err` result. `Ok(true)` means the loop goes on.
     */
    method Step(newSize: TerminalSize, framesRead: nat, frame: seq<real>) returns (r: Result<bool>)
      requires Valid() && framesRead <= args.fftSize && |frame| == framesRead * channels
      requires framesRead == args.fftSize ==> newSize.width >= 1
      requires |frame| <= buffer.Length  // implied by the frame count: at most `fft_size` frames
      modifies this`tsize, this`out, this`played, this`freqdata, timedata, buffer, amplitudes
      ensures Valid() && tsize == newSize
      ensures buffer[..] == frame + old(buffer[..])[|frame|..]
      ensures framesRead == 0 ==> r == Ok(false) && played == old(played)
      ensures framesRead > 0 ==> played == old(played) + [frame]
      ensures framesRead < args.fftSize ==>
                && r == Ok(false) && out == old(out)
                && timedata[..] == old(timedata[..]) && freqdata == old(freqdata)
                && amplitudes.elems == if old(tsize.width) != newSize.width
                                       then Resized(old(amplitudes.elems), newSize.width, 0.0)
                                       else old(amplitudes.elems)
      ensures framesRead == args.fftSize ==>
                && timedata[..] == Channel(buffer[..], channels, 1, args.fftSize)
                && freqdata == fft.Transform(args.fftSize, timedata[..])
                && amplitudes.elems == Smoothed(args.scale, fit, Summed(Axis(), freqdata, newSize.width))
                && var p := Bars(Look(), amplitudes.elems, newSize.width);
                   && out == old(out) + [Clear] + p.tokens
                   && (r.Err? <==> p.failure.Some?) && (r.Err? ==> r.failure == p.failure.value) && (r.Ok? ==> r.value)
    {
      UpdateSize(newSize);
      ReadFrames(frame);
      if framesRead == 0 {
        return Ok(false);
      }
      played := played + [buffer[..|frame|]];
      if framesRead != args.fftSize {
        return Ok(false);
      }
      var o := Frame();
      if o.Fail? {
        return Err(o.failure);
      }
      return Ok(true);
    }

    /** What `Run` needs of one pass of the loop: what is played and why the loop stops. */
    method OnePass(size: TerminalSize, read: Read) returns (r: Result<bool>)
      requires Valid() && read.frames <= args.fftSize && |read.samples| == read.frames * channels
      requires read.frames == args.fftSize ==> size.width >= 1
      modifies this`tsize, this`out, this`played, this`freqdata, timedata, buffer, amplitudes
      ensures Valid()
      ensures played == old(played) + if read.frames > 0 then [read.samples] else []
      ensures r == Ok(true) <==> read.frames == args.fftSize && r.Ok?
      ensures r.Err? ==> read.frames == args.fftSize
    {
      MulMonotone(read.frames, args.fftSize, channels);
      r := Step(size, read.frames, read.samples);
    }

    /**
     * The `while (1)` loop over a file whose successive reads are `input`,
     * the terminal reporting `sizes[k]` on pass `k`. It stops after the
     * first read that is not a full block (or when the reads run out, as
     * the next read would then return 0 frames), or when drawing raises.
     * Every pass before the last read a full block, and every read of at
     * least one frame has been played, in order.
     */
    method Run(sizes: seq<TerminalSize>, input: seq<Read>) returns (r: Result<bool>, passes: nat)
      requires Valid() && |sizes| == |input|
      requires forall k :: 0 <= k < |input| ==>
                 input[k].frames <= args.fftSize && |input[k].samples| == input[k].frames * channels
      requires forall k :: 0 <= k < |input| && input[k].frames == args.fftSize ==> sizes[k].width >= 1
      modifies this`tsize, this`out, this`played, this`freqdata, timedata, buffer, amplitudes
      ensures Valid() && passes <= |input|
      ensures forall k :: 0 <= k < passes - 1 ==> input[k].frames == args.fftSize
      ensures r == Ok(true) ==> passes == |input|
      ensures passes < |input| ==> r != Ok(true)
      ensures r.Ok? && !r.value ==> passes > 0 && input[passes - 1].frames < args.fftSize
      ensures r.Err? ==> passes > 0 && input[passes - 1].frames == args.fftSize
      ensures played == old(played) + PlayedBlocks(input[..passes])
    {
      r, passes := Ok(true), 0;
      while passes < |input| && r == Ok(true)
        invariant Valid() && passes <= |input|
        invariant forall k :: 0 <= k < passes - 1 ==> input[k].frames == args.fftSize
        invariant r.Ok? && !r.value ==> passes > 0 && input[passes - 1].frames < args.fftSize
        invariant r.Err? ==> passes > 0 && input[passes - 1].frames == args.fftSize
        invariant r == Ok(true) ==> forall k :: 0 <= k < passes ==> input[k].frames == args.fftSize
        invariant played == old(played) + PlayedBlocks(input[..passes])
      {
        r := OnePass(sizes[passes], input[passes]);
        assert input[..passes + 1][..passes] == input[..passes];
        passes := passes + 1;
      }
    }
  }
}
