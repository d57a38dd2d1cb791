# termviz in Dafny

A model of the spectral rendering core of termviz, a terminal audio
visualiser. A frame of interleaved audio samples is read and played. One
channel is taken through a real FFT. Each bin's amplitude is summed into
the output column that the frequency-axis warp assigns to the bin. The
warp is linear, logarithmic, square root, or n-th root. The sums are
normalised. Columns left at zero are filled in from a spline through the
nonzero ones. The result is drawn as one vertical bar of characters per
terminal column, optionally coloured by an HSV-to-RGB conversion.

The model follows the program's structure, one module per source file:

- `FrequencySpectrum` models src/FrequencySpectrum.hpp, the current
  renderer. It has three scales (linear, log, n-th root), a `1/fft_size`
  normaliser and four interpolation settings.
- `FrequencySpetcrum` models src/FrequencySpetcrum.hpp, the older
  renderer. It has three scales (linear, log, square root), no
  normalisation, and destinations clamped to `[0, max_index]`.
- `SmoothedAmplitudes` models src/SmoothedAmplitudes.hpp.
- `ColorUtils` models src/ColorUtils.hpp.
- `Termviz` models class `termviz` of src/termviz.hpp: the setters, the
  terminal-size tracking, the channel copy, `render_frame`, and the full
  and mirrored printers.
- `MainProgram` models `_main` of src/main.cpp, the stand-alone loop.
  The loop reads blocks, plays them, maps bins to columns, smooths the
  columns and draws bars.
- Shared modules:
  - `Numeric`: C casts, `fmod`, and the <cmath> functions as graphs.
  - `Vectors`: `std::vector<float>` construction and `resize`.
  - `Spline`: knot collection and gap filling.
  - `Bins`: amplitudes, accumulation into columns, scaling.
  - `Audio`: interleaved frames.
  - `Terminal`: output as tokens.

Objects whose fields the source updates in place are classes:

- `FrequencySpectrum.FrequencySpectrum`
- `FrequencySpetcrum.FrequencySpectrum`
- `Termviz.Termviz`
- `MainProgram.Visualizer`
- the `std::vector<float>` wrapper `Vectors.FloatVector`

Their methods are proved against specification functions:

- `FrequencySpectrum.Rendered`
- `FrequencySpetcrum.Rendered`
- `Audio.Channel`
- `Termviz.Emit` and `Termviz.FrameOutput`
- `MainProgram.Summed`, `MainProgram.Smoothed` and `MainProgram.Bars`

The properties the source relies on are proved about those functions as
lemmas:

- every bin lands in a column, each column is the sum of its bins, and
  the total is conserved;
- the ratio lies in [0, 1) (for the current renderer: with LINEAR, LOG
  or roots 1 to 3) and never decreases with the bin (for every root but
  -1);
- the last column of the current renderer is never reached;
- gap filling keeps every nonzero column;
- colour channels lie in 0..255, and hue is periodic;
- a bar prints its characters and peak character in order;
- the printers visit their columns in order and stop at the first
  colour error.

Modelling conventions:

- `float` and `double` become `real`.
- A C conversion to `int` is `Numeric.Trunc`: rounding toward zero.
- `fmod(h, 1)` is `Numeric.FModOne`.
- `log`, `sqrt`, `cbrt` and `pow` are functions given by their graphs
  (`Numeric.Libm`). They are constrained only by the laws the proofs
  need: `log(1) = 0`, everything strictly increasing, and so on.
- The FFT is likewise a graph, `Numeric.Fft`. Its one law is that a
  size-`n` transform yields `n/2 + 1` bins, as kissfft's real transform
  does.
- The spline is a graph too, `Spline.SplineFn`. It gives the value at
  `x` of the spline of a kind through given knots.
- Everything written to `std::cout` is recorded as a sequence of
  `Terminal.Token`s. These are clear screen, cursor move to a row and
  column, colour, glyph, cursor up and cursor left.
- Everything written to the audio output stream is recorded as a
  sequence of blocks.
- An exception is a `Numeric.Failure` (`InvalidArgument` or
  `LogicError`), returned as the `Err` or `Fail` of a result. A printer
  records the output written before the exception was raised.

Where the documentation of the program and its code disagree, the model
follows the code:

- There is no analysis window and no "max" accumulation; bins are always
  summed.
- `set_fft_size` does not check that the size is even. Only the argument
  parser does (src/Args.hpp:82-83), so the model makes evenness a
  precondition.
- `_main` takes the first channel of each frame (`buffer[i * channels]`),
  not the last.
- A bar with a negative height still prints its top character, because
  `print_bar` tests only `height != 0`.
- The full-width printer reads `spectrum[width - i]`. For column 0 that
  is one past the end of the vector.
- The first mirrored half visits columns `half` down to 0 and reads
  `spectrum[half - i]`. For column 0 that is one past the end of the
  vector too.
- A read outside the vector yields the value `stale`, made a parameter
  (`Termviz.FullReads`, `Termviz.FirstHalfReads`).

## Model

| member | source | states |
|---|---|---|
| Numeric.Trunc | src/main.cpp:89 | a float-to-int conversion drops the fraction toward zero: for x >= 0 the result is the floor, for x < 0 it lies in (x - 1, 0] and above x |
| Numeric.FModOne | src/ColorUtils.hpp:15 | `fmod(x, 1)` lies strictly between -1 and 1, has the sign of x, and differs from x by a whole number |
| Numeric.CDiv | src/FrequencySpectrum.hpp:176 | C's integer `/` truncates toward zero: the quotient's magnitude is the number of whole times |b| fits in |a|, and a nonzero quotient is negative exactly when the signs differ |
| Numeric.OneOverWideIsZero | src/FrequencySpectrum.hpp:176 | the integer division `1 / nth_root` is 0 for every root of magnitude at least 2 |
| Numeric.Norm2Nonnegative | src/FrequencySpectrum.hpp:128 | `re*re + im*im` is never negative, so the `sqrt` is taken of a value in its domain |
| Numeric.LogSign | src/FrequencySpectrum.hpp:164-165 | under the laws of `log`, `log(i)` is non-negative from 1 on and positive beyond 1 |
| Numeric.RootSign | src/FrequencySpectrum.hpp:171-174 | `sqrt` and `cbrt` are non-negative on non-negative arguments and positive on positive ones |
| Vectors.Zeros | src/main.cpp:35 | a value-initialised vector of n floats has length n |
| Vectors.Resized | src/main.cpp:45 | `resize(n)` gives length n, keeps the first min(n, old length) elements and fills the rest with the fill value |
| Vectors.ResizedSameLength | src/termviz.hpp:168-172 | resizing to the current length leaves the vector unchanged |
| Vectors.FloatVector.constructor | src/main.cpp:35 | a new vector of n floats holds n zeros |
| Vectors.FloatVector.Resize | src/termviz.hpp:170 | the elements after `resize(n)` are exactly `Resized(old, n, 0)` |
| Spline.KnotsAreNonzeroEntries | src/FrequencySpectrum.hpp:186-193 | the collected indices are strictly increasing and in range, each holds a nonzero value that is the collected value, and every nonzero index is collected |
| Spline.GapFill | src/FrequencySpectrum.hpp:195-204 | with fewer than three knots nothing changes; otherwise nonzero entries are kept and every zero entry becomes the spline through the knots, evaluated at its index; the length is kept in both cases |
| Spline.GapFillKeepsKnots | src/FrequencySpectrum.hpp:203-204 | every knot of the input is still a knot of the filled spectrum |
| Spline.CollectKnots | src/FrequencySpectrum.hpp:186-193 | the loop collects exactly the nonzero indices and their values, in order |
| Spline.FillGaps | src/FrequencySpectrum.hpp:183-205 | `interpolate(spectrum)` leaves `GapFill` of the old contents, in place |
| Bins.Amplitudes | src/FrequencySpectrum.hpp:125-128 | there is one amplitude per bin |
| Bins.AmplitudeAt | src/FrequencySpectrum.hpp:127-128 | amplitude k is `sqrt(re*re + im*im)` of bin k |
| Bins.AmplitudesNonnegative | src/FrequencySpectrum.hpp:128 | every amplitude is non-negative |
| Bins.Accumulate | src/FrequencySpectrum.hpp:122-139 | summing into a cleared vector keeps its width |
| Bins.AccumulateIsBinSum | src/FrequencySpectrum.hpp:122-139 | each column ends up as the sum of the amplitudes of exactly the bins mapped to it |
| Bins.UnmappedColumnIsZero | src/FrequencySpectrum.hpp:122-139 | a column no bin is mapped to stays 0 |
| Bins.SumOfUpdate | src/FrequencySpectrum.hpp:138 | `spectrum[index] += amplitude` adds the amplitude to the total |
| Bins.AccumulateConserves | src/FrequencySpectrum.hpp:122-139 | the total over all columns equals the total amplitude of the bins: no bin is lost or counted twice |
| Bins.Scaled | src/FrequencySpectrum.hpp:144-145 | scaling keeps the length |
| Bins.ScaledAt | src/FrequencySpectrum.hpp:144-145 | element i after `a *= f` is `a[i] * f` |
| Bins.ScaledColumnIsBinSum | src/FrequencySpectrum.hpp:138-145 | after normalisation each column is f times the sum of its bins |
| Bins.ScaleInPlace | src/FrequencySpectrum.hpp:144-145 | the loop multiplies every element by f, in place |
| SmoothedAmplitudes.SmoothedAmplitudes.constructor | src/SmoothedAmplitudes.hpp:8-33 | the new vector has the input's length. With three or more knots it is the cubic-spline `GapFill` of the input, and the input is untouched. Otherwise it takes the input's contents, and the input is left holding zeros (the swap) |
| ColorUtils.NormalizeHue | src/ColorUtils.hpp:15-19 | the normalised hue is the fractional part `h - floor(h)`, in [0, 1) |
| ColorUtils.NormalizeHuePeriodic | src/ColorUtils.hpp:15-19 | hues a whole turn apart normalise alike |
| ColorUtils.SectorInRange | src/ColorUtils.hpp:27-31 | for a normalised hue, `var_i` is one of 0..5 and the position within the sector lies in [0, 1) |
| ColorUtils.VarsInRange | src/ColorUtils.hpp:32-34 | `var_1`, `var_2` and `var_3` lie in [0, v] for valid s and v |
| ColorUtils.SectorCases | src/ColorUtils.hpp:36-67 | each sector 0..5 succeeds; one channel is v and each channel is v or one of the three vars; for valid s and v all channels lie in [0, v] |
| ColorUtils.HsvToRgb | src/ColorUtils.hpp:9-74 | `invalid_argument` exactly when s or v lies outside [0, 1]; the `logic_error` branch is never reached |
| ColorUtils.GreyWithoutSaturation | src/ColorUtils.hpp:23-24 | with s = 0 all three channels are `(int)(v * 255)` |
| ColorUtils.ComponentsInRange | src/ColorUtils.hpp:23-71 | for a normalised hue and valid s, v the switch succeeds, one component equals v, each is v or a var, and all lie in [0, v] |
| ColorUtils.ChannelInRange | src/ColorUtils.hpp:73 | a component in [0, 1] becomes an integer in 0..255 |
| ColorUtils.RgbInRange | src/ColorUtils.hpp:9-74 | for valid s and v the conversion succeeds with every channel in 0..255, for any hue |
| ColorUtils.HuePeriodic | src/ColorUtils.hpp:15-19 | adding 1 to the hue does not change the colour, so the wheel phase can grow without bound |
| ColorUtils.Interpolate | src/ColorUtils.hpp:76-83 | fails, with `invalid_argument`, exactly when the interpolated saturation or value leaves [0, 1]; for t in [0, 1] between two valid colours it always succeeds |
| ColorUtils.InterpolateEnds | src/ColorUtils.hpp:76-83 | interpolation at t = 0 is the first colour and at t = 1 the second |
| Audio.FrameIndexInBounds | src/termviz.hpp:184-185 | sample i of 1-based channel ch lies inside an n-frame interleaved buffer |
| Audio.Channel | src/main.cpp:70-71 | the extracted channel has one sample per frame |
| Audio.ChannelAt | src/termviz.hpp:184-185 | sample i of the extracted channel is `buffer[i * channels + ch - 1]`, inside the buffer |
| Audio.Deinterleaves | src/termviz.hpp:184-185 | every buffer element is sample `k / channels` of channel `k % channels + 1`: the channels together cover the buffer |
| Terminal.RungTokens | src/termviz.hpp:298 | a rung prints its character and moves up and left, never to a column |
| FrequencySpectrum.ScaleMaxFor | src/FrequencySpectrum.hpp:38-45 | with two or more bins and a lawful math library, `scale_max.set` yields positive `log`, `sqrt`, `cbrt` and `nthroot` denominators, for any nonzero root |
| FrequencySpectrum.CalcIndexRatio | src/FrequencySpectrum.hpp:158-181 | under the laws of the math library the ratio is never negative, for every scale and root, except bin 0 with root -1 (`pow(0, -1)`) |
| FrequencySpectrum.CalcIndex | src/FrequencySpectrum.hpp:153-156 | the index is non-negative. For max_index >= 1 it is below max_index; otherwise it is 0. When the truncated product lies in range, it is that product |
| FrequencySpectrum.Destinations | src/FrequencySpectrum.hpp:125-129 | one destination per bin. With one or more columns every destination is a column. With two or more, none is the last column |
| FrequencySpectrum.DestinationAt | src/FrequencySpectrum.hpp:129 | bin k goes to `calc_index(k, width - 1)` |
| FrequencySpectrum.BinAmplitudes | src/FrequencySpectrum.hpp:119-128 | the amplitudes of the transform of the first `fft_size` samples: `fft_size/2 + 1` of them |
| FrequencySpectrum.Columns | src/FrequencySpectrum.hpp:121-145 | summing and normalising gives one value per output column |
| FrequencySpectrum.Normalized | src/FrequencySpectrum.hpp:119-145 | the spectrum before interpolation has the caller's width |
| FrequencySpectrum.Rendered | src/FrequencySpectrum.hpp:115-150 | the rendered spectrum has the caller's width. Nonzero columns keep their normalised sum. It equals the normalised sums when interpolation is off, the scale is linear, or there are fewer than three knots |
| FrequencySpectrum.ColumnIsBinSum | src/FrequencySpectrum.hpp:125-145 | column c is `fftsize_inv` times the sum of the amplitudes of the bins mapped to c |
| FrequencySpectrum.UnmappedColumnIsEmpty | src/FrequencySpectrum.hpp:122-145 | a column no bin is mapped to is 0 before interpolation |
| FrequencySpectrum.LastColumnIsEmpty | src/FrequencySpectrum.hpp:153-156 | the clamp to `max_index - 1` means the last column never receives a bin |
| FrequencySpectrum.LinearRatio | src/FrequencySpectrum.hpp:162-170 | LINEAR, and NTH_ROOT with root 1, give `i / bins`, which lies in [0, 1) and never decreases with i |
| FrequencySpectrum.LogMergesFirstTwoBins | src/FrequencySpectrum.hpp:164-165 | LOG sends bins 0 and 1 to ratio 0, because of the guard `i ? i : 1` |
| FrequencySpectrum.RatioInUnitInterval | src/FrequencySpectrum.hpp:158-181 | for each scale, and roots 1..3, the ratio of a bin lies in [0, 1) |
| FrequencySpectrum.WideRootRatioIsConstant | src/FrequencySpectrum.hpp:175-176 | for roots >= 4 or <= -2 the integer exponent `1 / nth_root` is 0, so every bin gets ratio `1 / scale_max.nthroot` |
| FrequencySpectrum.RatioMonotone | src/FrequencySpectrum.hpp:158-181 | the ratio never decreases with the bin index, for every scale except root -1 |
| FrequencySpectrum.SumBins | src/FrequencySpectrum.hpp:121-139 | the fill and the bin loop leave `Accumulate` of the amplitudes at their destinations |
| FrequencySpectrum.FrequencySpectrum.constructor | src/FrequencySpectrum.hpp:53-62 | `kf` is configured for `fft_size`. There are `fft_size/2 + 1` zero bins. Scale and interpolation are as given, the root is 2, `fftsize_inv` is unset, and `scale_max` is computed for root 2 |
| FrequencySpectrum.FrequencySpectrum.SetFftSize | src/FrequencySpectrum.hpp:69-75 | reconfigures `kf` and resizes the bins to `fft_size/2 + 1`. Sets `fftsize_inv` to `1 / fft_size` and recomputes `scale_max` for the current root. The other settings are kept |
| FrequencySpectrum.FrequencySpectrum.SetInterpType | src/FrequencySpectrum.hpp:81-84 | sets the interpolation type |
| FrequencySpectrum.FrequencySpectrum.SetScale | src/FrequencySpectrum.hpp:90-93 | sets the scale |
| FrequencySpectrum.FrequencySpectrum.SetNthRoot | src/FrequencySpectrum.hpp:100-105 | fails with `invalid_argument` exactly when the root is 0, leaving the root unchanged; otherwise sets it |
| FrequencySpectrum.FrequencySpectrum.Render | src/FrequencySpectrum.hpp:115-150 | the settings are unchanged, and the caller's vector becomes `Rendered` of the settings, the samples and its old width |
| FrequencySpetcrum.DenominatorsPositive | src/FrequencySpetcrum.hpp:32-33 | with two or more bins `logmax` and `sqrtmax` are positive |
| FrequencySpetcrum.CalcIndexRatio | src/FrequencySpetcrum.hpp:101-114 | under the laws of the math library the ratio is never negative, for all three scales |
| FrequencySpetcrum.CalcIndex | src/FrequencySpetcrum.hpp:96-99 | the index lies in [0, max_index] (0 when max_index < 0), and is the truncated product whenever that lies in range |
| FrequencySpetcrum.RatioInUnitInterval | src/FrequencySpetcrum.hpp:101-114 | for each scale the ratio of a bin lies in [0, 1) |
| FrequencySpetcrum.RatioMonotone | src/FrequencySpetcrum.hpp:101-114 | the ratio never decreases with the bin index |
| FrequencySpetcrum.LastColumnUnreached | src/FrequencySpetcrum.hpp:96-114 | although the clamp allows `max_index`, a ratio below 1 means no bin is ever placed there |
| FrequencySpetcrum.Destinations | src/FrequencySpetcrum.hpp:79-83 | one destination per bin, each a column of the output |
| FrequencySpetcrum.DestinationAt | src/FrequencySpetcrum.hpp:83 | bin k goes to `calc_index(k, width - 1)` |
| FrequencySpetcrum.Summed | src/FrequencySpetcrum.hpp:73-84 | summing gives one value per output column |
| FrequencySpetcrum.Rendered | src/FrequencySpetcrum.hpp:70-89 | the rendered spectrum has the caller's width and keeps every nonzero sum. It equals the sums when the scale is linear or there are fewer than three knots |
| FrequencySpetcrum.SummedConserves | src/FrequencySpetcrum.hpp:76-84 | without normalisation the columns add up to the total amplitude of the bins |
| FrequencySpetcrum.SumBins | src/FrequencySpetcrum.hpp:75-84 | the fill and the bin loop leave `Accumulate` of the amplitudes at their destinations |
| FrequencySpetcrum.FrequencySpectrum.constructor | src/FrequencySpetcrum.hpp:27-35 | `fft_size/2 + 1` zero bins, the given scale and spline type, and `logmax`, `sqrtmax` for that bin count |
| FrequencySpetcrum.FrequencySpectrum.SetFftSize | src/FrequencySpetcrum.hpp:37-43 | reconfigures the transform, resizes the bins and sets `logmax = log(bins)`, `sqrtmax = sqrt(bins)`; scale and spline type are kept |
| FrequencySpetcrum.FrequencySpectrum.SetSplineType | src/FrequencySpetcrum.hpp:49-52 | sets the spline type |
| FrequencySpetcrum.FrequencySpectrum.SetScale | src/FrequencySpetcrum.hpp:58-61 | sets the scale |
| FrequencySpetcrum.FrequencySpectrum.Render | src/FrequencySpetcrum.hpp:70-89 | the settings are unchanged, and the caller's vector becomes `Rendered` of the settings, the samples and its old width |
| Termviz.BarBody | src/termviz.hpp:296-298 | n rungs are 3n tokens |
| Termviz.BarBodyGlyphs | src/termviz.hpp:296-298 | the loop prints `characters[j % length]` for j = 0 .. n-1, in order, and never moves to a column |
| Termviz.BarTokens | src/termviz.hpp:287-302 | height 0 writes nothing; any other height writes one three-token rung per character below the top, then the top glyph |
| Termviz.BarGlyphs | src/termviz.hpp:287-302 | height 0 prints nothing. Otherwise it prints `max(height, 1)` characters: the first `height - 1` cycle through `characters`, and the last is `peak_char` if set, else the next character of the cycle |
| Termviz.ColoringTokens | src/termviz.hpp:252-278 | fails, with `invalid_argument`, exactly when the colour type is WHEEL and s or v is out of range; otherwise writes one colour token, or none for NONE |
| Termviz.ColoringCases | src/termviz.hpp:252-278 | NONE writes nothing and SOLID writes the RGB colour. WHEEL with valid s and v writes `hsvToRgb(ratio + h + wheel_time, s, v)` |
| Termviz.FullReads | src/termviz.hpp:221-225 | the full printer visits column k and reads `spectrum[width - k]`: one past the end for k = 0, inside the vector otherwise |
| Termviz.FirstHalfReads | src/termviz.hpp:232-237 | the k-th column visited is `half - k`, reading `spectrum[k]`; the read is inside the vector exactly when k < half |
| Termviz.SecondHalfReads | src/termviz.hpp:243-248 | the k-th column visited is `half + k`, reading `spectrum[k]`; the loop visits `width - half` columns |
| Termviz.BarHasNoMoves | src/termviz.hpp:287-302 | a bar never moves the cursor to a column |
| Termviz.ColumnOutcome | src/termviz.hpp:252-285 | a column fails exactly when the wheel colouring has invalid s or v. Otherwise it moves the cursor to its own column and to no other |
| Termviz.EmitOutcome | src/termviz.hpp:219-250 | a printer fails exactly when it visits a column and the wheel colouring is invalid. If it does not fail, it moves the cursor to the visited columns in visiting order |
| Termviz.EmitStops | src/termviz.hpp:219-250 | after an exception no later iteration writes anything |
| Termviz.EmitFailure | src/termviz.hpp:219-250 | the only exception a printer raises is the `invalid_argument` of `hsvToRgb` |
| Termviz.FirstHalfDescends | src/termviz.hpp:233-237 | the first mirrored half moves to columns `half, half-1, ..., 0` in that order |
| Termviz.MirroredHalves | src/termviz.hpp:199-208 | after a successful first half, a mono file fails at `copy_channel_to_timedata(2)` with "channel_num > sf.channels()", with nothing more printed. A stereo file prints the second half after the first |
| Termviz.FrameOutcome | src/termviz.hpp:188-217 | a full frame fails exactly when the wheel colouring is invalid or the display is mirrored over a mono file. Every failure is `invalid_argument`, and the mono one is the channel-count error |
| Termviz.AsWrittenReadsPastEnd | src/termviz.hpp:184-185 | as written, the last channel's last sample is read at index `sample_size * channels`, one past the end (6000 for 3000 stereo frames). Channel c < channels reads channel c + 1 |
| Termviz.Termviz.constructor | src/termviz.hpp:28-70 | sample size 3000 and a LOG/CSPLINE renderer with `fftsize_inv` unset. `timedata` and `audio_buffer` are zeroed and sized 3000 and 3000 × channels. The spectrum has width/2 (mirrored) or width zeros. Colour WHEEL, HSV (0.9, 0.7, 1), RGB (255, 0, 255), multiplier 3, no characters, wheel at rest. Nothing printed or played |
| Termviz.Termviz.SetSampleSize | src/termviz.hpp:78-88 | the renderer is reconfigured for n: `fftsize_inv = 1/n`, n/2 + 1 bins, scale, root and interpolation kept, and `scale_max` recomputed for the new bin count. `timedata` is resized to n and `audio_buffer` to n × channels |
| Termviz.Termviz.SetCharacters | src/termviz.hpp:90-94 | sets the bar characters |
| Termviz.Termviz.SetPeakChar | src/termviz.hpp:96-100 | sets the peak character |
| Termviz.Termviz.SetColorType | src/termviz.hpp:102-106 | sets the colour type |
| Termviz.Termviz.SetWheelRate | src/termviz.hpp:108-112 | sets the wheel rate |
| Termviz.Termviz.SetRgb | src/termviz.hpp:114-118 | sets the solid colour |
| Termviz.Termviz.SetHsv | src/termviz.hpp:120-124 | sets the base HSV colour |
| Termviz.Termviz.SetMultiplier | src/termviz.hpp:157-161 | sets the multiplier |
| Termviz.Termviz.SetInterpType | src/termviz.hpp:130-134 | forwards the interpolation type to the renderer |
| Termviz.Termviz.SetScale | src/termviz.hpp:140-144 | forwards the scale to the renderer |
| Termviz.Termviz.SetNthRoot | src/termviz.hpp:151-155 | forwards the root. It fails with `invalid_argument` exactly when the root is 0, leaving the root unchanged |
| Termviz.Termviz.CheckTsizeUpdate | src/termviz.hpp:164-176 | adopts the new size. The spectrum is resized to the new (half) width only when the width changed, and otherwise kept |
| Termviz.Termviz.CopyChannelToTimedata | src/termviz.hpp:178-186 | channel numbers <= 0 and > channels fail with their own `invalid_argument` messages, leaving `timedata` unchanged. Otherwise `timedata` is exactly channel `channel_num` of the buffer (corrected indexing) |
| Termviz.Termviz.ApplyColoring | src/termviz.hpp:252-278 | appends the colouring tokens, or fails with the colouring's exception having written nothing |
| Termviz.Termviz.MoveToColumn | src/termviz.hpp:280-285 | appends a cursor move to (height, i) |
| Termviz.Termviz.PrintBar | src/termviz.hpp:287-302 | appends exactly the bar's tokens |
| Termviz.Termviz.PrintColumn | src/termviz.hpp:223-225 | appends the column's colour, move and bar, or fails with the colour error having written nothing |
| Termviz.Termviz.PrintIteration | src/termviz.hpp:221-226 | one loop iteration extends the output from `Emit` of k columns to `Emit` of k + 1, and fails exactly when that does |
| Termviz.Termviz.PrintSpectrumFull | src/termviz.hpp:219-228 | writes `Emit` over the full layout, fails exactly when it does, and advances the wheel by `wheel_rate` only on success |
| Termviz.Termviz.PrintMirroredFirstHalf | src/termviz.hpp:230-239 | writes `Emit` over the descending first-half layout and fails exactly when it does |
| Termviz.Termviz.PrintMirroredSecondHalf | src/termviz.hpp:241-250 | writes `Emit` over the ascending second-half layout and fails exactly when it does |
| Termviz.Termviz.DrawFull | src/termviz.hpp:209-214 | channel 1 is copied and rendered across the full width, then printed as `FullOutput`; the wheel advances on success |
| Termviz.Termviz.DrawFirstHalf | src/termviz.hpp:201-203 | channel 1 is copied and rendered to half width, then printed as the first half. It succeeds exactly when the wheel colouring is valid |
| Termviz.Termviz.DrawSecondHalf | src/termviz.hpp:205-207 | a mono file fails with the channel-count error, changing and printing nothing. Otherwise channel 2 is copied, rendered and printed as the second half |
| Termviz.Termviz.FinishMirrored | src/termviz.hpp:205-207 | after a successful first half, the output is `MirroredOutput`; it succeeds exactly for stereo files |
| Termviz.Termviz.DrawMirrored | src/termviz.hpp:199-208 | the mirrored branch prints `MirroredOutput` and fails exactly when it does; `timedata` holds channel 2 after success, channel 1 otherwise |
| Termviz.Termviz.DrawFrame | src/termviz.hpp:198-214 | the screen is cleared, then `FrameOutput` is printed. The spectrum is the render of the last channel copied, and the wheel advances only after a successful full-width print |
| Termviz.Termviz.RenderFrame | src/termviz.hpp:188-217 | adopts the new terminal size and stores the read frame over the head of the buffer. Zero frames: stop, playing nothing. A short read plays the whole buffer and stops. A full read plays the buffer, clears the screen and prints `FrameOutput`, returning its exception or true |
| MainProgram.PlayedBlocks | src/main.cpp:55-62 | only reads of at least one frame are played, in order |
| MainProgram.Index | src/main.cpp:86-99 | under the laws of the math library `(int)(ratio(i) * width)` is never negative for a non-negative width, so `min(index, width - 1)` needs no floor |
| MainProgram.DestinationInColumns | src/main.cpp:86-100 | the capped index `min(index, width - 1)` is a column, and equals the uncapped index because the ratio stays below 1 |
| MainProgram.Destinations | src/main.cpp:81-100 | one destination per bin |
| MainProgram.DestinationsInColumns | src/main.cpp:81-100 | every destination is a column of the output |
| MainProgram.DestinationAt | src/main.cpp:100 | bin k goes to `min(index(k), width - 1)` |
| MainProgram.Summed | src/main.cpp:76-101 | the bin loop over cleared amplitudes yields one value per column |
| MainProgram.SummedColumns | src/main.cpp:81-101 | each column is the sum of the amplitudes of its bins, and the total amplitude is conserved |
| MainProgram.Smoothed | src/main.cpp:110-112 | smoothing keeps the length and every nonzero column. It changes nothing when the scale is linear or there are fewer than three knots |
| MainProgram.Rungs | src/main.cpp:132-134 | n rungs are 3n tokens |
| MainProgram.RungsGlyphs | src/main.cpp:132-134 | rung j prints the peak character exactly when `j == bar_height - 1`, the normal character otherwise, and no rung moves to a column |
| MainProgram.BarGlyphs | src/main.cpp:118-134 | a bar of height <= 0 prints nothing. A bar of height h > 0 prints h - 1 normal characters and then the peak character, never moving to a column |
| MainProgram.ColumnOutcome | src/main.cpp:117-129 | a column fails exactly when colour is on and s or v is invalid, always with `invalid_argument`. Otherwise it moves the cursor to its own column only |
| MainProgram.BarsFailure | src/main.cpp:115-135 | the drawing loop fails exactly when it has a column, colour is on, and s or v is invalid. It then fails at column 0 having drawn nothing, with `invalid_argument` |
| MainProgram.BarsMoves | src/main.cpp:115-135 | a loop that does not fail moves the cursor to columns 0, 1, ..., n-1 in order |
| MainProgram.BarsStops | src/main.cpp:115-135 | after a failure later passes change nothing |
| MainProgram.Visualizer.constructor | src/main.cpp:22-35 | `freqdata_len = fft_size/2 + 1` and `fftsize_inv = multiplier / fft_size`; `logmax`, `sqrtmax` are those of `freqdata_len`; arrays of `fft_size` and `fft_size × channels`; `width` zero amplitudes; nothing printed or played |
| MainProgram.Visualizer.UpdateSize | src/main.cpp:40-51 | adopts the new size. The amplitudes are resized only when the width changed, and otherwise kept |
| MainProgram.Visualizer.ReadFrames | src/main.cpp:55 | the read overwrites the head of the buffer with the frame and keeps the rest |
| MainProgram.Visualizer.Analyse | src/main.cpp:69-74 | `timedata` holds the first channel of the buffer, and `freqdata` is its transform |
| MainProgram.Visualizer.CopyFirstChannel | src/main.cpp:70-71 | the channel loop leaves `timedata` holding channel 1 of the interleaved buffer, `buffer[i * channels]` for every frame |
| MainProgram.Visualizer.ZeroAmplitudes | src/main.cpp:77-78 | every amplitude is set to 0, the length kept |
| MainProgram.Visualizer.MapBins | src/main.cpp:81-101 | the bin loop leaves `Summed` of the transform |
| MainProgram.Visualizer.BinIndex | src/main.cpp:86-99 | `index` is `(int)(ratio(i) * width)`, the truncated product of the bin's ratio and the width |
| MainProgram.Visualizer.BinRatio | src/main.cpp:86-98 | the switch computes the ratio that the older renderer's `calc_index_ratio` gives for the configured scale: `i / freqdata_len`, `log(i ? i : 1) / logmax` or `sqrt(i) / sqrtmax` |
| MainProgram.Visualizer.SumBins | src/main.cpp:76-101 | clearing and the bin loop leave `Summed` of the transform |
| MainProgram.Visualizer.Smooth | src/main.cpp:110-112 | the amplitudes become `Smoothed` of their old contents |
| MainProgram.Visualizer.DrawBar | src/main.cpp:131-134 | appends exactly the bar's rungs |
| MainProgram.Visualizer.DrawColumn | src/main.cpp:117-134 | appends the column's colour, move and bar, or fails with the colour error having written nothing |
| MainProgram.Visualizer.DrawBars | src/main.cpp:114-135 | writes `Bars` over every column and fails exactly when it does |
| MainProgram.Visualizer.Frame | src/main.cpp:69-135 | the first channel is analysed, summed and smoothed. The screen is cleared and the bars are drawn, failing exactly when the drawing does |
| MainProgram.Visualizer.Step | src/main.cpp:40-135 | one pass. It adopts the terminal size, stores the frame and plays the frames read. With no frames it stops; a short read stops with nothing printed or analysed. A full read runs `Frame` and continues unless drawing failed |
| MainProgram.Visualizer.OnePass | src/main.cpp:53-67 | what a pass plays, and that the loop continues exactly after a full read with no failure |
| MainProgram.Visualizer.Run | src/main.cpp:38-136 | the loop continues while reads are full. It ends at the first short or empty read, at an exception, or when the input runs out. Everything played is `PlayedBlocks` of the reads consumed |

## Left out

- Audio I/O: decoding the file, the PortAudio stream, and its `reopen`
  in `set_sample_size` (src/termviz.hpp:85) are outside the model. The
  frames read and the terminal size are parameters; what is played and
  printed is recorded.
- The mutex in `termviz` is left out. The model is single-threaded, and
  `render_frame` returns without unlocking on its early exits.
- `start()` (src/termviz.hpp:72-76) is left out. It is a loop around
  `render_frame` over an unbounded input. `MainProgram.Visualizer.Run`
  shows that shape for `_main`.
- Argument parsing (src/Args.hpp), and the catch of exceptions and the
  SIGINT handler in `main` (src/main.cpp:142-163), are left out.
- ANSI escape text is an abstract token each: clear, cursor move,
  colour, glyph, up, left.
- Floating-point rounding is not modelled: `float` and `double` are
  exact reals.
- `log`, `sqrt`, `cbrt`, `pow`, the kissfft transform and `tk::spline`
  are given as graphs constrained by a few laws. No numerical property
  of the FFT or of the spline is claimed.
- `set_fft_size` relies on kissfft accepting the new size, and the
  transform on an even `fft_size`. The argument parser rejects only odd
  sizes (src/Args.hpp:82-83). The model also requires at least 2. With
  0, `_main` reads no frame and stops at once, and the renderers divide
  by zero (`1. / fft_size`, and `log(1) = 0` as `logmax`). A negative
  size gives arrays of negative length.
- `Termviz.Termviz.RenderFrame` on a full read, and `DrawFrame` and the
  printers always, require a width of at least 1 (2 when mirrored). With
  width 0, `render` writes `spectrum[0]` of an empty vector.
- `Termviz.Termviz.RenderFrame` on a full read, and `DrawFrame` and the
  printers always, require nonempty `characters`. With none, any bar of height 2 or more
  evaluates `characters[j % 0]`, which is undefined. `PrintBar` itself
  requires only `BarDefined`, the condition under which its own body is
  defined.
- `MainProgram.Visualizer.Step` requires a width of at least 1 on a
  full read. With width 0, `amplitudes[-1]` is written.
- `stereo_mirrored` has no setter in the source; it is a constructor
  parameter here.
- The uninitialised `peak_char` of `termviz` is a constructor parameter.
  The uninitialised `fftsize_inv` of `FrequencySpectrum` is an unknown
  constant until `set_fft_size` runs.
- The uninitialised variable-length arrays of `_main` start with
  unspecified contents in the model.
- Termviz.Termviz.DrawFull, Termviz.Termviz.DrawFirstHalf,
  Termviz.Termviz.DrawSecondHalf, Termviz.Termviz.FinishMirrored,
  Termviz.MirroredHalves, Termviz.Termviz.DrawMirrored,
  Termviz.Termviz.DrawFrame, Termviz.Termviz.RenderFrame and
  Termviz.FrameOutcome run the corrected `copy_channel_to_timedata` (see
  Findings). So at frame level they do not capture the as-written reads
  of src/termviz.hpp:185: a full-width stereo frame analyses the right
  channel, a mono frame reads `audio_buffer[sample_size]`, and the
  mirrored second half reads `audio_buffer[sample_size * 2]`, past the
  end. `Termviz.AsWrittenReadsPastEnd` states those reads for the copy
  alone.
- Reads past the end of `spectrum` in the termviz printers yield an
  unspecified value, `stale`, instead of undefined behaviour.
- `MainProgram.Visualizer.Run` takes finite sequences of reads and
  terminal sizes in place of the endless file and terminal queries.
- `MainProgram.Visualizer.OnePass` states only what `Run` needs of a
  pass: what is played and whether the loop continues. `Step` states
  the rest.
- The renderer's `freqdata` is a sequence, not an array written through
  a pointer by the transform.

## Findings

| source | as written | input that shows it | evidently intended | confidence | as-written member | corrected member |
|---|---|---|---|---|---|---|
| src/termviz.hpp:185 | `timedata[i] = audio_buffer[i * sf.channels() + channel_num]` treats the 1-based `channel_num` as 0-based | a stereo file and 3000 frames: `copy_channel_to_timedata(2)` reads up to `audio_buffer[2999 * 2 + 2]`, index 6000 of a 6000-element buffer, and `copy_channel_to_timedata(1)` reads the right channel; with one channel, `copy_channel_to_timedata(1)` reads `audio_buffer[sample_size]` | `audio_buffer[i * sf.channels() + channel_num - 1]`: channel 1 is the left channel and every read is inside the buffer | not executed | Termviz.AsWrittenReadsPastEnd | Termviz.Termviz.CopyChannelToTimedata |
