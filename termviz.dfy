/**
 * Class `termviz` of src/termviz.hpp: for each frame it tracks the
 * terminal size, reads a frame of interleaved audio, plays it, picks one
 * channel into the time-domain buffer, has a `FrequencySpectrum` render
 * it, and draws the spectrum as coloured vertical bars, either across the
 * whole width or mirrored about the middle (left channel growing leftward
 * from the centre, right channel rightward).
 *
 * The audio file, the audio output stream, the terminal query and
 * `std::cout` are outside the model: the frame read and the terminal size
 * are parameters, what is played is recorded in `played`, and what is
 * printed in `out`, as `Terminal` tokens.
 */
module Termviz {
  import opened Numeric
  import opened Vectors
  import opened Spline
  import opened ColorUtils
  import opened Terminal
  import opened Audio
  import FS = FrequencySpectrum

  datatype ColorType = NoColor | Wheel | Solid

  /** Everything `apply_coloring`, `move_to_column` and `print_bar` read. */
  datatype Style = Style(colorType: ColorType, hsv: Hsv, rgb: Rgb, wheelTime: real,
                         characters: string, peakChar: char, multiplier: real, height: nat)

  /** The spectrum length kept for a terminal `width` columns wide. */
  function SpectrumWidth(mirrored: bool, width: nat): nat
  {
    if mirrored then width / 2 else width
  }

  // ---------------------------------------------------------------- bars

  /** `print_bar` is defined: `characters[j % length]` is evaluated only with a nonempty string. */
  predicate BarDefined(height: int, characters: string, peakChar: char)
  {
    height == 0 || |characters| > 0 || (height <= 1 && peakChar != 0 as char)
  }

  /** The first `n` rungs of a bar: character, cursor up, cursor left. */
  function BarBody(characters: string, n: nat): (t: seq<Token>)
    requires n == 0 || |characters| > 0
    ensures |t| == 3 * n
  {
    if n == 0 then []
    else BarBody(characters, n - 1) + [Glyph(characters[(n - 1) % |characters|]), CursorUp, CursorLeft]
  }

  /** The index `j` the glyph loop stops at. */
  function TopIndex(height: int): nat
  {
    if height >= 1 then height - 1 else 0
  }

  /** The peak character if one is set, else the next character of the cycle. */
  function TopGlyph(height: int, characters: string, peakChar: char): char
    requires height != 0 && BarDefined(height, characters, peakChar)
  {
    if peakChar != 0 as char then peakChar else characters[TopIndex(height) % |characters|]
  }

  /**
   * What `print_bar(height)` writes: nothing for height 0, otherwise one
   * rung (glyph, cursor up, cursor left) per character below the top and
   * then the top glyph.
   */
  function BarTokens(height: int, characters: string, peakChar: char): (t: seq<Token>)
    requires BarDefined(height, characters, peakChar)
    ensures |t| == if height == 0 then 0 else 3 * TopIndex(height) + 1
  {
    if height == 0 then []
    else BarBody(characters, TopIndex(height)) + [Glyph(TopGlyph(height, characters, peakChar))]
  }

  lemma {:induction false} BarBodyGlyphs(characters: string, n: nat)
    requires n == 0 || |characters| > 0
    ensures |Glyphs(BarBody(characters, n))| == n
    ensures forall j :: 0 <= j < n ==> Glyphs(BarBody(characters, n))[j] == characters[j % |characters|]
    ensures Moves(BarBody(characters, n)) == []
  {
    if n > 0 {
      BarBodyGlyphs(characters, n - 1);
      var ch := characters[(n - 1) % |characters|];
      GlyphsAppend(BarBody(characters, n - 1), [Glyph(ch), CursorUp, CursorLeft]);
      MovesAppend(BarBody(characters, n - 1), [Glyph(ch), CursorUp, CursorLeft]);
      RungTokens(ch);
    }
  }

  /**
   * A bar of height 0 draws nothing; a bar of height `h > 0` draws exactly
   * `h` characters, the `j`-th (`j < h - 1`) being `characters[j % length]`
   * and the top one the peak character, or the next of the cycle when no
   * peak character is set. A negative height draws the top character alone.
   */
  lemma BarGlyphs(height: int, characters: string, peakChar: char)
    requires BarDefined(height, characters, peakChar)
    ensures height == 0 ==> Glyphs(BarTokens(height, characters, peakChar)) == []
    ensures height != 0 ==>
              var g := Glyphs(BarTokens(height, characters, peakChar));
              && |g| == (if height > 0 then height else 1)
              && g[|g| - 1] == (if peakChar != 0 as char then peakChar else characters[TopIndex(height) % |characters|])
              && forall j :: 0 <= j < height - 1 ==> g[j] == characters[j % |characters|]
  {
    if height != 0 {
      var top := [Glyph(TopGlyph(height, characters, peakChar))];
      BarBodyGlyphs(characters, TopIndex(height));
      GlyphsAppend(BarBody(characters, TopIndex(height)), top);
      GlyphsOfToken(top[0]);
    }
  }

  // ------------------------------------------------------------- colouring

  /**
   * What `apply_coloring` writes for a column whose hue ratio is `ratio`:
   * one colour token, or none for NONE; it fails, with `invalid_argument`,
   * exactly when WHEEL meets an out-of-range saturation or value.
   */
  function ColoringTokens(st: Style, ratio: real): (r: Result<seq<Token>>)
    ensures r.Err? <==> st.colorType == Wheel && !InRange(st.hsv.s, st.hsv.v)
    ensures r.Err? ==> r.failure.InvalidArgument?
    ensures r.Ok? ==> |r.value| == (if st.colorType == NoColor then 0 else 1)
  {
    match st.colorType
    case Wheel =>
      (match HsvToRgb(ratio + st.hsv.h + st.wheelTime, st.hsv.s, st.hsv.v)
       case Ok(c) => Ok([Color(c)])
       case Err(f) => Err(f))
    case Solid => Ok([Color(st.rgb)])
    case NoColor => Ok([])
  }

  /**
   * NONE writes nothing and SOLID the stored colour; WHEEL with a valid
   * saturation and value writes the colour of hue `ratio + h + wheel_time`.
   */
  lemma ColoringCases(st: Style, ratio: real)
    ensures st.colorType == NoColor ==> ColoringTokens(st, ratio) == Ok([])
    ensures st.colorType == Solid ==> ColoringTokens(st, ratio) == Ok([Color(st.rgb)])
    ensures st.colorType == Wheel && InRange(st.hsv.s, st.hsv.v) ==>
              ColoringTokens(st, ratio) == Ok([Color(HsvToRgb(ratio + st.hsv.h + st.wheelTime, st.hsv.s, st.hsv.v).value)])
  {
  }

  /** The wheel colouring with a saturation or value `hsvToRgb` refuses. */
  predicate WheelFails(st: Style)
  {
    st.colorType == Wheel && !InRange(st.hsv.s, st.hsv.v)
  }

  // ------------------------------------------------------------ columns

  /**
   * The three printers: the full width `print_spectrum_full`, and the two
   * halves of the mirrored display, `print_mirrored_1st_half` and
   * `print_mirrored_2nd_half`, about `half = width / 2`.
   */
  datatype Layout = Full(width: nat) | FirstHalf(half: nat) | SecondHalf(half: nat, width: nat)
  {
    /** The mirrored ratios divide by `half`. */
    predicate Valid()
    {
      match this
      case Full(_) => true
      case FirstHalf(half) => half >= 1
      case SecondHalf(half, width) => half >= 1 && half <= width
    }

    /** How many columns the printer's loop visits. */
    function Count(): nat
    {
      match this
      case Full(width) => width
      case FirstHalf(half) => half + 1
      case SecondHalf(half, width) => if width >= half then width - half else 0
    }
  }

  /** One visited column: the terminal column, the hue ratio passed to `apply_coloring`, and the spectrum index read. */
  datatype Column = Column(col: int, ratio: real, source: int)

  /** The `k`-th column a printer visits. */
  function ColumnAt(l: Layout, k: nat): Column
    requires l.Valid() && k < l.Count()
  {
    match l
    case Full(width) => Column(k, k as real / width as real, width - k)
    case FirstHalf(half) =>
      var i := half - k;
      Column(i, (half as real - i as real) / half as real, half - i)
    case SecondHalf(half, _) =>
      var i := half + k;
      Column(i, i as real / half as real, i - half)
  }

  /**
   * The full printer visits columns 0 .. width-1 and reads
   * `spectrum[width - i]`: against a spectrum of `width` entries, the first
   * column reads one past the end, the others read 1 .. width-1, and entry
   * 0 is never shown.
   */
  lemma FullReads(width: nat, k: nat)
    requires k < width
    ensures ColumnAt(Full(width), k).col == k
    ensures k == 0 ==> ColumnAt(Full(width), k).source == width
    ensures k > 0 ==> 1 <= ColumnAt(Full(width), k).source < width
  {
  }

  /**
   * The first mirrored half visits columns `half` down to 0 and reads
   * `spectrum[half - i]`, that is 0 .. half in visiting order: against a
   * spectrum of `width / 2 == half` entries, only the last column visited,
   * terminal column 0, reads past the end.
   */
  lemma FirstHalfReads(half: nat, k: nat)
    requires half >= 1 && k <= half
    ensures ColumnAt(FirstHalf(half), k).col == half - k
    ensures ColumnAt(FirstHalf(half), k).source == k
    ensures k < half <==> ColumnAt(FirstHalf(half), k).source < half
  {
  }

  /** Visit `k` of the first half is column `half - k`. */
  lemma FirstHalfColumn(half: nat, i: int, k: nat)
    requires half >= 1 && 0 <= i <= half && k == half - i
    ensures ColumnAt(FirstHalf(half), k) == Column(i, (half as real - i as real) / half as real, half - i)
  {
  }

  /**
   * The second mirrored half visits columns `half` .. width-1 and reads
   * `spectrum[i - half]`: all reads lie inside a spectrum of `width / 2`
   * entries exactly when the width is even; with an odd width the last
   * column reads one past the end.
   */
  lemma SecondHalfReads(width: nat, k: nat)
    requires width >= 2 && k < SecondHalf(width / 2, width).Count()
    ensures ColumnAt(SecondHalf(width / 2, width), k).col == width / 2 + k
    ensures ColumnAt(SecondHalf(width / 2, width), k).source == k
    ensures SecondHalf(width / 2, width).Count() == (if width % 2 == 0 then width / 2 else width / 2 + 1)
  {
  }

  /** `spectrum[k]`; a read outside the vector yields the value `stale` found there. */
  function Sample(s: seq<real>, k: int, stale: real): real
  {
    if 0 <= k < |s| then s[k] else stale
  }

  /** `multiplier * amplitude * height`, truncated to the `int` parameter of `print_bar`. */
  function BarHeight(st: Style, amplitude: real): int
  {
    Trunc(st.multiplier * amplitude * st.height as real)
  }

  /** What one iteration of a printer loop writes: colour, cursor move, bar. */
  function ColumnTokens(st: Style, spectrum: seq<real>, stale: real, c: Column): Result<seq<Token>>
    requires |st.characters| > 0
  {
    match ColoringTokens(st, c.ratio)
    case Err(f) => Err(f)
    case Ok(t) =>
      Ok(t + [MoveTo(st.height, c.col)] + BarTokens(BarHeight(st, Sample(spectrum, c.source, stale)), st.characters, st.peakChar))
  }

  /** A column whose colouring succeeds writes the colouring, the cursor move and the bar, in that order. */
  lemma ColumnTokensOk(st: Style, spectrum: seq<real>, stale: real, c: Column)
    requires |st.characters| > 0 && ColoringTokens(st, c.ratio).Ok?
    ensures ColumnTokens(st, spectrum, stale, c)
            == Ok(ColoringTokens(st, c.ratio).value + [MoveTo(st.height, c.col)]
                  + BarTokens(BarHeight(st, Sample(spectrum, c.source, stale)), st.characters, st.peakChar))
  {
  }

  /**
   * What the first `n` iterations of a printer write. A colouring failure
   * in an iteration ends the printer: nothing of that column is written.
   */
  function Emit(st: Style, spectrum: seq<real>, stale: real, l: Layout, n: nat): Printed
    requires l.Valid() && n <= l.Count() && |st.characters| > 0
  {
    if n == 0 then Printed([], None)
    else
      var p := Emit(st, spectrum, stale, l, n - 1);
      if p.failure.Some? then p
      else
        match ColumnTokens(st, spectrum, stale, ColumnAt(l, n - 1))
        case Ok(t) => Printed(p.tokens + t, None)
        case Err(f) => Printed(p.tokens, Some(f))
  }

  /** The cursor moves of the first `n` columns a printer visits, in visiting order. */
  function VisitedColumns(l: Layout, n: nat): seq<int>
    requires l.Valid() && n <= l.Count()
  {
    if n == 0 then [] else VisitedColumns(l, n - 1) + [ColumnAt(l, n - 1).col]
  }

  /** A bar only prints and moves up and left; it never moves the cursor to a column. */
  lemma BarHasNoMoves(characters: string, height: int, peakChar: char)
    requires BarDefined(height, characters, peakChar)
    ensures Moves(BarTokens(height, characters, peakChar)) == []
  {
    if height != 0 {
      var top := [Glyph(TopGlyph(height, characters, peakChar))];
      BarBodyGlyphs(characters, TopIndex(height));
      MovesAppend(BarBody(characters, TopIndex(height)), top);
      MovesOfToken(top[0]);
    }
  }

  /**
   * One column fails exactly when the colouring is a wheel with an
   * out-of-range saturation or value; otherwise it moves the cursor once,
   * to the column's terminal column.
   */
  lemma ColumnOutcome(st: Style, spectrum: seq<real>, stale: real, c: Column)
    requires |st.characters| > 0
    ensures ColumnTokens(st, spectrum, stale, c).Err? <==> st.colorType == Wheel && !InRange(st.hsv.s, st.hsv.v)
    ensures ColumnTokens(st, spectrum, stale, c).Ok? ==> Moves(ColumnTokens(st, spectrum, stale, c).value) == [c.col]
  {
    ColoringCases(st, c.ratio);
    var t := ColoringTokens(st, c.ratio);
    if t.Ok? {
      var h := BarHeight(st, Sample(spectrum, c.source, stale));
      var bar := BarTokens(h, st.characters, st.peakChar);
      var move := [MoveTo(st.height, c.col)];
      BarHasNoMoves(st.characters, h, st.peakChar);
      assert Moves(t.value) == [] by {
        if |t.value| == 1 {
          MovesOfToken(t.value[0]);
          assert t.value == [t.value[0]];
        }
      }
      MovesOfToken(move[0]);
      MovesAppend(t.value, move);
      MovesAppend(t.value + move, bar);
    }
  }

  /**
   * A printer fails exactly when it visits a column and the colouring is a
   * wheel with an out-of-range saturation or value; when it does not fail,
   * it moves the cursor once per column, to the columns in visiting order.
   */
  lemma {:induction false} EmitOutcome(st: Style, spectrum: seq<real>, stale: real, l: Layout, n: nat)
    requires l.Valid() && n <= l.Count() && |st.characters| > 0
    ensures Emit(st, spectrum, stale, l, n).failure.Some? <==>
              n > 0 && st.colorType == Wheel && !InRange(st.hsv.s, st.hsv.v)
    ensures Emit(st, spectrum, stale, l, n).failure.None? ==>
              Moves(Emit(st, spectrum, stale, l, n).tokens) == VisitedColumns(l, n)
  {
    if n > 0 {
      EmitOutcome(st, spectrum, stale, l, n - 1);
      var p := Emit(st, spectrum, stale, l, n - 1);
      var c := ColumnAt(l, n - 1);
      ColumnOutcome(st, spectrum, stale, c);
      if p.failure.None? && ColumnTokens(st, spectrum, stale, c).Ok? {
        MovesAppend(p.tokens, ColumnTokens(st, spectrum, stale, c).value);
      }
    }
  }

  /** An iteration whose column succeeds appends that column's tokens. */
  lemma EmitStep(st: Style, spectrum: seq<real>, stale: real, l: Layout, n: nat)
    requires l.Valid() && n < l.Count() && |st.characters| > 0
    requires Emit(st, spectrum, stale, l, n).failure.None?
    requires ColumnTokens(st, spectrum, stale, ColumnAt(l, n)).Ok?
    ensures Emit(st, spectrum, stale, l, n + 1)
            == Printed(Emit(st, spectrum, stale, l, n).tokens + ColumnTokens(st, spectrum, stale, ColumnAt(l, n)).value, None)
  {
  }

  /** Once a printer has failed, later iterations write nothing more. */
  lemma {:induction false} EmitStops(st: Style, spectrum: seq<real>, stale: real, l: Layout, n: nat, m: nat)
    requires l.Valid() && n <= m <= l.Count() && |st.characters| > 0
    requires Emit(st, spectrum, stale, l, n).failure.Some?
    ensures Emit(st, spectrum, stale, l, m) == Emit(st, spectrum, stale, l, n)
  {
    if m > n {
      EmitStops(st, spectrum, stale, l, n, m - 1);
    }
  }

  /** The failure a printer reports is the `invalid_argument` of `hsvToRgb`. */
  lemma {:induction false} EmitFailure(st: Style, spectrum: seq<real>, stale: real, l: Layout, n: nat)
    requires l.Valid() && n <= l.Count() && |st.characters| > 0
    ensures Emit(st, spectrum, stale, l, n).failure.Some? ==> Emit(st, spectrum, stale, l, n).failure.value.InvalidArgument?
  {
    if n > 0 {
      EmitFailure(st, spectrum, stale, l, n - 1);
      ColoringCases(st, ColumnAt(l, n - 1).ratio);
    }
  }

  /**
   * The first mirrored half moves to columns `half`, `half - 1`, ..., 0 in
   * that order.
   */
  lemma {:induction false} FirstHalfDescends(half: nat, n: nat)
    requires half >= 1 && n <= half + 1
    ensures |VisitedColumns(FirstHalf(half), n)| == n
    ensures forall k :: 0 <= k < n ==> VisitedColumns(FirstHalf(half), n)[k] == half - k
  {
    if n > 0 {
      FirstHalfDescends(half, n - 1);
    }
  }

  // ------------------------------------------------------ what a frame does

  /** Channel 1 of the frame `buffer`, rendered and printed across the whole `width`. */
  ghost function FullOutput(fs: FS.Settings, buffer: seq<real>, channels: nat, sampleSize: nat,
                            st: Style, width: nat, stale: real): Printed
    requires fs.Valid() && fs.fftSize == sampleSize && channels >= 1 && |buffer| == sampleSize * channels
    requires |st.characters| > 0 && width >= 1
  {
    var left := FS.Rendered(fs, Channel(buffer, channels, 1, sampleSize), width);
    Emit(st, left, stale, Full(width), width)
  }

  /**
   * Channel `ch` of the frame `buffer`, rendered into `width / 2` columns
   * and printed through the first mirrored half (channel 1) or the second
   * (channel 2).
   */
  ghost function HalfOutput(fs: FS.Settings, buffer: seq<real>, channels: nat, sampleSize: nat,
                            st: Style, width: nat, stale: real, ch: int): Printed
    requires fs.Valid() && fs.fftSize == sampleSize && |buffer| == sampleSize * channels
    requires |st.characters| > 0 && width >= 2 && 1 <= ch <= 2 && ch <= channels
  {
    var half := width / 2;
    var l := if ch == 1 then FirstHalf(half) else SecondHalf(half, width);
    Emit(st, FS.Rendered(fs, Channel(buffer, channels, ch, sampleSize), half), stale, l, l.Count())
  }

  /**
   * The mirrored display of the frame `buffer`: channel 1 through the
   * first half, then channel 2 through the second; `invalid_argument` is
   * raised between the halves when the file has a single channel.
   */
  ghost function MirroredOutput(fs: FS.Settings, buffer: seq<real>, channels: nat, sampleSize: nat,
                                st: Style, width: nat, stale: real): Printed
    requires fs.Valid() && fs.fftSize == sampleSize && channels >= 1 && |buffer| == sampleSize * channels
    requires |st.characters| > 0 && width >= 2
  {
    var p1 := HalfOutput(fs, buffer, channels, sampleSize, st, width, stale, 1);
    if p1.failure.Some? then p1
    else if channels < 2 then Printed(p1.tokens, Some(InvalidArgument("channel_num > sf.channels()")))
    else
      var p2 := HalfOutput(fs, buffer, channels, sampleSize, st, width, stale, 2);
      Printed(p1.tokens + p2.tokens, p2.failure)
  }

  /** When the first half prints without failing, the mirrored output continues with the second. */
  lemma MirroredHalves(fs: FS.Settings, buffer: seq<real>, channels: nat, sampleSize: nat,
                       st: Style, width: nat, stale: real)
    requires fs.Valid() && fs.fftSize == sampleSize && channels >= 1 && |buffer| == sampleSize * channels
    requires |st.characters| > 0 && width >= 2
    requires HalfOutput(fs, buffer, channels, sampleSize, st, width, stale, 1).failure.None?
    ensures var p1 := HalfOutput(fs, buffer, channels, sampleSize, st, width, stale, 1);
            var e := MirroredOutput(fs, buffer, channels, sampleSize, st, width, stale);
            if channels < 2 then e == Printed(p1.tokens, Some(InvalidArgument("channel_num > sf.channels()")))
            else
              var p2 := HalfOutput(fs, buffer, channels, sampleSize, st, width, stale, 2);
              e == Printed(p1.tokens + p2.tokens, p2.failure)
  {
  }

  /** What a fully read frame prints after clearing the screen. */
  ghost function FrameOutput(fs: FS.Settings, buffer: seq<real>, channels: nat, sampleSize: nat,
                             st: Style, width: nat, mirrored: bool, stale: real): Printed
    requires fs.Valid() && fs.fftSize == sampleSize && channels >= 1 && |buffer| == sampleSize * channels
    requires |st.characters| > 0 && (if mirrored then width >= 2 else width >= 1)
  {
    if mirrored then MirroredOutput(fs, buffer, channels, sampleSize, st, width, stale)
    else FullOutput(fs, buffer, channels, sampleSize, st, width, stale)
  }

  /**
   * A frame's output fails exactly when a column is coloured by a wheel
   * with an out-of-range saturation or value, or when the display is
   * mirrored and the file has a single channel; the first reason wins,
   * as the first half is printed before channel 2 is copied.
   */
  lemma FrameOutcome(fs: FS.Settings, buffer: seq<real>, channels: nat, sampleSize: nat,
                     st: Style, width: nat, mirrored: bool, stale: real)
    requires fs.Valid() && fs.fftSize == sampleSize && channels >= 1 && |buffer| == sampleSize * channels
    requires |st.characters| > 0 && (if mirrored then width >= 2 else width >= 1)
    ensures var e := FrameOutput(fs, buffer, channels, sampleSize, st, width, mirrored, stale);
            && (e.failure.Some? <==> WheelFails(st) || (mirrored && channels < 2))
            && (e.failure.Some? ==> e.failure.value.InvalidArgument?)
            && (!WheelFails(st) && mirrored && channels < 2 ==> e.failure == Some(InvalidArgument("channel_num > sf.channels()")))
  {
    if mirrored {
      var half := width / 2;
      var left := FS.Rendered(fs, Channel(buffer, channels, 1, sampleSize), half);
      EmitOutcome(st, left, stale, FirstHalf(half), FirstHalf(half).Count());
      EmitFailure(st, left, stale, FirstHalf(half), FirstHalf(half).Count());
      if channels >= 2 {
        var right := FS.Rendered(fs, Channel(buffer, channels, 2, sampleSize), half);
        EmitOutcome(st, right, stale, SecondHalf(half, width), SecondHalf(half, width).Count());
        EmitFailure(st, right, stale, SecondHalf(half, width), SecondHalf(half, width).Count());
      }
    } else {
      var left := FS.Rendered(fs, Channel(buffer, channels, 1, sampleSize), width);
      EmitOutcome(st, left, stale, Full(width), width);
      EmitFailure(st, left, stale, Full(width), width);
    }
  }

  /**
   * `copy_channel_to_timedata` as written reads `audio_buffer[i * channels
   * + channel_num]`, treating the 1-based channel number as 0-based.
   */
  function AsWrittenReadIndex(i: int, channels: int, channelNum: int): int
  {
    i * channels + channelNum
  }

  /**
   * As written, the last channel's last sample is read one past the end
   * of the `sample_size * channels` buffer (with two channels and 3000
   * samples, index 6000; with one channel, index `sample_size`), and
   * channel `c < channels` reads channel `c + 1`.
   */
  lemma AsWrittenReadsPastEnd(sampleSize: int, channels: int, c: int, i: int)
    requires sampleSize >= 1 && channels >= 1 && c >= 1
    ensures AsWrittenReadIndex(sampleSize - 1, channels, channels) == sampleSize * channels
    ensures AsWrittenReadIndex(sampleSize - 1, 1, 1) == sampleSize
    ensures c < channels ==> AsWrittenReadIndex(i, channels, c) == FrameIndex(i, channels, c + 1)
    ensures AsWrittenReadIndex(2999, 2, 2) == 6000 == 3000 * 2
  {
    assert (sampleSize - 1) * channels + channels == sampleSize * channels;
  }

  class Termviz {
    /** The spectrum generator `fs` and the intermediate vector `spectrum`. */
    const fs: FS.FrequencySpectrum
    const spectrum: FloatVector
    /** `sf.channels()` of the audio file. */
    const channels: nat
    /** `stereo_mirrored`; the source initialises it to true and has no setter. */
    const mirrored: bool
    /** What a read past the end of `spectrum` yields. */
    const stale: real

    var sampleSize: int
    var tsize: TerminalSize
    var timedata: seq<real>
    var audioBuffer: seq<real>
    var colorType: ColorType
    var hsv: Hsv
    var rgb: Rgb
    var peakChar: char
    var characters: string
    var wheelTime: real
    var wheelRate: real
    var multiplier: real
    /** Everything written to `std::cout`. */
    var out: seq<Token>
    /** Every buffer written to the audio output stream. */
    var played: seq<seq<real>>

    ghost predicate Valid()
      reads this, fs, spectrum
    {
      && fs.Valid() && fs.kfSize == sampleSize && channels >= 1
      && |timedata| == sampleSize && |audioBuffer| == sampleSize * channels
      && |spectrum.elems| == SpectrumWidth(mirrored, tsize.width)
    }

    function Look(): Style
      reads this`colorType, this`hsv, this`rgb, this`wheelTime, this`characters, this`peakChar, this`multiplier, this`tsize
    {
      Style(colorType, hsv, rgb, wheelTime, characters, peakChar, multiplier, tsize.height)
    }

    /**
     * `termviz(audio_file)`, for a file of `channels` channels and a
     * terminal of size `size`: sample size 3000, a LOG/CSPLINE renderer,
     * zeroed buffers, the wheel colouring with HSV (0.9, 0.7, 1), solid
     * colour (255, 0, 255), multiplier 3, no characters, and the
     * uninitialised `peak_char` given as `peakChar`.
     */
    constructor (channels: nat, size: TerminalSize, mirrored: bool, math: Libm, fft: Fft, fit: SplineFn,
                 indeterminate: real, peakChar: char, stale: real)
      requires channels >= 1 && Laws(math) && FftShape(fft)
      ensures Valid() && fresh(fs) && fresh(spectrum)
      ensures this.channels == channels && this.mirrored == mirrored && this.stale == stale
      ensures fs.scale == FS.Log && fs.interp == FS.CSplineInterp && fs.fftsizeInv == None
      ensures sampleSize == 3000 && tsize == size && timedata == Zeros(3000) && audioBuffer == Zeros(3000 * channels)
      ensures spectrum.elems == Zeros(SpectrumWidth(mirrored, size.width))
      ensures colorType == Wheel && hsv == Hsv(0.9, 0.7, 1.0) && rgb == Rgb(255, 0, 255)
      ensures this.peakChar == peakChar && characters == "" && wheelTime == 0.0 && wheelRate == 0.0 && multiplier == 3.0
      ensures out == [] && played == []
    {
      this.channels, this.mirrored, this.stale := channels, mirrored, stale;
      sampleSize := 3000;
      tsize := size;
      fs := new FS.FrequencySpectrum(3000, FS.Log, FS.CSplineInterp, math, fft, fit, indeterminate);
      timedata := Zeros(3000);
      audioBuffer := Zeros(3000 * channels);
      spectrum := new FloatVector(SpectrumWidth(mirrored, size.width));
      colorType, hsv, rgb := Wheel, Hsv(0.9, 0.7, 1.0), Rgb(255, 0, 255);
      this.peakChar, characters := peakChar, "";
      wheelTime, wheelRate, multiplier := 0.0, 0.0, 3.0;
      out, played := [], [];
    }

    /**
     * `set_sample_size(n)`: the renderer, `timedata` and `audio_buffer`
     * follow the new size. The renderer needs an even size of at least 2.
     */
    method SetSampleSize(n: int)
      requires Valid() && n >= 2 && n % 2 == 0
      modifies this`sampleSize, this`timedata, this`audioBuffer, fs
      ensures Valid()
      ensures sampleSize == n && fs.kfSize == n && fs.freqdata == Resized(old(fs.freqdata), n / 2 + 1, Complex(0.0, 0.0))
      ensures fs.fftsizeInv == Some(1.0 / n as real)
      ensures fs.scale == old(fs.scale) && fs.interp == old(fs.interp) && fs.nthRoot == old(fs.nthRoot)
      ensures fs.scaleMax == FS.ScaleMaxFor(fs.math, n / 2 + 1, fs.nthRoot)
      ensures timedata == Resized(old(timedata), n, 0.0) && audioBuffer == Resized(old(audioBuffer), n * channels, 0.0)
    {
      sampleSize := n;
      fs.SetFftSize(n);
      timedata := Resized(timedata, n, 0.0);
      audioBuffer := Resized(audioBuffer, n * channels, 0.0);
    }

    method SetCharacters(characters: string)
      modifies this`characters
      ensures this.characters == characters
    {
      this.characters := characters;
    }

    method SetPeakChar(peakChar: char)
      modifies this`peakChar
      ensures this.peakChar == peakChar
    {
      this.peakChar := peakChar;
    }

    method SetColorType(colorType: ColorType)
      modifies this`colorType
      ensures this.colorType == colorType
    {
      this.colorType := colorType;
    }

    method SetWheelRate(wheelRate: real)
      modifies this`wheelRate
      ensures this.wheelRate == wheelRate
    {
      this.wheelRate := wheelRate;
    }

    method SetRgb(rgb: Rgb)
      modifies this`rgb
      ensures this.rgb == rgb
    {
      this.rgb := rgb;
    }

    method SetHsv(hsv: Hsv)
      modifies this`hsv
      ensures this.hsv == hsv
    {
      this.hsv := hsv;
    }

    method SetMultiplier(multiplier: real)
      modifies this`multiplier
      ensures this.multiplier == multiplier
    {
      this.multiplier := multiplier;
    }

    method SetInterpType(interp: FS.InterpType)
      requires Valid()
      modifies fs`interp
      ensures Valid() && fs.interp == interp
    {
      fs.SetInterpType(interp);
    }

    method SetScale(scale: FS.Scale)
      requires Valid()
      modifies fs`scale
      ensures Valid() && fs.scale == scale
    {
      fs.SetScale(scale);
    }

    /** `set_nth_root`: the renderer refuses 0 with `invalid_argument`. */
    method SetNthRoot(root: int) returns (o: Outcome)
      requires Valid()
      modifies fs`nthRoot
      ensures Valid()
      ensures root == 0 <==> o.Fail?
      ensures o.Fail? ==> o.failure.InvalidArgument? && fs.nthRoot == old(fs.nthRoot)
      ensures o.Pass? ==> fs.nthRoot == root
    {
      o := fs.SetNthRoot(root);
    }

    /**
     * `check_tsize_update` against the size `newSize` the terminal now
     * reports: the spectrum is resized (to half the width when mirrored)
     * only when the width changed; the height is taken over regardless.
     */
    method CheckTsizeUpdate(newSize: TerminalSize)
      requires Valid()
      modifies this`tsize, spectrum
      ensures Valid() && tsize == newSize
      ensures old(tsize.width) != newSize.width ==>
                spectrum.elems == Resized(old(spectrum.elems), SpectrumWidth(mirrored, newSize.width), 0.0)
      ensures old(tsize.width) == newSize.width ==> spectrum.elems == old(spectrum.elems)
    {
      if tsize.width != newSize.width {
        spectrum.Resize(SpectrumWidth(mirrored, newSize.width));
        tsize := tsize.(width := newSize.width);
      }
      if tsize.height != newSize.height {
        tsize := tsize.(height := newSize.height);
      }
    }

    /**
     * `copy_channel_to_timedata(channel_num)`, with the read index
     * corrected to the 0-based `i * channels + channel_num - 1`: channel
     * numbers outside 1 .. channels are refused with `invalid_argument`,
     * otherwise `timedata` becomes that channel of the buffer.
     */
    method CopyChannelToTimedata(channelNum: int) returns (o: Outcome)
      requires Valid()
      modifies this`timedata
      ensures Valid()
      ensures o.Fail? <==> channelNum <= 0 || channelNum > channels
      ensures channelNum <= 0 ==> o == Fail(InvalidArgument("channel_num <= 0"))
      ensures channelNum > 0 && channelNum > channels ==> o == Fail(InvalidArgument("channel_num > sf.channels()"))
      ensures o.Fail? ==> timedata == old(timedata)
      ensures o.Pass? ==> timedata == Channel(audioBuffer, channels, channelNum, sampleSize)
    {
      if channelNum <= 0 {
        return Fail(InvalidArgument("channel_num <= 0"));
      }
      if channelNum > channels {
        return Fail(InvalidArgument("channel_num > sf.channels()"));
      }
      ghost var ch := Channel(audioBuffer, channels, channelNum, sampleSize);
      var i := 0;
      while i < sampleSize
        invariant 0 <= i <= sampleSize && |timedata| == sampleSize
        invariant forall j :: 0 <= j < i ==> timedata[j] == ch[j]
      {
        ChannelAt(audioBuffer, channels, channelNum, sampleSize, i);
        timedata := timedata[i := audioBuffer[i * channels + channelNum - 1]];
        i := i + 1;
      }
      assert timedata == ch;
      return Pass;
    }

    /** `apply_coloring` for a column whose hue ratio is `ratio`. */
    method ApplyColoring(ratio: real) returns (o: Outcome)
      modifies this`out
      ensures ColoringTokens(Look(), ratio).Ok? ==> o.Pass? && out == old(out) + ColoringTokens(Look(), ratio).value
      ensures ColoringTokens(Look(), ratio).Err? ==> o == Fail(ColoringTokens(Look(), ratio).failure) && out == old(out)
    {
      match colorType {
        case Wheel =>
          var c := HsvToRgb(ratio + hsv.h + wheelTime, hsv.s, hsv.v);
          if c.Err? {
            return Fail(c.failure);
          }
          out := out + [Color(c.value)];
        case Solid =>
          out := out + [Color(rgb)];
        case NoColor =>
      }
      o := Pass;
    }

    /** `move_to_column(i)`: the cursor goes to row `height`, column `i`. */
    method MoveToColumn(i: int)
      modifies this`out
      ensures out == old(out) + [MoveTo(tsize.height, i)]
    {
      out := out + [MoveTo(tsize.height, i)];
    }

    /** `print_bar(height)`. */
    method PrintBar(height: int)
      requires BarDefined(height, characters, peakChar)
      modifies this`out
      ensures out == old(out) + BarTokens(height, characters, peakChar)
    {
      if height == 0 {
        return;
      }
      var j := 0;
      while j < height - 1
        invariant 0 <= j <= TopIndex(height)
        invariant out == old(out) + BarBody(characters, j)
      {
        out := out + [Glyph(characters[j % |characters|]), CursorUp, CursorLeft];
        j := j + 1;
      }
      out := out + [Glyph(if peakChar != 0 as char then peakChar else characters[j % |characters|])];
    }

    /** One iteration of a printer loop: colour, cursor move and bar of column `c`. */
    method PrintColumn(c: Column) returns (o: Outcome)
      requires |characters| > 0
      modifies this`out
      ensures ColumnTokens(Look(), spectrum.elems, stale, c).Ok? ==>
                o.Pass? && out == old(out) + ColumnTokens(Look(), spectrum.elems, stale, c).value
      ensures ColumnTokens(Look(), spectrum.elems, stale, c).Err? ==>
                o == Fail(ColumnTokens(Look(), spectrum.elems, stale, c).failure) && out == old(out)
    {
      ghost var st := Look();
      ghost var t := ColoringTokens(st, c.ratio);
      o := ApplyColoring(c.ratio);
      if o.Fail? {
        return;
      }
      ghost var move := [MoveTo(st.height, c.col)];
      MoveToColumn(c.col);
      assert out == old(out) + t.value + move;
      var h := BarHeight(Look(), Sample(spectrum.elems, c.source, stale));
      ghost var bar := BarTokens(h, characters, peakChar);
      PrintBar(h);
      ColumnTokensOk(st, spectrum.elems, stale, c);
      assert out == old(out) + (t.value + move + bar);
    }

    /**
     * Iteration `k` of the printer for layout `l`, on column `c`: it
     * extends what the first `k` iterations printed to what the first
     * `k + 1` print, and fails when that column fails.
     */
    method PrintIteration(c: Column, ghost l: Layout, ghost k: nat, ghost base: seq<Token>) returns (o: Outcome)
      requires |characters| > 0 && l.Valid() && k < l.Count() && c == ColumnAt(l, k)
      requires Emit(Look(), spectrum.elems, stale, l, k).failure.None?
      requires out == base + Emit(Look(), spectrum.elems, stale, l, k).tokens
      modifies this`out
      ensures out == base + Emit(Look(), spectrum.elems, stale, l, k + 1).tokens
      ensures o.Pass? <==> Emit(Look(), spectrum.elems, stale, l, k + 1).failure.None?
      ensures o.Fail? ==> o.failure == Emit(Look(), spectrum.elems, stale, l, k + 1).failure.value
    {
      ghost var e := Emit(Look(), spectrum.elems, stale, l, k);
      ghost var t := ColumnTokens(Look(), spectrum.elems, stale, c);
      o := PrintColumn(c);
      if o.Pass? {
        EmitStep(Look(), spectrum.elems, stale, l, k);
        WritesAssociate(base, e.tokens, t.value);
      }
    }

    /**
     * `print_spectrum_full`: columns 0 .. width-1 reading
     * `spectrum[width - i]`; afterwards the colour wheel turns by
     * `wheel_rate`.
     */
    method PrintSpectrumFull() returns (o: Outcome)
      requires |characters| > 0
      modifies this`out, this`wheelTime
      ensures var e := Emit(old(Look()), spectrum.elems, stale, Full(tsize.width), tsize.width);
              && out == old(out) + e.tokens
              && (o.Fail? <==> e.failure.Some?) && (o.Fail? ==> o.failure == e.failure.value)
      ensures wheelTime == if o.Pass? then old(wheelTime) + wheelRate else old(wheelTime)
    {
      ghost var st := Look();
      ghost var l := Full(tsize.width);
      var i := 0;
      while i < tsize.width
        invariant 0 <= i <= tsize.width && Look() == st
        invariant Emit(st, spectrum.elems, stale, l, i).failure.None?
        invariant out == old(out) + Emit(st, spectrum.elems, stale, l, i).tokens
      {
        var c := Column(i, i as real / tsize.width as real, tsize.width - i);
        assert c == ColumnAt(l, i);
        o := PrintIteration(c, l, i, old(out));
        if o.Fail? {
          EmitStops(st, spectrum.elems, stale, l, i + 1, l.Count());
          return;
        }
        i := i + 1;
      }
      wheelTime := wheelTime + wheelRate;
      o := Pass;
    }

    /** `print_mirrored_1st_half`: columns `half` down to 0 reading `spectrum[half - i]`. */
    method PrintMirroredFirstHalf() returns (o: Outcome)
      requires |characters| > 0 && tsize.width >= 2
      modifies this`out
      ensures var l := FirstHalf(tsize.width / 2);
              var e := Emit(Look(), spectrum.elems, stale, l, l.Count());
              && out == old(out) + e.tokens
              && (o.Fail? <==> e.failure.Some?) && (o.Fail? ==> o.failure == e.failure.value)
    {
      ghost var st := Look();
      var half := tsize.width / 2;
      ghost var l := FirstHalf(half);
      var i := half;
      ghost var k: nat := 0;
      while i >= 0
        invariant -1 <= i <= half && k == half - i && Look() == st
        invariant Emit(st, spectrum.elems, stale, l, k).failure.None?
        invariant out == old(out) + Emit(st, spectrum.elems, stale, l, k).tokens
      {
        var c := Column(i, (half as real - i as real) / half as real, half - i);
        FirstHalfColumn(half, i, k);
        o := PrintIteration(c, l, k, old(out));
        if o.Fail? {
          EmitStops(st, spectrum.elems, stale, l, k + 1, l.Count());
          return;
        }
        i, k := i - 1, k + 1;
      }
      o := Pass;
    }

    /** `print_mirrored_2nd_half`: columns `half` .. width-1 reading `spectrum[i - half]`. */
    method PrintMirroredSecondHalf() returns (o: Outcome)
      requires |characters| > 0 && tsize.width >= 2
      modifies this`out
      ensures var l := SecondHalf(tsize.width / 2, tsize.width);
              var e := Emit(Look(), spectrum.elems, stale, l, l.Count());
              && out == old(out) + e.tokens
              && (o.Fail? <==> e.failure.Some?) && (o.Fail? ==> o.failure == e.failure.value)
    {
      ghost var st := Look();
      var half := tsize.width / 2;
      ghost var l := SecondHalf(half, tsize.width);
      var i := half;
      ghost var k: nat := 0;
      while i < tsize.width
        invariant half <= i <= tsize.width && k == i - half && Look() == st
        invariant Emit(st, spectrum.elems, stale, l, k).failure.None?
        invariant out == old(out) + Emit(st, spectrum.elems, stale, l, k).tokens
      {
        var c := Column(i, i as real / half as real, i - half);
        assert c == ColumnAt(l, k);
        o := PrintIteration(c, l, k, old(out));
        if o.Fail? {
          EmitStops(st, spectrum.elems, stale, l, k + 1, l.Count());
          return;
        }
        i, k := i + 1, k + 1;
      }
      o := Pass;
    }

    /**
     * The non-mirrored half of `render_frame` after the screen is cleared:
     * channel 1 is copied, rendered and printed across the whole width.
     */
    method DrawFull() returns (o: Outcome)
      requires Valid() && |characters| > 0 && !mirrored && tsize.width >= 1
      modifies this`timedata, this`out, this`wheelTime, fs`freqdata, spectrum
      ensures Valid() && fs.Snapshot() == old(fs.Snapshot())
      ensures var e := FullOutput(fs.Snapshot(), audioBuffer, channels, sampleSize, old(Look()), tsize.width, stale);
              && out == old(out) + e.tokens
              && (o.Fail? <==> e.failure.Some?) && (o.Fail? ==> o.failure == e.failure.value)
      ensures wheelTime == if o.Pass? then old(wheelTime) + wheelRate else old(wheelTime)
      ensures timedata == Channel(audioBuffer, channels, 1, sampleSize)
      ensures spectrum.elems == FS.Rendered(fs.Snapshot(), timedata, tsize.width)
    {
      o := CopyChannelToTimedata(1);
      fs.Render(timedata, spectrum);
      o := PrintSpectrumFull();
    }

    /** Channel 1 copied, rendered and printed through the first half of the mirrored display. */
    method DrawFirstHalf() returns (o: Outcome)
      requires Valid() && |characters| > 0 && mirrored && tsize.width >= 2
      modifies this`timedata, this`out, fs`freqdata, spectrum
      ensures Valid() && fs.Snapshot() == old(fs.Snapshot())
      ensures var e := HalfOutput(fs.Snapshot(), audioBuffer, channels, sampleSize, Look(), tsize.width, stale, 1);
              && out == old(out) + e.tokens
              && (o.Fail? <==> e.failure.Some?) && (o.Fail? ==> o.failure == e.failure.value)
      ensures o.Pass? <==> !WheelFails(Look())
      ensures timedata == Channel(audioBuffer, channels, 1, sampleSize)
      ensures spectrum.elems == FS.Rendered(fs.Snapshot(), timedata, tsize.width / 2)
    {
      o := CopyChannelToTimedata(1);
      fs.Render(timedata, spectrum);
      o := PrintMirroredFirstHalf();
      EmitOutcome(Look(), spectrum.elems, stale, FirstHalf(tsize.width / 2), FirstHalf(tsize.width / 2).Count());
    }

    /**
     * Channel 2 copied, rendered and printed through the second half of the
     * mirrored display; a single-channel file raises `invalid_argument`
     * before anything is printed.
     */
    method DrawSecondHalf() returns (o: Outcome)
      requires Valid() && |characters| > 0 && mirrored && tsize.width >= 2
      modifies this`timedata, this`out, fs`freqdata, spectrum
      ensures Valid() && fs.Snapshot() == old(fs.Snapshot())
      ensures channels < 2 ==>
                o == Fail(InvalidArgument("channel_num > sf.channels()")) && out == old(out)
                && timedata == old(timedata) && spectrum.elems == old(spectrum.elems)
      ensures channels >= 2 ==>
                var e := HalfOutput(fs.Snapshot(), audioBuffer, channels, sampleSize, Look(), tsize.width, stale, 2);
                && out == old(out) + e.tokens
                && (o.Fail? <==> e.failure.Some?) && (o.Fail? ==> o.failure == e.failure.value)
                && (o.Pass? <==> !WheelFails(Look()))
                && timedata == Channel(audioBuffer, channels, 2, sampleSize)
                && spectrum.elems == FS.Rendered(fs.Snapshot(), timedata, tsize.width / 2)
    {
      o := CopyChannelToTimedata(2);
      if o.Fail? {
        return;
      }
      fs.Render(timedata, spectrum);
      o := PrintMirroredSecondHalf();
      EmitOutcome(Look(), spectrum.elems, stale, SecondHalf(tsize.width / 2, tsize.width),
                  SecondHalf(tsize.width / 2, tsize.width).Count());
    }

    /**
     * The rest of the mirrored branch once the first half has printed
     * without failing and `out` holds what it printed after `base`: the
     * second half, which completes the mirrored output.
     */
    method FinishMirrored(ghost base: seq<Token>) returns (o: Outcome)
      requires Valid() && |characters| > 0 && mirrored && tsize.width >= 2 && !WheelFails(Look())
      requires var p1 := HalfOutput(fs.Snapshot(), audioBuffer, channels, sampleSize, Look(), tsize.width, stale, 1);
               p1.failure.None? && out == base + p1.tokens
      modifies this`timedata, this`out, fs`freqdata, spectrum
      ensures Valid() && fs.Snapshot() == old(fs.Snapshot())
      ensures var e := MirroredOutput(fs.Snapshot(), audioBuffer, channels, sampleSize, Look(), tsize.width, stale);
              && out == base + e.tokens
              && (o.Fail? <==> e.failure.Some?) && (o.Fail? ==> o.failure == e.failure.value)
      ensures o.Pass? <==> channels >= 2
      ensures o.Fail? ==> timedata == old(timedata) && spectrum.elems == old(spectrum.elems)
      ensures o.Pass? ==>
                && timedata == Channel(audioBuffer, channels, 2, sampleSize)
                && spectrum.elems == FS.Rendered(fs.Snapshot(), timedata, tsize.width / 2)
    {
      ghost var fss, st, w := fs.Snapshot(), Look(), tsize.width;
      ghost var p1 := HalfOutput(fss, audioBuffer, channels, sampleSize, st, w, stale, 1);
      ghost var mid := out;
      o := DrawSecondHalf();
      MirroredHalves(fss, audioBuffer, channels, sampleSize, st, w, stale);
      if channels >= 2 {
        ghost var p2 := HalfOutput(fss, audioBuffer, channels, sampleSize, st, w, stale, 2);
        assert out == base + p1.tokens + p2.tokens;
        WritesAssociate(base, p1.tokens, p2.tokens);
      }
    }

    /** The mirrored branch of `render_frame`: the first half, then, unless that failed, the second. */
    method DrawMirrored() returns (o: Outcome)
      requires Valid() && |characters| > 0 && mirrored && tsize.width >= 2
      modifies this`timedata, this`out, fs`freqdata, spectrum
      ensures Valid() && fs.Snapshot() == old(fs.Snapshot())
      ensures var e := MirroredOutput(fs.Snapshot(), audioBuffer, channels, sampleSize, Look(), tsize.width, stale);
              && out == old(out) + e.tokens
              && (o.Fail? <==> e.failure.Some?) && (o.Fail? ==> o.failure == e.failure.value)
      ensures timedata == Channel(audioBuffer, channels, if o.Pass? then 2 else 1, sampleSize)
      ensures spectrum.elems == FS.Rendered(fs.Snapshot(), timedata, tsize.width / 2)
    {
      o := DrawFirstHalf();
      if o.Pass? {
        o := FinishMirrored(old(out));
      }
    }

    /**
     * What `render_frame` does once a full frame is read: clear the screen,
     * then draw the mirrored display or the full-width one.
     */
    method DrawFrame() returns (o: Outcome)
      requires Valid() && |characters| > 0 && if mirrored then tsize.width >= 2 else tsize.width >= 1
      modifies this`timedata, this`out, this`wheelTime, fs`freqdata, spectrum
      ensures Valid() && fs.Snapshot() == old(fs.Snapshot())
      ensures var e := FrameOutput(fs.Snapshot(), audioBuffer, channels, sampleSize, old(Look()), tsize.width, mirrored, stale);
              && out == old(out) + [Clear] + e.tokens
              && (o.Fail? <==> e.failure.Some?) && (o.Fail? ==> o.failure == e.failure.value)
      ensures timedata == Channel(audioBuffer, channels, if mirrored && o.Pass? then 2 else 1, sampleSize)
      ensures spectrum.elems == FS.Rendered(fs.Snapshot(), timedata, SpectrumWidth(mirrored, tsize.width))
      ensures wheelTime == if o.Pass? && !mirrored then old(wheelTime) + wheelRate else old(wheelTime)
    {
      out := out + [Clear];
      if mirrored {
        o := DrawMirrored();
      } else {
        o := DrawFull();
      }
    }

    /**
     * `render_frame`, with the terminal now reporting `newSize` and the
     * file yielding `framesRead` frames, `frame`, in place of the read.
     * Nothing read: stop, printing nothing and playing nothing. A short
     * read: the whole buffer, stale tail included, is played and the
     * renderer stops. A full read: the buffer is played, the screen is
     * cleared and `FrameOutput` is printed; an exception it raises is the
     * `Err` result.
     */
    method RenderFrame(newSize: TerminalSize, framesRead: nat, frame: seq<real>) returns (r: Result<bool>)
      requires Valid()
      requires framesRead <= sampleSize && |frame| == framesRead * channels && |frame| <= |audioBuffer|
      requires framesRead == sampleSize ==> |characters| > 0 && if mirrored then newSize.width >= 2 else newSize.width >= 1
      modifies this`tsize, this`timedata, this`audioBuffer, this`out, this`played, this`wheelTime, fs`freqdata, spectrum
      ensures Valid() && tsize == newSize && fs.Snapshot() == old(fs.Snapshot())
      ensures audioBuffer == frame + old(audioBuffer)[|frame|..]
      ensures framesRead == 0 ==> r == Ok(false) && out == old(out) && played == old(played)
      ensures 0 < framesRead < sampleSize ==> r == Ok(false) && out == old(out) && played == old(played) + [audioBuffer]
      ensures framesRead < sampleSize ==>
                && timedata == old(timedata) && wheelTime == old(wheelTime)
                && spectrum.elems == if old(tsize.width) != newSize.width
                                     then Resized(old(spectrum.elems), SpectrumWidth(mirrored, newSize.width), 0.0)
                                     else old(spectrum.elems)
      ensures framesRead == sampleSize ==>
                var e := FrameOutput(fs.Snapshot(), audioBuffer, channels, sampleSize, old(Look()).(height := newSize.height),
                                     newSize.width, mirrored, stale);
                && played == old(played) + [audioBuffer]
                && out == old(out) + [Clear] + e.tokens
                && (r.Err? <==> e.failure.Some?) && (r.Err? ==> r.failure == e.failure.value) && (r.Ok? ==> r.value)
                && timedata == Channel(audioBuffer, channels, if mirrored && r.Ok? then 2 else 1, sampleSize)
                && spectrum.elems == FS.Rendered(fs.Snapshot(), timedata, SpectrumWidth(mirrored, newSize.width))
                && wheelTime == if r.Ok? && !mirrored then old(wheelTime) + wheelRate else old(wheelTime)
    {
      CheckTsizeUpdate(newSize);
      assert Look() == old(Look()).(height := newSize.height);
      audioBuffer := frame + audioBuffer[|frame|..];
      if framesRead == 0 {
        return Ok(false);
      }
      played := played + [audioBuffer];
      if framesRead != sampleSize {
        return Ok(false);
      }
      var o := DrawFrame();
      if o.Fail? {
        return Err(o.failure);
      }
      return Ok(true);
    }
  }
}
