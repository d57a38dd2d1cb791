/**
 * `ColorUtils` of src/ColorUtils.hpp: the piecewise conversion of a colour
 * given as hue, saturation and value into 8-bit red, green and blue, and
 * the conversion of a point on the straight line between two such colours.
 */
module ColorUtils {
  import opened Numeric

  datatype Rgb = Rgb(r: int, g: int, b: int)

  /** A colour as hue, saturation and value. */
  datatype Hsv = Hsv(h: real, s: real, v: real)

  /** Red, green and blue as fractions of full intensity, before scaling to 0..255. */
  datatype Components = Components(r: real, g: real, b: real)

  /** Saturation and value must both lie in [0, 1]. */
  predicate InRange(s: real, v: real)
  {
    0.0 <= s <= 1.0 && 0.0 <= v <= 1.0
  }

  /** `h = fmod(h, 1)` followed by `if (h < 0) h += 1`: the fractional part of `h`, in [0, 1). */
  function NormalizeHue(h: real): (n: real)
    ensures 0.0 <= n < 1.0
    ensures n == h - h.Floor as real
  {
    var m := FModOne(h);
    if m < 0.0 then m + 1.0 else m
  }

  /** Hue is periodic with period 1. */
  lemma NormalizeHuePeriodic(h: real)
    ensures NormalizeHue(h + 1.0) == NormalizeHue(h)
  {
    assert (h + 1.0).Floor == h.Floor + 1;
  }

  /** `var_h`: the hue times six, with 6 folded back to 0. */
  function SectorPosition(h: real): real
  {
    var x := h * 6.0;
    if x == 6.0 then 0.0 else x
  }

  /** For a normalised hue, the sector `var_i` is one of 0..5 and the position within it lies in [0, 1). */
  lemma SectorInRange(h: real)
    requires 0.0 <= h < 1.0
    ensures 0 <= Trunc(SectorPosition(h)) <= 5
    ensures 0.0 <= SectorPosition(h) - Trunc(SectorPosition(h)) as real < 1.0
  {
  }

  /** `var_1 = v * (1 - s)`. */
  function Var1(s: real, v: real): real
  {
    v * (1.0 - s)
  }

  /** `var_2 = v * (1 - s * f)`, for the position `f` within the sector. */
  function Var2(s: real, v: real, f: real): real
  {
    v * (1.0 - s * f)
  }

  /** `var_3 = v * (1 - s * (1 - f))`. */
  function Var3(s: real, v: real, f: real): real
  {
    v * (1.0 - s * (1.0 - f))
  }

  /**
   * The components for a hue already normalised: grey when there is no
   * saturation, otherwise the switch over the six sectors; any other sector
   * raises `logic_error`.
   */
  function HsvComponents(h: real, s: real, v: real): Result<Components>
  {
    if s == 0.0 then Ok(Components(v, v, v))
    else
      var x := SectorPosition(h);
      var i := Trunc(x);
      Sector(i, s, v, x - i as real)
  }

  /** The switch over the sector `var_i`, with `f` the position within it. */
  function Sector(i: int, s: real, v: real, f: real): Result<Components>
  {
    var c1, c2, c3 := Var1(s, v), Var2(s, v, f), Var3(s, v, f);
    if i == 0 then Ok(Components(v, c3, c1))
    else if i == 1 then Ok(Components(c2, v, c1))
    else if i == 2 then Ok(Components(c1, v, c3))
    else if i == 3 then Ok(Components(c1, c2, v))
    else if i == 4 then Ok(Components(c3, c1, v))
    else if i == 5 then Ok(Components(v, c1, c2))
    else Err(LogicError("impossible!!!"))
  }

  /** `x * y` lies between 0 and `y` when `x` is a fraction and `y` is non-negative. */
  lemma FractionOf(x: real, y: real)
    requires 0.0 <= x <= 1.0 && 0.0 <= y
    ensures 0.0 <= x * y <= y
  {
    assert y - x * y == (1.0 - x) * y;
  }

  /** A point `x + t * (y - x)` between two fractions, for `t` in [0, 1], is a fraction. */
  lemma BetweenFractions(x: real, y: real, t: real)
    ensures 0.0 <= t <= 1.0 && 0.0 <= x <= 1.0 && 0.0 <= y <= 1.0 ==> 0.0 <= x + t * (y - x) <= 1.0
  {
    if 0.0 <= t <= 1.0 && 0.0 <= x <= 1.0 && 0.0 <= y <= 1.0 {
      FractionOf(1.0 - t, x);
      FractionOf(t, y);
      FractionOf(1.0 - t, 1.0 - x);
      FractionOf(t, 1.0 - y);
      assert x + t * (y - x) == (1.0 - t) * x + t * y;
      assert 1.0 - (x + t * (y - x)) == (1.0 - t) * (1.0 - x) + t * (1.0 - y);
    }
  }

  /** `v * (1 - a * b)` lies in [0, v] when `v` lies in [0, 1] and `a` and `b` are fractions. */
  lemma ScaledComplementInRange(v: real, a: real, b: real)
    requires 0.0 <= v <= 1.0 && 0.0 <= a <= 1.0 && 0.0 <= b <= 1.0
    ensures 0.0 <= v * (1.0 - a * b) <= v
  {
    FractionOf(a, b);
    var g := 1.0 - a * b;
    FractionOf(g, v);
    assert v * g == g * v;
  }

  /** `var_1`, `var_2` and `var_3` lie in [0, v] for valid saturation and value and a position in [0, 1). */
  lemma VarsInRange(s: real, v: real, f: real)
    requires InRange(s, v) && 0.0 <= f < 1.0
    ensures 0.0 <= Var1(s, v) <= v
    ensures 0.0 <= Var2(s, v, f) <= v
    ensures 0.0 <= Var3(s, v, f) <= v
  {
    ScaledComplementInRange(v, s, 1.0);
    assert Var1(s, v) == v * (1.0 - s * 1.0);
    ScaledComplementInRange(v, s, f);
    ScaledComplementInRange(v, s, 1.0 - f);
  }

  predicate OneOf(x: real, a: real, b: real, c: real, d: real)
  {
    x == a || x == b || x == c || x == d
  }

  /**
   * Every sector 0..5 has a case; each takes `v` and two of `var_1`,
   * `var_2` and `var_3`, and for valid saturation and value and a position
   * in [0, 1) its components lie in [0, v].
   */
  lemma SectorCases(i: int, s: real, v: real, f: real)
    requires 0 <= i <= 5
    ensures Sector(i, s, v, f).Ok?
    ensures var c := Sector(i, s, v, f).value;
            && (c.r == v || c.g == v || c.b == v)
            && OneOf(c.r, v, Var1(s, v), Var2(s, v, f), Var3(s, v, f))
            && OneOf(c.g, v, Var1(s, v), Var2(s, v, f), Var3(s, v, f))
            && OneOf(c.b, v, Var1(s, v), Var2(s, v, f), Var3(s, v, f))
    ensures InRange(s, v) && 0.0 <= f < 1.0 ==>
              var c := Sector(i, s, v, f).value;
              0.0 <= c.r <= v && 0.0 <= c.g <= v && 0.0 <= c.b <= v
  {
    if InRange(s, v) && 0.0 <= f < 1.0 {
      VarsInRange(s, v, f);
    }
  }

  /** `(int)(x * 255)` for each component. */
  function ToRgb(c: Components): Rgb
  {
    Rgb(Trunc(c.r * 255.0), Trunc(c.g * 255.0), Trunc(c.b * 255.0))
  }

  /**
   * `hsvToRgb(h, s, v)`: `invalid_argument` exactly when `s` or `v` lies
   * outside [0, 1]; otherwise the conversion, which never reaches the
   * `logic_error` branch.
   */
  function HsvToRgb(h: real, s: real, v: real): (r: Result<Rgb>)
    ensures r.Err? <==> !InRange(s, v)
    ensures r.Err? ==> r.failure.InvalidArgument?
  {
    if !InRange(s, v) then Err(InvalidArgument("s and v should be in the range [0, 1]"))
    else
      var n := NormalizeHue(h);
      SectorInRange(n);
      match HsvComponents(n, s, v)
      case Ok(c) => Ok(ToRgb(c))
      case Err(f) => Err(f)
  }

  /** Without saturation the colour is grey: all three channels equal `(int)(v * 255)`. */
  lemma GreyWithoutSaturation(h: real, v: real)
    requires 0.0 <= v <= 1.0
    ensures HsvToRgb(h, 0.0, v) == Ok(Rgb(Trunc(v * 255.0), Trunc(v * 255.0), Trunc(v * 255.0)))
  {
  }

  /**
   * For valid saturation and value and a normalised hue, one component is
   * `v` itself, each of the others is one of `var_1`, `var_2` and `var_3`
   * for the hue's position within its sector, and every component lies in
   * [0, v].
   */
  lemma ComponentsInRange(h: real, s: real, v: real)
    requires 0.0 <= h < 1.0 && InRange(s, v)
    ensures HsvComponents(h, s, v).Ok?
    ensures var c := HsvComponents(h, s, v).value;
            c.r == v || c.g == v || c.b == v
    ensures var c := HsvComponents(h, s, v).value;
            var f := SectorPosition(h) - Trunc(SectorPosition(h)) as real;
            && OneOf(c.r, v, Var1(s, v), Var2(s, v, f), Var3(s, v, f))
            && OneOf(c.g, v, Var1(s, v), Var2(s, v, f), Var3(s, v, f))
            && OneOf(c.b, v, Var1(s, v), Var2(s, v, f), Var3(s, v, f))
    ensures var c := HsvComponents(h, s, v).value;
            0.0 <= c.r <= v && 0.0 <= c.g <= v && 0.0 <= c.b <= v
  {
    SectorInRange(h);
    var x := SectorPosition(h);
    SectorCases(Trunc(x), s, v, x - Trunc(x) as real);
  }

  /** A fraction of full intensity becomes a channel value in 0..255. */
  lemma ChannelInRange(x: real)
    requires 0.0 <= x <= 1.0
    ensures 0 <= Trunc(x * 255.0) <= 255
  {
  }

  /** For valid saturation and value, every channel lies in 0..255. */
  lemma RgbInRange(h: real, s: real, v: real)
    requires InRange(s, v)
    ensures HsvToRgb(h, s, v).Ok?
    ensures var c := HsvToRgb(h, s, v).value;
            0 <= c.r <= 255 && 0 <= c.g <= 255 && 0 <= c.b <= 255
  {
    var n := NormalizeHue(h);
    ComponentsInRange(n, s, v);
    var c := HsvComponents(n, s, v).value;
    ChannelInRange(c.r);
    ChannelInRange(c.g);
    ChannelInRange(c.b);
  }

  /** Adding a whole turn to the hue changes nothing. */
  lemma HuePeriodic(h: real, s: real, v: real)
    ensures HsvToRgb(h + 1.0, s, v) == HsvToRgb(h, s, v)
  {
    NormalizeHuePeriodic(h);
  }

  /**
   * `interpolate(t, h1, s1, v1, h2, s2, v2)`: the colour at parameter `t`
   * on the straight line from the first colour to the second. It fails only
   * when the saturation or value reached lies outside [0, 1], which cannot
   * happen for `t` in [0, 1] between two valid colours.
   */
  function Interpolate(t: real, h1: real, s1: real, v1: real, h2: real, s2: real, v2: real): (r: Result<Rgb>)
    ensures r.Err? <==> !InRange(s1 + t * (s2 - s1), v1 + t * (v2 - v1))
    ensures r.Err? ==> r.failure.InvalidArgument?
    ensures 0.0 <= t <= 1.0 && InRange(s1, v1) && InRange(s2, v2) ==> r.Ok?
  {
    BetweenFractions(s1, s2, t);
    BetweenFractions(v1, v2, t);
    HsvToRgb(h1 + t * (h2 - h1), s1 + t * (s2 - s1), v1 + t * (v2 - v1))
  }

  /** The line starts at the first colour and ends at the second. */
  lemma InterpolateEnds(h1: real, s1: real, v1: real, h2: real, s2: real, v2: real)
    ensures Interpolate(0.0, h1, s1, v1, h2, s2, v2) == HsvToRgb(h1, s1, v1)
    ensures Interpolate(1.0, h1, s1, v1, h2, s2, v2) == HsvToRgb(h2, s2, v2)
  {
    assert h1 + 1.0 * (h2 - h1) == h2 && s1 + 1.0 * (s2 - s1) == s2 && v1 + 1.0 * (v2 - v1) == v2;
  }
}
