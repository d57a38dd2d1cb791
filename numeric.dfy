/**
 * Numeric building blocks shared by every part of the model: C's numeric
 * conversions written out over `real` and `int`, the error datatypes that
 * stand for C++ exceptions, and the external mathematical collaborators
 * (the C math library and the real-input FFT) as values whose assumed
 * properties are stated once, in `Laws` and `FftShape`.
 */
module Numeric {

  datatype Option<T> = None | Some(value: T)

  /** The exceptions the core throws: `std::invalid_argument` and `std::logic_error`. */
  datatype Failure = InvalidArgument(reason: string) | LogicError(reason: string)

  datatype Result<T> = Ok(value: T) | Err(failure: Failure)

  datatype Outcome = Pass | Fail(failure: Failure)

  function Max(a: int, b: int): int { if a >= b then a else b }

  function Min(a: int, b: int): int { if a <= b then a else b }

  /**
   * Conversion of a floating-point value to `int` in C and C++: the
   * fractional part is discarded, rounding toward zero.
   */
  function Trunc(x: real): (n: int)
    ensures x >= 0.0 ==> 0 <= n && n as real <= x < n as real + 1.0
    ensures x < 0.0 ==> n <= 0 && n as real - 1.0 < x <= n as real
  {
    if x >= 0.0 then x.Floor else -((-x).Floor)
  }

  /** `std::fmod(x, 1)`: the remainder keeps the sign of `x`. */
  function FModOne(x: real): (m: real)
    ensures -1.0 < m < 1.0
    ensures x >= 0.0 ==> 0.0 <= m
    ensures x < 0.0 ==> m <= 0.0
    ensures (x - m).Floor as real == x - m
  {
    x - Trunc(x) as real
  }

  function Abs(x: int): nat { if x < 0 then -x else x }

  /**
   * C's integer division, which truncates toward zero: the magnitude of the
   * quotient is the whole number of times |b| fits into |a|, and a nonzero
   * quotient is negative exactly when the operands' signs differ.
   */
  function CDiv(a: int, b: int): (q: int)
    requires b != 0
    ensures Abs(q) * Abs(b) <= Abs(a) < (Abs(q) + 1) * Abs(b)
    ensures q != 0 ==> (q < 0 <==> (a < 0) != (b < 0))
  {
    var m := Abs(a) / Abs(b);
    QuotientBounds(Abs(a), Abs(b));
    if (a < 0) != (b < 0) then -m else m
  }

  lemma QuotientBounds(n: nat, d: nat)
    requires d > 0
    ensures (n / d) * d <= n < (n / d + 1) * d
  {
    var m := n / d;
    assert n == m * d + n % d && 0 <= n % d < d;
    assert (m + 1) * d == m * d + d;
  }

  /** `1 / n` on `int` is 0 whenever |n| >= 2. */
  lemma OneOverWideIsZero(n: int)
    requires n >= 2 || n <= -2
    ensures CDiv(1, n) == 0
  {
  }

  datatype Complex = Complex(re: real, im: real)

  /** The squared magnitude `re*re + im*im`. */
  function Norm2(c: Complex): real
  {
    c.re * c.re + c.im * c.im
  }

  lemma Norm2Nonnegative(c: Complex)
    ensures Norm2(c) >= 0.0
  {
    assert c.re * c.re >= 0.0 && c.im * c.im >= 0.0;
  }

  /**
   * A real function of the math library, given by its graph: the value at
   * `x` is the graph's entry for `x`. A graph that leaves `x` out stands for
   * a function whose value there is 0; the laws below say what matters.
   */
  type RealFn = imap<real, real>

  function Ap(f: RealFn, x: real): real
  {
    if x in f then f[x] else 0.0
  }

  /** The functions of <cmath> the core calls. */
  datatype Libm = Libm(logs: RealFn, sqrts: RealFn, cbrts: RealFn, pows: imap<(real, real), real>)
  {
    function log(x: real): real { Ap(logs, x) }
    function sqrt(x: real): real { Ap(sqrts, x) }
    function cbrt(x: real): real { Ap(cbrts, x) }
    function pow(x: real, e: real): real { if (x, e) in pows then pows[(x, e)] else 0.0 }
  }

  /**
   * `f(x) < f(y)`. The monotonicity laws below are stated in terms of it so
   * that a proof applies them only where it names this predicate.
   */
  ghost predicate Below(f: RealFn, x: real, y: real)
  {
    Ap(f, x) < Ap(f, y)
  }

  /** `f` increases strictly from `lo` on. */
  ghost predicate IncreasingFrom(f: RealFn, lo: real)
  {
    forall x, y {:trigger Below(f, x, y)} :: lo <= x < y ==> Below(f, x, y)
  }

  /**
   * What the model assumes of the math library: `log` vanishes at 1 and
   * increases strictly from there; `sqrt` and `cbrt` vanish at 0 and
   * increase strictly on the non-negative reals; `pow` of a positive base
   * is positive, and any base to the power 0 is 1 (as C's `pow` promises).
   */
  ghost predicate Laws(m: Libm)
  {
    && m.log(1.0) == 0.0 && IncreasingFrom(m.logs, 1.0)
    && m.sqrt(0.0) == 0.0 && IncreasingFrom(m.sqrts, 0.0)
    && m.cbrt(0.0) == 0.0 && IncreasingFrom(m.cbrts, 0.0)
    && (forall x, e :: x > 0.0 ==> m.pow(x, e) > 0.0)
    && (forall x :: m.pow(x, 0.0) == 1.0)
  }

  /** log is non-negative from 1 on and positive beyond 1. */
  lemma LogSign(m: Libm, x: real)
    requires Laws(m) && x >= 1.0
    ensures m.log(x) >= 0.0
    ensures x > 1.0 ==> m.log(x) > 0.0
  {
    if x > 1.0 {
      assert Below(m.logs, 1.0, x);
    }
  }

  /** `LogSign` and `RootSign` as implications, for contracts that do not assume `Laws`. */
  lemma SignsIfLawful(m: Libm, x: real)
    ensures Laws(m) && x >= 0.0 ==> m.sqrt(x) >= 0.0 && m.cbrt(x) >= 0.0
    ensures Laws(m) && x > 0.0 ==> m.sqrt(x) > 0.0 && m.cbrt(x) > 0.0
    ensures Laws(m) && x >= 1.0 ==> m.log(x) >= 0.0
    ensures Laws(m) && x > 1.0 ==> m.log(x) > 0.0
  {
    if Laws(m) && x >= 0.0 {
      RootSign(m, x);
    }
    if Laws(m) && x >= 1.0 {
      LogSign(m, x);
    }
  }

  /** sqrt and cbrt are non-negative on the non-negative reals and positive beyond 0. */
  lemma RootSign(m: Libm, x: real)
    requires Laws(m) && x >= 0.0
    ensures m.sqrt(x) >= 0.0 && m.cbrt(x) >= 0.0
    ensures x > 0.0 ==> m.sqrt(x) > 0.0 && m.cbrt(x) > 0.0
  {
    if x > 0.0 {
      assert Below(m.sqrts, 0.0, x) && Below(m.cbrts, 0.0, x);
    }
  }

  /**
   * A real-input FFT: given the transform size `n` and `n` time samples,
   * `n/2 + 1` complex frequency bins (kissfft's `kiss_fftr`).
   */
  datatype Fft = Fft(graph: imap<(int, seq<real>), seq<Complex>>)
  {
    /** The bins of the transform of size `n` of `x` (none where the graph leaves it out). */
    function Transform(n: int, x: seq<real>): seq<Complex>
    {
      if (n, x) in graph then graph[(n, x)] else []
    }
  }

  ghost predicate FftShape(fft: Fft)
  {
    forall n: nat, x: seq<real> :: |fft.Transform(n, x)| == n / 2 + 1
  }

  /** Dividing by a positive number keeps the order. */
  lemma DivMonotone(a: real, b: real, d: real)
    requires a <= b && d > 0.0
    ensures a / d <= b / d
  {
    assert b / d - a / d == (b - a) / d;
  }

  /** A quotient of a non-negative number by a larger one lies in [0, 1). */
  lemma DivBelowOne(a: real, d: real)
    requires 0.0 <= a < d
    ensures 0.0 <= a / d < 1.0
  {
    assert a / d * d == a;
  }
}
