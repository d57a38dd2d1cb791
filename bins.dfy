/**
 * Bin accumulation, the step every renderer performs after the FFT: each
 * frequency bin's amplitude is added into exactly one output column (its
 * destination), starting from an all-zero output.
 */
module Bins {
  import opened Numeric
  import opened Vectors

  /** The amplitude `sqrt(re*re + im*im)` of one bin. */
  function Amplitude(m: Libm, c: Complex): real
  {
    m.sqrt(Norm2(c))
  }

  /** The amplitude of every bin. */
  function Amplitudes(m: Libm, bins: seq<Complex>): (a: seq<real>)
    ensures |a| == |bins|
  {
    if |bins| == 0 then [] else Amplitudes(m, bins[..|bins| - 1]) + [Amplitude(m, bins[|bins| - 1])]
  }

  /** Element `k` of the amplitudes is the amplitude of bin `k`. */
  lemma {:induction false} AmplitudeAt(m: Libm, bins: seq<Complex>, k: int)
    requires 0 <= k < |bins|
    ensures Amplitudes(m, bins)[k] == Amplitude(m, bins[k])
  {
    if k < |bins| - 1 {
      AmplitudeAt(m, bins[..|bins| - 1], k);
    }
  }

  /** Every amplitude is non-negative. */
  lemma AmplitudesNonnegative(m: Libm, bins: seq<Complex>)
    requires Laws(m)
    ensures forall k :: 0 <= k < |bins| ==> Amplitudes(m, bins)[k] >= 0.0
  {
    forall k | 0 <= k < |bins|
      ensures Amplitudes(m, bins)[k] >= 0.0
    {
      AmplitudeAt(m, bins, k);
      Norm2Nonnegative(bins[k]);
      RootSign(m, Norm2(bins[k]));
    }
  }

  /** All of the first `n` destinations are columns of a `width`-column output. */
  ghost predicate InColumns(dests: seq<int>, width: nat, n: nat)
    requires n <= |dests|
  {
    forall k :: 0 <= k < n ==> 0 <= dests[k] < width
  }

  /**
   * The output after the first `n` bins have been summed in: start from
   * `width` zeros, then add `amps[k]` into column `dests[k]`, for k < n.
   */
  function Accumulate(amps: seq<real>, dests: seq<int>, width: nat, n: nat): (r: seq<real>)
    requires n <= |amps| && n <= |dests| && InColumns(dests, width, n)
    ensures |r| == width
  {
    if n == 0 then Zeros(width)
    else
      var p := Accumulate(amps, dests, width, n - 1);
      p[dests[n - 1] := p[dests[n - 1]] + amps[n - 1]]
  }

  /** Summing in bin `n` adds its amplitude to its destination column. */
  lemma AccumulateStep(amps: seq<real>, dests: seq<int>, width: nat, n: nat)
    requires n < |amps| && n < |dests| && InColumns(dests, width, n + 1)
    ensures Accumulate(amps, dests, width, n + 1)
            == Accumulate(amps, dests, width, n)[dests[n] := Accumulate(amps, dests, width, n)[dests[n]] + amps[n]]
  {
  }

  /** The sum of the amplitudes of the bins among the first `n` whose destination is `c`. */
  function BinSum(amps: seq<real>, dests: seq<int>, c: int, n: nat): real
    requires n <= |amps| && n <= |dests|
  {
    if n == 0 then 0.0
    else BinSum(amps, dests, c, n - 1) + (if dests[n - 1] == c then amps[n - 1] else 0.0)
  }

  /** Each column of the accumulated output is the sum of the bins mapped to it. */
  lemma {:induction false} AccumulateIsBinSum(amps: seq<real>, dests: seq<int>, width: nat, n: nat, c: int)
    requires n <= |amps| && n <= |dests| && InColumns(dests, width, n)
    requires 0 <= c < width
    ensures Accumulate(amps, dests, width, n)[c] == BinSum(amps, dests, c, n)
  {
    if n > 0 {
      AccumulateIsBinSum(amps, dests, width, n - 1, c);
    } else {
      ZerosAt(width, c);
    }
  }

  /** A column that no bin is mapped to sums to zero. */
  lemma {:induction false} UnmappedColumnIsZero(amps: seq<real>, dests: seq<int>, c: int, n: nat)
    requires n <= |amps| && n <= |dests|
    requires forall k :: 0 <= k < n ==> dests[k] != c
    ensures BinSum(amps, dests, c, n) == 0.0
  {
    if n > 0 {
      UnmappedColumnIsZero(amps, dests, c, n - 1);
    }
  }

  function Sum(s: seq<real>): real
  {
    if |s| == 0 then 0.0 else Sum(s[..|s| - 1]) + s[|s| - 1]
  }

  lemma {:induction false} SumOfZeros(n: nat)
    ensures Sum(Zeros(n)) == 0.0
  {
    if n > 0 {
      assert Zeros(n)[..n - 1] == Zeros(n - 1);
      SumOfZeros(n - 1);
    }
  }

  /** Adding `a` to one element adds `a` to the sum. */
  lemma {:induction false} SumOfUpdate(s: seq<real>, j: int, a: real)
    requires 0 <= j < |s|
    ensures Sum(s[j := s[j] + a]) == Sum(s) + a
  {
    var t := s[j := s[j] + a];
    var last := |s| - 1;
    if j < last {
      assert t[..last] == s[..last][j := s[j] + a];
      SumOfUpdate(s[..last], j, a);
    } else {
      assert t[..last] == s[..last];
    }
  }

  /**
   * Accumulation loses and duplicates nothing: the output's total is the
   * total amplitude of the bins summed in.
   */
  lemma {:induction false} AccumulateConserves(amps: seq<real>, dests: seq<int>, width: nat, n: nat)
    requires n <= |amps| && n <= |dests| && InColumns(dests, width, n)
    ensures Sum(Accumulate(amps, dests, width, n)) == Sum(amps[..n])
  {
    if n == 0 {
      SumOfZeros(width);
    } else {
      AccumulateConserves(amps, dests, width, n - 1);
      var p := Accumulate(amps, dests, width, n - 1);
      SumOfUpdate(p, dests[n - 1], amps[n - 1]);
      assert amps[..n][..n - 1] == amps[..n - 1];
    }
  }

  /** Every element multiplied by `f` (`a *= f` over the vector). */
  function Scaled(s: seq<real>, f: real): (r: seq<real>)
    ensures |r| == |s|
  {
    if |s| == 0 then [] else Scaled(s[..|s| - 1], f) + [s[|s| - 1] * f]
  }

  lemma {:induction false} ScaledAt(s: seq<real>, f: real, i: int)
    requires 0 <= i < |s|
    ensures Scaled(s, f)[i] == s[i] * f
  {
    if i < |s| - 1 {
      ScaledAt(s[..|s| - 1], f, i);
    }
  }

  /** After scaling by `f`, each column is `f` times the sum of the bins mapped to it. */
  lemma ScaledColumnIsBinSum(amps: seq<real>, dests: seq<int>, width: nat, n: nat, c: int, f: real)
    requires n <= |amps| && n <= |dests| && InColumns(dests, width, n)
    requires 0 <= c < width
    ensures Scaled(Accumulate(amps, dests, width, n), f)[c] == BinSum(amps, dests, c, n) * f
  {
    AccumulateIsBinSum(amps, dests, width, n, c);
    ScaledAt(Accumulate(amps, dests, width, n), f, c);
  }

  /** `for (auto &a : spectrum) a *= f;` */
  method ScaleInPlace(v: FloatVector, f: real)
    modifies v
    ensures v.elems == Scaled(old(v.elems), f)
  {
    ghost var s := v.elems;
    var i := 0;
    while i < |v.elems|
      invariant 0 <= i <= |v.elems| == |s|
      invariant forall j :: 0 <= j < i ==> v.elems[j] == s[j] * f
      invariant forall j :: i <= j < |s| ==> v.elems[j] == s[j]
    {
      v.elems := v.elems[i := v.elems[i] * f];
      i := i + 1;
    }
    forall j | 0 <= j < |s|
      ensures Scaled(s, f)[j] == v.elems[j]
    {
      ScaledAt(s, f, j);
    }
  }
}
