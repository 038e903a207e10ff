/**
 * The sizing rules and the kernel cache of the Gaussian helpers. The Gaussian density
 * itself is kept abstract: it is a `profile` of the squared offset and of sigma, which is
 * all the kernel builder relies on, and it is positive, as the density is.
 */
module GaussianKernels {

  /** Math.ceil on a real. */
  function Ceil(x: real): (c: int)
    ensures (c - 1) as real < x <= c as real
  {
    if x == x.Floor as real then x.Floor else x.Floor + 1
  }

  const TwoTo31: int := 0x8000_0000
  const TwoTo32: int := 0x1_0000_0000

  /** The ToInt32 conversion JavaScript applies to the operands of `|`. */
  function ToInt32(n: int): (r: int)
    ensures -TwoTo31 <= r < TwoTo31
    ensures (r - n) % TwoTo32 == 0
    ensures -TwoTo31 <= n < TwoTo31 ==> r == n
  {
    (n + TwoTo31) % TwoTo32 - TwoTo31
  }

  /** `n | 1` on a 32-bit two's-complement value: the lowest bit set. */
  function OrOne(n: int): (r: int)
    ensures r % 2 == 1
    ensures r == n || r == n + 1
    ensures n % 2 == 1 ==> r == n
  {
    if n % 2 == 0 then n + 1 else n
  }

  /** getKernelSize: max(3, (ceil(3 sigma) + 1) | 1). */
  function GetKernelSize(sigma: real): (r: int)
    ensures r % 2 == 1 && r >= 3
    ensures var c := Ceil(3.0 * sigma);
      -TwoTo31 <= c + 1 < TwoTo31 - 1 ==> c + 1 <= r && (r <= c + 2 || r == 3)
  {
    var c := Ceil(3.0 * sigma);
    var s := OrOne(ToInt32(c + 1));
    if 3 > s then 3 else s
  }

  /** An even requested size is rounded up by one; an odd one is kept. */
  function OddSize(kernelSize: int): (n: int)
    ensures n % 2 == 1
    ensures n == kernelSize || n == kernelSize + 1
  {
    if kernelSize % 2 == 0 then kernelSize + 1 else kernelSize
  }

  /** Math.floor(n / 2). */
  function HalfSize(n: int): (h: int)
    ensures 2 * h <= n < 2 * h + 2
  {
    n / 2
  }

  /** The number of offsets from -halfSize to halfSize, both included. */
  function OffsetCount(halfSize: int): (n: nat)
    ensures halfSize >= 0 ==> n == 2 * halfSize + 1
    ensures halfSize < 0 ==> n == 0
  {
    if halfSize >= 0 then 2 * halfSize + 1 else 0
  }

  /** The raw weight at offset x: the profile of x * x. */
  function Weight(profile: (int, real) -> real, x: int, sigma: real): real
  {
    profile(x * x, sigma)
  }

  /** The raw weights at the offsets -halfSize .. halfSize, in order. */
  function Weights(profile: (int, real) -> real, halfSize: int, sigma: real): (w: seq<real>)
    ensures |w| == OffsetCount(halfSize)
    ensures forall i :: 0 <= i < |w| ==> w[i] == Weight(profile, i - halfSize, sigma)
  {
    seq(OffsetCount(halfSize), i => Weight(profile, i - halfSize, sigma))
  }

  function Sum(s: seq<real>): real
  {
    if |s| == 0 then 0.0 else Sum(s[..|s| - 1]) + s[|s| - 1]
  }

  /** Every weight divided by `total`. */
  function Normalized(s: seq<real>, total: real): (r: seq<real>)
    requires total != 0.0
    ensures |r| == |s|
    ensures forall i :: 0 <= i < |s| ==> r[i] == s[i] / total
  {
    seq(|s|, i requires 0 <= i < |s| => s[i] / total)
  }

  /** A profile that is positive everywhere, as the Gaussian density is. */
  ghost predicate Positive(profile: (int, real) -> real)
  {
    forall t: int, sigma: real :: profile(t, sigma) > 0.0
  }

  lemma {:induction false} SumPositive(s: seq<real>)
    requires forall i :: 0 <= i < |s| ==> s[i] > 0.0
    ensures |s| > 0 ==> Sum(s) > 0.0
    ensures Sum(s) >= 0.0
  {
    if |s| > 0 {
      SumPositive(s[..|s| - 1]);
    }
  }

  lemma SumSnoc(s: seq<real>, k: nat)
    requires k < |s|
    ensures Sum(s[..k + 1]) == Sum(s[..k]) + s[k]
  {
    assert s[..k + 1][..k] == s[..k];
  }

  /** The kernel get1DGaussianKernel builds for a requested size: the normalized weights. */
  function GaussianKernel(profile: (int, real) -> real, kernelSize: int, sigma: real): (r: seq<real>)
    requires Positive(profile)
  {
    var w := Weights(profile, HalfSize(OddSize(kernelSize)), sigma);
    SumPositive(w);
    if |w| == 0 then [] else Normalized(w, Sum(w))
  }

  /**
   * The kernel of a non-negative requested size has odd length: the size itself when it
   * is odd, the size plus one when it is even. A negative size gives the empty kernel.
   */
  lemma KernelLength(profile: (int, real) -> real, kernelSize: int, sigma: real)
    requires Positive(profile)
    ensures kernelSize >= 0 ==> |GaussianKernel(profile, kernelSize, sigma)| == OddSize(kernelSize)
    ensures kernelSize >= 0 ==> |GaussianKernel(profile, kernelSize, sigma)| % 2 == 1
    ensures kernelSize < 0 ==> GaussianKernel(profile, kernelSize, sigma) == []
  {
  }

  /** A size from getKernelSize is odd, so the kernel has exactly that length. */
  lemma KernelOfKernelSize(profile: (int, real) -> real, sigma: real)
    requires Positive(profile)
    ensures |GaussianKernel(profile, GetKernelSize(sigma), sigma)| == GetKernelSize(sigma)
  {
    KernelLength(profile, GetKernelSize(sigma), sigma);
  }

  /** Offsets at the same distance from the centre get the same weight. */
  lemma KernelSymmetric(profile: (int, real) -> real, kernelSize: int, sigma: real)
    requires Positive(profile)
    ensures var r := GaussianKernel(profile, kernelSize, sigma);
      forall i :: 0 <= i < |r| ==> r[i] == r[|r| - 1 - i]
  {
    var h := HalfSize(OddSize(kernelSize));
    var w := Weights(profile, h, sigma);
    forall i | 0 <= i < |w|
      ensures w[i] == w[|w| - 1 - i]
    {
      var j := |w| - 1 - i;
      assert j - h == -(i - h);
      assert (j - h) * (j - h) == (i - h) * (i - h);
    }
  }

  lemma {:induction false} SumScaled(s: seq<real>, total: real)
    requires total != 0.0
    ensures Sum(Normalized(s, total)) == Sum(s) / total
  {
    if |s| > 0 {
      var n := Normalized(s, total);
      SumScaled(s[..|s| - 1], total);
      assert n[..|s| - 1] == Normalized(s[..|s| - 1], total);
    }
  }

  /** The weights of a non-empty kernel sum to one. */
  lemma KernelSumsToOne(profile: (int, real) -> real, kernelSize: int, sigma: real)
    requires Positive(profile)
    ensures var r := GaussianKernel(profile, kernelSize, sigma);
      |r| > 0 ==> Sum(r) == 1.0
  {
    var w := Weights(profile, HalfSize(OddSize(kernelSize)), sigma);
    SumPositive(w);
    if |w| > 0 {
      var total := Sum(w);
      assert GaussianKernel(profile, kernelSize, sigma) == Normalized(w, total);
      SumScaled(w, total);
      assert total / total == 1.0;
    }
  }

  /**
   * The helper object: the density profile and a cache from the requested size and sigma
   * (the string key `${kernelSize}-${sigma}`) to the kernel built for them.
   */
  class GaussianCalculations {
    const profile: (int, real) -> real
    var kernelCache: map<(int, real), seq<real>>

    /** Every cached kernel is the one built for its key. */
    ghost predicate Valid()
      reads this
    {
      && Positive(profile)
      && forall key :: key in kernelCache ==> kernelCache[key] == GaussianKernel(profile, key.0, key.1)
    }

    constructor (profile: (int, real) -> real)
      requires Positive(profile)
      ensures Valid() && this.profile == profile && kernelCache == map[]
    {
      this.profile := profile;
      kernelCache := map[];
    }

    /** normalizeKernel: every weight divided by the sum, in place. */
    method NormalizeKernel(kernel1D: array<real>, kernelSum: real)
      requires kernel1D.Length > 0 ==> kernelSum != 0.0
      modifies kernel1D
      ensures kernel1D.Length > 0 ==> kernel1D[..] == Normalized(old(kernel1D[..]), kernelSum)
    {
      var i := 0;
      while i < kernel1D.Length
        invariant 0 <= i <= kernel1D.Length
        invariant forall j :: 0 <= j < i ==> kernel1D[j] == old(kernel1D[j]) / kernelSum
        invariant forall j :: i <= j < kernel1D.Length ==> kernel1D[j] == old(kernel1D[j])
      {
        kernel1D[i] := kernel1D[i] / kernelSum;
        i := i + 1;
      }
    }

    /** The loop of get1DGaussianKernel: the raw weights from -halfSize to halfSize and their sum. */
    method FillWeights(halfSize: int, sigma: real) returns (kernel1D: array<real>, kernelSum: real)
      ensures fresh(kernel1D)
      ensures kernel1D[..] == Weights(profile, halfSize, sigma)
      ensures kernelSum == Sum(kernel1D[..])
    {
      ghost var w := Weights(profile, halfSize, sigma);
      kernel1D := new real[OffsetCount(halfSize)];
      kernelSum := 0.0;
      var x := -halfSize;
      while x <= halfSize
        invariant 0 <= x + halfSize <= kernel1D.Length
        invariant forall j :: 0 <= j < x + halfSize ==> kernel1D[j] == w[j]
        invariant kernelSum == Sum(w[..x + halfSize])
      {
        var value := profile(x * x, sigma);
        kernelSum := kernelSum + value;
        kernel1D[x + halfSize] := value;
        SumSnoc(w, x + halfSize);
        x := x + 1;
      }
      assert kernel1D[..] == w;
      assert w[..|w|] == w;
    }

    /**
     * get1DGaussianKernel: the cached kernel for the key when there is one; otherwise the
     * kernel built for the size rounded up to odd, which is cached under the requested
     * size before any rounding.
     */
    method Get1DGaussianKernel(kernelSize: int, sigma: real) returns (kernel: seq<real>)
      requires Valid()
      modifies this`kernelCache
      ensures Valid()
      ensures kernel == GaussianKernel(profile, kernelSize, sigma)
      ensures (kernelSize, sigma) in old(kernelCache) ==> kernel == old(kernelCache)[(kernelSize, sigma)]
      ensures kernelCache == old(kernelCache)[(kernelSize, sigma) := kernel]
    {
      var kernelKey := (kernelSize, sigma);
      if kernelKey in kernelCache {
        return kernelCache[kernelKey];
      }
      var size := kernelSize;
      if size % 2 == 0 {
        size := size + 1;
      }
      var halfSize := HalfSize(size);
      var kernel1D, kernelSum := FillWeights(halfSize, sigma);
      SumPositive(kernel1D[..]);
      NormalizeKernel(kernel1D, kernelSum);
      kernel := kernel1D[..];
      kernelCache := kernelCache[kernelKey := kernel];
    }
  }
}
