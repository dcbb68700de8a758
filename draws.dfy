/** `System.Random` seen through `Sample()`. The subtractive generator that
    produces the samples is not modelled: a generator seeded with `s` is a
    fixed, infinite sequence of samples in `[0, 1)`, one per call, and every
    public call is computed from its sample as .NET computes it.
    `NextDouble()` returns the sample; `Next(lo, hi)` returns
    `lo + (int)(sample * (hi - lo))`. Two generators with the same seed see
    the same samples, so calls of different services that share a seed and
    a call number are linked exactly as they are in .NET. */
module Draws {
  import opened CSharpInt

  /** The samples of one generator, by call number. A value outside `[0, 1)`
      is read through `Sample`, so every sequence of reals is a generator. */
  type Stream = int -> real

  /** `new Random(seed)` for every seed. */
  type Seeding = int -> Stream

  /** The sample behind call number `k`: a value in `[0, 1)`, the stream's own
      value when it already lies there. This is also what `NextDouble()`
      returns on that call. */
  function Sample(s: Stream, k: int): (u: real)
    ensures 0.0 <= u < 1.0
    ensures 0.0 <= s(k) < 1.0 ==> u == s(k)
  {
    s(k) - s(k).Floor as real
  }

  /** `0 <= u * d < d` for a sample `u` and a positive width `d`. */
  lemma ScaleBounds(u: real, d: int)
    requires 0.0 <= u < 1.0 && 0 < d
    ensures 0.0 <= u * d as real < d as real
    ensures 0 <= (u * d as real).Floor < d
  {
    var x := u * d as real;
    assert x < 1.0 * d as real;
    assert x.Floor as real <= x;
  }

  /** The value of `Next(lo, hi)` for the sample `u`:
      `lo + (int)(u * (hi - lo))`. The product is not negative, so the
      truncating cast is the floor. An empty range gives `lo`. */
  function Scale(u: real, lo: int, hi: int): (v: int)
    requires 0.0 <= u < 1.0 && lo <= hi
    ensures lo == hi ==> v == lo
    ensures lo < hi ==> lo <= v < hi
  {
    if lo == hi then lo
    else
      ScaleBounds(u, hi - lo);
      lo + (u * (hi - lo) as real).Floor
  }

  /** Every value of a range is the value of some sample: the sample
      `j / (hi - lo)` gives `lo + j`. */
  lemma ScaleReaches(lo: int, hi: int, j: int)
    requires 0 <= j < hi - lo
    ensures 0.0 <= j as real / (hi - lo) as real < 1.0
    ensures Scale(j as real / (hi - lo) as real, lo, hi) == lo + j
  {
    var d := (hi - lo) as real;
    var u := j as real / d;
    assert u * d == j as real;
  }

  /** A larger sample never gives a smaller value. */
  lemma ScaleMonotone(u1: real, u2: real, lo: int, hi: int)
    requires 0.0 <= u1 <= u2 < 1.0 && lo <= hi
    ensures Scale(u1, lo, hi) <= Scale(u2, lo, hi)
  {
    if lo < hi {
      var d := (hi - lo) as real;
      assert u1 * d <= u2 * d;
    }
  }

  /** The value of call number `k` to `Next(lo, hi)` on a generator whose
      samples are `s`. */
  function Draw(s: Stream, k: int, lo: int, hi: int): (v: int)
    requires lo <= hi
    ensures lo == hi ==> v == lo
    ensures lo < hi ==> lo <= v < hi
  {
    Scale(Sample(s, k), lo, hi)
  }

  /** The seed every service hands to `new Random(...)`: `(int)(seed % int.MaxValue)`.
      The truncated remainder is already within `int`, so the cast changes
      nothing, and a seed that is a non-negative `int` below `int.MaxValue`
      is passed through unchanged. */
  function RandomSeed(seed: Int64): (r: Int32)
    ensures -Int32Max < r < Int32Max
    ensures seed >= 0 ==> r >= 0
    ensures seed <= 0 ==> r <= 0
    ensures 0 <= seed < Int32Max ==> r == seed
  {
    RemSmall(seed, Int32Max);
    Rem(seed, Int32Max)
  }

  /** The samples of `new Random((int)(seed % int.MaxValue))`, the way every
      service seeds its generator from a `long` seed. */
  function Seeded(randoms: Seeding, seed: Int64): Stream
  {
    randoms(RandomSeed(seed))
  }

  /** A `System.Random` instance: its samples are fixed by its seed, and each
      call consumes the next one. */
  class Random {
    const stream: Stream
    var pos: int

    constructor (stream: Stream)
      ensures this.stream == stream && pos == 0
    {
      this.stream := stream;
      pos := 0;
    }

    /** `Next(lo, hi)`: .NET refuses `lo > hi`; every call in the model has `lo < hi`. */
    method Next(lo: int, hi: int) returns (v: int)
      requires lo <= hi
      modifies this
      ensures v == Draw(stream, old(pos), lo, hi)
      ensures pos == old(pos) + 1
    {
      v := Draw(stream, pos, lo, hi);
      pos := pos + 1;
    }
  }
}
