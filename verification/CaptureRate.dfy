// Block sizes of a capture stream opened at the device's own rate
// (agent/ovs_agent/audio_io.py, _input_blocksize and _resample_int16).
//
// round() is Python's round half to even. The arithmetic is done first on exact
// rationals, and then shown to be that of double-precision quotients.
module CaptureRate {
  import opened Prelude

  // round(n / d)
  function Round(n: nat, d: nat): (q: nat)
    requires d > 0
  {
    var q, r := n / d, n % d;
    if 2 * r < d then q
    else if 2 * r > d then q + 1
    else if q % 2 == 0 then q else q + 1
  }

  // The frames the device delivers per callback.
  function BlockSize(chunkFrames: nat, inputRate: nat, deviceRate: nat): (b: nat)
    requires inputRate > 0
  {
    if deviceRate == inputRate then chunkFrames
    else
      var b := Round(chunkFrames * deviceRate, inputRate);
      if b > 1 then b else 1
  }

  // The number of samples left of a block after resampling it.
  function Resampled(frames: nat, rateIn: nat, rateOut: nat): (n: nat)
    requires rateIn > 0
  {
    if rateIn == rateOut || frames == 0 then frames else Round(frames * rateOut, rateIn)
  }

  // Round is a nearest integer ...
  lemma RoundNearest(n: nat, d: nat)
    requires d > 0
    ensures 2 * n - d <= 2 * (Round(n, d) * d) <= 2 * n + d
  {
    var q, r := n / d, n % d;
    assert n == q * d + r;
    assert (q + 1) * d == q * d + d;
  }

  // ... and any integer strictly within one half is the result.
  lemma RoundUnique(n: nat, d: nat, c: nat)
    requires d > 0
    requires 2 * n - d < 2 * (c * d) < 2 * n + d
    ensures Round(n, d) == c
  {
    RoundNearest(n, d);
    var q := Round(n, d);
    if q > c {
      TimesStep(q, c, d);
    } else if q < c {
      TimesStep(c, q, d);
    }
  }

  // Exactly: a nearest integer, and between two of them the even one.
  lemma RoundExactly(n: nat, d: nat, c: nat)
    requires d > 0
    ensures c == Round(n, d) <==>
            && 2 * n - d <= 2 * (c * d) <= 2 * n + d
            && (2 * (c * d) == 2 * n - d || 2 * (c * d) == 2 * n + d ==> c % 2 == 0)
  {
    NearFloor(n, d);
    FarMultiples(c, n / d, d);
    NearestExactly(c, n / d, n % d, d, c * d, (n / d) * d, n);
  }

  lemma FarMultiples(c: nat, q: nat, d: nat)
    ensures c == q ==> c * d == q * d
    ensures c == q + 1 ==> c * d == q * d + d
    ensures c < q ==> c * d <= q * d - d
    ensures c > q + 1 ==> c * d >= q * d + 2 * d
  {
    if c < q {
      TimesStep(q, c, d);
    } else if c > q + 1 {
      assert (q + 1) * d == q * d + d;
      TimesStep(c, q + 1, d);
    }
  }

  lemma NearFloor(n: nat, d: nat)
    requires d > 0
    ensures var q, r := n / d, n % d;
            && n == q * d + r
            && Round(n, d) == if 2 * r < d || (2 * r == d && q % 2 == 0) then q else q + 1
  {
  }

  // The same with the products named.
  lemma NearestExactly(c: nat, q: nat, r: nat, d: nat, cd: int, qd: int, n: int)
    requires n == qd + r && r < d
    requires c == q ==> cd == qd
    requires c == q + 1 ==> cd == qd + d
    requires c < q ==> cd <= qd - d
    requires c > q + 1 ==> cd >= qd + 2 * d
    ensures c == (if 2 * r < d || (2 * r == d && q % 2 == 0) then q else q + 1) <==>
            && 2 * n - d <= 2 * cd <= 2 * n + d
            && (2 * cd == 2 * n - d || 2 * cd == 2 * n + d ==> c % 2 == 0)
  {
  }

  // Both roundings cancel at every faster device rate: with b the block size,
  // |2(b*i - c*d)| <= i < d.
  lemma FasterRoundTrip(c: nat, i: nat, d: nat)
    requires c >= 1 && 0 < i < d
    ensures Resampled(BlockSize(c, i, d), d, i) == c
  {
    RoundNearest(c * d, i);
    var b := Round(c * d, i);
    TimesStep(c, 0, d);
    assert b != 0;
    assert 2 * (c * d) - i <= 2 * (b * i) <= 2 * (c * d) + i;
    RoundUnique(b * i, d, c);
  }

  lemma RoundSmall(n: nat, d: nat)
    requires n < d
    ensures Round(n, d) == if 2 * n <= d then 0 else 1
  {
    assert n / d == 0 && n % d == n;
  }

  // An empty chunk still opens a one-frame block.
  lemma EmptyChunk(i: nat, d: nat)
    requires 0 < i < d
    ensures Resampled(BlockSize(0, i, d), d, i) == if 2 * i <= d then 0 else 1
  {
    RoundSmall(0, i);
    RoundSmall(i, d);
    assert 0 * d == 0 && 1 * i == i;
  }

  // At every device rate at or above the configured one, a full callback block
  // comes back as exactly one chunk, unless the chunk is empty: then the block
  // is forced to one frame, and that frame survives exactly when the device is
  // less than twice as fast.
  lemma BlockIsOneChunk(c: nat, i: nat, d: nat)
    requires 0 < i <= d
    ensures Resampled(BlockSize(c, i, d), d, i) == c <==> c >= 1 || d == i || 2 * i <= d
  {
    if i < d {
      if c >= 1 {
        FasterRoundTrip(c, i, d);
      } else {
        EmptyChunk(i, d);
      }
    }
  }

  // Below the configured rate the chunk does not survive in general.
  lemma SlowerRateLoses()
    ensures Resampled(BlockSize(1600, 16000, 8001), 8001, 16000) == 1600
    ensures Resampled(BlockSize(1, 16000, 8000), 8000, 16000) != 1
  {
  }

  // ── double-precision quotients ───────────────────────────────────

  // 2 to the power of 52: below it a double holds every multiple of one half.
  const EXACT := 0x10_0000_0000_0000

  // What a correctly rounded quotient x of n by d satisfies: it is exact when
  // n / d is a multiple of one half, and otherwise off by at most one part in
  // 2 to the power of 53.
  predicate Quotient(n: nat, d: nat, x: real)
    requires d > 0
  {
    && ((2 * n) % d == 0 ==> x * d as real == n as real)
    && -(n as real) <= (x * d as real - n as real) * (2 * EXACT) as real <= n as real
  }

  ghost predicate Divides(divide: (nat, nat) -> real) {
    forall n: nat, d: nat :: 0 < d && n < EXACT ==> Quotient(n, d, divide(n, d))
  }

  // round(x)
  function RoundReal(x: real): int {
    var f := x.Floor;
    var r := x - f as real;
    if r < 0.5 then f
    else if r > 0.5 then f + 1
    else if f % 2 == 0 then f else f + 1
  }

  lemma ScaledOrder(x: real, y: real, d: real)
    requires d > 0.0
    ensures x * d < y * d <==> x < y
    ensures x * d == y * d <==> x == y
  {
    assert x < y ==> (y - x) * d > 0.0;
    assert x > y ==> (x - y) * d > 0.0;
  }

  // A real strictly between two integers is rounded by comparison with their
  // middle.
  lemma RoundBetween(x: real, q: int)
    requires q as real <= x < q as real + 1.0
    ensures RoundReal(x) == if x - q as real < 0.5 then q
                            else if x - q as real > 0.5 then q + 1
                            else if q % 2 == 0 then q else q + 1
  {
    assert x.Floor == q;
  }

  lemma ModUnique(n: nat, d: nat, q: nat, r: nat)
    requires r < d && n == q * d + r
    ensures n % d == r
  {
    var p := n / d;
    assert n == p * d + n % d;
    if p > q {
      TimesStep(p, q, d);
    } else if p < q {
      TimesStep(q, p, d);
    }
  }

  lemma OffByLessThanHalf(n: nat, y: real)
    requires n < EXACT && -(n as real) <= (y - n as real) * (2 * EXACT) as real <= n as real
    ensures -0.5 < y - n as real < 0.5
  {
  }

  lemma Products(x: real, h: nat, d: nat)
    ensures (2.0 * x) * d as real == 2.0 * (x * d as real)
    ensures h as real * d as real == (h * d) as real
  {
  }

  lemma SameSide(n: nat, m: nat, y: real)
    requires -0.5 < y - n as real < 0.5 && (2 * n == m ==> y == n as real)
    ensures 2.0 * y < m as real <==> 2 * n < m
    ensures 2.0 * y == m as real <==> 2 * n == m
  {
  }

  lemma ExactHalf(n: nat, d: nat, x: real, h: nat)
    requires d > 0 && Quotient(n, d, x) && 2 * n == h * d
    ensures x * d as real == n as real
  {
    ModUnique(2 * n, d, h, 0);
  }

  // The double compares with half of h as the rational does.
  predicate Compares(n: nat, d: nat, x: real, h: nat) {
    && (2.0 * x < h as real <==> 2 * n < h * d)
    && (2.0 * x == h as real <==> 2 * n == h * d)
  }

  lemma ComparesScaled(n: nat, d: nat, x: real, h: nat, y: real)
    requires d > 0 && y == x * d as real && -0.5 < y - n as real < 0.5
    requires 2 * n == h * d ==> y == n as real
    ensures Compares(n, d, x, h)
  {
    SameSide(n, h * d, y);
    Products(x, h, d);
    ScaledOrder(2.0 * x, h as real, d as real);
  }

  lemma ComparesAlike(n: nat, d: nat, x: real, h: nat)
    requires d > 0 && n < EXACT && Quotient(n, d, x)
    ensures Compares(n, d, x, h)
  {
    if 2 * n == h * d {
      ExactHalf(n, d, x, h);
    }
    OffByLessThanHalf(n, x * d as real);
    ComparesScaled(n, d, x, h, x * d as real);
  }

  // Doubled, n / d compares with its floor's double plus k as its remainder does.
  lemma HalfSteps(n: nat, d: nat, k: nat)
    requires d > 0
    ensures var q, r := n / d, n % d;
            && (2 * n < (2 * q + k) * d <==> 2 * r < k * d)
            && (2 * n == (2 * q + k) * d <==> 2 * r == k * d)
  {
    var q, r := n / d, n % d;
    assert n == q * d + r;
    assert (2 * q + k) * d == 2 * (q * d) + k * d;
  }

  lemma ComparesByRemainder(n: nat, d: nat, x: real, k: nat)
    requires d > 0 && Compares(n, d, x, 2 * (n / d) + k)
    ensures var q, r := n / d, n % d;
            && (2.0 * x < (2 * q + k) as real <==> 2 * r < k * d)
            && (2.0 * x == (2 * q + k) as real <==> 2 * r == k * d)
  {
    HalfSteps(n, d, k);
  }

  // The double lies between the integers around the rational, on its side of
  // the middle.
  predicate Placed(n: nat, d: nat, x: real)
    requires d > 0
  {
    var q, r := n / d, n % d;
    && q as real <= x < q as real + 1.0
    && (x - q as real < 0.5 <==> 2 * r < d)
    && (x - q as real == 0.5 <==> 2 * r == d)
  }

  lemma RoundsByHalves(n: nat, d: nat, x: real)
    requires d > 0
    requires Compares(n, d, x, 2 * (n / d)) && Compares(n, d, x, 2 * (n / d) + 1) && Compares(n, d, x, 2 * (n / d) + 2)
    ensures RoundReal(x) == Round(n, d)
  {
    ComparesByRemainder(n, d, x, 0);
    ComparesByRemainder(n, d, x, 1);
    ComparesByRemainder(n, d, x, 2);
    assert Placed(n, d, x);
    RoundsByPlace(n, d, x);
  }

  lemma RoundsByPlace(n: nat, d: nat, x: real)
    requires d > 0 && Placed(n, d, x)
    ensures RoundReal(x) == Round(n, d)
  {
    RoundBetween(x, n / d);
  }

  // Rounding the double is rounding the rational.
  lemma RoundsAlike(n: nat, d: nat, x: real)
    requires d > 0 && n < EXACT && Quotient(n, d, x)
    ensures RoundReal(x) == Round(n, d)
  {
    ComparesAlike(n, d, x, 2 * (n / d));
    ComparesAlike(n, d, x, 2 * (n / d) + 1);
    ComparesAlike(n, d, x, 2 * (n / d) + 2);
    RoundsByHalves(n, d, x);
  }

  // The program's own block size and resampled length.
  function FloatBlockSize(divide: (nat, nat) -> real, chunkFrames: nat, inputRate: nat, deviceRate: nat): int
    requires inputRate > 0
  {
    if deviceRate == inputRate then chunkFrames
    else Max(1, RoundReal(divide(chunkFrames * deviceRate, inputRate)))
  }

  function FloatResampled(divide: (nat, nat) -> real, frames: nat, rateIn: nat, rateOut: nat): int
    requires rateIn > 0
  {
    if rateIn == rateOut || frames == 0 then frames
    else Max(0, RoundReal(divide(frames * rateOut, rateIn)))
  }

  // With quotients in doubles too, and any sizes whose products a double holds
  // exactly, a full block comes back as one chunk in exactly the same cases.
  lemma FloatBlockIsOneChunk(divide: (nat, nat) -> real, c: nat, i: nat, d: nat)
    requires Divides(divide) && 0 < i <= d && 2 * (c * d) + 2 * i < 2 * EXACT
    ensures FloatBlockSize(divide, c, i, d) >= 0
    ensures FloatResampled(divide, FloatBlockSize(divide, c, i, d), d, i) == c <==> c >= 1 || d == i || 2 * i <= d
  {
    if i < d {
      RoundsAlike(c * d, i, divide(c * d, i));
      var b := BlockSize(c, i, d);
      assert FloatBlockSize(divide, c, i, d) == b;
      RoundNearest(c * d, i);
      assert b * i < EXACT;
      RoundsAlike(b * i, d, divide(b * i, d));
    }
    BlockIsOneChunk(c, i, d);
  }
}
