/** The per-block brightness control law of sonicrunway: the amplitude of one
    block of signed 16-bit audio samples, the target brightness it maps to,
    and the decay-limited update of the brightness carried from cycle to cycle.

    All arithmetic is exact (integers and Dafny's rational `real`); the rounding
    of numpy's float64 arithmetic is not reproduced. */
module ControlLaw {

  // ---------------------------------------------------------------------------
  // Configuration constants
  // ---------------------------------------------------------------------------

  /** Number of samples the capture stream delivers per read. */
  const CHUNK: nat := 24
  /** Fraction of the full brightness range that may be lost in one cycle. */
  const DECAY_RATE: real := 0.9
  const MIN_BRIGHTNESS: int := 0
  const MAX_BRIGHTNESS: int := 255
  /** Upper end of the amplitude range mapped onto the brightness range. */
  const FULL_SCALE: int := 32767
  /** The quiet threshold the program is configured with. */
  const DEFAULT_THRESHOLD: int := 0
  /** Brightness before the first block is processed. */
  const INITIAL_BRIGHTNESS: int := 0

  /** Python's `int()` on a float: truncation toward zero. */
  function Trunc(x: real): (n: int)
    ensures 0.0 <= x ==> n as real <= x < n as real + 1.0
    ensures x < 0.0 ==> n as real - 1.0 < x <= n as real
  {
    if 0.0 <= x then x.Floor else -((-x).Floor)
  }

  /** The largest fall of brightness in one cycle, `int(DECAY_RATE * MAX_BRIGHTNESS)`. */
  const DECAY_STEP: int := Trunc(DECAY_RATE * MAX_BRIGHTNESS as real)

  lemma DecayStepValue()
    ensures DECAY_STEP == 229
  {
    assert DECAY_RATE * MAX_BRIGHTNESS as real == 229.5;
  }

  // ---------------------------------------------------------------------------
  // Amplitude
  // ---------------------------------------------------------------------------

  /** A signed 16-bit sample. */
  type Sample = x: int | -32768 <= x <= 32767

  /** Absolute value in 16-bit two's complement: the magnitude of -32768 does
      not fit and wraps back to -32768. */
  function Abs16(x: Sample): (r: Sample)
    ensures x != -32768 ==> 0 <= r && (r == x || r == -x)
    ensures x == -32768 ==> r == -32768
  {
    if x == -32768 then -32768 else if x < 0 then -x else x
  }

  predicate NoMinSample(s: seq<Sample>)
  {
    forall i :: 0 <= i < |s| ==> s[i] != -32768
  }

  /** Sum of the wrapped magnitudes of the samples: between -32768 and 32767
      per sample, and never negative without a -32768 sample. */
  function SumAbs16(s: seq<Sample>): (sum: int)
    ensures -32768 * |s| <= sum <= 32767 * |s|
    ensures NoMinSample(s) ==> 0 <= sum
  {
    if s == [] then 0
    else
      assert NoMinSample(s) ==> NoMinSample(s[1..]) by {
        if NoMinSample(s) {
          forall i | 0 <= i < |s[1..]| ensures s[1..][i] != -32768 {
            assert s[1..][i] == s[i + 1];
          }
        }
      }
      Abs16(s[0]) + SumAbs16(s[1..])
  }

  /** Mean of the wrapped magnitudes of one block. A block holding -32768 can
      have a negative amplitude; one without it lies in [0, FULL_SCALE]. */
  function Amplitude(block: seq<Sample>): (a: real)
    requires |block| > 0
    ensures -32768.0 <= a <= FULL_SCALE as real
    ensures NoMinSample(block) ==> 0.0 <= a
    ensures a * |block| as real == SumAbs16(block) as real
  {
    AmplitudeBounds(SumAbs16(block), |block|);
    SumAbs16(block) as real / |block| as real
  }

  lemma AmplitudeBounds(sum: int, n: int)
    requires n > 0
    requires -32768 * n <= sum <= 32767 * n
    ensures -32768.0 <= sum as real / n as real <= 32767.0
    ensures 0 <= sum ==> 0.0 <= sum as real / n as real
  {
    var q, m := sum as real / n as real, n as real;
    assert q * m == sum as real;
    ProductSign(q - 32767.0, m);
    ProductSign(q + 32768.0, m);
    ProductSign(q, m);
  }

  /** Multiplying by a positive number keeps the sign. */
  lemma ProductSign(x: real, y: real)
    requires 0.0 < y
    ensures x < 0.0 ==> x * y < 0.0
    ensures 0.0 < x ==> 0.0 < x * y
  {
  }

  lemma {:induction false} SumAbs16Silent(s: seq<Sample>)
    requires forall i :: 0 <= i < |s| ==> s[i] == 0
    ensures SumAbs16(s) == 0
  {
    if s != [] {
      assert forall i :: 0 <= i < |s[1..]| ==> s[1..][i] == s[i + 1];
      SumAbs16Silent(s[1..]);
    }
  }

  /** A block of -32768 samples has amplitude -32768: the wrapped magnitude
      makes the mean negative. */
  lemma WrappedBlockAmplitude(block: seq<Sample>)
    requires |block| > 0
    requires forall i :: 0 <= i < |block| ==> block[i] == -32768
    ensures Amplitude(block) == -32768.0
  {
    WrappedSum(block);
    var a, n := Amplitude(block), |block| as real;
    assert a * n == -32768.0 * n;
    ProductSign(a + 32768.0, n);
  }

  lemma {:induction false} WrappedSum(s: seq<Sample>)
    requires forall i :: 0 <= i < |s| ==> s[i] == -32768
    ensures SumAbs16(s) == -32768 * |s|
  {
    if s != [] {
      assert forall i :: 0 <= i < |s[1..]| ==> s[1..][i] == s[i + 1];
      WrappedSum(s[1..]);
    }
  }

  // ---------------------------------------------------------------------------
  // Target brightness
  // ---------------------------------------------------------------------------

  /** One-segment linear interpolation of `a` from [threshold, FULL_SCALE] onto
      [MIN_BRIGHTNESS, MAX_BRIGHTNESS], held at the end values outside the
      input range (numpy's `interp` with two points). */
  function Interp(a: real, threshold: int): (r: real)
    requires threshold < FULL_SCALE
    ensures MIN_BRIGHTNESS as real <= r <= MAX_BRIGHTNESS as real
    ensures a <= threshold as real ==> r == MIN_BRIGHTNESS as real
    ensures FULL_SCALE as real <= a ==> r == MAX_BRIGHTNESS as real
  {
    if a <= threshold as real then MIN_BRIGHTNESS as real
    else if FULL_SCALE as real <= a then MAX_BRIGHTNESS as real
    else
      InteriorBounds(a, threshold);
      MIN_BRIGHTNESS as real + Slope(threshold) * (a - threshold as real)
  }

  /** Brightness gained per unit of amplitude inside the interpolation range. */
  function Slope(threshold: int): (k: real)
    requires threshold < FULL_SCALE
    ensures 0.0 < k
    ensures k * (FULL_SCALE - threshold) as real == (MAX_BRIGHTNESS - MIN_BRIGHTNESS) as real
  {
    (MAX_BRIGHTNESS - MIN_BRIGHTNESS) as real / (FULL_SCALE - threshold) as real
  }

  lemma InteriorBounds(a: real, threshold: int)
    requires threshold < FULL_SCALE
    requires threshold as real < a < FULL_SCALE as real
    ensures 0.0 < Slope(threshold) * (a - threshold as real) < (MAX_BRIGHTNESS - MIN_BRIGHTNESS) as real
  {
    var k, d := Slope(threshold), a - threshold as real;
    assert k * d < k * (FULL_SCALE - threshold) as real;
  }

  /** The target brightness for amplitude `a`: the interpolated value truncated
      by `int()`, overridden to 0 when the amplitude is below the threshold. */
  function Target(a: real, threshold: int): (t: int)
    requires threshold < FULL_SCALE
    ensures MIN_BRIGHTNESS <= t <= MAX_BRIGHTNESS
    ensures a < threshold as real ==> t == 0
    ensures FULL_SCALE as real <= a ==> t == MAX_BRIGHTNESS
    ensures threshold as real <= a ==> t as real <= Interp(a, threshold) < t as real + 1.0
  {
    var interpolated := Trunc(Interp(a, threshold));
    if a < threshold as real then 0 else interpolated
  }

  /** The quiet override never changes the result: the clamped interpolation
      already yields MIN_BRIGHTNESS, which is 0, below the threshold. */
  lemma QuietOverrideRedundant(a: real, threshold: int)
    requires threshold < FULL_SCALE
    requires a < threshold as real
    ensures Trunc(Interp(a, threshold)) == Target(a, threshold) == 0
  {
  }

  lemma InterpMonotone(a1: real, a2: real, threshold: int)
    requires threshold < FULL_SCALE
    requires a1 <= a2
    ensures Interp(a1, threshold) <= Interp(a2, threshold)
  {
    if threshold as real < a1 && a2 < FULL_SCALE as real {
      var k := Slope(threshold);
      assert k * (a1 - threshold as real) <= k * (a2 - threshold as real);
      assert Interp(a1, threshold) == MIN_BRIGHTNESS as real + k * (a1 - threshold as real);
      assert Interp(a2, threshold) == MIN_BRIGHTNESS as real + k * (a2 - threshold as real);
    }
  }

  /** A louder block never asks for a dimmer strip. */
  lemma TargetMonotone(a1: real, a2: real, threshold: int)
    requires threshold < FULL_SCALE
    requires a1 <= a2
    ensures Target(a1, threshold) <= Target(a2, threshold)
  {
    if threshold as real <= a1 {
      InterpMonotone(a1, a2, threshold);
    }
  }

  /** Half-scale amplitude with the default threshold asks for brightness 124. */
  lemma TargetAtHalfScale()
    ensures Target(16000.0, DEFAULT_THRESHOLD) == 124
  {
    var k := Slope(DEFAULT_THRESHOLD);
    assert k * 32767.0 == 255.0;
    assert Interp(16000.0, DEFAULT_THRESHOLD) == k * 16000.0;
    assert 124.0 <= k * 16000.0 < 125.0 by {
      assert 124.0 * 32767.0 <= 16000.0 * 255.0 < 125.0 * 32767.0;
    }
  }

  /** A silent block asks for a dark strip for every non-negative threshold. */
  lemma SilentBlockTarget(block: seq<Sample>, threshold: int)
    requires |block| > 0
    requires forall i :: 0 <= i < |block| ==> block[i] == 0
    requires 0 <= threshold < FULL_SCALE
    ensures Target(Amplitude(block), threshold) == 0
  {
    SumAbs16Silent(block);
    assert Amplitude(block) * |block| as real == 0.0;
  }

  /** Whatever the wrap does to the amplitude, the target stays in range and a
      block of -32768 samples asks for a dark strip for every threshold from
      -32768 up. */
  lemma WrappedBlockTarget(block: seq<Sample>, threshold: int)
    requires |block| > 0
    requires forall i :: 0 <= i < |block| ==> block[i] == -32768
    requires -32768 <= threshold < FULL_SCALE
    ensures Target(Amplitude(block), threshold) == 0
  {
    WrappedBlockAmplitude(block);
  }

  // ---------------------------------------------------------------------------
  // Decay-limited update
  // ---------------------------------------------------------------------------

  /** The new brightness: the target, unless that is below the decay floor
      `prev - DECAY_STEP`, never below 0. It is the least value that is at
      least 0, at least the decay floor and at least the target. */
  function Step(prev: int, target: int): (b: int)
    ensures 0 <= b && target <= b && prev - DECAY_STEP <= b
    ensures b == 0 || b == target || b == prev - DECAY_STEP
  {
    var floor := prev - DECAY_STEP;
    var inner := if floor < target then target else floor;
    if inner < 0 then 0 else inner
  }

  /** Brightness in range stays in range. */
  lemma StepInRange(prev: int, target: int)
    requires MIN_BRIGHTNESS <= prev <= MAX_BRIGHTNESS
    requires MIN_BRIGHTNESS <= target <= MAX_BRIGHTNESS
    ensures MIN_BRIGHTNESS <= Step(prev, target) <= MAX_BRIGHTNESS
  {
  }

  /** A target at or above the decay floor is taken over at once. */
  lemma InstantRise(prev: int, target: int)
    requires 0 <= target
    requires prev - DECAY_STEP <= target
    ensures Step(prev, target) == target
  {
  }

  /** Brightness falls by at most DECAY_STEP in one cycle and rises only as far
      as the target. */
  lemma BoundedChange(prev: int, target: int)
    requires 0 <= prev
    ensures prev - Step(prev, target) <= 229
    ensures Step(prev, target) <= if prev < target then target else prev
  {
    DecayStepValue();
  }

  /** One cycle with target 0 leaves any in-range brightness at most 26, a
      second one leaves 0. */
  lemma TwoQuietCycles(prev: int)
    requires prev <= MAX_BRIGHTNESS
    ensures Step(prev, 0) <= MAX_BRIGHTNESS - 229
    ensures Step(Step(prev, 0), 0) == 0
  {
    DecayStepValue();
  }

  lemma StepExamples()
    ensures Step(200, 250) == 250
    ensures Step(200, 0) == 0
  {
    DecayStepValue();
  }

  /** The whole cycle for one block: amplitude, target, update. */
  function Cycle(prev: int, block: seq<Sample>, threshold: int): (b: int)
    requires |block| > 0
    requires threshold < FULL_SCALE
    ensures MIN_BRIGHTNESS <= prev <= MAX_BRIGHTNESS ==> MIN_BRIGHTNESS <= b <= MAX_BRIGHTNESS
  {
    Step(prev, Target(Amplitude(block), threshold))
  }
}
