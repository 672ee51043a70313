# sonicrunway brightness control law, in Dafny

sonicrunway reads blocks of signed 16-bit audio samples and sets the
brightness of a WLED strip once per block. This project models the control
law that turns each block into a brightness, and the loop that carries the
brightness from block to block:

- **Amplitude**: the mean of the 16-bit absolute sample values. The absolute
  value of -32768 wraps back to -32768, as numpy's `abs` on `int16` does.
- **Target**: the amplitude interpolated linearly from `[threshold, 32767]`
  onto `[MIN_BRIGHTNESS, MAX_BRIGHTNESS]` = `[0, 255]`, clamped at both ends,
  truncated by `int()`, and forced to 0 when the amplitude is below the
  threshold.
- **Step**: `max(0, max(prev - DECAY_STEP, target))` with
  `DECAY_STEP = int(DECAY_RATE * MAX_BRIGHTNESS) = 229`.
- **Run**: starting from brightness 0, one step per block; the values handed
  to the LED controller come back as a sequence.

`control_law.dfy` (module `ControlLaw`) holds the constants and the per-block
functions with their lemmas. `brightness_loop.dfy` (module `BrightnessLoop`)
holds the loop as a method, the function `Trace` that specifies it, and the
lemmas about the sequence of values sent.

Arithmetic is exact: amplitudes are Dafny `real`s (rationals), so
`Amplitude` is `sum / n` and the interpolation is computed without rounding.
The quiet threshold is a parameter. The program fixes it at 0
(`DEFAULT_THRESHOLD`). The interpolation needs `threshold < 32767`, because
numpy's `interp` expects increasing sample points.

- A block holding -32768 has a smaller mean, because `np.abs` wraps on
  int16. The mean can be negative: a block of only -32768 samples has mean
  -32768 (`WrappedBlockAmplitude`). A mean below the threshold gives target 0
  (`Target`), and a block of only -32768 samples gives target 0 at every
  threshold from -32768 up (`WrappedBlockTarget`). Every target lies in
  [0, 255] whatever the block (`Target`), so brightness stays in range.
- `stream.read(CHUNK, exception_on_overflow=False)` is a blocking read that
  returns `CHUNK` samples, so every block has exactly `CHUNK` samples
  (`WellFormed`).

## Model

| member | source | states |
|---|---|---|
| `ControlLaw.Trunc` | sonicrunway.py:81 | `int()` truncates toward zero: for non-negative input the result is the floor, for negative input the ceiling |
| `ControlLaw.DecayStepValue` | sonicrunway.py:29-31 | the decay step `int(DECAY_RATE * MAX_BRIGHTNESS)` is 229 |
| `ControlLaw.Abs16` | sonicrunway.py:80 | the 16-bit absolute value is non-negative and equals x or -x, except at -32768, which maps to -32768 |
| `ControlLaw.SumAbs16` | sonicrunway.py:80 | the sum of wrapped magnitudes of n samples lies in [-32768 n, 32767 n], and is non-negative when no sample is -32768 |
| `ControlLaw.SumAbs16Silent` | sonicrunway.py:80 | the magnitudes of an all-zero block sum to 0 |
| `ControlLaw.WrappedSum` | sonicrunway.py:80 | the magnitudes of n samples of -32768 sum to -32768 n |
| `ControlLaw.Amplitude` | sonicrunway.py:79-80 | the amplitude times the block length is the sum of the wrapped magnitudes; it lies in [-32768, 32767], and in [0, 32767] when no sample is -32768 |
| `ControlLaw.WrappedBlockAmplitude` | sonicrunway.py:80 | a block of -32768 samples has amplitude -32768 |
| `ControlLaw.Interp` | sonicrunway.py:81 | the interpolation lies in [0, 255]; it is 0 at or below the threshold and 255 at or above 32767 |
| `ControlLaw.Slope` | sonicrunway.py:81 | the slope is positive and maps the width of the input range onto the width of the output range |
| `ControlLaw.InteriorBounds` | sonicrunway.py:81 | strictly inside the input range the interpolation lies strictly between 0 and 255 |
| `ControlLaw.Target` | sonicrunway.py:81-83 | the target lies in [0, 255]; it is 0 below the threshold and 255 at or above 32767; at or above the threshold it is the floor of the interpolated value |
| `ControlLaw.QuietOverrideRedundant` | sonicrunway.py:81-83 | below the threshold the interpolation alone already truncates to 0, so the override does not change the target |
| `ControlLaw.InterpMonotone` | sonicrunway.py:81 | the interpolation is non-decreasing in the amplitude |
| `ControlLaw.TargetMonotone` | sonicrunway.py:81-83 | the target is non-decreasing in the amplitude |
| `ControlLaw.TargetAtHalfScale` | sonicrunway.py:81 | amplitude 16000 with threshold 0 gives target 124 |
| `ControlLaw.SilentBlockTarget` | sonicrunway.py:80-83 | an all-zero block gives target 0 for every non-negative threshold |
| `ControlLaw.WrappedBlockTarget` | sonicrunway.py:80-83 | a block of -32768 samples gives target 0 for every threshold from -32768 up |
| `ControlLaw.Step` | sonicrunway.py:84 | the new brightness is at least 0, at least the target and at least prev - DECAY_STEP, and is one of those three values, i.e. it is their maximum |
| `ControlLaw.StepInRange` | sonicrunway.py:84 | a previous brightness and a target in [0, 255] give a new brightness in [0, 255] |
| `ControlLaw.InstantRise` | sonicrunway.py:84 | a non-negative target at or above prev - DECAY_STEP becomes the new brightness at once |
| `ControlLaw.BoundedChange` | sonicrunway.py:84 | brightness falls by at most 229 per cycle, and never ends above both the previous brightness and the target |
| `ControlLaw.TwoQuietCycles` | sonicrunway.py:84 | from any brightness up to 255, one cycle with target 0 leaves at most 26 and a second leaves 0 |
| `ControlLaw.StepExamples` | sonicrunway.py:84 | previous 200 with target 250 gives 250; previous 200 with target 0 gives 0 |
| `ControlLaw.Cycle` | sonicrunway.py:80-84 | one whole cycle maps an in-range brightness to an in-range brightness |
| `BrightnessLoop.WellFormed` | sonicrunway.py:79 | every block delivered by the CHUNK-frame read is non-empty, so its mean is defined |
| `BrightnessLoop.Trace` | sonicrunway.py:74-85 | one value is sent per block |
| `BrightnessLoop.Run` | sonicrunway.py:74-85 | the loop starting from brightness 0 sends exactly the values of `Trace`, each in [0, 255] |
| `BrightnessLoop.TracePrefix` | sonicrunway.py:78-85 | the values sent for the first k blocks are the first k values sent for all blocks |
| `BrightnessLoop.TraceRecurrence` | sonicrunway.py:74-84 | the i-th value sent is the step from the previous value (0 before the first block) with the i-th block's target |
| `BrightnessLoop.TraceInRange` | sonicrunway.py:74-84 | every value sent lies in [0, 255] |
| `BrightnessLoop.TraceBoundedChange` | sonicrunway.py:78-84 | between consecutive sends brightness falls by at most 229, and a rise lands exactly on the new block's target |
| `BrightnessLoop.TraceTwoQuietBlocks` | sonicrunway.py:74-84 | two consecutive blocks with target 0 make the second value sent 0 |

## Left out

- Device listing and selection, and opening, reading, stopping and closing the
  PyAudio stream (sonicrunway.py:36-42, 63-72, 79, 92-94): audio I/O. A block
  is given as a sequence of samples instead.
- `set_led_brightness` (sonicrunway.py:44-56): an HTTP POST with its errors
  swallowed. The loop returns the values it would send, in order.
- The operator prompts and the `time.sleep` pacing (sonicrunway.py:60-61, 88):
  console I/O and timing.
- The `KeyboardInterrupt` and `finally` cleanup (sonicrunway.py:89-94): signal
  handling and resource release.
- The debug prints (sonicrunway.py:53-54, 86-87).
- Float rounding: `np.mean`, `np.interp` and `DECAY_RATE * MAX_BRIGHTNESS` are
  float64 in the program and exact rationals here. Results that float rounding
  would push across an integer boundary are not reproduced.
- The endless `while True`: the model runs over a finite sequence of blocks.
- Amplitude: an empty block, whose mean is NaN, is excluded by the
  precondition; the blocking read always delivers `CHUNK` samples.
