/** The driver loop of sonicrunway: starting from brightness 0, each captured
    block is turned into a new brightness by the control law, and that value
    is sent to the LED controller. The model runs over a finite prefix of the
    block stream and returns the brightness values sent, in order. */
module BrightnessLoop {
  import opened ControlLaw

  /** Every block holds the CHUNK samples one blocking read delivers. */
  predicate WellFormed(blocks: seq<seq<Sample>>)
    ensures WellFormed(blocks) ==> forall i :: 0 <= i < |blocks| ==> 0 < |blocks[i]|
  {
    forall i :: 0 <= i < |blocks| ==> |blocks[i]| == CHUNK
  }

  /** The brightness held after the values in `sent` have been sent. */
  function Current(sent: seq<int>): int
  {
    if sent == [] then INITIAL_BRIGHTNESS else sent[|sent| - 1]
  }

  /** The brightness values sent for `blocks`, one per block. */
  function Trace(blocks: seq<seq<Sample>>, threshold: int): (sent: seq<int>)
    requires WellFormed(blocks)
    requires threshold < FULL_SCALE
    ensures |sent| == |blocks|
  {
    if blocks == [] then []
    else
      var prefix := Trace(blocks[..|blocks| - 1], threshold);
      prefix + [Cycle(Current(prefix), blocks[|blocks| - 1], threshold)]
  }

  /** The loop of `main`: one read, one update and one send per iteration. */
  method Run(blocks: seq<seq<Sample>>, threshold: int) returns (sent: seq<int>)
    requires WellFormed(blocks)
    requires threshold < FULL_SCALE
    ensures sent == Trace(blocks, threshold)
    ensures forall i :: 0 <= i < |sent| ==> MIN_BRIGHTNESS <= sent[i] <= MAX_BRIGHTNESS
  {
    var current := INITIAL_BRIGHTNESS;
    sent := [];
    var i := 0;
    while i < |blocks|
      invariant 0 <= i <= |blocks|
      invariant sent == Trace(blocks[..i], threshold)
      invariant current == Current(sent)
      invariant MIN_BRIGHTNESS <= current <= MAX_BRIGHTNESS
      invariant forall j :: 0 <= j < |sent| ==> MIN_BRIGHTNESS <= sent[j] <= MAX_BRIGHTNESS
    {
      var amplitude := Amplitude(blocks[i]);
      var target := Target(amplitude, threshold);
      current := Step(current, target);
      sent := sent + [current];
      assert blocks[..i + 1][..i] == blocks[..i];
      i := i + 1;
    }
    assert blocks[..|blocks|] == blocks;
  }

  /** The trace of a prefix of the blocks is the prefix of the trace. */
  lemma {:induction false} TracePrefix(blocks: seq<seq<Sample>>, threshold: int, k: nat)
    requires WellFormed(blocks)
    requires threshold < FULL_SCALE
    requires k <= |blocks|
    ensures Trace(blocks[..k], threshold) == Trace(blocks, threshold)[..k]
    decreases |blocks|
  {
    if k < |blocks| {
      var init := blocks[..|blocks| - 1];
      assert init[..k] == blocks[..k];
      TracePrefix(init, threshold, k);
    } else {
      assert blocks[..k] == blocks;
    }
  }

  /** Each value sent is the control law applied to the previous value (0 for
      the first block) and to that block. */
  lemma TraceRecurrence(blocks: seq<seq<Sample>>, threshold: int, i: nat)
    requires WellFormed(blocks)
    requires threshold < FULL_SCALE
    requires i < |blocks|
    ensures Trace(blocks, threshold)[i]
         == Step(if i == 0 then INITIAL_BRIGHTNESS else Trace(blocks, threshold)[i - 1],
                 Target(Amplitude(blocks[i]), threshold))
  {
    var sent := Trace(blocks, threshold);
    TracePrefix(blocks, threshold, i + 1);
    TracePrefix(blocks, threshold, i);
    var front := blocks[..i + 1];
    assert front[..|front| - 1] == blocks[..i];
    assert front[|front| - 1] == blocks[i];
    assert Trace(front, threshold) == sent[..i + 1];
    assert Trace(blocks[..i], threshold) == sent[..i];
  }

  /** Range invariant: every value sent lies in [MIN_BRIGHTNESS, MAX_BRIGHTNESS]. */
  lemma {:induction false} TraceInRange(blocks: seq<seq<Sample>>, threshold: int)
    requires WellFormed(blocks)
    requires threshold < FULL_SCALE
    ensures forall i :: 0 <= i < |blocks| ==> MIN_BRIGHTNESS <= Trace(blocks, threshold)[i] <= MAX_BRIGHTNESS
  {
    if blocks != [] {
      var init := blocks[..|blocks| - 1];
      TraceInRange(init, threshold);
    }
  }

  /** Between two consecutive sends the brightness falls by at most 229 and
      rises only as far as the new block's target. */
  lemma TraceBoundedChange(blocks: seq<seq<Sample>>, threshold: int, i: nat)
    requires WellFormed(blocks)
    requires threshold < FULL_SCALE
    requires 0 < i < |blocks|
    ensures Trace(blocks, threshold)[i - 1] - Trace(blocks, threshold)[i] <= 229
    ensures Trace(blocks, threshold)[i] <= Trace(blocks, threshold)[i - 1]
         || Trace(blocks, threshold)[i] == Target(Amplitude(blocks[i]), threshold)
  {
    TraceRecurrence(blocks, threshold, i);
    TraceInRange(blocks, threshold);
    BoundedChange(Trace(blocks, threshold)[i - 1], Target(Amplitude(blocks[i]), threshold));
  }

  /** Two consecutive blocks with target 0 turn the strip off. */
  lemma TraceTwoQuietBlocks(blocks: seq<seq<Sample>>, threshold: int, i: nat)
    requires WellFormed(blocks)
    requires threshold < FULL_SCALE
    requires 0 < i < |blocks|
    requires Target(Amplitude(blocks[i - 1]), threshold) == 0
    requires Target(Amplitude(blocks[i]), threshold) == 0
    ensures Trace(blocks, threshold)[i] == 0
  {
    var sent := Trace(blocks, threshold);
    TraceRecurrence(blocks, threshold, i - 1);
    TraceRecurrence(blocks, threshold, i);
    var before := if i == 1 then INITIAL_BRIGHTNESS else sent[i - 2];
    if i > 1 {
      TraceInRange(blocks, threshold);
    }
    TwoQuietCycles(before);
  }
}
