/** Sample blocks and control terminals shared by the unit generators. */
module Signals {

  /** A control-rate input terminal: unpatched, or patched and holding the
      last value it received (`getLastValues()[0]`). */
  datatype ControlInput = Unpatched | Patched(lastValue: real)

  /** Clamping into [0, 1]: `min(1, max(0, x))` in Balance, the chain of
      two caps on the table index in WaveShaper. */
  function Clamp01(x: real): (r: real)
    ensures 0.0 <= r <= 1.0
    ensures 0.0 <= x <= 1.0 ==> r == x
    ensures x <= 0.0 <==> r == 0.0
    ensures 1.0 <= x <==> r == 1.0
  {
    if 1.0 < x then 1.0 else if x < 0.0 then 0.0 else x
  }

  /** The value a control terminal leaves in the field it drives: the
      terminal's last value when patched, the stored value otherwise. */
  function Latched(stored: real, input: ControlInput): (r: real)
    ensures input.Unpatched? ==> r == stored
    ensures input.Patched? ==> r == input.lastValue
  {
    match input
    case Unpatched => stored
    case Patched(v) => v
  }

  /** The stored value after a run of frames, each latching its terminal's
      state in turn. */
  function LatchedRun(stored: real, inputs: seq<ControlInput>): real
    decreases |inputs|
  {
    if inputs == [] then stored else LatchedRun(Latched(stored, inputs[0]), inputs[1..])
  }

  /** The last value a patched terminal delivered in `inputs`, or `stored`
      when it was never patched. */
  function LastPatched(stored: real, inputs: seq<ControlInput>): real
    decreases |inputs|
  {
    if inputs == [] then stored
    else if inputs[|inputs| - 1].Patched? then inputs[|inputs| - 1].lastValue
    else LastPatched(stored, inputs[..|inputs| - 1])
  }

  /** Latching settles: an unpatched frame keeps what the last one left, and
      latching the same terminal state twice changes nothing more. A patched
      terminal forgets the stored value. */
  lemma LatchSettles(stored: real, other: real, input: ControlInput)
    ensures Latched(Latched(stored, input), Unpatched) == Latched(stored, input)
    ensures Latched(Latched(stored, input), input) == Latched(stored, input)
    ensures input.Patched? ==> Latched(stored, input) == Latched(other, input)
  {
  }

  /** One more frame at the end of a run latches onto the run's result. */
  lemma {:induction false} LatchedRunSnoc(stored: real, inputs: seq<ControlInput>, last: ControlInput)
    ensures LatchedRun(stored, inputs + [last]) == Latched(LatchedRun(stored, inputs), last)
    decreases |inputs|
  {
    if inputs == [] {
      assert [] + [last] == [last];
    } else {
      assert (inputs + [last])[1..] == inputs[1..] + [last];
      LatchedRunSnoc(Latched(stored, inputs[0]), inputs[1..], last);
    }
  }

  /** Over any run of frames the field holds the last value a patched
      terminal delivered, or its initial value when none did. */
  lemma {:induction false} LatchedRunKeepsLastPatched(stored: real, inputs: seq<ControlInput>)
    ensures LatchedRun(stored, inputs) == LastPatched(stored, inputs)
    decreases |inputs|
  {
    if inputs != [] {
      var init, last := inputs[..|inputs| - 1], inputs[|inputs| - 1];
      assert inputs == init + [last];
      LatchedRunSnoc(stored, init, last);
      LatchedRunKeepsLastPatched(stored, init);
    }
  }

  /** Every sample of `xs` multiplied by `gain`. */
  function Scaled(gain: real, xs: seq<real>): seq<real> {
    seq(|xs|, i requires 0 <= i < |xs| => gain * xs[i])
  }

  /** The loop `channels[i] = gain * audio[i]` of the generators' uGenerate. */
  method Amplify(channels: array<real>, gain: real, audio: seq<real>)
    requires channels.Length <= |audio|
    modifies channels
    ensures channels[..] == Scaled(gain, audio[..channels.Length])
  {
    var i := 0;
    while i < channels.Length
      invariant 0 <= i <= channels.Length
      invariant forall k :: 0 <= k < i ==> channels[k] == gain * audio[k]
    {
      channels[i] := gain * audio[i];
      i := i + 1;
    }
    assert forall k :: 0 <= k < channels.Length ==> channels[..][k] == Scaled(gain, audio[..channels.Length])[k];
  }
}
