/** The stereo balance control of src/ddf/minim/ugens/Balance.java.

    Channel i of the output is channel i of the input scaled by
    `min(1, max(0, 1 + (-1)^i * balance))`: the even channels (left) are
    scaled by `1 + balance`, the odd channels (right) by `1 - balance`, both
    clamped into [0, 1]. */
module BalanceControl {
  import opened Signals

  /** `Math.pow(-1, i)` for a channel index. */
  function Sign(i: nat): (r: real)
    ensures r == 1.0 || r == -1.0
    ensures (r == 1.0) == (i % 2 == 0)
  {
    if i % 2 == 0 then 1.0 else -1.0
  }

  /** `x` to the power `n`, by repeated multiplication. */
  function Power(x: real, n: nat): real
    decreases n
  {
    if n == 0 then 1.0 else x * Power(x, n - 1)
  }

  /** The parity test agrees with `(-1)^i`; it starts at 1 and alternates. */
  lemma {:induction false} SignIsPower(i: nat)
    ensures Sign(i) == Power(-1.0, i)
    ensures Sign(0) == 1.0 && Sign(i + 1) == -Sign(i)
    decreases i
  {
    if i > 0 {
      SignIsPower(i - 1);
      assert (i - 1) % 2 == 0 <==> i % 2 != 0;
    }
  }

  /** The gain applied to channel `i` at balance `b`. */
  function ChannelGain(i: nat, b: real): (r: real)
    ensures 0.0 <= r <= 1.0
    ensures r == 0.0 <==> (i % 2 == 0 && b <= -1.0) || (i % 2 == 1 && 1.0 <= b)
    ensures r == 1.0 <==> (i % 2 == 0 && 0.0 <= b) || (i % 2 == 1 && b <= 0.0)
  {
    Clamp01(1.0 + Sign(i) * b)
  }

  /** Output sample `i` for input sample `x` at balance `b`. */
  function BalancedSample(b: real, i: nat, x: real): real {
    x * ChannelGain(i, b)
  }

  /** The output frame for input frame `audio` at balance `b`. */
  function Balanced(b: real, audio: seq<real>): seq<real> {
    seq(|audio|, i requires 0 <= i < |audio| => BalancedSample(b, i, audio[i]))
  }

  /** A balance of zero leaves the audio unchanged. */
  lemma ZeroBalanceIsIdentity(audio: seq<real>)
    ensures Balanced(0.0, audio) == audio
  {
  }

  /** A non-negative balance keeps the even (left) channels and attenuates the
      odd (right) channels by `1 - b`, down to silence at `b >= 1`. */
  lemma PositiveBalanceAttenuatesOddChannels(b: real, audio: seq<real>, i: nat)
    requires 0.0 <= b && i < |audio|
    ensures i % 2 == 0 ==> Balanced(b, audio)[i] == audio[i]
    ensures i % 2 == 1 && b <= 1.0 ==> Balanced(b, audio)[i] == audio[i] * (1.0 - b)
    ensures i % 2 == 1 && 1.0 <= b ==> Balanced(b, audio)[i] == 0.0
  {
  }

  /** A non-positive balance keeps the odd (right) channels and attenuates the
      even (left) channels by `1 + b`, down to silence at `b <= -1`. */
  lemma NegativeBalanceAttenuatesEvenChannels(b: real, audio: seq<real>, i: nat)
    requires b <= 0.0 && i < |audio|
    ensures i % 2 == 1 ==> Balanced(b, audio)[i] == audio[i]
    ensures i % 2 == 0 && -1.0 <= b ==> Balanced(b, audio)[i] == audio[i] * (1.0 + b)
    ensures i % 2 == 0 && b <= -1.0 ==> Balanced(b, audio)[i] == 0.0
  {
  }

  /** Negating the balance swaps the roles of a channel pair. */
  lemma BalanceIsSymmetric(b: real, i: nat)
    ensures ChannelGain(2 * i, -b) == ChannelGain(2 * i + 1, b)
    ensures ChannelGain(2 * i + 1, -b) == ChannelGain(2 * i, b)
  {
  }

  /** The balance never amplifies: every output sample is a fraction of the
      input sample with the same sign. */
  lemma BalanceOnlyAttenuates(b: real, audio: seq<real>, i: nat)
    requires i < |audio|
    ensures 0.0 <= audio[i] ==> 0.0 <= Balanced(b, audio)[i] <= audio[i]
    ensures audio[i] <= 0.0 ==> audio[i] <= Balanced(b, audio)[i] <= 0.0
  {
    var g := ChannelGain(i, b);
    assert Balanced(b, audio)[i] == audio[i] * g;
    if 0.0 <= audio[i] {
      assert audio[i] * g <= audio[i] * 1.0;
    } else {
      assert audio[i] * 1.0 <= audio[i] * g;
    }
  }

  /** The balance unit generator; `uGenerate` updates `balanceVal` in place. */
  class Balance {
    var balanceVal: real

    /** A balance of zero: no change to the audio. */
    constructor ()
      ensures balanceVal == 0.0
    {
      balanceVal := 0.0;
    }

    constructor WithValue(balanceVal: real)
      ensures this.balanceVal == balanceVal
    {
      this.balanceVal := balanceVal;
    }

    method SetBalance(balanceVal: real)
      modifies this
      ensures this.balanceVal == balanceVal
    {
      this.balanceVal := balanceVal;
    }

    /** One sample frame: `audio` holds the audio input's last values, one per
        channel. A patched balance terminal is read inside the channel loop,
        so with no channels the stored balance is kept. */
    method UGenerate(channels: array<real>, audio: seq<real>, balance: ControlInput)
      requires channels.Length <= |audio|
      modifies this, channels
      ensures balanceVal == if channels.Length == 0 then old(balanceVal) else Latched(old(balanceVal), balance)
      ensures channels[..] == Balanced(balanceVal, audio[..channels.Length])
    {
      var i := 0;
      while i < channels.Length
        invariant 0 <= i <= channels.Length
        invariant balanceVal == if i == 0 then old(balanceVal) else Latched(old(balanceVal), balance)
        invariant forall k :: 0 <= k < i ==> channels[k] == BalancedSample(balanceVal, k, audio[k])
      {
        var tmp := audio[i];
        ghost var before := balanceVal;
        if balance.Patched? {
          balanceVal := balance.lastValue;
        }
        assert i > 0 ==> balanceVal == before;
        channels[i] := tmp * Clamp01(1.0 + Sign(i) * balanceVal);
        assert channels[i] == BalancedSample(balanceVal, i, audio[i]);
        i := i + 1;
      }
      assert forall k :: 0 <= k < channels.Length ==>
        channels[..][k] == Balanced(balanceVal, audio[..channels.Length])[k];
    }
  }
}
