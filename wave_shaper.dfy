/** The waveshaping generator of src/ddf/minim/ugens/WaveShaper.java.

    Each input sample, scaled by the map amplitude, is turned into an index
    into the mapping wavetable: [-1, 1] maps onto [0, 1], and indices outside
    that range are either clamped or wrapped. The output is the table's value
    at the index times the output amplitude. */
module WaveShaping {
  import opened JavaNumerics
  import opened Signals

  /** `Wavetable.value`: the shape sampled at an index in [0, 1]. */
  type Wavetable = real -> real

  /** The index before range handling: `mapAmp * x / 2 + 0.5`. */
  function RawIndex(mapAmp: real, x: real): real {
    mapAmp * x / 2.0 + 0.5
  }

  /** Wrapping: the remainder of division by one, moved up by one when negative. */
  function Wrapped(x: real): (r: real)
    ensures 0.0 <= r < 1.0
  {
    var m := RemainderOfOne(x);
    if m < 0.0 then m + 1.0 else m
  }

  /** The index looked up for input sample `x`. */
  function ShapeIndex(wrapMap: bool, mapAmp: real, x: real): (r: real)
    ensures 0.0 <= r <= 1.0
    ensures wrapMap ==> r < 1.0
    ensures !wrapMap && 0.0 <= RawIndex(mapAmp, x) <= 1.0 ==> r == RawIndex(mapAmp, x)
  {
    var raw := RawIndex(mapAmp, x);
    if wrapMap then Wrapped(raw) else Clamp01(raw)
  }

  /** The output sample for input sample `x`. */
  function ShapedSample(outAmp: real, shape: Wavetable, wrapMap: bool, mapAmp: real, x: real): real {
    outAmp * shape(ShapeIndex(wrapMap, mapAmp, x))
  }

  /** The output block for input block `audio`. */
  function Shaped(outAmp: real, shape: Wavetable, wrapMap: bool, mapAmp: real, audio: seq<real>): seq<real> {
    seq(|audio|, i requires 0 <= i < |audio| => ShapedSample(outAmp, shape, wrapMap, mapAmp, audio[i]))
  }

  /** With unit map amplitude the ends of the expected input range land on
      the ends of the table. */
  lemma InputRangeMapsOntoTable()
    ensures RawIndex(1.0, -1.0) == 0.0 && RawIndex(1.0, 1.0) == 1.0
    ensures RawIndex(1.0, 0.0) == 0.5
  {
  }

  /** An index already in [0, 1] is kept by clamping; one in [0, 1) by
      wrapping. Both are therefore idempotent. */
  lemma InRangeIndexKept(x: real)
    ensures 0.0 <= x <= 1.0 ==> Clamp01(x) == x
    ensures 0.0 <= x < 1.0 ==> Wrapped(x) == x
    ensures Clamp01(Clamp01(x)) == Clamp01(x) && Wrapped(Wrapped(x)) == Wrapped(x)
  {
    if 0.0 <= x < 1.0 {
      assert TruncateTowardZero(x) == 0;
    }
    var w := Wrapped(x);
    assert TruncateTowardZero(w) == 0;
  }

  /** Wrapping keeps the fractional part `x - floor(x)`: it moves an index
      by a whole number of table lengths into [0, 1). */
  lemma WrappedIsFractionalPart(x: real)
    ensures Wrapped(x) == x - x.Floor as real
  {
    var t := TruncateTowardZero(x);
    var f := x.Floor;
    assert f as real <= x < f as real + 1.0;
    if x < 0.0 && x != t as real {
      assert t - 1 == f;
    } else {
      assert t == f;
    }
  }

  /** An index one table length further along wraps to the same place. */
  lemma WrapIsPeriodic(x: real)
    ensures Wrapped(x + 1.0) == Wrapped(x)
  {
    WrappedIsFractionalPart(x);
    WrappedIsFractionalPart(x + 1.0);
    var f := x.Floor;
    assert f as real + 1.0 <= x + 1.0 < f as real + 2.0;
    assert (x + 1.0).Floor == f + 1;
  }

  /** The waveshaper as an object whose fields `uGenerate` updates in place. */
  class WaveShaper {
    var mapAmp: real
    var outAmp: real
    var wrapMap: bool
    var mapShape: Wavetable

    constructor (outAmp: real, mapAmp: real, mapShape: Wavetable, wrapMap: bool)
      ensures this.outAmp == outAmp && this.mapAmp == mapAmp
      ensures this.mapShape == mapShape && this.wrapMap == wrapMap
    {
      this.mapShape := mapShape;
      this.outAmp := outAmp;
      this.mapAmp := mapAmp;
      this.wrapMap := wrapMap;
    }

    /** The three-argument overload: indices are clamped, not wrapped. */
    constructor Clamping(outAmp: real, mapAmp: real, mapShape: Wavetable)
      ensures this.outAmp == outAmp && this.mapAmp == mapAmp
      ensures this.mapShape == mapShape && !this.wrapMap
    {
      this.mapShape := mapShape;
      this.outAmp := outAmp;
      this.mapAmp := mapAmp;
      this.wrapMap := false;
    }

    /** One sample frame: `audio` holds the audio input's last values, one per
        channel; the two control terminals are passed with their state. */
    method UGenerate(channels: array<real>, audio: seq<real>,
                     mapAmplitude: ControlInput, outAmplitude: ControlInput)
      requires channels.Length <= |audio|
      modifies this, channels
      ensures mapAmp == Latched(old(mapAmp), mapAmplitude)
      ensures outAmp == Latched(old(outAmp), outAmplitude)
      ensures wrapMap == old(wrapMap) && mapShape == old(mapShape)
      ensures channels[..] == Shaped(outAmp, mapShape, wrapMap, mapAmp, audio[..channels.Length])
    {
      if mapAmplitude.Patched? {
        mapAmp := mapAmplitude.lastValue;
      }
      if outAmplitude.Patched? {
        outAmp := outAmplitude.lastValue;
      }
      var i := 0;
      while i < channels.Length
        invariant 0 <= i <= channels.Length
        invariant mapAmp == Latched(old(mapAmp), mapAmplitude)
        invariant outAmp == Latched(old(outAmp), outAmplitude)
        invariant wrapMap == old(wrapMap) && mapShape == old(mapShape)
        invariant forall k :: 0 <= k < i ==>
          channels[k] == ShapedSample(outAmp, mapShape, wrapMap, mapAmp, audio[k])
      {
        var tmpIndex := ShapeIndex(wrapMap, mapAmp, audio[i]);
        channels[i] := outAmp * mapShape(tmpIndex);
        i := i + 1;
      }
      assert forall k :: 0 <= k < channels.Length ==>
        channels[..][k] == Shaped(outAmp, mapShape, wrapMap, mapAmp, audio[..channels.Length])[k];
    }
  }
}
