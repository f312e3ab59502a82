/** The ADSR envelope of src/ddf/minim/ugens/ADSR.java.

    Each call of `UGenerate` produces one sample frame: the envelope picks a
    stage from its flags and timers, updates its amplitude and one timer, and
    multiplies every input channel by the resulting gain. Times and amplitudes
    are exact reals. */
module AdsrEnvelope {
  import opened Signals

  /** The seven parameters the constructors and `setParameters` take. */
  datatype Params = Params(
    maxAmplitude: real,
    attackTime: real,
    decayTime: real,
    sustainLevel: real,
    releaseTime: real,
    beforeAmplitude: real,
    afterAmplitude: real)

  /** The arguments `ADSR()` passes to the full constructor. */
  function DefaultParams(): Params {
    Params(1.0, 1.0, 1.0, 1.0, 1.0, 0.0, 0.0)
  }

  /** The arguments `ADSR(maxAmp)` passes on. */
  function MaxAmpParams(maxAmp: real): Params {
    Params(maxAmp, 1.0, 1.0, 1.0, 1.0, 0.0, 0.0)
  }

  /** The arguments `ADSR(maxAmp, attTime)` passes on. */
  function AttackParams(maxAmp: real, attTime: real): Params {
    Params(maxAmp, attTime, 1.0, 0.0, 1.0, 0.0, 0.0)
  }

  /** The arguments `ADSR(maxAmp, attTime, decTime)` passes on. */
  function DecayParams(maxAmp: real, attTime: real, decTime: real): Params {
    Params(maxAmp, attTime, decTime, 0.0, 1.0, 0.0, 0.0)
  }

  /** The arguments `ADSR(maxAmp, attTime, decTime, susLvl)` passes on: the
      sustain level is passed a second time, as the release time, and 1 as the
      amplitude before the envelope. */
  function SustainParams(maxAmp: real, attTime: real, decTime: real, susLvl: real): Params {
    Params(maxAmp, attTime, decTime, susLvl, susLvl, 1.0, 0.0)
  }

  /** The arguments `ADSR(maxAmp, attTime, decTime, susLvl, relTime)` passes on. */
  function ReleaseParams(maxAmp: real, attTime: real, decTime: real, susLvl: real, relTime: real): Params {
    Params(maxAmp, attTime, decTime, susLvl, relTime, 0.0, 0.0)
  }

  /** The arguments `ADSR(maxAmp, attTime, decTime, susLvl, relTime, befAmp)` passes on. */
  function BeforeParams(maxAmp: real, attTime: real, decTime: real, susLvl: real, relTime: real,
                        befAmp: real): Params
  {
    Params(maxAmp, attTime, decTime, susLvl, relTime, befAmp, 0.0)
  }

  /** What the doc comments of the shorter constructors promise for the
      parameters they do not take: sustain level 0, release time 1 second,
      amplitude 0 before and after the envelope. */
  predicate DocumentedDefaults(p: Params) {
    p.sustainLevel == 0.0 && p.releaseTime == 1.0 && p.beforeAmplitude == 0.0 && p.afterAmplitude == 0.0
  }

  /** The two-, three-argument overloads keep their doc comments; the no- and
      one-argument overloads pass a sustain level of 1, not 0; the
      four-argument overload passes its sustain level as the release time and
      1 as the amplitude before the envelope, where its comment promises a
      release of 1 second and a before-amplitude of 0; the five- and
      six-argument overloads keep theirs: 0 after the envelope, and 0 before
      it unless given. */
  lemma OverloadsVersusDocumentation(maxAmp: real, attTime: real, decTime: real, susLvl: real,
                                     relTime: real, befAmp: real)
    ensures DocumentedDefaults(AttackParams(maxAmp, attTime))
    ensures DocumentedDefaults(DecayParams(maxAmp, attTime, decTime))
    ensures !DocumentedDefaults(DefaultParams()) && DefaultParams().sustainLevel == 1.0
    ensures !DocumentedDefaults(MaxAmpParams(maxAmp)) && MaxAmpParams(maxAmp).sustainLevel == 1.0
    ensures SustainParams(maxAmp, attTime, decTime, susLvl).releaseTime == susLvl
    ensures SustainParams(maxAmp, attTime, decTime, susLvl).beforeAmplitude == 1.0
    ensures SustainParams(maxAmp, attTime, decTime, susLvl)
         != ReleaseParams(maxAmp, attTime, decTime, susLvl, 1.0)
    ensures var r := ReleaseParams(maxAmp, attTime, decTime, susLvl, relTime);
      r.sustainLevel == susLvl && r.releaseTime == relTime
      && r.beforeAmplitude == 0.0 && r.afterAmplitude == 0.0
    ensures var b := BeforeParams(maxAmp, attTime, decTime, susLvl, relTime, befAmp);
      b.releaseTime == relTime && b.beforeAmplitude == befAmp && b.afterAmplitude == 0.0
  {
  }

  /** The stages of the envelope. */
  datatype Stage = Before | Attack | Decay | Sustain | Release | After

  /** The abstract state of an ADSR. */
  datatype Envelope = Envelope(
    p: Params,
    amplitude: real,
    timeStepSize: real,
    timeFromOn: real,
    timeFromOff: real,
    isTurnedOn: bool,
    isTurnedOff: bool,
    unpatchAfterRelease: bool)

  /** A freshly constructed envelope; no sample rate has been reported yet, so
      the step size is still 0. */
  function Initial(p: Params): Envelope {
    Envelope(p, p.beforeAmplitude, 0.0, -1.0, -1.0, false, false, false)
  }

  function NotedOn(e: Envelope): Envelope {
    e.(timeFromOn := 0.0, isTurnedOn := true)
  }

  function NotedOff(e: Envelope): Envelope {
    e.(timeFromOff := 0.0, isTurnedOff := true)
  }

  /** The stage the next `uGenerate` call works in, chosen as the source's
      if-chain chooses it. */
  function StageOf(e: Envelope): Stage {
    if !e.isTurnedOn then Before
    else if e.timeFromOff > e.p.releaseTime then After
    else if e.isTurnedOff then Release
    else if e.timeFromOn <= e.p.attackTime then Attack
    else if e.timeFromOn <= e.p.attackTime + e.p.decayTime then Decay
    else Sustain
  }

  /** The amplitude a ramping stage heads for. */
  function Target(e: Envelope): real {
    match StageOf(e)
    case Attack => e.p.maxAmplitude
    case Decay => e.p.sustainLevel * e.p.maxAmplitude
    case Release => e.p.afterAmplitude
    case _ => e.amplitude
  }

  /** The time left in a ramping stage: the divisor of its step. */
  function Remaining(e: Envelope): real {
    match StageOf(e)
    case Attack => e.p.attackTime - e.timeFromOn
    case Decay => e.p.attackTime + e.p.decayTime - e.timeFromOn
    case Release => e.p.releaseTime - e.timeFromOff
    case _ => 1.0
  }

  /** The step is defined: a ramping stage does not divide by a zero remaining time. */
  predicate StepDefined(e: Envelope) {
    Remaining(e) != 0.0
  }

  /** One ramp step: move toward `target` by the fraction `step / remain` of
      the distance left. */
  function Ramp(amplitude: real, target: real, step: real, remain: real): real
    requires remain != 0.0
  {
    amplitude + (target - amplitude) * step / remain
  }

  /** The envelope after one `uGenerate` call. */
  function Next(e: Envelope): Envelope
    requires StepDefined(e)
  {
    match StageOf(e)
    case Before => e
    case After => e
    case Attack =>
      e.(amplitude := Ramp(e.amplitude, Target(e), e.timeStepSize, Remaining(e)),
         timeFromOn := e.timeFromOn + e.timeStepSize)
    case Decay =>
      e.(amplitude := Ramp(e.amplitude, Target(e), e.timeStepSize, Remaining(e)),
         timeFromOn := e.timeFromOn + e.timeStepSize)
    case Sustain =>
      e.(amplitude := e.p.sustainLevel * e.p.maxAmplitude, timeFromOn := e.timeFromOn + e.timeStepSize)
    case Release =>
      e.(amplitude := Ramp(e.amplitude, Target(e), e.timeStepSize, Remaining(e)),
         timeFromOff := e.timeFromOff + e.timeStepSize)
  }

  /** The factor every input channel is multiplied by in that call. */
  function Gain(e: Envelope): real
    requires StepDefined(e)
  {
    match StageOf(e)
    case Before => e.p.beforeAmplitude
    case After => e.p.afterAmplitude
    case _ => Next(e).amplitude
  }

  /** Whether that call asks to be unpatched from its output. */
  predicate RequestsUnpatch(e: Envelope) {
    StageOf(e) == After && e.unpatchAfterRelease
  }

  /** Every one of `k` successive calls is defined. */
  predicate RunDefined(e: Envelope, k: nat)
    decreases k
  {
    k == 0 || (StepDefined(e) && RunDefined(Next(e), k - 1))
  }

  /** The envelope after `k` successive calls. */
  function Run(e: Envelope, k: nat): Envelope
    requires RunDefined(e, k)
    decreases k
  {
    if k == 0 then e else Run(Next(e), k - 1)
  }

  /** A new envelope outputs `beforeAmplitude` times its input, with both
      flags down and both timers at -1. */
  lemma InitialIsBefore(p: Params)
    ensures var e := Initial(p);
      StageOf(e) == Before && StepDefined(e) && Gain(e) == p.beforeAmplitude
      && e.amplitude == p.beforeAmplitude && !e.isTurnedOn && !e.isTurnedOff
      && e.timeFromOn == -1.0 && e.timeFromOff == -1.0
  {
  }

  /** Until `noteOn`, whatever the timers and even after a `noteOff`, every
      call outputs `beforeAmplitude` times the input and changes nothing. */
  lemma {:induction false} BeforeIsFrozen(e: Envelope, k: nat)
    requires !e.isTurnedOn
    ensures StageOf(NotedOff(e)) == Before
    ensures RunDefined(e, k) && Run(e, k) == e
    ensures StepDefined(e) && Gain(e) == e.p.beforeAmplitude
    decreases k
  {
    if k > 0 {
      BeforeIsFrozen(e, k - 1);
      assert Next(e) == e;
    }
  }

  /** Once on and past the release time, every call outputs
      `afterAmplitude` times the input, keeps timers and amplitude frozen, and
      asks to be unpatched exactly when that was requested. */
  lemma {:induction false} AfterIsFrozen(e: Envelope, k: nat)
    requires e.isTurnedOn && e.timeFromOff > e.p.releaseTime
    ensures StageOf(e) == After && StepDefined(e) && Gain(e) == e.p.afterAmplitude
    ensures RequestsUnpatch(e) == e.unpatchAfterRelease
    ensures RunDefined(e, k) && Run(e, k) == e
    decreases k
  {
    if k > 0 {
      AfterIsFrozen(e, k - 1);
      assert Next(e) == e;
    }
  }

  /** A `noteOff` received once the envelope is on selects the release stage
      whatever the onset timer says. */
  lemma ReleaseOverrides(e: Envelope)
    requires e.isTurnedOn && e.isTurnedOff && e.timeFromOff <= e.p.releaseTime
    ensures StageOf(e) == Release
  {
  }

  /** While on and not off, each call advances the onset timer by one step and
      leaves the release timer alone; in release the roles swap. */
  lemma TimersAdvance(e: Envelope)
    requires StepDefined(e)
    ensures StageOf(e) in {Attack, Decay, Sustain} ==>
      Next(e).timeFromOn == e.timeFromOn + e.timeStepSize && Next(e).timeFromOff == e.timeFromOff
    ensures StageOf(e) == Release ==>
      Next(e).timeFromOff == e.timeFromOff + e.timeStepSize && Next(e).timeFromOn == e.timeFromOn
    ensures Next(e).p == e.p && Next(e).isTurnedOn == e.isTurnedOn && Next(e).isTurnedOff == e.isTurnedOff
  {
  }

  /** Over any number of calls while on and not off, the onset timer grows by
      exactly one step per call and nothing but it and the amplitude changes. */
  lemma {:induction false} OnsetTimerCounts(e: Envelope, k: nat)
    requires e.isTurnedOn && !e.isTurnedOff && e.timeFromOff <= e.p.releaseTime
    requires RunDefined(e, k)
    ensures Run(e, k).timeFromOn == e.timeFromOn + k as real * e.timeStepSize
    ensures Run(e, k) == e.(amplitude := Run(e, k).amplitude, timeFromOn := Run(e, k).timeFromOn)
    decreases k
  {
    if k > 0 {
      var n := Next(e);
      assert n == e.(amplitude := n.amplitude, timeFromOn := e.timeFromOn + e.timeStepSize);
      OnsetTimerCounts(n, k - 1);
      assert Run(e, k) == Run(n, k - 1);
      var t, step := e.timeFromOn, e.timeStepSize;
      assert n.timeFromOn == t + step && n.timeStepSize == step;
      assert (t + step) + (k - 1) as real * step == t + k as real * step by {
        var j := (k - 1) as real;
        assert k as real * step == step + j * step;
      }
    }
  }

  /** In release the onset timer never moves, and neither do the flags. */
  lemma {:induction false} ReleaseKeepsOnsetTimer(e: Envelope, k: nat)
    requires e.isTurnedOn && e.isTurnedOff
    requires RunDefined(e, k)
    ensures Run(e, k).timeFromOn == e.timeFromOn
    ensures Run(e, k).isTurnedOn && Run(e, k).isTurnedOff && Run(e, k).p == e.p
    decreases k
  {
    if k > 0 {
      TimersAdvance(e);
      ReleaseKeepsOnsetTimer(Next(e), k - 1);
    }
  }

  /** In sustain the amplitude is set to exactly `sustainLevel * maxAmplitude`. */
  lemma SustainHolds(e: Envelope)
    requires StageOf(e) == Sustain
    ensures StepDefined(e) && Next(e).amplitude == e.p.sustainLevel * e.p.maxAmplitude
    ensures Gain(e) == e.p.sustainLevel * e.p.maxAmplitude
  {
  }

  /** Attack, decay and release move the amplitude toward their target by the
      step's share of the time remaining in the stage. */
  lemma RampingStep(e: Envelope)
    requires StageOf(e) in {Attack, Decay, Release} && StepDefined(e)
    ensures Next(e).amplitude == Ramp(e.amplitude, Target(e), e.timeStepSize, Remaining(e))
    ensures StageOf(e) == Attack ==> Target(e) == e.p.maxAmplitude && Remaining(e) == e.p.attackTime - e.timeFromOn
    ensures StageOf(e) == Decay ==>
      Target(e) == e.p.sustainLevel * e.p.maxAmplitude
      && Remaining(e) == e.p.attackTime + e.p.decayTime - e.timeFromOn
    ensures StageOf(e) == Release ==> Target(e) == e.p.afterAmplitude && Remaining(e) == e.p.releaseTime - e.timeFromOff
  {
    var r := Ramp(e.amplitude, Target(e), e.timeStepSize, Remaining(e));
    if StageOf(e) == Release {
      assert Next(e) == e.(amplitude := r, timeFromOff := e.timeFromOff + e.timeStepSize);
    } else {
      assert Next(e) == e.(amplitude := r, timeFromOn := e.timeFromOn + e.timeStepSize);
    }
  }

  /** The step is undefined in a reachable state: with a zero attack time the
      first call after `noteOn` divides by a remaining time of zero. */
  lemma ZeroAttackDividesByZero(p: Params)
    requires p.attackTime == 0.0 && p.releaseTime >= -1.0
    ensures StageOf(NotedOn(Initial(p))) == Attack
    ensures !StepDefined(NotedOn(Initial(p)))
  {
  }

  /** When the step fits in the time left (0 < step <= remain) the new
      amplitude lies between the old one and the target; when it equals the
      time left the target is hit exactly. */
  lemma RampStaysBetween(amplitude: real, target: real, step: real, remain: real)
    requires 0.0 < step <= remain
    ensures var r := Ramp(amplitude, target, step, remain);
      (amplitude <= target ==> amplitude <= r <= target)
      && (target <= amplitude ==> target <= r <= amplitude)
    ensures step == remain ==> Ramp(amplitude, target, step, remain) == target
  {
    var f := step / remain;
    assert 0.0 < f <= 1.0;
    assert (target - amplitude) * step / remain == (target - amplitude) * f;
  }

  /** When less than one step is left in a stage (0 < remain < step) the ramp
      overshoots its target, from either side. */
  lemma RampOvershoots(amplitude: real, target: real, step: real, remain: real)
    requires 0.0 < remain < step
    ensures amplitude < target ==> Ramp(amplitude, target, step, remain) > target
    ensures target < amplitude ==> Ramp(amplitude, target, step, remain) < target
  {
    var f := step / remain;
    assert f > 1.0 by {
      assert f * remain == step;
    }
    assert (target - amplitude) * step / remain == (target - amplitude) * f;
    if amplitude < target {
      assert (target - amplitude) * f > target - amplitude;
    } else if target < amplitude {
      assert (amplitude - target) * f > amplitude - target;
    }
  }

  /** The overshoot happens in a reachable state: attack time 0.5 and a step
      of 1 take the amplitude from 0 to 2 on the first call after `noteOn`,
      twice the maximum amplitude of 1. */
  lemma AttackCanOvershoot()
    ensures var e := NotedOn(Initial(Params(1.0, 0.5, 1.0, 0.5, 1.0, 0.0, 0.0)).(timeStepSize := 1.0));
      StageOf(e) == Attack && StepDefined(e) && Next(e).amplitude == 2.0 && Next(e).amplitude > e.p.maxAmplitude
  {
  }

  /** `noteOff` leaves the amplitude where it is, so the release starts from
      the current amplitude without a jump: its first step is a ramp from there
      over the whole release time. */
  lemma NoteOffIsContinuous(e: Envelope)
    requires e.isTurnedOn && e.p.releaseTime > 0.0
    ensures NotedOff(e).amplitude == e.amplitude
    ensures StageOf(NotedOff(e)) == Release && StepDefined(NotedOff(e))
    ensures Next(NotedOff(e)).amplitude == Ramp(e.amplitude, e.p.afterAmplitude, e.timeStepSize, e.p.releaseTime)
  {
    RampingStep(NotedOff(e));
  }

  /** The envelope as an object whose fields the calls update in place. */
  class ADSR {
    var maxAmplitude: real
    var attackTime: real
    var decayTime: real
    var sustainLevel: real
    var releaseTime: real
    var beforeAmplitude: real
    var afterAmplitude: real
    var amplitude: real
    var timeStepSize: real
    var timeFromOn: real
    var timeFromOff: real
    var isTurnedOn: bool
    var isTurnedOff: bool
    var unpatchAfterRelease: bool
    /** How many times the envelope has asked to be unpatched from its output. */
    ghost var unpatchRequests: nat

    function Parameters(): Params
      reads this
    {
      Params(maxAmplitude, attackTime, decayTime, sustainLevel, releaseTime, beforeAmplitude, afterAmplitude)
    }

    function State(): Envelope
      reads this
    {
      Envelope(Parameters(), amplitude, timeStepSize, timeFromOn, timeFromOff,
               isTurnedOn, isTurnedOff, unpatchAfterRelease)
    }

    /** The seven-argument constructor; the shorter overloads are the
        functions DefaultParams .. BeforeParams applied to their arguments. */
    constructor (p: Params)
      ensures State() == Initial(p) && unpatchRequests == 0
    {
      maxAmplitude := p.maxAmplitude;
      attackTime := p.attackTime;
      decayTime := p.decayTime;
      sustainLevel := p.sustainLevel;
      releaseTime := p.releaseTime;
      beforeAmplitude := p.beforeAmplitude;
      afterAmplitude := p.afterAmplitude;
      amplitude := p.beforeAmplitude;
      isTurnedOn := false;
      isTurnedOff := false;
      timeFromOn := -1.0;
      timeFromOff := -1.0;
      unpatchAfterRelease := false;
      timeStepSize := 0.0;
      unpatchRequests := 0;
    }

    method SetParameters(p: Params)
      modifies this
      ensures State() == old(State()).(p := p) && unpatchRequests == old(unpatchRequests)
    {
      maxAmplitude := p.maxAmplitude;
      attackTime := p.attackTime;
      decayTime := p.decayTime;
      sustainLevel := p.sustainLevel;
      releaseTime := p.releaseTime;
      beforeAmplitude := p.beforeAmplitude;
      afterAmplitude := p.afterAmplitude;
    }

    method NoteOn()
      modifies this
      ensures State() == NotedOn(old(State())) && unpatchRequests == old(unpatchRequests)
    {
      timeFromOn := 0.0;
      isTurnedOn := true;
    }

    method NoteOff()
      modifies this
      ensures State() == NotedOff(old(State())) && unpatchRequests == old(unpatchRequests)
    {
      timeFromOff := 0.0;
      isTurnedOff := true;
    }

    /** Called by the framework with the output's (nonzero) sample rate. */
    method SampleRateChanged(sampleRate: real)
      requires sampleRate != 0.0
      modifies this
      ensures State() == old(State()).(timeStepSize := 1.0 / sampleRate)
      ensures unpatchRequests == old(unpatchRequests)
    {
      timeStepSize := 1.0 / sampleRate;
    }

    method UnpatchAfterRelease()
      modifies this
      ensures State() == old(State()).(unpatchAfterRelease := true)
      ensures unpatchRequests == old(unpatchRequests)
    {
      unpatchAfterRelease := true;
    }

    /** One sample frame: `audio` holds the last values of the audio input,
        one per channel. */
    method UGenerate(channels: array<real>, audio: seq<real>)
      requires channels.Length <= |audio|
      requires StepDefined(State())
      modifies this, channels
      ensures State() == Next(old(State()))
      ensures channels[..] == Scaled(Gain(old(State())), audio[..channels.Length])
      ensures unpatchRequests == old(unpatchRequests) + (if RequestsUnpatch(old(State())) then 1 else 0)
    {
      ghost var e := State();
      if !isTurnedOn {
        Amplify(channels, beforeAmplitude, audio);
      } else if timeFromOff > releaseTime {
        Amplify(channels, afterAmplitude, audio);
        if unpatchAfterRelease {
          unpatchRequests := unpatchRequests + 1;
        }
      } else {
        if isTurnedOn && !isTurnedOff {
          if timeFromOn <= attackTime {
            var timeRemain := attackTime - timeFromOn;
            assert StageOf(e) == Attack && Remaining(e) == timeRemain && Target(e) == maxAmplitude;
            amplitude := Ramp(amplitude, maxAmplitude, timeStepSize, timeRemain);
            assert amplitude == Next(e).amplitude;
          } else if timeFromOn > attackTime && timeFromOn <= attackTime + decayTime {
            var timeRemain := attackTime + decayTime - timeFromOn;
            assert StageOf(e) == Decay && Remaining(e) == timeRemain && Target(e) == sustainLevel * maxAmplitude;
            amplitude := Ramp(amplitude, sustainLevel * maxAmplitude, timeStepSize, timeRemain);
            assert amplitude == Next(e).amplitude;
          } else if timeFromOn > attackTime + decayTime {
            assert StageOf(e) == Sustain;
            amplitude := sustainLevel * maxAmplitude;
            assert amplitude == Next(e).amplitude;
          }
          timeFromOn := timeFromOn + timeStepSize;
          assert State() == Next(e);
        } else {
          var timeRemain := releaseTime - timeFromOff;
          assert StageOf(e) == Release && Remaining(e) == timeRemain && Target(e) == afterAmplitude;
          amplitude := Ramp(amplitude, afterAmplitude, timeStepSize, timeRemain);
          timeFromOff := timeFromOff + timeStepSize;
          assert State() == Next(e);
        }
        assert amplitude == Gain(e);
        Amplify(channels, amplitude, audio);
      }
    }
  }
}
