# Minim core, modelled in Dafny

This project models five classes of the Minim audio library for Java:

- **NoteManager** (`NoteManagement`, in `note_manager.dfy`) is the
  sample-accurate note scheduler of an audio output. `addEvent` turns a start
  time and a duration in beats into two absolute sample indices, using the
  output's sample rate, the tempo, a note offset and a duration factor. It
  stores a NoteOn event under the first index and a NoteOff event under the
  second, in a map from sample index to a list of events. `tick`, called once
  per sample, sends the events due at the current index, removes them and
  advances the clock, unless the manager is paused.
- **ADSR** (`AdsrEnvelope`, in `adsr.dfy`) is an attack–decay–sustain–release
  envelope unit generator. Each `uGenerate` call picks a stage from two flags
  and two timers. It ramps the amplitude toward the stage's target by the
  step's share of the time left, advances one timer, and multiplies every
  input channel by the result.
- **ChebFilter** (`Chebyshev`, in `cheb_filter.dfy`) is a Chebyshev
  low-pass or high-pass IIR filter. The model covers:
  - type and pole-count validation;
  - the `canCalc` protocol of the constructor;
  - the coefficient calculation: two-pole sections cascaded in 23-slot work
    arrays, a shift, and normalisation of the gain at zero frequency (low
    pass) or at the Nyquist frequency (high pass).

  The pole placement of each section (`calcTwoPole`) is the abstract function
  `TwoPole`.
- **WaveShaper** (`WaveShaping`, in `wave_shaper.dfy`) maps each input sample
  to an index in [0, 1] of a mapping wavetable, by clamping or wrapping, and
  outputs the table's value there times an output amplitude. Two control
  inputs can overwrite the map and output amplitudes.
- **Balance** (`BalanceControl`, in `balance.dfy`) scales each channel by a
  gain clamped into [0, 1]: `1 + balance` for the even channels, `1 - balance`
  for the odd ones.

Two shared modules support them:

- `JavaNumerics` (`java_numerics.dfy`) models Java's `(int)` cast of a float,
  which truncates toward zero and saturates at the 32-bit range. It also models
  the float remainder `x % 1.0f`.
- `Signals` (`signals.dfy`) holds control-terminal latching and the
  `channels[i] = gain * input[i]` loop.

Each Java class whose fields its methods update is a Dafny `class` with those
fields, and its methods change them in place. Each such method is proved
against a pure specification function of the old state. For example,
`NoteManager.Tick` ensures `State() == Ticked(old(State()))`, and
`ChebFilter.CalcCoeff` ensures the coefficients equal `CoefficientsOf` of the
current design. The properties the source promises are lemmas about those
functions. Samples, times, amplitudes and coefficients are exact reals. The
integer sample indices of NoteManager are mathematical integers, and the
float-to-int cast is written out.

Calls into code outside these classes become parameters or abstract values:

- the output's sample rate: a parameter of `AddEvent`;
- `Instrument.noteOn`/`noteOff`: appending to the ghost trace `sent`;
- the audio input's last values: a sequence parameter;
- a control terminal: a `ControlInput` value, either unpatched or patched with
  its last value;
- `Wavetable.value`: a function on reals;
- `unpatch(output)`: a ghost request counter;
- `Minim.error` in ChebFilter: a ghost log of diagnostics.

## Code versus documentation

Where the documentation and the code disagree, the model follows the code. The
lemmas named below make each disagreement explicit.

- ADSR's doc comments say the shorter constructors use sustain level 0,
  release time 1 and amplitude 0 before and after the envelope. In the code:
  - the no- and one-argument overloads pass a sustain level of 1;
  - the four-argument overload passes its sustain level as the release time,
    and 1 as the amplitude before the envelope.

  See `AdsrEnvelope.OverloadsVersusDocumentation`.
- Balance's class comment says a positive balance lowers the *left* channel.
  The code attenuates the odd channels, channel 1 of a stereo pair, for a
  positive balance, and the even channels for a negative one. See
  `BalanceControl.PositiveBalanceAttenuatesOddChannels`.
- `ChebFilter.setPoles` is documented for even counts from 2 to 20. A larger
  even count is reported but still stored:
  - with 22 poles the top two coefficients of `a` and `b` come from work-array
    slots that the shift and the normalisation never touch
    (`Chebyshev.TwentyTwoPolesKeepTopSlots`);
  - with 24 or more poles the copy into `a` throws an
    `ArrayIndexOutOfBoundsException` (`Chebyshev.CoefficientCounts`).

## Consequences of the code

These follow from the code as written; no comment in the source promises
otherwise.

- The `(int)` cast that turns note times into samples truncates toward zero.
  A note whose start and end truncate to the same sample vanishes: its
  NoteOn and NoteOff share one sample index, NoteOn first. See
  `NoteManagement.TruncationNotRounding` and
  `NoteManagement.ZeroLengthNoteOrdered`.
- An ADSR ramp step that is longer than the time left in its stage overshoots
  the target (`AdsrEnvelope.RampOvershoots`), and such a state is reached
  right after `noteOn` (`AdsrEnvelope.AttackCanOvershoot`). With an attack
  time of 0, the first step after `noteOn` divides by zero
  (`AdsrEnvelope.ZeroAttackDividesByZero`).

## Model

| member | source | states |
|---|---|---|
| `JavaNumerics.TruncateTowardZero` | src/ddf/minim/NoteManager.java:74 | the integer part of x keeps x's sign and lies within one of x, below it for x >= 0 and above it for x < 0 |
| `JavaNumerics.IntCast` | src/ddf/minim/NoteManager.java:74 | the `(int)` cast always lands in the 32-bit range; inside the range it truncates toward zero, and outside it saturates at MIN or MAX |
| `JavaNumerics.CastQuotient` | src/ddf/minim/NoteManager.java:86 | a nonzero tempo gives the cast of the quotient; a zero tempo gives MAX, MIN or 0 by the sign of the numerator (infinity or NaN) |
| `JavaNumerics.CastInRange` | src/ddf/minim/NoteManager.java:74 | a quotient within the int range is cast by truncation toward zero |
| `JavaNumerics.RemainderOfOne` | src/ddf/minim/ugens/WaveShaper.java:108 | `x % 1.0f` lies strictly between -1 and 1 and has the sign of x |
| `NoteManagement.InitialIsEmpty` | src/ddf/minim/NoteManager.java:61-69 | a new manager has tempo 60, offset 0, duration factor 1, clock 0, is running, stores nothing and has nothing due |
| `NoteManagement.NoteManager.constructor` | src/ddf/minim/NoteManager.java:61-69 | the new object's state is the initial schedule and nothing has been sent |
| `NoteManagement.ScheduledAppends` | src/ddf/minim/NoteManager.java:73-97 | `addEvent` appends exactly one NoteOn under `on` and one NoteOff under `off`, behind the earlier events there (both, in that order, when `on == off`); it adds only those two keys and changes no other key, nor the clock, the pause flag or the settings |
| `NoteManagement.NoteManager.AddEvent` | src/ddf/minim/NoteManager.java:73-97 | the new state is the old schedule with the two events appended at the computed indices; nothing is sent |
| `NoteManagement.SamplesTruncated` | src/ddf/minim/NoteManager.java:74-86 | within the int range, the sample count is `sampleRate * beats * 60 / tempo` truncated toward zero |
| `NoteManagement.TruncationNotRounding` | src/ddf/minim/NoteManager.java:74-86 | at one sample per second and tempo 60, a note of 0.75 beats ends at the sample where it starts: the length is cut, not rounded |
| `NoteManagement.ZeroLengthNoteOrdered` | src/ddf/minim/NoteManager.java:77-95 | when a note's end index equals its start index, its NoteOn is stored immediately before its NoteOff, at the end of that list |
| `NoteManagement.PausedTickIsInert` | src/ddf/minim/NoteManager.java:119-120 | a paused tick sends nothing and leaves the whole state unchanged |
| `NoteManagement.RunningTickDispatches` | src/ddf/minim/NoteManager.java:119-137 | a running tick sends exactly the list stored under `now`, removes that key only, keeps every other key's list, and advances the clock by one |
| `NoteManagement.ApplyAdvancesClock` | src/ddf/minim/NoteManager.java:99-137 | of all the calls, only a running tick moves the clock, and by exactly one |
| `NoteManagement.DispatchesAreConsecutive` | src/ddf/minim/NoteManager.java:119-137 | over any sequence of calls, the i-th running tick serves index `start + i`, and the clock ends one past the last index served |
| `NoteManagement.DispatchedOnce` | src/ddf/minim/NoteManager.java:119-137 | over any sequence of calls the clock never decreases, and the indices the ticks serve strictly increase and lie in [start, end), so no index is dispatched twice |
| `NoteManagement.NoteManager.Tick` | src/ddf/minim/NoteManager.java:119-137 | the new state is the ticked schedule, and the trace grows by exactly the events due, in their stored order |
| `NoteManagement.NoteManager.SetTempo` | src/ddf/minim/NoteManager.java:99-101 | only the tempo changes |
| `NoteManagement.NoteManager.SetNoteOffset` | src/ddf/minim/NoteManager.java:103-105 | only the note offset changes |
| `NoteManagement.NoteManager.SetDurationFactor` | src/ddf/minim/NoteManager.java:107-109 | only the duration factor changes |
| `NoteManagement.NoteManager.Pause` | src/ddf/minim/NoteManager.java:111-113 | only the pause flag changes, to set |
| `NoteManagement.NoteManager.Resume` | src/ddf/minim/NoteManager.java:115-117 | only the pause flag changes, to clear |
| `AdsrEnvelope.OverloadsVersusDocumentation` | src/ddf/minim/ugens/ADSR.java:51-113 | the two- and three-argument overloads match their documented defaults; the no- and one-argument overloads pass sustain level 1; the four-argument overload passes the sustain level as the release time and 1 as the amplitude before the envelope; the five-argument overload keeps its release time and passes 0 before and after the envelope, and the six-argument one passes its before-amplitude and 0 after |
| `AdsrEnvelope.InitialIsBefore` | src/ddf/minim/ugens/ADSR.java:120-136 | a new envelope is in the before stage with amplitude `beforeAmplitude`, both flags down and both timers at -1, and outputs `beforeAmplitude` times its input |
| `AdsrEnvelope.ADSR.constructor` | src/ddf/minim/ugens/ADSR.java:120-136 | the fields hold the seven parameters and the initial envelope state |
| `AdsrEnvelope.ADSR.SetParameters` | src/ddf/minim/ugens/ADSR.java:141-149 | only the seven parameters change |
| `AdsrEnvelope.ADSR.NoteOn` | src/ddf/minim/ugens/ADSR.java:154-157 | only the onset timer (to 0) and the on flag change |
| `AdsrEnvelope.ADSR.NoteOff` | src/ddf/minim/ugens/ADSR.java:162-165 | only the release timer (to 0) and the off flag change |
| `AdsrEnvelope.ADSR.SampleRateChanged` | src/ddf/minim/ugens/ADSR.java:171-173 | only the time step changes, to one over the sample rate |
| `AdsrEnvelope.ADSR.UnpatchAfterRelease` | src/ddf/minim/ugens/ADSR.java:181-184 | only the unpatch-after-release flag changes |
| `AdsrEnvelope.BeforeIsFrozen` | src/ddf/minim/ugens/ADSR.java:189-192 | until `noteOn`, even after a `noteOff`, any number of calls leaves the state unchanged and outputs `beforeAmplitude` times the input |
| `AdsrEnvelope.AfterIsFrozen` | src/ddf/minim/ugens/ADSR.java:194-201 | once on and past the release time, any number of calls leaves the state unchanged and outputs `afterAmplitude` times the input, and each call asks to be unpatched exactly when that was requested |
| `AdsrEnvelope.ReleaseOverrides` | src/ddf/minim/ugens/ADSR.java:204-227 | once the envelope is on and `noteOff` has been received, the release stage is chosen whatever the onset timer says |
| `AdsrEnvelope.TimersAdvance` | src/ddf/minim/ugens/ADSR.java:204-228 | in attack, decay and sustain a call advances the onset timer by one step and keeps the release timer; in release the roles swap; parameters and flags never change |
| `AdsrEnvelope.OnsetTimerCounts` | src/ddf/minim/ugens/ADSR.java:204-220 | after k calls while on and not off, the onset timer has grown by exactly k steps and only it and the amplitude have changed |
| `AdsrEnvelope.ReleaseKeepsOnsetTimer` | src/ddf/minim/ugens/ADSR.java:221-228 | any number of calls in release leave the onset timer, the flags and the parameters unchanged |
| `AdsrEnvelope.SustainHolds` | src/ddf/minim/ugens/ADSR.java:216-219 | in sustain the amplitude, and so the output gain, is exactly `sustainLevel * maxAmplitude` |
| `AdsrEnvelope.RampingStep` | src/ddf/minim/ugens/ADSR.java:206-227 | attack, decay and release set the amplitude to `Ramp(amplitude, target, step, remain)`, with the target and remaining time of the stage |
| `AdsrEnvelope.ZeroAttackDividesByZero` | src/ddf/minim/ugens/ADSR.java:206-209 | with an attack time of 0, the first call after `noteOn` is in attack with a remaining time of 0, so its step is undefined |
| `AdsrEnvelope.RampStaysBetween` | src/ddf/minim/ugens/ADSR.java:208-209 | when the step fits in the time left, the new amplitude lies between the old one and the target, and a step equal to the time left hits the target exactly |
| `AdsrEnvelope.RampOvershoots` | src/ddf/minim/ugens/ADSR.java:208-209 | for any amplitude and target, a step longer than the time left (`0 < remain < step`) carries the amplitude past the target, from below and from above |
| `AdsrEnvelope.AttackCanOvershoot` | src/ddf/minim/ugens/ADSR.java:206-210 | a reachable envelope (attack time 0.5, step 1, just after `noteOn`) is in attack and its first call sets the amplitude to 2, above the maximum amplitude 1 |
| `AdsrEnvelope.NoteOffIsContinuous` | src/ddf/minim/ugens/ADSR.java:222-227 | `noteOff` keeps the amplitude, so the release ramps from the current amplitude over the whole release time |
| `AdsrEnvelope.ADSR.UGenerate` | src/ddf/minim/ugens/ADSR.java:187-234 | the new state is the next envelope state, every channel is the stage's gain times its input, and the unpatch request count grows by one exactly when the after stage has one pending |
| `Signals.Amplify` | src/ddf/minim/ugens/ADSR.java:230-232 | each channel is the gain times the matching input sample |
| `Signals.LatchSettles` | src/ddf/minim/ugens/WaveShaper.java:88-96 | an unpatched frame keeps what the previous latch left, latching the same terminal state twice changes nothing more, and a patched terminal makes the stored value irrelevant |
| `Signals.LatchedRunKeepsLastPatched` | src/ddf/minim/ugens/WaveShaper.java:88-96 | over any run of frames the field holds the last value a patched terminal delivered, or its initial value when none did (an independent definition read from the end of the run) |
| `WaveShaping.Wrapped` | src/ddf/minim/ugens/WaveShaper.java:105-114 | the wrapped index lies in [0, 1) |
| `Signals.Clamp01` | src/ddf/minim/ugens/WaveShaper.java:115-122 | the clamped index lies in [0, 1], keeps an index already there, and is 0 or 1 exactly at and beyond the ends; Balance's `min(1, max(0, x))` at Balance.java:69 is the same clamp |
| `WaveShaping.ShapeIndex` | src/ddf/minim/ugens/WaveShaper.java:102-122 | the index passed to the table lies in [0, 1], below 1 when wrapping, and equals the raw index when clamping an index already in range |
| `WaveShaping.InputRangeMapsOntoTable` | src/ddf/minim/ugens/WaveShaper.java:102 | with map amplitude 1, inputs -1, 0 and 1 map onto indices 0, 0.5 and 1 |
| `WaveShaping.InRangeIndexKept` | src/ddf/minim/ugens/WaveShaper.java:105-122 | clamping keeps an index in [0, 1] and wrapping keeps one in [0, 1); both are idempotent |
| `WaveShaping.WrappedIsFractionalPart` | src/ddf/minim/ugens/WaveShaper.java:105-114 | wrapping yields `x - floor(x)`: it moves the index by a whole number of table lengths |
| `WaveShaping.WrapIsPeriodic` | src/ddf/minim/ugens/WaveShaper.java:105-114 | an index one table length further along wraps to the same place |
| `WaveShaping.WaveShaper.constructor` | src/ddf/minim/ugens/WaveShaper.java:68-78 | the fields hold the given amplitudes, shape and wrap flag |
| `WaveShaping.WaveShaper.Clamping` | src/ddf/minim/ugens/WaveShaper.java:53-56 | the three-argument overload clamps rather than wraps |
| `WaveShaping.WaveShaper.UGenerate` | src/ddf/minim/ugens/WaveShaper.java:85-127 | both amplitudes are latched from their terminals, and every channel is the output amplitude times the shape at that channel's index |
| `BalanceControl.SignIsPower` | src/ddf/minim/ugens/Balance.java:69 | the parity test used for `Math.pow(-1, i)` equals `(-1)^i` computed by repeated multiplication, starts at 1 and alternates in sign |
| `BalanceControl.ChannelGain` | src/ddf/minim/ugens/Balance.java:69 | a channel's gain lies in [0, 1]; it is 0 exactly for an even channel at balance <= -1 or an odd one at balance >= 1, and 1 exactly for an even channel at balance >= 0 or an odd one at balance <= 0 |
| `BalanceControl.ZeroBalanceIsIdentity` | src/ddf/minim/ugens/Balance.java:66-70 | a balance of 0 leaves the frame unchanged |
| `BalanceControl.PositiveBalanceAttenuatesOddChannels` | src/ddf/minim/ugens/Balance.java:69 | a balance b >= 0 keeps even channels and scales odd ones by 1 - b, or silences them at b >= 1 |
| `BalanceControl.NegativeBalanceAttenuatesEvenChannels` | src/ddf/minim/ugens/Balance.java:69 | a balance b <= 0 keeps odd channels and scales even ones by 1 + b, or silences them at b <= -1 |
| `BalanceControl.BalanceIsSymmetric` | src/ddf/minim/ugens/Balance.java:69 | negating the balance swaps the gains of the two channels of a pair |
| `BalanceControl.BalanceOnlyAttenuates` | src/ddf/minim/ugens/Balance.java:69 | every output sample has the sign of its input sample and no greater magnitude |
| `BalanceControl.Balance.constructor` | src/ddf/minim/ugens/Balance.java:34-36 | the default balance is 0 |
| `BalanceControl.Balance.WithValue` | src/ddf/minim/ugens/Balance.java:43-51 | the balance is the given value |
| `BalanceControl.Balance.SetBalance` | src/ddf/minim/ugens/Balance.java:58-60 | the balance is the given value, unchanged |
| `BalanceControl.Balance.UGenerate` | src/ddf/minim/ugens/Balance.java:62-71 | a patched balance terminal is latched when there is at least one channel, and every channel is its input times its gain at the latched balance |
| `Chebyshev.ValidType` | src/ddf/minim/effects/ChebFilter.java:96-105 | the stored type is LP or HP; a known type is kept and any other becomes LP |
| `Chebyshev.TypeDiagnostics` | src/ddf/minim/effects/ChebFilter.java:98-101 | an error is reported exactly when the type is neither LP nor HP |
| `Chebyshev.PoleDiagnostics` | src/ddf/minim/effects/ChebFilter.java:174-190 | at most one error; none exactly for even counts from 2 to 20; a rejected count reports too few or odd; the too-many error comes exactly for an accepted count above 20 |
| `Chebyshev.StoredPoles` | src/ddf/minim/effects/ChebFilter.java:174-192 | keeps the invariant that the stored count is 0 or an accepted (even, at least 2) count; a count with no diagnostic is always stored, an accepted one above 20 too, and any other count leaves the stored one |
| `Chebyshev.GainOf` | src/ddf/minim/effects/ChebFilter.java:262 | the gain is finite exactly when `sa != 0` and `sb != 1`, and then it is nonzero with `gain * (1 - sb) == sa` |
| `Chebyshev.CoefficientCounts` | src/ddf/minim/effects/ChebFilter.java:268-277 | the calculation throws exactly when there are more than 22 poles; `a` always has `poles + 1` entries and `b` has `poles` |
| `Chebyshev.FeedbackCoefficients` | src/ddf/minim/effects/ChebFilter.java:240-277 | for at most 20 poles, `b[j]` is the negated cascaded feedback coefficient of delay `j + 1` |
| `Chebyshev.LowSlotsStayZero` | src/ddf/minim/effects/ChebFilter.java:222-238 | slots 0 and 1 of both work arrays stay zero through the cascade |
| `Chebyshev.CascadeDegree` | src/ddf/minim/effects/ChebFilter.java:222-238 | after k sections every slot above `2 + 2k` is zero: the arrays hold polynomials of degree 2k starting at slot 2 |
| `Chebyshev.ShiftedTailZero` | src/ddf/minim/effects/ChebFilter.java:240-245 | for at most 20 poles, the shifted arrays are zero above slot `poles` |
| `Chebyshev.FeedForwardSum` | src/ddf/minim/effects/ChebFilter.java:246-266 | for at most 20 poles, the weighted sum of `a` is the unnormalised sum `sa` divided by the gain |
| `Chebyshev.FeedbackSum` | src/ddf/minim/effects/ChebFilter.java:240-277 | for at most 20 poles, the weighted sum of `b`, with weights moved along by one, is the feedback sum `sb` |
| `Chebyshev.UnitGain` | src/ddf/minim/effects/ChebFilter.java:246-277 | for at most 20 poles and a finite gain, `sum a_j w_j == 1 - sum b_j w_(j+1)`: unit gain at zero frequency for low pass (all weights 1), and at the Nyquist frequency for high pass (weights `(-1)^j`) |
| `Chebyshev.TwentyTwoPolesKeepTopSlots` | src/ddf/minim/effects/ChebFilter.java:241-277 | with 22 poles the calculation completes, but `a[21..22]` and `b[20..21]` are raw cascade slots that were not shifted, negated or normalised |
| `Chebyshev.NoPolesPassThrough` | src/ddf/minim/effects/ChebFilter.java:222-277 | with no poles the result is `a == [1]`, `b == []` with gain 1, for either type |
| `Chebyshev.MultiplySection` | src/ddf/minim/effects/ChebFilter.java:228-237 | one pass copies the work arrays and multiplies slots 2 to 22 by the section: feed-forward by `a0 + a1 z^-1 + a2 z^-2`, feedback by `1 - b0 z^-1 - b1 z^-2` |
| `Chebyshev.CascadeSections` | src/ddf/minim/effects/ChebFilter.java:212-238 | the work arrays end up holding the cascade of sections 1 to `poles / 2` applied to the seed |
| `Chebyshev.ShiftDown` | src/ddf/minim/effects/ChebFilter.java:240-245 | the arrays are shifted down two slots in place, the feedback array cleared at slot 2 and negated |
| `Chebyshev.SumSlots` | src/ddf/minim/effects/ChebFilter.java:247-261 | the loop sums the first 21 slots, weighted by type |
| `Chebyshev.DivideByGain` | src/ddf/minim/effects/ChebFilter.java:262-266 | the first 21 slots are divided by the gain in place |
| `Chebyshev.ComputeCoefficients` | src/ddf/minim/effects/ChebFilter.java:211-277 | the coefficients and the exit status are those of the specification of the whole calculation |
| `Chebyshev.ChebFilter.CalcCoeff` | src/ddf/minim/effects/ChebFilter.java:206-278 | while computation is disabled `a` and `b` are empty; otherwise they and the status are those of the current design; no parameter changes |
| `Chebyshev.ChebFilter.SetType` | src/ddf/minim/effects/ChebFilter.java:96-105 | stores the validated type, logs the error for an unknown one, and recomputes |
| `Chebyshev.ChebFilter.SetRipple` | src/ddf/minim/effects/ChebFilter.java:121-125 | stores the ripple and recomputes |
| `Chebyshev.ChebFilter.SetPoles` | src/ddf/minim/effects/ChebFilter.java:174-194 | a count below 2 or odd is logged and changes neither the poles nor the coefficients; otherwise the count is stored (logged if above 20) and the coefficients recomputed |
| `Chebyshev.ChebFilter.constructor` | src/ddf/minim/effects/ChebFilter.java:77-88 | the setters run with computation disabled and one calculation follows; an invalid pole count leaves 0 poles and the pass-through coefficients `a == [1]`, `b == []` |

## Left out

- The 32-bit wrap-around of NoteManager's `now` and of the index sums
  `now + ...` and `on + ...` is not modelled: indices are unbounded integers.
- Float rounding is not modelled: samples, times, amplitudes and
  coefficients are exact reals.
  - NaN and infinity appear only where they decide the outcome: a zero tempo
    in the cast, and a zero or infinite filter gain.
  - A tempo of -0.0 is treated like +0.0.
- `AdsrEnvelope.ADSR.UGenerate` requires the stage's remaining time to be nonzero. At zero,
  Java divides by zero and the amplitude becomes infinite or NaN. The lemma
  `ZeroAttackDividesByZero` shows this state is reachable. Over exact reals
  it is also the ordinary case: any stage whose length is a whole number of
  steps reaches a remaining time of exactly 0, for instance the default 1 s
  attack at 44100 Hz after 44100 calls, so runs that float Java usually gets
  through are outside the model. Java itself reaches 0/0 = NaN when the step
  is exact in binary, for instance an attack of 1.0 at a sample rate of 4.
- `AdsrEnvelope.ADSR.SampleRateChanged` requires a nonzero sample rate. A zero
  rate would give an infinite time step.
- `Chebyshev.ChebFilter.constructor` requires that the pole count not be an
  even number above 22. For such counts the Java constructor throws an
  `ArrayIndexOutOfBoundsException` and no filter exists. After construction,
  the same exception in the setters is modelled as the status they return.
- `Chebyshev.Divided` keeps a coefficient unscaled when the gain is zero or
  NaN, where Java produces infinities or NaN. The result's `gain` field
  records the case.
- `WaveShaping.Wrapped` is proved to lie in [0, 1) over reals. In float
  arithmetic, a tiny negative remainder plus 1 can round to exactly 1.0f; this
  is not modelled.
- ChebFilter's `a` and `b` are sequences rather than float arrays. The class
  only ever replaces them whole; it never updates them in place.
- `calcTwoPole` (trigonometric and hyperbolic pole placement and the s-to-z
  transform) is not modelled; it is the abstract function `TwoPole`, and its
  `pa`/`pb` out-arrays are a `Section` value.
- The IIR filter base class (`process`, `initArrays`, `frequency()`,
  `sampleRate()`, `setFreq`) is not part of this model. Its cutoff frequency
  and sample rate are plain fields that only the constructor sets.
- The getters `getType`, `getRipple` and `getPoles` are not modelled
  separately; they only read a field.
- The unit-generator graph is not part of this model: patching, `UGenInput`,
  `AudioOutput`, and the `Wavetable` class internals.
- `Minim.debug` is not modelled. `Minim.error` is modelled only as the
  ChebFilter's ghost diagnostic log.
- `synchronized` on `addEvent`, `tick` and `calcCoeff`: concurrency is not
  modelled.
- The host-sketch stand-in `PApplet` and the demo `Main` are not part of this
  model. They are I/O and demo code.
