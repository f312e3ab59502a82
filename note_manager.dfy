/** The sample-accurate note scheduler of src/ddf/minim/NoteManager.java.

    Events are kept under the absolute sample index at which they are due;
    `Tick` is called once per sample by the audio output and sends every event
    due at the current index. Sending an event (an `Instrument.noteOn` or
    `noteOff` call) is modelled by appending it to the ghost trace `sent`. */
module NoteManagement {
  import opened JavaNumerics

  /** A handle naming the instrument an event is sent to. */
  type InstrumentId = nat

  /** The two kinds of scheduled event, as a tagged variant. */
  datatype Event =
    | NoteOn(instrument: InstrumentId, duration: real)
    | NoteOff(instrument: InstrumentId)

  /** The abstract state of a NoteManager. */
  datatype Schedule = Schedule(
    tempo: real,
    noteOffset: real,
    durationFactor: real,
    now: int,
    events: map<int, seq<Event>>,
    paused: bool)

  function InitialSchedule(): Schedule {
    Schedule(60.0, 0.0, 1.0, 0, map[], false)
  }

  /** The events stored under sample index `at` (none when the key is absent). */
  function EventsAt(events: map<int, seq<Event>>, at: int): seq<Event> {
    if at in events then events[at] else []
  }

  /** The number of samples spanned by `beats` beats at `tempo` beats per
      minute, cast to int as the source does (truncation, not rounding). */
  function BeatsToSamples(sampleRate: real, beats: real, tempo: real): int {
    CastQuotient(BeatsTimesRate(sampleRate, beats), tempo)
  }

  /** The float product `sampleRate * beats * 60f` of the source. */
  function BeatsTimesRate(sampleRate: real, beats: real): real {
    sampleRate * beats * 60.0
  }

  /** Sample index of the NoteOn of a note starting `startTime` beats from now. */
  function OnSample(s: Schedule, sampleRate: real, startTime: real): int {
    s.now + BeatsToSamples(sampleRate, startTime + s.noteOffset, s.tempo)
  }

  /** Sample index of the NoteOff of that note, `duration` beats after its NoteOn. */
  function OffSample(s: Schedule, sampleRate: real, startTime: real, duration: real): int {
    OnSample(s, sampleRate, startTime) + BeatsToSamples(sampleRate, ScaledDuration(duration, s.durationFactor), s.tempo)
  }

  /** A note's length in beats once the duration factor is applied. */
  function ScaledDuration(duration: real, durationFactor: real): real {
    duration * durationFactor
  }

  /** `events` with `e` appended to the list stored under `at`. */
  function Append(events: map<int, seq<Event>>, at: int, e: Event): map<int, seq<Event>> {
    events[at := EventsAt(events, at) + [e]]
  }

  /** The schedule after `addEvent(startTime, duration, instrument)`. */
  function Scheduled(s: Schedule, sampleRate: real, startTime: real, duration: real,
                     instrument: InstrumentId): Schedule
  {
    var on := OnSample(s, sampleRate, startTime);
    var off := OffSample(s, sampleRate, startTime, duration);
    s.(events := Append(Append(s.events, on, NoteOn(instrument, duration)), off, NoteOff(instrument)))
  }

  /** The events one `tick` sends. */
  function Due(s: Schedule): seq<Event> {
    if s.paused then [] else EventsAt(s.events, s.now)
  }

  /** The schedule after one `tick`. */
  function Ticked(s: Schedule): Schedule {
    if s.paused then s else s.(events := s.events - {s.now}, now := s.now + 1)
  }

  /** A new manager: tempo 60, no offset, duration factor 1, clock at 0,
      running, nothing scheduled. */
  lemma InitialIsEmpty()
    ensures var s := InitialSchedule();
      s.now == 0 && !s.paused && s.events == map[] && s.tempo == 60.0
      && s.noteOffset == 0.0 && s.durationFactor == 1.0 && Due(s) == []
  {
  }

  /** `addEvent` appends one NoteOn under its start index and one NoteOff under
      its end index behind whatever is already there, and changes nothing else. */
  lemma ScheduledAppends(s: Schedule, sampleRate: real, startTime: real, duration: real,
                         instrument: InstrumentId)
    ensures var on := OnSample(s, sampleRate, startTime);
      var off := OffSample(s, sampleRate, startTime, duration);
      var t := Scheduled(s, sampleRate, startTime, duration, instrument);
      && t.now == s.now && t.paused == s.paused && t.tempo == s.tempo
      && t.noteOffset == s.noteOffset && t.durationFactor == s.durationFactor
      && t.events.Keys == s.events.Keys + {on, off}
      && (on != off ==>
            t.events[on] == EventsAt(s.events, on) + [NoteOn(instrument, duration)]
            && t.events[off] == EventsAt(s.events, off) + [NoteOff(instrument)])
      && (on == off ==>
            t.events[on] == EventsAt(s.events, on) + [NoteOn(instrument, duration), NoteOff(instrument)])
      && (forall k :: k in s.events && k != on && k != off ==> t.events[k] == s.events[k])
  {
    var on := OnSample(s, sampleRate, startTime);
    var off := OffSample(s, sampleRate, startTime, duration);
    var withOn := Append(s.events, on, NoteOn(instrument, duration));
    if on == off {
      assert EventsAt(withOn, off) == EventsAt(s.events, on) + [NoteOn(instrument, duration)];
    } else {
      assert EventsAt(withOn, off) == EventsAt(s.events, off);
    }
  }

  /** `beats` beats at `tempo` beats per minute, in samples, before the cast. */
  function ExactSamples(sampleRate: real, beats: real, tempo: real): real
    requires tempo != 0.0
  {
    BeatsTimesRate(sampleRate, beats) / tempo
  }

  /** Within the int range, the sample count is the exact count truncated
      toward zero, not rounded. */
  lemma SamplesTruncated(sampleRate: real, beats: real, tempo: real)
    requires tempo != 0.0
    requires IntMin as real < ExactSamples(sampleRate, beats, tempo) < IntMax as real
    ensures BeatsToSamples(sampleRate, beats, tempo) == TruncateTowardZero(ExactSamples(sampleRate, beats, tempo))
  {
    CastInRange(BeatsTimesRate(sampleRate, beats), tempo);
  }

  /** At 60 beats per minute the start index is exact for whole samples, but a
      fractional duration is cut, not rounded: 0.75 of a sample at one sample
      per second yields a zero-length note. */
  lemma TruncationNotRounding()
    ensures var s := InitialSchedule();
      OnSample(s, 1.0, 0.0) == 0 && OffSample(s, 1.0, 0.0, 0.75) == 0
  {
    var s := InitialSchedule();
    assert BeatsToSamples(1.0, 0.0, 60.0) == 0;
    assert 1.0 * (0.75 * 1.0) * 60.0 / 60.0 == 0.75;
    assert BeatsToSamples(1.0, 0.75 * 1.0, 60.0) == 0;
  }

  /** When a note's end index coincides with its start index (a zero or
      truncated-away duration), its NoteOn is stored before its NoteOff. */
  lemma ZeroLengthNoteOrdered(s: Schedule, sampleRate: real, startTime: real, duration: real,
                              instrument: InstrumentId)
    requires OffSample(s, sampleRate, startTime, duration) == OnSample(s, sampleRate, startTime)
    ensures var on := OnSample(s, sampleRate, startTime);
      var evs := Scheduled(s, sampleRate, startTime, duration, instrument).events[on];
      |evs| >= 2 && evs[|evs| - 2] == NoteOn(instrument, duration) && evs[|evs| - 1] == NoteOff(instrument)
  {
    ScheduledAppends(s, sampleRate, startTime, duration, instrument);
  }

  /** A paused tick sends nothing and changes nothing. */
  lemma PausedTickIsInert(s: Schedule)
    requires s.paused
    ensures Due(s) == [] && Ticked(s) == s
  {
  }

  /** A running tick sends exactly the list stored under `now`, in order,
      removes that key only, and advances the clock by one. */
  lemma RunningTickDispatches(s: Schedule)
    requires !s.paused
    ensures Due(s) == EventsAt(s.events, s.now)
    ensures Ticked(s).now == s.now + 1 && !Ticked(s).paused
    ensures s.now !in Ticked(s).events
    ensures Ticked(s).events.Keys == s.events.Keys - {s.now}
    ensures forall k :: k in s.events && k != s.now ==> Ticked(s).events[k] == s.events[k]
  {
  }

  /** The calls a client makes on a NoteManager. */
  datatype Op =
    | AddEvent(sampleRate: real, startTime: real, duration: real, instrument: InstrumentId)
    | SetTempo(tempo: real)
    | SetNoteOffset(noteOffset: real)
    | SetDurationFactor(durationFactor: real)
    | Pause
    | Resume
    | Tick

  function Apply(s: Schedule, op: Op): Schedule {
    match op
    case AddEvent(sr, st, d, i) => Scheduled(s, sr, st, d, i)
    case SetTempo(t) => s.(tempo := t)
    case SetNoteOffset(o) => s.(noteOffset := o)
    case SetDurationFactor(f) => s.(durationFactor := f)
    case Pause => s.(paused := true)
    case Resume => s.(paused := false)
    case Tick => Ticked(s)
  }

  /** One running tick: the sample index it served and the events it sent. */
  datatype Dispatch = Dispatch(at: int, events: seq<Event>)

  /** The dispatches made by running `ops` from `s`. */
  function Dispatches(s: Schedule, ops: seq<Op>): seq<Dispatch>
    decreases |ops|
  {
    if |ops| == 0 then []
    else
      var here := if ops[0].Tick? && !s.paused then [Dispatch(s.now, Due(s))] else [];
      here + Dispatches(Apply(s, ops[0]), ops[1..])
  }

  /** The state reached by running `ops` from `s`. */
  function Run(s: Schedule, ops: seq<Op>): Schedule
    decreases |ops|
  {
    if |ops| == 0 then s else Run(Apply(s, ops[0]), ops[1..])
  }

  /** Only a running tick moves the clock, by one. */
  lemma ApplyAdvancesClock(s: Schedule, op: Op)
    ensures Apply(s, op).now == if op.Tick? && !s.paused then s.now + 1 else s.now
  {
  }

  /** Every running tick serves the next sample index: the i-th dispatch is
      at `s.now + i`, and the clock ends one past the last index served. */
  lemma {:induction false} DispatchesAreConsecutive(s: Schedule, ops: seq<Op>)
    ensures Run(s, ops).now == s.now + |Dispatches(s, ops)|
    ensures var d := Dispatches(s, ops);
      forall i :: 0 <= i < |d| ==> d[i].at == s.now + i
    decreases |ops|
  {
    if |ops| > 0 {
      var t := Apply(s, ops[0]);
      ApplyAdvancesClock(s, ops[0]);
      DispatchesAreConsecutive(t, ops[1..]);
      var here := if ops[0].Tick? && !s.paused then [Dispatch(s.now, Due(s))] else [];
      var rest := Dispatches(t, ops[1..]);
      assert Dispatches(s, ops) == here + rest;
      assert Run(s, ops) == Run(t, ops[1..]);
      assert forall i :: 0 <= i < |rest| ==> (here + rest)[|here| + i] == rest[i];
    }
  }

  /** Whatever is called in between, the clock never goes back, and every sample
      index is served by at most one tick: the indices served are strictly
      increasing and all lie in [s.now, final now). An index once served is
      therefore never dispatched again. */
  lemma DispatchedOnce(s: Schedule, ops: seq<Op>)
    ensures s.now <= Run(s, ops).now
    ensures var d := Dispatches(s, ops);
      forall i :: 0 <= i < |d| ==> s.now <= d[i].at < Run(s, ops).now
    ensures var d := Dispatches(s, ops);
      forall i, j :: 0 <= i < j < |d| ==> d[i].at < d[j].at
  {
    DispatchesAreConsecutive(s, ops);
  }

  /** The scheduler as an object whose fields the calls update in place. */
  class NoteManager {
    var tempo: real
    var noteOffset: real
    var durationFactor: real
    var now: int
    var events: map<int, seq<Event>>
    var paused: bool
    /** Every event sent so far, in order. */
    ghost var sent: seq<Event>

    function State(): Schedule
      reads this
    {
      Schedule(tempo, noteOffset, durationFactor, now, events, paused)
    }

    constructor ()
      ensures State() == InitialSchedule() && sent == []
    {
      events := map[];
      tempo := 60.0;
      noteOffset := 0.0;
      durationFactor := 1.0;
      now := 0;
      paused := false;
      sent := [];
    }

    /** `sampleRate` is the owning audio output's current sample rate. */
    method AddEvent(sampleRate: real, startTime: real, duration: real, instrument: InstrumentId)
      modifies this
      ensures State() == Scheduled(old(State()), sampleRate, startTime, duration, instrument)
      ensures sent == old(sent)
    {
      ghost var s0 := State();
      var on := now + BeatsToSamples(sampleRate, startTime + noteOffset, tempo);
      assert on == OnSample(s0, sampleRate, startTime);
      if on in events {
        events := events[on := events[on] + [NoteOn(instrument, duration)]];
      } else {
        assert [] + [NoteOn(instrument, duration)] == [NoteOn(instrument, duration)];
        events := events[on := [NoteOn(instrument, duration)]];
      }
      assert s0.events[on := EventsAt(s0.events, on) + [NoteOn(instrument, duration)]] == events;
      var off := on + BeatsToSamples(sampleRate, ScaledDuration(duration, durationFactor), tempo);
      assert off == OffSample(s0, sampleRate, startTime, duration);
      if off in events {
        events := events[off := events[off] + [NoteOff(instrument)]];
      } else {
        assert [] + [NoteOff(instrument)] == [NoteOff(instrument)];
        events := events[off := [NoteOff(instrument)]];
      }
      assert events == Append(Append(s0.events, on, NoteOn(instrument, duration)), off, NoteOff(instrument));
    }

    method SetTempo(t: real)
      modifies this
      ensures State() == old(State()).(tempo := t) && sent == old(sent)
    {
      tempo := t;
    }

    method SetNoteOffset(o: real)
      modifies this
      ensures State() == old(State()).(noteOffset := o) && sent == old(sent)
    {
      noteOffset := o;
    }

    method SetDurationFactor(f: real)
      modifies this
      ensures State() == old(State()).(durationFactor := f) && sent == old(sent)
    {
      durationFactor := f;
    }

    method Pause()
      modifies this
      ensures State() == old(State()).(paused := true) && sent == old(sent)
    {
      paused := true;
    }

    method Resume()
      modifies this
      ensures State() == old(State()).(paused := false) && sent == old(sent)
    {
      paused := false;
    }

    method Tick()
      modifies this
      ensures State() == Ticked(old(State()))
      ensures sent == old(sent) + Due(old(State()))
    {
      if !paused {
        if now in events {
          var toSend := events[now];
          var i := 0;
          while i < |toSend|
            invariant 0 <= i <= |toSend|
            invariant sent == old(sent) + toSend[..i]
            invariant State() == old(State())
          {
            sent := sent + [toSend[i]];
            i := i + 1;
          }
          events := events - {now};
        }
        now := now + 1;
      }
    }
  }
}
