/** HandleMidiMessage: the dispatch of decoded MIDI events to the synth,
    and what any sequence of events does to the pool. */
module Midi {
  import opened Voices
  import Pool
  import Engine

  /** A MIDI data byte. */
  type DataByte = x: int | 0 <= x < 128

  /** A pitch-bend value: the 14-bit wheel position minus its centre 8192. */
  type BendValue = x: int | -8192 <= x < 8192

  /** The decoded events the handler distinguishes; every other message
      type is OtherEvent. */
  datatype MidiEvent =
    | NoteOnEvent(note: DataByte, velocity: DataByte)
    | NoteOffEvent(note: DataByte, velocity: DataByte)
    | PitchBendEvent(bendValue: BendValue)
    | ControlChangeEvent(controlNumber: DataByte, value: DataByte)
    | OtherEvent

  /** The bend FmSynth::SetPitchBend receives: the value over 8192, which
      lies in [-1, 1). */
  function NormalizedBend(value: BendValue): (bend: real)
    ensures -1.0 <= bend < 1.0
    ensures value == 0 <==> bend == 0.0
  {
    value as real / 8192.0
  }

  /** The value FmSynth::SetParam receives: the controller value over 127,
      which lies in [0, 1]. */
  function NormalizedControl(value: DataByte): (v: real)
    ensures 0.0 <= v <= 1.0
    ensures value == 127 <==> v == 1.0
  {
    value as real / 127.0
  }

  /** What HandleMidiMessage does to the pool. A note-on whose velocity
      byte is 0 is a note-off. */
  function Handle(s: Pool.PoolState, m: MidiEvent): (r: Pool.PoolState)
    requires |s.voices| == Pool.NumVoices
    ensures |r.voices| == Pool.NumVoices
  {
    match m
    case NoteOnEvent(note, velocity) =>
      if velocity != 0 then Pool.NoteOn(s, note, velocity) else Pool.NoteOff(s, note)
    case NoteOffEvent(note, _) => Pool.NoteOff(s, note)
    case PitchBendEvent(value) => Pool.SetPitchBend(s, NormalizedBend(value))
    case ControlChangeEvent(cc, value) => Pool.SetParam(s, cc, NormalizedControl(value))
    case OtherEvent => s
  }

  /** A note-on with velocity 0 acts exactly as a note-off for that note,
      whatever the note-off's velocity, and releases only voices holding
      the note. */
  lemma VelocityZeroIsNoteOff(s: Pool.PoolState, note: DataByte, offVelocity: DataByte)
    requires |s.voices| == Pool.NumVoices
    ensures Handle(s, NoteOnEvent(note, 0)) == Handle(s, NoteOffEvent(note, offVelocity))
    ensures forall i :: 0 <= i < Pool.NumVoices ==>
              Handle(s, NoteOnEvent(note, 0)).voices[i].gate == (s.voices[i].gate && s.voices[i].noteNumber != note)
  {
  }

  /** The events handled in the order the main loop pops them. */
  function Run(s: Pool.PoolState, events: seq<MidiEvent>): (r: Pool.PoolState)
    requires |s.voices| == Pool.NumVoices
    ensures |r.voices| == Pool.NumVoices
    decreases |events|
  {
    if events == [] then s else Run(Handle(s, events[0]), events[1..])
  }

  /** Every event keeps the pool's parameters in range. */
  lemma HandleKeepsBounded(s: Pool.PoolState, m: MidiEvent)
    requires Pool.Bounded(s)
    ensures Pool.Bounded(Handle(s, m))
  {
    match m
    case NoteOnEvent(note, velocity) =>
      if velocity != 0 { Pool.NoteOnKeepsBounded(s, note, velocity); }
    case NoteOffEvent(note, _) =>
    case PitchBendEvent(value) => Pool.SetPitchBendKeepsBounded(s, NormalizedBend(value));
    case ControlChangeEvent(cc, value) => Pool.SetParamKeepsBounded(s, cc, NormalizedControl(value));
    case OtherEvent =>
  }

  /** From a bounded pool (the initial one, say), no sequence of MIDI events
      takes a ratio out of [0.25, 4], a voice's bend out of [-7, 7], its
      feedback out of [0, 8] or its base modulation index out of [0, 4.1]. */
  lemma {:induction false} RunKeepsBounded(s: Pool.PoolState, events: seq<MidiEvent>)
    requires Pool.Bounded(s)
    ensures Pool.Bounded(Run(s, events))
    decreases |events|
  {
    if events != [] {
      HandleKeepsBounded(s, events[0]);
      RunKeepsBounded(Handle(s, events[0]), events[1..]);
    }
  }

  /** The notes that sounding note-ons in the events start. */
  function StartedNotes(events: seq<MidiEvent>): set<int>
    decreases |events|
  {
    if events == [] then {}
    else
      var rest := StartedNotes(events[1..]);
      match events[0]
      case NoteOnEvent(note, velocity) => if velocity != 0 then {note as int} + rest else rest
      case _ => rest
  }

  /** A voice's note number only ever comes from a note-on: after any
      events, each voice holds the note it held before or one that a
      note-on with non-zero velocity started. */
  lemma {:induction false} NotesComeFromNoteOns(s: Pool.PoolState, events: seq<MidiEvent>)
    requires |s.voices| == Pool.NumVoices
    ensures forall i :: 0 <= i < Pool.NumVoices ==>
              Run(s, events).voices[i].noteNumber in {s.voices[i].noteNumber} + StartedNotes(events)
    decreases |events|
  {
    if events != [] {
      var next := Handle(s, events[0]);
      NotesComeFromNoteOns(next, events[1..]);
      forall i | 0 <= i < Pool.NumVoices
        ensures next.voices[i].noteNumber in {s.voices[i].noteNumber} + StartedNotes(events[..1])
      {
        match events[0]
        case NoteOnEvent(note, velocity) =>
        case NoteOffEvent(note, _) =>
        case PitchBendEvent(value) =>
        case ControlChangeEvent(cc, value) =>
        case OtherEvent =>
      }
      assert StartedNotes(events) == StartedNotes(events[..1]) + StartedNotes(events[1..]);
    }
  }

  /** HandleMidiMessage applied to the synth. */
  method HandleMidiMessage(synth: Engine.FmSynth, m: MidiEvent)
    requires synth.Valid()
    modifies synth, synth.voices
    ensures synth.Valid() && synth.voices == old(synth.voices)
    ensures synth.State() == Handle(old(synth.State()), m)
  {
    match m
    case NoteOnEvent(note, velocity) =>
      if velocity != 0 {
        synth.NoteOn(note, velocity);
      } else {
        synth.NoteOff(note);
      }
    case NoteOffEvent(note, _) =>
      synth.NoteOff(note);
    case PitchBendEvent(value) =>
      synth.SetPitchBend(NormalizedBend(value));
    case ControlChangeEvent(cc, value) =>
      synth.SetParam(cc, NormalizedControl(value));
    case OtherEvent =>
  }
}
