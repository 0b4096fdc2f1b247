/** The voice pool of struct FmSynth, as values: the eight voices and the
    pool-wide feedback, modulation index, ratio and pitch bend, with NoteOn,
    NoteOff, SetPitchBend, SetParam and the block fill of Process as
    functions. The class Engine.FmSynth runs the same operations in place
    and is specified by these functions. */
module Pool {
  import opened Voices

  /** kNumVoices: the fixed size of the voice array. */
  const NumVoices: nat := 8

  datatype PoolState = PoolState(voices: seq<FmVoice>, feedback: real, modIndex: real, ratio: real, pitchBend: real)

  /** The pool as FmSynth::Init leaves it: every voice initialised, so none
      is active. */
  function Init(): (s: PoolState)
    ensures |s.voices| == NumVoices
    ensures forall i :: 0 <= i < NumVoices ==> !IsActive(s.voices[i]) && s.voices[i].noteNumber < 0
  {
    PoolState(seq(NumVoices, _ => Voices.Init()), 0.0, 1.0, 1.0, 0.0)
  }

  // ---------------------------------------------------------------------
  // Allocation

  /** The lowest index at or after `from` whose voice is not active, or -1
      when every voice from there on is active. */
  function FirstFree(vs: seq<FmVoice>, from: nat): (k: int)
    requires from <= |vs|
    decreases |vs| - from
    ensures k == -1 || from <= k < |vs|
    ensures k == -1 ==> forall j :: from <= j < |vs| ==> IsActive(vs[j])
    ensures k != -1 ==> !IsActive(vs[k]) && forall j :: from <= j < k ==> IsActive(vs[j])
  {
    if from == |vs| then -1
    else if !IsActive(vs[from]) then from
    else FirstFree(vs, from + 1)
  }

  /** The voice NoteOn uses: the lowest-index inactive voice, or voice 0
      when all voices are active. */
  function AllocIndex(vs: seq<FmVoice>): (k: nat)
    requires |vs| == NumVoices
    ensures k < NumVoices
    ensures !IsActive(vs[k]) ==> forall j :: 0 <= j < k ==> IsActive(vs[j])
    ensures IsActive(vs[k]) ==> k == 0 && forall j :: 0 <= j < NumVoices ==> IsActive(vs[j])
  {
    var k := FirstFree(vs, 0);
    if k == -1 then 0 else k
  }

  // ---------------------------------------------------------------------
  // Note on / note off

  /** MIDI velocity 0..127 normalised to [0, 1]. */
  function NormalizedVelocity(velocity: int): real {
    velocity as real / 127.0
  }

  /** How NoteOn sets up the voice it chose: trigger it, derive its feedback
      and base modulation index from the pool and the velocity, copy the
      pool ratio and apply the pool's pitch bend. */
  function StartVoice(s: PoolState, v: FmVoice, note: int, velocity: int): FmVoice {
    var nv := NormalizedVelocity(velocity);
    var t := Trigger(v, nv, note);
    Voices.SetPitchBend(t.(feedback := s.feedback * nv * 8.0,
                           baseModIndex := s.modIndex * nv * 2.05,
                           ratio := s.ratio),
                        s.pitchBend)
  }

  /** FmSynth::NoteOn. The chosen voice sounds the note with the pool's
      ratio and bend; no other voice and no pool parameter changes. */
  function NoteOn(s: PoolState, note: int, velocity: int): (r: PoolState)
    requires |s.voices| == NumVoices
    ensures |r.voices| == NumVoices
    ensures r.(voices := s.voices) == s
    ensures var k, nv := AllocIndex(s.voices), NormalizedVelocity(velocity);
            && r.voices[k].gate && IsActive(r.voices[k])
            && r.voices[k].noteNumber == note
            && r.voices[k].ratio == s.ratio
            && r.voices[k].pitchBend == s.pitchBend * PitchBendSemitones
            && r.voices[k].velocityAmount == nv
            && r.voices[k].feedback == s.feedback * nv * 8.0
            && r.voices[k].baseModIndex == s.modIndex * nv * 2.05
            && r.voices[k].env == s.voices[k].env
            && r.voices[k].prevModL == s.voices[k].prevModL
            && r.voices[k].prevModR == s.voices[k].prevModR
            && forall j :: 0 <= j < NumVoices && j != k ==> r.voices[j] == s.voices[j]
  {
    var k := AllocIndex(s.voices);
    s.(voices := s.voices[k := StartVoice(s, s.voices[k], note, velocity)])
  }

  /** The body of NoteOff's loop for one voice. */
  function ReleaseIfHeld(v: FmVoice, note: int): FmVoice {
    if v.noteNumber == note then Release(v) else v
  }

  /** FmSynth::NoteOff: exactly the voices holding `note` lose their gate;
      nothing else changes, in particular no note number. */
  function NoteOff(s: PoolState, note: int): (r: PoolState)
    ensures r.(voices := s.voices) == s
    ensures |r.voices| == |s.voices|
    ensures forall i :: 0 <= i < |s.voices| ==>
              r.voices[i].gate == (s.voices[i].gate && s.voices[i].noteNumber != note)
    ensures forall i :: 0 <= i < |s.voices| ==> r.voices[i].noteNumber == s.voices[i].noteNumber
    ensures forall i :: 0 <= i < |s.voices| ==> r.voices[i] == s.voices[i].(gate := r.voices[i].gate)
  {
    s.(voices := seq(|s.voices|, i requires 0 <= i < |s.voices| => ReleaseIfHeld(s.voices[i], note)))
  }

  /** A second NoteOff for the same note changes nothing. */
  lemma NoteOffIdempotent(s: PoolState, note: int)
    ensures NoteOff(NoteOff(s, note), note) == NoteOff(s, note)
  {
    var once := NoteOff(s, note);
    assert NoteOff(once, note).voices == once.voices;
  }

  /** A note-off releases the voice the preceding note-on chose. */
  lemma NoteOnThenNoteOff(s: PoolState, note: int, velocity: int)
    requires |s.voices| == NumVoices
    ensures var k, r := AllocIndex(s.voices), NoteOff(NoteOn(s, note, velocity), note);
            !r.voices[k].gate && r.voices[k].noteNumber == note
  {
  }

  /** Stealing makes a note-off stale: with every voice active, a new note
      takes over voice 0, and a note-off for the note voice 0 held before
      (which no other voice holds) then releases nothing. */
  lemma StolenNoteOffIsStale(s: PoolState, note: int, velocity: int)
    requires |s.voices| == NumVoices
    requires forall j :: 0 <= j < NumVoices ==> IsActive(s.voices[j])
    requires s.voices[0].noteNumber != note
    requires forall j :: 1 <= j < NumVoices ==> s.voices[j].noteNumber != s.voices[0].noteNumber
    ensures var r := NoteOn(s, note, velocity);
            && r.voices[0].noteNumber == note
            && NoteOff(r, s.voices[0].noteNumber) == r
  {
    var r := NoteOn(s, note, velocity);
    assert AllocIndex(s.voices) == 0;
    var stale := s.voices[0].noteNumber;
    forall i | 0 <= i < NumVoices
      ensures NoteOff(r, stale).voices[i] == r.voices[i]
    {
      assert r.voices[i].noteNumber != stale;
    }
    assert NoteOff(r, stale).voices == r.voices;
  }

  /** Note-ons applied in order, each with the same velocity. */
  function NoteOns(s: PoolState, notes: seq<int>, velocity: int): (r: PoolState)
    requires |s.voices| == NumVoices
    ensures |r.voices| == NumVoices
    decreases |notes|
  {
    if notes == [] then s
    else NoteOn(NoteOns(s, notes[..|notes| - 1], velocity), notes[|notes| - 1], velocity)
  }

  /** From a freshly initialised pool, up to eight note-ons fill the voices
      in index order and leave the remaining voices untouched. */
  lemma {:induction false} NoteOnsFillInOrder(notes: seq<int>, velocity: int)
    requires |notes| <= NumVoices
    ensures var r := NoteOns(Init(), notes, velocity);
            && (forall j :: 0 <= j < |notes| ==> r.voices[j].gate && r.voices[j].noteNumber == notes[j])
            && (forall j :: |notes| <= j < NumVoices ==> r.voices[j] == Init().voices[j])
  {
    if notes != [] {
      var n := |notes| - 1;
      var before := notes[..n];
      NoteOnsFillInOrder(before, velocity);
      var p := NoteOns(Init(), before, velocity);
      assert !IsActive(p.voices[n]);
      assert IsActive(p.voices[0]) || n == 0;
      assert AllocIndex(p.voices) == n;
    }
  }

  /** NoteOn does not look for a voice already holding the note: the same
      note played twice on a fresh pool sounds on voices 0 and 1, and one
      note-off for it releases both. */
  lemma RepeatedNoteTakesTwoVoices(note: int, velocity: int)
    ensures var r := NoteOns(Init(), [note, note], velocity);
            && r.voices[0].gate && r.voices[0].noteNumber == note
            && r.voices[1].gate && r.voices[1].noteNumber == note
            && !NoteOff(r, note).voices[0].gate && !NoteOff(r, note).voices[1].gate
  {
    NoteOnsFillInOrder([note, note], velocity);
  }

  /** A ninth note-on after eight from a fresh pool steals voice 0; the
      other voices keep their notes, and a note-off for the first note
      (if no other voice holds it) releases nothing. */
  lemma NinthNoteStealsVoiceZero(notes: seq<int>, note: int, velocity: int)
    requires |notes| == NumVoices
    requires notes[0] != note
    requires forall j :: 1 <= j < NumVoices ==> notes[j] != notes[0]
    ensures var r := NoteOn(NoteOns(Init(), notes, velocity), note, velocity);
            && r.voices[0].noteNumber == note
            && (forall j :: 1 <= j < NumVoices ==> r.voices[j].noteNumber == notes[j])
            && NoteOff(r, notes[0]) == r
  {
    NoteOnsFillInOrder(notes, velocity);
    var full := NoteOns(Init(), notes, velocity);
    StolenNoteOffIsStale(full, note, velocity);
  }

  /** Notes 60 to 68 played in turn on a fresh pool: voice 0 ends on note 68,
      voices 1 to 7 on notes 61 to 67, and a note-off for 60 has no effect. */
  lemma NineNotesScenario()
    ensures var r := NoteOn(NoteOns(Init(), [60, 61, 62, 63, 64, 65, 66, 67], 100), 68, 100);
            && r.voices[0].noteNumber == 68
            && (forall j :: 1 <= j < NumVoices ==> r.voices[j].noteNumber == 60 + j)
            && NoteOff(r, 60) == r
  {
    NinthNoteStealsVoiceZero([60, 61, 62, 63, 64, 65, 66, 67], 68, 100);
  }

  // ---------------------------------------------------------------------
  // Pitch bend and controllers

  function BendIfActive(v: FmVoice, bend: real): FmVoice {
    if IsActive(v) then Voices.SetPitchBend(v, bend) else v
  }

  /** FmSynth::SetPitchBend: the pool keeps the bend for later notes; voices
      active now take it in semitones, inactive voices keep their old bend. */
  function SetPitchBend(s: PoolState, bend: real): (r: PoolState)
    ensures r.pitchBend == bend
    ensures r.(voices := s.voices, pitchBend := s.pitchBend) == s
    ensures |r.voices| == |s.voices|
    ensures forall i :: 0 <= i < |s.voices| && IsActive(s.voices[i]) ==>
              r.voices[i].pitchBend == bend * PitchBendSemitones
    ensures forall i :: 0 <= i < |s.voices| && !IsActive(s.voices[i]) ==> r.voices[i] == s.voices[i]
    ensures forall i :: 0 <= i < |s.voices| ==> r.voices[i].(pitchBend := s.voices[i].pitchBend) == s.voices[i]
  {
    s.(pitchBend := bend,
       voices := seq(|s.voices|, i requires 0 <= i < |s.voices| => BendIfActive(s.voices[i], bend)))
  }

  /** A bend sent before a note-on reaches the new note. */
  lemma BendThenNoteOn(s: PoolState, bend: real, note: int, velocity: int)
    requires |s.voices| == NumVoices
    ensures var b := SetPitchBend(s, bend);
            NoteOn(b, note, velocity).voices[AllocIndex(b.voices)].pitchBend == bend * PitchBendSemitones
  {
  }

  /** The loops of SetParam: the first three touch only active voices. */
  function SetModIndexOfActive(vs: seq<FmVoice>, m: real): seq<FmVoice> {
    seq(|vs|, i requires 0 <= i < |vs| => if IsActive(vs[i]) then vs[i].(baseModIndex := m) else vs[i])
  }

  function SetFeedbackOfActive(vs: seq<FmVoice>, f: real): seq<FmVoice> {
    seq(|vs|, i requires 0 <= i < |vs| => if IsActive(vs[i]) then vs[i].(feedback := f) else vs[i])
  }

  function SetRatioOfActive(vs: seq<FmVoice>, ratio: real): seq<FmVoice> {
    seq(|vs|, i requires 0 <= i < |vs| => if IsActive(vs[i]) then vs[i].(ratio := ratio) else vs[i])
  }

  /** Controllers 4 to 7 set attack, decay, sustain and release. */
  function SetEnvelope(e: Envelope, cc: int, value: real): Envelope {
    if cc == 4 then e.(attack := value * 2.0)
    else if cc == 5 then e.(decay := value * 2.0)
    else if cc == 6 then e.(sustain := value)
    else if cc == 7 then e.(release := value * 2.0)
    else e
  }

  function SetEnvelopeOfAll(vs: seq<FmVoice>, cc: int, value: real): seq<FmVoice> {
    seq(|vs|, i requires 0 <= i < |vs| => vs[i].(env := SetEnvelope(vs[i].env, cc, value)))
  }

  /** The ratio controller 3 selects: 0.25 at value 0 up to 4 at value 1. */
  function RatioOf(value: real): (ratio: real)
    ensures 0.0 <= value <= 1.0 ==> 0.25 <= ratio <= 4.0
    ensures 0.0 <= value <= 1.0 ==> ratio > 0.0
  {
    0.25 + value * 3.75
  }

  /** FmSynth::SetParam. No controller changes which voices are active or
      what they play. Controller 1 sets the modulation index to twice the
      value and the feedback to the value, controller 2 the feedback and
      controller 3 the ratio; each is copied to the active voices only.
      Controllers 4 to 7 set an envelope time or level on every voice. Any
      other controller changes nothing. */
  function SetParam(s: PoolState, cc: int, value: real): (r: PoolState)
    ensures |r.voices| == |s.voices|
    ensures forall i :: 0 <= i < |s.voices| ==>
              && IsActive(r.voices[i]) == IsActive(s.voices[i])
              && r.voices[i].gate == s.voices[i].gate
              && r.voices[i].noteNumber == s.voices[i].noteNumber
              && r.voices[i].pitchBend == s.voices[i].pitchBend
    ensures cc == 1 ==>
              && r.(voices := s.voices) == s.(modIndex := value * 2.0, feedback := value)
              && forall i :: 0 <= i < |s.voices| ==>
                   r.voices[i] == if IsActive(s.voices[i]) then s.voices[i].(baseModIndex := value * 2.0, feedback := value)
                                  else s.voices[i]
    ensures cc == 2 ==>
              && r.(voices := s.voices) == s.(feedback := value)
              && forall i :: 0 <= i < |s.voices| ==>
                   r.voices[i] == if IsActive(s.voices[i]) then s.voices[i].(feedback := value) else s.voices[i]
    ensures cc == 3 ==>
              && r.(voices := s.voices) == s.(ratio := RatioOf(value))
              && forall i :: 0 <= i < |s.voices| ==>
                   r.voices[i] == if IsActive(s.voices[i]) then s.voices[i].(ratio := RatioOf(value)) else s.voices[i]
    ensures 4 <= cc <= 7 ==>
              && r.(voices := s.voices) == s
              && forall i :: 0 <= i < |s.voices| ==>
                   && r.voices[i].(env := s.voices[i].env) == s.voices[i]
                   && r.voices[i].env.segment == s.voices[i].env.segment
    ensures cc == 4 ==> forall i :: 0 <= i < |s.voices| ==> r.voices[i].env.attack == value * 2.0
    ensures cc == 5 ==> forall i :: 0 <= i < |s.voices| ==> r.voices[i].env.decay == value * 2.0
    ensures cc == 6 ==> forall i :: 0 <= i < |s.voices| ==> r.voices[i].env.sustain == value
    ensures cc == 7 ==> forall i :: 0 <= i < |s.voices| ==> r.voices[i].env.release == value * 2.0
    ensures !(1 <= cc <= 7) ==> r == s
  {
    match cc
    case 1 =>
      var withIndex := s.(modIndex := value * 2.0);
      var withIndex' := withIndex.(voices := SetModIndexOfActive(withIndex.voices, withIndex.modIndex));
      var withFeedback := withIndex'.(feedback := value);
      withFeedback.(voices := SetFeedbackOfActive(withFeedback.voices, withFeedback.feedback))
    case 2 =>
      var withFeedback := s.(feedback := value);
      withFeedback.(voices := SetFeedbackOfActive(withFeedback.voices, withFeedback.feedback))
    case 3 =>
      var withRatio := s.(ratio := RatioOf(value));
      withRatio.(voices := SetRatioOfActive(withRatio.voices, withRatio.ratio))
    case 4 | 5 | 6 | 7 => s.(voices := SetEnvelopeOfAll(s.voices, cc, value))
    case _ => s
  }

  // ---------------------------------------------------------------------
  // Block fill

  /** The foreign oscillator and envelope output for each (frame, voice). */
  type Ticks = (nat, nat) -> Tick

  /** One stereo frame of the mixed signal. */
  datatype Frame = Frame(left: real, right: real)

  /** The voices after a block, and the mixed frames of the block in order. */
  datatype Block = Block(voices: seq<FmVoice>, frames: seq<Frame>)

  /** Every voice processes one sample of frame `frame`. */
  function ProcessAll(vs: seq<FmVoice>, ticks: Ticks, frame: nat): (outs: seq<VoiceOutput>)
    ensures |outs| == |vs|
  {
    seq(|vs|, v requires 0 <= v < |vs| => Process(vs[v], ticks(frame, v)))
  }

  function VoicesOf(outs: seq<VoiceOutput>): (vs: seq<FmVoice>)
    ensures |vs| == |outs|
  {
    seq(|outs|, v requires 0 <= v < |outs| => outs[v].voice)
  }

  /** The left mix: each voice's sample scaled by 1/kNumVoices, summed in
      voice order. */
  function MixLeft(outs: seq<VoiceOutput>): real {
    if outs == [] then 0.0
    else MixLeft(outs[..|outs| - 1]) + outs[|outs| - 1].left * (1.0 / NumVoices as real)
  }

  function MixRight(outs: seq<VoiceOutput>): real {
    if outs == [] then 0.0
    else MixRight(outs[..|outs| - 1]) + outs[|outs| - 1].right * (1.0 / NumVoices as real)
  }

  /** The first `frames` frames of FmSynth::Process: frame by frame, every
      voice is processed once and the outputs are mixed. */
  function Render(vs: seq<FmVoice>, ticks: Ticks, frames: nat): (b: Block)
    ensures |b.voices| == |vs| && |b.frames| == frames
  {
    if frames == 0 then Block(vs, [])
    else
      var before := Render(vs, ticks, frames - 1);
      var outs := ProcessAll(before.voices, ticks, frames - 1);
      Block(VoicesOf(outs), before.frames + [Frame(MixLeft(outs), MixRight(outs))])
  }

  /** One more frame: the voices after n frames each process one sample,
      and their mixed outputs are appended. */
  lemma RenderStep(vs: seq<FmVoice>, ticks: Ticks, n: nat, b: Block, outs: seq<VoiceOutput>)
    requires Render(vs, ticks, n) == b && outs == ProcessAll(b.voices, ticks, n)
    ensures Render(vs, ticks, n + 1) == Block(VoicesOf(outs), b.frames + [Frame(MixLeft(outs), MixRight(outs))])
  {
  }

  /** Rendering never changes a voice's gate, note or parameters, and never
      makes an inactive voice active. */
  lemma {:induction false} RenderKeepsSettings(vs: seq<FmVoice>, ticks: Ticks, frames: nat)
    ensures var b := Render(vs, ticks, frames);
            forall i :: 0 <= i < |vs| ==>
              && Settings(b.voices[i]) == Settings(vs[i])
              && (IsActive(b.voices[i]) ==> IsActive(vs[i]))
  {
    if frames > 0 {
      RenderKeepsSettings(vs, ticks, frames - 1);
      var before := Render(vs, ticks, frames - 1);
      var outs := ProcessAll(before.voices, ticks, frames - 1);
      forall i | 0 <= i < |vs|
        ensures Settings(outs[i].voice) == Settings(vs[i])
        ensures IsActive(outs[i].voice) ==> IsActive(vs[i])
      {
        assert outs[i] == Process(before.voices[i], ticks(frames - 1, i));
      }
    }
  }

  /** The mix of voices that all wrote 0 is 0. */
  lemma {:induction false} MixOfSilence(outs: seq<VoiceOutput>)
    requires forall v :: 0 <= v < |outs| ==> outs[v].left == 0.0 && outs[v].right == 0.0
    ensures MixLeft(outs) == 0.0 && MixRight(outs) == 0.0
  {
    if outs != [] {
      MixOfSilence(outs[..|outs| - 1]);
    }
  }

  /** A pool whose voices are all released and idle renders silent frames
      and stays exactly as it was (its feedback memory included). */
  lemma {:induction false} SilentPoolRendersSilence(vs: seq<FmVoice>, ticks: Ticks, frames: nat)
    requires forall i :: 0 <= i < |vs| ==> Silent(vs[i])
    ensures var b := Render(vs, ticks, frames);
            b.voices == vs && forall k :: 0 <= k < frames ==> b.frames[k] == Frame(0.0, 0.0)
  {
    if frames > 0 {
      SilentPoolRendersSilence(vs, ticks, frames - 1);
      var outs := ProcessAll(vs, ticks, frames - 1);
      forall v | 0 <= v < |outs|
        ensures outs[v].voice == vs[v] && outs[v].left == 0.0 && outs[v].right == 0.0
      {
        assert outs[v] == Process(vs[v], ticks(frames - 1, v));
      }
      MixOfSilence(outs);
      assert VoicesOf(outs) == vs;
    }
  }

  // ---------------------------------------------------------------------
  // Parameter ranges

  /** The ranges a voice's parameters stay in when every pool parameter is
      in its range and every velocity is a MIDI data byte. */
  ghost predicate VoiceBounded(v: FmVoice) {
    && 0.25 <= v.ratio <= 4.0
    && -PitchBendSemitones <= v.pitchBend <= PitchBendSemitones
    && 0.0 <= v.feedback <= 8.0
    && 0.0 <= v.baseModIndex <= 4.1
    && 0.0 <= v.velocityAmount <= 1.0
    && 0.0 <= v.env.attack <= 2.0 && 0.0 <= v.env.decay <= 2.0
    && 0.0 <= v.env.sustain <= 1.0 && 0.0 <= v.env.release <= 2.0
  }

  /** The pool parameters in the ranges controller values in [0, 1] and
      bends in [-1, 1] give them, and every voice bounded. */
  ghost predicate Bounded(s: PoolState) {
    && |s.voices| == NumVoices
    && 0.25 <= s.ratio <= 4.0
    && -1.0 <= s.pitchBend <= 1.0
    && 0.0 <= s.feedback <= 1.0
    && 0.0 <= s.modIndex <= 2.0
    && forall i :: 0 <= i < NumVoices ==> VoiceBounded(s.voices[i])
  }

  lemma InitBounded()
    ensures Bounded(Init())
  {
    assert forall i :: 0 <= i < NumVoices ==> Init().voices[i] == Voices.Init();
  }

  /** A note-on with a velocity in 0..127 keeps the pool bounded; in
      particular the new voice's feedback is at most 8 and its base
      modulation index at most 4.1. */
  lemma NoteOnKeepsBounded(s: PoolState, note: int, velocity: int)
    requires Bounded(s) && 0 <= velocity <= 127
    ensures Bounded(NoteOn(s, note, velocity))
  {
    var k := AllocIndex(s.voices);
    VelocityScaled(s.feedback, 1.0, velocity);
    VelocityScaled(s.modIndex, 2.0, velocity);
    assert VoiceBounded(StartVoice(s, s.voices[k], note, velocity));
  }

  /** A pool parameter in [0, c] scaled by a MIDI velocity over 127 stays
      in [0, c]. */
  lemma VelocityScaled(p: real, c: real, velocity: int)
    requires 0.0 <= p <= c && 0 <= velocity <= 127
    ensures 0.0 <= p * NormalizedVelocity(velocity) <= c
  {
    ScaleBetween(NormalizedVelocity(velocity), p, 0.0);
  }

  lemma SetPitchBendKeepsBounded(s: PoolState, bend: real)
    requires Bounded(s) && -1.0 <= bend <= 1.0
    ensures Bounded(SetPitchBend(s, bend))
  {
  }

  lemma SetParamKeepsBounded(s: PoolState, cc: int, value: real)
    requires Bounded(s) && 0.0 <= value <= 1.0
    ensures Bounded(SetParam(s, cc, value))
  {
    var r := SetParam(s, cc, value);
    forall i | 0 <= i < NumVoices
      ensures VoiceBounded(r.voices[i])
    {
      assert VoiceBounded(s.voices[i]);
    }
  }

  /** Rendering a block keeps every bound, since it changes no parameter. */
  lemma RenderKeepsBounded(s: PoolState, ticks: Ticks, frames: nat)
    requires Bounded(s)
    ensures Bounded(s.(voices := Render(s.voices, ticks, frames).voices))
  {
    RenderKeepsSettings(s.voices, ticks, frames);
    var b := Render(s.voices, ticks, frames);
    forall i | 0 <= i < NumVoices
      ensures VoiceBounded(b.voices[i])
    {
      assert VoiceBounded(s.voices[i]);
      assert Settings(b.voices[i]) == Settings(s.voices[i]);
    }
  }

  /** With the feedback of a bounded voice, the factor by which the left
      channel's previous modulator sample enters the next one can exceed 1:
      a note at or below 36 started at full velocity after controller 2 was
      set to its maximum gets the factor 8 * 1.3 = 10.4. */
  lemma FeedbackFactorCanExceedOne()
    ensures var s := NoteOn(SetParam(Init(), 2, 1.0), 36, 127);
            && Bounded(s)
            && s.voices[0].feedback * FeedbackScaling(s.voices[0].noteNumber) * 1.3 == 10.4
  {
    InitBounded();
    var a := SetParam(Init(), 2, 1.0);
    SetParamKeepsBounded(Init(), 2, 1.0);
    assert AllocIndex(a.voices) == 0;
    NoteOnKeepsBounded(a, 36, 127);
  }
}
