/** One FM voice (struct FmVoice): the discrete state a voice keeps between
    samples, and the per-voice operations Trigger, Release, SetPitchBend,
    IsActive and Process. The struct is stored by value in the synth's voice
    array, so each operation is a function from the old voice to the new one. */
module Voices {

  /** Semitones covered by a full pitch-bend deflection. */
  const PitchBendSemitones: real := 7.0

  /** The envelope's current segment, reduced to idle or not idle. */
  datatype Segment = Idle | Sounding

  /** The voice's ADSR envelope: its segment and its four settings
      (times in seconds, sustain as a level). */
  datatype Envelope = Envelope(segment: Segment, attack: real, decay: real, sustain: real, release: real)

  /** The fields of FmVoice that the voice pool reads or writes. Pitch bend
      is in semitones; the previous modulator samples are the one-sample
      feedback memory of the left and right channels. */
  datatype FmVoice = FmVoice(
    gate: bool,
    noteNumber: int,
    pitchBend: real,
    feedback: real,
    baseModIndex: real,
    ratio: real,
    velocityAmount: real,
    prevModL: real,
    prevModR: real,
    env: Envelope)

  /** What the foreign oscillators and the envelope produce for one voice on
      one sample: the two modulator samples, the two carrier samples (after
      the phase offset the voice handed them), the envelope output and
      whether the envelope reached its idle segment on this sample. */
  datatype Tick = Tick(modulatorL: real, modulatorR: real, carrierL: real, carrierR: real,
                       envLevel: real, envFinished: bool)

  /** Result of FmVoice::Process: the updated voice, the left and right
      samples written through the output pointers, and the phase offsets
      passed to the left and right carrier oscillators. */
  datatype VoiceOutput = VoiceOutput(voice: FmVoice, left: real, right: real, phaseL: real, phaseR: real)

  /** The voice as FmVoice::Init leaves it. */
  function Init(): (v: FmVoice)
    ensures !IsActive(v) && v.noteNumber < 0
    ensures v.ratio > 0.0 && v.pitchBend == 0.0
  {
    FmVoice(false, -1, 0.0, 0.0, 1.0, 1.0, 1.0, 0.0, 0.0,
            Envelope(Idle, 0.03, 0.3, 0.7, 0.03))
  }

  /** A voice is active while its key is held or its envelope is still
      running (FmVoice::IsActive). */
  function IsActive(v: FmVoice): (active: bool)
    ensures v.gate ==> active
  {
    v.gate || v.env.segment != Idle
  }

  /** FmVoice::Trigger: start a note. The carrier frequency it also sets is
      not part of this model. */
  function Trigger(v: FmVoice, velocity: real, note: int): (r: FmVoice)
    ensures IsActive(r) && r.gate
    ensures r.noteNumber == note && r.velocityAmount == velocity
    ensures r.(gate := v.gate, noteNumber := v.noteNumber, velocityAmount := v.velocityAmount) == v
  {
    v.(velocityAmount := velocity, noteNumber := note, gate := true)
  }

  /** FmVoice::Release: lift the key. The voice stays active exactly as long
      as its envelope has not reached idle. */
  function Release(v: FmVoice): (r: FmVoice)
    ensures !r.gate
    ensures IsActive(r) <==> v.env.segment != Idle
    ensures r.noteNumber == v.noteNumber
    ensures r.(gate := v.gate) == v
  {
    v.(gate := false)
  }

  /** FmVoice::SetPitchBend: a normalised bend is scaled to semitones. */
  function SetPitchBend(v: FmVoice, bend: real): (r: FmVoice)
    ensures -1.0 <= bend <= 1.0 ==> -PitchBendSemitones <= r.pitchBend <= PitchBendSemitones
    ensures bend == 0.0 <==> r.pitchBend == 0.0
    ensures IsActive(r) == IsActive(v)
    ensures r.(pitchBend := v.pitchBend) == v
  {
    v.(pitchBend := bend * PitchBendSemitones)
  }

  /** One step of the envelope from the voice's gate: a held key keeps the
      envelope running (or starts it), a released envelope reaches idle when
      the foreign envelope says so, and otherwise the segment is kept. */
  function EnvelopeStep(segment: Segment, gate: bool, finished: bool): (r: Segment)
    ensures gate ==> r == Sounding
    ensures !gate && segment == Idle ==> r == Idle
    ensures r == Idle ==> !gate && (segment == Idle || finished)
  {
    if gate then Sounding else if finished then Idle else segment
  }

  /** Position of the note between note 36 and note 96, clamped to [0, 1]. */
  function NotePosition(note: int): (p: real)
    ensures 0.0 <= p <= 1.0
    ensures 36 <= note <= 96 ==> p * 60.0 == (note - 36) as real
    ensures note <= 36 ==> p == 0.0
    ensures note >= 96 ==> p == 1.0
  {
    var p := (note - 36) as real / 60.0;
    if p < 0.0 then 0.0 else if p > 1.0 then 1.0 else p
  }

  /** Scaling of the feedback term: higher notes get less feedback. */
  function FeedbackScaling(note: int): (s: real)
    ensures 0.7 <= s <= 1.0
  {
    1.0 - NotePosition(note) * 0.3
  }

  /** Scaling of the modulation index: higher notes get more modulation. */
  function ModScaling(note: int): (s: real)
    ensures 0.5 <= s <= 1.0
  {
    NotePosition(note) * 0.5 + 0.5
  }

  /** The modulation index a voice applies, from its base index, its
      velocity and its note. */
  function EffectiveModIndex(v: FmVoice): real {
    v.baseModIndex * (0.5 + v.velocityAmount * 0.5) * ModScaling(v.noteNumber)
  }

  /** For a non-negative base index and a velocity in [0, 1], the effective
      index lies between a quarter of the base index and the base index. */
  lemma EffectiveModIndexRange(v: FmVoice)
    requires v.baseModIndex >= 0.0 && 0.0 <= v.velocityAmount <= 1.0
    ensures v.baseModIndex * 0.25 <= EffectiveModIndex(v) <= v.baseModIndex
  {
    var base, a, b := v.baseModIndex, 0.5 + v.velocityAmount * 0.5, ModScaling(v.noteNumber);
    ProductBetween(a, b);
    var k := a * b;
    ScaleBetween(k, base, 0.25);
    Regroup(base, a, b);
    assert EffectiveModIndex(v) == k * base;
  }

  /** Scaling a non-negative value by a factor in [lo, 1] keeps it between
      lo times the value and the value. */
  lemma ScaleBetween(x: real, y: real, lo: real)
    requires lo <= x <= 1.0 && y >= 0.0
    ensures lo * y <= x * y <= y && lo * y <= y * x <= y
  {
    assert (x - lo) * y >= 0.0;
    assert (1.0 - x) * y >= 0.0;
  }

  /** A product of two factors in [0.5, 1] lies in [0.25, 1]. */
  lemma ProductBetween(a: real, b: real)
    requires 0.5 <= a <= 1.0 && 0.5 <= b <= 1.0
    ensures 0.25 <= a * b <= 1.0
  {
    ScaleBetween(a, b, 0.5);
  }

  /** Real multiplication regrouped. */
  lemma Regroup(x: real, y: real, z: real)
    ensures x * y * z == (y * z) * x
  {
  }

  /** Whether FmVoice::Process takes its early exit. */
  predicate Silent(v: FmVoice) {
    !v.gate && v.env.segment == Idle
  }

  /** The parts of a voice that Process never touches: everything except
      the envelope segment and the feedback memory. */
  function Settings(v: FmVoice): FmVoice {
    v.(env := v.env.(segment := Idle), prevModL := 0.0, prevModR := 0.0)
  }

  /** FmVoice::Process: one stereo sample. A silent voice writes 0 to both
      channels and is left as it was; otherwise each channel adds the
      previous modulator sample, scaled by the feedback, to the modulator
      output, turns it into a phase offset for its carrier, scales the
      carrier sample by the envelope and the velocity, and stores the
      modulator signal for the next sample. */
  function Process(v: FmVoice, t: Tick): (o: VoiceOutput)
    ensures Silent(v) ==> o.voice == v && o.left == 0.0 && o.right == 0.0
    ensures Settings(o.voice) == Settings(v)
    ensures IsActive(o.voice) ==> IsActive(v)
    ensures v.gate ==> IsActive(o.voice)
    ensures !Silent(v) ==>
              && o.voice.prevModL == t.modulatorL + v.prevModL * v.feedback * FeedbackScaling(v.noteNumber) * 1.3
              && o.voice.prevModR == t.modulatorR + v.prevModR * v.feedback * FeedbackScaling(v.noteNumber) * 0.75
              && o.left == t.carrierL * t.envLevel * v.velocityAmount
              && o.right == t.carrierR * t.envLevel * v.velocityAmount
  {
    if Silent(v) then
      VoiceOutput(v, 0.0, 0.0, 0.0, 0.0)
    else
      var scaling := FeedbackScaling(v.noteNumber);
      var modIndex := EffectiveModIndex(v);
      var modL := t.modulatorL + v.prevModL * v.feedback * scaling * 1.3;
      var modR := t.modulatorR + v.prevModR * v.feedback * scaling * 0.75;
      var segment := EnvelopeStep(v.env.segment, v.gate, t.envFinished);
      VoiceOutput(v.(prevModL := modL, prevModR := modR, env := v.env.(segment := segment)),
                  t.carrierL * t.envLevel * v.velocityAmount,
                  t.carrierR * t.envLevel * v.velocityAmount,
                  modL * modIndex * 0.75 * 0.1,
                  modR * modIndex * 1.2 * 0.1)
  }
}
