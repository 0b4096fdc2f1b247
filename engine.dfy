/** struct FmSynth: the voice array and the pool-wide parameters, changed in
    place by the same for-loops as the source. Every method is specified
    by the matching function of module Pool. */
module Engine {
  import opened Voices
  import Pool

  class FmSynth {
    var voices: array<FmVoice>
    var feedback: real
    var modIndex: real
    var ratio: real
    var pitchBend: real

    ghost predicate Valid()
      reads this
    {
      voices.Length == Pool.NumVoices
    }

    /** The synth's state as a value. */
    function State(): (s: Pool.PoolState)
      reads this, voices
      ensures |s.voices| == voices.Length
    {
      Pool.PoolState(voices[..], feedback, modIndex, ratio, pitchBend)
    }

    /** FmSynth::Init (the sample rate only reaches the foreign oscillators
        and envelopes, so it is not a parameter here). */
    constructor ()
      ensures Valid() && fresh(voices)
      ensures State() == Pool.Init()
    {
      voices := new FmVoice[Pool.NumVoices](_ => Voices.Init());
      feedback := 0.0;
      modIndex := 1.0;
      ratio := 1.0;
      pitchBend := 0.0;
      new;
      assert voices[..] == Pool.Init().voices;
    }

    /** FmSynth::NoteOn: find the first inactive voice, fall back to voice
        0, and set that voice up for the note. */
    method NoteOn(note: int, velocity: int)
      requires Valid()
      modifies voices
      ensures Valid()
      ensures State() == Pool.NoteOn(old(State()), note, velocity)
    {
      ghost var before := voices[..];
      var voiceIdx := -1;
      for i := 0 to Pool.NumVoices
        invariant voiceIdx == -1
        invariant forall j :: 0 <= j < i ==> IsActive(voices[j])
      {
        if !IsActive(voices[i]) {
          voiceIdx := i;
          break;
        }
      }
      if voiceIdx == -1 {
        voiceIdx := 0;
      }
      assert voiceIdx == Pool.AllocIndex(before);

      var normalizedVelocity := Pool.NormalizedVelocity(velocity);
      var voice := Trigger(voices[voiceIdx], normalizedVelocity, note);
      voice := voice.(feedback := feedback * normalizedVelocity * 8.0);
      voice := voice.(baseModIndex := modIndex * normalizedVelocity * 2.05);
      voice := voice.(ratio := ratio);
      voice := Voices.SetPitchBend(voice, pitchBend);
      assert voice == Pool.StartVoice(old(State()), before[voiceIdx], note, velocity);
      voices[voiceIdx] := voice;
    }

    /** FmSynth::NoteOff: release every voice holding the note. */
    method NoteOff(note: int)
      requires Valid()
      modifies voices
      ensures Valid()
      ensures State() == Pool.NoteOff(old(State()), note)
    {
      for i := 0 to Pool.NumVoices
        invariant forall j :: 0 <= j < i ==> voices[j] == Pool.ReleaseIfHeld(old(voices[j]), note)
        invariant forall j :: i <= j < Pool.NumVoices ==> voices[j] == old(voices[j])
      {
        if voices[i].noteNumber == note {
          voices[i] := Release(voices[i]);
        }
      }
      assert voices[..] == Pool.NoteOff(old(State()), note).voices;
    }

    /** FmSynth::SetPitchBend: remember the bend and pass it to the active
        voices. */
    method SetPitchBend(bend: real)
      requires Valid()
      modifies this`pitchBend, voices
      ensures Valid()
      ensures State() == Pool.SetPitchBend(old(State()), bend)
    {
      pitchBend := bend;
      for i := 0 to Pool.NumVoices
        modifies voices
        invariant forall j :: 0 <= j < i ==> voices[j] == Pool.BendIfActive(old(voices[j]), bend)
        invariant forall j :: i <= j < Pool.NumVoices ==> voices[j] == old(voices[j])
      {
        if IsActive(voices[i]) {
          voices[i] := Voices.SetPitchBend(voices[i], bend);
        }
      }
      assert voices[..] == Pool.SetPitchBend(old(State()), bend).voices;
    }

    /** FmSynth::SetParam: route a controller value (already scaled to
        [0, 1] by the caller) to the pool and the voices. */
    method SetParam(cc: int, value: real)
      requires Valid()
      modifies this`modIndex, this`feedback, this`ratio, voices
      ensures Valid()
      ensures State() == Pool.SetParam(old(State()), cc, value)
    {
      match cc
      case 1 =>
        modIndex := value * 2.0;
        CopyModIndexToActive();
        feedback := value;
        CopyFeedbackToActive();
      case 2 =>
        feedback := value;
        CopyFeedbackToActive();
      case 3 =>
        ratio := Pool.RatioOf(value);
        CopyRatioToActive();
      case 4 | 5 | 6 | 7 =>
        SetEnvelopes(cc, value);
      case _ =>
    }

    /** The loop of case 1: every active voice takes the pool's modulation
        index as its base index. */
    method CopyModIndexToActive()
      requires Valid()
      modifies voices
      ensures Valid()
      ensures voices[..] == Pool.SetModIndexOfActive(old(voices[..]), modIndex)
    {
      for i := 0 to Pool.NumVoices
        invariant forall j :: 0 <= j < i ==> voices[j] == Pool.SetModIndexOfActive(old(voices[..]), modIndex)[j]
        invariant forall j :: i <= j < Pool.NumVoices ==> voices[j] == old(voices[j])
      {
        if IsActive(voices[i]) {
          voices[i] := voices[i].(baseModIndex := modIndex);
        }
      }
    }

    /** The loops of cases 1 and 2: every active voice takes the pool's
        feedback. */
    method CopyFeedbackToActive()
      requires Valid()
      modifies voices
      ensures Valid()
      ensures voices[..] == Pool.SetFeedbackOfActive(old(voices[..]), feedback)
    {
      for i := 0 to Pool.NumVoices
        invariant forall j :: 0 <= j < i ==> voices[j] == Pool.SetFeedbackOfActive(old(voices[..]), feedback)[j]
        invariant forall j :: i <= j < Pool.NumVoices ==> voices[j] == old(voices[j])
      {
        if IsActive(voices[i]) {
          voices[i] := voices[i].(feedback := feedback);
        }
      }
    }

    /** The loop of case 3: every active voice takes the pool's ratio. */
    method CopyRatioToActive()
      requires Valid()
      modifies voices
      ensures Valid()
      ensures voices[..] == Pool.SetRatioOfActive(old(voices[..]), ratio)
    {
      for i := 0 to Pool.NumVoices
        invariant forall j :: 0 <= j < i ==> voices[j] == Pool.SetRatioOfActive(old(voices[..]), ratio)[j]
        invariant forall j :: i <= j < Pool.NumVoices ==> voices[j] == old(voices[j])
      {
        if IsActive(voices[i]) {
          voices[i] := voices[i].(ratio := ratio);
        }
      }
    }

    /** The loop of cases 4 to 7: every voice, active or not, takes the new
        envelope time or level. */
    method SetEnvelopes(cc: int, value: real)
      requires Valid()
      modifies voices
      ensures Valid()
      ensures voices[..] == Pool.SetEnvelopeOfAll(old(voices[..]), cc, value)
    {
      for i := 0 to Pool.NumVoices
        invariant forall j :: 0 <= j < i ==> voices[j] == Pool.SetEnvelopeOfAll(old(voices[..]), cc, value)[j]
        invariant forall j :: i <= j < Pool.NumVoices ==> voices[j] == old(voices[j])
      {
        var env := voices[i].env;
        if cc == 4 { env := env.(attack := value * 2.0); }
        if cc == 5 { env := env.(decay := value * 2.0); }
        if cc == 6 { env := env.(sustain := value); }
        if cc == 7 { env := env.(release := value * 2.0); }
        voices[i] := voices[i].(env := env);
      }
    }

    /** FmSynth::Process: fill `size` entries of each output buffer, one
        frame per pair of entries, both entries of a pair holding the frame's
        mixed sample. Entries from `size` on are not written. The foreign
        oscillator and envelope output of voice v in frame f is ticks(f, v). */
    method Process(outLeft: array<real>, outRight: array<real>, size: nat, ticks: Pool.Ticks)
      requires Valid()
      requires size % 2 == 0 && size <= outLeft.Length && size <= outRight.Length
      requires outLeft != outRight
      modifies voices, outLeft, outRight
      ensures Valid()
      ensures var b := Pool.Render(old(voices[..]), ticks, size / 2);
              && voices[..] == b.voices
              && (forall k :: 0 <= k < size / 2 ==>
                    && outLeft[2 * k] == b.frames[k].left && outLeft[2 * k + 1] == b.frames[k].left
                    && outRight[2 * k] == b.frames[k].right && outRight[2 * k + 1] == b.frames[k].right)
      ensures forall j :: size <= j < outLeft.Length ==> outLeft[j] == old(outLeft[j])
      ensures forall j :: size <= j < outRight.Length ==> outRight[j] == old(outRight[j])
    {
      ghost var start := voices[..];
      ghost var frames: seq<Pool.Frame> := [];
      var i := 0;
      while i < size
        invariant i == 2 * |frames| && i <= size
        invariant Pool.Render(start, ticks, |frames|) == Pool.Block(voices[..], frames)
        invariant Holds(outLeft, outRight, frames)
        invariant forall j :: i <= j < outLeft.Length ==> outLeft[j] == old(outLeft[j])
        invariant forall j :: i <= j < outRight.Length ==> outRight[j] == old(outRight[j])
      {
        frames := FrameStep(outLeft, outRight, start, frames, i, ticks);
        i := i + 2;
      }
    }

    /** One pass of the outer loop of FmSynth::Process: mix frame i/2 and
        write it to entries i and i+1 of both buffers. */
    method FrameStep(outLeft: array<real>, outRight: array<real>, ghost start: seq<FmVoice>,
                     ghost frames: seq<Pool.Frame>, i: nat, ticks: Pool.Ticks)
      returns (ghost next: seq<Pool.Frame>)
      requires Valid() && outLeft != outRight
      requires Pool.Render(start, ticks, |frames|) == Pool.Block(voices[..], frames)
      requires Holds(outLeft, outRight, frames) && i == 2 * |frames|
      requires i + 2 <= outLeft.Length && i + 2 <= outRight.Length
      modifies voices, outLeft, outRight
      ensures Valid() && |next| == |frames| + 1
      ensures Pool.Render(start, ticks, |next|) == Pool.Block(voices[..], next)
      ensures Holds(outLeft, outRight, next)
      ensures forall j :: i + 2 <= j < outLeft.Length ==> outLeft[j] == old(outLeft[j])
      ensures forall j :: i + 2 <= j < outRight.Length ==> outRight[j] == old(outRight[j])
    {
      ghost var outs := Pool.ProcessAll(voices[..], ticks, i / 2);
      Pool.RenderStep(start, ticks, |frames|, Pool.Block(voices[..], frames), outs);
      var mixL, mixR := MixFrame(i / 2, ticks);
      WriteFrame(outLeft, outRight, frames, i, mixL, mixR);
      next := frames + [Pool.Frame(mixL, mixR)];
    }

    /** Both entries of pair k of each buffer hold frame k. */
    static ghost predicate Holds(outLeft: array<real>, outRight: array<real>, frames: seq<Pool.Frame>)
      reads outLeft, outRight
    {
      && 2 * |frames| <= outLeft.Length && 2 * |frames| <= outRight.Length
      && forall k :: 0 <= k < |frames| ==>
           && outLeft[2 * k] == frames[k].left && outLeft[2 * k + 1] == frames[k].left
           && outRight[2 * k] == frames[k].right && outRight[2 * k + 1] == frames[k].right
    }

    /** Write the mix to entries i and i+1 of the left buffer and the right
        mix to the same entries of the right buffer, the pair after the
        frames already written. */
    static method WriteFrame(outLeft: array<real>, outRight: array<real>, ghost frames: seq<Pool.Frame>,
                             i: nat, mixL: real, mixR: real)
      requires outLeft != outRight
      requires Holds(outLeft, outRight, frames) && i == 2 * |frames|
      requires i + 2 <= outLeft.Length && i + 2 <= outRight.Length
      modifies outLeft, outRight
      ensures Holds(outLeft, outRight, frames + [Pool.Frame(mixL, mixR)])
      ensures forall j :: i + 2 <= j < outLeft.Length ==> outLeft[j] == old(outLeft[j])
      ensures forall j :: i + 2 <= j < outRight.Length ==> outRight[j] == old(outRight[j])
    {
      outLeft[i] := mixL;
      outLeft[i + 1] := mixL;
      outRight[i] := mixR;
      outRight[i + 1] := mixR;
    }

    /** The inner loop of FmSynth::Process: process every voice once and
        sum the outputs, each scaled by 1/kNumVoices. */
    method MixFrame(frame: nat, ticks: Pool.Ticks) returns (mixL: real, mixR: real)
      requires Valid()
      modifies voices
      ensures Valid()
      ensures var outs := Pool.ProcessAll(old(voices[..]), ticks, frame);
              && voices[..] == Pool.VoicesOf(outs)
              && mixL == Pool.MixLeft(outs) && mixR == Pool.MixRight(outs)
    {
      ghost var outs := Pool.ProcessAll(voices[..], ticks, frame);
      mixL, mixR := 0.0, 0.0;
      for v := 0 to Pool.NumVoices
        invariant forall j :: 0 <= j < v ==> voices[j] == outs[j].voice
        invariant forall j :: v <= j < Pool.NumVoices ==> voices[j] == old(voices[j])
        invariant mixL == Pool.MixLeft(outs[..v]) && mixR == Pool.MixRight(outs[..v])
      {
        var out := Voices.Process(voices[v], ticks(frame, v));
        assert out == outs[v];
        assert outs[..v + 1][..v] == outs[..v];
        voices[v] := out.voice;
        mixL := mixL + out.left * (1.0 / Pool.NumVoices as real);
        mixR := mixR + out.right * (1.0 / Pool.NumVoices as real);
      }
      assert outs[..Pool.NumVoices] == outs;
      assert voices[..] == Pool.VoicesOf(outs);
    }
  }
}
