# FM synth voice pool, modelled in Dafny

This project models the FM synthesizer of `Midi.cpp`: eight `FmVoice`
structs held by value in `FmSynth.voices`, the pool-wide feedback,
modulation index, ratio and pitch bend, and the operations that change
them. These are voice allocation with fixed-index stealing (`NoteOn`),
note-off matching (`NoteOff`), pitch-bend and controller broadcast to the
active voices (`SetPitchBend`, `SetParam`), the dispatch of decoded MIDI
events (`HandleMidiMessage`), the block loop that fills the two channel
buffers (`FmSynth::Process`), and the interleaving loop of `AudioCallback`.

Modules, one per part of the program:

- `Voices` (voices.dfy): the `FmVoice` record and the per-voice operations
  `Init`, `IsActive`, `Trigger`, `Release`, `SetPitchBend` and `Process`.
  The voice is a value, as it is in the C++ array, so each operation is a
  function from the old voice to the new one.
- `Pool` (pool.dfy): the whole synth state as a value (`PoolState`). It
  defines `NoteOn`, `NoteOff`, `SetPitchBend`, `SetParam` and the block
  fill `Render` as functions, and proves lemmas about them.
- `Engine` (engine.dfy): `class FmSynth`, with the voice `array` and the
  four pool fields, changed in place by the same `for` loops as the
  source. Each method's postcondition equates the new `State()` with the
  `Pool` function applied to the old state.
- `Midi` (midi.dfy): the event datatype and `HandleMidiMessage`, with its
  value form `Handle`, and `Run`, which handles a sequence of events in
  order as the main loop does. It proves what any event sequence keeps
  invariant.
- `Audio` (audio.dfy): `AudioCallback`.

Floating-point values are modelled as `real`. The output of the foreign
oscillators and envelope is opaque. It is supplied as a `Tick` for each
voice and frame through the `ticks` parameter of the block loop.

The envelope (the daisysp `Adsr`, which is not part of this model) is a
segment flag, `Idle` or `Sounding`, plus its four settings. On a processed
sample a held gate keeps the segment `Sounding` (or starts it). With the
gate low, the segment becomes `Idle` when the foreign envelope reports
that its release has finished, and is otherwise kept. So a released idle
voice never leaves `Idle`.

Three facts about the code shape the model:

- No parameter and no output sample is clamped (Midi.cpp:101-102, 209-251).
- Controller 1 sets both the modulation index and the feedback (Midi.cpp:211-224).
- A note-on whose velocity byte is 0 is handled as a note-off (Midi.cpp:274-275).

`NoteOn` does not check whether some voice already holds the note. Playing
the same note twice therefore sounds it on two voices, and a single
note-off releases both (`Pool.RepeatedNoteTakesTwoVoices`).

`Pool.FeedbackFactorCanExceedOne` shows that a reachable voice feeds back
its previous modulator sample with a factor of 10.4. The value comes from
controller 2 at 127, then note 36 at velocity 127, with no clamp applied.

## Model

| member | source | states |
|---|---|---|
| `Voices.Init` | Midi.cpp:31-60 | a freshly initialised voice is inactive, holds no note (note number below 0), has a positive ratio and no bend |
| `Voices.IsActive` | Midi.cpp:137-139 | a voice whose gate is set is always active |
| `Voices.Trigger` | Midi.cpp:125-131 | the triggered voice is active, holds the note and the velocity, and nothing else of the voice changes |
| `Voices.Release` | Midi.cpp:133-135 | only the gate is cleared; the voice stays active exactly while its envelope is not idle; the note number is kept |
| `Voices.SetPitchBend` | Midi.cpp:115-118 | a bend in [-1, 1] gives a voice bend in [-7, 7] semitones, zero exactly for zero, and nothing else (activity included) changes |
| `Voices.EnvelopeStep` | Midi.cpp:100 | with the gate held the envelope is not idle; with the gate low an idle envelope stays idle; it becomes idle only with the gate low |
| `Voices.NotePosition` | Midi.cpp:77-78 | the note position is in [0, 1], is 0 up to note 36 and 1 from note 96, and is linear in between |
| `Voices.FeedbackScaling` | Midi.cpp:79 | the feedback scaling lies in [0.7, 1] |
| `Voices.ModScaling` | Midi.cpp:80 | the modulation scaling lies in [0.5, 1] |
| `Voices.EffectiveModIndexRange` | Midi.cpp:82-84 | for a non-negative base index and a velocity in [0, 1], the effective index is between a quarter of the base index and the base index |
| `Voices.Process` | Midi.cpp:70-108 | a voice with gate low and idle envelope writes 0 to both channels and is left unchanged, feedback memory included; otherwise the stored modulator samples are this sample's modulator signals with the one-sample feedback term, and the outputs are carrier times envelope times velocity; gate, note and parameters never change, and an inactive voice stays inactive |
| `Pool.Init` | Midi.cpp:149-157 | after initialisation the pool has eight voices, none active and none holding a note |
| `Pool.FirstFree` | Midi.cpp:174-180 | the search returns the lowest inactive index at or after its start, or -1 exactly when all voices from there on are active |
| `Pool.AllocIndex` | Midi.cpp:174-182 | the voice chosen is the lowest-index inactive voice; if it is active then every voice is active and it is voice 0 |
| `Pool.NoteOn` | Midi.cpp:173-190 | the chosen voice becomes active with the note, the velocity over 127, the pool ratio, 7 times the pool bend, feedback pool feedback times velocity times 8 and base index pool index times velocity times 2.05; its envelope and feedback memory are kept; every other voice and every pool parameter is unchanged |
| `Pool.NoteOff` | Midi.cpp:192-198 | a voice's gate is cleared exactly when it holds the note; no note number and nothing else changes |
| `Pool.NoteOffIdempotent` | Midi.cpp:192-198 | applying NoteOff twice equals applying it once |
| `Pool.NoteOnThenNoteOff` | Midi.cpp:173-198 | a note-off for the note just started releases the voice that note-on chose |
| `Pool.StolenNoteOffIsStale` | Midi.cpp:173-198 | with all voices active, a new note overwrites voice 0's note, and a note-off for voice 0's previous note (held by no other voice) then changes nothing |
| `Pool.NoteOnsFillInOrder` | Midi.cpp:173-190 | from a fresh pool, up to eight note-ons fill voices 0, 1, ... in order and leave the rest as initialised |
| `Pool.RepeatedNoteTakesTwoVoices` | Midi.cpp:173-198 | the same note played twice on a fresh pool sounds on voices 0 and 1, and one note-off for it releases both |
| `Pool.NinthNoteStealsVoiceZero` | Midi.cpp:173-198 | a ninth note-on after eight from a fresh pool takes voice 0, the other voices keep their notes, and a note-off for the first note does nothing |
| `Pool.NineNotesScenario` | Midi.cpp:173-198 | notes 60 to 68 in turn leave voice 0 on 68 and voices 1 to 7 on 61 to 67, and a note-off for 60 has no effect |
| `Pool.SetPitchBend` | Midi.cpp:200-207 | the pool stores the bend; each voice active at that moment gets 7 times the bend, and inactive voices are unchanged; nothing else of any voice changes |
| `Pool.BendThenNoteOn` | Midi.cpp:185-207 | a bend sent before a note-on reaches the new note's voice as 7 times the bend |
| `Pool.RatioOf` | Midi.cpp:234 | a controller value in [0, 1] gives a ratio in [0.25, 4], so a positive one |
| `Pool.SetParam` | Midi.cpp:209-251 | no controller changes a voice's activity, gate, note or bend; cc 1 sets the pool index to 2·value and feedback to value and copies both to active voices only; cc 2 does so for the feedback; cc 3 sets the ratio and copies it to active voices only; cc 4 to 7 set attack, decay, sustain or release on every voice without touching its segment; any other controller changes nothing |
| `Pool.Render` | Midi.cpp:159-170 | rendering n frames keeps the number of voices and yields exactly n frames |
| `Pool.RenderKeepsSettings` | Midi.cpp:159-170 | over any number of frames no voice's gate, note or parameters change and no inactive voice becomes active |
| `Pool.MixOfSilence` | Midi.cpp:161-167 | the mix of voices that all wrote 0 is 0 on both channels |
| `Pool.SilentPoolRendersSilence` | Midi.cpp:159-170 | a pool whose voices are all released and idle renders only zero frames and stays exactly as it was |
| `Pool.InitBounded` | Midi.cpp:149-157 | the initial pool satisfies every parameter bound |
| `Pool.NoteOnKeepsBounded` | Midi.cpp:184-189 | a note-on with a MIDI velocity keeps every bound (voice feedback at most 8, base index at most 4.1) |
| `Pool.SetPitchBendKeepsBounded` | Midi.cpp:200-207 | a bend in [-1, 1] keeps every bound |
| `Pool.SetParamKeepsBounded` | Midi.cpp:209-251 | a controller value in [0, 1] keeps every bound |
| `Pool.RenderKeepsBounded` | Midi.cpp:159-170 | rendering a block keeps every bound |
| `Pool.FeedbackFactorCanExceedOne` | Midi.cpp:186 | controller 2 at 127 then note 36 at velocity 127 gives a bounded pool whose voice 0 feeds back its previous left modulator sample with factor 10.4 |
| `Engine.FmSynth.constructor` | Midi.cpp:149-157 | the new synth's state is the initial pool |
| `Engine.FmSynth.NoteOn` | Midi.cpp:173-190 | the search loop with its break and the updates of the chosen slot leave the state Pool.NoteOn gives |
| `Engine.FmSynth.NoteOff` | Midi.cpp:192-198 | the loop leaves the state Pool.NoteOff gives |
| `Engine.FmSynth.SetPitchBend` | Midi.cpp:200-207 | the loop leaves the state Pool.SetPitchBend gives |
| `Engine.FmSynth.SetParam` | Midi.cpp:209-251 | the switch and its loops leave the state Pool.SetParam gives |
| `Engine.FmSynth.CopyModIndexToActive` | Midi.cpp:213-217 | the loop gives each active voice the pool's modulation index as its base index and leaves inactive voices as they were |
| `Engine.FmSynth.CopyFeedbackToActive` | Midi.cpp:219-223 | the loop gives each active voice the pool's feedback and leaves inactive voices as they were |
| `Engine.FmSynth.CopyRatioToActive` | Midi.cpp:235-240 | the loop gives each active voice the pool's ratio and leaves inactive voices as they were |
| `Engine.FmSynth.SetEnvelopes` | Midi.cpp:243-248 | the loop sets the attack, decay, sustain or release selected by the controller on every voice, active or not |
| `Engine.FmSynth.FrameStep` | Midi.cpp:160-170 | one pass of the outer loop extends the rendered frames by one, both entries of the new pair hold it, and later entries are untouched |
| `Engine.FmSynth.WriteFrame` | Midi.cpp:168-169 | writing the mix to entries i and i+1 of both buffers keeps the earlier pairs and adds the new frame |
| `Engine.FmSynth.MixFrame` | Midi.cpp:161-167 | the inner loop processes every voice once in place and returns the two mixes, each voice's sample scaled by 1/8 |
| `Engine.FmSynth.Process` | Midi.cpp:159-170 | for even size, entries 2k and 2k+1 of each buffer hold frame k of Pool.Render, no entry from size on is written, and the voices end as Pool.Render leaves them |
| `Midi.NormalizedBend` | Midi.cpp:285 | a pitch-bend value over 8192 lies in [-1, 1), zero exactly for the centre |
| `Midi.NormalizedControl` | Midi.cpp:291 | a controller value over 127 lies in [0, 1], reaching 1 exactly at 127 |
| `Midi.Handle` | Midi.cpp:269-296 | handling an event keeps the pool at eight voices |
| `Midi.VelocityZeroIsNoteOff` | Midi.cpp:272-281 | a note-on with velocity byte 0 has exactly the effect of a note-off for the same note, releasing only voices that hold it |
| `Midi.Run` | Midi.cpp:313-318 | handling a sequence of events in order keeps the pool at eight voices |
| `Midi.HandleKeepsBounded` | Midi.cpp:269-296 | every MIDI event keeps every parameter bound |
| `Midi.RunKeepsBounded` | Midi.cpp:313-318 | from a bounded pool no event sequence takes a ratio out of [0.25, 4], a voice bend out of [-7, 7], a voice feedback out of [0, 8] or a base index out of [0, 4.1] |
| `Midi.NotesComeFromNoteOns` | Midi.cpp:269-296 | after any events each voice holds its earlier note or one started by a note-on with non-zero velocity |
| `Midi.HandleMidiMessage` | Midi.cpp:269-296 | dispatching an event to the synth leaves the state Handle gives |
| `Audio.AudioCallback` | Midi.cpp:256-267 | out[2k] and out[2k+1] hold the left and right samples of frame k of the rendered block, nothing from size on is written, and the voices end as rendered |

## Left out

- The daisysp `Oscillator`, `Adsr` and `mtof` are foreign code. Their samples, the envelope level and the envelope's arrival at idle are the opaque `Tick` input of each voice and frame.
- Voices.EnvelopeStep: states the envelope only as far as idle or not idle. Attack, decay and sustain levels and the times set by controllers 4 to 7 have no effect in the model; they are only stored.
- Voices.Process: the phase offsets of Midi.cpp:89-90 and 96-97 are computed from the effective modulation index and returned as `phaseL` and `phaseR`. The carrier samples in `Tick` are opaque, so in the model they do not depend on these offsets, and `EffectiveModIndexRange` bounds a value that reaches no output.
- Carrier frequency, `current_freq`, `SetFreq`, `UpdateFrequencies` and the `powf` bend: the frequency only reaches the foreign oscillators, so the model keeps the note number and the bend in semitones instead.
- `SetAmp`, the oscillator amplitude, the unused `prev_carrier_signalL/R` fields and the voice's own `mod_index` field are not modelled. They are either unused or only reach foreign code.
- Single-precision rounding, overflow and NaN are outside the model, since all arithmetic is on `real`. This covers the 1/kNumVoices mix scaling and the feedback products.
- Engine.FmSynth.Process: requires an even `size`. The Daisy audio callback always passes an even interleaved block size, and an odd one would make the loop write `out_left[size]`.
- Audio.AudioCallback: the input buffer is not read by the source, so it is no parameter.
- Hardware set-up (`hw.Init`, block size, USB, `StartAdc`, `StartAudio`), MIDI reception and byte-level parsing are left out. The `main` loop's event polling appears only as `Midi.Run`.
- Concurrency: the main loop and the audio callback share the synth without synchronisation. Each operation is modelled as atomic and sequential.
