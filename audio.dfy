/** AudioCallback: render one block into two channel buffers and interleave
    them into the output buffer. */
module Audio {
  import Pool
  import Engine

  /** AudioCallback. `size` is the length of the interleaved output block;
      frame k of the rendered block lands at out[2k] (left) and out[2k+1]
      (right). The input buffer is not read, so it is not a parameter. */
  method AudioCallback(synth: Engine.FmSynth, out: array<real>, size: nat, ticks: Pool.Ticks)
    requires synth.Valid()
    requires size % 2 == 0 && size <= out.Length
    modifies synth.voices, out
    ensures synth.Valid()
    ensures var b := Pool.Render(old(synth.voices[..]), ticks, size / 2);
            && synth.voices[..] == b.voices
            && forall k :: 0 <= k < size / 2 ==> out[2 * k] == b.frames[k].left && out[2 * k + 1] == b.frames[k].right
    ensures forall j :: size <= j < out.Length ==> out[j] == old(out[j])
  {
    var outLeft := new real[size];
    var outRight := new real[size];
    synth.Process(outLeft, outRight, size, ticks);
    ghost var b := Pool.Render(old(synth.voices[..]), ticks, size / 2);

    var i := 0;
    while i < size
      modifies out
      invariant i % 2 == 0 && i <= size
      invariant forall k :: 0 <= k < i / 2 ==> out[2 * k] == b.frames[k].left && out[2 * k + 1] == b.frames[k].right
      invariant forall j :: i <= j < out.Length ==> out[j] == old(out[j])
    {
      out[i] := outLeft[i];
      out[i + 1] := outRight[i];
      i := i + 2;
    }
  }
}
