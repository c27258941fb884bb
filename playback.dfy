/**
 * The playback cursor of the continuous output stream and one invocation of
 * the audio callback on it: copy the next samples of the current buffer,
 * scaled by the calibration volume, or emit a noise floor while idle.
 */
module Playback {
  import opened Numeric

  /** The current sample buffer, the position in it, and whether it is playing. */
  datatype Cursor = Cursor(buffer: seq<real>, position: nat, playing: bool)
  {
    ghost predicate Valid() { position <= |buffer| }
    /** The callback copies samples. */
    predicate Active() { playing && |buffer| > 0 && position < |buffer| }
    /** Playing, but every sample has been copied: the callback emits silence. */
    predicate Exhausted() { playing && |buffer| > 0 && position >= |buffer| }
    /** Not playing (or nothing to play): the callback emits the noise floor and rewinds. */
    predicate Idle() { !playing || |buffer| == 0 }
  }

  function Min(a: int, b: int): int { if a < b then a else b }

  /**
   * One callback invocation producing `frames` samples. `noise` stands for the
   * `np.random.normal(0, 0.001, frames)` keep-alive floor.
   */
  function Step(c: Cursor, volume: real, frames: nat, noise: seq<real>): (r: (seq<real>, Cursor))
    requires |noise| == frames
    ensures |r.0| == frames && r.1.buffer == c.buffer
    ensures c.Active() ==>
              var k := Min(frames, |c.buffer| - c.position);
              && r.1.position == c.position + k <= |c.buffer|
              && (r.1.playing <==> r.1.position < |c.buffer|)
              && (forall i :: 0 <= i < k ==> r.0[i] == c.buffer[c.position + i] * volume)
              && (forall i :: k <= i < frames ==> r.0[i] == 0.0)
    ensures c.Exhausted() ==> r.1 == c && forall i :: 0 <= i < frames ==> r.0[i] == 0.0
    ensures c.Idle() ==> r.0 == noise && r.1 == c.(position := 0)
  {
    if c.playing && |c.buffer| > 0 then
      var endPos := Min(c.position + frames, |c.buffer|);
      if endPos > c.position then
        var toneFrames := endPos - c.position;
        var out := seq(frames, i requires 0 <= i < frames =>
                         if i < toneFrames then c.buffer[c.position + i] * volume else 0.0);
        (out, c.(position := endPos, playing := if endPos >= |c.buffer| then false else c.playing))
      else
        (Zeros(frames), c)
    else
      (noise, c.(position := 0))
  }

  /** A step keeps the cursor within its buffer. */
  lemma StepKeepsValid(c: Cursor, volume: real, frames: nat, noise: seq<real>)
    requires |noise| == frames && c.Valid()
    ensures Step(c, volume, frames, noise).1.Valid()
  {
  }

  /** `play(buffer)`: swap in a new buffer, rewind and start, whatever was playing before. */
  function Play(c: Cursor, buffer: seq<real>): (r: Cursor)
    ensures r.Valid() && r.buffer == buffer && r.position == 0 && r.playing
  {
    c.(buffer := buffer, position := 0, playing := true)
  }

  function Scaled(s: seq<real>, volume: real): (r: seq<real>)
    ensures |r| == |s| && forall i :: 0 <= i < |s| ==> r[i] == s[i] * volume
  {
    seq(|s|, i requires 0 <= i < |s| => s[i] * volume)
  }

  /** The output of successive callbacks of `frames` samples until playback stops. */
  function Drain(c: Cursor, volume: real, frames: nat): seq<real>
    requires frames > 0 && c.Valid()
    decreases |c.buffer| - c.position
  {
    if !c.Active() then []
    else
      var (out, next) := Step(c, volume, frames, Zeros(frames));
      out + Drain(next, volume, frames)
  }

  lemma ScaledConcat(a: seq<real>, b: seq<real>, volume: real)
    ensures Scaled(a + b, volume) == Scaled(a, volume) + Scaled(b, volume)
  {
    assert forall i :: 0 <= i < |a + b| ==> Scaled(a + b, volume)[i] == (Scaled(a, volume) + Scaled(b, volume))[i];
  }

  /** An active step emits the next `k` samples scaled, then silence. */
  lemma ActiveChunk(c: Cursor, volume: real, frames: nat)
    requires c.Valid() && c.Active()
    ensures var out, k := Step(c, volume, frames, Zeros(frames)).0, Min(frames, |c.buffer| - c.position);
            && out[..k] == Scaled(c.buffer[c.position..c.position + k], volume)
            && forall i :: k <= i < |out| ==> out[i] == 0.0
  {
    var out, k := Step(c, volume, frames, Zeros(frames)).0, Min(frames, |c.buffer| - c.position);
    var chunk := c.buffer[c.position..c.position + k];
    assert |out[..k]| == k == |Scaled(chunk, volume)|;
    forall i | 0 <= i < k ensures out[..k][i] == Scaled(chunk, volume)[i] {
      assert out[..k][i] == out[i] == c.buffer[c.position + i] * volume;
      assert chunk[i] == c.buffer[c.position + i];
    }
  }

  /**
   * Playing a buffer to its end emits every remaining sample exactly once, in
   * order and scaled by the volume, followed only by silence padding of the
   * last frame.
   */
  lemma {:induction false} DrainPlaysBufferOnce(c: Cursor, volume: real, frames: nat)
    requires frames > 0 && c.Valid() && c.Active()
    ensures var out, rest := Drain(c, volume, frames), c.buffer[c.position..];
            && |rest| <= |out| < |rest| + frames
            && out[..|rest|] == Scaled(rest, volume)
            && forall i :: |rest| <= i < |out| ==> out[i] == 0.0
    decreases |c.buffer| - c.position
  {
    var step := Step(c, volume, frames, Zeros(frames));
    var out, next := step.0, step.1;
    var rest := c.buffer[c.position..];
    ActiveChunk(c, volume, frames);
    assert Drain(c, volume, frames) == out + Drain(next, volume, frames);
    if frames >= |rest| {
      assert !next.Active();
      assert Drain(c, volume, frames) == out;
      assert c.buffer[c.position..c.position + |rest|] == rest;
    } else {
      DrainPlaysBufferOnce(next, volume, frames);
      var later := Drain(next, volume, frames);
      var nrest := next.buffer[next.position..];
      assert rest == c.buffer[c.position..c.position + frames] + nrest;
      ScaledConcat(c.buffer[c.position..c.position + frames], nrest, volume);
      assert out[..frames] == out;
      assert (out + later)[..|rest|] == out + later[..|nrest|];
    }
  }
}
