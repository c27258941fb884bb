/**
 * Timeline compilation: each trial becomes a random gap of silence followed by
 * its tone in one sample buffer, with an event recording when the tone plays;
 * two seconds of silence close the buffer. Event times advance by the exact gap
 * length while the buffer receives only `int(gap * sample_rate)` samples; the
 * model keeps both quantities and bounds their drift.
 */
module Timeline {
  import opened TestPlan
  import opened Tone
  import opened Numeric

  /** A tone event: when trial `testIndex` starts and stops sounding, in seconds from the start of the buffer. */
  datatype Event = Event(startTime: real, endTime: real, testIndex: nat)

  /** The tone synthesiser the compiler calls for each trial, with its transcendental parts. */
  datatype Synth = Synth(settings: ToneSettings, sine: (real, nat) -> real, pow: (real, real) -> real)
  {
    ghost predicate Valid() { settings.Valid() }

    function ToneOf(t: Trial): (tone: seq<real>)
      requires Valid()
      ensures |tone| == settings.ToneLength()
    {
      ProfilerTone(settings, t.frequency, t.intensity, sine, pow)
    }

    /** `len(tone) / sample_rate`: how long every tone lasts, in seconds. */
    function ToneSeconds(): real
      requires Valid()
    {
      settings.ToneLength() as real / settings.sampleRate as real
    }
  }

  ghost predicate NonNegative(gaps: seq<real>) {
    forall k :: 0 <= k < |gaps| ==> gaps[k] >= 0.0
  }

  lemma NonNegativePrefix(gaps: seq<real>, n: nat)
    requires NonNegative(gaps) && n <= |gaps|
    ensures NonNegative(gaps[..n])
  {
  }

  /** `int(gap * sample_rate)`: the silence actually written for one gap. */
  function GapSamples(gap: real, sampleRate: nat): nat
    requires gap >= 0.0
  {
    Truncate(gap * sampleRate as real)
  }

  function SumGaps(gaps: seq<real>): real
  {
    if gaps == [] then 0.0 else SumGaps(gaps[..|gaps| - 1]) + gaps[|gaps| - 1]
  }

  function SumGapSamples(gaps: seq<real>, sampleRate: nat): nat
    requires NonNegative(gaps)
  {
    if gaps == [] then 0
    else SumGapSamples(gaps[..|gaps| - 1], sampleRate) + GapSamples(gaps[|gaps| - 1], sampleRate)
  }

  /** The gaps and tones of the first `|trials|` trials, without the trailing silence. */
  function Layout(trials: seq<Trial>, gaps: seq<real>, synth: Synth): seq<real>
    requires |gaps| == |trials| && NonNegative(gaps) && synth.Valid()
  {
    if trials == [] then []
    else
      var n := |trials| - 1;
      Layout(trials[..n], gaps[..n], synth) + Zeros(GapSamples(gaps[n], synth.settings.sampleRate)) + synth.ToneOf(trials[n])
  }

  /** The compiler's clock after `i` trials: each adds its gap and one tone length. */
  function Clock(gaps: seq<real>, i: nat, synth: Synth): real
    requires i <= |gaps| && synth.Valid()
  {
    if i == 0 then 0.0 else Clock(gaps, i - 1, synth) + gaps[i - 1] + synth.ToneSeconds()
  }

  /** The clock is the sum of the first `i` gaps plus `i` tone lengths. */
  lemma {:induction false} ClockClosedForm(gaps: seq<real>, i: nat, synth: Synth)
    requires i <= |gaps| && synth.Valid()
    ensures Clock(gaps, i, synth) == SumGaps(gaps[..i]) + (i as real) * synth.ToneSeconds()
  {
    if i > 0 {
      ClockClosedForm(gaps, i - 1, synth);
      assert gaps[..i][..i - 1] == gaps[..i - 1];
      assert SumGaps(gaps[..i]) == SumGaps(gaps[..i - 1]) + gaps[i - 1];
      assert (i as real) * synth.ToneSeconds() == ((i - 1) as real) * synth.ToneSeconds() + synth.ToneSeconds();
    }
  }

  /** The start time of tone `i`: the clock after the earlier trials, plus its own gap. */
  function StartTime(gaps: seq<real>, i: nat, synth: Synth): real
    requires i < |gaps| && synth.Valid()
  {
    Clock(gaps, i, synth) + gaps[i]
  }

  /** The first sample of tone `i` in the buffer. */
  function ToneOffset(gaps: seq<real>, i: nat, synth: Synth): nat
    requires i < |gaps| && NonNegative(gaps) && synth.Valid()
  {
    SumGapSamples(gaps[..i + 1], synth.settings.sampleRate) + i * synth.settings.ToneLength()
  }

  function EventAt(gaps: seq<real>, i: nat, synth: Synth): Event
    requires i < |gaps| && synth.Valid()
  {
    var start := StartTime(gaps, i, synth);
    Event(start, start + synth.ToneSeconds(), i)
  }

  /** The two seconds of silence after the last tone. */
  function FinalGap(synth: Synth): nat
    requires synth.Valid()
  {
    Truncate(2.0 * synth.settings.sampleRate as real)
  }

  /**
   * `generate_test_audio_stream`: for each trial, append its gap and its tone and
   * record an event; then append the final gap. `gaps` are the values drawn by
   * `random.uniform(min_gap, max_gap)`.
   */
  method GenerateTestAudioStream(trials: seq<Trial>, gaps: seq<real>, synth: Synth)
    returns (audio: seq<real>, events: seq<Event>)
    requires |gaps| == |trials| && NonNegative(gaps) && synth.Valid()
    ensures audio == Layout(trials, gaps, synth) + Zeros(FinalGap(synth))
    ensures |audio| == SumGapSamples(gaps, synth.settings.sampleRate)
                       + |trials| * synth.settings.ToneLength() + FinalGap(synth)
    ensures |events| == |trials|
    ensures forall i :: 0 <= i < |events| ==> events[i] == EventAt(gaps, i, synth)
  {
    var sampleRate := synth.settings.sampleRate;
    audio := [];
    events := [];
    var currentTime := 0.0;
    for i := 0 to |trials|
      invariant audio == Layout(trials[..i], gaps[..i], synth)
      invariant currentTime == Clock(gaps, i, synth)
      invariant |events| == i
      invariant forall k :: 0 <= k < i ==> events[k] == EventAt(gaps, k, synth)
    {
      var gapDuration := gaps[i];
      audio := audio + Zeros(GapSamples(gapDuration, sampleRate));
      currentTime := currentTime + gapDuration;

      var toneStart := currentTime;
      var tone := synth.ToneOf(trials[i]);
      audio := audio + tone;
      currentTime := currentTime + |tone| as real / sampleRate as real;
      var toneEnd := currentTime;

      CompileStep(trials, gaps, synth, i);
      assert |tone| as real / sampleRate as real == synth.ToneSeconds();
      assert Event(toneStart, toneEnd, i) == EventAt(gaps, i, synth);
      events := events + [Event(toneStart, toneEnd, i)];
    }
    assert trials[..|trials|] == trials;
    assert gaps[..|gaps|] == gaps;
    LayoutLength(trials, gaps, synth);
    audio := audio + Zeros(FinalGap(synth));
  }

  /** One iteration of the compiler extends the layout by a gap and a tone, and the clock by both. */
  lemma CompileStep(trials: seq<Trial>, gaps: seq<real>, synth: Synth, i: nat)
    requires |gaps| == |trials| && NonNegative(gaps) && synth.Valid() && i < |trials|
    ensures Layout(trials[..i + 1], gaps[..i + 1], synth)
            == Layout(trials[..i], gaps[..i], synth) + Zeros(GapSamples(gaps[i], synth.settings.sampleRate))
               + synth.ToneOf(trials[i])
  {
    assert trials[..i + 1][..i] == trials[..i];
    assert gaps[..i + 1][..i] == gaps[..i];
  }

  /** The buffer holds the truncated gaps and every tone in full. */
  lemma {:induction false} LayoutLength(trials: seq<Trial>, gaps: seq<real>, synth: Synth)
    requires |gaps| == |trials| && NonNegative(gaps) && synth.Valid()
    ensures |Layout(trials, gaps, synth)| ==
            SumGapSamples(gaps, synth.settings.sampleRate) + |trials| * synth.settings.ToneLength()
  {
    if trials != [] {
      var n := |trials| - 1;
      var sr, len := synth.settings.sampleRate, synth.settings.ToneLength();
      NonNegativePrefix(gaps, n);
      LayoutLength(trials[..n], gaps[..n], synth);
      assert |Layout(trials, gaps, synth)|
          == |Layout(trials[..n], gaps[..n], synth)| + GapSamples(gaps[n], sr) + len;
      assert SumGapSamples(gaps, sr) == SumGapSamples(gaps[..n], sr) + GapSamples(gaps[n], sr);
      MulStep(n, len);
    }
  }

  /**
   * Tone `i` sits in the buffer at `ToneOffset(gaps, i)`, preceded by its gap of silence.
   */
  lemma {:induction false} LayoutPlacement(trials: seq<Trial>, gaps: seq<real>, synth: Synth, i: nat)
    requires |gaps| == |trials| && NonNegative(gaps) && synth.Valid()
    requires i < |trials|
    ensures var layout, off, len := Layout(trials, gaps, synth), ToneOffset(gaps, i, synth), synth.settings.ToneLength();
            && off + len <= |layout|
            && layout[off..off + len] == synth.ToneOf(trials[i])
            && GapSamples(gaps[i], synth.settings.sampleRate) <= off
            && forall j :: off - GapSamples(gaps[i], synth.settings.sampleRate) <= j < off ==> layout[j] == 0.0
  {
    var n := |trials| - 1;
    if i < n {
      var len := synth.settings.ToneLength();
      var prefix := Layout(trials[..n], gaps[..n], synth);
      var layout := Layout(trials, gaps, synth);
      var off := ToneOffset(gaps, i, synth);
      NonNegativePrefix(gaps, n);
      LayoutPlacement(trials[..n], gaps[..n], synth, i);
      assert gaps[..n][..i + 1] == gaps[..i + 1];
      assert ToneOffset(gaps[..n], i, synth) == off;
      LayoutExtends(trials, gaps, synth);
      assert layout[off..off + len] == prefix[off..off + len];
    } else {
      LastPlacement(trials, gaps, synth);
    }
  }

  /** The layout of all trials starts with the layout of all but the last. */
  lemma LayoutExtends(trials: seq<Trial>, gaps: seq<real>, synth: Synth)
    requires |gaps| == |trials| && NonNegative(gaps) && synth.Valid() && trials != []
    ensures var n := |trials| - 1;
            NonNegative(gaps[..n]) &&
            var prefix := Layout(trials[..n], gaps[..n], synth);
            |prefix| <= |Layout(trials, gaps, synth)| && Layout(trials, gaps, synth)[..|prefix|] == prefix
  {
  }

  /** The last tone follows its gap at the end of the layout. */
  lemma LastPlacement(trials: seq<Trial>, gaps: seq<real>, synth: Synth)
    requires |gaps| == |trials| && NonNegative(gaps) && synth.Valid() && trials != []
    ensures var i := |trials| - 1;
            var layout, off, len := Layout(trials, gaps, synth), ToneOffset(gaps, i, synth), synth.settings.ToneLength();
            && off + len <= |layout|
            && layout[off..off + len] == synth.ToneOf(trials[i])
            && GapSamples(gaps[i], synth.settings.sampleRate) <= off
            && forall j :: off - GapSamples(gaps[i], synth.settings.sampleRate) <= j < off ==> layout[j] == 0.0
  {
    var n := |trials| - 1;
    var sr, len := synth.settings.sampleRate, synth.settings.ToneLength();
    var prefix := Layout(trials[..n], gaps[..n], synth);
    var gap := Zeros(GapSamples(gaps[n], sr));
    var tone := synth.ToneOf(trials[n]);
    var layout := Layout(trials, gaps, synth);
    assert layout == prefix + gap + tone;
    NonNegativePrefix(gaps, n);
    LayoutLength(trials[..n], gaps[..n], synth);
    var off := ToneOffset(gaps, n, synth);
    assert gaps[..n + 1] == gaps;
    assert SumGapSamples(gaps, sr) == SumGapSamples(gaps[..n], sr) + |gap|;
    assert off == |prefix| + |gap|;
    assert layout[off..off + len] == tone;
    assert forall j :: |prefix| <= j < off ==> layout[j] == gap[j - |prefix|];
  }

  /** Consecutive events never overlap, and start strictly later when every gap is positive. */
  lemma EventsOrdered(gaps: seq<real>, synth: Synth, i: nat)
    requires synth.Valid() && i + 1 < |gaps| && NonNegative(gaps)
    ensures EventAt(gaps, i, synth).endTime + gaps[i + 1] == EventAt(gaps, i + 1, synth).startTime
    ensures EventAt(gaps, i, synth).endTime <= EventAt(gaps, i + 1, synth).startTime
    ensures gaps[i + 1] > 0.0 ==> EventAt(gaps, i, synth).startTime < EventAt(gaps, i + 1, synth).startTime
  {
    assert synth.ToneSeconds() >= 0.0;
  }

  /** Truncating each gap loses less than one sample per gap, never gains. */
  lemma {:induction false} GapTruncation(gaps: seq<real>, sampleRate: nat)
    requires NonNegative(gaps)
    ensures SumGapSamples(gaps, sampleRate) as real <= SumGaps(gaps) * sampleRate as real
    ensures gaps != [] ==> SumGaps(gaps) * sampleRate as real < (SumGapSamples(gaps, sampleRate) + |gaps|) as real
  {
    if gaps != [] {
      var n := |gaps| - 1;
      GapTruncation(gaps[..n], sampleRate);
      assert SumGaps(gaps) * sampleRate as real
          == SumGaps(gaps[..n]) * sampleRate as real + gaps[n] * sampleRate as real;
    }
  }

  /**
   * The drift between an event's clock time and its tone's place in the buffer:
   * tone `i` starts in the buffer at or before its event time, by fewer than `i + 1` samples.
   */
  lemma EventDrift(gaps: seq<real>, synth: Synth, i: nat)
    requires synth.Valid() && i < |gaps| && NonNegative(gaps)
    ensures var sr := synth.settings.sampleRate as real;
            var off := ToneOffset(gaps, i, synth) as real;
            off <= EventAt(gaps, i, synth).startTime * sr < off + (i + 1) as real
  {
    var sr := synth.settings.sampleRate;
    var len := synth.settings.ToneLength();
    GapTruncation(gaps[..i + 1], sr);
    StartTimeInSamples(gaps, synth, i);
    assert ((i * len) as real) == (i as real) * (len as real);
  }

  /** An event's start time in samples: its summed gaps in samples, plus `i` whole tones. */
  lemma StartTimeInSamples(gaps: seq<real>, synth: Synth, i: nat)
    requires synth.Valid() && i < |gaps|
    ensures var sr := synth.settings.sampleRate as real;
            StartTime(gaps, i, synth) * sr
            == SumGaps(gaps[..i + 1]) * sr + (i as real) * (synth.settings.ToneLength() as real)
  {
    var sr := synth.settings.sampleRate as real;
    var seconds := synth.ToneSeconds();
    var sum := SumGaps(gaps[..i + 1]);
    ClockClosedForm(gaps, i, synth);
    assert gaps[..i + 1][..i] == gaps[..i];
    assert StartTime(gaps, i, synth) == sum + (i as real) * seconds;
    assert seconds * sr == synth.settings.ToneLength() as real;
    assert (sum + (i as real) * seconds) * sr == sum * sr + (i as real) * (seconds * sr);
  }
}
