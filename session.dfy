/**
 * Planning a test session: the shuffled trial list and the compiled audio
 * and events, as one predicate the profiler's state is checked against.
 */
module Session {
  import opened TestPlan
  import opened Timeline
  import opened Results
  import opened Numeric

  /**
   * A planned test: the trials are the shuffled cross product of the mode's
   * axes, all unset; the audio and events are the compiled timeline of the
   * trials over `gaps`.
   */
  ghost predicate Planned(mode: Mode, quickFrequencies: seq<real>, frequencyBands: seq<real>, intensityLevels: seq<real>,
                          gaps: seq<real>, synth: Synth, plan: seq<Trial>, audio: seq<real>, events: seq<Event>)
  {
    var axes := PlanAxes(mode, quickFrequencies, frequencyBands, intensityLevels);
    && synth.Valid() && |plan| == |gaps| && NonNegative(gaps)
    && multiset(plan) == multiset(CrossProduct(axes.0, axes.1))
    && (forall i :: 0 <= i < |plan| ==> plan[i].heard == Unset)
    && audio == Layout(plan, gaps, synth) + Zeros(FinalGap(synth))
    && |events| == |plan|
    && (forall i :: 0 <= i < |events| ==> events[i] == EventAt(gaps, i, synth))
  }

  /** The planning half of `start_hearing_test`: `create_test_sequence`, then `generate_test_audio_stream`. */
  method PlanTest(mode: Mode, quickFrequencies: seq<real>, frequencyBands: seq<real>, intensityLevels: seq<real>,
                  draws: seq<nat>, gaps: seq<real>, synth: Synth)
    returns (plan: seq<Trial>, audio: seq<real>, events: seq<Event>)
    requires |quickFrequencies| == 8 && synth.Valid()
    requires var axes := PlanAxes(mode, quickFrequencies, frequencyBands, intensityLevels);
             ShuffleDraws(draws, 2 * |axes.0| * |axes.1|) && |gaps| == 2 * |axes.0| * |axes.1| && NonNegative(gaps)
    ensures Planned(mode, quickFrequencies, frequencyBands, intensityLevels, gaps, synth, plan, audio, events)
  {
    plan := CreateTestSequence(mode, quickFrequencies, frequencyBands, intensityLevels, draws);
    audio, events := GenerateTestAudioStream(plan, gaps, synth);
  }

  /** A planned test's trials and events satisfy the profiler's invariant with empty results. */
  lemma PlannedConsistent(mode: Mode, quickFrequencies: seq<real>, frequencyBands: seq<real>, intensityLevels: seq<real>,
                          gaps: seq<real>, synth: Synth, plan: seq<Trial>, audio: seq<real>, events: seq<Event>)
    requires Planned(mode, quickFrequencies, frequencyBands, intensityLevels, gaps, synth, plan, audio, events)
    ensures Consistent(EmptyResults(), plan)
    ensures |events| == |plan| && forall k :: 0 <= k < |events| ==> events[k].testIndex == k
  {
    FreshTestConsistent(plan);
  }
}
