/**
 * The desktop profiler's mutable state: the playback cursor the audio callback
 * drains, the precomputed test (trials, tone events, audio), the results store,
 * and the operations of a test session that change them.
 */
module Profiler {
  import opened Wrappers
  import opened Tone
  import opened TestPlan
  import opened Timeline
  import opened Playback
  import opened Results
  import opened Session
  import opened Numeric

  /** `(position / total) * 100`, the figure the progress label shows; none for an empty stream. */
  function Progress(position: nat, total: nat): (p: Option<real>)
    ensures total == 0 <==> p.None?
    ensures p.Some? && position <= total ==> 0.0 <= p.value <= 100.0
    ensures p.Some? && position == total ==> p.value == 100.0
  {
    if total == 0 then None
    else
      ProgressBound(position, total);
      Some((position as real / total as real) * 100.0)
  }

  lemma ProgressBound(position: nat, total: nat)
    requires total > 0
    ensures position <= total ==> 0.0 <= (position as real / total as real) * 100.0 <= 100.0
    ensures position == total ==> (position as real / total as real) * 100.0 == 100.0
  {
    if position <= total {
      assert position as real / total as real <= 1.0;
    }
  }

  class HearingProfiler {
    /** Sample rate, tone length, fade length and calibration volume, plus the sine and power functions. */
    var synth: Synth
    /** The buffer the callback plays from, the cursor into it and the play flag. */
    var currentTone: seq<real>
    var audioPosition: nat
    var isPlayingTone: bool
    /** The precomputed test: its audio, one event per trial, and the trials themselves. */
    var testAudio: seq<real>
    var events: seq<Event>
    var trials: array<Trial>
    var results: ResultsMap
    var testStartTime: real
    var testIndex: nat
    /** The quick-mode frequencies (8 log-spaced bands), the configured bands and intensity levels. */
    var quickFrequencies: seq<real>
    var frequencyBands: seq<real>
    var intensityLevels: seq<real>

    /**
     * The cursor stays within its buffer, event `k` is the event of trial `k`,
     * and the stored results are exactly the records of the decided trials.
     */
    ghost predicate Valid()
      reads this, trials
    {
      && SettingsValid()
      && |events| == trials.Length
      && (forall k :: 0 <= k < |events| ==> events[k].testIndex == k)
      && Consistent(results, trials[..])
    }

    /** The part of the invariant about the settings and the playback cursor. */
    ghost predicate SettingsValid()
      reads this`synth, this`audioPosition, this`currentTone, this`quickFrequencies
    {
      synth.Valid() && audioPosition <= |currentTone| && |quickFrequencies| == 8
    }

    /** The playback state the callback acts on. */
    function State(): Cursor
      reads this
    {
      Cursor(currentTone, audioPosition, isPlayingTone)
    }

    /** The state after start-up: silence queued, no test, empty results. */
    constructor (synth: Synth, quickFrequencies: seq<real>, frequencyBands: seq<real>, intensityLevels: seq<real>)
      requires synth.Valid() && |quickFrequencies| == 8
      ensures Valid() && fresh(trials) && trials.Length == 0
      ensures this.synth == synth && this.quickFrequencies == quickFrequencies
      ensures this.frequencyBands == frequencyBands && this.intensityLevels == intensityLevels
      ensures currentTone == Zeros(synth.settings.ToneLength()) && audioPosition == 0 && !isPlayingTone
      ensures results == EmptyResults() && events == [] && testAudio == []
    {
      this.synth := synth;
      this.quickFrequencies := quickFrequencies;
      this.frequencyBands := frequencyBands;
      this.intensityLevels := intensityLevels;
      currentTone := Zeros(synth.settings.ToneLength());
      audioPosition := 0;
      isPlayingTone := false;
      testAudio := [];
      events := [];
      trials := new Trial[0];
      results := EmptyResults();
      testStartTime := 0.0;
      testIndex := 0;
      new;
      FreshTestConsistent([]);
    }

    /**
     * One callback invocation: fills `outdata` and moves the cursor exactly as
     * `Step` says, scaling by the calibration volume; `noise` is the quiet
     * keep-alive signal written when nothing plays.
     */
    method AudioCallback(outdata: array<real>, noise: seq<real>)
      requires Valid() && |noise| == outdata.Length
      modifies outdata, this`audioPosition, this`isPlayingTone
      ensures Valid()
      ensures var (out, cursor) := Step(old(State()), synth.settings.calibrationVolume, outdata.Length, noise);
              outdata[..] == out && State() == cursor
    {
      var frames := outdata.Length;
      ghost var expected := Step(State(), synth.settings.calibrationVolume, frames, noise);
      if isPlayingTone && |currentTone| > 0 {
        var endPos := Min(audioPosition + frames, |currentTone|);
        if endPos > audioPosition {
          var toneFrames := endPos - audioPosition;
          forall i | 0 <= i < toneFrames {
            outdata[i] := currentTone[audioPosition + i] * synth.settings.calibrationVolume;
          }
          if toneFrames < frames {
            forall i | toneFrames <= i < frames {
              outdata[i] := 0.0;
            }
          }
          audioPosition := endPos;
          if audioPosition >= |currentTone| {
            isPlayingTone := false;
          }
        } else {
          forall i | 0 <= i < frames {
            outdata[i] := 0.0;
          }
        }
      } else {
        forall i | 0 <= i < frames {
          outdata[i] := noise[i];
        }
        audioPosition := 0;
      }
      assert forall i :: 0 <= i < frames ==> outdata[i] == expected.0[i];
      assert outdata[..] == expected.0;
      assert State() == expected.1;
      assert trials[..] == old(trials[..]);
    }

    /** The first half of `play_tone_async`'s worker: swap in the tone, rewind, start. */
    method BeginTone(tone: seq<real>)
      requires Valid()
      modifies this`currentTone, this`audioPosition, this`isPlayingTone
      ensures Valid() && State() == Play(old(State()), tone)
    {
      currentTone := tone;
      audioPosition := 0;
      isPlayingTone := true;
    }

    /** The second half, after the tone's duration: stop and queue one tone length of silence. */
    method EndTone()
      requires Valid()
      modifies this`currentTone, this`audioPosition, this`isPlayingTone
      ensures Valid()
      ensures State() == Cursor(Zeros(synth.settings.ToneLength()), 0, false)
    {
      isPlayingTone := false;
      currentTone := Zeros(synth.settings.ToneLength());
      audioPosition := 0;
    }

    /** Start the precomputed test audio from its beginning and note the start time. */
    method StartTestPlayback(now: real)
      requires Valid()
      modifies this`testStartTime, this`testIndex, this`currentTone, this`audioPosition, this`isPlayingTone
      ensures Valid()
      ensures State() == Play(old(State()), testAudio) && testStartTime == now && testIndex == 0
    {
      testStartTime := now;
      testIndex := 0;
      currentTone := testAudio;
      audioPosition := 0;
      isPlayingTone := true;
    }

    /** What a freshly prepared test looks like: the planned trials, audio and events, and empty results. */
    ghost predicate Prepared(mode: Mode, gaps: seq<real>)
      reads this`synth, this`quickFrequencies, this`frequencyBands, this`intensityLevels
      reads this`trials, trials, this`results, this`testAudio, this`events
    {
      && Planned(mode, quickFrequencies, frequencyBands, intensityLevels, gaps, synth, trials[..], testAudio, events)
      && results == EmptyResults()
    }

    /** Reset the results, plan and shuffle the trials, and compile the test audio and events. */
    method PrepareTest(mode: Mode, draws: seq<nat>, gaps: seq<real>)
      requires SettingsValid()
      requires var axes := PlanAxes(mode, quickFrequencies, frequencyBands, intensityLevels);
               ShuffleDraws(draws, 2 * |axes.0| * |axes.1|) && |gaps| == 2 * |axes.0| * |axes.1| && NonNegative(gaps)
      modifies this`results, this`trials, this`testAudio, this`events
      ensures Valid() && fresh(trials) && Prepared(mode, gaps)
    {
      var frequencies, bands, levels, settings := quickFrequencies, frequencyBands, intensityLevels, synth;
      var plan, audio, evs := PlanTest(mode, frequencies, bands, levels, draws, gaps, settings);
      PlannedConsistent(mode, frequencies, bands, levels, gaps, settings, plan, audio, evs);
      var a := NewTrialArray(plan);
      trials := a;
      results := EmptyResults();
      testAudio := audio;
      events := evs;
      assert trials[..] == plan;
      assert testAudio == audio && events == evs;
      assert quickFrequencies == frequencies && frequencyBands == bands && intensityLevels == levels && synth == settings;
      assert SettingsValid();
      assert |events| == trials.Length;
      assert forall k :: 0 <= k < |events| ==> events[k].testIndex == k;
      assert Consistent(results, trials[..]);
    }

    /**
     * Start a test when the output stream is active: prepare it, then start
     * playback. `draws` are the shuffle's random indices and `gaps` the random pauses.
     */
    method StartHearingTest(streamActive: bool, mode: Mode, draws: seq<nat>, gaps: seq<real>, now: real)
      returns (started: bool)
      requires Valid()
      requires var axes := PlanAxes(mode, quickFrequencies, frequencyBands, intensityLevels);
               ShuffleDraws(draws, 2 * |axes.0| * |axes.1|) && |gaps| == 2 * |axes.0| * |axes.1| && NonNegative(gaps)
      modifies this`results, this`trials, this`testAudio, this`events
      modifies this`testStartTime, this`testIndex, this`currentTone, this`audioPosition, this`isPlayingTone
      ensures Valid() && started == streamActive
      ensures !started ==> unchanged(this)
      ensures started ==> fresh(trials) && Prepared(mode, gaps)
                          && State() == Cursor(testAudio, 0, true) && testStartTime == now && testIndex == 0
    {
      if !streamActive {
        return false;
      }
      PrepareTest(mode, draws, gaps);
      StartTestPlayback(now);
      started := true;
    }

    /**
     * One poll of the progress monitor: once the play flag has cleared the test
     * is finished (and the sweep runs); otherwise report the percentage played.
     */
    method MonitorTestProgress() returns (finished: bool, progress: Option<real>)
      requires Valid()
      modifies this`isPlayingTone, this`results, trials
      ensures Valid()
      ensures finished <==> !old(isPlayingTone)
      ensures finished ==> progress.None? && !isPlayingTone
                           && trials[..] == Swept(old(trials[..]))
                           && (forall ear, frequency :: RecordsFor(results, ear, frequency)
                                 == RecordsFor(old(results), ear, frequency) + UnheardRecords(old(trials[..]), ear, frequency))
      ensures !finished ==> progress == Progress(audioPosition, |testAudio|)
                            && unchanged(this) && unchanged(trials)
    {
      if !isPlayingTone {
        FinishTest();
        return true, None;
      }
      finished, progress := false, Progress(audioPosition, |testAudio|);
    }

    /**
     * A "heard it" click at clock time `now`: the first event whose window,
     * extended by one second, contains the elapsed time and whose trial is
     * still unset is marked heard, and one heard record is stored for it.
     */
    method ToneHeard(now: real)
      requires Valid()
      modifies this`results, trials
      ensures Valid()
      ensures var m := FirstMatch(events, old(trials[..]), now - testStartTime);
              && (m.None? ==> trials[..] == old(trials[..]) && results == old(results))
              && (m.Some? ==>
                    var k := events[m.value].testIndex;
                    var t := old(trials[k]);
                    && trials[..] == old(trials[..])[k := t.(heard := Yes)]
                    && results == Append(old(results), t.ear, t.frequency, Record(t.intensity, true)))
    {
      var elapsed := now - testStartTime;
      var i := 0;
      while i < |events|
        invariant 0 <= i <= |events|
        invariant forall j :: 0 <= j < i ==> !Pending(events, trials[..], elapsed, j)
        invariant trials[..] == old(trials[..]) && results == old(results)
      {
        var event := events[i];
        if event.startTime <= elapsed <= event.endTime + 1.0 && trials[event.testIndex].heard == Unset {
          FirstMatchIs(events, trials[..], elapsed, i);
          var test := trials[event.testIndex];
          DecidePreservesConsistency(results, trials[..], i, Yes);
          trials[i] := test.(heard := Yes);
          results := Append(results, test.ear, test.frequency, Record(test.intensity, true));
          assert trials[..] == old(trials[..])[i := test.(heard := Yes)];
          return;
        }
        i := i + 1;
      }
    }

    /**
     * Stop playback and record every still-unset trial as not heard, walking
     * the events in order; afterwards every trial is decided and each key holds
     * one record per trial with that key.
     */
    method FinishTest()
      requires Valid()
      modifies this`isPlayingTone, this`results, trials
      ensures Valid() && !isPlayingTone
      ensures trials[..] == Swept(old(trials[..]))
      ensures forall ear, frequency :: RecordsFor(results, ear, frequency)
                == RecordsFor(old(results), ear, frequency) + UnheardRecords(old(trials[..]), ear, frequency)
      ensures forall ear, frequency :: |RecordsFor(results, ear, frequency)| == CountKey(trials[..], ear, frequency)
    {
      isPlayingTone := false;
      ghost var before := trials[..];
      ghost var r0 := results;
      PartlySweptEnds(before);
      var i := 0;
      while i < |events|
        invariant 0 <= i <= |events| == |before| && !isPlayingTone
        invariant trials[..] == PartlySwept(before, i)
        invariant results.Keys == {Left, Right}
        invariant forall ear, frequency :: SweptRecordsAt(results, r0, before[..i], ear, frequency)
        invariant Consistent(results, trials[..])
      {
        var k := events[i].testIndex;
        var test := trials[k];
        assert before[..i + 1] == before[..i] + [before[i]];
        SweepStep(results, r0, before[..i], before[i], before[..i + 1]);
        PartlySweptStep(before, i);
        if test.heard == Unset {
          ghost var ts := trials[..];
          DecidePreservesConsistency(results, ts, k, No);
          trials[k] := test.(heard := No);
          results := Append(results, test.ear, test.frequency, Record(test.intensity, false));
          assert trials[..] == ts[k := test.(heard := No)];
        }
        i := i + 1;
      }
      assert before[..i] == before;
      forall ear, frequency ensures RecordsFor(results, ear, frequency)
                == RecordsFor(r0, ear, frequency) + UnheardRecords(before, ear, frequency) {
        assert SweptRecordsAt(results, r0, before[..i], ear, frequency);
      }
      forall ear, frequency ensures |RecordsFor(results, ear, frequency)| == CountKey(trials[..], ear, frequency) {
        CompletedTestRecords(results, trials[..], ear, frequency);
      }
    }
  }
}
