# Hearing profiler — a verified Dafny model of its core

The hearing profiler plays a test of short sine tones to each ear. The listener clicks "I heard it" and the program derives a hearing threshold per frequency. This project models the deterministic core of the three programs involved. The topics below name the Dafny module that models each one.

- **Tone synthesis** (`Tone`).
  - The fade envelope: a linear ramp of `int(0.01 * sr)` samples at each end, applied only when the buffer is longer than both ramps together.
  - The logarithmic volume law: `min * (max / min) ** intensity` with `min = max * 0.01`.
  - The samples: volume × sine × envelope.
- **Playback cursor** (`Playback`, `Profiler.HearingProfiler.AudioCallback`).
  - One invocation of the audio callback on the current buffer, position and play flag.
  - It copies the next samples scaled by the calibration volume and pads with silence.
  - It stops at the end of the buffer. While idle it emits a keep-alive noise floor and rewinds.
- **Test planning** (`TestPlan`, `Session`): the cross product ears × frequencies × intensities, shuffled by Fisher–Yates. The result is 48 trials in quick mode.
- **Timeline compilation** (`Timeline`).
  - Each trial becomes a random gap of silence, then its tone, with an event recording when the tone sounds. Two seconds of silence close the buffer.
  - The compiler advances its clock by the exact gap. The buffer receives only `int(gap * sample_rate)` samples.
  - The model keeps both quantities and bounds how far they drift apart.
- **Correlation and sweep** (`Results`, `Profiler`).
  - A click is matched to the first event whose window, extended by one second, contains the elapsed time and whose trial is still unanswered. That trial is marked heard and one record is stored.
  - At the end every unanswered trial is recorded as not heard.
  - The class invariant says the stored records are exactly those of the decided trials. As a result, every trial contributes exactly one record per test.
- **Configuration** (`Config`).
  - The merge of a user's configuration file with the built-in defaults.
  - The file-name shortening applied to loaded results.
- **Analysis** (`Analyser`).
  - Thresholds in dB HL per frequency and the classification bands.
  - The high-frequency assessment, and the comparison of the two ears.
  - The comparison with age norms, using nearest-key lookups with their tie rules.
  - The ordered recommendation list.
- **Command-line tone generator** (`CliToneTest`).
  - Parameter validation with its ordered list of complaints.
  - The tone, and the stereo layout by ear.
  - The entry point, which plays only parameters that passed validation.

Randomness, the clock and transcendental functions are inputs to the model:

| In the program | In the model |
|---|---|
| shuffle | `draws`, the Fisher–Yates swap indices |
| random gaps | `gaps` |
| `time.time()` | `now` |
| sine | `sine(frequency, i)` |
| `x ** y` | `pow` |
| `np.log10` | `log10` |
| Gaussian noise | `noise` |

Lemmas that need the arithmetic facts of `pow` or `log10` state them as predicates: `Tone.PowLaw` and `Analyser.Log10Law`.

Two behaviours of the code are easy to misread; the model follows the code in both:

- **Unknown configuration sections are kept.** The merge at `hearing_profiler.py:116-123` only adds missing defaults; it never drops a user section or key, including sections the defaults do not have.
- **The calibration volume is applied twice in the desktop profiler.**
  - Each test tone is synthesised with the calibration volume as its ceiling (`hearing_profiler.py:354-364`).
  - The callback multiplies every sample by the calibration volume again (`hearing_profiler.py:304-305`), so a tone's peak is `calibration_volume² * 0.01 * 100^intensity`.
  - `Tone.ProfilerTone` and `Playback.Step` model both.

## Model

| member | source | states |
|---|---|---|
| Tone.LinspaceRange | cli_tone_test.py:32-33 | every entry of the rising ramp `linspace(0, 1, n)` lies in [0, 1], and the falling ramp `linspace(1, 0, n)` is its mirror `1 - x` |
| Tone.Envelope | cli_tone_test.py:28-35 | the envelope has n entries, all in [0, 1]; if n > 2·fade it rises linearly over the first fade samples, falls over the last fade, and is 1 in between, with first and last entries 0 once fade ≥ 2; otherwise every entry is 1 |
| Tone.BuildEnvelope | cli_tone_test.py:29-35 | overwriting the two ends of an array of ones with the ramps yields exactly `Envelope(n, fade)` |
| Tone.Volume | cli_tone_test.py:40-49 | intensity ≤ 0 gives 0; otherwise the volume is `max * 0.01 * 100 ** intensity`, because `max / min` is exactly 100 |
| Tone.VolumeAtFullIntensity | cli_tone_test.py:44-49 | intensity 1 gives exactly the maximum volume |
| Tone.VolumeRange | cli_tone_test.py:40-49 | for intensity in (0, 1] the volume lies strictly above 1% of the maximum and at most the maximum |
| Tone.VolumeMonotone | cli_tone_test.py:44-49 | the volume increases strictly with the intensity |
| Tone.Samples | cli_tone_test.py:52 | a tone has n samples, all zero when the volume is zero |
| Tone.SamplesUseEnvelope | cli_tone_test.py:52 | sample i is volume × sine value × envelope entry i |
| Tone.SamplesBounded | cli_tone_test.py:52 | with the sine in [-1, 1], no sample's magnitude exceeds the volume |
| Tone.ProfilerTone | hearing_profiler.py:334-366 | the profiler's tone is `int(sr * tone_duration)` samples long, and all zero for intensity ≤ 0 |
| TestPlan.RowLength | hearing_profiler.py:455-461 | the inner loop adds one trial per intensity |
| TestPlan.BlockLength | hearing_profiler.py:454-461 | one ear contributes \|frequencies\| × \|intensities\| trials |
| TestPlan.CrossProductLength | hearing_profiler.py:453-461 | the unshuffled plan has 2 × \|frequencies\| × \|intensities\| trials |
| TestPlan.RowCount | hearing_profiler.py:455-461 | with distinct intensities, the row for one ear and frequency holds each (intensity, unset) trial exactly once |
| TestPlan.BlockCount | hearing_profiler.py:454-461 | with distinct axes, one ear's block holds each of its combinations exactly once |
| TestPlan.CrossProductCount | hearing_profiler.py:453-461 | with distinct axes, every (ear, frequency, intensity) combination occurs exactly once, unset, and nothing else occurs |
| TestPlan.RowUnset | hearing_profiler.py:455-461 | every trial of a row starts with `heard = None` |
| TestPlan.BlockUnset | hearing_profiler.py:454-461 | every trial of a block starts with `heard = None` |
| TestPlan.Shuffle | hearing_profiler.py:464 | the Fisher–Yates shuffle leaves the multiset of trials unchanged, for any valid swap indices |
| TestPlan.BuildRow | hearing_profiler.py:455-461 | the innermost loop builds exactly the row of one ear and frequency |
| TestPlan.BuildBlock | hearing_profiler.py:454-461 | the middle loop builds exactly the block of one ear |
| TestPlan.PlanInOrder | hearing_profiler.py:452-461 | the three nested loops build the cross product, left ear first |
| TestPlan.CreateTestSequence | hearing_profiler.py:436-466 | the plan's multiset equals the cross product of the mode's axes, whatever the shuffle; it has 2 × \|f\| × \|i\| trials, 48 in quick mode; every trial is unset |
| Timeline.ClockClosedForm | hearing_profiler.py:476-489 | after i trials the compiler's clock is the sum of the first i gaps plus i tone lengths |
| Timeline.GenerateTestAudioStream | hearing_profiler.py:468-503 | the buffer is the layout of gaps and tones followed by `int(2.0 * sr)` zeros; its length is Σ int(gap·sr) + Σ len(tone) + int(2·sr); there is one event per trial, and event i has test index i, starts at the clock plus gap i and ends one tone length later |
| Timeline.CompileStep | hearing_profiler.py:476-489 | one iteration extends the layout by the gap's zeros, then the trial's tone |
| Timeline.LayoutLength | hearing_profiler.py:476-487 | the layout holds the truncated gaps and every tone in full |
| Timeline.LayoutPlacement | hearing_profiler.py:476-487 | tone i lies in the buffer at offset Σ_{k≤i} int(gap_k·sr) + i·len and is preceded by its own gap of zeros |
| Timeline.EventsOrdered | hearing_profiler.py:481-497 | event i ends exactly gap_{i+1} before event i+1 starts, so events never overlap; start times increase strictly when the gap is positive |
| Timeline.GapTruncation | hearing_profiler.py:479-481 | the samples written for the gaps never exceed the exact gap time × sr, and fall short of it by less than one sample per gap |
| Timeline.StartTimeInSamples | hearing_profiler.py:481-488 | event i's start time × sr equals the exact sum of the gaps so far × sr plus i tone lengths |
| Timeline.EventDrift | hearing_profiler.py:479-488 | tone i starts in the buffer at or before its event's start time, by fewer than i + 1 samples |
| Playback.Step | hearing_profiler.py:295-322 | when active, it writes min(frames, len − pos) samples equal to buffer[pos..] × volume, zero-fills the rest, and advances pos (never past len), clearing the flag exactly when pos reaches len; when playing but exhausted, it writes zeros and leaves the cursor unchanged; when idle, it writes the noise and rewinds to 0 |
| Playback.StepKeepsValid | hearing_profiler.py:298-315 | a step keeps the position within the buffer |
| Playback.Play | hearing_profiler.py:421-423 | starting a buffer replaces it, rewinds to 0 and sets the play flag, whatever was playing before |
| Playback.ActiveChunk | hearing_profiler.py:303-309 | an active step's output begins with the next chunk of the buffer scaled by the volume, followed only by zeros |
| Playback.DrainPlaysBufferOnce | hearing_profiler.py:295-315 | successive callbacks play every remaining sample exactly once, in order and scaled, followed only by padding of the last frame |
| Results.EmptyResults | hearing_profiler.py:517 | reset results have both ears and no frequencies |
| Results.Append | hearing_profiler.py:592-598 | appending a record creates the frequency's list if needed and extends only that (ear, frequency) list by the one record |
| Results.FreshTestConsistent | hearing_profiler.py:517-519 | empty results are consistent with an all-unset plan |
| Results.DecidePreservesConsistency | hearing_profiler.py:585-598 | deciding one unset trial and appending its record keeps the records equal to those of the decided trials, key by key |
| Results.CompletedTestRecords | hearing_profiler.py:601-619 | once no trial is unset, each key holds exactly one record per trial with that key |
| Results.FirstMatchFrom | hearing_profiler.py:582-586 | the search finds the first index at or after `from` whose event window (end + 1 s) contains t and whose trial is unset, or reports that none exists |
| Results.FirstMatch | hearing_profiler.py:582-586 | a click resolves to the first pending event in list order; there is no match iff no event is pending |
| Results.FirstMatchIs | hearing_profiler.py:582-586 | a pending index with no pending index before it is the match |
| Results.Swept | hearing_profiler.py:604-609 | after the sweep no trial is unset, unset trials become not heard, and decided trials are unchanged |
| Results.UnheardRecordsCount | hearing_profiler.py:604-619 | the sweep appends exactly one {intensity, False} record per unset trial with that key, in trial order |
| Results.SweepStep | hearing_profiler.py:604-619 | each sweep step appends that trial's not-heard record under its own key, if it was unset, and nothing elsewhere |
| Results.Unanswered | hearing_profiler.py:604-619 | the unset trials with one key are drawn from the trials |
| Session.PlanTest | hearing_profiler.py:519-525 | the planned test is a shuffled cross product of unset trials, plus the compiled audio and events |
| Session.PlannedConsistent | hearing_profiler.py:517-525 | a planned test with reset results is consistent, and event k refers to trial k |
| Profiler.Progress | hearing_profiler.py:569-572 | progress is reported only for a non-empty stream; it lies in [0, 100] and is 100 at the end |
| Profiler.HearingProfiler.constructor | hearing_profiler.py:50-75 | start-up state: empty results, no test, a tone-length of silence queued, not playing |
| Profiler.HearingProfiler.AudioCallback | hearing_profiler.py:295-322 | the output array and the new cursor are exactly `Step` of the old cursor with the calibration volume; the invariant is kept |
| Profiler.HearingProfiler.BeginTone | hearing_profiler.py:421-423 | the worker's first half is `Play` of the tone |
| Profiler.HearingProfiler.EndTone | hearing_profiler.py:429-432 | the worker's second half stops playback and queues one tone length of silence at position 0 |
| Profiler.HearingProfiler.StartTestPlayback | hearing_profiler.py:547-553 | `Play` of the test audio, with the start time noted and the test index reset |
| Profiler.HearingProfiler.PrepareTest | hearing_profiler.py:516-525 | the results are reset, and the trials, audio and events are the planned test in a fresh array |
| Profiler.HearingProfiler.StartHearingTest | hearing_profiler.py:505-545 | with an inactive stream nothing changes; otherwise the test is prepared and playback starts at position 0 |
| Profiler.HearingProfiler.MonitorTestProgress | hearing_profiler.py:561-575 | the poll finishes the test (sweep included) exactly when the play flag has cleared; otherwise it only reports `Progress` and changes nothing |
| Profiler.HearingProfiler.ToneHeard | hearing_profiler.py:577-599 | with no pending event, trials and results are unchanged; otherwise exactly the first match's trial becomes heard and one {intensity, True} record is appended under its key |
| Profiler.HearingProfiler.FinishTest | hearing_profiler.py:601-621 | clears the flag; the trials become `Swept` of the old ones; each key gains exactly the not-heard records of its unset trials; afterwards each key holds one record per trial |
| Config.MergeSectionKeys | hearing_profiler.py:120-123 | adding missing keys one at a time yields the section with the user's entries kept and the defaults filling the gaps |
| Config.MergeDefaults | hearing_profiler.py:116-123 | the merge loop yields `Merged(user, defaults)`, section by section |
| Config.MergeKeepsUserValues | hearing_profiler.py:116-123 | every value the user wrote survives the merge |
| Config.MergeKeepsUnknown | hearing_profiler.py:116-123 | a section the defaults do not know survives unchanged |
| Config.MergeCompletes | hearing_profiler.py:116-123 | afterwards every default section and key is present, with the default where the user had none |
| Config.MergeKeys | hearing_profiler.py:116-123 | the merge adds nothing beyond the union of the keys, at either level |
| Config.MergeIdempotent | hearing_profiler.py:116-123 | merging again with the defaults changes nothing |
| Config.LoadConfig | hearing_profiler.py:80-132 | a read file is merged with the defaults; a missing or unreadable file gives the defaults; every default key is present either way |
| Config.AfterLast | hearing_profiler.py:804 | `s.split(c)[-1]` is the suffix of s after the last c, contains no c, and is all of s when there is no c |
| Config.Basename | hearing_profiler.py:804 | the shown name is the suffix of the path after its last `/` or `\`: it holds neither separator and, unless it is the whole path, is preceded by one |
| Config.BasenameIdempotent | hearing_profiler.py:804 | shortening an already shortened name changes nothing |
| Analyser.HeardIntensities | hearing_analyser.py:31-32 | holds exactly the intensities of heard entries; it is empty iff nothing was heard |
| Analyser.MinOf | hearing_analyser.py:37 | `min` is an element no larger than any other |
| Analyser.Threshold | hearing_analyser.py:29-40 | the threshold is never negative, and is 60 when nothing was heard |
| Analyser.ThresholdDependsOnlyOnMinimum | hearing_analyser.py:37-40 | lists with the same softest heard intensity have the same threshold |
| Analyser.ThresholdIgnoresUnheard | hearing_analyser.py:31-32 | an entry marked not heard never changes the threshold |
| Analyser.ThresholdMonotone | hearing_analyser.py:37-40 | hearing a softer tone never gives a lower threshold |
| Analyser.ThresholdAtFullIntensity | hearing_analyser.py:37-40 | a softest heard intensity of 1 gives 0 dB |
| Analyser.MeanBounds | hearing_analyser.py:123 | the mean of a non-empty list lies between bounds of its entries |
| Analyser.MeanAtLeast | hearing_analyser.py:40 | the mean of a non-empty list is at least any lower bound of its entries |
| Analyser.ClassifyAverage | hearing_analyser.py:123-134 | the five classes are exactly the bands ≤ 15, ≤ 25, ≤ 40, ≤ 70 and above, each as an iff |
| Analyser.ClassifyHearingLoss | hearing_analyser.py:121-134 | the class is the band of the mean threshold, never milder than the band of the best threshold nor worse than the band of the worst |
| Analyser.ClassificationMonotone | hearing_analyser.py:123-134 | a worse average never gives a milder class |
| Analyser.HighThresholds | hearing_analyser.py:96-102 | the thresholds at ≥ 4000 Hz; empty iff no frequency reaches 4000 Hz |
| Analyser.SeverityOf | hearing_analyser.py:106-113 | the strict bands < 15, < 25, < 40 and above, each as an iff |
| Analyser.AssessHighFrequencyLoss | hearing_analyser.py:93-119 | unknown iff no frequency ≥ 4000 Hz; otherwise the mean of those thresholds and its band |
| Analyser.HighThresholdsIgnoreLow | hearing_analyser.py:96-102 | a frequency below 4000 Hz never changes the assessment's input |
| Analyser.HighThresholdsPrefix | hearing_analyser.py:102 | only thresholds at the indices of the frequencies are read |
| Analyser.CompareEars | hearing_analyser.py:136-157 | the difference is \|left − right\|; the asymmetry bands < 5, < 15 and above are each an iff; the left ear is better iff its average is strictly lower |
| Analyser.CompareEarsSymmetric | hearing_analyser.py:141-150 | swapping the ears keeps the difference and asymmetry and swaps the better ear, except that equal averages always give the right ear |
| Analyser.NormRow | hearing_analyser.py:19-27 | each age row has one norm per table frequency |
| Analyser.Nearest | hearing_analyser.py:163 | the chosen key is nearest to x, and strictly nearer than every earlier key, so ties go to the first key |
| Analyser.AsReals | hearing_analyser.py:162 | the age keys as numbers, in order |
| Analyser.ReferenceGroup | hearing_analyser.py:161-163 | an index into the ascending age groups; `Nearest` makes it a nearest one, the younger on a tie |
| Analyser.ReferenceAgeTies | hearing_analyser.py:161-163 | ages 25 and 65 resolve to the younger groups 20 and 60 |
| Analyser.AssessDeviation | hearing_analyser.py:182-187 | the strict bands < 5, < 15 and above, each as an iff |
| Analyser.Deviations | hearing_analyser.py:174-180 | one deviation per zipped (frequency, threshold) pair: the threshold minus the norm at the nearest norm frequency, the lower on a tie |
| Analyser.CompareToAgeNorms | hearing_analyser.py:159-197 | `AgeCompared`: the reference age is the nearest group; the average deviation is the mean of the per-frequency deviations from that group's row; the assessment is its band |
| Analyser.GenerateRecommendations | hearing_analyser.py:199-236 | the loops build exactly `Recommendations`: audiologist lines per ear, the evaluation line, the warnings per ear, then the closing lines |
| Analyser.RecommendationsShape | hearing_analyser.py:229-236 | between 2 and 6 lines; the regular-checks line is last and appears once |
| Analyser.RecommendationsReassure | hearing_analyser.py:228-231 | the "within normal ranges" line appears iff nothing gives reason for concern, and then only with the closing line |
| Analyser.RecommendationsReportConcerns | hearing_analyser.py:203-225 | each audiologist, evaluation and warning line appears iff its condition holds for the named ear |
| Analyser.ConcernLinesOrdered | hearing_analyser.py:203-225 | the concern lines come in the order of their checks |
| Analyser.RecommendationsOrdered | hearing_analyser.py:199-236 | all lines come in the fixed order of their kinds, so each kind and ear occurs at most once |
| Analyser.ProfoundAddsNoAudiologist | hearing_analyser.py:204-209 | only moderate and severe classifications warrant an audiologist line; profound does not |
| Analyser.SortedFrequencies | hearing_analyser.py:62 | `sorted()` of the keys lists each key once, strictly ascending |
| Analyser.AnalyseEar | hearing_analyser.py:51-74 | frequencies ascending and exactly the measured ones; threshold i belongs to frequency i; the mean, assessment and class are those of the thresholds |
| Analyser.AverageNonNegative | hearing_analyser.py:40 | every ear's average threshold is at least 0 dB |
| Analyser.AnalyseHearingProfile | hearing_analyser.py:42-91 | both ears analysed as in `AnalyseEar`; the comparison of their averages; an age comparison iff the age is given and non-zero, each ear's being `AgeCompared` (nearest group, mean deviation, its band); the recommendations for the result |
| CliToneTest.ValidateParameters | cli_tone_test.py:133-152 | the step-by-step appends yield exactly `Complaints`: one complaint per failed check, in check order |
| CliToneTest.ComplaintsEmptyIffValid | cli_tone_test.py:133-152 | there are no complaints iff all five parameters are in range; there are at most 5 |
| CliToneTest.ComplaintPerFailedCheck | cli_tone_test.py:137-150 | each check's complaint is present iff that check fails |
| CliToneTest.ComplaintsMembers | cli_tone_test.py:137-150 | nothing but complaints of failed checks appears |
| CliToneTest.ComplaintsOrdered | cli_tone_test.py:135-152 | complaints come in the fixed order frequency, intensity, duration, ear, maximum volume |
| CliToneTest.GenerateTone | cli_tone_test.py:26-54 | the array-overwriting envelope and the volume give exactly the shared tone at 44100 Hz with a 441-sample fade |
| CliToneTest.ActualVolume | cli_tone_test.py:74-80 | the displayed volume is computed by the same law as the tone's |
| CliToneTest.CliToneShape | cli_tone_test.py:28-35 | a tone of valid duration has int(44100·d) ≥ 4410 samples and starts and ends at 0 |
| CliToneTest.SilentAtZeroIntensity | cli_tone_test.py:45-46 | intensity 0 gives an all-zero tone |
| CliToneTest.ColumnStack | cli_tone_test.py:63-71 | one row per sample |
| CliToneTest.StereoLayout | cli_tone_test.py:61-71 | the stereo buffer has one row per tone sample |
| CliToneTest.ColumnStackChannels | cli_tone_test.py:63-71 | the two columns of a column stack are its inputs |
| CliToneTest.StereoChannels | cli_tone_test.py:61-71 | "left" puts the tone on the left channel and silence on the right, "right" the reverse, any other ear the tone on both |
| CliToneTest.PlayTone | cli_tone_test.py:56-92 | the stereo buffer is the layout of the tone, and the shown volume is the volume law |
| CliToneTest.RunCli | cli_tone_test.py:154-201 | no arguments shows the usage; a parse error ends the run; invalid parameters give exactly their complaints and play nothing; a zero maximum with positive intensity fails; otherwise the validated tone is played |

## Left out

- **GUI and plotting.** Tk widgets, message boxes and matplotlib are not modelled. Neither are `setup_gui`, `analyze_and_plot_results` and `plot_comparison_chart`.
- **Audio devices.** The stream that invokes the callback, `sd.play` and `sd.wait` are not modelled. The CLI's audio-error exit and its KeyboardInterrupt path are device behaviour and are left out.
- **File I/O.**
  - Reading and writing JSON are not modelled. `Config.LoadConfig` takes the file's outcome as input: missing, unreadable, or read contents.
  - `save_config`, `save_results`, `create_detailed_report` and `load_and_analyse` are not part of this model.
- **Argument parsing.** `argparse` is reduced to `CliToneTest.Invocation`. The usage text is not modelled, and neither is its intensity table, which does not agree with the formula.
- **Concurrency.**
  - The callback runs on the audio thread beside `tone_heard` and the progress poll. The model runs each as a sequential step on the shared state, not their interleavings.
  - `play_tone_async`'s thread and `time.sleep` are split into `BeginTone` and `EndTone` with the sleep left out.
  - The `root.after` polling is left out. Each poll is one call of `MonitorTestProgress`.
- **Floating point.**
  - Arithmetic is exact on `real`.
  - Sine values, `x ** y` and `log10` are function parameters. The `np.logspace` frequencies are parameters: `quickFrequencies` holds 8 values, and `frequencyBands` is given.
  - The Gaussian keep-alive noise is an arbitrary input sequence.
  - NaN is not modelled.
  - `int(0.01 * 44100)` is taken as 441.
- **Randomness and the clock.**
  - `random.shuffle` is modelled as Fisher–Yates over given swap indices.
  - `random.uniform` gaps are given. Only their non-negativity is required, not the range [min_gap, max_gap].
  - `time.time()` is the parameter `now`.
- **Test planning.** `TestPlan.CrossProductCount` requires distinct frequencies and distinct intensities. With repeated axis values a combination occurs more than once, and `CreateTestSequence` still states the multiset equality with the cross product.
- **Key conversion.** Converting frequency keys from strings to numbers (`hearing_analyser.py:57-59` and the same step when results are loaded) is not modelled: keys are numbers throughout. A results map is therefore never given string keys.
- **Empty results.**
  - Analyser.AnalyseHearingProfile: requires both ears to have at least one frequency. With an empty ear the source takes `np.mean([])`, which is NaN, and the model has no NaN.
  - Analyser.CompareToAgeNorms: requires at least one frequency for the same reason.
- **The zero fade.**
  - With zero fade samples and a non-empty tone the source fails: `envelope[-0:]` is the whole buffer, and assigning the empty ramp `np.linspace(1, 0, 0)` to it raises a ValueError, so `generate_tone` raises (`hearing_profiler.py:342-347`).
  - `Tone.ToneSettings.Valid` requires at least one fade sample for the desktop profiler, so this error path is not modelled.
  - Tone.BuildEnvelope: requires fade ≥ 1, which excludes the same error path.
- **A zero maximum volume.**
  - Tone.Volume: requires a non-zero maximum when the intensity is positive. The source then divides 0 by 0.
  - In the CLI this case is modelled as the `Failed` outcome, which reports an error and exits with status 1.
  - The desktop profiler's calibration volume is positive by `ToneSettings.Valid`.
- **Other profiler operations.** `play_softest_tone`, `play_calibration_tone`, `clear_previous_results` and `on_closing` are not part of this model. They only call `play_tone_async` or handle the GUI and files.
- **Reporting.** The record of the test mode, the status texts and the summary dialog are not modelled.
