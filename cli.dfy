/**
 * The single-shot command-line tone generator: range checks on the five
 * parameters, the tone it synthesises (the same envelope and volume law as
 * the profiler, at 44100 Hz), the stereo layout of the played buffer, and the
 * entry point that plays only validated parameters.
 */
module CliToneTest {
  import Tone
  import opened Numeric

  /** The generator's fixed sample rate. */
  const SampleRate: nat := 44100

  /** `int(0.01 * 44100)`: ten milliseconds of fade at each end. */
  const FadeSamples: nat := 441

  // ---------------------------------------------------------------- validation

  /** One complaint of `validate_parameters`, carrying the offending value. */
  datatype ParamError =
    | FrequencyOutOfRange(frequency: real)
    | IntensityOutOfRange(intensity: real)
    | DurationOutOfRange(duration: real)
    | EarInvalid(ear: string)
    | MaxVolumeOutOfRange(maxVolume: real)
  {
    /** Complaints are made in this order of checks. */
    function Rank(): nat {
      match this
      case FrequencyOutOfRange(_) => 0
      case IntensityOutOfRange(_) => 1
      case DurationOutOfRange(_) => 2
      case EarInvalid(_) => 3
      case MaxVolumeOutOfRange(_) => 4
    }
  }

  predicate FrequencyOk(frequency: real) { 20.0 <= frequency <= 20000.0 }
  predicate IntensityOk(intensity: real) { 0.0 <= intensity <= 1.0 }
  predicate DurationOk(duration: real) { 0.1 <= duration <= 10.0 }
  predicate EarOk(ear: string) { ear == "left" || ear == "right" || ear == "both" }
  predicate MaxVolumeOk(maxVolume: real) { 0.0 <= maxVolume <= 1.0 }

  /** Every parameter within its documented range. */
  predicate ParametersOk(frequency: real, intensity: real, duration: real, ear: string, maxVolume: real) {
    FrequencyOk(frequency) && IntensityOk(intensity) && DurationOk(duration) && EarOk(ear) && MaxVolumeOk(maxVolume)
  }

  /** The complaint of one check: none when it passes, the given one when it fails. */
  function Check(ok: bool, error: ParamError): seq<ParamError> {
    if ok then [] else [error]
  }

  /** The complaints about a set of parameters, in the order the checks are made. */
  function Complaints(frequency: real, intensity: real, duration: real, ear: string, maxVolume: real): seq<ParamError> {
    Check(FrequencyOk(frequency), FrequencyOutOfRange(frequency))
    + Check(IntensityOk(intensity), IntensityOutOfRange(intensity))
    + Check(DurationOk(duration), DurationOutOfRange(duration))
    + Check(EarOk(ear), EarInvalid(ear))
    + Check(MaxVolumeOk(maxVolume), MaxVolumeOutOfRange(maxVolume))
  }

  /**
   * `validate_parameters`: one complaint per failed check, appended in the
   * order frequency, intensity, duration, ear, maximum volume.
   */
  method ValidateParameters(frequency: real, intensity: real, duration: real, ear: string, maxVolume: real)
    returns (errors: seq<ParamError>)
    ensures errors == Complaints(frequency, intensity, duration, ear, maxVolume)
  {
    errors := [];
    if frequency < 20.0 || frequency > 20000.0 {
      errors := errors + [FrequencyOutOfRange(frequency)];
    }
    assert errors == Check(FrequencyOk(frequency), FrequencyOutOfRange(frequency));
    ghost var before := errors;
    if intensity < 0.0 || intensity > 1.0 {
      errors := errors + [IntensityOutOfRange(intensity)];
    }
    assert errors == before + Check(IntensityOk(intensity), IntensityOutOfRange(intensity));
    before := errors;
    if duration < 0.1 || duration > 10.0 {
      errors := errors + [DurationOutOfRange(duration)];
    }
    assert errors == before + Check(DurationOk(duration), DurationOutOfRange(duration));
    before := errors;
    if !(ear == "left" || ear == "right" || ear == "both") {
      errors := errors + [EarInvalid(ear)];
    }
    assert errors == before + Check(EarOk(ear), EarInvalid(ear));
    before := errors;
    if maxVolume < 0.0 || maxVolume > 1.0 {
      errors := errors + [MaxVolumeOutOfRange(maxVolume)];
    }
    assert errors == before + Check(MaxVolumeOk(maxVolume), MaxVolumeOutOfRange(maxVolume));
  }

  /** No complaint exactly when every parameter is in range; at most one per check. */
  lemma ComplaintsEmptyIffValid(frequency: real, intensity: real, duration: real, ear: string, maxVolume: real)
    ensures Complaints(frequency, intensity, duration, ear, maxVolume) == [] <==>
              ParametersOk(frequency, intensity, duration, ear, maxVolume)
    ensures |Complaints(frequency, intensity, duration, ear, maxVolume)| <= 5
  {
  }

  /** Each check's complaint is present exactly when that check fails. */
  lemma ComplaintPerFailedCheck(frequency: real, intensity: real, duration: real, ear: string, maxVolume: real)
    ensures var errors := Complaints(frequency, intensity, duration, ear, maxVolume);
      && (FrequencyOutOfRange(frequency) in errors <==> !FrequencyOk(frequency))
      && (IntensityOutOfRange(intensity) in errors <==> !IntensityOk(intensity))
      && (DurationOutOfRange(duration) in errors <==> !DurationOk(duration))
      && (EarInvalid(ear) in errors <==> !EarOk(ear))
      && (MaxVolumeOutOfRange(maxVolume) in errors <==> !MaxVolumeOk(maxVolume))
  {
    ComplaintsMembers(FrequencyOutOfRange(frequency), frequency, intensity, duration, ear, maxVolume);
    ComplaintsMembers(IntensityOutOfRange(intensity), frequency, intensity, duration, ear, maxVolume);
    ComplaintsMembers(DurationOutOfRange(duration), frequency, intensity, duration, ear, maxVolume);
    ComplaintsMembers(EarInvalid(ear), frequency, intensity, duration, ear, maxVolume);
    ComplaintsMembers(MaxVolumeOutOfRange(maxVolume), frequency, intensity, duration, ear, maxVolume);
  }

  /** A complaint is present exactly when it is the one of a failed check. */
  lemma ComplaintsMembers(x: ParamError, frequency: real, intensity: real, duration: real, ear: string, maxVolume: real)
    ensures x in Complaints(frequency, intensity, duration, ear, maxVolume) <==>
              || (!FrequencyOk(frequency) && x == FrequencyOutOfRange(frequency))
              || (!IntensityOk(intensity) && x == IntensityOutOfRange(intensity))
              || (!DurationOk(duration) && x == DurationOutOfRange(duration))
              || (!EarOk(ear) && x == EarInvalid(ear))
              || (!MaxVolumeOk(maxVolume) && x == MaxVolumeOutOfRange(maxVolume))
  {
    var c0 := Check(FrequencyOk(frequency), FrequencyOutOfRange(frequency));
    var c1 := Check(IntensityOk(intensity), IntensityOutOfRange(intensity));
    var c2 := Check(DurationOk(duration), DurationOutOfRange(duration));
    var c3 := Check(EarOk(ear), EarInvalid(ear));
    var c4 := Check(MaxVolumeOk(maxVolume), MaxVolumeOutOfRange(maxVolume));
    assert x in c0 + c1 + c2 + c3 + c4 <==> x in c0 || x in c1 || x in c2 || x in c3 || x in c4;
  }

  /** Complaints are in the order of the checks, so each kind appears at most once. */
  lemma ComplaintsOrdered(frequency: real, intensity: real, duration: real, ear: string, maxVolume: real)
    ensures var errors := Complaints(frequency, intensity, duration, ear, maxVolume);
      forall i, j :: 0 <= i < j < |errors| ==> errors[i].Rank() < errors[j].Rank()
  {
    FiveChecksOrdered(Check(FrequencyOk(frequency), FrequencyOutOfRange(frequency)),
                      Check(IntensityOk(intensity), IntensityOutOfRange(intensity)),
                      Check(DurationOk(duration), DurationOutOfRange(duration)),
                      Check(EarOk(ear), EarInvalid(ear)),
                      Check(MaxVolumeOk(maxVolume), MaxVolumeOutOfRange(maxVolume)));
  }

  /** Complaint ranks strictly increase along `errors` and stay below `bound`. */
  predicate OrderedBelow(errors: seq<ParamError>, bound: nat) {
    && (forall i :: 0 <= i < |errors| ==> errors[i].Rank() < bound)
    && (forall i, j :: 0 <= i < j < |errors| ==> errors[i].Rank() < errors[j].Rank())
  }

  /** At most one complaint, of the given rank. */
  predicate CheckOfRank(check: seq<ParamError>, rank: nat) {
    |check| <= 1 && (|check| == 1 ==> check[0].Rank() == rank)
  }

  lemma OrderedAppend(errors: seq<ParamError>, rank: nat, next: seq<ParamError>)
    requires OrderedBelow(errors, rank) && CheckOfRank(next, rank)
    ensures OrderedBelow(errors + next, rank + 1)
  {
  }

  lemma FiveChecksOrdered(c0: seq<ParamError>, c1: seq<ParamError>, c2: seq<ParamError>,
                          c3: seq<ParamError>, c4: seq<ParamError>)
    requires CheckOfRank(c0, 0) && CheckOfRank(c1, 1) && CheckOfRank(c2, 2) && CheckOfRank(c3, 3) && CheckOfRank(c4, 4)
    ensures OrderedBelow(c0 + c1 + c2 + c3 + c4, 5)
  {
    OrderedAppend([], 0, c0);
    assert [] + c0 == c0;
    OrderedAppend(c0, 1, c1);
    OrderedAppend(c0 + c1, 2, c2);
    OrderedAppend(c0 + c1 + c2, 3, c3);
    OrderedAppend(c0 + c1 + c2 + c3, 4, c4);
  }

  // ---------------------------------------------------------------- synthesis

  /** `int(44100 * duration)`: the number of samples of a tone. */
  function ToneLength(duration: real): nat
    requires duration >= 0.0
  {
    Tone.Truncate(SampleRate as real * duration)
  }

  /** The samples `generate_tone` produces, in terms of the shared envelope and volume law. */
  function CliTone(frequency: real, intensity: real, duration: real, maxVolume: real,
                   sine: (real, nat) -> real, pow: (real, real) -> real): seq<real>
    requires duration >= 0.0
    requires intensity > 0.0 ==> maxVolume != 0.0
  {
    Tone.Samples(ToneLength(duration), FadeSamples, Tone.Volume(intensity, maxVolume, pow), frequency, sine)
  }

  /**
   * `generate_tone`: the envelope built by overwriting the two ends of a
   * buffer of ones, the volume `min * (max / min) ** intensity`, and the product.
   */
  method GenerateTone(frequency: real, intensity: real, duration: real, maxVolume: real,
                      sine: (real, nat) -> real, pow: (real, real) -> real) returns (tone: seq<real>)
    requires duration >= 0.0
    requires intensity > 0.0 ==> maxVolume != 0.0
    ensures tone == CliTone(frequency, intensity, duration, maxVolume, sine, pow)
  {
    var n := ToneLength(duration);
    var envelope := Tone.BuildEnvelope(n, FadeSamples);
    var volume := ActualVolume(intensity, maxVolume, pow);
    tone := seq(n, i requires 0 <= i < n => volume * sine(frequency, i) * envelope[i]);
    ghost var expected := Tone.Samples(n, FadeSamples, volume, frequency, sine);
    forall i | 0 <= i < n ensures tone[i] == expected[i] {
      assert envelope[i] == Tone.EnvelopeAt(n, FadeSamples, i);
    }
    assert tone == expected;
  }

  /** The volume as the source computes it, both in `generate_tone` and for display in `play_tone`. */
  method ActualVolume(intensity: real, maxVolume: real, pow: (real, real) -> real) returns (volume: real)
    requires intensity > 0.0 ==> maxVolume != 0.0
    ensures volume == Tone.Volume(intensity, maxVolume, pow)
  {
    var minVolume := maxVolume * 0.01;
    if intensity <= 0.0 {
      volume := 0.0;
    } else {
      assert maxVolume / minVolume == 100.0;
      volume := minVolume * pow(maxVolume / minVolume, intensity);
    }
  }

  /** A tone of a valid duration has the expected length and its fades at the ends. */
  lemma CliToneShape(frequency: real, intensity: real, duration: real, maxVolume: real,
                     sine: (real, nat) -> real, pow: (real, real) -> real)
    requires DurationOk(duration) && IntensityOk(intensity) && MaxVolumeOk(maxVolume)
    requires intensity > 0.0 ==> maxVolume != 0.0
    ensures var tone := CliTone(frequency, intensity, duration, maxVolume, sine, pow);
      && |tone| == ToneLength(duration) >= 4410
      && tone[0] == 0.0 && tone[|tone| - 1] == 0.0
  {
    var n := ToneLength(duration);
    assert SampleRate as real * duration >= 4410.0;
    var env := Tone.Envelope(n, FadeSamples);
    var tone := CliTone(frequency, intensity, duration, maxVolume, sine, pow);
    var volume := Tone.Volume(intensity, maxVolume, pow);
    assert tone[0] == volume * sine(frequency, 0) * env[0];
    assert tone[n - 1] == volume * sine(frequency, n - 1) * env[n - 1];
  }

  /** A zero intensity plays silence. */
  lemma SilentAtZeroIntensity(frequency: real, duration: real, maxVolume: real,
                              sine: (real, nat) -> real, pow: (real, real) -> real)
    requires duration >= 0.0
    ensures forall x :: x in CliTone(frequency, 0.0, duration, maxVolume, sine, pow) ==> x == 0.0
  {
  }

  // ---------------------------------------------------------------- stereo layout

  /** `np.column_stack([a, b])` of two equally long columns. */
  function ColumnStack(a: seq<real>, b: seq<real>): (rows: seq<(real, real)>)
    requires |a| == |b|
    ensures |rows| == |a|
  {
    seq(|a|, i requires 0 <= i < |a| => (a[i], b[i]))
  }

  /** One channel of a stereo buffer: 0 is left, 1 is right. */
  function Channel(rows: seq<(real, real)>, left: bool): (c: seq<real>)
    ensures |c| == |rows|
  {
    seq(|rows|, i requires 0 <= i < |rows| => if left then rows[i].0 else rows[i].1)
  }

  /** The stereo buffer of `play_tone`: the tone on the chosen ear's channel, on both for any other choice. */
  function StereoLayout(tone: seq<real>, ear: string): (rows: seq<(real, real)>)
    ensures |rows| == |tone|
  {
    if ear == "left" then ColumnStack(tone, Zeros(|tone|))
    else if ear == "right" then ColumnStack(Zeros(|tone|), tone)
    else ColumnStack(tone, tone)
  }

  /** Splitting a column stack gives back its two columns. */
  lemma ColumnStackChannels(a: seq<real>, b: seq<real>)
    requires |a| == |b|
    ensures Channel(ColumnStack(a, b), true) == a && Channel(ColumnStack(a, b), false) == b
  {
  }

  /** Which channel carries the tone and which is silent, for each ear choice. */
  lemma StereoChannels(tone: seq<real>, ear: string)
    ensures Channel(StereoLayout(tone, ear), true) == if ear == "right" then Zeros(|tone|) else tone
    ensures Channel(StereoLayout(tone, ear), false) == if ear == "left" then Zeros(|tone|) else tone
  {
    if ear == "left" {
      ColumnStackChannels(tone, Zeros(|tone|));
    } else if ear == "right" {
      ColumnStackChannels(Zeros(|tone|), tone);
    } else {
      ColumnStackChannels(tone, tone);
    }
  }

  /**
   * `play_tone`: the tone, its stereo buffer, and the volume shown to the user,
   * computed by the same law; the audio device is not modelled.
   */
  method PlayTone(frequency: real, intensity: real, duration: real, ear: string, maxVolume: real,
                  sine: (real, nat) -> real, pow: (real, real) -> real)
    returns (stereo: seq<(real, real)>, shownVolume: real)
    requires duration >= 0.0
    requires intensity > 0.0 ==> maxVolume != 0.0
    ensures stereo == StereoLayout(CliTone(frequency, intensity, duration, maxVolume, sine, pow), ear)
    ensures shownVolume == Tone.Volume(intensity, maxVolume, pow)
  {
    var tone := GenerateTone(frequency, intensity, duration, maxVolume, sine, pow);
    if ear == "left" {
      stereo := ColumnStack(tone, Zeros(|tone|));
    } else if ear == "right" {
      stereo := ColumnStack(Zeros(|tone|), tone);
    } else {
      stereo := ColumnStack(tone, tone);
    }
    shownVolume := ActualVolume(intensity, maxVolume, pow);
  }

  // ---------------------------------------------------------------- entry point

  /** What the command line gave: nothing, something the parser refuses, or five parsed values. */
  datatype Invocation =
    | NoArguments
    | Unparsable
    | Parsed(frequency: real, intensity: real, duration: real, ear: string, maxVolume: real)

  /** How a run ends. `Failed` is the division of 0 by 0 a zero maximum volume causes, reported with exit status 1. */
  datatype Outcome =
    | ShowedUsage
    | ParseFailed
    | Rejected(errors: seq<ParamError>)
    | Failed
    | Played(stereo: seq<(real, real)>, shownVolume: real)

  /** `main`: usage without arguments, nothing on a parse error, the complaints on invalid parameters, else the tone. */
  method RunCli(invocation: Invocation, sine: (real, nat) -> real, pow: (real, real) -> real) returns (outcome: Outcome)
    ensures invocation.NoArguments? <==> outcome.ShowedUsage?
    ensures invocation.Unparsable? <==> outcome.ParseFailed?
    ensures outcome.Rejected? <==>
              invocation.Parsed?
              && !ParametersOk(invocation.frequency, invocation.intensity, invocation.duration,
                               invocation.ear, invocation.maxVolume)
    ensures outcome.Rejected? ==>
              outcome.errors == Complaints(invocation.frequency, invocation.intensity, invocation.duration,
                                           invocation.ear, invocation.maxVolume)
    ensures outcome.Failed? <==>
              invocation.Parsed?
              && ParametersOk(invocation.frequency, invocation.intensity, invocation.duration,
                              invocation.ear, invocation.maxVolume)
              && invocation.maxVolume == 0.0 && invocation.intensity > 0.0
    ensures outcome.Played? ==>
              && invocation.Parsed?
              && ParametersOk(invocation.frequency, invocation.intensity, invocation.duration,
                              invocation.ear, invocation.maxVolume)
              && outcome.stereo == StereoLayout(CliTone(invocation.frequency, invocation.intensity,
                                                        invocation.duration, invocation.maxVolume, sine, pow),
                                                invocation.ear)
              && outcome.shownVolume == Tone.Volume(invocation.intensity, invocation.maxVolume, pow)
  {
    match invocation
    case NoArguments =>
      outcome := ShowedUsage;
    case Unparsable =>
      outcome := ParseFailed;
    case Parsed(frequency, intensity, duration, ear, maxVolume) =>
      var errors := ValidateParameters(frequency, intensity, duration, ear, maxVolume);
      ComplaintsEmptyIffValid(frequency, intensity, duration, ear, maxVolume);
      if errors != [] {
        outcome := Rejected(errors);
      } else if intensity > 0.0 && maxVolume == 0.0 {
        outcome := Failed;
      } else {
        var stereo, shownVolume := PlayTone(frequency, intensity, duration, ear, maxVolume, sine, pow);
        outcome := Played(stereo, shownVolume);
      }
  }
}
