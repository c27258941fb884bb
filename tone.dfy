/**
 * Tone synthesis shared by the desktop profiler and the single-shot CLI:
 * the fade envelope, the logarithmic volume law and the resulting samples.
 * The sine values and the real power `x ** y` are transcendental, so they
 * are parameters: `sine(frequency, i)` stands for sin(2*pi*frequency*t[i])
 * and `pow(b, e)` for `b ** e`.
 */
module Tone {
  import opened Numeric

  /** Python's `int(x)` for a non-negative real: truncation, which is the floor here. */
  function Truncate(x: real): (n: nat)
    requires x >= 0.0
    ensures n as real <= x < n as real + 1.0
  {
    x.Floor
  }

  /** Element `i` of `np.linspace(start, stop, count)`; one element gives `start`. */
  function Linspace(start: real, stop: real, count: nat, i: nat): real
    requires i < count
  {
    if count == 1 then start
    else start + (stop - start) * (i as real) / ((count - 1) as real)
  }

  lemma LinspaceRange(count: nat, i: nat)
    requires i < count
    ensures 0.0 <= Linspace(0.0, 1.0, count, i) <= 1.0
    ensures Linspace(1.0, 0.0, count, i) == 1.0 - Linspace(0.0, 1.0, count, i)
  {
    if count > 1 {
      var d := (count - 1) as real;
      var r := (i as real) / d;
      assert r <= 1.0;
      assert (0.0 - 1.0) * (i as real) / d == -r;
      assert (1.0 - 0.0) * (i as real) / d == r;
    }
  }

  /**
   * The fade envelope of `n` samples with `fade` samples of linear fade at each end,
   * applied only when the buffer holds two non-overlapping fade windows.
   */
  function Envelope(n: nat, fade: nat): (env: seq<real>)
    ensures |env| == n
    ensures n > 2 * fade && fade >= 2 ==> env[0] == 0.0 && env[n - 1] == 0.0
    ensures n > 2 * fade ==> forall i :: fade <= i < n - fade ==> env[i] == 1.0
    ensures n > 2 * fade ==> forall i :: 0 <= i < fade ==>
              env[i] == Linspace(0.0, 1.0, fade, i) && env[n - fade + i] == Linspace(1.0, 0.0, fade, i)
    ensures n <= 2 * fade ==> forall i :: 0 <= i < n ==> env[i] == 1.0
    ensures forall i :: 0 <= i < n ==> 0.0 <= env[i] <= 1.0
  {
    RampsInRange(n, fade);
    seq(n, i requires 0 <= i < n => EnvelopeAt(n, fade, i))
  }

  /** Entry `i` of the envelope of `n` samples. */
  function EnvelopeAt(n: nat, fade: nat, i: nat): real
    requires i < n
  {
    if n > 2 * fade && i < fade then Linspace(0.0, 1.0, fade, i)
    else if n > 2 * fade && n - fade <= i then Linspace(1.0, 0.0, fade, i - (n - fade))
    else 1.0
  }

  lemma RampsInRange(n: nat, fade: nat)
    ensures forall i :: 0 <= i < n ==> 0.0 <= EnvelopeAt(n, fade, i) <= 1.0
    ensures n > 2 * fade && fade >= 2 ==> EnvelopeAt(n, fade, n - 1) == 0.0
  {
    forall i | 0 <= i < n ensures 0.0 <= EnvelopeAt(n, fade, i) <= 1.0 {
      if n > 2 * fade && i < fade {
        LinspaceRange(fade, i);
      } else if n > 2 * fade && n - fade <= i {
        LinspaceRange(fade, i - (n - fade));
      }
    }
    if n > 2 * fade && fade >= 2 {
      var d := (fade - 1) as real;
      assert (0.0 - 1.0) * d / d == -1.0;
      assert EnvelopeAt(n, fade, n - 1) == Linspace(1.0, 0.0, fade, fade - 1);
    }
  }

  /**
   * Builds the envelope the way the source does: an array of ones whose first
   * and last `fade` entries are overwritten by two linspace ramps.
   */
  method BuildEnvelope(n: nat, fade: nat) returns (env: seq<real>)
    requires fade >= 1
    ensures env == Envelope(n, fade)
  {
    var a := new real[n](i => 1.0);
    if n > 2 * fade {
      forall i | 0 <= i < fade {
        a[i] := Linspace(0.0, 1.0, fade, i);
      }
      forall i | n - fade <= i < n {
        a[i] := Linspace(1.0, 0.0, fade, i - (n - fade));
      }
    }
    env := a[..];
  }

  /**
   * The logarithmic volume law: silence for a non-positive intensity, otherwise
   * `min * (max / min) ** intensity` with `min = max * 0.01`. A zero ceiling with a
   * positive intensity divides 0 by 0 in the source, so it is excluded.
   */
  function Volume(intensity: real, maxVolume: real, pow: (real, real) -> real): (v: real)
    requires intensity > 0.0 ==> maxVolume != 0.0
    ensures intensity <= 0.0 ==> v == 0.0
    ensures intensity > 0.0 ==> v == maxVolume * 0.01 * pow(100.0, intensity)
  {
    if intensity <= 0.0 then 0.0
    else
      var minVolume := maxVolume * 0.01;  // the floor is 1% of the ceiling
      var ratio := maxVolume / minVolume;
      assert ratio == 100.0;
      minVolume * pow(ratio, intensity)
  }

  /** What the volume law needs of `pow`: `100 ** 0 == 1`, `100 ** 1 == 100`, and growth with the exponent. */
  ghost predicate PowLaw(pow: (real, real) -> real) {
    && pow(100.0, 0.0) == 1.0
    && pow(100.0, 1.0) == 100.0
    && forall x, y :: x < y ==> pow(100.0, x) < pow(100.0, y)
  }

  /** Full intensity gives exactly the ceiling: `min * 100 ** 1 == max`. */
  lemma VolumeAtFullIntensity(maxVolume: real, pow: (real, real) -> real)
    requires pow(100.0, 1.0) == 100.0 && maxVolume != 0.0
    ensures Volume(1.0, maxVolume, pow) == maxVolume
  {
  }

  /** Intensities in (0, 1] stay above the 1% floor and at most the ceiling. */
  lemma VolumeRange(intensity: real, maxVolume: real, pow: (real, real) -> real)
    requires PowLaw(pow) && maxVolume > 0.0
    requires 0.0 < intensity <= 1.0
    ensures maxVolume * 0.01 < Volume(intensity, maxVolume, pow) <= maxVolume
  {
    PowBetween(intensity, pow);
    var p := pow(100.0, intensity);
    var v := Volume(intensity, maxVolume, pow);
    assert v == maxVolume * 0.01 * p;
    ScaleBetween(maxVolume * 0.01, p);
  }

  lemma PowBetween(intensity: real, pow: (real, real) -> real)
    requires PowLaw(pow)
    requires 0.0 < intensity <= 1.0
    ensures 1.0 < pow(100.0, intensity) <= 100.0
  {
    assert pow(100.0, 0.0) < pow(100.0, intensity);
    if intensity < 1.0 { assert pow(100.0, intensity) < pow(100.0, 1.0); }
  }

  lemma ScaleBetween(floor: real, p: real)
    requires floor > 0.0 && 1.0 < p <= 100.0
    ensures floor < floor * p <= floor * 100.0
  {
  }

  /** The volume grows strictly with the intensity over positive intensities. */
  lemma VolumeMonotone(i1: real, i2: real, maxVolume: real, pow: (real, real) -> real)
    requires PowLaw(pow) && maxVolume > 0.0
    requires 0.0 < i1 < i2
    ensures Volume(i1, maxVolume, pow) < Volume(i2, maxVolume, pow)
  {
    var floor, p1, p2 := maxVolume * 0.01, pow(100.0, i1), pow(100.0, i2);
    assert p1 < p2;
    assert floor * p1 < floor * p2 by { assert floor * (p2 - p1) > 0.0; }
  }

  /** The samples of a tone: `volume * sin(...) * envelope`, `n` samples long. */
  function Samples(n: nat, fade: nat, volume: real, frequency: real, sine: (real, nat) -> real): (tone: seq<real>)
    ensures |tone| == n
    ensures volume == 0.0 ==> forall i :: 0 <= i < n ==> tone[i] == 0.0
  {
    seq(n, i requires 0 <= i < n => volume * sine(frequency, i) * EnvelopeAt(n, fade, i))
  }

  /** Each sample is the volume times the sine value times the envelope entry. */
  lemma SamplesUseEnvelope(n: nat, fade: nat, volume: real, frequency: real, sine: (real, nat) -> real)
    ensures forall i :: 0 <= i < n ==>
              Samples(n, fade, volume, frequency, sine)[i] == volume * sine(frequency, i) * Envelope(n, fade)[i]
  {
  }

  /** The peak amplitude of a tone never exceeds its volume when the sine stays in [-1, 1]. */
  lemma SamplesBounded(n: nat, fade: nat, volume: real, frequency: real, sine: (real, nat) -> real, i: nat)
    requires i < n && volume >= 0.0
    requires -1.0 <= sine(frequency, i) <= 1.0
    ensures Abs(Samples(n, fade, volume, frequency, sine)[i]) <= volume
  {
    var e := Envelope(n, fade)[i];
    var s := sine(frequency, i);
    assert Samples(n, fade, volume, frequency, sine)[i] == volume * s * e;
    ScaledBounded(volume, s, e);
  }

  lemma ScaledBounded(v: real, s: real, e: real)
    requires v >= 0.0 && -1.0 <= s <= 1.0 && 0.0 <= e <= 1.0
    ensures Abs(v * s * e) <= v
  {
    assert -1.0 <= s * e <= 1.0 by {
      if s >= 0.0 { assert s * e <= s * 1.0; } else { assert s * e >= s * 1.0; }
    }
    var se := s * e;
    assert v * s * e == v * se;
    if se >= 0.0 {
      assert v * se <= v * 1.0;
    } else {
      assert v * se >= v * (-1.0);
      assert v * se <= 0.0;
    }
  }

  /** Tone parameters of the desktop profiler. */
  datatype ToneSettings = ToneSettings(sampleRate: nat, toneDuration: real, fadeDuration: real, calibrationVolume: real)
  {
    ghost predicate Valid() {
      && sampleRate > 0 && toneDuration >= 0.0 && fadeDuration >= 0.0 && calibrationVolume > 0.0
      && Truncate(fadeDuration * sampleRate as real) >= 1
    }
    /** `int(sample_rate * tone_duration)`: the length of every test tone. */
    function ToneLength(): nat requires Valid() { Truncate(sampleRate as real * toneDuration) }
    function FadeSamples(): nat requires Valid() { Truncate(fadeDuration * sampleRate as real) }
  }

  /** The profiler's `generate_tone` with the default duration and the calibration volume as ceiling. */
  function ProfilerTone(s: ToneSettings, frequency: real, intensity: real,
                        sine: (real, nat) -> real, pow: (real, real) -> real): (tone: seq<real>)
    requires s.Valid()
    ensures |tone| == s.ToneLength()
    ensures intensity <= 0.0 ==> forall i :: 0 <= i < |tone| ==> tone[i] == 0.0
  {
    Samples(s.ToneLength(), s.FadeSamples(), Volume(intensity, s.calibrationVolume, pow), frequency, sine)
  }
}
