/**
 * Test planning: the cross product ears x frequencies x intensities, each
 * combination one trial with an unset outcome, in a shuffled order.
 */
module TestPlan {

  datatype Ear = Left | Right

  /** The tri-state outcome of a trial: Python's `None`, `True` and `False`. */
  datatype Heard = Unset | Yes | No

  datatype Trial = Trial(ear: Ear, frequency: real, intensity: real, heard: Heard)

  /** `'quick'` selects the short plan; any other mode string selects the full one. */
  datatype Mode = Quick | Full

  /** The three intensities of the quick test. */
  const QuickIntensities: seq<real> := [0.2, 0.6, 1.0]

  ghost predicate Distinct<T>(s: seq<T>) {
    forall i, j :: 0 <= i < j < |s| ==> s[i] != s[j]
  }

  /** The trials for one ear and one frequency, one per intensity, in intensity order. */
  function Row(ear: Ear, frequency: real, intensities: seq<real>): seq<Trial>
  {
    if intensities == [] then []
    else Row(ear, frequency, intensities[..|intensities| - 1])
         + [Trial(ear, frequency, intensities[|intensities| - 1], Unset)]
  }

  /** The trials for one ear: frequency-major, intensity-minor. */
  function Block(ear: Ear, frequencies: seq<real>, intensities: seq<real>): seq<Trial>
  {
    if frequencies == [] then []
    else Block(ear, frequencies[..|frequencies| - 1], intensities)
         + Row(ear, frequencies[|frequencies| - 1], intensities)
  }

  /** The unshuffled plan in the order of the source's nested loops. */
  function CrossProduct(frequencies: seq<real>, intensities: seq<real>): seq<Trial>
  {
    Block(Left, frequencies, intensities) + Block(Right, frequencies, intensities)
  }

  lemma {:induction false} RowLength(ear: Ear, frequency: real, intensities: seq<real>)
    ensures |Row(ear, frequency, intensities)| == |intensities|
  {
    if intensities != [] {
      RowLength(ear, frequency, intensities[..|intensities| - 1]);
    }
  }

  lemma {:induction false} BlockLength(ear: Ear, frequencies: seq<real>, intensities: seq<real>)
    ensures |Block(ear, frequencies, intensities)| == |frequencies| * |intensities|
  {
    if frequencies != [] {
      var n := |frequencies|;
      BlockLength(ear, frequencies[..n - 1], intensities);
      RowLength(ear, frequencies[n - 1], intensities);
      MulStep(n - 1, |intensities|);
    }
  }

  lemma MulStep(n: nat, m: nat)
    ensures (n + 1) * m == n * m + m
  {
  }

  /** The plan has 2 x |frequencies| x |intensities| trials. */
  lemma CrossProductLength(frequencies: seq<real>, intensities: seq<real>)
    ensures |CrossProduct(frequencies, intensities)| == 2 * |frequencies| * |intensities|
  {
    BlockLength(Left, frequencies, intensities);
    BlockLength(Right, frequencies, intensities);
  }

  /** The combination predicate: which trials belong to a plan. */
  ghost predicate InPlan(t: Trial, ear: Ear, frequencies: seq<real>, intensities: seq<real>) {
    t.ear == ear && t.heard == Unset && t.frequency in frequencies && t.intensity in intensities
  }

  lemma {:induction false} RowCount(ear: Ear, frequency: real, intensities: seq<real>, t: Trial)
    requires Distinct(intensities)
    ensures multiset(Row(ear, frequency, intensities))[t] ==
            if t.ear == ear && t.frequency == frequency && t.heard == Unset && t.intensity in intensities then 1 else 0
  {
    if intensities != [] {
      var k := |intensities| - 1;
      var init := intensities[..k];
      assert Distinct(init);
      RowCount(ear, frequency, init, t);
      assert intensities == init + [intensities[k]];
      assert intensities[k] !in init;
    }
  }

  lemma {:induction false} BlockCount(ear: Ear, frequencies: seq<real>, intensities: seq<real>, t: Trial)
    requires Distinct(frequencies) && Distinct(intensities)
    ensures multiset(Block(ear, frequencies, intensities))[t] ==
            if InPlan(t, ear, frequencies, intensities) then 1 else 0
  {
    if frequencies != [] {
      var k := |frequencies| - 1;
      var init := frequencies[..k];
      assert Distinct(init);
      BlockCount(ear, init, intensities, t);
      RowCount(ear, frequencies[k], intensities, t);
      assert frequencies == init + [frequencies[k]];
      assert frequencies[k] !in init;
    }
  }

  /**
   * With distinct frequencies and distinct intensities, every
   * (ear, frequency, intensity) combination occurs exactly once, with an unset outcome.
   */
  lemma CrossProductCount(frequencies: seq<real>, intensities: seq<real>, t: Trial)
    requires Distinct(frequencies) && Distinct(intensities)
    ensures multiset(CrossProduct(frequencies, intensities))[t] ==
            if t.heard == Unset && t.frequency in frequencies && t.intensity in intensities then 1 else 0
  {
    BlockCount(Left, frequencies, intensities, t);
    BlockCount(Right, frequencies, intensities, t);
  }

  lemma {:induction false} RowUnset(ear: Ear, frequency: real, intensities: seq<real>)
    ensures forall t :: t in Row(ear, frequency, intensities) ==> t.heard == Unset
  {
    if intensities != [] {
      RowUnset(ear, frequency, intensities[..|intensities| - 1]);
    }
  }

  lemma {:induction false} BlockUnset(ear: Ear, frequencies: seq<real>, intensities: seq<real>)
    ensures forall t :: t in Block(ear, frequencies, intensities) ==> t.heard == Unset
  {
    if frequencies != [] {
      BlockUnset(ear, frequencies[..|frequencies| - 1], intensities);
      RowUnset(ear, frequencies[|frequencies| - 1], intensities);
    }
  }

  /** Valid Fisher-Yates draws for `n` elements: the swap partner of position `i` is at most `i`. */
  ghost predicate ShuffleDraws(draws: seq<nat>, n: nat) {
    |draws| == n && forall i :: 0 <= i < n ==> draws[i] <= i
  }

  /**
   * `random.shuffle`: for i from n-1 down to 1, swap element i with element draws[i].
   * The result is a permutation of the input.
   */
  method Shuffle(a: array<Trial>, draws: seq<nat>)
    requires ShuffleDraws(draws, a.Length)
    modifies a
    ensures multiset(a[..]) == old(multiset(a[..]))
  {
    var i := a.Length;
    while i > 1
      invariant 0 <= i <= a.Length
      invariant multiset(a[..]) == old(multiset(a[..]))
    {
      i := i - 1;
      var j := draws[i];
      a[i], a[j] := a[j], a[i];
    }
  }

  /** The innermost loop of `create_test_sequence`: one trial per intensity. */
  method BuildRow(ear: Ear, frequency: real, intensities: seq<real>) returns (row: seq<Trial>)
    ensures row == Row(ear, frequency, intensities)
  {
    row := [];
    for k := 0 to |intensities|
      invariant row == Row(ear, frequency, intensities[..k])
    {
      row := row + [Trial(ear, frequency, intensities[k], Unset)];
      assert intensities[..k + 1][..k] == intensities[..k];
    }
    assert intensities[..|intensities|] == intensities;
  }

  /** The middle loop: one row per frequency. */
  method BuildBlock(ear: Ear, frequencies: seq<real>, intensities: seq<real>) returns (block: seq<Trial>)
    ensures block == Block(ear, frequencies, intensities)
  {
    block := [];
    for f := 0 to |frequencies|
      invariant block == Block(ear, frequencies[..f], intensities)
    {
      var row := BuildRow(ear, frequencies[f], intensities);
      block := block + row;
      assert frequencies[..f + 1][..f] == frequencies[..f];
    }
    assert frequencies[..|frequencies|] == frequencies;
  }

  /** The nested loops of `create_test_sequence`: ears, then frequencies, then intensities. */
  method PlanInOrder(frequencies: seq<real>, intensities: seq<real>) returns (plan: seq<Trial>)
    ensures plan == CrossProduct(frequencies, intensities)
  {
    var ears := [Left, Right];
    plan := [];
    for e := 0 to 2
      invariant plan == if e == 0 then [] else if e == 1 then Block(Left, frequencies, intensities)
                        else CrossProduct(frequencies, intensities)
    {
      var block := BuildBlock(ears[e], frequencies, intensities);
      plan := plan + block;
    }
  }

  /** A fresh array holding `s`. */
  method NewTrialArray(s: seq<Trial>) returns (a: array<Trial>)
    ensures fresh(a) && a[..] == s
  {
    a := new Trial[|s|](i requires 0 <= i < |s| => s[i]);
    assert a[..] == s;
  }

  /** The frequencies and intensities a mode selects. */
  function PlanAxes(mode: Mode, quickFrequencies: seq<real>, frequencyBands: seq<real>, intensityLevels: seq<real>)
    : (seq<real>, seq<real>)
  {
    if mode == Quick then (quickFrequencies, QuickIntensities) else (frequencyBands, intensityLevels)
  }

  /**
   * `create_test_sequence`: builds the cross product with nested loops, then shuffles it.
   * `quickFrequencies` are the 8 log-spaced values between 250 Hz and 8000 Hz.
   */
  method CreateTestSequence(mode: Mode, quickFrequencies: seq<real>, frequencyBands: seq<real>,
                            intensityLevels: seq<real>, draws: seq<nat>)
    returns (trials: seq<Trial>)
    requires |quickFrequencies| == 8
    requires ShuffleDraws(draws, 2 * |PlanAxes(mode, quickFrequencies, frequencyBands, intensityLevels).0|
                                    * |PlanAxes(mode, quickFrequencies, frequencyBands, intensityLevels).1|)
    ensures var axes := PlanAxes(mode, quickFrequencies, frequencyBands, intensityLevels);
            multiset(trials) == multiset(CrossProduct(axes.0, axes.1)) && |trials| == 2 * |axes.0| * |axes.1|
    ensures mode == Quick ==> |trials| == 48
    ensures forall i :: 0 <= i < |trials| ==> trials[i].heard == Unset
  {
    var frequencies, intensities := quickFrequencies, QuickIntensities;
    if mode != Quick {
      frequencies, intensities := frequencyBands, intensityLevels;
    }
    var plan := PlanInOrder(frequencies, intensities);
    CrossProductLength(frequencies, intensities);
    BlockUnset(Left, frequencies, intensities);
    BlockUnset(Right, frequencies, intensities);
    var a := NewTrialArray(plan);
    Shuffle(a, draws);
    trials := a[..];
    forall i | 0 <= i < |trials| ensures trials[i].heard == Unset {
      assert trials[i] in multiset(plan);
    }
  }
}
