/**
 * Analysis of a finished test: a threshold in dB HL per frequency, a
 * classification per ear, the high-frequency assessment, the comparison of
 * the two ears and with age norms, and the list of recommendations. The
 * base-10 logarithm is a parameter, `log10`.
 */
module Analyser {
  import opened Wrappers
  import opened TestPlan
  import opened Results
  import opened Numeric

  /** The threshold reported for a frequency at which nothing was heard. */
  const NothingHeardThreshold: real := 60.0

  // ---------------------------------------------------------------- arithmetic

  function Max(a: real, b: real): real { if a < b then b else a }

  function Sum(s: seq<real>): real
  {
    if s == [] then 0.0 else Sum(s[..|s| - 1]) + s[|s| - 1]
  }

  /** `np.mean` of a non-empty list. */
  function Mean(s: seq<real>): real
    requires s != []
  {
    Sum(s) / |s| as real
  }

  lemma {:induction false} SumAtLeast(s: seq<real>, lo: real)
    requires forall i :: 0 <= i < |s| ==> lo <= s[i]
    ensures |s| as real * lo <= Sum(s)
  {
    if s != [] {
      SumAtLeast(s[..|s| - 1], lo);
    }
  }

  lemma {:induction false} SumAtMost(s: seq<real>, hi: real)
    requires forall i :: 0 <= i < |s| ==> s[i] <= hi
    ensures Sum(s) <= |s| as real * hi
  {
    if s != [] {
      SumAtMost(s[..|s| - 1], hi);
    }
  }

  /** The mean is at least any lower bound of the entries. */
  lemma MeanAtLeast(s: seq<real>, lo: real)
    requires s != []
    requires forall i :: 0 <= i < |s| ==> lo <= s[i]
    ensures lo <= Mean(s)
  {
    SumAtLeast(s, lo);
    var n := |s| as real;
    assert Sum(s) / n >= (n * lo) / n;
  }

  /** The mean lies between the smallest and the largest bound of the entries. */
  lemma MeanBounds(s: seq<real>, lo: real, hi: real)
    requires s != []
    requires forall i :: 0 <= i < |s| ==> lo <= s[i] <= hi
    ensures lo <= Mean(s) <= hi
  {
    MeanAtLeast(s, lo);
    SumAtMost(s, hi);
    var n := |s| as real;
    assert Sum(s) / n <= (n * hi) / n;
  }

  // ---------------------------------------------------------------- thresholds

  /** The intensities of the entries marked heard, in order. */
  function HeardIntensities(records: seq<Record>): (h: seq<real>)
    ensures |h| <= |records|
    ensures h == [] <==> forall r :: r in records ==> !r.heard
    ensures forall x :: x in h <==> exists r :: r in records && r.heard && r.intensity == x
  {
    if records == [] then []
    else
      var last := records[|records| - 1];
      HeardIntensities(records[..|records| - 1]) + (if last.heard then [last.intensity] else [])
  }

  /** `min` of a non-empty list. */
  function MinOf(s: seq<real>): (m: real)
    requires s != []
    ensures m in s && forall x :: x in s ==> m <= x
  {
    if |s| == 1 then s[0]
    else
      var rest := MinOf(s[..|s| - 1]);
      assert forall x :: x in s ==> x in s[..|s| - 1] || x == s[|s| - 1];
      if s[|s| - 1] < rest then s[|s| - 1] else rest
  }

  /** The largest entry of a non-empty list. */
  function MaxOf(s: seq<real>): (m: real)
    requires s != []
    ensures m in s && forall x :: x in s ==> x <= m
  {
    if |s| == 1 then s[0]
    else
      var rest := MaxOf(s[..|s| - 1]);
      assert forall x :: x in s ==> x in s[..|s| - 1] || x == s[|s| - 1];
      if s[|s| - 1] > rest then s[|s| - 1] else rest
  }

  /**
   * `calculate_hearing_threshold`: 60 dB when nothing was heard, otherwise
   * `-20 * log10` of the softest heard intensity, never below 0.
   */
  function Threshold(records: seq<Record>, log10: real -> real): (t: real)
    ensures t >= 0.0
    ensures (forall r :: r in records ==> !r.heard) ==> t == NothingHeardThreshold
  {
    var heard := HeardIntensities(records);
    if heard == [] then NothingHeardThreshold
    else Max(0.0, -20.0 * log10(MinOf(heard)))
  }

  /** Two result lists whose softest heard intensity agrees have the same threshold. */
  lemma ThresholdDependsOnlyOnMinimum(a: seq<Record>, b: seq<Record>, log10: real -> real)
    requires HeardIntensities(a) != [] && HeardIntensities(b) != []
    requires MinOf(HeardIntensities(a)) == MinOf(HeardIntensities(b))
    ensures Threshold(a, log10) == Threshold(b, log10)
  {
  }

  /** An entry marked not heard never changes the threshold. */
  lemma ThresholdIgnoresUnheard(records: seq<Record>, intensity: real, log10: real -> real)
    ensures Threshold(records + [Record(intensity, false)], log10) == Threshold(records, log10)
  {
    var longer := records + [Record(intensity, false)];
    assert longer[..|longer| - 1] == records;
    assert HeardIntensities(longer) == HeardIntensities(records);
  }

  /** What the threshold needs of `log10`: it vanishes at 1 and grows strictly. */
  ghost predicate Log10Law(log10: real -> real) {
    && log10(1.0) == 0.0
    && forall x, y :: 0.0 < x < y ==> log10(x) < log10(y)
  }

  /** Hearing a softer tone never lowers the threshold. */
  lemma ThresholdMonotone(a: seq<Record>, b: seq<Record>, log10: real -> real)
    requires Log10Law(log10)
    requires HeardIntensities(a) != [] && HeardIntensities(b) != []
    requires 0.0 < MinOf(HeardIntensities(a)) <= MinOf(HeardIntensities(b))
    ensures Threshold(a, log10) >= Threshold(b, log10)
  {
    var ma, mb := MinOf(HeardIntensities(a)), MinOf(HeardIntensities(b));
    if ma < mb {
      assert log10(ma) < log10(mb);
    }
  }

  /** Hearing the loudest tone (intensity 1) as the softest gives 0 dB. */
  lemma ThresholdAtFullIntensity(records: seq<Record>, log10: real -> real)
    requires Log10Law(log10)
    requires HeardIntensities(records) != [] && MinOf(HeardIntensities(records)) == 1.0
    ensures Threshold(records, log10) == 0.0
  {
  }

  // ---------------------------------------------------------------- classification

  datatype Classification = Normal | Mild | Moderate | Severe | Profound
  {
    /** The position on the severity scale. */
    function Rank(): nat {
      match this
      case Normal => 0
      case Mild => 1
      case Moderate => 2
      case Severe => 3
      case Profound => 4
    }
    /** Whether the lowered label contains "moderate" or "severe": true of exactly two labels. */
    predicate WarrantsAudiologist() { this == Moderate || this == Severe }
  }

  /** The bands of `classify_hearing_loss`, inclusive at the top: 15, 25, 40, 70 dB. */
  function ClassifyAverage(average: real): (c: Classification)
    ensures c == Normal <==> average <= 15.0
    ensures c == Mild <==> 15.0 < average <= 25.0
    ensures c == Moderate <==> 25.0 < average <= 40.0
    ensures c == Severe <==> 40.0 < average <= 70.0
    ensures c == Profound <==> 70.0 < average
  {
    if average <= 15.0 then Normal
    else if average <= 25.0 then Mild
    else if average <= 40.0 then Moderate
    else if average <= 70.0 then Severe
    else Profound
  }

  /**
   * `classify_hearing_loss`: the band of the mean threshold, which is never
   * milder than the band of the best threshold nor worse than that of the worst.
   */
  function ClassifyHearingLoss(thresholds: seq<real>): (c: Classification)
    requires thresholds != []
    ensures ClassifyAverage(MinOf(thresholds)).Rank() <= c.Rank() <= ClassifyAverage(MaxOf(thresholds)).Rank()
  {
    assert forall i :: 0 <= i < |thresholds| ==> thresholds[i] in thresholds;
    MeanBounds(thresholds, MinOf(thresholds), MaxOf(thresholds));
    ClassificationMonotone(MinOf(thresholds), Mean(thresholds));
    ClassificationMonotone(Mean(thresholds), MaxOf(thresholds));
    ClassifyAverage(Mean(thresholds))
  }

  /** A worse average never gives a milder classification. */
  lemma ClassificationMonotone(a: real, b: real)
    requires a <= b
    ensures ClassifyAverage(a).Rank() <= ClassifyAverage(b).Rank()
  {
  }

  // ---------------------------------------------------------------- high frequencies

  datatype Severity = HfNormal | HfMild | HfModerate | HfSevere
  datatype HighFrequencyLoss = Unknown | Assessed(severity: Severity, averageLoss: real)

  /** The thresholds measured at 4000 Hz or above, in order. */
  function HighThresholds(frequencies: seq<real>, thresholds: seq<real>): (h: seq<real>)
    requires |frequencies| <= |thresholds|
    ensures |h| <= |frequencies|
    ensures h == [] <==> forall i :: 0 <= i < |frequencies| ==> frequencies[i] < 4000.0
  {
    if frequencies == [] then []
    else
      var n := |frequencies| - 1;
      HighThresholds(frequencies[..n], thresholds) + (if frequencies[n] >= 4000.0 then [thresholds[n]] else [])
  }

  /** The strict bands of the high-frequency assessment: 15, 25, 40 dB. */
  function SeverityOf(average: real): (s: Severity)
    ensures s == HfNormal <==> average < 15.0
    ensures s == HfMild <==> 15.0 <= average < 25.0
    ensures s == HfModerate <==> 25.0 <= average < 40.0
    ensures s == HfSevere <==> 40.0 <= average
  {
    if average < 15.0 then HfNormal
    else if average < 25.0 then HfMild
    else if average < 40.0 then HfModerate
    else HfSevere
  }

  /**
   * `assess_high_frequency_loss`: unknown without a frequency of at least
   * 4000 Hz, otherwise the band of the mean of those thresholds.
   */
  function AssessHighFrequencyLoss(frequencies: seq<real>, thresholds: seq<real>): (r: HighFrequencyLoss)
    requires |frequencies| <= |thresholds|
    ensures r.Unknown? <==> forall i :: 0 <= i < |frequencies| ==> frequencies[i] < 4000.0
    ensures r.Assessed? ==> r.averageLoss == Mean(HighThresholds(frequencies, thresholds))
                            && r.severity == SeverityOf(r.averageLoss)
  {
    var high := HighThresholds(frequencies, thresholds);
    if high == [] then Unknown
    else
      var average := Mean(high);
      Assessed(SeverityOf(average), average)
  }

  /** Frequencies below 4000 Hz never influence the assessment. */
  lemma {:induction false} HighThresholdsIgnoreLow(frequencies: seq<real>, thresholds: seq<real>, f: real, t: real)
    requires |frequencies| == |thresholds| && f < 4000.0
    ensures HighThresholds(frequencies + [f], thresholds + [t]) == HighThresholds(frequencies, thresholds)
  {
    var fs, ts := frequencies + [f], thresholds + [t];
    assert fs[..|fs| - 1] == frequencies;
    HighThresholdsPrefix(frequencies, thresholds, ts);
  }

  /** Only the first `|frequencies|` thresholds are read. */
  lemma {:induction false} HighThresholdsPrefix(frequencies: seq<real>, thresholds: seq<real>, longer: seq<real>)
    requires |frequencies| <= |thresholds| <= |longer| && thresholds == longer[..|thresholds|]
    ensures HighThresholds(frequencies, thresholds) == HighThresholds(frequencies, longer)
  {
    if frequencies != [] {
      HighThresholdsPrefix(frequencies[..|frequencies| - 1], thresholds, longer);
    }
  }

  // ---------------------------------------------------------------- ear comparison

  datatype Asymmetry = Symmetrical | MildAsymmetry | SignificantAsymmetry
  datatype EarComparison = EarComparison(asymmetry: Asymmetry, differenceDb: real, betterEar: Ear)

  /**
   * `compare_ears`: the absolute difference of the averages in bands of 5 and
   * 15 dB; the left ear is the better one only when its average is strictly lower.
   */
  function CompareEars(leftAverage: real, rightAverage: real): (c: EarComparison)
    ensures c.differenceDb >= 0.0
    ensures c.differenceDb == leftAverage - rightAverage || c.differenceDb == rightAverage - leftAverage
    ensures c.asymmetry == Symmetrical <==> c.differenceDb < 5.0
    ensures c.asymmetry == MildAsymmetry <==> 5.0 <= c.differenceDb < 15.0
    ensures c.asymmetry == SignificantAsymmetry <==> 15.0 <= c.differenceDb
    ensures c.betterEar == Left <==> leftAverage < rightAverage
  {
    var difference := Abs(leftAverage - rightAverage);
    var asymmetry := if difference < 5.0 then Symmetrical
                     else if difference < 15.0 then MildAsymmetry
                     else SignificantAsymmetry;
    EarComparison(asymmetry, difference, if leftAverage < rightAverage then Left else Right)
  }

  /** Swapping the ears keeps the difference and the asymmetry; equal averages make the right ear the better one. */
  lemma CompareEarsSymmetric(a: real, b: real)
    ensures CompareEars(a, b).differenceDb == CompareEars(b, a).differenceDb
    ensures CompareEars(a, b).asymmetry == CompareEars(b, a).asymmetry
    ensures a != b ==> CompareEars(a, b).betterEar != CompareEars(b, a).betterEar
    ensures a == b ==> CompareEars(a, b).betterEar == Right
  {
  }

  // ---------------------------------------------------------------- age norms

  /** The age groups of the norms table, ascending. */
  const NormAges: seq<int> := [20, 30, 40, 50, 60, 70]
  /** The frequencies of every row of the norms table, in the table's order. */
  const NormFrequencies: seq<real> := [125.0, 250.0, 500.0, 1000.0, 2000.0, 4000.0, 8000.0]

  /** The typical thresholds (dB HL) of age group `g`, one per entry of `NormFrequencies`. */
  function NormRow(g: nat): (row: seq<real>)
    requires g < |NormAges|
    ensures |row| == |NormFrequencies|
  {
    [ [5.0, 5.0, 5.0, 5.0, 5.0, 5.0, 10.0],
      [5.0, 5.0, 5.0, 5.0, 10.0, 15.0, 20.0],
      [5.0, 5.0, 5.0, 10.0, 15.0, 25.0, 30.0],
      [10.0, 10.0, 10.0, 15.0, 20.0, 35.0, 40.0],
      [15.0, 15.0, 15.0, 20.0, 30.0, 45.0, 50.0],
      [20.0, 20.0, 20.0, 25.0, 35.0, 55.0, 60.0] ][g]
  }

  /**
   * `min(keys, key=lambda k: abs(k - x))`: the index of a key nearest to `x`,
   * the first such in order when several are equally near.
   */
  function Nearest(keys: seq<real>, x: real): (i: nat)
    requires keys != []
    ensures i < |keys|
    ensures forall j :: 0 <= j < |keys| ==> Abs(keys[i] - x) <= Abs(keys[j] - x)
    ensures forall j :: 0 <= j < i ==> Abs(keys[i] - x) < Abs(keys[j] - x)
  {
    if |keys| == 1 then 0
    else
      var n := |keys| - 1;
      var p := Nearest(keys[..n], x);
      if Abs(keys[n] - x) < Abs(keys[p] - x) then n else p
  }

  function AsReals(s: seq<int>): (r: seq<real>)
    ensures |r| == |s| && forall i :: 0 <= i < |s| ==> r[i] == s[i] as real
  {
    seq(|s|, i requires 0 <= i < |s| => s[i] as real)
  }

  /** The index of the age group nearest to `age`; ties go to the younger group. */
  function ReferenceGroup(age: int): (g: nat)
    ensures g < |NormAges|
  {
    Nearest(AsReals(NormAges), age as real)
  }

  /** Exactly between two groups, the younger one is the reference. */
  lemma ReferenceAgeTies()
    ensures NormAges[ReferenceGroup(25)] == 20
    ensures NormAges[ReferenceGroup(65)] == 60
  {
    var ages := AsReals(NormAges);
    assert ages == [20.0, 30.0, 40.0, 50.0, 60.0, 70.0];
    assert Abs(ages[0] - 25.0) == 5.0 && Abs(ages[1] - 25.0) == 5.0;
    assert Abs(ages[4] - 65.0) == 5.0 && Abs(ages[5] - 65.0) == 5.0;
  }

  datatype AgeAssessment = WithinNormalLimits | SlightlyWorse | SignificantlyWorse
  datatype AgeComparison = AgeComparison(averageDeviation: real, assessment: AgeAssessment, referenceAge: int)

  /** The bands of the age assessment: 5 and 15 dB, strict. */
  function AssessDeviation(average: real): (a: AgeAssessment)
    ensures a == WithinNormalLimits <==> average < 5.0
    ensures a == SlightlyWorse <==> 5.0 <= average < 15.0
    ensures a == SignificantlyWorse <==> 15.0 <= average
  {
    if average < 5.0 then WithinNormalLimits
    else if average < 15.0 then SlightlyWorse
    else SignificantlyWorse
  }

  /** The norm threshold for one measured frequency: the nearest norm frequency, the lower on a tie. */
  function NormFor(row: seq<real>, frequency: real): real
    requires |row| == |NormFrequencies|
  {
    row[Nearest(NormFrequencies, frequency)]
  }

  /**
   * The deviations of one ear from a norms row, walking frequencies and
   * thresholds in step (`zip` stops at the shorter list).
   */
  method Deviations(frequencies: seq<real>, thresholds: seq<real>, row: seq<real>) returns (deviations: seq<real>)
    requires |row| == |NormFrequencies|
    ensures |deviations| == if |frequencies| < |thresholds| then |frequencies| else |thresholds|
    ensures forall i :: 0 <= i < |deviations| ==> deviations[i] == thresholds[i] - NormFor(row, frequencies[i])
  {
    deviations := [];
    var i := 0;
    while i < |frequencies| && i < |thresholds|
      invariant 0 <= i <= |frequencies| && i <= |thresholds|
      invariant |deviations| == i
      invariant forall j :: 0 <= j < i ==> deviations[j] == thresholds[j] - NormFor(row, frequencies[j])
    {
      var normThreshold := row[Nearest(NormFrequencies, frequencies[i])];
      deviations := deviations + [thresholds[i] - normThreshold];
      i := i + 1;
    }
  }

  // ---------------------------------------------------------------- whole analysis

  datatype EarAnalysis = EarAnalysis(
    frequencies: seq<real>,
    thresholds: seq<real>,
    averageThreshold: real,
    highFrequencyLoss: HighFrequencyLoss,
    classification: Classification)

  datatype Recommendation =
    | Audiologist(classification: Classification, ear: Ear)
    | ProfessionalEvaluation
    | HighFrequencyWarning(ear: Ear)
    | WithinNormalRanges
    | RegularChecks
  {
    /** Recommendations are added in this order of kinds. */
    function Rank(): nat {
      match this
      case Audiologist(_, ear) => if ear == Left then 0 else 1
      case ProfessionalEvaluation => 2
      case HighFrequencyWarning(ear) => if ear == Left then 3 else 4
      case WithinNormalRanges => 5
      case RegularChecks => 6
    }
  }

  datatype Analysis = Analysis(
    left: EarAnalysis,
    right: EarAnalysis,
    comparison: EarComparison,
    ageComparison: Option<(AgeComparison, AgeComparison)>,
    recommendations: seq<Recommendation>)
  {
    function Of(ear: Ear): EarAnalysis {
      if ear == Left then left else right
    }
  }

  /** A high-frequency assessment of moderate or severe. */
  predicate HighFrequencyConcern(h: HighFrequencyLoss) {
    h.Assessed? && (h.severity == HfModerate || h.severity == HfSevere)
  }

  /** Whether an analysis gives any reason for concern. */
  predicate AnyConcern(left: EarAnalysis, right: EarAnalysis, comparison: EarComparison) {
    || left.classification.WarrantsAudiologist() || right.classification.WarrantsAudiologist()
    || comparison.asymmetry == SignificantAsymmetry
    || HighFrequencyConcern(left.highFrequencyLoss) || HighFrequencyConcern(right.highFrequencyLoss)
  }

  /** The audiologist line for one ear, when its classification is moderate or severe. */
  function AudiologistLine(ear: Ear, a: EarAnalysis): seq<Recommendation> {
    if a.classification.WarrantsAudiologist() then [Audiologist(a.classification, ear)] else []
  }

  /** The high-frequency warning for one ear, when its high-frequency loss is moderate or severe. */
  function WarningLine(ear: Ear, a: EarAnalysis): seq<Recommendation> {
    if HighFrequencyConcern(a.highFrequencyLoss) then [HighFrequencyWarning(ear)] else []
  }

  /** The lines that report a concern, in the order they are added. */
  function ConcernLines(left: EarAnalysis, right: EarAnalysis, comparison: EarComparison): seq<Recommendation> {
    AudiologistLine(Left, left) + AudiologistLine(Right, right)
    + (if comparison.asymmetry == SignificantAsymmetry then [ProfessionalEvaluation] else [])
    + WarningLine(Left, left) + WarningLine(Right, right)
  }

  /** The recommendations: the concern lines, or the reassurance line when there are none, then the regular-checks line. */
  function Recommendations(left: EarAnalysis, right: EarAnalysis, comparison: EarComparison): seq<Recommendation> {
    var concerns := ConcernLines(left, right, comparison);
    (if concerns == [] then [WithinNormalRanges] else concerns) + [RegularChecks]
  }

  /**
   * `generate_recommendations`: one pass over the two ears for audiologist
   * lines, the asymmetry line, a second pass for high-frequency warnings,
   * then the closing lines.
   */
  method GenerateRecommendations(left: EarAnalysis, right: EarAnalysis, comparison: EarComparison)
    returns (recs: seq<Recommendation>)
    ensures recs == Recommendations(left, right, comparison)
  {
    recs := [];
    var ears := [Left, Right];
    for k := 0 to 2
      invariant recs == (if k >= 1 then AudiologistLine(Left, left) else [])
                        + (if k >= 2 then AudiologistLine(Right, right) else [])
    {
      var analysis := if ears[k] == Left then left else right;
      if analysis.classification.WarrantsAudiologist() {
        recs := recs + [Audiologist(analysis.classification, ears[k])];
      }
    }
    if comparison.asymmetry == SignificantAsymmetry {
      recs := recs + [ProfessionalEvaluation];
    }
    ghost var beforeWarnings := recs;
    for k := 0 to 2
      invariant recs == beforeWarnings + (if k >= 1 then WarningLine(Left, left) else [])
                        + (if k >= 2 then WarningLine(Right, right) else [])
    {
      var analysis := if ears[k] == Left then left else right;
      if HighFrequencyConcern(analysis.highFrequencyLoss) {
        recs := recs + [HighFrequencyWarning(ears[k])];
      }
    }
    assert recs == ConcernLines(left, right, comparison);
    if recs == [] {
      recs := recs + [WithinNormalRanges];
    }
    recs := recs + [RegularChecks];
  }

  /** Between two and six lines; the regular-checks line once, last. */
  lemma RecommendationsShape(left: EarAnalysis, right: EarAnalysis, comparison: EarComparison)
    ensures var recs := Recommendations(left, right, comparison);
      && 2 <= |recs| <= 6
      && recs[|recs| - 1] == RegularChecks
      && RegularChecks !in recs[..|recs| - 1]
  {
    var recs := Recommendations(left, right, comparison);
    var concerns := ConcernLines(left, right, comparison);
    assert RegularChecks !in concerns;
    assert recs[..|recs| - 1] == if concerns == [] then [WithinNormalRanges] else concerns;
  }

  /** The reassurance line appears exactly when nothing gives reason for concern, and then with only the closing line. */
  lemma RecommendationsReassure(left: EarAnalysis, right: EarAnalysis, comparison: EarComparison)
    ensures WithinNormalRanges in Recommendations(left, right, comparison) <==> !AnyConcern(left, right, comparison)
    ensures !AnyConcern(left, right, comparison) ==>
              Recommendations(left, right, comparison) == [WithinNormalRanges, RegularChecks]
  {
    var concerns := ConcernLines(left, right, comparison);
    assert concerns == [] <==> !AnyConcern(left, right, comparison);
    assert WithinNormalRanges !in concerns;
  }

  /** Each concern line appears exactly when its condition holds. */
  lemma RecommendationsReportConcerns(left: EarAnalysis, right: EarAnalysis, comparison: EarComparison, c: Classification, ear: Ear)
    ensures Audiologist(c, ear) in Recommendations(left, right, comparison) <==>
              c == (if ear == Left then left else right).classification && c.WarrantsAudiologist()
    ensures ProfessionalEvaluation in Recommendations(left, right, comparison) <==>
              comparison.asymmetry == SignificantAsymmetry
    ensures HighFrequencyWarning(ear) in Recommendations(left, right, comparison) <==>
              HighFrequencyConcern((if ear == Left then left else right).highFrequencyLoss)
  {
    var concerns := ConcernLines(left, right, comparison);
    var recs := Recommendations(left, right, comparison);
    assert concerns != [] ==> recs == concerns + [RegularChecks];
    assert concerns == [] ==> recs == [WithinNormalRanges, RegularChecks];
  }

  /** Recommendation ranks strictly increase along `recs` and stay below `bound`. */
  predicate OrderedBelow(recs: seq<Recommendation>, bound: nat) {
    && (forall i :: 0 <= i < |recs| ==> recs[i].Rank() < bound)
    && (forall i, j :: 0 <= i < j < |recs| ==> recs[i].Rank() < recs[j].Rank())
  }

  /** Appending at most one line of rank `rank` keeps the order. */
  lemma AppendLine(recs: seq<Recommendation>, rank: nat, line: seq<Recommendation>)
    requires OrderedBelow(recs, rank)
    requires |line| <= 1 && (|line| == 1 ==> line[0].Rank() == rank)
    ensures OrderedBelow(recs + line, rank + 1)
  {
  }

  /** At most one line, of the given rank. */
  predicate LineOfRank(line: seq<Recommendation>, rank: nat) {
    |line| <= 1 && (|line| == 1 ==> line[0].Rank() == rank)
  }

  lemma FiveLinesOrdered(l0: seq<Recommendation>, l1: seq<Recommendation>, l2: seq<Recommendation>,
                         l3: seq<Recommendation>, l4: seq<Recommendation>)
    requires LineOfRank(l0, 0) && LineOfRank(l1, 1) && LineOfRank(l2, 2) && LineOfRank(l3, 3) && LineOfRank(l4, 4)
    ensures OrderedBelow(l0 + l1 + l2 + l3 + l4, 5)
  {
    AppendLine([], 0, l0);
    assert [] + l0 == l0;
    AppendLine(l0, 1, l1);
    AppendLine(l0 + l1, 2, l2);
    AppendLine(l0 + l1 + l2, 3, l3);
    AppendLine(l0 + l1 + l2 + l3, 4, l4);
  }

  /** The concern lines come in the fixed order of their kinds, below the closing lines. */
  lemma ConcernLinesOrdered(left: EarAnalysis, right: EarAnalysis, comparison: EarComparison)
    ensures OrderedBelow(ConcernLines(left, right, comparison), 5)
  {
    var evaluation := if comparison.asymmetry == SignificantAsymmetry then [ProfessionalEvaluation] else [];
    FiveLinesOrdered(AudiologistLine(Left, left), AudiologistLine(Right, right), evaluation,
                     WarningLine(Left, left), WarningLine(Right, right));
  }

  /** The lines come in the fixed order of their kinds, so each kind and ear at most once. */
  lemma RecommendationsOrdered(left: EarAnalysis, right: EarAnalysis, comparison: EarComparison)
    ensures var recs := Recommendations(left, right, comparison);
      forall i, j :: 0 <= i < j < |recs| ==> recs[i].Rank() < recs[j].Rank()
  {
    var concerns := ConcernLines(left, right, comparison);
    ConcernLinesOrdered(left, right, comparison);
    if concerns == [] {
      AppendLine([], 5, [WithinNormalRanges]);
      AppendLine([WithinNormalRanges], 6, [RegularChecks]);
    } else {
      AppendLine(concerns, 5, []);
      assert concerns + [] == concerns;
      AppendLine(concerns, 6, [RegularChecks]);
    }
  }

  /** A profound loss is the one classification beyond "severe" that adds no audiologist line. */
  lemma ProfoundAddsNoAudiologist(c: Classification)
    ensures c.WarrantsAudiologist() <==> c == Moderate || c == Severe
    ensures c == Profound ==> !c.WarrantsAudiologist()
  {
  }

  /** `sorted()` of the measured frequencies: strictly ascending, each key once. */
  method SortedFrequencies(keys: set<real>) returns (sorted: seq<real>)
    ensures |sorted| == |keys|
    ensures forall x :: x in sorted <==> x in keys
    ensures forall i, j :: 0 <= i < j < |sorted| ==> sorted[i] < sorted[j]
  {
    sorted := [];
    var remaining := keys;
    while remaining != {}
      invariant remaining <= keys
      invariant |sorted| + |remaining| == |keys|
      invariant forall x :: x in sorted <==> x in keys && x !in remaining
      invariant forall i, j :: 0 <= i < j < |sorted| ==> sorted[i] < sorted[j]
      invariant forall i, y :: 0 <= i < |sorted| && y in remaining ==> sorted[i] < y
      decreases |remaining|
    {
      SmallestExists(remaining);
      var m :| m in remaining && forall y :: y in remaining ==> m <= y;
      sorted := sorted + [m];
      remaining := remaining - {m};
    }
  }

  /** Every non-empty finite set of reals has a least element. */
  lemma {:induction false} SmallestExists(s: set<real>)
    requires |s| > 0
    ensures exists m :: m in s && forall y :: y in s ==> m <= y
    decreases |s|
  {
    assert exists x :: x in s by {
      if forall x :: x !in s {
        assert false;
      }
    }
    var x :| x in s;
    var rest := s - {x};
    if rest == {} {
      forall y | y in s ensures x <= y {
        assert y == x || y in rest;
      }
    } else {
      SmallestExists(rest);
      var m :| m in rest && forall y :: y in rest ==> m <= y;
      var least := if x < m then x else m;
      forall y | y in s ensures least <= y {
        assert y == x || y in rest;
      }
      assert least in s;
    }
  }

  /**
   * What one ear's analysis holds: every measured frequency once, ascending,
   * the threshold of each in the same position, their mean, the
   * high-frequency assessment and the classification of those thresholds.
   */
  ghost predicate EarAnalysed(a: EarAnalysis, results: map<real, seq<Record>>, log10: real -> real) {
    && |a.frequencies| == |a.thresholds| == |results|
    && (forall x :: x in a.frequencies <==> x in results)
    && (forall i, j :: 0 <= i < j < |a.frequencies| ==> a.frequencies[i] < a.frequencies[j])
    && (forall i :: 0 <= i < |a.thresholds| ==>
          a.frequencies[i] in results && a.thresholds[i] == Threshold(results[a.frequencies[i]], log10))
    && a.thresholds != [] && a.averageThreshold == Mean(a.thresholds)
    && a.highFrequencyLoss == AssessHighFrequencyLoss(a.frequencies, a.thresholds)
    && a.classification == ClassifyHearingLoss(a.thresholds)
  }

  /**
   * One ear's analysis: its frequencies ascending, the threshold of each in
   * the same position, their mean, the high-frequency assessment and the classification.
   */
  method AnalyseEar(results: map<real, seq<Record>>, log10: real -> real) returns (a: EarAnalysis)
    requires results != map[]
    ensures EarAnalysed(a, results, log10)
  {
    var frequencies := SortedFrequencies(results.Keys);
    assert forall j :: 0 <= j < |frequencies| ==> frequencies[j] in results by {
      forall j | 0 <= j < |frequencies| ensures frequencies[j] in results {
        assert frequencies[j] in frequencies;
      }
    }
    var thresholds := [];
    for i := 0 to |frequencies|
      invariant |thresholds| == i
      invariant forall j :: 0 <= j < i ==> thresholds[j] == Threshold(results[frequencies[j]], log10)
    {
      thresholds := thresholds + [Threshold(results[frequencies[i]], log10)];
    }
    a := EarAnalysis(frequencies, thresholds, Mean(thresholds),
                     AssessHighFrequencyLoss(frequencies, thresholds), ClassifyHearingLoss(thresholds));
  }

  /** Every threshold is at least 0 dB, so is every ear's average. */
  lemma AverageNonNegative(results: map<real, seq<Record>>, a: EarAnalysis, log10: real -> real)
    requires EarAnalysed(a, results, log10)
    ensures a.averageThreshold >= 0.0
  {
    MeanAtLeast(a.thresholds, 0.0);
  }

  /**
   * `analyse_hearing_profile`: both ears analysed, compared, compared with the
   * age norms when an age other than 0 is given, and the recommendations.
   */
  method AnalyseHearingProfile(results: ResultsMap, age: Option<int>, log10: real -> real) returns (a: Analysis)
    requires Left in results && Right in results
    requires results[Left] != map[] && results[Right] != map[]
    ensures EarAnalysed(a.left, results[Left], log10) && EarAnalysed(a.right, results[Right], log10)
    ensures a.comparison == CompareEars(a.left.averageThreshold, a.right.averageThreshold)
    ensures a.ageComparison.Some? <==> age.Some? && age.value != 0
    ensures a.ageComparison.Some? ==>
              && AgeCompared(a.ageComparison.value.0, a.left, age.value)
              && AgeCompared(a.ageComparison.value.1, a.right, age.value)
    ensures a.recommendations == Recommendations(a.left, a.right, a.comparison)
  {
    var left := AnalyseEar(results[Left], log10);
    var right := AnalyseEar(results[Right], log10);
    var comparison := CompareEars(left.averageThreshold, right.averageThreshold);
    var ageComparison := None;
    if age.Some? && age.value != 0 {
      var l := CompareToAgeNorms(left, age.value);
      var r := CompareToAgeNorms(right, age.value);
      ageComparison := Some((l, r));
    }
    var recommendations := GenerateRecommendations(left, right, comparison);
    a := Analysis(left, right, comparison, ageComparison, recommendations);
  }

  /**
   * `c` is the comparison of `ear` with the norms of the age group nearest to
   * `age`: that group's age, the mean of the per-frequency deviations from its
   * row, and the band of that mean.
   */
  ghost predicate AgeCompared(c: AgeComparison, ear: EarAnalysis, age: int)
    requires |ear.frequencies| == |ear.thresholds|
  {
    && c.referenceAge == NormAges[ReferenceGroup(age)]
    && c.assessment == AssessDeviation(c.averageDeviation)
    && exists deviations: seq<real> ::
         && |deviations| == |ear.frequencies| > 0
         && (forall i :: 0 <= i < |deviations| ==>
               deviations[i] == ear.thresholds[i] - NormFor(NormRow(ReferenceGroup(age)), ear.frequencies[i]))
         && c.averageDeviation == Mean(deviations)
  }

  /**
   * `compare_to_age_norms` for one ear: the nearest age group's row, the mean
   * deviation from it, and the band of that mean.
   */
  method CompareToAgeNorms(ear: EarAnalysis, age: int) returns (c: AgeComparison)
    requires ear.frequencies != [] && |ear.frequencies| == |ear.thresholds|
    ensures AgeCompared(c, ear, age)
  {
    var g := ReferenceGroup(age);
    var deviations := Deviations(ear.frequencies, ear.thresholds, NormRow(g));
    var average := Mean(deviations);
    c := AgeComparison(average, AssessDeviation(average), NormAges[g]);
  }
}
