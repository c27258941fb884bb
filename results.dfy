/**
 * The results store and the two operations that write it: matching a
 * "heard" click to the first pending tone event, and the end-of-test sweep
 * that records every still-unanswered trial as not heard. The invariant
 * `Consistent` says the stored records are exactly the decided trials.
 */
module Results {
  import opened Wrappers
  import opened TestPlan
  import opened Timeline

  /** One `{intensity, heard}` entry of the results lists. */
  datatype Record = Record(intensity: real, heard: bool)

  /** `test_results`: per ear, per frequency, the records in the order they were written. */
  type ResultsMap = map<Ear, map<real, seq<Record>>>

  /** `{'left': {}, 'right': {}}`. */
  function EmptyResults(): (r: ResultsMap)
    ensures r.Keys == {Left, Right} && r[Left] == map[] && r[Right] == map[]
  {
    map[Left := map[], Right := map[]]
  }

  /** The records stored under one ear and frequency; none when the key is absent. */
  function RecordsFor(r: ResultsMap, ear: Ear, frequency: real): seq<Record>
  {
    if ear in r && frequency in r[ear] then r[ear][frequency] else []
  }

  /** Create the list for a new frequency if needed, then append one record to it. */
  function Append(r: ResultsMap, ear: Ear, frequency: real, rec: Record): (r': ResultsMap)
    requires r.Keys == {Left, Right}
    ensures r'.Keys == r.Keys
    ensures RecordsFor(r', ear, frequency) == RecordsFor(r, ear, frequency) + [rec]
    ensures forall e, f :: (e != ear || f != frequency) ==> RecordsFor(r', e, f) == RecordsFor(r, e, f)
  {
    assert ear.Left? || ear.Right?;
    var lists := if frequency !in r[ear] then r[ear][frequency := []] else r[ear];
    r[ear := lists[frequency := lists[frequency] + [rec]]]
  }

  /** The record a decided trial stands for, under its own ear and frequency. */
  function Contribution(t: Trial, ear: Ear, frequency: real): multiset<Record>
  {
    if t.ear == ear && t.frequency == frequency && t.heard != Unset
    then multiset{Record(t.intensity, t.heard == Yes)} else multiset{}
  }

  /** The records the decided trials among `trials` stand for under one key. */
  function Decided(trials: seq<Trial>, ear: Ear, frequency: real): multiset<Record>
  {
    if trials == [] then multiset{}
    else Decided(trials[..|trials| - 1], ear, frequency) + Contribution(trials[|trials| - 1], ear, frequency)
  }

  /** The stored records are exactly those of the decided trials, key by key. */
  ghost predicate Consistent(r: ResultsMap, trials: seq<Trial>) {
    && r.Keys == {Left, Right}
    && forall ear, frequency :: ConsistentAt(r, trials, ear, frequency)
  }

  /** Consistency under one key. */
  ghost predicate ConsistentAt(r: ResultsMap, trials: seq<Trial>, ear: Ear, frequency: real) {
    multiset(RecordsFor(r, ear, frequency)) == Decided(trials, ear, frequency)
  }

  lemma {:induction false} DecidedOfUnset(trials: seq<Trial>, ear: Ear, frequency: real)
    requires forall i :: 0 <= i < |trials| ==> trials[i].heard == Unset
    ensures Decided(trials, ear, frequency) == multiset{}
  {
    if trials != [] {
      DecidedOfUnset(trials[..|trials| - 1], ear, frequency);
    }
  }

  /** A freshly planned test, with empty results, is consistent. */
  lemma FreshTestConsistent(trials: seq<Trial>)
    requires forall i :: 0 <= i < |trials| ==> trials[i].heard == Unset
    ensures Consistent(EmptyResults(), trials)
  {
    forall ear, frequency ensures ConsistentAt(EmptyResults(), trials, ear, frequency) {
      DecidedOfUnset(trials, ear, frequency);
    }
  }

  /** Deciding one unset trial adds exactly its record under its own key and nothing elsewhere. */
  lemma {:induction false} DecideOne(trials: seq<Trial>, k: nat, v: Heard, ear: Ear, frequency: real)
    requires k < |trials| && trials[k].heard == Unset && v != Unset
    ensures Decided(trials[k := trials[k].(heard := v)], ear, frequency)
            == Decided(trials, ear, frequency) + Contribution(trials[k].(heard := v), ear, frequency)
    decreases |trials|, 1
  {
    if k < |trials| - 1 {
      DecideBeforeLastStep(trials, k, v, ear, frequency);
    } else {
      DecideLast(trials, trials[k].(heard := v), ear, frequency);
    }
  }

  lemma {:induction false} DecideBeforeLastStep(trials: seq<Trial>, k: nat, v: Heard, ear: Ear, frequency: real)
    requires k < |trials| - 1 && trials[k].heard == Unset && v != Unset
    ensures Decided(trials[k := trials[k].(heard := v)], ear, frequency)
            == Decided(trials, ear, frequency) + Contribution(trials[k].(heard := v), ear, frequency)
    decreases |trials|, 0
  {
    var n := |trials| - 1;
    var t' := trials[k].(heard := v);
    DecideOne(trials[..n], k, v, ear, frequency);
    DecideBeforeLast(trials, k, t', ear, frequency);
    Rearrange(Decided(trials[..n], ear, frequency), Contribution(t', ear, frequency),
              Contribution(trials[n], ear, frequency), Decided(trials[..n][k := t'], ear, frequency),
              Decided(trials[k := t'], ear, frequency), Decided(trials, ear, frequency));
  }

  lemma Rearrange<T>(a: multiset<T>, b: multiset<T>, c: multiset<T>, x: multiset<T>, y: multiset<T>, z: multiset<T>)
    requires x == a + b && y == x + c && z == a + c
    ensures y == z + b
  {
  }

  lemma DecideBeforeLast(trials: seq<Trial>, k: nat, t': Trial, ear: Ear, frequency: real)
    requires k < |trials| - 1
    ensures Decided(trials[k := t'], ear, frequency)
            == Decided(trials[..|trials| - 1][k := t'], ear, frequency) + Contribution(trials[|trials| - 1], ear, frequency)
  {
    var n := |trials| - 1;
    assert trials[k := t'][..n] == trials[..n][k := t'];
  }

  lemma DecideLast(trials: seq<Trial>, t': Trial, ear: Ear, frequency: real)
    requires trials != [] && trials[|trials| - 1].heard == Unset
    ensures Decided(trials[|trials| - 1 := t'], ear, frequency) == Decided(trials, ear, frequency) + Contribution(t', ear, frequency)
  {
    var n := |trials| - 1;
    assert trials[n := t'][..n] == trials[..n];
  }

  /** Deciding one unset trial and appending its record keeps the results consistent. */
  lemma DecidePreservesConsistency(r: ResultsMap, trials: seq<Trial>, k: nat, v: Heard)
    requires Consistent(r, trials)
    requires k < |trials| && trials[k].heard == Unset && v != Unset
    ensures Consistent(Append(r, trials[k].ear, trials[k].frequency, Record(trials[k].intensity, v == Yes)),
                       trials[k := trials[k].(heard := v)])
  {
    var t := trials[k];
    var r' := Append(r, t.ear, t.frequency, Record(t.intensity, v == Yes));
    var trials' := trials[k := t.(heard := v)];
    forall ear, frequency
      ensures ConsistentAt(r', trials', ear, frequency)
    {
      assert ConsistentAt(r, trials, ear, frequency);
      DecideOne(trials, k, v, ear, frequency);
    }
  }

  /** How many trials carry one ear and frequency. */
  function CountKey(trials: seq<Trial>, ear: Ear, frequency: real): nat
  {
    if trials == [] then 0
    else CountKey(trials[..|trials| - 1], ear, frequency)
         + (if trials[|trials| - 1].ear == ear && trials[|trials| - 1].frequency == frequency then 1 else 0)
  }

  lemma {:induction false} DecidedSize(trials: seq<Trial>, ear: Ear, frequency: real)
    requires forall i :: 0 <= i < |trials| ==> trials[i].heard != Unset
    ensures |Decided(trials, ear, frequency)| == CountKey(trials, ear, frequency)
  {
    if trials != [] {
      DecidedSize(trials[..|trials| - 1], ear, frequency);
    }
  }

  /**
   * Once no trial is unset, every trial has contributed exactly one record:
   * each key holds as many records as there are trials with that key.
   */
  lemma CompletedTestRecords(r: ResultsMap, trials: seq<Trial>, ear: Ear, frequency: real)
    requires Consistent(r, trials)
    requires forall i :: 0 <= i < |trials| ==> trials[i].heard != Unset
    ensures |RecordsFor(r, ear, frequency)| == CountKey(trials, ear, frequency)
  {
    DecidedSize(trials, ear, frequency);
    assert ConsistentAt(r, trials, ear, frequency);
    assert |multiset(RecordsFor(r, ear, frequency))| == |RecordsFor(r, ear, frequency)|;
  }

  /** A click at `t` may claim event `k`: inside its window extended by the 1-second tolerance, trial still unset. */
  predicate Pending(events: seq<Event>, trials: seq<Trial>, t: real, k: nat)
    requires k < |events|
  {
    && events[k].startTime <= t <= events[k].endTime + 1.0
    && events[k].testIndex < |trials|
    && trials[events[k].testIndex].heard == Unset
  }

  /** The first pending event at or after `from`, in list order. */
  function FirstMatchFrom(events: seq<Event>, trials: seq<Trial>, t: real, from: nat): (m: Option<nat>)
    requires from <= |events|
    ensures m.Some? ==> from <= m.value < |events| && Pending(events, trials, t, m.value)
                        && forall j :: from <= j < m.value ==> !Pending(events, trials, t, j)
    ensures m.None? ==> forall j :: from <= j < |events| ==> !Pending(events, trials, t, j)
    decreases |events| - from
  {
    if from == |events| then None
    else if Pending(events, trials, t, from) then Some(from)
    else FirstMatchFrom(events, trials, t, from + 1)
  }

  /** The event a click at elapsed time `t` resolves to, if any. */
  function FirstMatch(events: seq<Event>, trials: seq<Trial>, t: real): (m: Option<nat>)
    ensures m.Some? ==> m.value < |events| && Pending(events, trials, t, m.value)
                        && forall j :: 0 <= j < m.value ==> !Pending(events, trials, t, j)
    ensures m.None? <==> forall j :: 0 <= j < |events| ==> !Pending(events, trials, t, j)
  {
    FirstMatchFrom(events, trials, t, 0)
  }

  /** An index that is pending, with none pending before it, is the first match. */
  lemma FirstMatchIs(events: seq<Event>, trials: seq<Trial>, t: real, i: nat)
    requires i < |events| && Pending(events, trials, t, i)
    requires forall j :: 0 <= j < i ==> !Pending(events, trials, t, j)
    ensures FirstMatch(events, trials, t) == Some(i)
  {
  }

  /** The sweep: every unset trial becomes not heard; decided trials stay as they are. */
  function Swept(trials: seq<Trial>): (s: seq<Trial>)
    ensures |s| == |trials|
    ensures forall i :: 0 <= i < |s| ==> s[i].heard != Unset
    ensures forall i :: 0 <= i < |s| ==>
              s[i] == if trials[i].heard == Unset then trials[i].(heard := No) else trials[i]
  {
    seq(|trials|, i requires 0 <= i < |trials| =>
          if trials[i].heard == Unset then trials[i].(heard := No) else trials[i])
  }

  /** The trials once the sweep has passed the first `i` of them. */
  function PartlySwept(trials: seq<Trial>, i: nat): (s: seq<Trial>)
    requires i <= |trials|
    ensures |s| == |trials|
  {
    Swept(trials[..i]) + trials[i..]
  }

  lemma PartlySweptStep(trials: seq<Trial>, i: nat)
    requires i < |trials|
    ensures PartlySwept(trials, i)[i] == trials[i]
    ensures PartlySwept(trials, i + 1) ==
            if trials[i].heard == Unset then PartlySwept(trials, i)[i := trials[i].(heard := No)] else PartlySwept(trials, i)
  {
    var a, b := PartlySwept(trials, i), PartlySwept(trials, i + 1);
    assert a[i] == trials[i];
    if trials[i].heard == Unset {
      assert b == a[i := trials[i].(heard := No)];
    } else {
      assert b == a;
    }
  }

  lemma PartlySweptEnds(trials: seq<Trial>)
    ensures PartlySwept(trials, 0) == trials
    ensures PartlySwept(trials, |trials|) == Swept(trials)
  {
    assert trials[..|trials|] == trials;
  }

  /** The records the sweep appends under one key: one not-heard record per unset trial, in trial order. */
  function UnheardRecords(trials: seq<Trial>, ear: Ear, frequency: real): seq<Record>
  {
    if trials == [] then []
    else
      var t := trials[|trials| - 1];
      UnheardRecords(trials[..|trials| - 1], ear, frequency)
      + (if t.heard == Unset && t.ear == ear && t.frequency == frequency then [Record(t.intensity, false)] else [])
  }

  /** The sweep appends exactly one not-heard record for each unset trial under that trial's key. */
  lemma {:induction false} UnheardRecordsCount(trials: seq<Trial>, ear: Ear, frequency: real)
    ensures |UnheardRecords(trials, ear, frequency)| == |Unanswered(trials, ear, frequency)|
    ensures forall i :: 0 <= i < |UnheardRecords(trials, ear, frequency)| ==>
              UnheardRecords(trials, ear, frequency)[i] == Record(Unanswered(trials, ear, frequency)[i].intensity, false)
  {
    if trials != [] {
      UnheardRecordsCount(trials[..|trials| - 1], ear, frequency);
    }
  }

  /** Under one key, `r` holds the records of `r0` followed by the sweep's records for `trials`. */
  ghost predicate SweptRecordsAt(r: ResultsMap, r0: ResultsMap, trials: seq<Trial>, ear: Ear, frequency: real) {
    RecordsFor(r, ear, frequency) == RecordsFor(r0, ear, frequency) + UnheardRecords(trials, ear, frequency)
  }

  /** One step of the sweep over trial `i`: the records grow by that trial's not-heard record, if it was unset. */
  lemma SweepStep(r: ResultsMap, r0: ResultsMap, done: seq<Trial>, t: Trial, next: seq<Trial>)
    requires r.Keys == {Left, Right} && next == done + [t]
    requires forall e, f :: SweptRecordsAt(r, r0, done, e, f)
    ensures var r' := if t.heard == Unset then Append(r, t.ear, t.frequency, Record(t.intensity, false)) else r;
            forall e, f :: SweptRecordsAt(r', r0, next, e, f)
  {
    var r' := if t.heard == Unset then Append(r, t.ear, t.frequency, Record(t.intensity, false)) else r;
    assert next[..|next| - 1] == done;
    forall e, f ensures SweptRecordsAt(r', r0, next, e, f) {
      assert SweptRecordsAt(r, r0, done, e, f);
    }
  }

  /** The unset trials with one key, in order. */
  function Unanswered(trials: seq<Trial>, ear: Ear, frequency: real): (u: seq<Trial>)
    ensures forall x :: x in u ==> x in trials && x.heard == Unset && x.ear == ear && x.frequency == frequency
  {
    if trials == [] then []
    else
      var t := trials[|trials| - 1];
      Unanswered(trials[..|trials| - 1], ear, frequency)
      + (if t.heard == Unset && t.ear == ear && t.frequency == frequency then [t] else [])
  }
}
