/**
 * The profiler's configuration: the built-in defaults, the merge that fills a
 * user's configuration file up with them, and the file-name shortening used
 * when previous results are loaded.
 */
module Config {

  /** The JSON values the defaults use. */
  datatype Value = Int(i: int) | Real(r: real) | Bool(b: bool) | Str(s: string) | Reals(xs: seq<real>)

  /** One section (`"audio"`, `"testing"`, ...) maps keys to values. */
  type Section = map<string, Value>
  type Configuration = map<string, Section>

  /** The configuration used when there is no usable file, and the one a file is filled up with. */
  function DefaultConfig(): Configuration
  {
    map[
      "audio" := map[
        "sample_rate" := Int(44100),
        "tone_duration" := Real(0.33),
        "silence_duration" := Real(0.3),
        "fade_duration" := Real(0.01)],
      "testing" := map[
        "frequency_bands" := Int(15),
        "min_frequency" := Int(125),
        "max_frequency" := Int(16000),
        "intensity_levels" := Reals([0.1, 0.3, 0.6, 1.0]),
        "randomize_order" := Bool(true),
        "inter_test_delay_range" := Reals([0.75, 1.25])],
      "calibration" := map[
        "default_volume" := Real(0.5),
        "calibration_frequency" := Int(1000),
        "calibration_intensity" := Real(0.5)],
      "ui" := map[
        "window_size" := Str("800x600"),
        "show_frequency_during_test" := Bool(false),
        "auto_save_results" := Bool(true)]
    ]
  }

  /** A section filled up with the defaults: the user's entries win, missing keys come from the defaults. */
  function MergeSection(user: Section, defaults: Section): Section
  {
    map k | k in user.Keys + defaults.Keys :: if k in user then user[k] else defaults[k]
  }

  /** The merged entry for one section name present on either side. */
  function MergedSection(user: Configuration, defaults: Configuration, s: string): Section
    requires s in user || s in defaults
  {
    if s !in user then defaults[s]
    else if s in defaults then MergeSection(user[s], defaults[s])
    else user[s]
  }

  /** The whole configuration filled up with the defaults, section by section. */
  function Merged(user: Configuration, defaults: Configuration): Configuration
  {
    map s | s in user.Keys + defaults.Keys :: MergedSection(user, defaults, s)
  }

  /**
   * Adds every default key missing from an existing section, one key at a time,
   * as the inner loop of the merge does.
   */
  method MergeSectionKeys(current: Section, defaults: Section) returns (merged: Section)
    ensures merged == MergeSection(current, defaults)
  {
    merged := current;
    var pending := defaults.Keys;
    while pending != {}
      invariant pending <= defaults.Keys
      invariant forall k :: k in merged <==> k in current || (k in defaults && k !in pending)
      invariant forall k :: k in merged ==> merged[k] == if k in current then current[k] else defaults[k]
      decreases |pending|
    {
      var key :| key in pending;
      if key !in merged {
        merged := merged[key := defaults[key]];
      }
      pending := pending - {key};
    }
    assert merged == MergeSection(current, defaults);
  }

  /**
   * The merge loop's invariant: the sections still `pending` are as the user
   * wrote them (or absent), every other section is already merged.
   */
  ghost predicate PartlyMerged(config: Configuration, user: Configuration, defaults: Configuration, pending: set<string>) {
    && pending <= defaults.Keys
    && (forall s :: s in config <==> s in user || (s in defaults && s !in pending))
    && (forall s :: s in config ==> config[s] == if s in pending then user[s] else MergedSection(user, defaults, s))
  }

  lemma MergeStep(config: Configuration, user: Configuration, defaults: Configuration, pending: set<string>,
                  section: string, values: Section)
    requires PartlyMerged(config, user, defaults, pending) && section in pending
    requires section in config ==> values == MergeSection(config[section], defaults[section])
    ensures PartlyMerged(config[section := if section !in config then defaults[section] else values],
                         user, defaults, pending - {section})
  {
  }

  lemma MergeDone(config: Configuration, user: Configuration, defaults: Configuration)
    requires PartlyMerged(config, user, defaults, {})
    ensures config == Merged(user, defaults)
  {
    assert config.Keys == Merged(user, defaults).Keys;
  }

  /**
   * The merge of a loaded configuration with the defaults: a missing section
   * is taken whole from the defaults, an existing one gets the missing keys;
   * sections the defaults do not know are kept.
   */
  method MergeDefaults(user: Configuration, defaults: Configuration) returns (config: Configuration)
    ensures config == Merged(user, defaults)
  {
    config := user;
    var pending := defaults.Keys;
    while pending != {}
      invariant PartlyMerged(config, user, defaults, pending)
      decreases |pending|
    {
      var section :| section in pending;
      if section !in config {
        MergeStep(config, user, defaults, pending, section, map[]);
        config := config[section := defaults[section]];
      } else {
        var values := MergeSectionKeys(config[section], defaults[section]);
        MergeStep(config, user, defaults, pending, section, values);
        config := config[section := values];
      }
      pending := pending - {section};
    }
    MergeDone(config, user, defaults);
  }

  /** Every value the user wrote is kept. */
  lemma MergeKeepsUserValues(user: Configuration, defaults: Configuration, s: string, k: string)
    requires s in user && k in user[s]
    ensures s in Merged(user, defaults) && k in Merged(user, defaults)[s]
    ensures Merged(user, defaults)[s][k] == user[s][k]
  {
  }

  /** Sections and keys the defaults do not know survive the merge unchanged. */
  lemma MergeKeepsUnknown(user: Configuration, defaults: Configuration, s: string)
    requires s in user && s !in defaults
    ensures s in Merged(user, defaults) && Merged(user, defaults)[s] == user[s]
  {
  }

  /** After the merge every default section and key is present, with the default value where the user had none. */
  lemma MergeCompletes(user: Configuration, defaults: Configuration, s: string, k: string)
    requires s in defaults && k in defaults[s]
    ensures s in Merged(user, defaults) && k in Merged(user, defaults)[s]
    ensures (s !in user || k !in user[s]) ==> Merged(user, defaults)[s][k] == defaults[s][k]
  {
  }

  /** The merge adds nothing beyond the union of the two sides, at either level. */
  lemma MergeKeys(user: Configuration, defaults: Configuration)
    ensures Merged(user, defaults).Keys == user.Keys + defaults.Keys
    ensures forall s :: s in Merged(user, defaults) ==>
              Merged(user, defaults)[s].Keys
              == (if s in user then user[s].Keys else {}) + (if s in defaults then defaults[s].Keys else {})
  {
  }

  /** Merging twice changes nothing more: the result already holds every default. */
  lemma MergeIdempotent(user: Configuration, defaults: Configuration)
    ensures Merged(Merged(user, defaults), defaults) == Merged(user, defaults)
  {
    var m := Merged(user, defaults);
    var mm := Merged(m, defaults);
    forall s | s in mm ensures mm[s] == m[s] {
      if s in defaults {
        assert MergeSection(m[s], defaults[s]) == m[s];
      }
    }
  }

  /** Where the configuration file comes from: absent, unreadable or unparsable, or read. */
  datatype ConfigFile = Missing | Unreadable | Read(contents: Configuration)

  /**
   * `load_config`: a missing or unreadable file gives the defaults; a read
   * file is merged with them.
   */
  method LoadConfig(file: ConfigFile) returns (config: Configuration)
    ensures file.Read? ==> config == Merged(file.contents, DefaultConfig())
    ensures !file.Read? ==> config == DefaultConfig()
    ensures forall s, k :: s in DefaultConfig() && k in DefaultConfig()[s] ==> s in config && k in config[s]
  {
    match file
    case Read(contents) =>
      config := MergeDefaults(contents, DefaultConfig());
      forall s, k | s in DefaultConfig() && k in DefaultConfig()[s] ensures s in config && k in config[s] {
        MergeCompletes(contents, DefaultConfig(), s, k);
      }
    case _ =>
      config := DefaultConfig();
  }

  /** The part of `s` after the last `c`; all of `s` when there is none (`s.split(c)[-1]`). */
  function AfterLast(s: string, c: char): (r: string)
    ensures c !in r
    ensures |r| <= |s| && r == s[|s| - |r|..]
    ensures |r| < |s| ==> s[|s| - |r| - 1] == c
  {
    if s == [] then []
    else if s[|s| - 1] == c then []
    else AfterLast(s[..|s| - 1], c) + [s[|s| - 1]]
  }

  /** The file name shown for loaded results: what follows the last `/`, then the last `\`. */
  function Basename(path: string): (name: string)
    ensures '/' !in name && '\\' !in name
    ensures |name| <= |path| && name == path[|path| - |name|..]
    ensures |name| < |path| ==> path[|path| - |name| - 1] == '/' || path[|path| - |name| - 1] == '\\'
  {
    AfterLast(AfterLast(path, '/'), '\\')
  }

  /** A string without `c` is its own last part. */
  lemma {:induction false} AfterLastNoSeparator(s: string, c: char)
    requires c !in s
    ensures AfterLast(s, c) == s
  {
    if s != [] {
      assert c !in s[..|s| - 1];
      AfterLastNoSeparator(s[..|s| - 1], c);
    }
  }

  /** Shortening a name that is already short changes nothing. */
  lemma BasenameIdempotent(path: string)
    ensures Basename(Basename(path)) == Basename(path)
  {
    var name := Basename(path);
    AfterLastNoSeparator(name, '/');
    AfterLastNoSeparator(name, '\\');
  }
}
