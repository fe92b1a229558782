/**
 * The sequential parts of the parallel file processor: the statistics computed
 * for one file, the shaping of an analysis attempt into a `FileAnalysis`
 * record, the short-circuit of a job that sees the cancellation flag set, and
 * the loop that aggregates the results the workers send back.
 *
 * The file system, the clock and the cancellation flag are inputs: a
 * `FileAccess` value says how far opening and reading the file gets, durations
 * are nanosecond counts, and the aggregator receives, for each result, whether
 * it saw the flag set when that result arrived.
 */
module FileProcessor {
  import opened Wrappers
  import opened RustStr

  // ---------------------------------------------------------------------------
  // Data model

  /** Statistics for one file; `charFrequencies` maps each character to its count. */
  datatype FileStats = FileStats(
    wordCount: nat,
    lineCount: nat,
    charFrequencies: map<char, nat>,
    sizeBytes: nat)

  /** `FileStats::default()`: no words, no lines, no characters, no bytes. */
  function DefaultStats(): FileStats {
    FileStats(0, 0, map[], 0)
  }

  datatype ProcessingError =
    | IoError(message: string)
    | Utf8Error(message: string)
    | Cancelled

  /** The outcome of one job; `processingTime` is in nanoseconds. */
  datatype FileAnalysis = FileAnalysis(
    filename: string,
    stats: FileStats,
    errors: seq<ProcessingError>,
    processingTime: nat)

  /**
   * What the file system does for one path: `File::open` fails, `metadata` fails,
   * `read_to_string` fails after the metadata gave `size`, or the whole file is
   * read as text.
   */
  datatype FileAccess =
    | OpenFails(reason: string)
    | MetadataFails(reason: string)
    | ReadFails(size: nat, reason: string)
    | Readable(size: nat, content: string)

  // ---------------------------------------------------------------------------
  // Character frequencies

  /** Sum of the values of a frequency map. */
  ghost function ValueSum(m: map<char, nat>): nat
    decreases |m|
  {
    if m == map[] then 0
    else
      var c :| c in m;
      assert |m - {c}| < |m| by {
        assert m.Keys == (m - {c}).Keys + {c};
      }
      m[c] + ValueSum(m - {c})
  }

  /** The sum does not depend on which key `ValueSum` picks first. */
  lemma {:induction false} ValueSumRemove(m: map<char, nat>, k: char)
    requires k in m
    ensures ValueSum(m) == m[k] + ValueSum(m - {k})
    decreases |m|
  {
    var c :| c in m && ValueSum(m) == m[c] + ValueSum(m - {c});
    if c != k {
      assert m.Keys == (m - {c}).Keys + {c};
      assert m.Keys == (m - {k}).Keys + {k};
      ValueSumRemove(m - {c}, k);
      ValueSumRemove(m - {k}, c);
      assert m - {c} - {k} == m - {k} - {c};
    }
  }

  /** Counting one more occurrence of `c` raises the sum by one. */
  lemma ValueSumIncrement(m: map<char, nat>, c: char)
    ensures ValueSum(m[c := if c in m then m[c] + 1 else 1]) == ValueSum(m) + 1
  {
    var m' := m[c := if c in m then m[c] + 1 else 1];
    ValueSumRemove(m', c);
    if c in m {
      ValueSumRemove(m, c);
      assert m' - {c} == m - {c};
    } else {
      assert m' - {c} == m;
    }
  }

  /**
   * `m` is the frequency map of `s`: its keys are exactly the characters of `s`,
   * each maps to its number of occurrences, and the counts add up to `|s|`.
   */
  ghost predicate IsFrequencyMap(m: map<char, nat>, s: string) {
    && (forall c :: c in m <==> c in s)
    && (forall c :: c in m ==> m[c] == multiset(s)[c])
    && ValueSum(m) == |s|
  }

  /** Counting the next character of `s` into its frequency map gives the map of the longer text. */
  lemma FrequencyStep(m: map<char, nat>, s: string, c: char)
    requires IsFrequencyMap(m, s)
    ensures IsFrequencyMap(m[c := (if c in m then m[c] else 0) + 1], s + [c])
  {
    ValueSumIncrement(m, c);
    assert multiset(s + [c]) == multiset(s) + multiset{c};
    var m' := m[c := (if c in m then m[c] else 0) + 1];
    forall d
      ensures d in m' <==> d in s + [c]
    {
      assert d in s + [c] <==> d in s || d == c;
    }
  }

  /** What the analysis of a readable file of `size` bytes and text `content` computes. */
  ghost predicate IsStatsOf(stats: FileStats, size: nat, content: string) {
    && stats.sizeBytes == size
    && stats.lineCount == multiset(content)['\n']
                          + (if content != [] && content[|content| - 1] != '\n' then 1 else 0)
    && stats.wordCount == RunCount(content)
    && IsFrequencyMap(stats.charFrequencies, content)
  }

  /**
   * The `for c in content.chars()` loop: starting from an empty map, each
   * character's entry is inserted at 0 if missing and then incremented.
   */
  method CountCharacters(content: string) returns (freq: map<char, nat>)
    ensures IsFrequencyMap(freq, content)
  {
    freq := map[];
    for i := 0 to |content|
      invariant IsFrequencyMap(freq, content[..i])
    {
      var c := content[i];
      FrequencyStep(freq, content[..i], c);
      assert content[..i + 1] == content[..i] + [c];
      var count := if c in freq then freq[c] else 0;
      freq := freq[c := count + 1];
    }
    assert content[..|content|] == content;
  }

  // ---------------------------------------------------------------------------
  // One analysis

  /**
   * The `run_analysis` closure of `analyze_file`: open, read the metadata, read
   * the text, then count lines, words and characters. The first step that fails
   * decides the error and no later step runs.
   */
  method RunAnalysis(file: FileAccess) returns (r: Result<FileStats, ProcessingError>)
    ensures file.OpenFails? ==> r == Failure(IoError(file.reason))
    ensures file.MetadataFails? ==> r == Failure(IoError(file.reason))
    ensures file.ReadFails? ==> r == Failure(Utf8Error(file.reason))
    ensures file.Readable? ==> r.Success? && IsStatsOf(r.value, file.size, file.content)
  {
    var stats := DefaultStats();
    match file {
      case OpenFails(reason) =>
        return Failure(IoError(reason));
      case MetadataFails(reason) =>
        return Failure(IoError(reason));
      case ReadFails(size, reason) =>
        stats := stats.(sizeBytes := size);
        return Failure(Utf8Error(reason));
      case Readable(size, content) =>
        stats := stats.(sizeBytes := size);
        stats := stats.(lineCount := |Lines(content)|);
        LineCount(content);
        stats := stats.(wordCount := |Words(content)|);
        WordCountIsRunCount(content);
        var freq := CountCharacters(content);
        stats := stats.(charFrequencies := freq);
        return Success(stats);
    }
  }

  /**
   * The match that turns the result of `run_analysis` into a `FileAnalysis`:
   * on success the statistics and no error, on failure the default statistics
   * and that one error.
   */
  function Outcome(filename: string, r: Result<FileStats, ProcessingError>, elapsed: nat): (a: FileAnalysis)
    ensures a.filename == filename && a.processingTime == elapsed
    ensures a.errors == [] <==> r.Success?
    ensures r.Success? ==> a.stats == r.value
    ensures r.Failure? ==> a.stats == DefaultStats() && a.errors == [r.error]
  {
    match r
    case Success(stats) => FileAnalysis(filename, stats, [], elapsed)
    case Failure(e) => FileAnalysis(filename, DefaultStats(), [e], elapsed)
  }

  /** Everything `analyze_file` promises about the analysis of one file. */
  ghost predicate IsAnalysisOf(a: FileAnalysis, filename: string, file: FileAccess, elapsed: nat) {
    && a.filename == filename
    && a.processingTime == elapsed
    && (match file
        case OpenFails(reason) => a.errors == [IoError(reason)] && a.stats == DefaultStats()
        case MetadataFails(reason) => a.errors == [IoError(reason)] && a.stats == DefaultStats()
        case ReadFails(_, reason) => a.errors == [Utf8Error(reason)] && a.stats == DefaultStats()
        case Readable(size, content) => a.errors == [] && IsStatsOf(a.stats, size, content))
  }

  /**
   * `analyze_file`: run the analysis and record the elapsed time. At most one
   * error is recorded, and a failed analysis carries the default statistics, so
   * its size is 0 even when the metadata had been read.
   */
  method AnalyzeFile(filename: string, file: FileAccess, elapsed: nat) returns (a: FileAnalysis)
    ensures IsAnalysisOf(a, filename, file, elapsed)
    ensures |a.errors| <= 1
    ensures a.errors == [] <==> file.Readable?
    ensures !file.Readable? ==> a.stats.sizeBytes == 0
  {
    var r := RunAnalysis(file);
    a := Outcome(filename, r, elapsed);
  }

  /** The outcome a job sends when it finds the cancellation flag set. */
  function CancelledOutcome(filename: string): FileAnalysis {
    FileAnalysis(filename, DefaultStats(), [Cancelled], 0)
  }

  /**
   * The job submitted for one path: when the flag is set it reports `Cancelled`
   * without touching the file (the outcome does not depend on `file`);
   * otherwise it analyses the file.
   */
  method RunJob(cancelled: bool, filename: string, file: FileAccess, elapsed: nat)
    returns (a: FileAnalysis)
    ensures cancelled ==> a.filename == filename && a.errors == [Cancelled]
                          && a.stats == DefaultStats() && a.processingTime == 0
    ensures !cancelled ==> IsAnalysisOf(a, filename, file, elapsed)
    ensures |a.errors| <= 1
  {
    if cancelled {
      a := CancelledOutcome(filename);
      return;
    }
    a := AnalyzeFile(filename, file, elapsed);
  }

  // ---------------------------------------------------------------------------
  // Aggregation

  /** Index of the first `true` in `seen`, or `|seen|` if there is none. */
  function FirstCancel(seen: seq<bool>): (k: nat)
    ensures k <= |seen|
    ensures forall j :: 0 <= j < k ==> !seen[j]
    ensures k < |seen| ==> seen[k]
  {
    if seen == [] then 0
    else if seen[0] then 0
    else 1 + FirstCancel(seen[1..])
  }

  predicate Succeeded(a: FileAnalysis) {
    a.errors == []
  }

  function SuccessCount(rs: seq<FileAnalysis>): nat {
    if rs == [] then 0
    else SuccessCount(rs[..|rs| - 1]) + (if Succeeded(rs[|rs| - 1]) then 1 else 0)
  }

  function WordTotal(rs: seq<FileAnalysis>): nat {
    if rs == [] then 0
    else WordTotal(rs[..|rs| - 1])
         + (if Succeeded(rs[|rs| - 1]) then rs[|rs| - 1].stats.wordCount else 0)
  }

  function DurationTotal(rs: seq<FileAnalysis>): nat {
    if rs == [] then 0
    else DurationTotal(rs[..|rs| - 1])
         + (if Succeeded(rs[|rs| - 1]) then rs[|rs| - 1].processingTime else 0)
  }

  /**
   * The result loop of `main`: `cancelSeen[i]` is whether the flag was set when
   * result `i` arrived. The flag is checked before the result is counted, so
   * the loop consumes exactly the results before the first observed
   * cancellation; only results without errors count as successes and add to
   * the word and time totals.
   */
  method Aggregate(results: seq<FileAnalysis>, cancelSeen: seq<bool>)
    returns (processed: nat, successes: nat, totalWords: nat, totalDuration: nat)
    requires |cancelSeen| == |results|
    ensures processed == FirstCancel(cancelSeen)
    ensures successes == SuccessCount(results[..processed])
    ensures totalWords == WordTotal(results[..processed])
    ensures totalDuration == DurationTotal(results[..processed])
  {
    processed, successes, totalWords, totalDuration := 0, 0, 0, 0;
    var i := 0;
    while i < |results|
      invariant 0 <= i <= |results|
      invariant processed == i
      invariant forall j :: 0 <= j < i ==> !cancelSeen[j]
      invariant successes == SuccessCount(results[..i])
      invariant totalWords == WordTotal(results[..i])
      invariant totalDuration == DurationTotal(results[..i])
    {
      if cancelSeen[i] {
        break;
      }
      processed := processed + 1;
      var analysis := results[i];
      assert results[..i + 1][..i] == results[..i];
      if analysis.errors != [] {
        // An error is reported, unless it is a cancellation; nothing is tallied.
      } else {
        successes := successes + 1;
        totalWords := totalWords + analysis.stats.wordCount;
        totalDuration := totalDuration + analysis.processingTime;
      }
      i := i + 1;
    }
  }

  /** Without an observed cancellation every result is consumed. */
  lemma NoCancelConsumesAll(cancelSeen: seq<bool>)
    requires forall j :: 0 <= j < |cancelSeen| ==> !cancelSeen[j]
    ensures FirstCancel(cancelSeen) == |cancelSeen|
  {
  }

  /**
   * There are never more successes than consumed results, and there are as many
   * exactly when every consumed result is free of errors.
   */
  lemma {:induction false} SuccessCountBound(rs: seq<FileAnalysis>)
    ensures SuccessCount(rs) <= |rs|
    ensures SuccessCount(rs) == |rs| <==> forall j :: 0 <= j < |rs| ==> Succeeded(rs[j])
  {
    if rs != [] {
      var init := rs[..|rs| - 1];
      SuccessCountBound(init);
      assert forall j :: 0 <= j < |init| ==> init[j] == rs[j];
    }
  }

  /** A result with an error (a cancelled one included) is consumed but changes no tally. */
  lemma ErroredChangesNoTally(rs: seq<FileAnalysis>, a: FileAnalysis)
    requires a.errors != []
    ensures SuccessCount(rs + [a]) == SuccessCount(rs)
    ensures WordTotal(rs + [a]) == WordTotal(rs)
    ensures DurationTotal(rs + [a]) == DurationTotal(rs)
  {
    assert (rs + [a])[..|rs|] == rs;
  }

  /**
   * When every result carries an error (for instance because every job saw the
   * flag set before starting), there are no successes, no words and no time.
   */
  lemma {:induction false} AllErroredNoTally(rs: seq<FileAnalysis>)
    requires forall j :: 0 <= j < |rs| ==> rs[j].errors != []
    ensures SuccessCount(rs) == 0 && WordTotal(rs) == 0 && DurationTotal(rs) == 0
  {
    if rs != [] {
      var init := rs[..|rs| - 1];
      assert forall j :: 0 <= j < |init| ==> init[j] == rs[j];
      AllErroredNoTally(init);
    }
  }
}
