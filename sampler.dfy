/**
 * The machinery the three Python samplers (benchmarks/python/bench_vcdvcd.py,
 * bench_pylibfst.py, bench_pywellen.py) share line for line: the alarm-guarded
 * `run_test`, the repetition loop that turns one (file, test) pair into a
 * result entry, the file-major loop over files and tests, the file listing
 * and the "spread" choice of three signals.
 *
 * The test functions themselves call into parser libraries and are not
 * modelled: what one call of a test does is an `Attempt`, chosen by the
 * environment, and the peak-RSS readings around it are part of the attempt.
 */
module Sampler {
  import opened Wrappers
  import opened Rows
  import opened Text
  import opened Payload
  import opened Stats

  /** `REPETITIONS` */
  const Repetitions: nat := 3

  /** `SCALE_TIMEOUTS.get(scale, 120)`: seconds allowed per test call. */
  function ScaleTimeout(scale: string): (t: nat)
    ensures 60 <= t <= 300
  {
    if scale == "small" then 60
    else if scale == "large" then 300
    else 120
  }

  // ---------------------------------------------------------------------
  // run_test
  // ---------------------------------------------------------------------

  /** What one call of a test function does: it returns, having taken
      `elapsed` seconds between peak-RSS readings `rssBefore` and `rssAfter`;
      or the alarm fires first and its handler raises the sampler's own
      `TimeoutError`; or the test raises some other exception. */
  datatype Attempt = Finished(elapsed: real, rssBefore: int, rssAfter: int)
                   | AlarmFired
                   | Raised(message: string)

  /** What `run_test` hands back: `(elapsed, memory delta)` or the exception. */
  datatype TestRun = Measured(elapsed: real, memKb: int) | TimedOut | Failed(message: string)

  /** `max(rss_after - rss_before, 0)` */
  function ClampedDelta(before: int, after: int): (d: int)
    ensures d >= 0 && d >= after - before
    ensures d == 0 || d == after - before
  {
    if after - before > 0 then after - before else 0
  }

  function RunOf(a: Attempt): (r: TestRun)
    ensures r.Measured? <==> a.Finished?
    ensures r.Measured? ==> r.memKb >= 0 && r.elapsed == a.elapsed
    ensures r.TimedOut? <==> a.AlarmFired?
    ensures r.Failed? <==> a.Raised?
  {
    match a
    case Finished(elapsed, before, after) => Measured(elapsed, ClampedDelta(before, after))
    case AlarmFired => TimedOut
    case Raised(message) => Failed(message)
  }

  /** The SIGALRM handler installed in the process. */
  datatype Handler = DefaultAction | RaiseTimeout | OtherHandler(id: nat)

  /** The process's alarm state: the handler for SIGALRM and the seconds left
      on the alarm (0 when disarmed). */
  class AlarmState {
    var handler: Handler
    var alarm: nat

    constructor(handler: Handler)
      ensures this.handler == handler && alarm == 0
    {
      this.handler := handler;
      alarm := 0;
    }
  }

  /** `run_test(test_func, timeout_s)`: install the raising handler, arm the
      alarm, call the test; whatever happens, disarm the alarm and put the
      old handler back. */
  method RunTest(sig: AlarmState, attempt: Attempt, timeout: nat) returns (r: TestRun)
    modifies sig
    ensures r == RunOf(attempt)
    ensures sig.alarm == 0 && sig.handler == old(sig.handler)
  {
    var oldHandler := sig.handler;
    sig.handler := RaiseTimeout;
    sig.alarm := timeout;
    match attempt {
      case Finished(elapsed, before, after) =>
        r := Measured(elapsed, ClampedDelta(before, after));
      case AlarmFired =>
        r := TimedOut;
      case Raised(message) =>
        r := Failed(message);
    }
    // the `finally` clause
    sig.alarm := 0;
    sig.handler := oldHandler;
  }

  // ---------------------------------------------------------------------
  // The repetition loop
  // ---------------------------------------------------------------------

  /** Where the repetition loop ends up: every round measured, or stopped by
      the first exception, which discards the rounds before it. */
  datatype Repeated = AllMeasured(times: seq<real>, peakMemKb: int)
                    | StoppedByTimeout
                    | StoppedByError(message: string)

  /** The loop's state after `n` rounds, round `k` doing `attempt(k)`. */
  function Repeat(attempt: nat -> Attempt, n: nat): Repeated {
    if n == 0 then AllMeasured([], 0)
    else
      match Repeat(attempt, n - 1)
      case AllMeasured(times, peak) =>
        (match RunOf(attempt(n - 1))
         case Measured(elapsed, mem) => AllMeasured(times + [elapsed], if mem > peak then mem else peak)
         case TimedOut => StoppedByTimeout
         case Failed(message) => StoppedByError(message))
      case stopped => stopped
  }

  /** Every round measured exactly when every round returned; then the times
      are the rounds' elapsed times in order. */
  lemma {:induction false} RepeatMeasured(attempt: nat -> Attempt, n: nat)
    ensures Repeat(attempt, n).AllMeasured? <==> forall k :: 0 <= k < n ==> attempt(k).Finished?
    ensures Repeat(attempt, n).AllMeasured? ==>
              && |Repeat(attempt, n).times| == n
              && (forall k :: 0 <= k < n ==> Repeat(attempt, n).times[k] == attempt(k).elapsed)
  {
    if n > 0 {
      RepeatMeasured(attempt, n - 1);
      var prev := Repeat(attempt, n - 1);
      if prev.AllMeasured? && attempt(n - 1).Finished? {
        assert Repeat(attempt, n).times == prev.times + [attempt(n - 1).elapsed];
      }
    }
  }

  /** When every round returned, the memory is the largest clamped delta of
      the rounds, and 0 when there were no rounds. */
  lemma {:induction false} RepeatPeak(attempt: nat -> Attempt, n: nat)
    requires forall k :: 0 <= k < n ==> attempt(k).Finished?
    ensures Repeat(attempt, n).AllMeasured? ==>
              var r := Repeat(attempt, n);
              && r.peakMemKb >= 0
              && (forall k :: 0 <= k < n ==> RunOf(attempt(k)).memKb <= r.peakMemKb)
              && (n == 0 ==> r.peakMemKb == 0)
              && (n > 0 ==> exists k :: 0 <= k < n && r.peakMemKb == RunOf(attempt(k)).memKb)
  {
    if n > 0 {
      RepeatPeak(attempt, n - 1);
      var prev := Repeat(attempt, n - 1);
      if prev.AllMeasured? && attempt(n - 1).Finished? {
        var r := Repeat(attempt, n);
        var mem := RunOf(attempt(n - 1)).memKb;
        if n - 1 > 0 {
          var j :| 0 <= j < n - 1 && prev.peakMemKb == RunOf(attempt(j)).memKb;
          if mem > prev.peakMemKb {
            assert r.peakMemKb == RunOf(attempt(n - 1)).memKb;
          } else {
            assert r.peakMemKb == RunOf(attempt(j)).memKb;
          }
        } else {
          assert r.peakMemKb == RunOf(attempt(n - 1)).memKb;
        }
      }
    }
  }

  /** Once the loop has stopped it stays stopped with the same reason. */
  lemma {:induction false} RepeatStaysStopped(attempt: nat -> Attempt, k: nat, n: nat)
    requires k <= n && !Repeat(attempt, k).AllMeasured?
    ensures Repeat(attempt, n) == Repeat(attempt, k)
    decreases n - k
  {
    if k < n {
      RepeatStaysStopped(attempt, k, n - 1);
    }
  }

  /** The first round that does not return decides the outcome: a fired alarm
      gives a timeout, any other exception an error carrying its message. */
  lemma RepeatFirstFailure(attempt: nat -> Attempt, k: nat, n: nat)
    requires k < n
    requires forall j :: 0 <= j < k ==> attempt(j).Finished?
    requires !attempt(k).Finished?
    ensures attempt(k).AlarmFired? ==> Repeat(attempt, n) == StoppedByTimeout
    ensures attempt(k).Raised? ==> Repeat(attempt, n) == StoppedByError(attempt(k).message)
  {
    RepeatMeasured(attempt, k);
    RepeatStaysStopped(attempt, k + 1, n);
  }

  /** The `for _ in range(REPETITIONS)` loop inside the `try`: an exception
      from `run_test` leaves the loop at once. */
  method RunRepetitions(sig: AlarmState, attempt: nat -> Attempt, timeout: nat) returns (outcome: Repeated)
    modifies sig
    ensures outcome == Repeat(attempt, Repetitions)
    ensures sig.alarm == 0 && sig.handler == old(sig.handler)
  {
    var times: seq<real> := [];
    var peakMem := 0;
    var k := 0;
    while k < Repetitions
      invariant k <= Repetitions
      invariant Repeat(attempt, k) == AllMeasured(times, peakMem)
      invariant k > 0 ==> sig.alarm == 0
      invariant sig.handler == old(sig.handler)
    {
      var r := RunTest(sig, attempt(k), timeout);
      match r {
        case Measured(elapsed, mem) =>
          times := times + [elapsed];
          peakMem := if mem > peakMem then mem else peakMem;
        case TimedOut =>
          RepeatStaysStopped(attempt, k + 1, Repetitions);
          return StoppedByTimeout;
        case Failed(message) =>
          RepeatStaysStopped(attempt, k + 1, Repetitions);
          return StoppedByError(message);
      }
      k := k + 1;
    }
    outcome := AllMeasured(times, peakMem);
  }

  // ---------------------------------------------------------------------
  // The result entry of one (file, test) pair
  // ---------------------------------------------------------------------

  /** The `result` dict before the repetitions run: status "ok", nothing measured. */
  function InitialEntry(test: string, scale: string, file: string, size: int): (e: Obj)
    ensures e.test == Some(test) && e.scale == Some(scale) && e.file == Some(file)
    ensures e.fileSizeBytes == Some(size) && e.status == Some("ok") && e.error == Some("")
    ensures e.timesS == Some([]) && e.meanS == Some(0.0) && e.stdevS == Some(0.0) && e.memoryKb == Some(0)
  {
    EmptyObj.(test := Some(test), scale := Some(scale), file := Some(file), fileSizeBytes := Some(size),
              timesS := Some([]), meanS := Some(0.0), stdevS := Some(0.0), memoryKb := Some(0),
              status := Some("ok"), error := Some(""))
  }

  /** `f"Timed out after {timeout}s"` */
  function TimeoutMessage(timeout: nat): string {
    "Timed out after " + NatToString(timeout) + "s"
  }

  /** The entry once the outcome is known. Measured rounds fill in the times,
      their mean, their standard deviation (the square root of the sample
      variance, `sqrt` given, 0 for fewer than two rounds) and the peak memory;
      an exception only sets the status and the error and leaves the rest as
      initialised. */
  function EntryOf(initial: Obj, outcome: Repeated, timeout: nat, sqrt: real -> real): (e: Obj)
    ensures e.test == initial.test && e.scale == initial.scale && e.file == initial.file
    ensures e.fileSizeBytes == initial.fileSizeBytes
    ensures outcome.AllMeasured? ==> e.status == initial.status && e.error == initial.error
    ensures outcome.AllMeasured? ==> e.timesS == Some(outcome.times) && e.memoryKb == Some(outcome.peakMemKb)
    ensures outcome.AllMeasured? && outcome.times != [] ==> e.meanS == Some(Mean(outcome.times))
    ensures outcome.AllMeasured? && |outcome.times| <= 1 ==> e.stdevS == Some(0.0)
    ensures outcome.StoppedByTimeout? ==> e == initial.(status := Some("timeout"), error := Some(TimeoutMessage(timeout)))
    ensures outcome.StoppedByError? ==> e == initial.(status := Some("error"), error := Some(outcome.message))
  {
    match outcome
    case AllMeasured(times, peak) =>
      initial.(timesS := Some(times),
               meanS := Some(if times == [] then 0.0 else Mean(times)),
               stdevS := Some(if |times| > 1 then sqrt(SampleVariance(times)) else 0.0),
               memoryKb := Some(peak))
    case StoppedByTimeout =>
      initial.(status := Some("timeout"), error := Some(TimeoutMessage(timeout)))
    case StoppedByError(message) =>
      initial.(status := Some("error"), error := Some(message))
  }

  /** The entry one (file, test) pair yields after `REPETITIONS` rounds. */
  function PairEntry(test: string, scale: string, path: string, size: int,
                     attempt: nat -> Attempt, timeout: nat, sqrt: real -> real): Obj
  {
    EntryOf(InitialEntry(test, scale, Basename(path), size), Repeat(attempt, Repetitions), timeout, sqrt)
  }

  /** An ok entry has exactly `REPETITIONS` times, their mean, and the largest
      clamped memory delta, which is at least 0; otherwise every round
      returned normally. */
  lemma PairEntryOk(test: string, scale: string, path: string, size: int,
                    attempt: nat -> Attempt, timeout: nat, sqrt: real -> real)
    ensures var e := PairEntry(test, scale, path, size, attempt, timeout, sqrt);
            e.status == Some("ok") <==> forall k :: 0 <= k < Repetitions ==> attempt(k).Finished?
    ensures var e := PairEntry(test, scale, path, size, attempt, timeout, sqrt);
            e.status == Some("ok") ==>
              && e.error == Some("")
              && e.timesS.Some? && |e.timesS.value| == Repetitions
              && (forall k :: 0 <= k < Repetitions ==> e.timesS.value[k] == attempt(k).elapsed)
              && e.meanS == Some(Mean(e.timesS.value))
              && e.stdevS == Some(sqrt(SampleVariance(e.timesS.value)))
              && e.memoryKb.Some? && e.memoryKb.value >= 0
              && (forall k :: 0 <= k < Repetitions ==> RunOf(attempt(k)).memKb <= e.memoryKb.value)
              && (exists k :: 0 <= k < Repetitions && RunOf(attempt(k)).memKb == e.memoryKb.value)
  {
    RepeatMeasured(attempt, Repetitions);
    if forall k :: 0 <= k < Repetitions ==> attempt(k).Finished? {
      RepeatPeak(attempt, Repetitions);
    }
  }

  /** The entry names its test and the base name of its file. */
  lemma PairEntryNames(test: string, scale: string, path: string, size: int,
                       attempt: nat -> Attempt, timeout: nat, sqrt: real -> real)
    ensures PairEntry(test, scale, path, size, attempt, timeout, sqrt).test == Some(test)
    ensures PairEntry(test, scale, path, size, attempt, timeout, sqrt).file == Some(Basename(path))
  {
  }

  /** A failed pair keeps no times and zero statistics; a timeout names the
      limit, and an error carries the message of the first failing round. */
  lemma PairEntryFailed(test: string, scale: string, path: string, size: int,
                        attempt: nat -> Attempt, timeout: nat, sqrt: real -> real, k: nat)
    requires k < Repetitions
    requires forall j :: 0 <= j < k ==> attempt(j).Finished?
    requires !attempt(k).Finished?
    ensures var e := PairEntry(test, scale, path, size, attempt, timeout, sqrt);
            && e.timesS == Some([]) && e.meanS == Some(0.0) && e.stdevS == Some(0.0) && e.memoryKb == Some(0)
            && e.file == Some(Basename(path)) && e.test == Some(test)
            && (attempt(k).AlarmFired? ==> e.status == Some("timeout") && e.error == Some(TimeoutMessage(timeout)))
            && (attempt(k).Raised? ==> e.status == Some("error") && e.error == Some(attempt(k).message))
  {
    RepeatFirstFailure(attempt, k, Repetitions);
  }

  /** The body of the inner loop: build the entry, run the repetitions under
      the `try`, and overwrite the entry's fields from the outcome. */
  method MeasurePair(sig: AlarmState, test: string, scale: string, path: string, size: int,
                     attempt: nat -> Attempt, timeout: nat, sqrt: real -> real) returns (result: Obj)
    modifies sig
    ensures result == PairEntry(test, scale, path, size, attempt, timeout, sqrt)
    ensures sig.alarm == 0 && sig.handler == old(sig.handler)
  {
    result := InitialEntry(test, scale, Basename(path), size);
    var outcome := RunRepetitions(sig, attempt, timeout);
    match outcome {
      case AllMeasured(times, peak) =>
        result := result.(timesS := Some(times));
        result := result.(meanS := Some(if times == [] then 0.0 else Mean(times)));
        result := result.(stdevS := Some(if |times| > 1 then sqrt(SampleVariance(times)) else 0.0));
        result := result.(memoryKb := Some(peak));
      case StoppedByTimeout =>
        result := result.(status := Some("timeout"));
        result := result.(error := Some(TimeoutMessage(timeout)));
      case StoppedByError(message) =>
        result := result.(status := Some("error"));
        result := result.(error := Some(message));
    }
  }

  // ---------------------------------------------------------------------
  // The loop over files and tests
  // ---------------------------------------------------------------------

  /** What round `rep` of test `test` on file `path` does. */
  type Trials = (string, string, nat) -> Attempt

  /** The attempts of one (file, test) pair, by round. */
  function AttemptsOf(trials: Trials, path: string, test: string): nat -> Attempt {
    (rep: nat) => trials(path, test, rep)
  }

  /** The entry of each test on file `path` of size `size`. */
  function TestCell(path: string, scale: string, size: int, trials: Trials, timeout: nat,
                    sqrt: real -> real): string -> Obj {
    (test: string) => PairEntry(test, scale, path, size, AttemptsOf(trials, path, test), timeout, sqrt)
  }

  /** The entries of one file: one per test, in the tests' order. */
  function FileEntries(path: string, tests: seq<string>, scale: string, size: int,
                       trials: Trials, timeout: nat, sqrt: real -> real): seq<Obj>
  {
    Cells(tests, TestCell(path, scale, size, trials, timeout, sqrt))
  }

  /** The row of one file in `run_benchmark_for_format`: its size is read
      once, then every test runs on it. */
  function FileRow(tests: seq<string>, scale: string, sizeOf: string -> int,
                   trials: Trials, timeout: nat, sqrt: real -> real): string -> seq<Obj> {
    (path: string) => FileEntries(path, tests, scale, sizeOf(path), trials, timeout, sqrt)
  }

  /** The entries of all files, file-major. */
  function Results(files: seq<string>, tests: seq<string>, scale: string, sizeOf: string -> int,
                   trials: Trials, timeout: nat, sqrt: real -> real): seq<Obj>
  {
    Flatten(files, FileRow(tests, scale, sizeOf, trials, timeout, sqrt))
  }

  lemma FileRowWidth(files: seq<string>, tests: seq<string>, scale: string, sizeOf: string -> int,
                     trials: Trials, timeout: nat, sqrt: real -> real)
    ensures forall k :: 0 <= k < |files| ==> |FileRow(tests, scale, sizeOf, trials, timeout, sqrt)(files[k])| == |tests|
  {
  }

  /** One entry per (file, test) pair. */
  lemma ResultsLength(files: seq<string>, tests: seq<string>, scale: string, sizeOf: string -> int,
                      trials: Trials, timeout: nat, sqrt: real -> real)
    ensures |Results(files, tests, scale, sizeOf, trials, timeout, sqrt)| == |files| * |tests|
  {
    FileRowWidth(files, tests, scale, sizeOf, trials, timeout, sqrt);
    FlattenSize(files, FileRow(tests, scale, sizeOf, trials, timeout, sqrt), |tests|);
    OffsetIsProduct(|files|, |tests|);
  }

  lemma FileEntriesAt(path: string, tests: seq<string>, scale: string, size: int,
                      trials: Trials, timeout: nat, sqrt: real -> real, j: nat)
    requires j < |tests|
    ensures FileEntries(path, tests, scale, size, trials, timeout, sqrt)[j]
            == PairEntry(tests[j], scale, path, size, AttemptsOf(trials, path, tests[j]), timeout, sqrt)
  {
    CellsAt(tests, TestCell(path, scale, size, trials, timeout, sqrt), j);
  }

  /** Entry `i*|tests| + j` belongs to file `i` and test `j`: one entry per
      (file, test) pair, file-major, tests in their given order. */
  lemma ResultsAt(files: seq<string>, tests: seq<string>, scale: string, sizeOf: string -> int,
                  trials: Trials, timeout: nat, sqrt: real -> real, i: nat, j: nat)
    requires i < |files| && j < |tests|
    ensures 0 <= i * |tests| + j < |Results(files, tests, scale, sizeOf, trials, timeout, sqrt)|
    ensures Results(files, tests, scale, sizeOf, trials, timeout, sqrt)[i * |tests| + j]
            == PairEntry(tests[j], scale, files[i], sizeOf(files[i]),
                         AttemptsOf(trials, files[i], tests[j]), timeout, sqrt)
  {
    var row := FileRow(tests, scale, sizeOf, trials, timeout, sqrt);
    var entries := FileEntries(files[i], tests, scale, sizeOf(files[i]), trials, timeout, sqrt);
    var r := Results(files, tests, scale, sizeOf, trials, timeout, sqrt);
    assert i * |tests| + j < |r| && r[i * |tests| + j] == entries[j] by {
      FileRowWidth(files, tests, scale, sizeOf, trials, timeout, sqrt);
      FlattenAt(files, row, |tests|, i, j);
      assert row(files[i]) == entries;
      OffsetIsProduct(i, |tests|);
    }
    FileEntriesAt(files[i], tests, scale, sizeOf(files[i]), trials, timeout, sqrt, j);
  }

  lemma {:induction false} MulLe(a: nat, b: nat, c: nat)
    requires a <= b
    ensures a * c <= b * c
    decreases b - a
  {
    if a < b {
      MulLe(a, b - 1, c);
      assert b * c == (b - 1) * c + c;
    }
  }

  /** The inner loop over the tests of one file. */
  method RunFile(sig: AlarmState, results: seq<Obj>, path: string, tests: seq<string>, scale: string,
                 size: int, trials: Trials, timeout: nat, sqrt: real -> real) returns (out: seq<Obj>)
    modifies sig
    ensures out == results + FileEntries(path, tests, scale, size, trials, timeout, sqrt)
    ensures |tests| > 0 ==> sig.alarm == 0
    ensures sig.handler == old(sig.handler)
  {
    out := results;
    var j := 0;
    while j < |tests|
      invariant j <= |tests|
      invariant out == results + FileEntries(path, tests[..j], scale, size, trials, timeout, sqrt)
      invariant j > 0 ==> sig.alarm == 0
      invariant sig.handler == old(sig.handler)
    {
      var result := MeasurePair(sig, tests[j], scale, path, size, AttemptsOf(trials, path, tests[j]), timeout, sqrt);
      var cell := TestCell(path, scale, size, trials, timeout, sqrt);
      assert result == cell(tests[j]);
      CellsStep(results, out, tests, cell, j);
      out := out + [result];
      j := j + 1;
    }
    assert tests[..|tests|] == tests;
  }

  /** The outer loop over the files: `results` has one entry per (file, test)
      pair, each file's size read once before its tests. */
  method RunAll(sig: AlarmState, files: seq<string>, tests: seq<string>, scale: string,
                sizeOf: string -> int, trials: Trials, timeout: nat, sqrt: real -> real) returns (results: seq<Obj>)
    modifies sig
    ensures results == Results(files, tests, scale, sizeOf, trials, timeout, sqrt)
    ensures sig.handler == old(sig.handler)
  {
    results := [];
    var i := 0;
    while i < |files|
      invariant i <= |files|
      invariant results == Results(files[..i], tests, scale, sizeOf, trials, timeout, sqrt)
      invariant sig.handler == old(sig.handler)
    {
      var size := sizeOf(files[i]);
      results := RunFile(sig, results, files[i], tests, scale, size, trials, timeout, sqrt);
      FlattenStep(files, FileRow(tests, scale, sizeOf, trials, timeout, sqrt), i);
      i := i + 1;
    }
    assert files[..|files|] == files;
  }

  // ---------------------------------------------------------------------
  // Where the document goes
  // ---------------------------------------------------------------------

  /** The destination of the JSON document: the `--output` file, or stdout. */
  datatype Destination = Stdout | OutputFile(path: string)

  /** `if output_path: write the file else: print` */
  function DestinationOf(outputPath: string): (d: Destination)
    ensures d.Stdout? <==> outputPath == ""
    ensures d.OutputFile? ==> d.path == outputPath
  {
    if outputPath == "" then Stdout else OutputFile(outputPath)
  }

  /** A document and where it is written. */
  datatype Emission = Emission(doc: Obj, dest: Destination)

  // ---------------------------------------------------------------------
  // File discovery
  // ---------------------------------------------------------------------

  /** The directory searched: `data_dir/scale` when that is a directory,
      otherwise `data_dir` itself. */
  function ScaleDir(dataDir: string, scale: string, isDir: string -> bool): (d: string)
    ensures d == Join(dataDir, scale) || d == dataDir
    ensures d == Join(dataDir, scale) <== isDir(Join(dataDir, scale))
    ensures !isDir(Join(dataDir, scale)) ==> d == dataDir
  {
    if isDir(Join(dataDir, scale)) then Join(dataDir, scale) else dataDir
  }

  /** `[join(dir, f) for f in names if f.endswith(suffix)]` */
  function WithSuffix(dir: string, names: seq<string>, suffix: string): seq<string> {
    if names == [] then []
    else
      var f := names[|names| - 1];
      WithSuffix(dir, names[..|names| - 1], suffix) + (if EndsWith(f, suffix) then [Join(dir, f)] else [])
  }

  /** The list holds exactly the listed names with the suffix, joined to the
      directory, in the order of `names`. */
  lemma {:induction false} WithSuffixMeaning(dir: string, names: seq<string>, suffix: string)
    ensures forall k :: 0 <= k < |names| && EndsWith(names[k], suffix) ==> Join(dir, names[k]) in WithSuffix(dir, names, suffix)
    ensures forall p :: p in WithSuffix(dir, names, suffix) ==>
              exists k :: 0 <= k < |names| && EndsWith(names[k], suffix) && p == Join(dir, names[k])
  {
    if names != [] {
      var pre := names[..|names| - 1];
      WithSuffixMeaning(dir, pre, suffix);
      assert forall k :: 0 <= k < |pre| ==> pre[k] == names[k];
    }
  }

  /** Names with the suffix keep their relative order: when `names` is sorted,
      so are the names behind the returned paths. */
  lemma {:induction false} WithSuffixOrder(dir: string, names: seq<string>, suffix: string)
    ensures WithSuffix(dir, names, suffix) == MapJoin(dir, FilterSuffix(names, suffix))
  {
    if names != [] {
      WithSuffixOrder(dir, names[..|names| - 1], suffix);
    }
  }

  function FilterSuffix(names: seq<string>, suffix: string): (r: seq<string>)
    ensures forall k :: 0 <= k < |r| ==> EndsWith(r[k], suffix) && r[k] in names
  {
    if names == [] then []
    else
      var f := names[|names| - 1];
      FilterSuffix(names[..|names| - 1], suffix) + (if EndsWith(f, suffix) then [f] else [])
  }

  function MapJoin(dir: string, names: seq<string>): (r: seq<string>)
    ensures |r| == |names| && forall k :: 0 <= k < |r| ==> r[k] == Join(dir, names[k])
  {
    if names == [] then [] else MapJoin(dir, names[..|names| - 1]) + [Join(dir, names[|names| - 1])]
  }

  /** A sub-sequence of a sorted list is sorted. */
  lemma {:induction false} FilterSuffixSorted(names: seq<string>, suffix: string)
    requires SortedStrings(names)
    ensures SortedStrings(FilterSuffix(names, suffix))
  {
    if names != [] {
      var pre := names[..|names| - 1];
      assert SortedStrings(pre);
      FilterSuffixSorted(pre, suffix);
      var r := FilterSuffix(pre, suffix);
      assert forall k :: 0 <= k < |r| ==> LexLe(r[k], names[|names| - 1]) by {
        forall k | 0 <= k < |r| ensures LexLe(r[k], names[|names| - 1]) {
          assert r[k] in pre;
          var m :| 0 <= m < |pre| && pre[m] == r[k];
          assert names[m] == r[k];
        }
      }
    }
  }

  /** The loop of `find_vcd_files` / `find_fst_files`: walk the sorted listing
      and keep the names with the suffix. */
  method ListBySuffix(dir: string, listing: seq<string>, suffix: string) returns (files: seq<string>)
    ensures files == WithSuffix(dir, Sort(listing), suffix)
  {
    var names := Sort(listing);
    files := [];
    var k := 0;
    while k < |names|
      invariant k <= |names|
      invariant files == WithSuffix(dir, names[..k], suffix)
    {
      assert names[..k + 1][..k] == names[..k];
      if EndsWith(names[k], suffix) {
        files := files + [Join(dir, names[k])];
      }
      k := k + 1;
    }
    assert names[..|names|] == names;
  }

  /** The files found are the listed names with the suffix, in sorted order of
      name, each joined to the directory searched. */
  lemma ListingMeaning(dir: string, listing: seq<string>, suffix: string)
    ensures var files := WithSuffix(dir, Sort(listing), suffix);
            && (forall f :: f in listing && EndsWith(f, suffix) ==> Join(dir, f) in files)
            && (forall p :: p in files ==> exists f :: f in listing && EndsWith(f, suffix) && p == Join(dir, f))
            && files == MapJoin(dir, FilterSuffix(Sort(listing), suffix))
            && SortedStrings(FilterSuffix(Sort(listing), suffix))
  {
    var names := Sort(listing);
    SortMeaning(listing);
    WithSuffixMeaning(dir, names, suffix);
    WithSuffixOrder(dir, names, suffix);
    FilterSuffixSorted(names, suffix);
    assert forall f :: f in listing <==> f in names by {
      assert forall f :: f in listing <==> f in multiset(listing);
      assert forall f :: f in names <==> f in multiset(names);
    }
    forall f | f in listing && EndsWith(f, suffix) ensures Join(dir, f) in WithSuffix(dir, names, suffix) {
      var k :| 0 <= k < |names| && names[k] == f;
    }
  }

  // ---------------------------------------------------------------------
  // Choosing three signals spread over a list
  // ---------------------------------------------------------------------

  function Min(a: nat, b: nat): nat { if a < b then a else b }

  /** `i * n // min(3, n)` */
  function SpreadIndex(i: nat, n: nat): nat
    requires i < Min(3, n)
  {
    i * n / Min(3, n)
  }

  /** The indices start at 0, rise strictly and stay below `n`. */
  lemma SpreadIndices(n: nat)
    ensures n > 0 ==> SpreadIndex(0, n) == 0
    ensures forall i :: 0 <= i < Min(3, n) ==> SpreadIndex(i, n) < n
    ensures forall i, j :: 0 <= i < j < Min(3, n) ==> SpreadIndex(i, n) < SpreadIndex(j, n)
  {
    var m := Min(3, n);
    forall i | 0 <= i < m ensures SpreadIndex(i, n) < n {
      SpreadBelow(i, n, m);
    }
    forall i, j | 0 <= i < j < m ensures SpreadIndex(i, n) < SpreadIndex(j, n) {
      SpreadStep(i, j, n, m);
    }
  }

  lemma SpreadBelow(i: nat, n: nat, m: nat)
    requires 0 < m <= n && i < m
    ensures i * n / m < n
  {
    assert i * n < m * n by {
      assert (m - i) * n > 0;
    }
    DivBelow(i * n, m, n);
  }

  lemma DivBelow(a: nat, m: nat, n: nat)
    requires m > 0 && a < m * n
    ensures a / m < n
  {
    assert a == (a / m) * m + a % m;
  }

  lemma SpreadStep(i: nat, j: nat, n: nat, m: nat)
    requires 0 < m <= n && i < j
    ensures i * n / m < j * n / m
  {
    MulLe(i + 1, j, n);
    assert (i + 1) * n == i * n + n;
    DivStep(i * n, j * n, m);
  }

  lemma DivStep(a: nat, b: nat, m: nat)
    requires m > 0 && b >= a + m
    ensures a / m < b / m
  {
    assert a == (a / m) * m + a % m;
    assert b == (b / m) * m + b % m;
  }

  /** The items at the spread indices. */
  function Spread<T>(items: seq<T>): (chosen: seq<T>)
    ensures |chosen| == Min(3, |items|)
  {
    seq(Min(3, |items|), i requires 0 <= i < Min(3, |items|) => items[SpreadIndex(i, |items|)])
  }

  /** The `chosen` loop: `min(3, n)` items taken at the spread indices. */
  method ChooseSpread<T>(items: seq<T>) returns (chosen: seq<T>)
    ensures chosen == Spread(items)
    ensures |chosen| == Min(3, |items|)
    ensures forall i :: 0 <= i < |chosen| ==> chosen[i] == items[SpreadIndex(i, |items|)]
  {
    var n := |items|;
    SpreadIndices(n);
    chosen := [];
    var i := 0;
    while i < Min(3, n)
      invariant i <= Min(3, n)
      invariant |chosen| == i
      invariant forall k :: 0 <= k < i ==> chosen[k] == items[SpreadIndex(k, n)]
    {
      chosen := chosen + [items[SpreadIndex(i, n)]];
      i := i + 1;
    }
  }

  // ---------------------------------------------------------------------
  // Query windows
  // ---------------------------------------------------------------------

  /** The fractions of the time range the value queries cover. */
  const Pcts: seq<real> := [0.10, 0.50, 1.00]

  /** `start + int(span * pct)`, with `pct` one of 0.10, 0.50, 1.00 taken
      exactly. */
  function QueryEnd(start: int, span: int, pct: real): (e: int)
    requires span > 0 && 0.0 <= pct <= 1.0
    ensures start <= e <= start + span
    ensures pct == 1.0 ==> e == start + span
  {
    assert 0.0 <= span as real * pct <= span as real;
    start + (span as real * pct).Floor
  }

  lemma QueryEndMonotone(start: int, span: int, p: real, q: real)
    requires span > 0 && 0.0 <= p <= q <= 1.0
    ensures QueryEnd(start, span, p) <= QueryEnd(start, span, q)
  {
    assert span as real * p <= span as real * q;
  }
  /** The number of change times inside `[lo, hi]`. */
  function WindowCount(times: seq<int>, lo: int, hi: int): nat {
    if times == [] then 0
    else WindowCount(times[..|times| - 1], lo, hi) + (if lo <= times[|times| - 1] <= hi then 1 else 0)
  }

  /** The positions of the change times inside `[lo, hi]`. */
  function WindowIndices(times: seq<int>, lo: int, hi: int): set<nat> {
    set k: nat | k < |times| && lo <= times[k] <= hi
  }

  /** The count is the number of changes whose time lies in the window. */
  lemma {:induction false} WindowCountMeaning(times: seq<int>, lo: int, hi: int)
    ensures WindowCount(times, lo, hi) == |WindowIndices(times, lo, hi)|
  {
    if times != [] {
      var n := |times|;
      var pre := times[..n - 1];
      WindowCountMeaning(pre, lo, hi);
      var before := WindowIndices(pre, lo, hi);
      assert n - 1 !in before;
      if lo <= times[n - 1] <= hi {
        assert WindowIndices(times, lo, hi) == before + {n - 1};
      } else {
        assert WindowIndices(times, lo, hi) == before;
      }
    }
  }

  lemma {:induction false} WindowCountAppend(a: seq<int>, b: seq<int>, lo: int, hi: int)
    ensures WindowCount(a + b, lo, hi) == WindowCount(a, lo, hi) + WindowCount(b, lo, hi)
    decreases |b|
  {
    if b != [] {
      WindowCountAppend(a, b[..|b| - 1], lo, hi);
      assert (a + b)[..|a + b| - 1] == a + b[..|b| - 1];
    } else {
      assert a + b == a;
    }
  }

  /** A wider window never counts fewer changes. */
  lemma {:induction false} WindowCountMonotone(times: seq<int>, lo: int, hi: int, hi': int)
    requires hi <= hi'
    ensures WindowCount(times, lo, hi) <= WindowCount(times, lo, hi')
  {
    if times != [] {
      WindowCountMonotone(times[..|times| - 1], lo, hi, hi');
    }
  }

  /** For each chosen signal, the number of its changes in `[lo, hi]`. */
  function Row<T>(chosen: seq<T>, changeTimes: T -> seq<int>, lo: int, hi: int): (r: seq<nat>)
    ensures |r| == |chosen|
  {
    seq(|chosen|, c requires 0 <= c < |chosen| => WindowCount(changeTimes(chosen[c]), lo, hi))
  }

  /** The three value queries see nested windows: each signal's count at 10%
      is at most its count at 50%, which is at most its count at 100%, and
      the 100% window is the whole time range. */
  lemma RowsNest<T>(chosen: seq<T>, changeTimes: T -> seq<int>, start: int, span: int)
    requires span > 0
    ensures QueryEnd(start, span, Pcts[2]) == start + span
    ensures forall c :: 0 <= c < |chosen| ==>
              Row(chosen, changeTimes, start, QueryEnd(start, span, Pcts[0]))[c]
              <= Row(chosen, changeTimes, start, QueryEnd(start, span, Pcts[1]))[c]
              <= Row(chosen, changeTimes, start, QueryEnd(start, span, Pcts[2]))[c]
  {
    QueryEndMonotone(start, span, Pcts[0], Pcts[1]);
    QueryEndMonotone(start, span, Pcts[1], Pcts[2]);
    forall c | 0 <= c < |chosen|
      ensures WindowCount(changeTimes(chosen[c]), start, QueryEnd(start, span, Pcts[0]))
              <= WindowCount(changeTimes(chosen[c]), start, QueryEnd(start, span, Pcts[1]))
              <= WindowCount(changeTimes(chosen[c]), start, QueryEnd(start, span, Pcts[2]))
    {
      WindowCountMonotone(changeTimes(chosen[c]), start, QueryEnd(start, span, Pcts[0]), QueryEnd(start, span, Pcts[1]));
      WindowCountMonotone(changeTimes(chosen[c]), start, QueryEnd(start, span, Pcts[1]), QueryEnd(start, span, Pcts[2]));
    }
  }

  /** `for t, v in changes: if lo <= t <= hi: count += 1` */
  method CountInWindow(times: seq<int>, lo: int, hi: int) returns (count: nat)
    ensures count == WindowCount(times, lo, hi)
    ensures count == |WindowIndices(times, lo, hi)|
  {
    count := 0;
    var k := 0;
    while k < |times|
      invariant k <= |times|
      invariant count == WindowCount(times[..k], lo, hi)
    {
      assert times[..k + 1][..k] == times[..k];
      if lo <= times[k] <= hi {
        count := count + 1;
      }
      k := k + 1;
    }
    assert times[..|times|] == times;
    WindowCountMeaning(times, lo, hi);
  }

  // ---------------------------------------------------------------------
  // run_benchmark of the single-format samplers
  // ---------------------------------------------------------------------

  /** What the samplers learn from the world: whether a path is a directory,
      the names a directory lists, a file's size, what each test round does,
      and the square root used for the standard deviation. */
  datatype Env = Env(isDir: string -> bool, listDir: string -> seq<string>, sizeOf: string -> int,
                     trials: Trials, sqrt: real -> real)

  /** The constants that tell bench_vcdvcd.py and bench_pylibfst.py apart. */
  datatype Script = Script(library: string, format: string, kind: string, suffix: string, tests: seq<string>)

  /** `find_vcd_files` / `find_fst_files` */
  function FilesFound(suffix: string, env: Env, dataDir: string, scale: string): seq<string> {
    var dir := ScaleDir(dataDir, scale, env.isDir);
    WithSuffix(dir, Sort(env.listDir(dir)), suffix)
  }

  method FindFiles(suffix: string, env: Env, dataDir: string, scale: string) returns (files: seq<string>)
    ensures files == FilesFound(suffix, env, dataDir, scale)
  {
    var dir := Join(dataDir, scale);
    if !env.isDir(dir) {
      dir := dataDir;
    }
    files := ListBySuffix(dir, env.listDir(dir), suffix);
  }

  /** `f"No {kind} files found in {data_dir}/{scale}"` */
  function NoFilesMessage(kind: string, dataDir: string, scale: string): string {
    "No " + kind + " files found in " + dataDir + "/" + scale
  }

  /** The document `run_benchmark` produces and where it goes. */
  function SingleFormatOf(script: Script, env: Env, dataDir: string, scale: string, outputPath: string): Emission {
    EmissionFor(script, env, FilesFound(script.suffix, env, dataDir, scale), dataDir, scale, outputPath)
  }

  /** The document for the files found: an error entry when there are none,
      the results of every (file, test) pair otherwise. */
  function EmissionFor(script: Script, env: Env, files: seq<string>, dataDir: string, scale: string,
                       outputPath: string): Emission {
    if files == [] then
      Emission(Wrapper(script.library, script.format,
                       [FailureEntry("find_files", scale, "error", NoFilesMessage(script.kind, dataDir, scale))]),
               Stdout)
    else
      Emission(Wrapper(script.library, script.format,
                       Results(files, script.tests, scale, env.sizeOf, env.trials, ScaleTimeout(scale), env.sqrt)),
               DestinationOf(outputPath))
  }

  /** `run_benchmark(data_dir, scale, output_path)` */
  method RunSingleFormat(sig: AlarmState, script: Script, env: Env, dataDir: string, scale: string,
                         outputPath: string) returns (em: Emission)
    modifies sig
    ensures em == SingleFormatOf(script, env, dataDir, scale, outputPath)
    ensures sig.handler == old(sig.handler)
  {
    var timeout := ScaleTimeout(scale);
    var files := FindFiles(script.suffix, env, dataDir, scale);
    if files == [] {
      var entry := FailureEntry("find_files", scale, "error", NoFilesMessage(script.kind, dataDir, scale));
      em := Emission(Wrapper(script.library, script.format, [entry]), Stdout);
      return;
    }
    var results := RunAll(sig, files, script.tests, scale, env.sizeOf, env.trials, timeout, env.sqrt);
    em := Emission(Wrapper(script.library, script.format, results), DestinationOf(outputPath));
  }

  /** With no files, one "find_files" error goes to stdout whatever `--output`
      says; otherwise the results of every (file, test) pair, as `ResultsShape`
      lays them out, go where `--output` says. */
  lemma EmissionShape(script: Script, env: Env, files: seq<string>, dataDir: string, scale: string, outputPath: string)
    ensures var em := EmissionFor(script, env, files, dataDir, scale, outputPath);
            && em.doc.library == Some(script.library) && em.doc.format == Some(script.format)
            && em.doc.results.Some?
    ensures var em := EmissionFor(script, env, files, dataDir, scale, outputPath);
            files == [] ==>
              && em.dest == Stdout && |em.doc.results.value| == 1
              && em.doc.results.value[0].test == Some("find_files")
              && em.doc.results.value[0].status == Some("error")
              && em.doc.results.value[0].error == Some(NoFilesMessage(script.kind, dataDir, scale))
    ensures var em := EmissionFor(script, env, files, dataDir, scale, outputPath);
            files != [] ==>
              && em.dest == DestinationOf(outputPath)
              && em.doc.results.value == Results(files, script.tests, scale, env.sizeOf, env.trials, ScaleTimeout(scale), env.sqrt)
  {
  }

  /** Entry `i*|tests| + j` names test `j` and the base name of file `i`. */
  lemma ResultsNames(files: seq<string>, tests: seq<string>, scale: string, sizeOf: string -> int,
                     trials: Trials, timeout: nat, sqrt: real -> real, i: nat, j: nat)
    requires i < |files| && j < |tests|
    ensures 0 <= i * |tests| + j < |Results(files, tests, scale, sizeOf, trials, timeout, sqrt)|
    ensures Results(files, tests, scale, sizeOf, trials, timeout, sqrt)[i * |tests| + j].test == Some(tests[j])
    ensures Results(files, tests, scale, sizeOf, trials, timeout, sqrt)[i * |tests| + j].file == Some(Basename(files[i]))
  {
    ResultsAt(files, tests, scale, sizeOf, trials, timeout, sqrt, i, j);
    PairEntryNames(tests[j], scale, files[i], sizeOf(files[i]), AttemptsOf(trials, files[i], tests[j]), timeout, sqrt);
  }

  /** `r` holds one entry per (file, test) pair, file-major, each naming its test
      and the base name of its file. */
  ghost predicate FileMajor(r: seq<Obj>, files: seq<string>, tests: seq<string>)
  {
    && |r| == |files| * |tests|
    && forall i, j :: 0 <= i < |files| && 0 <= j < |tests| ==>
         0 <= Slot(i, |tests|, j) < |r| && r[Slot(i, |tests|, j)].test == Some(tests[j])
         && r[Slot(i, |tests|, j)].file == Some(Basename(files[i]))
  }

  lemma ResultsShape(files: seq<string>, tests: seq<string>, scale: string, sizeOf: string -> int,
                     trials: Trials, timeout: nat, sqrt: real -> real)
    ensures FileMajor(Results(files, tests, scale, sizeOf, trials, timeout, sqrt), files, tests)
  {
    var r := Results(files, tests, scale, sizeOf, trials, timeout, sqrt);
    ResultsLength(files, tests, scale, sizeOf, trials, timeout, sqrt);
    forall i, j | 0 <= i < |files| && 0 <= j < |tests|
      ensures 0 <= Slot(i, |tests|, j) < |r| && r[Slot(i, |tests|, j)].test == Some(tests[j])
              && r[Slot(i, |tests|, j)].file == Some(Basename(files[i]))
    {
      ResultsNames(files, tests, scale, sizeOf, trials, timeout, sqrt, i, j);
    }
  }

  /** With five tests per file, file `i` owns entries `5i` to `5i + 4`, in test order. */
  lemma FiveEntries(r: seq<Obj>, files: seq<string>, tests: seq<string>, i: nat)
    requires |tests| == 5 && i < |files| && FileMajor(r, files, tests)
    ensures |r| == 5 * |files|
    ensures forall j :: 0 <= j < 5 ==>
              r[5 * i + j].test == Some(tests[j]) && r[5 * i + j].file == Some(Basename(files[i]))
  {
    assert |files| * |tests| == 5 * |files|;
    assert i * |tests| == 5 * i;
    forall j | 0 <= j < 5
      ensures r[5 * i + j].test == Some(tests[j]) && r[5 * i + j].file == Some(Basename(files[i]))
    {
      assert r[Slot(i, |tests|, j)].test == Some(tests[j]);
    }
  }

  /** The keys of the `tests` dict of bench_vcdvcd.py and bench_pylibfst.py,
      in insertion order. */
  const SingleFormatTests: seq<string> := ["full_parse", "signal_list", "time_range", "value_query", "pipeline"]

  /** The results of a run over some files: five per file, in the order full_parse,
      signal_list, time_range, value_query, pipeline, each naming its file. */
  lemma SingleFormatResults(files: seq<string>, tests: seq<string>, scale: string, sizeOf: string -> int,
                            trials: Trials, timeout: nat, sqrt: real -> real, i: nat)
    requires tests == SingleFormatTests && i < |files|
    ensures var results := Results(files, tests, scale, sizeOf, trials, timeout, sqrt);
            && |results| == 5 * |files|
            && 5 * i + 4 < |results|
            && results[5 * i].test == Some("full_parse")
            && results[5 * i + 1].test == Some("signal_list")
            && results[5 * i + 2].test == Some("time_range")
            && results[5 * i + 3].test == Some("value_query")
            && results[5 * i + 4].test == Some("pipeline")
            && results[5 * i].file == results[5 * i + 1].file == results[5 * i + 2].file
               == results[5 * i + 3].file == results[5 * i + 4].file == Some(Basename(files[i]))
  {
    var results := Results(files, tests, scale, sizeOf, trials, timeout, sqrt);
    ResultsShape(files, tests, scale, sizeOf, trials, timeout, sqrt);
    FiveEntries(results, files, tests, i);
    assert results[5 * i].test == Some(tests[0]) && results[5 * i + 1].test == Some(tests[1])
           && results[5 * i + 2].test == Some(tests[2]) && results[5 * i + 3].test == Some(tests[3])
           && results[5 * i + 4].test == Some(tests[4]);
    assert results[5 * i].file == Some(Basename(files[i])) && results[5 * i + 1].file == Some(Basename(files[i]))
           && results[5 * i + 2].file == Some(Basename(files[i])) && results[5 * i + 3].file == Some(Basename(files[i]))
           && results[5 * i + 4].file == Some(Basename(files[i]));
  }


}
