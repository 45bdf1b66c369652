/**
 * benchmarks/python/bench_pywellen.py: the pywellen sampler, which covers
 * both formats in one run. It shares `run_test`, the repetition loop and the
 * file-major loop (`run_benchmark_for_format`) with the other samplers; its
 * own parts are the one-pass split of the listing into VCD and FST files,
 * the early payloads of `run_benchmark`, and the change count of
 * `test_value_query_*` that stops at the first change past the window.
 */
module PywellenBench {
  import opened Wrappers
  import opened Text
  import opened Payload
  import opened Sampler

  const Library: string := "pywellen"
  const Format: string := "vcd+fst"

  /** The keys of `vcd_tests` and `fst_tests`, in insertion order. */
  const VcdTests: seq<string> := ["full_parse_vcd", "signal_list_vcd", "time_range_vcd", "value_query_vcd", "pipeline_vcd"]
  const FstTests: seq<string> := ["full_parse_fst", "signal_list_fst", "time_range_fst", "value_query_fst", "pipeline_fst"]

  // ---------------------------------------------------------------------
  // find_waveform_files
  // ---------------------------------------------------------------------

  /** A name ending in ".vcd" does not end in ".fst", so the `elif` never
      hides an FST file. */
  lemma SuffixesExclusive(f: string)
    requires EndsWith(f, ".vcd")
    ensures !EndsWith(f, ".fst")
  {
    assert f[|f| - 1] == ".vcd"[3];
  }

  /** `find_waveform_files(data_dir, scale)`: one pass over the sorted listing
      of the scale directory (or of `data_dir` when there is none), ".vcd"
      names to the first list and ".fst" names to the second. */
  method FindWaveformFiles(env: Env, dataDir: string, scale: string) returns (vcd: seq<string>, fst: seq<string>)
    ensures vcd == FilesFound(".vcd", env, dataDir, scale)
    ensures fst == FilesFound(".fst", env, dataDir, scale)
  {
    var dir := Join(dataDir, scale);
    if !env.isDir(dir) {
      dir := dataDir;
    }
    var names := Sort(env.listDir(dir));
    vcd, fst := [], [];
    var k := 0;
    while k < |names|
      invariant k <= |names|
      invariant vcd == WithSuffix(dir, names[..k], ".vcd")
      invariant fst == WithSuffix(dir, names[..k], ".fst")
    {
      assert names[..k + 1][..k] == names[..k];
      var full := Join(dir, names[k]);
      if EndsWith(names[k], ".vcd") {
        SuffixesExclusive(names[k]);
        vcd := vcd + [full];
      } else if EndsWith(names[k], ".fst") {
        fst := fst + [full];
      }
      k := k + 1;
    }
    assert names[..|names|] == names;
  }

  // ---------------------------------------------------------------------
  // run_benchmark
  // ---------------------------------------------------------------------

  /** `f"pywellen not available: {e}"` */
  function ImportMessage(importError: string): string {
    "pywellen not available: " + importError
  }

  /** `f"No VCD or FST files found in {data_dir}/{scale}"` */
  function NoFilesMessage(dataDir: string, scale: string): string {
    "No VCD or FST files found in " + dataDir + "/" + scale
  }

  /** The `all_results` list when the import succeeds. */
  function AllResults(env: Env, dataDir: string, scale: string): seq<Obj> {
    Collected(FilesFound(".vcd", env, dataDir, scale), FilesFound(".fst", env, dataDir, scale), env, dataDir, scale)
  }

  /** `all_results` for the given VCD and FST lists. */
  function Collected(vcd: seq<string>, fst: seq<string>, env: Env, dataDir: string, scale: string): seq<Obj> {
    var timeout := ScaleTimeout(scale);
    (if vcd == [] && fst == [] then [FailureEntry("find_files", scale, "error", NoFilesMessage(dataDir, scale))] else [])
    + (if vcd != [] then Results(vcd, VcdTests, scale, env.sizeOf, env.trials, timeout, env.sqrt) else [])
    + (if fst != [] then Results(fst, FstTests, scale, env.sizeOf, env.trials, timeout, env.sqrt) else [])
  }

  /** The document `run_benchmark` writes: `importError` is the message of the
      `ImportError` when `import pywellen` fails. */
  function PywellenOf(importError: Option<string>, env: Env, dataDir: string, scale: string, outputPath: string): Emission {
    match importError
    case Some(e) =>
      Emission(Wrapper(Library, Format, [FailureEntry("import", scale, "error", ImportMessage(e))]), DestinationOf(outputPath))
    case None =>
      Emission(Wrapper(Library, Format, AllResults(env, dataDir, scale)), DestinationOf(outputPath))
  }

  /** `run_benchmark(data_dir, scale, output_path)` */
  method RunBenchmark(sig: AlarmState, importError: Option<string>, env: Env, dataDir: string, scale: string,
                      outputPath: string) returns (em: Emission)
    modifies sig
    ensures em == PywellenOf(importError, env, dataDir, scale, outputPath)
    ensures sig.handler == old(sig.handler)
  {
    if importError.Some? {
      var entry := FailureEntry("import", scale, "error", ImportMessage(importError.value));
      em := Emission(Wrapper(Library, Format, [entry]), DestinationOf(outputPath));
      return;
    }
    var timeout := ScaleTimeout(scale);
    var vcd, fst := FindWaveformFiles(env, dataDir, scale);
    var missing: seq<Obj> := [];
    if vcd == [] && fst == [] {
      missing := [FailureEntry("find_files", scale, "error", NoFilesMessage(dataDir, scale))];
    }
    var vcdResults: seq<Obj> := [];
    if vcd != [] {
      vcdResults := RunAll(sig, vcd, VcdTests, scale, env.sizeOf, env.trials, timeout, env.sqrt);
    }
    var fstResults: seq<Obj> := [];
    if fst != [] {
      fstResults := RunAll(sig, fst, FstTests, scale, env.sizeOf, env.trials, timeout, env.sqrt);
    }
    var all := missing + vcdResults + fstResults;
    em := Emission(Wrapper(Library, Format, all), DestinationOf(outputPath));
  }

  /** A failed import yields exactly one "import" error and runs nothing; with
      no files the only result is one "find_files" error; otherwise the five
      VCD tests per VCD file come first, then the five FST tests per FST file.
      The document always goes where `--output` says. */
  lemma PywellenShape(importError: Option<string>, env: Env, dataDir: string, scale: string, outputPath: string)
    ensures var em := PywellenOf(importError, env, dataDir, scale, outputPath);
            && em.dest == DestinationOf(outputPath)
            && em.doc.library == Some(Library) && em.doc.format == Some(Format) && em.doc.results.Some?
    ensures var em := PywellenOf(importError, env, dataDir, scale, outputPath);
            importError.Some? ==>
              && |em.doc.results.value| == 1
              && em.doc.results.value[0].test == Some("import")
              && em.doc.results.value[0].status == Some("error")
              && em.doc.results.value[0].error == Some(ImportMessage(importError.value))
    ensures var em := PywellenOf(importError, env, dataDir, scale, outputPath);
            var vcd := FilesFound(".vcd", env, dataDir, scale);
            var fst := FilesFound(".fst", env, dataDir, scale);
            importError.None? && vcd == [] && fst == [] ==>
              && |em.doc.results.value| == 1
              && em.doc.results.value[0].test == Some("find_files")
              && em.doc.results.value[0].status == Some("error")
              && em.doc.results.value[0].error == Some(NoFilesMessage(dataDir, scale))
    ensures var em := PywellenOf(importError, env, dataDir, scale, outputPath);
            var vcd := FilesFound(".vcd", env, dataDir, scale);
            var fst := FilesFound(".fst", env, dataDir, scale);
            var timeout := ScaleTimeout(scale);
            importError.None? && (vcd != [] || fst != []) ==>
              && |em.doc.results.value| == 5 * |vcd| + 5 * |fst|
              && em.doc.results.value
                 == Results(vcd, VcdTests, scale, env.sizeOf, env.trials, timeout, env.sqrt)
                    + Results(fst, FstTests, scale, env.sizeOf, env.trials, timeout, env.sqrt)
  {
    if importError.Some? {
      ImportFailedShape(importError.value, env, dataDir, scale, outputPath);
    } else {
      ImportedShape(env, dataDir, scale, outputPath);
    }
  }

  lemma ImportFailedShape(e: string, env: Env, dataDir: string, scale: string, outputPath: string)
    ensures var em := PywellenOf(Some(e), env, dataDir, scale, outputPath);
            && em.dest == DestinationOf(outputPath)
            && em.doc.library == Some(Library) && em.doc.format == Some(Format) && em.doc.results.Some?
            && |em.doc.results.value| == 1
            && em.doc.results.value[0].test == Some("import")
            && em.doc.results.value[0].status == Some("error")
            && em.doc.results.value[0].error == Some(ImportMessage(e))
  {
  }

  lemma ImportedShape(env: Env, dataDir: string, scale: string, outputPath: string)
    ensures var em := PywellenOf(None, env, dataDir, scale, outputPath);
            && em.dest == DestinationOf(outputPath)
            && em.doc.library == Some(Library) && em.doc.format == Some(Format)
            && em.doc.results == Some(AllResults(env, dataDir, scale))
    ensures var vcd := FilesFound(".vcd", env, dataDir, scale);
            var fst := FilesFound(".fst", env, dataDir, scale);
            var all := AllResults(env, dataDir, scale);
            vcd == [] && fst == [] ==>
              && |all| == 1
              && all[0].test == Some("find_files")
              && all[0].status == Some("error")
              && all[0].error == Some(NoFilesMessage(dataDir, scale))
    ensures var vcd := FilesFound(".vcd", env, dataDir, scale);
            var fst := FilesFound(".fst", env, dataDir, scale);
            var timeout := ScaleTimeout(scale);
            var all := AllResults(env, dataDir, scale);
            (vcd != [] || fst != []) ==>
              && |all| == 5 * |vcd| + 5 * |fst|
              && all == Results(vcd, VcdTests, scale, env.sizeOf, env.trials, timeout, env.sqrt)
                        + Results(fst, FstTests, scale, env.sizeOf, env.trials, timeout, env.sqrt)
  {
    CollectedShape(FilesFound(".vcd", env, dataDir, scale), FilesFound(".fst", env, dataDir, scale), env, dataDir, scale);
  }

  lemma CollectedShape(vcd: seq<string>, fst: seq<string>, env: Env, dataDir: string, scale: string)
    ensures var all := Collected(vcd, fst, env, dataDir, scale);
            vcd == [] && fst == [] ==>
              && |all| == 1
              && all[0].test == Some("find_files")
              && all[0].status == Some("error")
              && all[0].error == Some(NoFilesMessage(dataDir, scale))
    ensures var timeout := ScaleTimeout(scale);
            var all := Collected(vcd, fst, env, dataDir, scale);
            (vcd != [] || fst != []) ==>
              && |all| == 5 * |vcd| + 5 * |fst|
              && all == Results(vcd, VcdTests, scale, env.sizeOf, env.trials, timeout, env.sqrt)
                        + Results(fst, FstTests, scale, env.sizeOf, env.trials, timeout, env.sqrt)
  {
    if vcd == [] && fst == [] {
      var e := FailureEntry("find_files", scale, "error", NoFilesMessage(dataDir, scale));
      assert Collected(vcd, fst, env, dataDir, scale) == [e] + [] + [];
    } else {
      CollectedFiles(vcd, fst, env, dataDir, scale);
      var timeout := ScaleTimeout(scale);
      FiveEach(vcd, VcdTests, scale, env.sizeOf, env.trials, timeout, env.sqrt);
      FiveEach(fst, FstTests, scale, env.sizeOf, env.trials, timeout, env.sqrt);
    }
  }

  lemma CollectedFiles(vcd: seq<string>, fst: seq<string>, env: Env, dataDir: string, scale: string)
    requires vcd != [] || fst != []
    ensures var timeout := ScaleTimeout(scale);
            Collected(vcd, fst, env, dataDir, scale)
              == Results(vcd, VcdTests, scale, env.sizeOf, env.trials, timeout, env.sqrt)
                 + Results(fst, FstTests, scale, env.sizeOf, env.trials, timeout, env.sqrt)
  {
    var timeout := ScaleTimeout(scale);
    var rv := Results(vcd, VcdTests, scale, env.sizeOf, env.trials, timeout, env.sqrt);
    var rf := Results(fst, FstTests, scale, env.sizeOf, env.trials, timeout, env.sqrt);
    var all := Collected(vcd, fst, env, dataDir, scale);
    if vcd == [] {
      assert all == rf by { assert [] + [] + rf == rf; }
      assert rv + rf == rf;
    } else if fst == [] {
      assert all == rv by { assert [] + rv + [] == rv; }
      assert rv + rf == rv;
    } else {
      assert all == rv + rf by { assert [] + rv == rv; }
    }
  }

  lemma FiveEach(files: seq<string>, tests: seq<string>, scale: string, sizeOf: string -> int,
                 trials: Trials, timeout: nat, sqrt: real -> real)
    requires |tests| == 5
    ensures |Results(files, tests, scale, sizeOf, trials, timeout, sqrt)| == 5 * |files|
  {
    ResultsLength(files, tests, scale, sizeOf, trials, timeout, sqrt);
  }

  // ---------------------------------------------------------------------
  // The change count with an early break
  // ---------------------------------------------------------------------

  /** The position of the first change later than `hi`, or the length. */
  function FirstPast(times: seq<int>, hi: int): (r: nat)
    ensures r <= |times|
    ensures forall j :: 0 <= j < r ==> times[j] <= hi
    ensures r < |times| ==> times[r] > hi
  {
    if times == [] then 0
    else if times[0] > hi then 0
    else 1 + FirstPast(times[1..], hi)
  }

  /** A position before which no change is past `hi`, and at which one is (or
      the list ends), is the first past `hi`. */
  lemma {:induction false} FirstPastAt(times: seq<int>, hi: int, k: nat)
    requires k <= |times|
    requires forall j :: 0 <= j < k ==> times[j] <= hi
    requires k < |times| ==> times[k] > hi
    ensures FirstPast(times, hi) == k
  {
    if times != [] && times[0] <= hi {
      assert k > 0;
      FirstPastAt(times[1..], hi, k - 1);
    }
  }

  /** The count up to the first change past the window. */
  function EarlyCount(times: seq<int>, lo: int, hi: int): nat {
    WindowCount(times[..FirstPast(times, hi)], lo, hi)
  }

  /** The count is the number of changes inside `[lo, hi]` that come before
      the first change later than `hi`; on time-ordered changes, which is how
      the waveform lists them, it is the number of changes inside the window. */
  lemma EarlyCountMeaning(times: seq<int>, lo: int, hi: int)
    ensures EarlyCount(times, lo, hi) == |WindowIndices(times[..FirstPast(times, hi)], lo, hi)|
    ensures (forall i, j :: 0 <= i < j < |times| ==> times[i] <= times[j]) ==>
              EarlyCount(times, lo, hi) == WindowCount(times, lo, hi)
  {
    WindowCountMeaning(times[..FirstPast(times, hi)], lo, hi);
    if forall i, j :: 0 <= i < j < |times| ==> times[i] <= times[j] {
      EarlyCountSorted(times, lo, hi);
    }
  }

  /** On time-ordered changes every change from the first one past `hi` on is
      past `hi` too, so stopping there misses nothing. */
  lemma EarlyCountSorted(times: seq<int>, lo: int, hi: int)
    requires forall i, j :: 0 <= i < j < |times| ==> times[i] <= times[j]
    ensures EarlyCount(times, lo, hi) == WindowCount(times, lo, hi)
  {
    var r := FirstPast(times, hi);
    var rest := times[r..];
    forall j | 0 <= j < |rest| ensures rest[j] > hi {
      assert rest[j] == times[r + j];
      if j > 0 {
        assert times[r] <= times[r + j];
      }
    }
    assert times == times[..r] + rest;
    WindowCountAppend(times[..r], rest, lo, hi);
    WindowCountPast(rest, lo, hi);
  }

  lemma {:induction false} WindowCountPast(times: seq<int>, lo: int, hi: int)
    requires forall j :: 0 <= j < |times| ==> times[j] > hi
    ensures WindowCount(times, lo, hi) == 0
  {
    if times != [] {
      WindowCountPast(times[..|times| - 1], lo, hi);
    }
  }

  /** `for t, v in sig.all_changes(): if lo <= t <= hi: count += 1
      elif t > hi: break` */
  method CountUntilPast(times: seq<int>, lo: int, hi: int) returns (count: nat)
    ensures count == EarlyCount(times, lo, hi)
  {
    count := 0;
    var k := 0;
    while k < |times|
      invariant k <= |times|
      invariant forall j :: 0 <= j < k ==> times[j] <= hi
      invariant count == WindowCount(times[..k], lo, hi)
    {
      assert times[..k + 1][..k] == times[..k];
      if lo <= times[k] <= hi {
        count := count + 1;
      } else if times[k] > hi {
        break;
      }
      k := k + 1;
    }
    FirstPastAt(times, hi, k);
  }

  /** For each chosen var, its early-break count up to `hi`. */
  function EarlyRow(chosen: seq<string>, changeTimes: string -> seq<int>, lo: int, hi: int): (r: seq<nat>)
    ensures |r| == |chosen|
  {
    seq(|chosen|, c requires 0 <= c < |chosen| => EarlyCount(changeTimes(chosen[c]), lo, hi))
  }

  /** Whether the queries run: some var, both ends of the time table known,
      and a positive time span. */
  predicate Queryable(vars: seq<string>, tStart: Option<int>, tEnd: Option<int>) {
    vars != [] && tStart.Some? && tEnd.Some? && tEnd.value - tStart.value > 0
  }

  /** `test_value_query_vcd` / `test_value_query_fst` once the waveform is
      loaded: for 10%, 50% and 100% of the time range, each chosen var's
      early-break count. */
  method ValueQuery(vars: seq<string>, changeTimes: string -> seq<int>, tStart: Option<int>, tEnd: Option<int>)
    returns (counts: seq<seq<nat>>)
    ensures !Queryable(vars, tStart, tEnd) ==> counts == []
    ensures Queryable(vars, tStart, tEnd) ==>
              var span := tEnd.value - tStart.value;
              && |counts| == |Pcts|
              && forall p :: 0 <= p < |Pcts| ==>
                   counts[p] == EarlyRow(Spread(vars), changeTimes, tStart.value, QueryEnd(tStart.value, span, Pcts[p]))
  {
    counts := [];
    if vars == [] {
      return;
    }
    var chosen := ChooseSpread(vars);
    if tStart.None? || tEnd.None? {
      return;
    }
    var span := tEnd.value - tStart.value;
    if span <= 0 {
      return;
    }
    var p := 0;
    while p < |Pcts|
      invariant p <= |Pcts| && |counts| == p
      invariant forall q :: 0 <= q < p ==>
                  counts[q] == EarlyRow(chosen, changeTimes, tStart.value, QueryEnd(tStart.value, span, Pcts[q]))
    {
      var queryEnd := QueryEnd(tStart.value, span, Pcts[p]);
      var row: seq<nat> := [];
      var c := 0;
      while c < |chosen|
        invariant c <= |chosen| && |row| == c
        invariant forall k :: 0 <= k < c ==> row[k] == EarlyCount(changeTimes(chosen[k]), tStart.value, queryEnd)
      {
        var count := CountUntilPast(changeTimes(chosen[c]), tStart.value, queryEnd);
        row := row + [count];
        c := c + 1;
      }
      counts := counts + [row];
      p := p + 1;
    }
  }

  /** On time-ordered changes the early-break rows are the plain window rows. */
  lemma EarlyRowSorted(chosen: seq<string>, changeTimes: string -> seq<int>, lo: int, hi: int)
    requires forall c :: 0 <= c < |chosen| ==>
               var ts := changeTimes(chosen[c]);
               forall i, j :: 0 <= i < j < |ts| ==> ts[i] <= ts[j]
    ensures EarlyRow(chosen, changeTimes, lo, hi) == Row(chosen, changeTimes, lo, hi)
  {
    forall c | 0 <= c < |chosen|
      ensures EarlyCount(changeTimes(chosen[c]), lo, hi) == WindowCount(changeTimes(chosen[c]), lo, hi)
    {
      EarlyCountMeaning(changeTimes(chosen[c]), lo, hi);
    }
  }

  /** `test_pipeline_vcd` / `test_pipeline_fst` once the waveform is loaded:
      each chosen var's change count over the whole range, with no early
      break. */
  method Pipeline(vars: seq<string>, changeTimes: string -> seq<int>, tStart: Option<int>, tEnd: Option<int>)
    returns (counts: seq<nat>)
    ensures !Queryable(vars, tStart, tEnd) ==> counts == []
    ensures Queryable(vars, tStart, tEnd) ==> counts == Row(Spread(vars), changeTimes, tStart.value, tEnd.value)
  {
    counts := [];
    if vars == [] || tStart.None? || tEnd.None? || tEnd.value <= tStart.value {
      return;
    }
    var chosen := ChooseSpread(vars);
    var c := 0;
    while c < |chosen|
      invariant c <= |chosen| && |counts| == c
      invariant forall k :: 0 <= k < c ==> counts[k] == WindowCount(changeTimes(chosen[k]), tStart.value, tEnd.value)
    {
      var count := CountInWindow(changeTimes(chosen[c]), tStart.value, tEnd.value);
      counts := counts + [count];
      c := c + 1;
    }
  }
}
