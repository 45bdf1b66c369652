# Waveform-parser benchmark harness, modelled in Dafny

The repository benchmarks VCD and FST waveform parsers:
- Python libraries: vcdvcd, pylibfst and pywellen.
- Rust crates: wellen, rust-vcd, vcd-ng, fst-reader and fstapi.

It has five parts, and this project models each of them:

- **Test data rules** (`benchmarks/generate_testdata.py`), module `TestData`. These are the three scale configurations and the signal widths (1, 8 or 32 bits by index). They also cover the sparse and dense change patterns, the value each signal takes at each timestep, and the text the FST writer is given. The VCD writer's input is a list of `(timestamp, signal, value)` changes. The FST writer's input is a list of time-change and value-change events. Lemmas connect the two: every FST value change is the zero-padded binary text of the matching VCD change.
- **Python samplers** (`benchmarks/python/bench_*.py`). What the three scripts share line for line is in module `Sampler`:
  - the alarm-guarded `run_test`, modelled as class `AlarmState`;
  - the repetition loop and the result entry it fills;
  - the file-major loop over files and tests;
  - the sorted, suffix-filtered listing of the scale directory;
  - the choice of three signals "spread" over a list;
  - the window counts of the value queries.

  Each script's own logic lives in modules `VcdvcdBench`, `PylibfstBench` and `PywellenBench`:
  - the pylibfst callback and the `collected` dict it updates, as class `PylibfstBench.ChangeCounter`;
  - pywellen's split of the listing into VCD and FST files in one pass;
  - pywellen's count that stops at the first change past the window;
  - pywellen's import failure.
- **Rust sampler** (`benchmarks/rust/src/main.rs`), module `RustBench`:
  - the repetition outcomes of `run_with_timeout` and the `BenchResult` that `benchmark` builds from them;
  - `stats` (module `Stats`);
  - the VmPeak scan of `/proc/self/status`;
  - `emit`;
  - counting the vars of a VCD scope tree and collecting their codes;
  - truncation to ten query signals;
  - `discover_files` with `Path::extension` semantics;
  - the order of the lines `main` prints.
- **Orchestrator** (`benchmarks/run_all.py`), module `RunAll`:
  - `run_subprocess` and its sentinel return codes;
  - running each configured Python sampler in its own virtual environment, and sorting the outcome into a document or a synthesised failure record;
  - building and running the Rust binary and parsing its JSON lines;
  - the combined document `main` saves.
- **Report** (`benchmarks/report.py`):
  - `normalize_results` turns the combined document into canonical records (module `Normalize`);
  - the number formatting helpers (module `Format`);
  - `generate_report`, up to rendering Markdown text (module `Report`). This covers the pass/fail partition, the four per-file sections with their tables and bar charts, the ranking by full-parse speed with its slowdown ratios, the failures table and the summary of libraries per format.

Shared modules:
- `Wrappers`: an `Option`.
- `Text`: string helpers with Python or Rust meaning.
- `Sorting`: filter and stable sort by a real key.
- `Payload`: JSON documents as records whose keys are all optional.

The outside world appears as explicit parameters (an `Env`, a `Host`, a `RustEnv`, oracles for file sizes and directory listings). The same applies to what a parser library does in one run (an `Attempt` or `Outcome`) and to the wall-clock text. Floating-point seconds are exact reals.

Where the documented behaviour and the code differ, the model follows the code:
- **Ranking:** a library whose full-parse means are all zero or negative is not ranked at all (`benchmarks/report.py:302-306`). It is not ranked last. `Report.RankingScenario` proves this on three libraries with means 2.0, 1.0 and 0.
- **VmPeak line:** a line starting with "VmPeak:" that has fewer than two whitespace-separated tokens does not stop the scan (`benchmarks/rust/src/main.rs:38-43`). The search goes on to later lines.
- **Run-all failures:** `run_rust_benchmarks` does not catch exceptions raised when it starts the binary (`benchmarks/run_all.py:304-332`), so `main` aborts without saving anything. `RunAll.CombinedOf` is `None` then.

## Model

| member | source | states |
|---|---|---|
| Text.BasenameMeaning | benchmarks/report.py:65 | `os.path.basename`: the result has no '/', is a suffix of the path, and is either the whole path or preceded by '/' |
| Text.Take | benchmarks/report.py:332 | `s[:n]`: a prefix of `s` of length `min(len(s), n)` |
| Text.StripMeaning | benchmarks/run_all.py:342 | `str.strip`: the result occurs in `s` at a position where everything before and after it is a stripped character, and it neither starts nor ends with one |
| Text.Tokens | benchmarks/rust/src/main.rs:39 | `split_whitespace`: every token is non-empty and holds no whitespace |
| Text.ParseU64 | benchmarks/rust/src/main.rs:41 | a parsed `u64` is below 2^64 |
| Text.ParseNatToString | benchmarks/rust/src/main.rs:41 | parsing the decimal text of `n` gives back `n` |
| Text.SortMeaning | benchmarks/python/bench_vcdvcd.py:41 | `sorted(names)`: sorted, and a permutation of its input |
| Sorting.FilterMeaning | benchmarks/report.py:155-156 | a comprehension's filter: an element is kept iff it is in the list and satisfies the predicate, and the result is no longer than the list |
| Sorting.FilterAppend | benchmarks/report.py:155-156 | the filter keeps the list's order: filtering two pieces and joining is filtering the joined list |
| Sorting.FilterOne | benchmarks/report.py:155-156 | a single element is kept iff it satisfies the predicate |
| Sorting.FilterSplit | benchmarks/report.py:155-157 | the ok and failed lists partition the records: the counts add up and the multisets combine to the whole |
| Sorting.SortByMeaning | benchmarks/report.py:176 | `sorted(..., key=...)`: sorted by the key, and a permutation of its input |
| Sorting.SortByStable | benchmarks/report.py:176 | the sort is stable: for every key value, the elements with that key appear in the same order as in the input |
| Payload.FailureEntry | benchmarks/python/bench_vcdvcd.py:166-177 | a synthesised failure record has the given test, status and error, no times and zero statistics |
| Payload.Wrapper | benchmarks/python/bench_vcdvcd.py:231-235 | the document `{library, format, results}` carries exactly those three keys |
| Normalize.AppendEntries | benchmarks/report.py:44-58 | the inner loop appends one canonical record per entry to the records so far |
| Normalize.AppendRustElement | benchmarks/report.py:62-104 | one `rust_results` element appends exactly its records (flat, wrapped or none) |
| Normalize.NormalizePython | benchmarks/report.py:41-58 | the Python loop yields the records of every wrapper, in order |
| Normalize.NormalizeRust | benchmarks/report.py:61-104 | the Rust loop appends the records of every element, in order |
| Normalize.NormalizeResults | benchmarks/report.py:33-106 | `normalize_results` returns the Python part followed by the Rust part |
| Normalize.EntryRecordsAt | benchmarks/report.py:44-58 | each entry yields exactly one record, at its own position, with its keys carried over or defaulted |
| Normalize.PythonWrapperRecords | benchmarks/report.py:41-58 | a Python wrapper's k-th entry becomes a "Python" record with the wrapper's library and format and the entry's fields |
| Normalize.FlatElement | benchmarks/report.py:63-86 | an object with `operation` yields one "Rust" record: renamed fields carried over, file reduced to its base name, size 0 unless the path exists |
| Normalize.WrappedOrDropped | benchmarks/report.py:87-104 | without `operation`, a `results` list yields one "Rust" record per sub-entry; anything else yields nothing |
| Normalize.PythonPartShape | benchmarks/report.py:41-58 | the Python part has one record per entry, all labelled "Python" |
| Normalize.RustPartLanguage | benchmarks/report.py:61-104 | every record of the Rust part is labelled "Rust" |
| Normalize.PythonBeforeRust | benchmarks/report.py:38-106 | all Python records come before all Rust records, and the Python records number exactly the Python entries |
| Normalize.ShapesAgree | benchmarks/report.py:45-86 | a Python entry and a flat Rust object describing the same measurement normalise to records that differ only in `language` |
| Format.FormatTime | benchmarks/report.py:109-117 | "N/A" exactly for non-positive times; otherwise the unit chosen by magnitude (us below 1 ms, ms below 1 s) and the value it stands for equals the input |
| Format.ScaledMeaning | benchmarks/report.py:124-128 | the unit is the first of B, KB, MB, GB at which the scaled value is below 1024, else TB, and value × 1024^unit is the size |
| Format.ScaleToUnit | benchmarks/report.py:124-128 | the in-place division loop computes that unit and value |
| Format.SizeTextMeaning | benchmarks/report.py:120-128 | "N/A" exactly for non-positive sizes; otherwise a unit and a value that multiply back to the size, below 1024 unless in TB and at least 1 unless in B |
| Format.FormatSize | benchmarks/report.py:120-128 | the guarded scaling loop produces exactly that size text |
| Format.FormatBytes | benchmarks/generate_testdata.py:52-58 | the generator's size text: the first unit at which the value drops below 1024 (at least 1 unless in B, below 1024 unless in TB), the value times the unit's size being the size; bytes below 1024 are shown in B unchanged |
| Format.ThroughputMbs | benchmarks/report.py:131-135 | zero unless size and mean are both positive; then positive and equal to size in MiB divided by the mean |
| Format.AsciiBar | benchmarks/report.py:138-144 | empty exactly when either value is non-positive; otherwise only '#', between 1 and `width` long, and the floor of value/max × width clamped to that range |
| Format.AsciiBarMonotone | benchmarks/report.py:138-144 | a larger value never gets a shorter bar |
| Format.AsciiBarFull | benchmarks/report.py:142-143 | the maximum value gets the full 30 characters |
| Stats.MinOf | benchmarks/rust/src/main.rs:55 | the `f64::min` fold is an element and at most every element |
| Stats.MaxOf | benchmarks/rust/src/main.rs:56 | the `f64::max` fold is an element and at least every element |
| Stats.MeanBounds | benchmarks/rust/src/main.rs:53-56 | the mean lies between the minimum and the maximum |
| Stats.SampleVariance | benchmarks/rust/src/main.rs:57-61 | the variance with divisor n-1 (0 below two samples) is never negative |
| Stats.ConstantVarianceZero | benchmarks/rust/src/main.rs:57-61 | samples that are all equal have variance 0 |
| Stats.RustStats | benchmarks/rust/src/main.rs:49-64 | `stats`: all zero for no samples; otherwise min and max are samples bounding every sample and the mean, the variance is non-negative, and one sample gives (x, x, x, 0) |
| Sampler.ScaleTimeout | benchmarks/python/bench_vcdvcd.py:159 | the per-call alarm lies between 60 and 300 seconds |
| Sampler.ClampedDelta | benchmarks/python/bench_vcdvcd.py:58 | `max(after - before, 0)`: non-negative, at least the difference, and either 0 or the difference |
| Sampler.RunOf | benchmarks/python/bench_vcdvcd.py:47-61 | a returning test is measured with its elapsed time and a non-negative memory delta; an alarm is a timeout; any other exception is a failure |
| Sampler.AlarmState.constructor | benchmarks/python/bench_vcdvcd.py:49 | the process signal state starts with the given handler and no pending alarm |
| Sampler.RunTest | benchmarks/python/bench_vcdvcd.py:47-61 | `run_test` returns the attempt's result and, in every case, cancels the alarm and restores the previous handler |
| Sampler.RepeatMeasured | benchmarks/python/bench_vcdvcd.py:208-220 | all rounds measured iff every attempt returned; then the times are the elapsed times in order |
| Sampler.RepeatPeak | benchmarks/python/bench_vcdvcd.py:208-220 | when every round returned the memory is the largest clamped delta of the rounds, 0 for no rounds |
| Sampler.RepeatStaysStopped | benchmarks/python/bench_vcdvcd.py:208-227 | once a round raises, later rounds change nothing |
| Sampler.RepeatFirstFailure | benchmarks/python/bench_vcdvcd.py:208-227 | the first raising round decides the outcome: timeout or its error message |
| Sampler.RunRepetitions | benchmarks/python/bench_vcdvcd.py:208-227 | the repetition loop computes that outcome and leaves the alarm off and the handler restored |
| Sampler.InitialEntry | benchmarks/python/bench_vcdvcd.py:195-206 | the entry starts "ok" with empty error, no times and zero statistics |
| Sampler.EntryOf | benchmarks/python/bench_vcdvcd.py:208-227 | a measured outcome fills in times, mean, stdev and memory; a timeout or error sets status and error and keeps the rest |
| Sampler.PairEntryOk | benchmarks/python/bench_vcdvcd.py:195-229 | an entry is "ok" iff all three rounds returned; then it has exactly three times in order, their mean, sqrt of their variance, and as memory the largest round's delta: at least every delta and equal to one of them |
| Sampler.PairEntryFailed | benchmarks/python/bench_vcdvcd.py:195-229 | a failed entry keeps no times and zero statistics; a timeout names the limit and an error carries the first failing round's message |
| Sampler.MeasurePair | benchmarks/python/bench_vcdvcd.py:195-229 | measuring one (file, test) pair yields that entry and leaves the signal state restored |
| Sampler.ResultsAt | benchmarks/python/bench_vcdvcd.py:189-229 | result `i × len(tests) + j` is test `j` on file `i` |
| Sampler.RunFile | benchmarks/python/bench_vcdvcd.py:191-229 | the inner loop appends one entry per test for the file |
| Sampler.RunAll | benchmarks/python/bench_vcdvcd.py:189-229 | the file-major loop yields every file's entries in order |
| Sampler.DestinationOf | benchmarks/python/bench_vcdvcd.py:239-245 | the document goes to stdout exactly when no output path is given, else to that path |
| Sampler.ScaleDir | benchmarks/python/bench_vcdvcd.py:36-39 | the scale subdirectory when it exists, else the data directory |
| Sampler.WithSuffixMeaning | benchmarks/python/bench_vcdvcd.py:40-44 | a path is listed iff it is the directory joined to a name with the suffix |
| Sampler.WithSuffixOrder | benchmarks/python/bench_vcdvcd.py:40-44 | the listed paths keep the order of the names |
| Sampler.FilterSuffixSorted | benchmarks/python/bench_vcdvcd.py:41 | filtering sorted names keeps them sorted |
| Sampler.ListBySuffix | benchmarks/python/bench_vcdvcd.py:40-44 | the listing loop computes the suffix filter of the sorted names |
| Sampler.ListingMeaning | benchmarks/python/bench_vcdvcd.py:34-44 | the files found are exactly the listed names with the suffix, joined to the directory, in sorted order |
| Sampler.SpreadIndices | benchmarks/python/bench_vcdvcd.py:96-99 | the spread indices start at 0, stay in range and strictly increase |
| Sampler.ChooseSpread | benchmarks/python/bench_vcdvcd.py:96-99 | the chosen items are `min(3, n)` items at those indices |
| Sampler.QueryEnd | benchmarks/python/bench_vcdvcd.py:111 | the query end lies within the time range and is its end at 100% |
| Sampler.QueryEndMonotone | benchmarks/python/bench_vcdvcd.py:110-111 | a larger percentage never gives an earlier query end |
| Sampler.WindowCountMeaning | benchmarks/python/bench_vcdvcd.py:114-117 | the count is the number of changes inside the window |
| Sampler.WindowCountAppend | benchmarks/python/bench_vcdvcd.py:114-117 | counting two blocks of changes adds their counts |
| Sampler.WindowCountMonotone | benchmarks/python/bench_vcdvcd.py:110-117 | a later window end never gives a smaller count |
| Sampler.RowsNest | benchmarks/python/bench_vcdvcd.py:110-118 | each signal's count at 10% ≤ at 50% ≤ at 100%, and the 100% window is the whole range |
| Sampler.CountInWindow | benchmarks/python/bench_vcdvcd.py:114-117 | the counting loop computes the window count |
| Sampler.FindFiles | benchmarks/python/bench_vcdvcd.py:34-44 | `find_vcd_files` / `find_fst_files` return the files found |
| Sampler.RunSingleFormat | benchmarks/python/bench_vcdvcd.py:157-245 | `run_benchmark` of the single-format samplers emits the document its specification function describes, with the handler restored |
| Sampler.EmissionShape | benchmarks/python/bench_vcdvcd.py:157-245 | no files gives exactly one "find_files" error entry printed to stdout; otherwise the document holds the results of every (file, test) pair and goes where `--output` says |
| Sampler.ResultsShape | benchmarks/python/bench_vcdvcd.py:189-229 | the results hold `len(files) × len(tests)` entries, file-major: entry `i × len(tests) + j` names test `j` and the base name of file `i` |
| Sampler.SingleFormatResults | benchmarks/python/bench_vcdvcd.py:181-229 | each file gets five consecutive entries: full_parse, signal_list, time_range, value_query, pipeline |
| VcdvcdBench.ValueQuery | benchmarks/python/bench_vcdvcd.py:86-118 | nothing when it returns early; otherwise for each of 10/50/100% the window counts of the spread signals |
| VcdvcdBench.Pipeline | benchmarks/python/bench_vcdvcd.py:121-154 | nothing when it returns early; otherwise each spread signal's count over the whole range |
| PylibfstBench.HandleToNameMeaning | benchmarks/python/bench_pylibfst.py:126-127 | the map's keys are exactly the chosen handles, and a handle maps to the last chosen name with that handle |
| PylibfstBench.HandleToNameSource | benchmarks/python/bench_pylibfst.py:127 | every mapped name is the name of a chosen signal with that handle |
| PylibfstBench.InitialCounts | benchmarks/python/bench_pylibfst.py:137 | one zero counter per mapped name |
| PylibfstBench.Tally | benchmarks/python/bench_pylibfst.py:139-145 | the callback never adds or removes a counter |
| PylibfstBench.TallyMeaning | benchmarks/python/bench_pylibfst.py:139-145 | each counter grows by exactly the number of in-window changes of a chosen handle named by it; the empty name never counts |
| PylibfstBench.IgnoredChange | benchmarks/python/bench_pylibfst.py:140 | a change of an unchosen handle or outside the window changes nothing |
| PylibfstBench.ChangeCounter.constructor | benchmarks/python/bench_pylibfst.py:126-139 | the callback closes over the chosen handles, the name map and the window, with all counters at zero |
| PylibfstBench.ChangeCounter.OnChange | benchmarks/python/bench_pylibfst.py:139-143 | one callback updates `collected` by one change |
| PylibfstBench.ChangeCounter.IterBlocks | benchmarks/python/bench_pylibfst.py:145 | iterating the delivered changes applies the callback to each in order |
| PylibfstBench.CountWindow | benchmarks/python/bench_pylibfst.py:129-146 | one pass with fresh counters yields the window's tally |
| PylibfstBench.ValueQuery | benchmarks/python/bench_pylibfst.py:101-149 | nothing when it returns early; otherwise the tally for each of 10/50/100% over the spread signals |
| PylibfstBench.Pipeline | benchmarks/python/bench_pylibfst.py:152-197 | nothing when it returns early; otherwise the tally over the whole range |
| PylibfstBench.WindowTallyMeaning | benchmarks/python/bench_pylibfst.py:126-146 | a chosen name's final count is the number of delivered in-window changes of a handle mapped to that name |
| PywellenBench.SuffixesExclusive | benchmarks/python/bench_pywellen.py:42-45 | a ".vcd" name never ends in ".fst", so the `elif` hides nothing |
| PywellenBench.FindWaveformFiles | benchmarks/python/bench_pywellen.py:33-46 | one pass gives the same VCD and FST lists as two suffix filters of the sorted listing |
| PywellenBench.RunBenchmark | benchmarks/python/bench_pywellen.py:309-400 | `run_benchmark` emits the document its specification function describes, with the handler restored |
| PywellenBench.PywellenShape | benchmarks/python/bench_pywellen.py:312-390 | a failed import gives one "import" error; no files gives one "find_files" error; otherwise five VCD tests per VCD file then five FST tests per FST file |
| PywellenBench.FirstPast | benchmarks/python/bench_pywellen.py:192-196 | the first position past the window end: every earlier change is inside, and the change there is past |
| PywellenBench.FirstPastAt | benchmarks/python/bench_pywellen.py:192-196 | any position with those two properties is the first past the end |
| PywellenBench.EarlyCountMeaning | benchmarks/python/bench_pywellen.py:187-197 | the early-break count counts the in-window changes before the first one past the end; on time-ordered changes it equals the full window count |
| PywellenBench.CountUntilPast | benchmarks/python/bench_pywellen.py:191-196 | the loop with `break` computes the early-break count |
| PywellenBench.EarlyRow | benchmarks/python/bench_pywellen.py:189-197 | one early-break count per chosen var |
| PywellenBench.ValueQuery | benchmarks/python/bench_pywellen.py:163-198 | nothing when it returns early; otherwise the early-break counts for each of 10/50/100% |
| PywellenBench.EarlyRowSorted | benchmarks/python/bench_pywellen.py:187-197 | on time-ordered changes the early-break rows equal the plain window rows |
| PywellenBench.Pipeline | benchmarks/python/bench_pywellen.py:234-261 | nothing when it returns early; otherwise each chosen var's count over the whole range, with no early break |
| RustBench.FailureOf | benchmarks/rust/src/main.rs:77-89 | a repetition leaves an error text exactly when it did not return `Ok` |
| RustBench.PeakFrom | benchmarks/rust/src/main.rs:37-44 | the peak read from the status lines fits in a u64 |
| RustBench.PeakMemoryKb | benchmarks/rust/src/main.rs:35-47 | an unreadable status file gives 0 |
| RustBench.ReadPeakMemory | benchmarks/rust/src/main.rs:35-47 | the scan loop computes that peak |
| RustBench.VmPeakLine | benchmarks/rust/src/main.rs:38-41 | a kernel line `VmPeak:\t<n> kB` yields `n` |
| RustBench.PeakSkip | benchmarks/rust/src/main.rs:37-44 | lines not starting with "VmPeak:" are skipped: the peak of them followed by any lines is the peak of those lines |
| RustBench.PeakOfStatusLine | benchmarks/rust/src/main.rs:37-44 | lines before the first VmPeak line do not matter |
| RustBench.PeakWithoutLine | benchmarks/rust/src/main.rs:37-46 | with no VmPeak line the peak is 0 |
| RustBench.SuccessTimesMeaning | benchmarks/rust/src/main.rs:98-114 | `times` holds one elapsed time per successful repetition, in order, and is empty iff none succeeded |
| RustBench.LastFailureMeaning | benchmarks/rust/src/main.rs:99-113 | `last_error` is empty iff every repetition succeeded; otherwise it is the error of the failure after which only successes follow |
| RustBench.BenchOfMeaning | benchmarks/rust/src/main.rs:94-148 | "ok" iff some repetition succeeded, and then the times and stats; otherwise zero stats, no times, the last failure as error, missing only for zero repetitions |
| RustBench.Benchmark | benchmarks/rust/src/main.rs:94-148 | `benchmark` builds exactly that record with the peak read after the loop |
| RustBench.Emit | benchmarks/rust/src/main.rs:150-156 | `emit` sets the four keys and leaves every other field as measured |
| RustBench.ToObj | benchmarks/rust/src/main.rs:150-156 | the printed JSON object is a flat record: `operation`, status, error, mean, stdev, peak memory carried over |
| RustBench.CountVars | benchmarks/rust/src/main.rs:162-172 | the recursive count equals the number of vars in the scope tree |
| RustBench.CollectCodes | benchmarks/rust/src/main.rs:174-182 | the codes are appended in preorder after the codes already there |
| RustBench.CountMatchesCollect | benchmarks/rust/src/main.rs:162-182 | the var count equals the number of codes collected |
| RustBench.ItemCountMatchesCollect | benchmarks/rust/src/main.rs:162-182 | the same for one scope item |
| RustBench.Truncate | benchmarks/rust/src/main.rs:343 | `truncate(n)` keeps the first `min(len, n)` entries |
| RustBench.QueryCodes | benchmarks/rust/src/main.rs:341-346 | "no signals to query" exactly when the header has no vars; otherwise the first `min(vars, 10)` codes in preorder |
| RustBench.SelectHandles | benchmarks/rust/src/main.rs:577-584 | the hierarchy callback keeps the first ten var handles |
| RustBench.ExtensionMeaning | benchmarks/rust/src/main.rs:755-760 | a name has extension `ext` iff it ends in "." + ext with a non-empty stem |
| RustBench.WithExtensionMeaning | benchmarks/rust/src/main.rs:752-762 | a path is kept iff it is a readable entry with that extension, joined to the directory |
| RustBench.DiscoverFiles | benchmarks/rust/src/main.rs:749-767 | `discover_files` returns the sorted VCD and FST lists its specification function describes |
| RustBench.DiscoveredMeaning | benchmarks/rust/src/main.rs:749-767 | each list is sorted and holds exactly the readable entries with that extension; an unreadable directory gives empty lists |
| RustBench.BenchLibrary | benchmarks/rust/src/main.rs:210-296 | one bench function prints its four operations in order |
| RustBench.BenchFiles | benchmarks/rust/src/main.rs:810-835 | the loop over one format's files prints each file's lines in turn |
| RustBench.Run | benchmarks/rust/src/main.rs:773-838 | `main` prints all VCD lines, then all FST lines, for the discovered files |
| RustBench.FileLinesAt | benchmarks/rust/src/main.rs:810-820 | line `4l + o` of a file is operation `o` of library `l` |
| RustBench.FormatLinesAt | benchmarks/rust/src/main.rs:810-835 | file `i` gets lines `12i` to `12i+11`: three libraries, four operations each |
| RustBench.LineOfKeys | benchmarks/rust/src/main.rs:150-154 | each printed line carries the library, format, file and operation it was run for |
| RunAll.RunSubprocess | benchmarks/run_all.py:43-63 | timeout gives -1 with a "TIMEOUT after" message, not found -2, other exceptions -3, all with empty stdout; a completed process passes through |
| RunAll.TimeoutCodeShared | benchmarks/run_all.py:54-57 | a process exiting with code -1 is indistinguishable from a timeout |
| RunAll.SentinelCodes | benchmarks/run_all.py:46-63 | codes below -3 only come from the process; the sentinels lie in -3..-1 with empty stdout |
| RunAll.EffectiveDataDir | benchmarks/run_all.py:164-166 | the scale subdirectory when it exists, else the data directory |
| RunAll.SubprocessTimeout | benchmarks/run_all.py:380 | a `--timeout` override wins; otherwise between 300 and 1200 seconds |
| RunAll.OutputName | benchmarks/run_all.py:162 | the output name ends in ".json" |
| RunAll.OutputNameOfVenv | benchmarks/run_all.py:162 | ".venv_x" gives "venv_x.json" |
| RunAll.FailureDoc | benchmarks/run_all.py:119-138 | a synthesised document holds exactly one failure record |
| RunAll.RunConfig | benchmarks/run_all.py:117-238 | one loop iteration adds exactly the entry its specification function describes |
| RunAll.PythonResultsLength | benchmarks/run_all.py:112-239 | at most one document per configuration |
| RunAll.RunPythonBenchmarks | benchmarks/run_all.py:112-239 | the loop collects each configuration's entry in order |
| RunAll.PythonResultsAppend | benchmarks/run_all.py:117-238 | configurations contribute in order, independently |
| RunAll.PythonResultsAt | benchmarks/run_all.py:117-238 | when each configuration contributes, document `k` is configuration `k`'s |
| RunAll.ConfigEntryCases | benchmarks/run_all.py:119-237 | missing script or venv gives one "setup" error; code -1 gives one "all" timeout; else a parsed output file unchanged, an unparsable one a "parse_output" error, a missing one only non-blank stdout |
| RunAll.RustTimeout | benchmarks/run_all.py:290-291 | the Rust per-repetition timeout lies between 60 and 300 seconds |
| RunAll.LineElem | benchmarks/run_all.py:342-349 | a line contributes exactly when its stripped text is non-blank and parses |
| RunAll.JsonLinesLength | benchmarks/run_all.py:340-349 | at most one element per line |
| RunAll.ParseJsonLines | benchmarks/run_all.py:340-349 | the loop collects the parsed elements of the lines in order |
| RunAll.JsonLinesAppend | benchmarks/run_all.py:340-349 | lines keep their order: two blocks parse to the concatenation |
| RunAll.JsonLinesMeaning | benchmarks/run_all.py:340-349 | an element is kept iff some line yields it |
| RunAll.RunRustBenchmarks | benchmarks/run_all.py:242-358 | `run_rust_benchmarks` returns what its specification function describes, `None` when starting the binary raises |
| RunAll.RustResultsCases | benchmarks/run_all.py:246-287 | no Cargo.toml or no binary gives nothing; a failed build gives one "build" error of "rust-all" |
| RunAll.Run | benchmarks/run_all.py:361-428 | `main` saves the combined document of the two parts |
| RunAll.CombinedShape | benchmarks/run_all.py:402-424 | the combined document has at most one entry per configured sampler, and skipped parts are empty lists |
| Report.FilesMembership | benchmarks/report.py:166 | a file is listed iff some record has it and it is non-empty |
| Report.MaxSize | benchmarks/report.py:171 | the size shown is some record's size and at least every record's |
| Report.MaxPositiveMean | benchmarks/report.py:189 | the maximum over the positive means is absent iff no mean is positive, and positive otherwise |
| Report.BarsAt | benchmarks/report.py:191-193 | chart line `k` is row `k`'s library, bar and formatted time |
| Report.ChartMeaning | benchmarks/report.py:188-195 | the chart agrees with the code wherever the code does not raise; it is drawn iff there are several rows and one has a positive mean; then empty bars are exactly the non-positive means and the slowest gets the full width |
| Report.UnmeasuredKept | benchmarks/report.py:162-168 | two ok full-parse records of the same file survive the section's three comprehensions unchanged |
| Report.ChartRaisesOnUnmeasuredFile | benchmarks/report.py:176-189 | for those two records the chart's `max` as written has nothing to take the maximum of |
| Report.BuildChart | benchmarks/report.py:188-195 | the chart loop computes the corrected chart |
| Report.BuildTable | benchmarks/report.py:168-195 | one file's table is its rows, size and chart |
| Report.BuildSection | benchmarks/report.py:160-195 | a section is one table per file |
| Report.RowsOrder | benchmarks/report.py:176 | positive means are ascending and a non-positive mean sorts as 9999 |
| Report.SectionFilesSorted | benchmarks/report.py:166 | a section's tables are in strictly ascending file order |
| Report.SectionTable | benchmarks/report.py:166-195 | a table's rows are exactly the section's ok records of its file, sorted by the key; sizes and charts only in the sections that show them |
| Report.TableRowsStable | benchmarks/report.py:176 | rows with equal sort keys (all unmeasured rows share 9999) keep the order of the records |
| Report.SectionCovers | benchmarks/report.py:162-177 | every record of the category with a file appears in that file's table |
| Report.LibraryKeysMeaning | benchmarks/report.py:294-298 | the "library (language)" keys are distinct and cover exactly the records' keys |
| Report.PositiveMeansPositive | benchmarks/report.py:299-300 | only positive means are averaged |
| Report.EntriesMeaning | benchmarks/report.py:302-306 | every entry belongs to a key and averages that key's positive means |
| Report.EntriesCover | benchmarks/report.py:302-306 | every key with a positive mean has an entry |
| Report.EntriesDistinct | benchmarks/report.py:302-306 | no library is ranked twice |
| Report.RankingAverages | benchmarks/report.py:292-308 | every ranked entry is its library's average over its positive means |
| Report.RankingDistinct | benchmarks/report.py:308 | the ranking is ascending by average and ranks no library twice |
| Report.RankingStable | benchmarks/report.py:308 | libraries with equal averages keep their first-seen order |
| Report.RankingCover | benchmarks/report.py:292-308 | a library is ranked iff one of its records has a positive mean |
| Report.SlowdownsAtLeastOne | benchmarks/report.py:317-323 | slowdowns are reported iff more than one library is ranked; every other library gets a ratio of at least 1 |
| Report.CollectTimes | benchmarks/report.py:293-300 | `lib_times` has a key for every library of the full-parse records, in first-seen order, holding exactly that library's positive means |
| Report.CollectStep | benchmarks/report.py:295-300 | one more record adds its key once, on first sight, with an empty list, and appends its mean to that key's times only when positive |
| Report.RankLibraries | benchmarks/report.py:292-308 | the ranking loop computes that ranking |
| Report.RankingScenario | benchmarks/report.py:292-323 | means 2.0, 1.0, 0 for A, B, C rank B then A, omit C, and report A as 2× slower |
| Report.FailureTable | benchmarks/report.py:327-336 | one row per failed record, in order, with the error cut to its first 80 characters |
| Report.BuildFailureTable | benchmarks/report.py:331-335 | the loop computes the failures table |
| Report.ErrorCellAsWritten | benchmarks/report.py:332 | the cell as written raises exactly for a null error, and is otherwise at most 80 characters |
| Report.ErrorCell | benchmarks/report.py:332 | the corrected cell is at most 80 characters, a prefix of a string error, empty otherwise, and agrees with the code wherever it does not raise |
| Report.ZeroRepetitionsBreakFailureTable | benchmarks/report.py:332 | a Rust result of zero repetitions is an error whose null error makes the cell as written raise |
| Report.LibrariesWithFormatMeaning | benchmarks/report.py:341-347 | a library is listed for a format family iff one of its ok records has a format of that family |
| Report.SummaryLibraries | benchmarks/report.py:341-347 | the summary loop computes both sets |
| Report.GenerateReport | benchmarks/report.py:147-359 | `generate_report` builds the report its specification function describes |
| Report.ReportCounts | benchmarks/report.py:153-157 | passed plus failed is the total, the ok and failed records together are exactly the records, and every failed record has one failures row |
| Report.ReportRanking | benchmarks/report.py:292 | the ranking section appears iff some ok record is a full-parse test |
| TestData.ConfigOf | benchmarks/generate_testdata.py:24-40 | a configuration exists exactly for "small", "medium" and "large" |
| TestData.ScalesToGenerate | benchmarks/generate_testdata.py:209 | "all" gives the three scales in order, any other choice itself |
| TestData.OnlyLargeIsDense | benchmarks/generate_testdata.py:90 | of the three scales only "large" uses the dense pattern |
| TestData.Width | benchmarks/generate_testdata.py:76-82 | every signal is 1, 8 or 32 bits wide |
| TestData.Widths | benchmarks/generate_testdata.py:76-86 | signal `i` has width `Width(i)` |
| TestData.DeclareSignals | benchmarks/generate_testdata.py:76-86 | the registration loop declares those widths |
| TestData.Modulus | benchmarks/generate_testdata.py:94 | the modulus is between 1 and `i + 1`: `i + 1` when sparse, `max(1, (i+1)//10)` when dense |
| TestData.Value | benchmarks/generate_testdata.py:96-99 | a value fits its width, a 1-bit value is 0 or 1, and every value at time 0 is 0 |
| TestData.FormatBinaryMeaning | benchmarks/generate_testdata.py:159 | `format(v, "0{w}b")` for `v < 2^w` has exactly `w` binary digits and denotes `v` |
| TestData.ZerosAreZero | benchmarks/generate_testdata.py:145 | `"0" * size` is the zero value written at `size` digits |
| TestData.GenerateVcd | benchmarks/generate_testdata.py:64-102 | the writer receives the declared widths and exactly the changes of the specification |
| TestData.StepChangesMeaning | benchmarks/generate_testdata.py:93-100 | a timestep's changes are exactly the due signals, with their values, in increasing signal order |
| TestData.VcdChangesMeaning | benchmarks/generate_testdata.py:91-100 | a change is written iff its timestamp is 10t for t below the step count, its signal is due at t, and it carries that value |
| TestData.VcdChangesAtZero | benchmarks/generate_testdata.py:91-100 | every signal changes to 0 at time 0 |
| TestData.VcdChangesOrdered | benchmarks/generate_testdata.py:91-100 | changes are ordered by time, then signal, and all lie before `10 × steps` |
| TestData.GenerateFst | benchmarks/generate_testdata.py:108-164 | no events when the writer cannot be created; otherwise exactly the events of the specification |
| TestData.FstValueMeaning | benchmarks/generate_testdata.py:155-159 | the FST text of a value has exactly `size` binary digits and denotes the value the VCD writer gets |
| TestData.InitialValuesMeaning | benchmarks/generate_testdata.py:143-145 | the initial events give every handle, in order, `size` zeros |
| TestData.FstStepEncodesVcd | benchmarks/generate_testdata.py:149-160 | FST step `t`'s value changes are, one for one, the binary texts of VCD step `t`'s changes |
| TestData.FstTimesMeaning | benchmarks/generate_testdata.py:143-151 | the time changes are 0, 10, 20, … one per step (just 0 for fewer than two steps), strictly increasing |

## Left out

- I/O is not modelled: file reads and writes, printing, JSON encoding and decoding, Markdown rendering, and `log` and `eprintln!` messages. The model states the document or records that would be written or printed.
- Clocks, `gc.collect`, `getrusage` and `/proc/self/status` are not modelled. Elapsed times and RSS readings are part of an `Attempt` or `Outcome` chosen by the environment. The status file is given as its lines.
- Threads and channels of `run_with_timeout` are left out: only the four outcomes it can return are modelled. POSIX signals appear only as the alarm and handler state of `Sampler.AlarmState`.
- The parser libraries are black boxes. The model keeps what the samplers count over:
  - signal names and change times;
  - the VCD scope tree;
  - FST handles as numbers;
  - the changes the FST reader delivers, after its process mask.
- The `_match_count` and change-count loops of the Rust value queries and pipelines are not modelled beyond choosing the signals. Their results are discarded.
- `statistics.stdev` and `f64::sqrt` are a square-root parameter applied to the sample variance. `round(t, 6)` and the other float formatting (`:.1f`, `:.2f`, `:.3f`) are not modelled. Exact reals stand for floats, so `int(span * pct)` is the floor of an exact product.
- PywellenBench.ValueQuery: takes the first and last entries of the time table as given. The `IndexError` an empty time table raises at `benchmarks/python/bench_pywellen.py:179-180` is not modelled. Like any exception in a test, it reaches the harness as a failed `Attempt`.
- Format.FormatTime: states the unit and the value the text stands for, not the digits printed.
- Format.SizeTextMeaning: states the unit and scaled value, not the printed digits.
- Format.FormatSize: states the unit and scaled value, not the printed digits.
- Format.FormatBytes: states the unit and scaled value, not the printed digits.
- Sampler.ScaleTimeout: the contract bounds the alarm between 60 and 300 seconds. The per-scale values are the table in its body.
- RunAll.RustTimeout: the contract bounds the value between 60 and 300 seconds. The per-scale values are in its body.
- RunAll.SubprocessTimeout: the contract states that the override wins and bounds the default between 300 and 1200. The per-scale values are in its body.
- RunAll.OutputName: the contract states only the ".json" suffix in general. `RunAll.OutputNameOfVenv` states the name for the configured venvs.
- Command-line parsing and environment variables are taken as given parameters:
  - `argparse` in all scripts;
  - `DATA_DIR`, `SCALE`, `REPS` and `TIMEOUT` of the Rust binary, with `REPS` 3 as `run_all.py` sets it, and any count as `reps` in `RustBench`.
- JSON `null` is read as an absent key by `Normalize`. The exception is `Report.ErrorCellAsWritten`, which keeps null apart to exhibit the failures-table finding. Values of the wrong JSON type are not modelled.
- The vcd-ng helpers `count_vcdng_vars` and `collect_vcdng_codes` (`benchmarks/rust/src/main.rs:184-204`) are the same code as the rust-vcd ones over another crate's types. The same members model both.
- `PathBuf` sorting is approximated by ordering path strings. Rust's `fs::read_dir` order is an arbitrary listing, which `discover_files` sorts anyway.
- Unicode whitespace is limited to what `RustSpace` and `PySpace` list.
- In `generate_testdata.py`, the following are left out:
  - `symlink_real_world`, the progress printing, and the scale labels;
  - the pyvcd writer's own output: `$dumpvars`, deduplication and text layout. The model records the calls the generator makes;
  - the FST writer's scope, timescale and close calls.
- In `run_all.py`, the following are left out:
  - `ensure_test_data`, `find_datagen_python` and the report step of `main`;
  - writing the raw `rust_bench.json`;
  - the `cwd` of each subprocess.
- RunAll.ParseJsonLines: takes the lines of `stdout.strip().split("\n")` as given. The split itself is not modelled.
- The "Key Takeaways" prose, the medal text and the date line of the report are fixed text and not modelled.
- The FST variants of pywellen's tests (`test_value_query_fst`, `test_pipeline_fst`) have the same code as the VCD variants. `PywellenBench.ValueQuery` and `PywellenBench.Pipeline` model both.

## Findings

| source | as written | input that shows it | evidently intended | confidence | as-written member | corrected member |
|---|---|---|---|---|---|---|
| benchmarks/report.py:188-189 | the bar chart takes `max` over the positive means whenever a file has more than one row | two ok full-parse records of one file whose `mean_s` are both 0 (for example, entries without `mean_s`): `max()` of an empty sequence raises `ValueError` and the report is not written | draw no chart when no mean is positive | medium, not executed | Report.ChartRaisesOnUnmeasuredFile | Report.ChartMeaning |
| benchmarks/report.py:332 | `r.get("error", "")[:80]` slices the stored error | a Rust `BenchResult` from zero repetitions (`REPS=0`): status "error" with `error` serialised as `null`, which `normalize_results` copies, so slicing `None` raises `TypeError` | an empty cell for a missing or null error | low (`run_all.py` always sets `REPS=3`), not executed | Report.ZeroRepetitionsBreakFailureTable | Report.ErrorCell |
