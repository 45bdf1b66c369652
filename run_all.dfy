/**
 * benchmarks/run_all.py: the orchestrator. It runs each configured Python
 * sampler in its own virtual environment and collects one document per
 * sampler, builds and runs the Rust sampler and collects its JSON lines, and
 * combines both into one document for the report. Processes, the file
 * system and the JSON parser are black boxes, given as a `Host`.
 */
module RunAll {
  import opened Wrappers
  import opened Text
  import opened Payload

  // ---------------------------------------------------------------------
  // run_subprocess
  // ---------------------------------------------------------------------

  /** What `subprocess.run` does: the process completes with its own return
      code, outlives the timeout, its program is not found, or something else
      raises. */
  datatype Proc = Completed(stdout: string, stderr: string, rc: int)
                | Expired
                | NotFound(message: string)
                | Crashed(message: string)

  /** `(stdout, stderr, returncode)` */
  datatype Captured = Captured(stdout: string, stderr: string, rc: int)

  /** `run_subprocess(cmd, cwd, timeout, description)`: exceptions become the
      codes -1 (timeout), -2 (not found) and -3 (anything else), with empty
      stdout; a completed process passes through. */
  function RunSubprocess(p: Proc, timeout: nat): (c: Captured)
    ensures p.Expired? ==> c == Captured("", "TIMEOUT after " + NatToString(timeout) + "s", -1)
    ensures p.NotFound? ==> c == Captured("", p.message, -2)
    ensures p.Crashed? ==> c == Captured("", p.message, -3)
    ensures p.Completed? ==> c == Captured(p.stdout, p.stderr, p.rc)
  {
    match p
    case Completed(out, err, rc) => Captured(out, err, rc)
    case Expired => Captured("", "TIMEOUT after " + NatToString(timeout) + "s", -1)
    case NotFound(e) => Captured("", e, -2)
    case Crashed(e) => Captured("", e, -3)
  }

  /** The sentinel codes are ordinary return codes too: a process that
      completes with code -1 (on POSIX, one killed by signal 1) is reported
      exactly like a timeout with the same stderr. */
  lemma TimeoutCodeShared(timeout: nat)
    ensures var msg := "TIMEOUT after " + NatToString(timeout) + "s";
            RunSubprocess(Completed("", msg, -1), timeout) == RunSubprocess(Expired, timeout)
  {
  }

  /** A negative code other than -1, -2, -3 can only come from the process. */
  lemma SentinelCodes(p: Proc, timeout: nat)
    ensures RunSubprocess(p, timeout).rc < -3 ==> p.Completed?
    ensures !p.Completed? ==> -3 <= RunSubprocess(p, timeout).rc <= -1 && RunSubprocess(p, timeout).stdout == ""
  {
  }

  // ---------------------------------------------------------------------
  // The host
  // ---------------------------------------------------------------------

  /** The data file and output file as they stand after a sampler ran. */
  datatype OutputFile = Missing | Parsed(doc: Obj) | Unparsable(message: string)

  /** What the Rust binary is started with: `DATA_DIR`, `TIMEOUT`, `REPS`. */
  datatype RustInvocation = RustInvocation(dataDir: string, timeout: nat, reps: string)

  /** The outside world: the directory holding run_all.py, which paths exist
      and are directories, what each command does under a timeout, the
      output files, and what the JSON parser makes of a text. */
  datatype Host = Host(
    benchDir: string,
    pathExists: string -> bool,
    isDir: string -> bool,
    run: (seq<string>, nat) -> Proc,
    runRust: (string, RustInvocation, nat) -> Proc,
    outputFile: string -> OutputFile,
    parseDoc: string -> Option<Obj>,
    parseLine: string -> Option<Elem>)

  function DataDir(h: Host): string { Join(h.benchDir, "data") }
  function PythonDir(h: Host): string { Join(h.benchDir, "python") }
  function RustDir(h: Host): string { Join(h.benchDir, "rust") }
  function ResultsDir(h: Host): string { Join(h.benchDir, "results") }

  /** The scale's subdirectory of the data directory when there is one, else
      the data directory itself. */
  function EffectiveDataDir(h: Host, scale: string): (d: string)
    ensures h.isDir(Join(DataDir(h), scale)) ==> d == Join(DataDir(h), scale)
    ensures !h.isDir(Join(DataDir(h), scale)) ==> d == DataDir(h)
  {
    var scaleDir := Join(DataDir(h), scale);
    if h.isDir(scaleDir) then scaleDir else DataDir(h)
  }

  // ---------------------------------------------------------------------
  // run_python_benchmarks
  // ---------------------------------------------------------------------

  /** `(script_name, venv_name, description)` */
  datatype Config = Config(script: string, venv: string, description: string)

  const PythonBenchmarks: seq<Config> := [
    Config("bench_vcdvcd.py", ".venv_vcdvcd", "vcdvcd (Python VCD)"),
    Config("bench_pylibfst.py", ".venv_pylibfst", "pylibfst (Python FST)"),
    Config("bench_pywellen.py", ".venv_pywellen", "pywellen (Python VCD+FST)")
  ]

  /** `SCALE_TIMEOUTS.get(scale, 600)`, or the `--timeout` override when it is
      not 0. */
  function SubprocessTimeout(scale: string, override: nat): (t: nat)
    ensures override != 0 ==> t == override
    ensures override == 0 ==> 300 <= t <= 1200
  {
    if override != 0 then override
    else if scale == "small" then 300
    else if scale == "medium" then 600
    else if scale == "large" then 1200
    else 600
  }

  /** The name of a sampler's output file: the venv name without leading or
      trailing dots, plus ".json". */
  function OutputName(venv: string): (name: string)
    ensures EndsWith(name, ".json")
  {
    var base := Strip(venv, {'.'});
    assert (base + ".json")[|base|..] == ".json";
    base + ".json"
  }

  /** The configured venv names ".venv_<name>" give "<name>" files:
      ".venv_vcdvcd" writes "venv_vcdvcd.json". */
  lemma OutputNameOfVenv(w: string)
    requires w != [] && w[0] != '.' && w[|w| - 1] != '.'
    ensures OutputName("." + w) == w + ".json"
  {
    assert ("." + w)[1..] == w;
    assert TrimLeft(w, {'.'}) == w;
  }

  /** A synthesised wrapper holding one failure record of the sampler. */
  function FailureDoc(library: string, format: string, test: string, scale: string, status: string,
                      error: string): (d: Obj)
    ensures d.library == Some(library) && d.format == Some(format)
    ensures d.results == Some([FailureEntry(test, scale, status, error)])
  {
    Wrapper(library, format, [FailureEntry(test, scale, status, error)])
  }

  function ScriptPath(h: Host, cfg: Config): string { Join(PythonDir(h), cfg.script) }
  function VenvPython(h: Host, cfg: Config): string { Join(Join(Join(PythonDir(h), cfg.venv), "bin"), "python") }
  function OutputPath(h: Host, cfg: Config): string { Join(ResultsDir(h), OutputName(cfg.venv)) }

  /** The sampler's command line. */
  function SamplerCommand(h: Host, cfg: Config, scale: string): seq<string> {
    [VenvPython(h, cfg), ScriptPath(h, cfg), "--data-dir", EffectiveDataDir(h, scale),
     "--scale", scale, "--output", OutputPath(h, cfg)]
  }

  /** What one configured sampler adds to `all_results`, if anything. */
  function ConfigEntry(h: Host, cfg: Config, scale: string, timeout: nat): Option<Obj> {
    if !h.pathExists(ScriptPath(h, cfg)) then
      Some(FailureDoc(cfg.description, "unknown", "setup", scale, "error", "Script not found: " + ScriptPath(h, cfg)))
    else if !h.pathExists(VenvPython(h, cfg)) then
      Some(FailureDoc(cfg.description, "unknown", "setup", scale, "error",
                      "venv not found: " + VenvPython(h, cfg) + ". Run setup_envs.sh first."))
    else
      var c := RunSubprocess(h.run(SamplerCommand(h, cfg, scale), timeout), timeout);
      if c.rc == -1 then
        Some(FailureDoc(cfg.description, "unknown", "all", scale, "timeout",
                        "Subprocess timed out after " + NatToString(timeout) + "s"))
      else match h.outputFile(OutputPath(h, cfg))
        case Parsed(doc) => Some(doc)
        case Unparsable(e) =>
          Some(FailureDoc(cfg.description, "unknown", "parse_output", scale, "error", "JSON parse error: " + e))
        case Missing =>
          if Strip(c.stdout, PySpace) != [] then h.parseDoc(c.stdout) else None
  }

  /** The loop body of `run_python_benchmarks` for one configuration. */
  method RunConfig(h: Host, cfg: Config, scale: string, timeout: nat) returns (entry: Option<Obj>)
    ensures entry == ConfigEntry(h, cfg, scale, timeout)
  {
    var scriptPath := Join(PythonDir(h), cfg.script);
    if !h.pathExists(scriptPath) {
      return Some(FailureDoc(cfg.description, "unknown", "setup", scale, "error", "Script not found: " + scriptPath));
    }
    var venvPython := Join(Join(Join(PythonDir(h), cfg.venv), "bin"), "python");
    if !h.pathExists(venvPython) {
      return Some(FailureDoc(cfg.description, "unknown", "setup", scale, "error",
                             "venv not found: " + venvPython + ". Run setup_envs.sh first."));
    }
    var outputFile := Join(ResultsDir(h), OutputName(cfg.venv));
    var scaleDataDir := Join(DataDir(h), scale);
    var effectiveDataDir := if h.isDir(scaleDataDir) then scaleDataDir else DataDir(h);
    var cmd := [venvPython, scriptPath, "--data-dir", effectiveDataDir, "--scale", scale, "--output", outputFile];
    var c := RunSubprocess(h.run(cmd, timeout), timeout);
    if c.rc == -1 {
      entry := Some(FailureDoc(cfg.description, "unknown", "all", scale, "timeout",
                               "Subprocess timed out after " + NatToString(timeout) + "s"));
    } else if h.outputFile(outputFile).Parsed? {
      entry := Some(h.outputFile(outputFile).doc);
    } else if h.outputFile(outputFile).Unparsable? {
      entry := Some(FailureDoc(cfg.description, "unknown", "parse_output", scale, "error",
                               "JSON parse error: " + h.outputFile(outputFile).message));
    } else if Strip(c.stdout, PySpace) != [] {
      entry := h.parseDoc(c.stdout);
    } else {
      entry := None;
    }
  }

  /** `all_results` after the configurations `cfgs`. */
  function PythonResults(h: Host, cfgs: seq<Config>, scale: string, timeout: nat): (r: seq<Obj>)
  {
    if cfgs == [] then []
    else
      var e := ConfigEntry(h, cfgs[|cfgs| - 1], scale, timeout);
      PythonResults(h, cfgs[..|cfgs| - 1], scale, timeout) + (if e.Some? then [e.value] else [])
  }

  /** `run_python_benchmarks(scale, timeout)` over the configurations. */
  method RunPythonBenchmarks(h: Host, cfgs: seq<Config>, scale: string, timeout: nat) returns (allResults: seq<Obj>)
    ensures allResults == PythonResults(h, cfgs, scale, timeout)
  {
    allResults := [];
    var k := 0;
    while k < |cfgs|
      invariant k <= |cfgs|
      invariant allResults == PythonResults(h, cfgs[..k], scale, timeout)
    {
      assert cfgs[..k + 1][..k] == cfgs[..k];
      var entry := RunConfig(h, cfgs[k], scale, timeout);
      if entry.Some? {
        allResults := allResults + [entry.value];
      }
      k := k + 1;
    }
    assert cfgs[..|cfgs|] == cfgs;
  }

  /** At most one document per configuration. */
  lemma {:induction false} PythonResultsLength(h: Host, cfgs: seq<Config>, scale: string, timeout: nat)
    ensures |PythonResults(h, cfgs, scale, timeout)| <= |cfgs|
  {
    if cfgs != [] {
      PythonResultsLength(h, cfgs[..|cfgs| - 1], scale, timeout);
    }
  }

  /** Each configuration's contribution follows the previous ones': the
      results for two runs of configurations are the two lists joined. */
  lemma {:induction false} PythonResultsAppend(h: Host, a: seq<Config>, b: seq<Config>, scale: string, timeout: nat)
    ensures PythonResults(h, a + b, scale, timeout) == PythonResults(h, a, scale, timeout) + PythonResults(h, b, scale, timeout)
  {
    if b != [] {
      var n := |b|;
      assert (a + b)[..|a + b| - 1] == a + b[..n - 1];
      PythonResultsAppend(h, a, b[..n - 1], scale, timeout);
    } else {
      assert a + b == a;
    }
  }

  /** When every configuration contributes, result `k` is configuration `k`'s. */
  lemma {:induction false} PythonResultsAt(h: Host, cfgs: seq<Config>, scale: string, timeout: nat)
    requires forall k :: 0 <= k < |cfgs| ==> ConfigEntry(h, cfgs[k], scale, timeout).Some?
    ensures |PythonResults(h, cfgs, scale, timeout)| == |cfgs|
    ensures forall k :: 0 <= k < |cfgs| ==>
              PythonResults(h, cfgs, scale, timeout)[k] == ConfigEntry(h, cfgs[k], scale, timeout).value
  {
    if cfgs != [] {
      var n := |cfgs|;
      var pre := cfgs[..n - 1];
      forall k | 0 <= k < n - 1
        ensures ConfigEntry(h, pre[k], scale, timeout).Some?
      {
        assert pre[k] == cfgs[k];
      }
      PythonResultsAt(h, pre, scale, timeout);
      var e := ConfigEntry(h, cfgs[n - 1], scale, timeout);
      assert e.Some?;
      var before := PythonResults(h, pre, scale, timeout);
      var r := PythonResults(h, cfgs, scale, timeout);
      assert r == before + [e.value];
      assert |before| == n - 1;
      forall k | 0 <= k < n
        ensures r[k] == ConfigEntry(h, cfgs[k], scale, timeout).value
      {
        if k < n - 1 {
          assert r[k] == before[k];
          assert pre[k] == cfgs[k];
        } else {
          assert r[k] == e.value;
        }
      }
    }
  }

  /** The outcome classification: a missing script or venv gives one "setup"
      error without running anything; a timeout code gives one "all" timeout
      record, whatever the output file holds; otherwise a readable output file
      is taken unchanged, an unreadable one gives one "parse_output" error,
      and without one only non-blank stdout can contribute. */
  lemma ConfigEntryCases(h: Host, cfg: Config, scale: string, timeout: nat)
    ensures var e := ConfigEntry(h, cfg, scale, timeout);
            !h.pathExists(ScriptPath(h, cfg)) ==>
              e.Some? && e.value.library == Some(cfg.description) && e.value.format == Some("unknown")
              && e.value.results == Some([FailureEntry("setup", scale, "error", "Script not found: " + ScriptPath(h, cfg))])
    ensures var e := ConfigEntry(h, cfg, scale, timeout);
            h.pathExists(ScriptPath(h, cfg)) && !h.pathExists(VenvPython(h, cfg)) ==>
              e.Some? && e.value.results.Some? && |e.value.results.value| == 1
              && e.value.results.value[0].test == Some("setup")
    ensures var e := ConfigEntry(h, cfg, scale, timeout);
            var c := RunSubprocess(h.run(SamplerCommand(h, cfg, scale), timeout), timeout);
            h.pathExists(ScriptPath(h, cfg)) && h.pathExists(VenvPython(h, cfg)) ==>
              && (c.rc == -1 ==>
                    e.Some? && e.value.results.Some? && |e.value.results.value| == 1
                    && e.value.results.value[0].test == Some("all")
                    && e.value.results.value[0].status == Some("timeout"))
              && (c.rc != -1 && h.outputFile(OutputPath(h, cfg)).Parsed? ==>
                    e == Some(h.outputFile(OutputPath(h, cfg)).doc))
              && (c.rc != -1 && h.outputFile(OutputPath(h, cfg)).Unparsable? ==>
                    e.Some? && e.value.results.Some? && |e.value.results.value| == 1
                    && e.value.results.value[0].test == Some("parse_output"))
              && (c.rc != -1 && h.outputFile(OutputPath(h, cfg)).Missing? ==>
                    (e.Some? ==> Strip(c.stdout, PySpace) != [] && e == h.parseDoc(c.stdout)))
  {
  }

  // ---------------------------------------------------------------------
  // run_rust_benchmarks
  // ---------------------------------------------------------------------

  /** `scale_timeout_map.get(scale, 120)`: the per-repetition timeout the
      Rust sampler is given. */
  function RustTimeout(scale: string): (t: nat)
    ensures 60 <= t <= 300
  {
    if scale == "small" then 60
    else if scale == "medium" then 120
    else if scale == "large" then 300
    else 120
  }

  /** `str(n)` for an integer. */
  function IntToString(i: int): string {
    if i < 0 then "-" + NatToString(-i) else NatToString(i)
  }

  /** What one line of stdout yields: the parse of the stripped line, unless
      it is blank or does not parse. */
  function LineElem(line: string, parse: string -> Option<Elem>): (r: Option<Elem>)
    ensures r.Some? ==> Strip(line, PySpace) != [] && r == parse(Strip(line, PySpace))
    ensures r.None? ==> Strip(line, PySpace) == [] || parse(Strip(line, PySpace)).None?
  {
    var t := Strip(line, PySpace);
    if t != [] then parse(t) else None
  }

  /** The elements parsed from the non-blank lines of the Rust sampler's
      stdout, in order; lines that do not parse are skipped. */
  function JsonLines(lines: seq<string>, parse: string -> Option<Elem>): seq<Elem> {
    if lines == [] then []
    else
      var e := LineElem(lines[|lines| - 1], parse);
      JsonLines(lines[..|lines| - 1], parse) + (if e.Some? then [e.value] else [])
  }

  /** At most one element per line. */
  lemma {:induction false} JsonLinesLength(lines: seq<string>, parse: string -> Option<Elem>)
    ensures |JsonLines(lines, parse)| <= |lines|
  {
    if lines != [] {
      JsonLinesLength(lines[..|lines| - 1], parse);
    }
  }

  /** The loop over `stdout.strip().split("\n")`. */
  method ParseJsonLines(lines: seq<string>, parse: string -> Option<Elem>) returns (rustResults: seq<Elem>)
    ensures rustResults == JsonLines(lines, parse)
  {
    rustResults := [];
    var k := 0;
    while k < |lines|
      invariant k <= |lines|
      invariant rustResults == JsonLines(lines[..k], parse)
    {
      assert lines[..k + 1][..k] == lines[..k];
      var line := Strip(lines[k], PySpace);
      k := k + 1;
      if line == [] {
        continue;
      }
      var obj := parse(line);
      if obj.Some? {
        rustResults := rustResults + [obj.value];
      }
    }
    assert lines[..|lines|] == lines;
  }

  /** Lines keep their order: the elements of two blocks of lines are the
      elements of the first block, then those of the second. */
  lemma {:induction false} JsonLinesAppend(a: seq<string>, b: seq<string>, parse: string -> Option<Elem>)
    ensures JsonLines(a + b, parse) == JsonLines(a, parse) + JsonLines(b, parse)
  {
    if b != [] {
      var n := |b|;
      assert (a + b)[..|a + b| - 1] == a + b[..n - 1];
      assert (a + b)[|a + b| - 1] == b[n - 1];
      JsonLinesAppend(a, b[..n - 1], parse);
    } else {
      assert a + b == a;
    }
  }

  /** An element is kept exactly when some non-blank line parses to it. */
  lemma {:induction false} JsonLinesMeaning(lines: seq<string>, parse: string -> Option<Elem>, e: Elem)
    ensures e in JsonLines(lines, parse) <==> exists k :: 0 <= k < |lines| && LineElem(lines[k], parse) == Some(e)
  {
    if lines != [] {
      var n := |lines|;
      var pre := lines[..n - 1];
      JsonLinesMeaning(pre, parse, e);
      var last := LineElem(lines[n - 1], parse);
      var tail := if last.Some? then [last.value] else [];
      assert JsonLines(lines, parse) == JsonLines(pre, parse) + tail;
      if e in JsonLines(lines, parse) {
        if e in JsonLines(pre, parse) {
          var k :| 0 <= k < n - 1 && LineElem(pre[k], parse) == Some(e);
          assert lines[k] == pre[k];
        } else {
          assert LineElem(lines[n - 1], parse) == Some(e);
        }
      }
      if exists k :: 0 <= k < n && LineElem(lines[k], parse) == Some(e) {
        var k :| 0 <= k < n && LineElem(lines[k], parse) == Some(e);
        if k < n - 1 {
          assert pre[k] == lines[k];
        }
      }
    }
  }

  function CargoToml(h: Host): string { Join(RustDir(h), "Cargo.toml") }
  function RustBinary(h: Host): string { Join(Join(Join(RustDir(h), "target"), "release"), "wave-bench") }

  const BuildCommand: seq<string> := ["cargo", "build", "--release"]
  const BuildTimeout: nat := 300

  /** What `run_rust_benchmarks` returns, or `None` when running the binary
      raises something other than a timeout (which `run_all.py` does not
      catch). */
  function RustResults(h: Host, scale: string, timeout: nat): Option<seq<Elem>> {
    if !h.pathExists(CargoToml(h)) then Some([])
    else
      var build := RunSubprocess(h.run(BuildCommand, BuildTimeout), BuildTimeout);
      if build.rc != 0 then
        Some([Dict(FailureDoc("rust-all", "mixed", "build", scale, "error",
                              "cargo build failed (rc=" + IntToString(build.rc) + ")"))])
      else if !h.pathExists(RustBinary(h)) then Some([])
      else
        match h.runRust(RustBinary(h), RustInvocation(EffectiveDataDir(h, scale), RustTimeout(scale), "3"), timeout)
        case Expired =>
          Some([Dict(FailureDoc("rust-all", "mixed", "all", scale, "timeout",
                                "Rust benchmark timed out after " + NatToString(timeout) + "s"))])
        case Completed(out, _, _) => Some(JsonLines(Split(Strip(out, PySpace), '\n'), h.parseLine))
        case NotFound(_) => None
        case Crashed(_) => None
  }

  /** `run_rust_benchmarks(scale, timeout)` */
  method RunRustBenchmarks(h: Host, scale: string, timeout: nat) returns (r: Option<seq<Elem>>)
    ensures r == RustResults(h, scale, timeout)
  {
    if !h.pathExists(Join(RustDir(h), "Cargo.toml")) {
      return Some([]);
    }
    var build := RunSubprocess(h.run(["cargo", "build", "--release"], 300), 300);
    if build.rc != 0 {
      return Some([Dict(FailureDoc("rust-all", "mixed", "build", scale, "error",
                                   "cargo build failed (rc=" + IntToString(build.rc) + ")"))]);
    }
    var binary := Join(Join(Join(RustDir(h), "target"), "release"), "wave-bench");
    if !h.pathExists(binary) {
      return Some([]);
    }
    var invocation := RustInvocation(EffectiveDataDir(h, scale), RustTimeout(scale), "3");
    var p := h.runRust(binary, invocation, timeout);
    if p.Expired? {
      return Some([Dict(FailureDoc("rust-all", "mixed", "all", scale, "timeout",
                                   "Rust benchmark timed out after " + NatToString(timeout) + "s"))]);
    } else if !p.Completed? {
      return None;
    }
    var lines := Split(Strip(p.stdout, PySpace), '\n');
    var rustResults := ParseJsonLines(lines, h.parseLine);
    return Some(rustResults);
  }

  /** No Cargo.toml or no binary gives nothing; a failed build gives exactly
      one "build" error of "rust-all" and the binary is not run. */
  lemma RustResultsCases(h: Host, scale: string, timeout: nat)
    ensures !h.pathExists(CargoToml(h)) ==> RustResults(h, scale, timeout) == Some([])
    ensures var build := RunSubprocess(h.run(BuildCommand, BuildTimeout), BuildTimeout);
            h.pathExists(CargoToml(h)) && build.rc != 0 ==>
              var r := RustResults(h, scale, timeout);
              && r.Some? && |r.value| == 1 && r.value[0].Dict?
              && r.value[0].obj.library == Some("rust-all")
              && r.value[0].obj.results.Some? && |r.value[0].obj.results.value| == 1
              && r.value[0].obj.results.value[0].test == Some("build")
              && r.value[0].obj.results.value[0].status == Some("error")
    ensures var build := RunSubprocess(h.run(BuildCommand, BuildTimeout), BuildTimeout);
            h.pathExists(CargoToml(h)) && build.rc == 0 && !h.pathExists(RustBinary(h)) ==>
              RustResults(h, scale, timeout) == Some([])
  {
  }

  // ---------------------------------------------------------------------
  // main
  // ---------------------------------------------------------------------

  /** The combined document `main` saves, or `None` when the Rust run
      raised; `timestamp` is the wall-clock text. */
  function CombinedOf(h: Host, scale: string, override: nat, skipPython: bool, skipRust: bool,
                      timestamp: string): Option<Combined> {
    var timeout := SubprocessTimeout(scale, override);
    var python := if skipPython then [] else PythonResults(h, PythonBenchmarks, scale, timeout);
    var rust := if skipRust then Some([]) else RustResults(h, scale, timeout);
    if rust.None? then None
    else Some(Combined(Some(scale), Some(timestamp), Some(python), Some(rust.value)))
  }

  /** `main()` from the saved document's point of view. */
  method Run(h: Host, scale: string, override: nat, skipPython: bool, skipRust: bool, timestamp: string)
    returns (combined: Option<Combined>)
    ensures combined == CombinedOf(h, scale, override, skipPython, skipRust, timestamp)
  {
    var timeout := if override != 0 then override else SubprocessTimeout(scale, 0);
    var pythonResults: seq<Obj> := [];
    if !skipPython {
      pythonResults := RunPythonBenchmarks(h, PythonBenchmarks, scale, timeout);
    }
    var rustResults: seq<Elem> := [];
    if !skipRust {
      var r := RunRustBenchmarks(h, scale, timeout);
      if r.None? {
        return None;
      }
      rustResults := r.value;
    }
    combined := Some(Combined(Some(scale), Some(timestamp), Some(pythonResults), Some(rustResults)));
  }

  /** The combined document has one entry per configured sampler at most, in
      configuration order, and skipped parts are empty lists. */
  lemma CombinedShape(h: Host, scale: string, override: nat, skipPython: bool, skipRust: bool, timestamp: string)
    ensures var c := CombinedOf(h, scale, override, skipPython, skipRust, timestamp);
            c.Some? ==>
              && c.value.scale == Some(scale) && c.value.pythonResults.Some? && c.value.rustResults.Some?
              && |c.value.pythonResults.value| <= |PythonBenchmarks|
              && (skipPython ==> c.value.pythonResults.value == [])
              && (skipRust ==> c.value.rustResults.value == [])
    ensures skipRust ==> CombinedOf(h, scale, override, skipPython, skipRust, timestamp).Some?
  {
    PythonResultsLength(h, PythonBenchmarks, scale, SubprocessTimeout(scale, override));
  }
}
