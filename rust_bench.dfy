/**
 * benchmarks/rust/src/main.rs: the Rust sampler. Each benchmark closure is
 * run `reps` times through `run_with_timeout`; `benchmark` keeps the times of
 * the repetitions that succeeded and remembers the last failure; `emit`
 * stamps the record with its keys and prints it as one JSON line. The parser
 * libraries are black boxes: what the model keeps of them is the scope tree
 * of a VCD header, the list of FST vars, and the outcome of each repetition.
 */
module RustBench {
  import opened Wrappers
  import opened Rows
  import opened Text
  import opened Payload
  import opened Stats

  // ---------------------------------------------------------------------
  // run_with_timeout
  // ---------------------------------------------------------------------

  /** What one repetition comes to: the closure returned `Ok(())` after
      `elapsed` seconds, returned `Err(message)`, panicked (with a `&str` or
      `String` payload, or another payload), or outlived the timeout. */
  datatype Outcome = Returned(elapsed: real) | ReturnedError(message: string) | Panicked(payload: Option<string>) | TimedOut

  /** The error text a failed repetition leaves in `last_error`; nothing for a
      success. */
  function FailureOf(o: Outcome): (m: Option<string>)
    ensures m.None? <==> o.Returned?
  {
    match o
    case Returned(_) => None
    case ReturnedError(e) => Some(e)
    case Panicked(Some(p)) => Some("panic: " + p)
    case Panicked(None) => Some("panic: unknown panic")
    case TimedOut => Some("timeout")
  }

  // ---------------------------------------------------------------------
  // get_peak_memory_kb
  // ---------------------------------------------------------------------

  /** The peak from the lines of /proc/self/status, from the first line that
      starts with "VmPeak:" and has a second token on: that token parsed as a
      u64, or 0 when it does not parse. A "VmPeak:" line with one token is
      passed over. */
  function PeakFrom(lines: seq<string>): (kb: nat)
    ensures kb < U64Limit
  {
    if lines == [] then 0
    else
      var parts := Tokens(lines[0], RustSpace);
      if StartsWith(lines[0], "VmPeak:") && |parts| >= 2 then ParseU64(parts[1]).GetOr(0)
      else PeakFrom(lines[1..])
  }

  /** `get_peak_memory_kb()`: `status` is the file's lines, or `None` when it
      cannot be read. */
  function PeakMemoryKb(status: Option<seq<string>>): (kb: nat)
    ensures kb < U64Limit
    ensures status.None? ==> kb == 0
  {
    if status.None? then 0 else PeakFrom(status.value)
  }

  /** The loop over `content.lines()`. */
  method ReadPeakMemory(status: Option<seq<string>>) returns (kb: nat)
    ensures kb == PeakMemoryKb(status)
  {
    if status.None? {
      return 0;
    }
    var lines := status.value;
    var k := 0;
    while k < |lines|
      invariant k <= |lines|
      invariant PeakFrom(lines[k..]) == PeakFrom(lines)
    {
      assert lines[k..][1..] == lines[k + 1..];
      if StartsWith(lines[k], "VmPeak:") {
        var parts := Tokens(lines[k], RustSpace);
        if |parts| >= 2 {
          return ParseU64(parts[1]).GetOr(0);
        }
      }
      k := k + 1;
    }
    return 0;
  }

  /** The tokens of a kernel line `VmPeak:<tab><digits> kB`. */
  lemma VmPeakTokens(digits: string)
    requires digits != [] && AllDigits(digits)
    ensures var parts := Tokens("VmPeak:" + "\t" + (digits + " " + "kB"), RustSpace);
            |parts| >= 2 && parts[1] == digits
  {
    var head := "VmPeak:";
    assert forall c :: c in head ==> c !in RustSpace by {
      forall c | c in head ensures c !in RustSpace {
        var i :| 0 <= i < |head| && head[i] == c;
      }
    }
    assert forall c :: c in digits ==> c !in RustSpace by {
      forall c | c in digits ensures c !in RustSpace {
        var i :| 0 <= i < |digits| && digits[i] == c;
        assert IsDigit(digits[i]);
      }
    }
    TokensCons(head, "\t", digits + " " + "kB", RustSpace);
    TokensCons(digits, " ", "kB", RustSpace);
  }

  /** A kernel line `VmPeak:<tab><n> kB` yields `n`. */
  lemma VmPeakLine(n: nat, after: seq<string>)
    requires n < U64Limit
    ensures PeakFrom(["VmPeak:\t" + NatToString(n) + " kB"] + after) == n
  {
    var digits := NatToString(n);
    var line := "VmPeak:\t" + digits + " kB";
    assert line == "VmPeak:" + "\t" + (digits + " " + "kB");
    VmPeakTokens(digits);
    assert line[..7] == "VmPeak:";
    ParseNatToString(n);
    assert ([line] + after)[0] == line;
  }

  /** Lines that do not start with "VmPeak:" are skipped. */
  lemma {:induction false} PeakSkip(before: seq<string>, rest: seq<string>)
    requires forall k :: 0 <= k < |before| ==> !StartsWith(before[k], "VmPeak:")
    ensures PeakFrom(before + rest) == PeakFrom(rest)
  {
    if before != [] {
      assert (before + rest)[1..] == before[1..] + rest;
      assert (before + rest)[0] == before[0];
      PeakSkip(before[1..], rest);
    } else {
      assert before + rest == rest;
    }
  }

  /** Lines before the first "VmPeak:" line do not matter. */
  lemma PeakOfStatusLine(before: seq<string>, n: nat, after: seq<string>)
    requires n < U64Limit
    requires forall k :: 0 <= k < |before| ==> !StartsWith(before[k], "VmPeak:")
    ensures PeakFrom(before + ["VmPeak:\t" + NatToString(n) + " kB"] + after) == n
  {
    var rest := ["VmPeak:\t" + NatToString(n) + " kB"] + after;
    assert before + ["VmPeak:\t" + NatToString(n) + " kB"] + after == before + rest;
    PeakSkip(before, rest);
    VmPeakLine(n, after);
  }

  /** Without a "VmPeak:" line the peak is 0. */
  lemma {:induction false} PeakWithoutLine(lines: seq<string>)
    requires forall k :: 0 <= k < |lines| ==> !StartsWith(lines[k], "VmPeak:")
    ensures PeakFrom(lines) == 0
  {
    if lines != [] {
      PeakWithoutLine(lines[1..]);
    }
  }

  // ---------------------------------------------------------------------
  // benchmark
  // ---------------------------------------------------------------------

  /** `BenchResult`, with `stdev` as printed. */
  datatype BenchResult = BenchResult(library: string, format: string, file: string, operation: string,
                                     times: seq<real>, mean: real, min: real, max: real, stdev: real,
                                     peakMemoryKb: nat, status: string, error: Option<string>)

  /** The times pushed by successful repetitions, in order. */
  function SuccessTimes(outcomes: seq<Outcome>): (times: seq<real>)
    ensures |times| <= |outcomes|
  {
    if outcomes == [] then []
    else
      var last := outcomes[|outcomes| - 1];
      SuccessTimes(outcomes[..|outcomes| - 1]) + (if last.Returned? then [last.elapsed] else [])
  }

  /** How many repetitions succeeded. */
  function Successes(outcomes: seq<Outcome>): nat {
    if outcomes == [] then 0
    else Successes(outcomes[..|outcomes| - 1]) + (if outcomes[|outcomes| - 1].Returned? then 1 else 0)
  }

  /** The value of `last_error` after the loop. */
  function LastFailure(outcomes: seq<Outcome>): Option<string> {
    if outcomes == [] then None
    else if outcomes[|outcomes| - 1].Returned? then LastFailure(outcomes[..|outcomes| - 1])
    else FailureOf(outcomes[|outcomes| - 1])
  }

  /** `times` holds one entry per successful repetition, and the successful
      repetition at position `k` put its elapsed time right after the ones of
      the successes before it: only successes, all of them, in order. */
  lemma {:induction false} SuccessTimesMeaning(outcomes: seq<Outcome>)
    ensures |SuccessTimes(outcomes)| == Successes(outcomes)
    ensures SuccessTimes(outcomes) == [] <==> forall k :: 0 <= k < |outcomes| ==> !outcomes[k].Returned?
    ensures forall k :: 0 <= k < |outcomes| && outcomes[k].Returned? ==>
              Successes(outcomes[..k]) < |SuccessTimes(outcomes)|
              && SuccessTimes(outcomes)[Successes(outcomes[..k])] == outcomes[k].elapsed
  {
    if outcomes != [] {
      var n := |outcomes|;
      var pre := outcomes[..n - 1];
      SuccessTimesMeaning(pre);
      assert forall k :: 0 <= k < n - 1 ==> pre[k] == outcomes[k];
      forall k | 0 <= k < n && outcomes[k].Returned?
        ensures Successes(outcomes[..k]) < |SuccessTimes(outcomes)|
        ensures SuccessTimes(outcomes)[Successes(outcomes[..k])] == outcomes[k].elapsed
      {
        if k < n - 1 {
          assert outcomes[..k] == pre[..k];
        } else {
          assert outcomes[..k] == pre;
        }
      }
    }
  }

  /** Every repetition in `outcomes` returned normally. */
  predicate AllReturned(outcomes: seq<Outcome>) {
    forall k :: 0 <= k < |outcomes| ==> outcomes[k].Returned?
  }

  /** `last_error` is empty exactly when every repetition succeeded, and
      otherwise holds the message of the failure that only successes follow. */
  lemma {:induction false} LastFailureMeaning(outcomes: seq<Outcome>)
    ensures LastFailure(outcomes).None? <==> AllReturned(outcomes)
    ensures forall k :: 0 <= k < |outcomes| && !outcomes[k].Returned? && AllReturned(outcomes[k + 1..]) ==>
              LastFailure(outcomes) == FailureOf(outcomes[k])
  {
    if outcomes != [] {
      var n := |outcomes|;
      var pre := outcomes[..n - 1];
      LastFailureMeaning(pre);
      if outcomes[n - 1].Returned? {
        assert LastFailure(outcomes) == LastFailure(pre);
        assert AllReturned(outcomes) <==> AllReturned(pre) by {
          if AllReturned(pre) {
            forall k | 0 <= k < n
              ensures outcomes[k].Returned?
            {
              if k < n - 1 { assert pre[k] == outcomes[k]; }
            }
          }
          if AllReturned(outcomes) {
            forall k | 0 <= k < n - 1
              ensures pre[k].Returned?
            {
              assert pre[k] == outcomes[k];
            }
          }
        }
        forall k | 0 <= k < n && !outcomes[k].Returned? && AllReturned(outcomes[k + 1..])
          ensures LastFailure(outcomes) == FailureOf(outcomes[k])
        {
          assert pre[k] == outcomes[k];
          var rest := pre[k + 1..];
          forall j | 0 <= j < |rest|
            ensures rest[j].Returned?
          {
            assert rest[j] == outcomes[k + 1..][j];
          }
        }
      } else {
        assert LastFailure(outcomes) == FailureOf(outcomes[n - 1]);
        assert !AllReturned(outcomes);

      }
    }
  }

  /** The record `benchmark` returns for these repetition outcomes, with the
      peak memory read after the loop; `sqrt` takes the square root of the
      variance. */
  function BenchOf(outcomes: seq<Outcome>, peakKb: nat, sqrt: real -> real): BenchResult {
    var times := SuccessTimes(outcomes);
    if times == [] then
      BenchResult("", "", "", "", [], 0.0, 0.0, 0.0, 0.0, peakKb, "error", LastFailure(outcomes))
    else
      var s := RustStats(times);
      BenchResult("", "", "", "", times, s.mean, s.min, s.max, sqrt(s.variance), peakKb, "ok", None)
  }

  /** The status is "ok", with no error, exactly when some repetition
      succeeded; then at most `reps` times are kept and the mean lies between
      their extremes. Otherwise the statistics are zero, the times empty and
      the error is the last failure, which is missing only when there were no
      repetitions at all. */
  lemma BenchOfMeaning(outcomes: seq<Outcome>, peakKb: nat, sqrt: real -> real)
    ensures var r := BenchOf(outcomes, peakKb, sqrt);
            && (r.status == "ok" <==> exists k :: 0 <= k < |outcomes| && outcomes[k].Returned?)
            && r.peakMemoryKb == peakKb
            && r.library == "" && r.format == "" && r.file == "" && r.operation == ""
    ensures var r := BenchOf(outcomes, peakKb, sqrt);
            r.status == "ok" ==>
              && r.error.None?
              && r.times == SuccessTimes(outcomes) && 0 < |r.times| <= |outcomes|
              && r.min <= r.mean <= r.max
              && (forall k :: 0 <= k < |r.times| ==> r.min <= r.times[k] <= r.max)
    ensures var r := BenchOf(outcomes, peakKb, sqrt);
            r.status != "ok" ==>
              && r.status == "error" && r.times == []
              && r.mean == 0.0 && r.min == 0.0 && r.max == 0.0 && r.stdev == 0.0
              && r.error == LastFailure(outcomes)
              && (r.error.None? <==> outcomes == [])
  {
    SuccessTimesMeaning(outcomes);
    LastFailureMeaning(outcomes);
    if SuccessTimes(outcomes) == [] && outcomes != [] {
      assert !outcomes[0].Returned?;
    }
  }

  /** `benchmark(reps, timeout, f)`: `outcomes` are the `reps` repetitions'
      outcomes in order, `status` the /proc/self/status lines read after them. */
  method Benchmark(outcomes: seq<Outcome>, status: Option<seq<string>>, sqrt: real -> real) returns (r: BenchResult)
    ensures r == BenchOf(outcomes, PeakMemoryKb(status), sqrt)
  {
    var times: seq<real> := [];
    var lastError: Option<string> := None;
    var k := 0;
    while k < |outcomes|
      invariant k <= |outcomes|
      invariant times == SuccessTimes(outcomes[..k])
      invariant lastError == LastFailure(outcomes[..k])
    {
      assert outcomes[..k + 1][..k] == outcomes[..k];
      match outcomes[k] {
        case Returned(elapsed) =>
          times := times + [elapsed];
        case ReturnedError(e) =>
          lastError := Some(e);
        case Panicked(_) =>
          lastError := FailureOf(outcomes[k]);
        case TimedOut =>
          lastError := Some("timeout");
      }
      k := k + 1;
    }
    assert outcomes[..|outcomes|] == outcomes;
    var peakMem := ReadPeakMemory(status);
    if times == [] {
      r := BenchResult("", "", "", "", [], 0.0, 0.0, 0.0, 0.0, peakMem, "error", lastError);
    } else {
      var s := RustStats(times);
      r := BenchResult("", "", "", "", times, s.mean, s.min, s.max, sqrt(s.variance), peakMem, "ok", None);
    }
  }

  // ---------------------------------------------------------------------
  // emit
  // ---------------------------------------------------------------------

  /** `emit(result, library, format, file, operation)`: the record with its
      four keys overwritten, as printed. */
  method Emit(result: BenchResult, library: string, format: string, file: string, operation: string)
    returns (line: BenchResult)
    ensures line.library == library && line.format == format && line.file == file && line.operation == operation
    ensures line.(library := "", format := "", file := "", operation := "")
            == result.(library := "", format := "", file := "", operation := "")
  {
    line := result;
    line := line.(library := library);
    line := line.(format := format);
    line := line.(file := file);
    line := line.(operation := operation);
  }

  /** The JSON object `serde_json` prints for a record: a flat Rust record,
      keyed by `operation`. serde writes a `None` error as JSON null, which
      the model, like the normaliser, reads as an absent key. */
  function ToObj(r: BenchResult): (o: Obj)
    ensures o.operation == Some(r.operation) && o.results.None?
    ensures o.status == Some(r.status) && o.error == r.error
    ensures o.mean == Some(r.mean) && o.stdev == Some(r.stdev) && o.peakMemoryKb == Some(r.peakMemoryKb)
  {
    EmptyObj.(library := Some(r.library), format := Some(r.format), file := Some(r.file),
              operation := Some(r.operation), times := Some(r.times), mean := Some(r.mean),
              min := Some(r.min), max := Some(r.max), stdev := Some(r.stdev),
              peakMemoryKb := Some(r.peakMemoryKb), status := Some(r.status), error := r.error)
  }

  // ---------------------------------------------------------------------
  // Scope trees: count_vcd_vars / collect_vcd_codes (and the vcd-ng twins)
  // ---------------------------------------------------------------------

  type IdCode = nat

  /** An item of a VCD header's scope tree: a var with its id code, a nested
      scope, or anything else (comments and the like). */
  datatype ScopeItem = Var(code: IdCode) | Scope(items: seq<ScopeItem>) | Other

  /** The id codes of the vars of `items`, in preorder. */
  function Codes(items: seq<ScopeItem>): seq<IdCode>
    decreases items
  {
    if items == [] then [] else Codes(items[..|items| - 1]) + ItemCodes(items[|items| - 1])
  }

  function ItemCodes(item: ScopeItem): seq<IdCode>
    decreases item
  {
    match item
    case Var(c) => [c]
    case Scope(children) => Codes(children)
    case Other => []
  }

  /** The number of vars in `items`, nested scopes included. */
  function VarCount(items: seq<ScopeItem>): nat
    decreases items
  {
    if items == [] then 0 else VarCount(items[..|items| - 1]) + ItemVarCount(items[|items| - 1])
  }

  function ItemVarCount(item: ScopeItem): nat
    decreases item
  {
    match item
    case Var(_) => 1
    case Scope(children) => VarCount(children)
    case Other => 0
  }

  /** `count_vcd_vars`: the loop adding one per var and the count of each
      nested scope. */
  method CountVars(items: seq<ScopeItem>) returns (count: nat)
    ensures count == VarCount(items)
    decreases items
  {
    count := 0;
    var k := 0;
    while k < |items|
      invariant k <= |items|
      invariant count == VarCount(items[..k])
    {
      assert items[..k + 1][..k] == items[..k];
      match items[k] {
        case Var(_) =>
          count := count + 1;
        case Scope(children) =>
          assert items[k] in items;
          var inner := CountVars(children);
          count := count + inner;
        case Other =>
      }
      k := k + 1;
    }
    assert items[..|items|] == items;
  }

  /** `collect_vcd_codes(items, codes)`: pushes the codes of the vars of
      `items`, in preorder, onto `codes`. */
  method CollectCodes(items: seq<ScopeItem>, codesIn: seq<IdCode>) returns (codes: seq<IdCode>)
    ensures codes == codesIn + Codes(items)
    decreases items
  {
    codes := codesIn;
    var k := 0;
    while k < |items|
      invariant k <= |items|
      invariant codes == codesIn + Codes(items[..k])
    {
      assert items[..k + 1][..k] == items[..k];
      match items[k] {
        case Var(c) =>
          codes := codes + [c];
        case Scope(children) =>
          assert items[k] in items;
          codes := CollectCodes(children, codes);
        case Other =>
      }
      k := k + 1;
    }
    assert items[..|items|] == items;
  }

  /** Counting the vars and collecting their codes agree: the count is the
      number of codes collected for the same tree. */
  lemma {:induction false} CountMatchesCollect(items: seq<ScopeItem>)
    ensures VarCount(items) == |Codes(items)|
    decreases items
  {
    if items != [] {
      CountMatchesCollect(items[..|items| - 1]);
      ItemCountMatchesCollect(items[|items| - 1]);
    }
  }

  lemma {:induction false} ItemCountMatchesCollect(item: ScopeItem)
    ensures ItemVarCount(item) == |ItemCodes(item)|
    decreases item
  {
    if item.Scope? {
      CountMatchesCollect(item.items);
    }
  }

  // ---------------------------------------------------------------------
  // The first ten codes or handles
  // ---------------------------------------------------------------------

  /** How many signals the value queries and pipelines filter on. */
  const MaxQueried: nat := 10

  /** `v.truncate(n)`: the first `n` entries, or all of them. */
  function Truncate<T>(xs: seq<T>, n: nat): (r: seq<T>)
    ensures |r| == if |xs| < n then |xs| else n
    ensures r == xs[..|r|]
  {
    if |xs| <= n then xs else xs[..n]
  }

  /** The error a value query returns when it has nothing to filter on. */
  const NoSignals: string := "no signals to query"

  /** The codes a rust-vcd or vcd-ng value query filters on: the first ten in
      preorder, or the "no signals to query" error when the header declares
      no var at all. */
  function QueryCodes(items: seq<ScopeItem>): (r: Option<seq<IdCode>>)
    ensures r.None? <==> VarCount(items) == 0
    ensures r.Some? ==> |r.value| == if VarCount(items) < MaxQueried then VarCount(items) else MaxQueried
    ensures r.Some? ==> |r.value| <= |Codes(items)| && r.value == Codes(items)[..|r.value|]
  {
    CountMatchesCollect(items);
    var codes := Truncate(Codes(items), MaxQueried);
    if codes == [] then None else Some(codes)
  }

  /** The hierarchy callback of the fst-reader and fstapi value queries:
      `if handles.len() < 10 { handles.push(handle) }` for every var, in
      hierarchy order. */
  method SelectHandles<H>(vars: seq<H>) returns (handles: seq<H>)
    ensures handles == Truncate(vars, MaxQueried)
  {
    handles := [];
    var k := 0;
    while k < |vars|
      invariant k <= |vars|
      invariant handles == Truncate(vars[..k], MaxQueried)
    {
      if |handles| < MaxQueried {
        handles := handles + [vars[k]];
        assert vars[..k + 1] == vars[..k] + [vars[k]];
      }
      k := k + 1;
    }
    assert vars[..|vars|] == vars;
  }

  // ---------------------------------------------------------------------
  // discover_files
  // ---------------------------------------------------------------------

  /** The position of the last '.' in `s`, if any. */
  function LastDot(s: string): (r: Option<nat>)
    ensures r.None? <==> '.' !in s
    ensures r.Some? ==> r.value < |s| && s[r.value] == '.' && '.' !in s[r.value + 1..]
  {
    if s == [] then None
    else if s[|s| - 1] == '.' then Some(|s| - 1)
    else
      var r := LastDot(s[..|s| - 1]);
      assert s == s[..|s| - 1] + [s[|s| - 1]];
      if r.Some? then
        assert s[r.value + 1..] == s[..|s| - 1][r.value + 1..] + [s[|s| - 1]];
        r
      else r
  }

  /** `Path::extension` of a file name: what follows the last '.', except
      that a name whose only '.' is its first character, and "..", have none. */
  function Extension(name: string): Option<string> {
    if name == ".." then None
    else match LastDot(name)
      case None => None
      case Some(i) => if i == 0 then None else Some(name[i + 1..])
  }

  /** A name has extension `ext` (a non-empty word without '.') exactly when
      it ends in "." + `ext` and has something before that dot. So ".vcd" has
      no extension, unlike Python's `endswith(".vcd")`. */
  lemma ExtensionMeaning(name: string, ext: string)
    requires ext != [] && '.' !in ext
    ensures Extension(name) == Some(ext) <==> EndsWith(name, "." + ext) && |name| > |ext| + 1
  {
    var e := "." + ext;
    if EndsWith(name, e) && |name| > |ext| + 1 {
      var i := |name| - |ext| - 1;
      assert name[i..] == e;
      assert name[i] == '.';
      assert name[i + 1..] == ext;
      assert name != "..";
    }
    if Extension(name) == Some(ext) {
      var i := LastDot(name).value;
      assert name[i..] == [name[i]] + name[i + 1..];
    }
  }

  /** The values `f` gives for the elements it maps to `Some`, in order. */
  function Somes<T, U>(xs: seq<T>, f: T -> Option<U>): seq<U> {
    if xs == [] then []
    else
      var tail := match f(xs[|xs| - 1]) case Some(y) => [y] case None => [];
      Somes(xs[..|xs| - 1], f) + tail
  }

  lemma {:induction false} SomesMeaning<T, U>(xs: seq<T>, f: T -> Option<U>, y: U)
    ensures y in Somes(xs, f) <==> exists k :: 0 <= k < |xs| && f(xs[k]) == Some(y)
  {
    if xs != [] {
      var n := |xs|;
      var pre := xs[..n - 1];
      SomesMeaning(pre, f, y);
      if y in Somes(xs, f) && y !in Somes(pre, f) {
        assert f(xs[n - 1]) == Some(y);
      }
      if y in Somes(pre, f) {
        var k :| 0 <= k < n - 1 && f(pre[k]) == Some(y);
        assert xs[k] == pre[k];
      }
      if exists k :: 0 <= k < n && f(xs[k]) == Some(y) {
        var k :| 0 <= k < n && f(xs[k]) == Some(y);
        if k < n - 1 {
          assert pre[k] == xs[k];
        }
      }
    }
  }

  /** The path a listing entry contributes: joined to the directory when it
      could be read and has extension `ext`. */
  function EntryPath(dir: string, ext: string): Option<string> -> Option<string> {
    (e: Option<string>) => if e.Some? && Extension(e.value) == Some(ext) then Some(Join(dir, e.value)) else None
  }

  /** The paths of the entries with extension `ext`, in listing order;
      entries the listing could not read are skipped. */
  function WithExtension(dir: string, entries: seq<Option<string>>, ext: string): seq<string> {
    Somes(entries, EntryPath(dir, ext))
  }

  lemma WithExtensionMeaning(dir: string, entries: seq<Option<string>>, ext: string, p: string)
    ensures p in WithExtension(dir, entries, ext) <==>
              exists k :: 0 <= k < |entries| && entries[k].Some? && Extension(entries[k].value) == Some(ext)
                          && p == Join(dir, entries[k].value)
  {
    var f := EntryPath(dir, ext);
    SomesMeaning(entries, f, p);
    forall k | 0 <= k < |entries|
      ensures f(entries[k]) == Some(p) <==>
                entries[k].Some? && Extension(entries[k].value) == Some(ext) && p == Join(dir, entries[k].value)
    {
    }
  }

  /** `discover_files(data_dir)`: `listing` is `fs::read_dir`'s entries
      (`None` for one that could not be read), or `None` when the directory
      cannot be read. */
  function DiscoveredOf(dir: string, listing: Option<seq<Option<string>>>, ext: string): seq<string> {
    if listing.None? then [] else Sort(WithExtension(dir, listing.value, ext))
  }

  method DiscoverFiles(dir: string, listing: Option<seq<Option<string>>>) returns (vcd: seq<string>, fst: seq<string>)
    ensures vcd == DiscoveredOf(dir, listing, "vcd")
    ensures fst == DiscoveredOf(dir, listing, "fst")
  {
    vcd, fst := [], [];
    if listing.Some? {
      var entries := listing.value;
      var k := 0;
      while k < |entries|
        invariant k <= |entries|
        invariant vcd == WithExtension(dir, entries[..k], "vcd")
        invariant fst == WithExtension(dir, entries[..k], "fst")
      {
        assert entries[..k + 1][..k] == entries[..k];
        if entries[k].Some? {
          var path := Join(dir, entries[k].value);
          match Extension(entries[k].value) {
            case Some(ext) =>
              if ext == "vcd" {
                vcd := vcd + [path];
              } else if ext == "fst" {
                fst := fst + [path];
              }
            case None =>
          }
        }
        k := k + 1;
      }
      assert entries[..|entries|] == entries;
    }
    vcd := Sort(vcd);
    fst := Sort(fst);
  }

  /** Each list is sorted and holds exactly the paths of the readable entries
      with that extension; an unreadable directory yields two empty lists. */
  lemma DiscoveredMeaning(dir: string, listing: Option<seq<Option<string>>>, ext: string, p: string)
    ensures SortedStrings(DiscoveredOf(dir, listing, ext))
    ensures listing.None? ==> DiscoveredOf(dir, listing, ext) == []
    ensures listing.Some? ==>
              (p in DiscoveredOf(dir, listing, ext) <==>
                 exists k :: 0 <= k < |listing.value| && listing.value[k].Some?
                             && Extension(listing.value[k].value) == Some(ext)
                             && p == Join(dir, listing.value[k].value))
  {
    if listing.Some? {
      var found := WithExtension(dir, listing.value, ext);
      SortMeaning(found);
      WithExtensionMeaning(dir, listing.value, ext, p);
      assert p in Sort(found) <==> p in multiset(Sort(found));
      assert p in found <==> p in multiset(found);
    }
  }

  // ---------------------------------------------------------------------
  // main
  // ---------------------------------------------------------------------

  /** The libraries run on each VCD file and on each FST file, in order. */
  const VcdLibraries: seq<string> := ["wellen", "rust-vcd", "vcd-ng"]
  const FstLibraries: seq<string> := ["wellen", "fst-reader", "fstapi"]

  /** The operations every library's bench function emits, in order. */
  const Operations: seq<string> := ["full_parse", "signal_list", "value_query", "pipeline"]

  /** What the black boxes do: the outcome of repetition `i` of one
      operation, the status lines read after it, and the square root. */
  datatype RustEnv = RustEnv(run: (string, string, string, string, nat) -> Outcome,
                             status: (string, string, string, string) -> Option<seq<string>>,
                             sqrt: real -> real)

  function OutcomesOf(env: RustEnv, library: string, format: string, file: string, operation: string,
                      reps: nat): (os: seq<Outcome>)
    ensures |os| == reps
  {
    seq(reps, i requires 0 <= i => env.run(library, format, file, operation, i))
  }

  /** The line printed for one operation of one library on one file. */
  function LineOf(env: RustEnv, library: string, format: string, file: string, operation: string,
                  reps: nat): BenchResult {
    BenchOf(OutcomesOf(env, library, format, file, operation, reps),
            PeakMemoryKb(env.status(library, format, file, operation)), env.sqrt)
      .(library := library, format := format, file := file, operation := operation)
  }

  /** The four lines of one library's bench function on one file. */
  function LibraryLines(env: RustEnv, library: string, format: string, file: string, reps: nat): (r: seq<BenchResult>)
    ensures |r| == |Operations|
  {
    seq(|Operations|, o requires 0 <= o < |Operations| => LineOf(env, library, format, file, Operations[o], reps))
  }

  /** The lines of each library on one file. */
  function LibraryRow(env: RustEnv, format: string, file: string, reps: nat): string -> seq<BenchResult> {
    (library: string) => LibraryLines(env, library, format, file, reps)
  }

  /** The lines for one file: each library in turn. */
  function FileLines(env: RustEnv, libraries: seq<string>, format: string, file: string, reps: nat)
    : seq<BenchResult>
  {
    Flatten(libraries, LibraryRow(env, format, file, reps))
  }

  /** The lines of each file. */
  function FileRow(env: RustEnv, libraries: seq<string>, format: string, reps: nat): string -> seq<BenchResult> {
    (file: string) => FileLines(env, libraries, format, file, reps)
  }

  /** The lines for a list of files of one format, file after file. */
  function FormatLines(env: RustEnv, libraries: seq<string>, format: string, files: seq<string>, reps: nat)
    : seq<BenchResult>
  {
    Flatten(files, FileRow(env, libraries, format, reps))
  }

  /** Everything `main` prints: all VCD files, then all FST files. */
  function MainLines(env: RustEnv, vcd: seq<string>, fst: seq<string>, reps: nat): seq<BenchResult> {
    FormatLines(env, VcdLibraries, "vcd", vcd, reps) + FormatLines(env, FstLibraries, "fst", fst, reps)
  }

  /** One bench function (`bench_wellen`, `bench_rust_vcd`, ...) on one file. */
  method BenchLibrary(env: RustEnv, library: string, format: string, file: string, reps: nat)
    returns (lines: seq<BenchResult>)
    ensures lines == LibraryLines(env, library, format, file, reps)
  {
    lines := [];
    var o := 0;
    while o < |Operations|
      invariant o <= |Operations| && |lines| == o
      invariant forall q :: 0 <= q < o ==> lines[q] == LineOf(env, library, format, file, Operations[q], reps)
    {
      var op := Operations[o];
      var r := Benchmark(OutcomesOf(env, library, format, file, op, reps), env.status(library, format, file, op), env.sqrt);
      var line := Emit(r, library, format, file, op);
      lines := lines + [line];
      o := o + 1;
    }
  }

  /** The loop of `main` over the files of one format. */
  method BenchFiles(env: RustEnv, libraries: seq<string>, format: string, files: seq<string>, reps: nat)
    returns (lines: seq<BenchResult>)
    ensures lines == FormatLines(env, libraries, format, files, reps)
  {
    lines := [];
    var i := 0;
    while i < |files|
      invariant i <= |files|
      invariant lines == FormatLines(env, libraries, format, files[..i], reps)
    {
      assert files[..i + 1][..i] == files[..i];
      var fileLines: seq<BenchResult> := [];
      var l := 0;
      while l < |libraries|
        invariant l <= |libraries|
        invariant fileLines == FileLines(env, libraries[..l], format, files[i], reps)
      {
        assert libraries[..l + 1][..l] == libraries[..l];
        var more := BenchLibrary(env, libraries[l], format, files[i], reps);
        fileLines := fileLines + more;
        l := l + 1;
      }
      assert libraries[..|libraries|] == libraries;
      lines := lines + fileLines;
      i := i + 1;
    }
    assert files[..|files|] == files;
  }

  /** `main` once the environment is read: discover the files, then print
      the lines of every VCD file and every FST file. */
  method Run(env: RustEnv, dataDir: string, listing: Option<seq<Option<string>>>, reps: nat)
    returns (lines: seq<BenchResult>)
    ensures lines == MainLines(env, DiscoveredOf(dataDir, listing, "vcd"), DiscoveredOf(dataDir, listing, "fst"), reps)
  {
    var vcd, fst := DiscoverFiles(dataDir, listing);
    var vcdLines := BenchFiles(env, VcdLibraries, "vcd", vcd, reps);
    var fstLines := BenchFiles(env, FstLibraries, "fst", fst, reps);
    lines := vcdLines + fstLines;
  }

  /** Every library contributes four lines to a file. */
  lemma FileLinesLength(env: RustEnv, libraries: seq<string>, format: string, file: string, reps: nat)
    ensures |FileLines(env, libraries, format, file, reps)| == 4 * |libraries|
  {
    var row := LibraryRow(env, format, file, reps);
    forall k | 0 <= k < |libraries|
      ensures |row(libraries[k])| == 4
    {
      assert |Operations| == 4;
    }
    FlattenSize(libraries, row, 4);
    OffsetIsProduct(|libraries|, 4);
  }

  /** Line `4*l + o` of a file is operation `o` of library `l` on that file. */
  lemma FileLinesAt(env: RustEnv, libraries: seq<string>, format: string, file: string, reps: nat, l: nat, o: nat)
    requires l < |libraries| && o < 4
    ensures 4 * l + o < |FileLines(env, libraries, format, file, reps)|
    ensures FileLines(env, libraries, format, file, reps)[4 * l + o]
            == LineOf(env, libraries[l], format, file, Operations[o], reps)
  {
    var row := LibraryRow(env, format, file, reps);
    forall k | 0 <= k < |libraries|
      ensures |row(libraries[k])| == 4
    {
      assert |Operations| == 4;
    }
    FlattenAt(libraries, row, 4, l, o);
    OffsetIsProduct(l, 4);
  }

  /** Every file gets twelve lines: its three libraries in order, each with
      the four operations in order, stamped with the file and the format. */
  lemma FormatLinesAt(env: RustEnv, libraries: seq<string>, format: string, files: seq<string>,
                      reps: nat, i: nat, l: nat, o: nat)
    requires |libraries| == 3
    requires i < |files| && l < 3 && o < 4
    ensures 12 * i + 4 * l + o < |FormatLines(env, libraries, format, files, reps)|
    ensures FormatLines(env, libraries, format, files, reps)[12 * i + 4 * l + o]
            == LineOf(env, libraries[l], format, files[i], Operations[o], reps)
  {
    var row := FileRow(env, libraries, format, reps);
    var lines := FormatLines(env, libraries, format, files, reps);
    var fileLines := FileLines(env, libraries, format, files[i], reps);
    assert 12 * i + 4 * l + o < |lines| && lines[12 * i + 4 * l + o] == fileLines[4 * l + o] by {
      forall k | 0 <= k < |files|
        ensures |row(files[k])| == 12
      {
        FileLinesLength(env, libraries, format, files[k], reps);
      }
      FlattenAt(files, row, 12, i, 4 * l + o);
      assert row(files[i]) == fileLines;
      OffsetIsProduct(i, 12);
    }
    FileLinesAt(env, libraries, format, files[i], reps, l, o);
  }

  /** A line's keys are the library, format, file and operation it was
      emitted for. */
  lemma LineOfKeys(env: RustEnv, library: string, format: string, file: string, operation: string, reps: nat)
    ensures var r := LineOf(env, library, format, file, operation, reps);
            && r.library == library && r.format == format && r.file == file && r.operation == operation
            && (r.status == "ok" || r.status == "error")
            && |r.times| <= reps
  {
    var os := OutcomesOf(env, library, format, file, operation, reps);
    BenchOfMeaning(os, PeakMemoryKb(env.status(library, format, file, operation)), env.sqrt);
  }
}
