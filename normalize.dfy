/**
 * `normalize_results` of benchmarks/report.py: the combined document's two
 * heterogeneous lists become one list of canonical records.
 *
 * The filesystem lookup of a Rust record's file size is an oracle
 * `sizeOf(path)`: `None` when the path does not exist or its size cannot
 * be read, `Some(n)` otherwise.
 */
module Normalize {
  import opened Wrappers
  import opened Text
  import opened Payload

  datatype Record = Record(
    library: string,
    language: string,
    format: string,
    file: string,
    test: string,
    meanS: real,
    stdevS: real,
    memoryKb: int,
    status: string,
    error: string,
    fileSizeBytes: int,
    timesS: seq<real>)

  type SizeOracle = string -> Option<nat>

  // ---------------------------------------------------------------------
  // The adapters, one per recognised shape
  // ---------------------------------------------------------------------

  /** A canonical per-test entry: keys map one for one, missing keys take their zero value. */
  function EntryRecord(library: string, language: string, format: string, e: Obj): Record {
    Record(library, language, format, e.file.GetOr(""), e.test.GetOr(""),
           e.meanS.GetOr(0.0), e.stdevS.GetOr(0.0), e.memoryKb.GetOr(0),
           e.status.GetOr("unknown"), e.error.GetOr(""), e.fileSizeBytes.GetOr(0),
           e.timesS.GetOr([]))
  }

  /** One record per entry, in the entries' order. */
  function EntryRecords(library: string, language: string, format: string, es: seq<Obj>): seq<Record> {
    if es == [] then []
    else EntryRecords(library, language, format, es[..|es| - 1])
         + [EntryRecord(library, language, format, es[|es| - 1])]
  }

  /** A wrapper `{library, format, results}`; `language` is the family it was found in. */
  function WrapperRecords(w: Obj, language: string): seq<Record> {
    EntryRecords(w.library.GetOr("unknown"), language, w.format.GetOr("unknown"), w.results.GetOr([]))
  }

  /** The Rust sampler's flat record: `operation`, `mean`, `stdev`, `peak_memory_kb`
      and `times` take the canonical names, the file is cut to its base name and
      its size is looked up. */
  function FlatRecord(o: Obj, sizeOf: SizeOracle): Record {
    var path := o.file.GetOr("");
    var size := if path != "" && sizeOf(path).Some? then sizeOf(path).value else 0;
    Record(o.library.GetOr("unknown"), "Rust", o.format.GetOr("unknown"),
           if path != "" then Basename(path) else "", o.operation.GetOr(""),
           o.mean.GetOr(0.0), o.stdev.GetOr(0.0), o.peakMemoryKb.GetOr(0),
           o.status.GetOr("unknown"), o.error.GetOr(""), size, o.times.GetOr([]))
  }

  /** An element of `rust_results`: the `operation` key wins over `results`;
      anything else is dropped. */
  function RustRecords(e: Elem, sizeOf: SizeOracle): seq<Record> {
    match e
    case NonDict => []
    case Dict(o) =>
      if o.operation.Some? then [FlatRecord(o, sizeOf)]
      else if o.results.Some? then WrapperRecords(o, "Rust")
      else []
  }

  function PythonPart(ws: seq<Obj>): seq<Record> {
    if ws == [] then [] else PythonPart(ws[..|ws| - 1]) + WrapperRecords(ws[|ws| - 1], "Python")
  }

  function RustPart(es: seq<Elem>, sizeOf: SizeOracle): seq<Record> {
    if es == [] then [] else RustPart(es[..|es| - 1], sizeOf) + RustRecords(es[|es| - 1], sizeOf)
  }

  /** What `normalize_results(combined)` returns. */
  function Normalized(c: Combined, sizeOf: SizeOracle): seq<Record> {
    PythonPart(c.pythonResults.GetOr([])) + RustPart(c.rustResults.GetOr([]), sizeOf)
  }

  // ---------------------------------------------------------------------
  // The procedure, as the source writes it
  // ---------------------------------------------------------------------

  /** The inner loop: one canonical record per entry appended to `records`. */
  method AppendEntries(records: seq<Record>, library: string, language: string, format: string, es: seq<Obj>)
    returns (out: seq<Record>)
    ensures out == records + EntryRecords(library, language, format, es)
  {
    out := records;
    for k := 0 to |es|
      invariant out == records + EntryRecords(library, language, format, es[..k])
    {
      assert es[..k + 1][..k] == es[..k];
      out := out + [EntryRecord(library, language, format, es[k])];
    }
    assert es[..|es|] == es;
  }

  /** One element of `rust_results`: the flat shape first, then the wrapped one. */
  method AppendRustElement(records: seq<Record>, e: Elem, sizeOf: SizeOracle) returns (out: seq<Record>)
    ensures out == records + RustRecords(e, sizeOf)
  {
    out := records;
    match e
    case NonDict =>
    case Dict(o) =>
      if o.operation.Some? {
        out := out + [FlatRecord(o, sizeOf)];
      } else if o.results.Some? {
        out := AppendEntries(out, o.library.GetOr("unknown"), "Rust", o.format.GetOr("unknown"), o.results.value);
      }
  }

  /** The first half of `normalize_results`: every Python wrapper's entries. */
  method NormalizePython(py: seq<Obj>) returns (records: seq<Record>)
    ensures records == PythonPart(py)
  {
    records := [];
    for i := 0 to |py|
      invariant records == PythonPart(py[..i])
    {
      var w := py[i];
      records := AppendEntries(records, w.library.GetOr("unknown"), "Python", w.format.GetOr("unknown"),
                               w.results.GetOr([]));
      assert py[..i + 1][..i] == py[..i];
    }
    assert py[..|py|] == py;
  }

  /** The second half: every element of `rust_results`, appended to what is there. */
  method NormalizeRust(records: seq<Record>, rs: seq<Elem>, sizeOf: SizeOracle) returns (out: seq<Record>)
    ensures out == records + RustPart(rs, sizeOf)
  {
    out := records;
    for i := 0 to |rs|
      invariant out == records + RustPart(rs[..i], sizeOf)
    {
      var before := out;
      out := AppendRustElement(out, rs[i], sizeOf);
      RustPartSnoc(records, before, out, rs, i, sizeOf);
    }
    assert rs[..|rs|] == rs;
  }

  /** Appending element `i`'s records after those of the first `i` elements gives
      those of the first `i + 1`. */
  lemma RustPartSnoc(records: seq<Record>, before: seq<Record>, after: seq<Record>, rs: seq<Elem>, i: nat,
                     sizeOf: SizeOracle)
    requires i < |rs|
    requires before == records + RustPart(rs[..i], sizeOf)
    requires after == before + RustRecords(rs[i], sizeOf)
    ensures after == records + RustPart(rs[..i + 1], sizeOf)
  {
    var a, b := RustPart(rs[..i], sizeOf), RustRecords(rs[i], sizeOf);
    assert rs[..i + 1][..i] == rs[..i];
    assert RustPart(rs[..i + 1], sizeOf) == a + b;
    assert (records + a) + b == records + (a + b);
  }

  method NormalizeResults(c: Combined, sizeOf: SizeOracle) returns (records: seq<Record>)
    ensures records == Normalized(c, sizeOf)
  {
    records := NormalizePython(c.pythonResults.GetOr([]));
    records := NormalizeRust(records, c.rustResults.GetOr([]), sizeOf);
  }

  // ---------------------------------------------------------------------
  // What the normaliser promises
  // ---------------------------------------------------------------------

  /** Each entry yields exactly one record, at its own position. */
  lemma {:induction false} EntryRecordsAt(library: string, language: string, format: string, es: seq<Obj>)
    ensures |EntryRecords(library, language, format, es)| == |es|
    ensures forall k :: 0 <= k < |es| ==>
      EntryRecords(library, language, format, es)[k] == EntryRecord(library, language, format, es[k])
  {
    if es != [] {
      EntryRecordsAt(library, language, format, es[..|es| - 1]);
    }
  }

  /** A Python wrapper's k-th entry becomes a "Python" record carrying the wrapper's
      library and format ("unknown" when absent) and the entry's own fields, with
      0, "", [] or "unknown" for what the entry lacks. */
  lemma PythonWrapperRecords(w: Obj, k: nat)
    requires k < |w.results.GetOr([])|
    ensures |WrapperRecords(w, "Python")| == |w.results.GetOr([])|
    ensures var e := w.results.value[k];
            var r := WrapperRecords(w, "Python")[k];
            && r.language == "Python"
            && r.library == (if w.library.Some? then w.library.value else "unknown")
            && r.format == (if w.format.Some? then w.format.value else "unknown")
            && r.test == (if e.test.Some? then e.test.value else "")
            && r.file == (if e.file.Some? then e.file.value else "")
            && r.meanS == (if e.meanS.Some? then e.meanS.value else 0.0)
            && r.stdevS == (if e.stdevS.Some? then e.stdevS.value else 0.0)
            && r.memoryKb == (if e.memoryKb.Some? then e.memoryKb.value else 0)
            && r.status == (if e.status.Some? then e.status.value else "unknown")
            && r.error == (if e.error.Some? then e.error.value else "")
            && r.fileSizeBytes == (if e.fileSizeBytes.Some? then e.fileSizeBytes.value else 0)
            && r.timesS == (if e.timesS.Some? then e.timesS.value else [])
  {
    EntryRecordsAt(w.library.GetOr("unknown"), "Python", w.format.GetOr("unknown"), w.results.GetOr([]));
  }

  /** An object with an `operation` key yields one "Rust" record, whatever else it holds:
      the renamed fields carry over, the file is reduced to a name without '/', and the
      size is 0 unless the path is non-empty and exists. */
  lemma FlatElement(o: Obj, sizeOf: SizeOracle)
    requires o.operation.Some?
    ensures var rs := RustRecords(Dict(o), sizeOf);
            && |rs| == 1
            && rs[0].language == "Rust"
            && rs[0].test == o.operation.value
            && rs[0].meanS == o.mean.GetOr(0.0)
            && rs[0].stdevS == o.stdev.GetOr(0.0)
            && rs[0].memoryKb == o.peakMemoryKb.GetOr(0)
            && rs[0].timesS == o.times.GetOr([])
            && '/' !in rs[0].file
            && (o.file.Some? && o.file.value != "" ==> EndsWith(o.file.value, rs[0].file))
            && rs[0].fileSizeBytes >= 0
            && (rs[0].fileSizeBytes != 0 ==> o.file.Some? && sizeOf(o.file.value).Some?)
  {
    if o.file.Some? && o.file.value != "" {
      BasenameMeaning(o.file.value);
    }
  }

  /** Without `operation`, a `results` list yields one "Rust" record per sub-entry;
      with neither key, or for a value that is not an object, nothing. */
  lemma WrappedOrDropped(e: Elem, sizeOf: SizeOracle)
    requires e.NonDict? || e.obj.operation.None?
    ensures e.Dict? && e.obj.results.Some? ==>
              |RustRecords(e, sizeOf)| == |e.obj.results.value|
              && forall k :: 0 <= k < |e.obj.results.value| ==>
                   RustRecords(e, sizeOf)[k].language == "Rust"
                   && RustRecords(e, sizeOf)[k].test == e.obj.results.value[k].test.GetOr("")
    ensures (e.NonDict? || e.obj.results.None?) ==> RustRecords(e, sizeOf) == []
  {
    if e.Dict? && e.obj.results.Some? {
      EntryRecordsAt(e.obj.library.GetOr("unknown"), "Rust", e.obj.format.GetOr("unknown"), e.obj.results.value);
    }
  }

  /** Number of entries held by a list of wrappers. */
  function EntryCount(ws: seq<Obj>): nat {
    if ws == [] then 0 else EntryCount(ws[..|ws| - 1]) + |ws[|ws| - 1].results.GetOr([])|
  }

  lemma {:induction false} PythonPartShape(ws: seq<Obj>)
    ensures |PythonPart(ws)| == EntryCount(ws)
    ensures forall i :: 0 <= i < |PythonPart(ws)| ==> PythonPart(ws)[i].language == "Python"
  {
    if ws != [] {
      var w := ws[|ws| - 1];
      PythonPartShape(ws[..|ws| - 1]);
      EntryRecordsAt(w.library.GetOr("unknown"), "Python", w.format.GetOr("unknown"), w.results.GetOr([]));
    }
  }

  lemma {:induction false} RustPartLanguage(es: seq<Elem>, sizeOf: SizeOracle)
    ensures forall i :: 0 <= i < |RustPart(es, sizeOf)| ==> RustPart(es, sizeOf)[i].language == "Rust"
  {
    if es != [] {
      RustPartLanguage(es[..|es| - 1], sizeOf);
      var e := es[|es| - 1];
      if e.Dict? && e.obj.operation.None? && e.obj.results.Some? {
        EntryRecordsAt(e.obj.library.GetOr("unknown"), "Rust", e.obj.format.GetOr("unknown"), e.obj.results.value);
      }
    }
  }

  /** Every Python record comes before every Rust record, and the Python records
      number exactly the entries of the Python wrappers. */
  lemma PythonBeforeRust(c: Combined, sizeOf: SizeOracle)
    ensures var rs := Normalized(c, sizeOf);
            var n := EntryCount(c.pythonResults.GetOr([]));
            && n <= |rs|
            && (forall i :: 0 <= i < n ==> rs[i].language == "Python")
            && (forall i :: n <= i < |rs| ==> rs[i].language == "Rust")
  {
    PythonPartShape(c.pythonResults.GetOr([]));
    RustPartLanguage(c.rustResults.GetOr([]), sizeOf);
  }

  /** The two shapes agree: a Python entry and a flat Rust object that describe the
      same measurement of a file reached by a path that exists normalise to records
      that differ at most in `language`. */
  lemma ShapesAgree(w: Obj, o: Obj, sizeOf: SizeOracle, dir: string)
    requires w.results.Some? && |w.results.value| == 1
    requires var e := w.results.value[0];
             && o.operation.Some? && o.operation == e.test
             && o.library.Some? && o.library == w.library
             && o.format.Some? && o.format == w.format
             && o.mean.Some? && o.mean == e.meanS
             && o.stdev.Some? && o.stdev == e.stdevS
             && o.peakMemoryKb.Some? && o.peakMemoryKb == e.memoryKb
             && o.times.Some? && o.times == e.timesS
             && o.status.Some? && o.status == e.status
             && o.error.Some? && o.error == e.error
             && e.file.Some? && e.file.value != [] && '/' !in e.file.value
             && o.file == Some(Join(dir, e.file.value))
             && e.fileSizeBytes.Some? && sizeOf(Join(dir, e.file.value)) == Some(e.fileSizeBytes.value)
    ensures WrapperRecords(w, "Python")[0].(language := "Rust") == RustRecords(Dict(o), sizeOf)[0]
  {
    var e := w.results.value[0];
    EntryRecordsAt(w.library.GetOr("unknown"), "Python", w.format.GetOr("unknown"), w.results.value);
    BasenameOfJoin(dir, e.file.value);
  }
}
