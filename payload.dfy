/**
 * The JSON documents the harness passes between its processes.
 *
 * Every JSON object the harness reads is a `Obj` whose keys are all
 * optional: a key that is absent is `None`. One record type covers the
 * per-library wrapper (`library`, `format`, `results`), the canonical
 * per-test entry written by the Python samplers (`test`, `file`,
 * `mean_s`, ...) and the flat record printed by the Rust sampler
 * (`operation`, `mean`, `peak_memory_kb`, ...), so that an object that
 * carries keys of several shapes can be stated too.
 */
module Payload {
  import opened Wrappers

  datatype Obj = Obj(
    // wrapper keys
    library: Option<string>,
    format: Option<string>,
    results: Option<seq<Obj>>,
    // canonical per-test keys
    test: Option<string>,
    scale: Option<string>,
    file: Option<string>,
    fileSizeBytes: Option<int>,
    timesS: Option<seq<real>>,
    meanS: Option<real>,
    stdevS: Option<real>,
    memoryKb: Option<int>,
    // keys of the Rust sampler's flat record
    operation: Option<string>,
    times: Option<seq<real>>,
    mean: Option<real>,
    min: Option<real>,
    max: Option<real>,
    stdev: Option<real>,
    peakMemoryKb: Option<int>,
    // shared keys
    status: Option<string>,
    error: Option<string>)

  /** `{}` */
  const EmptyObj: Obj := Obj(None, None, None, None, None, None, None, None, None, None, None,
                             None, None, None, None, None, None, None, None, None)

  /** An element of the `rust_results` list: a JSON object or any other JSON value. */
  datatype Elem = Dict(obj: Obj) | NonDict

  /** The combined document `{scale, timestamp, python_results, rust_results}`. */
  datatype Combined = Combined(
    scale: Option<string>,
    timestamp: Option<string>,
    pythonResults: Option<seq<Obj>>,
    rustResults: Option<seq<Elem>>)

  /** The one-entry failure record the harness synthesises when a step fails:
      no file, no times, zero statistics. */
  function FailureEntry(test: string, scale: string, status: string, error: string): (e: Obj)
    ensures e.test == Some(test) && e.status == Some(status) && e.error == Some(error)
    ensures e.timesS == Some([]) && e.meanS == Some(0.0) && e.stdevS == Some(0.0)
    ensures e.operation.None? && e.results.None?
  {
    EmptyObj.(test := Some(test), scale := Some(scale), file := Some(""),
              fileSizeBytes := Some(0), timesS := Some([]), meanS := Some(0.0),
              stdevS := Some(0.0), memoryKb := Some(0), status := Some(status),
              error := Some(error))
  }

  /** `{"library": library, "format": format, "results": results}` */
  function Wrapper(library: string, format: string, results: seq<Obj>): (w: Obj)
    ensures w.library == Some(library) && w.format == Some(format) && w.results == Some(results)
    ensures w.operation.None?
  {
    EmptyObj.(library := Some(library), format := Some(format), results := Some(results))
  }
}
