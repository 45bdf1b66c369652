/**
 * benchmarks/python/bench_vcdvcd.py: the vcdvcd sampler. Its `run_test`,
 * repetition loop and `run_benchmark` are the shared ones of module Sampler
 * with the constants below; what is its own is the counting its
 * `test_value_query` and `test_pipeline` do over a parsed file, given as the
 * signal names and each signal's change times.
 */
module VcdvcdBench {
  import opened Wrappers
  import opened Text
  import opened Sampler

  const VcdvcdScript: Script := Script("vcdvcd", "vcd", "VCD", ".vcd", SingleFormatTests)

  /** Whether the queries run: some signal, both end times known, and a
      positive time span. */
  predicate Queryable(sigNames: seq<string>, begin: Option<int>, end: Option<int>) {
    sigNames != [] && begin.Some? && end.Some? && end.value - begin.value > 0
  }

  /** `test_value_query` once the file is parsed: nothing when it returns
      early; otherwise, for 10%, 50% and 100% of the time range, the number of
      each chosen signal's changes between `begin` and the query end. */
  method ValueQuery(sigNames: seq<string>, changeTimes: string -> seq<int>, begin: Option<int>, end: Option<int>)
    returns (counts: seq<seq<nat>>)
    ensures !Queryable(sigNames, begin, end) ==> counts == []
    ensures Queryable(sigNames, begin, end) ==>
              var span := end.value - begin.value;
              && |counts| == |Pcts|
              && forall p :: 0 <= p < |Pcts| ==>
                   counts[p] == Row(Spread(sigNames), changeTimes, begin.value, QueryEnd(begin.value, span, Pcts[p]))
  {
    counts := [];
    if sigNames == [] {
      return;
    }
    var chosen := ChooseSpread(sigNames);
    if begin.None? || end.None? {
      return;
    }
    var span := end.value - begin.value;
    if span <= 0 {
      return;
    }
    var p := 0;
    while p < |Pcts|
      invariant p <= |Pcts| && |counts| == p
      invariant forall q :: 0 <= q < p ==> counts[q] == Row(chosen, changeTimes, begin.value, QueryEnd(begin.value, span, Pcts[q]))
    {
      var tEnd := QueryEnd(begin.value, span, Pcts[p]);
      var row: seq<nat> := [];
      var c := 0;
      while c < |chosen|
        invariant c <= |chosen| && |row| == c
        invariant forall k :: 0 <= k < c ==> row[k] == WindowCount(changeTimes(chosen[k]), begin.value, tEnd)
      {
        var count := CountInWindow(changeTimes(chosen[c]), begin.value, tEnd);
        row := row + [count];
        c := c + 1;
      }
      counts := counts + [row];
      p := p + 1;
    }
  }

  /** `test_pipeline` once the file is parsed: the number of each chosen
      signal's changes over the whole time range. */
  method Pipeline(sigNames: seq<string>, changeTimes: string -> seq<int>, begin: Option<int>, end: Option<int>)
    returns (counts: seq<nat>)
    ensures !Queryable(sigNames, begin, end) ==> counts == []
    ensures Queryable(sigNames, begin, end) ==> counts == Row(Spread(sigNames), changeTimes, begin.value, end.value)
  {
    counts := [];
    if sigNames == [] || begin.None? || end.None? || end.value - begin.value <= 0 {
      return;
    }
    var chosen := ChooseSpread(sigNames);
    var c := 0;
    while c < |chosen|
      invariant c <= |chosen| && |counts| == c
      invariant forall k :: 0 <= k < c ==> counts[k] == WindowCount(changeTimes(chosen[k]), begin.value, end.value)
    {
      var count := CountInWindow(changeTimes(chosen[c]), begin.value, end.value);
      counts := counts + [count];
      c := c + 1;
    }
  }
}
