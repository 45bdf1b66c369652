/**
 * benchmarks/python/bench_pylibfst.py: the pylibfst sampler. Its `run_test`,
 * repetition loop and `run_benchmark` are the shared ones of module Sampler
 * with the constants below. What is its own is the value-change callback of
 * `test_value_query` and `test_pipeline`: the library calls it once per
 * change it delivers, and the callback counts, per chosen signal name, the
 * changes of chosen handles inside the query window.
 */
module PylibfstBench {
  import opened Wrappers
  import opened Sampler

  const PylibfstScript: Script := Script("pylibfst", "fst", "FST", ".fst", SingleFormatTests)

  /** An FST signal handle. */
  type Handle = nat

  /** A signal as `signals_info.by_name.items()` lists it. */
  type SigItem = (string, Handle)

  /** One change as the block iteration delivers it: time and handle. */
  type Change = (int, Handle)

  /** `{sig.handle for _, sig in chosen}` */
  function ChosenHandles(chosen: seq<SigItem>): set<Handle> {
    set k | 0 <= k < |chosen| :: chosen[k].1
  }

  /** `{sig.handle: name for name, sig in chosen}`, one pair at a time. */
  function HandleToName(chosen: seq<SigItem>): map<Handle, string> {
    if chosen == [] then map[]
    else HandleToName(chosen[..|chosen| - 1])[chosen[|chosen| - 1].1 := chosen[|chosen| - 1].0]
  }

  /** The map's keys are exactly the chosen handles. */
  lemma {:induction false} HandleToNameKeys(chosen: seq<SigItem>)
    ensures HandleToName(chosen).Keys == ChosenHandles(chosen)
  {
    if chosen != [] {
      var n := |chosen|;
      var pre := chosen[..n - 1];
      HandleToNameKeys(pre);
      forall h | h in ChosenHandles(chosen) ensures h in ChosenHandles(pre) + {chosen[n - 1].1} {
        var k :| 0 <= k < n && chosen[k].1 == h;
        if k < n - 1 {
          assert pre[k].1 == h;
        }
      }
      forall h | h in ChosenHandles(pre) ensures h in ChosenHandles(chosen) {
        var k :| 0 <= k < n - 1 && pre[k].1 == h;
        assert chosen[k].1 == h;
      }
    }
  }

  /** Every chosen handle maps to the name of the LAST chosen signal with that handle. */
  lemma {:induction false} HandleToNameLast(chosen: seq<SigItem>)
    ensures forall k :: 0 <= k < |chosen| && (forall j :: k < j < |chosen| ==> chosen[j].1 != chosen[k].1) ==>
              chosen[k].1 in HandleToName(chosen) && HandleToName(chosen)[chosen[k].1] == chosen[k].0
  {
    if chosen != [] {
      var n := |chosen|;
      var pre := chosen[..n - 1];
      HandleToNameLast(pre);
      forall k | 0 <= k < n && (forall j :: k < j < n ==> chosen[j].1 != chosen[k].1)
        ensures chosen[k].1 in HandleToName(chosen) && HandleToName(chosen)[chosen[k].1] == chosen[k].0
      {
        if k < n - 1 {
          assert chosen[n - 1].1 != chosen[k].1;
          assert pre[k] == chosen[k];
          forall j | k < j < n - 1 ensures pre[j].1 != pre[k].1 {
            assert pre[j] == chosen[j];
          }
        }
      }
    }
  }

  /** The map's keys are exactly the chosen handles, and every chosen handle
      maps to the name of the LAST chosen signal with that handle. */
  lemma HandleToNameMeaning(chosen: seq<SigItem>)
    ensures HandleToName(chosen).Keys == ChosenHandles(chosen)
    ensures forall k :: 0 <= k < |chosen| && (forall j :: k < j < |chosen| ==> chosen[j].1 != chosen[k].1) ==>
              HandleToName(chosen)[chosen[k].1] == chosen[k].0
  {
    HandleToNameKeys(chosen);
    HandleToNameLast(chosen);
  }

  /** Every name in the map is the name of a chosen signal with that handle. */
  lemma {:induction false} HandleToNameSource(chosen: seq<SigItem>, h: Handle)
    requires h in HandleToName(chosen)
    ensures exists k :: 0 <= k < |chosen| && chosen[k] == (HandleToName(chosen)[h], h)
  {
    var n := |chosen|;
    if chosen[n - 1].1 != h {
      var pre := chosen[..n - 1];
      HandleToNameSource(pre, h);
      var k :| 0 <= k < n - 1 && pre[k] == (HandleToName(pre)[h], h);
      assert chosen[k] == pre[k];
    }
  }

  /** `{name: 0 for name in handle_to_name.values()}` */
  function InitialCounts(names: map<Handle, string>): (c: map<string, nat>)
    ensures c.Keys == names.Values
    ensures forall name :: name in c ==> c[name] == 0
  {
    map name | name in names.Values :: 0
  }

  /** What the callback closes over. */
  datatype Query = Query(handles: set<Handle>, names: map<Handle, string>, start: int, tEnd: int)

  /** `handle_to_name.get(handle, "")` */
  function NameOf(q: Query, h: Handle): string {
    if h in q.names then q.names[h] else ""
  }

  /** A change the callback counts for `name`. */
  predicate CountsFor(q: Query, ch: Change, name: string) {
    ch.1 in q.handles && q.start <= ch.0 <= q.tEnd && NameOf(q, ch.1) == name && name != ""
  }

  /** The counters after the callback has seen `changes`, in order. */
  function Tally(counts: map<string, nat>, changes: seq<Change>, q: Query): (r: map<string, nat>)
    requires q.names.Values <= counts.Keys
    ensures r.Keys == counts.Keys
  {
    if changes == [] then counts
    else
      var before := Tally(counts, changes[..|changes| - 1], q);
      var ch := changes[|changes| - 1];
      if ch.1 in q.handles && q.start <= ch.0 <= q.tEnd then
        var name := NameOf(q, ch.1);
        if name != "" then
          assert name in q.names.Values;
          before[name := before[name] + 1]
        else before
      else before
  }

  /** The positions of the changes counted for `name`. */
  function HitIndices(changes: seq<Change>, q: Query, name: string): set<nat> {
    set k: nat | k < |changes| && CountsFor(q, changes[k], name)
  }

  /** Every counter grows by exactly the number of changes of a chosen handle
      inside the window whose name is that counter's; the empty name is never
      counted. */
  lemma {:induction false} TallyMeaning(counts: map<string, nat>, changes: seq<Change>, q: Query, name: string)
    requires q.names.Values <= counts.Keys
    requires name in counts
    ensures Tally(counts, changes, q)[name] == counts[name] + |HitIndices(changes, q, name)|
    ensures name == "" ==> Tally(counts, changes, q)[name] == counts[name]
  {
    if changes != [] {
      var n := |changes|;
      var pre := changes[..n - 1];
      TallyMeaning(counts, pre, q, name);
      var before := HitIndices(pre, q, name);
      assert n - 1 !in before;
      if CountsFor(q, changes[n - 1], name) {
        assert HitIndices(changes, q, name) == before + {n - 1};
      } else {
        assert HitIndices(changes, q, name) == before;
      }
    }
    if name == "" {
      assert HitIndices(changes, q, name) == {};
    }
  }

  /** A change of a handle that was not chosen, or outside the window, leaves
      every counter as it was. */
  lemma IgnoredChange(counts: map<string, nat>, changes: seq<Change>, q: Query, ch: Change)
    requires q.names.Values <= counts.Keys
    requires ch.1 !in q.handles || ch.0 < q.start || ch.0 > q.tEnd
    ensures Tally(counts, changes + [ch], q) == Tally(counts, changes, q)
  {
    assert (changes + [ch])[..|changes|] == changes;
  }

  /** The `value_change_callback` closure and the `collected` dict it updates. */
  class ChangeCounter {
    var collected: map<string, nat>
    const query: Query

    predicate Valid()
      reads this
    {
      query.names.Values <= collected.Keys
    }

    constructor(chosen: seq<SigItem>, start: int, tEnd: int)
      ensures Valid()
      ensures query == Query(ChosenHandles(chosen), HandleToName(chosen), start, tEnd)
      ensures collected == InitialCounts(HandleToName(chosen))
    {
      query := Query(ChosenHandles(chosen), HandleToName(chosen), start, tEnd);
      collected := InitialCounts(HandleToName(chosen));
    }

    /** `value_change_callback(_, t, handle, value)` */
    method OnChange(t: int, handle: Handle)
      requires Valid()
      modifies this
      ensures Valid()
      ensures collected == Tally(old(collected), [(t, handle)], query)
    {
      if handle in query.handles && query.start <= t <= query.tEnd {
        var name := NameOf(query, handle);
        if name != "" {
          collected := collected[name := collected[name] + 1];
        }
      }
    }

    /** `fstReaderIterBlocks(fst, value_change_callback)` over the changes the
        library delivers. */
    method IterBlocks(changes: seq<Change>)
      requires Valid()
      modifies this
      ensures Valid()
      ensures collected == Tally(old(collected), changes, query)
    {
      var k := 0;
      while k < |changes|
        invariant k <= |changes|
        invariant Valid()
        invariant collected == Tally(old(collected), changes[..k], query)
      {
        OnChange(changes[k].0, changes[k].1);
        TallyStep(old(collected), changes, k, query);
        k := k + 1;
      }
      assert changes[..|changes|] == changes;
    }
  }

  lemma TallyStep(counts: map<string, nat>, changes: seq<Change>, k: nat, q: Query)
    requires q.names.Values <= counts.Keys
    requires k < |changes|
    ensures Tally(counts, changes[..k + 1], q) == Tally(Tally(counts, changes[..k], q), [changes[k]], q)
  {
    assert changes[..k + 1][..k] == changes[..k];
  }

  /** The counters one query window ends with. */
  function WindowTally(chosen: seq<SigItem>, changes: seq<Change>, start: int, tEnd: int): map<string, nat> {
    var names := HandleToName(chosen);
    Tally(InitialCounts(names), changes, Query(ChosenHandles(chosen), names, start, tEnd))
  }

  /** One `fstReaderIterBlocks` pass with a fresh callback and `collected`. */
  method CountWindow(chosen: seq<SigItem>, changes: seq<Change>, start: int, tEnd: int)
    returns (collected: map<string, nat>)
    ensures collected == WindowTally(chosen, changes, start, tEnd)
  {
    var counter := new ChangeCounter(chosen, start, tEnd);
    counter.IterBlocks(changes);
    collected := counter.collected;
  }

  /** `test_value_query` once the file is open: nothing when it returns early;
      otherwise, for 10%, 50% and 100% of the time range, the counters the
      callback leaves. */
  method ValueQuery(sigItems: seq<SigItem>, startTime: int, endTime: int, changes: seq<Change>)
    returns (perWindow: seq<map<string, nat>>)
    ensures sigItems == [] || endTime - startTime <= 0 ==> perWindow == []
    ensures sigItems != [] && endTime - startTime > 0 ==>
              |perWindow| == |Pcts|
              && forall p :: 0 <= p < |Pcts| ==>
                   perWindow[p] == WindowTally(Spread(sigItems), changes, startTime,
                                               QueryEnd(startTime, endTime - startTime, Pcts[p]))
  {
    perWindow := [];
    if sigItems == [] {
      return;
    }
    var chosen := ChooseSpread(sigItems);
    var span := endTime - startTime;
    if span <= 0 {
      return;
    }
    var p := 0;
    while p < |Pcts|
      invariant p <= |Pcts| && |perWindow| == p
      invariant forall q :: 0 <= q < p ==>
                  perWindow[q] == WindowTally(chosen, changes, startTime, QueryEnd(startTime, span, Pcts[q]))
    {
      var collected := CountWindow(chosen, changes, startTime, QueryEnd(startTime, span, Pcts[p]));
      perWindow := perWindow + [collected];
      p := p + 1;
    }
  }

  /** `test_pipeline` once the file is open: the counters for the whole
      time range, or nothing when it returns early. */
  method Pipeline(sigItems: seq<SigItem>, startTime: int, endTime: int, changes: seq<Change>)
    returns (collected: Option<map<string, nat>>)
    ensures sigItems == [] || endTime - startTime <= 0 ==> collected == None
    ensures sigItems != [] && endTime - startTime > 0 ==>
              collected == Some(WindowTally(Spread(sigItems), changes, startTime, endTime))
  {
    if sigItems == [] || endTime - startTime <= 0 {
      return None;
    }
    var chosen := ChooseSpread(sigItems);
    var counts := CountWindow(chosen, changes, startTime, endTime);
    collected := Some(counts);
  }

  /** A chosen name's final count is the number of delivered changes inside
      the window of a handle whose name, after later duplicates overwrote
      earlier ones, is that name. */
  lemma WindowTallyMeaning(chosen: seq<SigItem>, changes: seq<Change>, start: int, tEnd: int, name: string)
    requires name in HandleToName(chosen).Values
    ensures name in WindowTally(chosen, changes, start, tEnd)
    ensures WindowTally(chosen, changes, start, tEnd)[name]
            == |HitIndices(changes, Query(ChosenHandles(chosen), HandleToName(chosen), start, tEnd), name)|
  {
    var names := HandleToName(chosen);
    TallyMeaning(InitialCounts(names), changes, Query(ChosenHandles(chosen), names, start, tEnd), name);
  }
}
