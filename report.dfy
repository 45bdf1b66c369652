/**
 * `generate_report` of benchmarks/report.py, as the structure the Markdown
 * is rendered from: the ok/failed partition, the four per-file sections,
 * the full-parse ranking with slowdown ratios, the failures table and the
 * summary of libraries per format.
 */
module Report {
  import opened Wrappers
  import opened Text
  import opened Sorting
  import opened Format
  import opened Normalize
  import opened Stats
  import RustBench

  // ---------------------------------------------------------------------
  // Conditions of the comprehensions
  // ---------------------------------------------------------------------

  predicate IsOk(r: Record) { r.status == "ok" }
  predicate IsFailed(r: Record) { r.status != "ok" }

  /** "<category> in test" */
  function TestHas(category: string): Record -> bool {
    (r: Record) => Contains(r.test, category)
  }

  function FileIs(f: string): Record -> bool {
    (r: Record) => r.file == f
  }

  /** The four test categories, matched as substrings of the test name. */
  const FullParse: string := "full_parse"
  const SignalList: string := "signal_list"
  const ValueQuery: string := "value_query"
  const Pipeline: string := "pipeline"

  /** Non-positive means sort as if they took 9999 seconds. */
  const Unmeasured: real := 9999.0

  function SortKey(r: Record): real {
    if r.meanS > 0.0 then r.meanS else Unmeasured
  }

  // ---------------------------------------------------------------------
  // Per-file tables and bar charts
  // ---------------------------------------------------------------------

  /** The non-empty `file` values, in record order. */
  function Files(rs: seq<Record>): (fs: seq<string>)
    ensures forall k :: 0 <= k < |fs| ==> fs[k] != ""
  {
    if rs == [] then []
    else Files(rs[..|rs| - 1]) + (if rs[|rs| - 1].file != "" then [rs[|rs| - 1].file] else [])
  }

  lemma {:induction false} FilesMembership(rs: seq<Record>)
    ensures forall f :: f in Files(rs) <==> f != "" && exists k :: 0 <= k < |rs| && rs[k].file == f
  {
    if rs != [] {
      FilesMembership(rs[..|rs| - 1]);
      forall f | f != "" && exists k :: 0 <= k < |rs| && rs[k].file == f
        ensures f in Files(rs)
      {
        var k :| 0 <= k < |rs| && rs[k].file == f;
        if k < |rs| - 1 {
          assert rs[..|rs| - 1][k].file == f;
        }
      }
    }
  }

  /** `sorted(set(r["file"] for r in recs if r["file"]))` */
  function FileList(rs: seq<Record>): seq<string> {
    SortedDistinct(Files(rs))
  }

  /** `max(r["file_size_bytes"] for r in rs)`, which needs at least one record. */
  function MaxSize(rs: seq<Record>): (m: int)
    requires rs != []
    ensures forall k :: 0 <= k < |rs| ==> rs[k].fileSizeBytes <= m
    ensures exists k :: 0 <= k < |rs| && rs[k].fileSizeBytes == m
  {
    if |rs| == 1 then rs[0].fileSizeBytes
    else
      var m := MaxSize(rs[..|rs| - 1]);
      var last := rs[|rs| - 1].fileSizeBytes;
      assert forall k :: 0 <= k < |rs| - 1 ==> rs[k] == rs[..|rs| - 1][k];
      if last > m then last else m
  }

  /** `max(r["mean_s"] for r in rs if r["mean_s"] > 0)`, or `None` where Python's
      `max` has no element to return. */
  function MaxPositiveMean(rs: seq<Record>): (m: Option<real>)
    ensures m.None? <==> forall k :: 0 <= k < |rs| ==> rs[k].meanS <= 0.0
    ensures m.Some? ==> m.value > 0.0
                        && (forall k :: 0 <= k < |rs| ==> rs[k].meanS <= m.value)
                        && (exists k :: 0 <= k < |rs| && rs[k].meanS == m.value)
  {
    if rs == [] then None
    else
      var m := MaxPositiveMean(rs[..|rs| - 1]);
      var last := rs[|rs| - 1].meanS;
      assert forall k :: 0 <= k < |rs| - 1 ==> rs[k] == rs[..|rs| - 1][k];
      if last <= 0.0 then m
      else if m.None? || last > m.value then Some(last)
      else m
  }

  /** One line of a bar chart: the library, its bar and its time. */
  datatype Bar = Bar(library: string, bar: string, time: TimeText)

  function Bars(rows: seq<Record>, maxTime: real): (bars: seq<Bar>)
    ensures |bars| == |rows|
  {
    if rows == [] then []
    else
      var r := rows[|rows| - 1];
      Bars(rows[..|rows| - 1], maxTime) + [Bar(r.library, AsciiBar(r.meanS, maxTime, BarWidth), FormatTime(r.meanS))]
  }

  lemma {:induction false} BarsAt(rows: seq<Record>, maxTime: real)
    ensures forall k :: 0 <= k < |rows| ==>
      Bars(rows, maxTime)[k] == Bar(rows[k].library, AsciiBar(rows[k].meanS, maxTime, BarWidth), FormatTime(rows[k].meanS))
  {
    if rows != [] {
      BarsAt(rows[..|rows| - 1], maxTime);
    }
  }

  /** The chart exactly as the source computes it: drawn for more than one row,
      and `None` where the maximum over the positive means raises `ValueError`
      because no mean is positive. */
  function ChartAsWritten(rows: seq<Record>): Option<seq<Bar>> {
    if |rows| > 1 then
      match MaxPositiveMean(rows)
      case None => None
      case Some(m) => Some(Bars(rows, m))
    else Some([])
  }

  /** The chart as evidently intended: no chart where there is no positive mean
      to scale the bars by. */
  function Chart(rows: seq<Record>): seq<Bar> {
    if |rows| > 1 then
      match MaxPositiveMean(rows)
      case None => []
      case Some(m) => Bars(rows, m)
    else []
  }

  /** The corrected chart agrees with the source wherever the source does not raise;
      it is drawn iff there are several rows and one of them has a positive mean, and
      then it has one line per row, with an empty bar exactly for non-positive means
      and a full-width bar for the slowest. */
  lemma ChartMeaning(rows: seq<Record>)
    ensures ChartAsWritten(rows).Some? ==> Chart(rows) == ChartAsWritten(rows).value
    ensures Chart(rows) != [] <==> |rows| > 1 && exists k :: 0 <= k < |rows| && rows[k].meanS > 0.0
    ensures Chart(rows) != [] ==>
              && |Chart(rows)| == |rows|
              && forall k :: 0 <= k < |rows| ==>
                   && Chart(rows)[k].library == rows[k].library
                   && Chart(rows)[k].time == FormatTime(rows[k].meanS)
                   && (Chart(rows)[k].bar == "" <==> rows[k].meanS <= 0.0)
                   && (rows[k].meanS == MaxPositiveMean(rows).value ==> |Chart(rows)[k].bar| == BarWidth)
  {
    if |rows| > 1 && MaxPositiveMean(rows).Some? {
      var m := MaxPositiveMean(rows).value;
      BarsAt(rows, m);
      forall k | 0 <= k < |rows| && rows[k].meanS == m
        ensures |Chart(rows)[k].bar| == BarWidth
      {
        AsciiBarFull(m);
      }
    }
  }

  /** An ok full-parse record of "a.vcd" whose payload entry had no `mean_s`. */
  const Unmeasured0: Record := Record("lib", "Python", "vcd", "a.vcd", "full_parse", 0.0, 0.0, 0, "ok", "", 0, [])

  /** Two ok full-parse records of the same file pass the three comprehensions
      of the full-parse section. */
  lemma UnmeasuredKept(u: Record)
    requires IsOk(u) && u.test == FullParse
    ensures var recs := [u, u];
            Filter(CategoryRecords(Filter(recs, IsOk), FullParse), FileIs(u.file)) == recs
  {
    var recs := [u, u];
    assert Contains(FullParse, FullParse) by {
      assert StartsWith(FullParse, FullParse);
    }
    FilterAll(recs, IsOk);
    FilterAll(recs, TestHas(FullParse));
    FilterAll(recs, FileIs(u.file));
  }

  /** The source raises for two such records: the comprehensions keep both, the
      table sorts them, and the chart's `max` finds no positive mean. */
  lemma ChartRaisesOnUnmeasuredFile()
    ensures var recs := [Unmeasured0, Unmeasured0];
            var rows := SortBy(Filter(CategoryRecords(Filter(recs, IsOk), FullParse), FileIs("a.vcd")), SortKey);
            |rows| == 2 && ChartAsWritten(rows).None?
  {
    UnmeasuredKept(Unmeasured0);
    TwoEqualRows(Unmeasured0);
  }

  /** Two records with the same key stay as they are when sorted, and have no
      positive mean when theirs is not positive. */
  lemma TwoEqualRows(u: Record)
    ensures SortBy([u, u], SortKey) == [u, u]
    ensures u.meanS <= 0.0 ==> MaxPositiveMean([u, u]).None?
  {
    assert [u, u][..1] == [u] && [u][..0] == [] && [u][1..] == [];
    assert SortBy([u], SortKey) == InsertBy(u, [], SortKey) == [u];
    assert InsertBy(u, [u], SortKey) == [u] + InsertBy(u, [], SortKey);
  }

  /** A per-file table: the file, its size when the section shows one, the rows
      in display order and the bar chart (empty when there is none). */
  datatype Table = Table(file: string, size: Option<SizeText>, rows: seq<Record>, chart: seq<Bar>)

  /** The table for file `f`; `full` sections show the size and draw a chart,
      the signal-list section does neither. */
  function TableFor(recs: seq<Record>, f: string, full: bool): Table
    requires Filter(recs, FileIs(f)) != []
  {
    var fileRecs := Filter(recs, FileIs(f));
    var rows := SortBy(fileRecs, SortKey);
    Table(f, if full then Some(SizeTextOf(MaxSize(fileRecs))) else None, rows, if full then Chart(rows) else [])
  }

  /** Rows with equal sort keys (every unmeasured row has 9999) stay in the
      order the records arrived in, as Python's stable `list.sort` keeps them. */
  lemma TableRowsStable(recs: seq<Record>, f: string, full: bool, v: real)
    requires Filter(recs, FileIs(f)) != []
    ensures Filter(TableFor(recs, f, full).rows, KeyIs(SortKey, v)) == Filter(Filter(recs, FileIs(f)), KeyIs(SortKey, v))
  {
    SortByStable(Filter(recs, FileIs(f)), SortKey, v);
  }

  predicate FilesOf(recs: seq<Record>, files: seq<string>) {
    forall k :: 0 <= k < |files| ==> Filter(recs, FileIs(files[k])) != []
  }

  function Tables(recs: seq<Record>, files: seq<string>, full: bool): (ts: seq<Table>)
    requires FilesOf(recs, files)
    ensures |ts| == |files|
  {
    if files == [] then []
    else Tables(recs, files[..|files| - 1], full) + [TableFor(recs, files[|files| - 1], full)]
  }

  lemma {:induction false} TablesAt(recs: seq<Record>, files: seq<string>, full: bool)
    requires FilesOf(recs, files)
    ensures forall k :: 0 <= k < |files| ==> Tables(recs, files, full)[k] == TableFor(recs, files[k], full)
  {
    if files != [] {
      TablesAt(recs, files[..|files| - 1], full);
    }
  }

  lemma FileListHasRecords(recs: seq<Record>)
    ensures FilesOf(recs, FileList(recs))
  {
    FilesMembership(recs);
    forall k | 0 <= k < |FileList(recs)|
      ensures Filter(recs, FileIs(FileList(recs)[k])) != []
    {
      var f := FileList(recs)[k];
      assert f in Files(recs);
      var i :| 0 <= i < |recs| && recs[i].file == f;
      assert FileIs(f)(recs[i]);
      FilterMeaning(recs, FileIs(f));
      assert recs[i] in recs;
    }
  }

  /** The records of one test category, as `recs` in the section's loop. */
  function CategoryRecords(ok: seq<Record>, category: string): seq<Record> {
    Filter(ok, TestHas(category))
  }

  /** One table per distinct non-empty file among the category's records. */
  function SectionTables(ok: seq<Record>, category: string, full: bool): seq<Table> {
    var recs := CategoryRecords(ok, category);
    FileListHasRecords(recs);
    Tables(recs, FileList(recs), full)
  }

  /** The bar-chart loop. */
  method BuildChart(rows: seq<Record>) returns (bars: seq<Bar>)
    ensures bars == Chart(rows)
  {
    bars := [];
    if |rows| > 1 {
      var maxTime := MaxPositiveMean(rows);
      if maxTime.Some? {
        for k := 0 to |rows|
          invariant bars == Bars(rows[..k], maxTime.value)
        {
          var r := rows[k];
          assert rows[..k + 1][..k] == rows[..k];
          bars := bars + [Bar(r.library, AsciiBar(r.meanS, maxTime.value, BarWidth), FormatTime(r.meanS))];
        }
        assert rows[..|rows|] == rows;
      }
    }
  }

  /** The body of a section's loop for one file. */
  method BuildTable(recs: seq<Record>, f: string, full: bool) returns (table: Table)
    requires Filter(recs, FileIs(f)) != []
    ensures table == TableFor(recs, f, full)
  {
    var fileRecs := Filter(recs, FileIs(f));
    var rows := SortBy(fileRecs, SortKey);
    var size: Option<SizeText> := None;
    var chart: seq<Bar> := [];
    if full {
      var t := FormatSize(MaxSize(fileRecs));
      size := Some(t);
      chart := BuildChart(rows);
    }
    table := Table(f, size, rows, chart);
  }

  lemma TablesSnoc(recs: seq<Record>, files: seq<string>, i: nat, full: bool)
    requires FilesOf(recs, files) && i < |files|
    ensures FilesOf(recs, files[..i]) && FilesOf(recs, files[..i + 1])
    ensures Tables(recs, files[..i + 1], full) == Tables(recs, files[..i], full) + [TableFor(recs, files[i], full)]
  {
    assert files[..i + 1][..i] == files[..i];
  }

  /** One section's loop over the files. */
  method BuildSection(ok: seq<Record>, category: string, full: bool) returns (tables: seq<Table>)
    ensures tables == SectionTables(ok, category, full)
  {
    var recs := CategoryRecords(ok, category);
    var files := FileList(recs);
    FileListHasRecords(recs);
    tables := [];
    for i := 0 to |files|
      invariant FilesOf(recs, files[..i])
      invariant tables == Tables(recs, files[..i], full)
    {
      var table := BuildTable(recs, files[i], full);
      TablesSnoc(recs, files, i, full);
      tables := tables + [table];
    }
    assert files[..|files|] == files;
  }

  /** Rows with a positive mean come first, in ascending order of mean; a row
      with a non-positive mean precedes a positive one only if that mean is at
      least 9999 seconds. */
  lemma RowsOrder(rows: seq<Record>, i: nat, j: nat)
    requires SortedBy(rows, SortKey)
    requires i < j < |rows|
    ensures rows[i].meanS > 0.0 && rows[j].meanS > 0.0 ==> rows[i].meanS <= rows[j].meanS
    ensures rows[i].meanS <= 0.0 && rows[j].meanS > 0.0 ==> rows[j].meanS >= Unmeasured
    ensures rows[i].meanS > 0.0 && rows[j].meanS <= 0.0 ==> rows[i].meanS <= Unmeasured
  {
    assert SortKey(rows[i]) <= SortKey(rows[j]);
  }

  /** The tables of a section are in strictly ascending order of file name. */
  lemma SectionFilesSorted(ok: seq<Record>, category: string, full: bool)
    ensures var ts := SectionTables(ok, category, full);
            forall i, j :: 0 <= i < j < |ts| ==> LexLt(ts[i].file, ts[j].file)
  {
    var recs := CategoryRecords(ok, category);
    FileListHasRecords(recs);
    TablesAt(recs, FileList(recs), full);
  }

  /** A section's table: its rows are exactly the section's records for its file,
      ordered by the sort key; it shows a size and may carry a chart only in the
      sections that have them. */
  lemma SectionTable(ok: seq<Record>, category: string, full: bool, k: nat)
    requires k < |SectionTables(ok, category, full)|
    ensures var recs := CategoryRecords(ok, category);
            var t := SectionTables(ok, category, full)[k];
            && t.rows != []
            && SortedBy(t.rows, SortKey)
            && multiset(t.rows) == multiset(Filter(recs, FileIs(t.file)))
            && (forall r :: r in t.rows ==> r in ok && Contains(r.test, category) && r.file == t.file)
            && (t.size.Some? <==> full)
            && (t.chart != [] ==> full)
  {
    var recs := CategoryRecords(ok, category);
    var files := FileList(recs);
    FileListHasRecords(recs);
    TablesAt(recs, files, full);
    var fileRecs := Filter(recs, FileIs(files[k]));
    var t := SectionTables(ok, category, full)[k];
    assert t == TableFor(recs, files[k], full);
    SortByMeaning(fileRecs, SortKey);
    SortByLength(fileRecs, SortKey);
    FilterMeaning(recs, FileIs(files[k]));
    FilterMeaning(ok, TestHas(category));
    forall r | r in t.rows ensures r in ok && Contains(r.test, category) && r.file == t.file {
      assert r in multiset(fileRecs);
      assert r in recs;
      assert FileIs(t.file)(r) && TestHas(category)(r);
    }
  }

  /** Every record of the category with a file appears in the table of that file. */
  lemma SectionCovers(ok: seq<Record>, category: string, full: bool, r: Record)
    requires r in CategoryRecords(ok, category) && r.file != ""
    ensures exists k :: 0 <= k < |SectionTables(ok, category, full)|
                        && SectionTables(ok, category, full)[k].file == r.file
                        && r in SectionTables(ok, category, full)[k].rows
  {
    var recs := CategoryRecords(ok, category);
    var files := FileList(recs);
    FileListHasRecords(recs);
    FilesMembership(recs);
    TablesAt(recs, files, full);
    var ts := SectionTables(ok, category, full);
    var i :| 0 <= i < |recs| && recs[i] == r;
    assert r.file in Files(recs);
    var k :| 0 <= k < |files| && files[k] == r.file;
    assert FileIs(r.file)(r);
    FilterMeaning(recs, FileIs(r.file));
    assert r in multiset(Filter(recs, FileIs(r.file)));
    assert ts[k] == TableFor(recs, r.file, full);
    SortByPerm(Filter(recs, FileIs(r.file)), SortKey);
    assert r in multiset(ts[k].rows);
  }

  // ---------------------------------------------------------------------
  // Ranking
  // ---------------------------------------------------------------------

  /** "library (language)" */
  function LibraryKey(r: Record): string {
    r.library + " (" + r.language + ")"
  }

  /** The keys of `lib_times` in insertion order: each key once, where it first occurs. */
  function LibraryKeys(rs: seq<Record>): seq<string> {
    if rs == [] then []
    else
      var keys := LibraryKeys(rs[..|rs| - 1]);
      var key := LibraryKey(rs[|rs| - 1]);
      if key in keys then keys else keys + [key]
  }

  /** The keys are distinct and are exactly the records' keys. */
  lemma {:induction false} LibraryKeysMeaning(rs: seq<Record>)
    ensures forall i, j :: 0 <= i < j < |LibraryKeys(rs)| ==> LibraryKeys(rs)[i] != LibraryKeys(rs)[j]
    ensures forall key :: key in LibraryKeys(rs) <==> exists k :: 0 <= k < |rs| && LibraryKey(rs[k]) == key
  {
    if rs != [] {
      var pre := rs[..|rs| - 1];
      var keys := LibraryKeys(pre);
      var key := LibraryKey(rs[|rs| - 1]);
      LibraryKeysMeaning(pre);
      assert forall k :: 0 <= k < |rs| - 1 ==> rs[k] == pre[k];
      if key !in keys {
        var r := keys + [key];
        forall i, j | 0 <= i < j < |r|
          ensures r[i] != r[j]
        {
          if j == |keys| {
            assert r[i] == keys[i] && keys[i] in keys;
          } else {
            assert r[i] == keys[i] && r[j] == keys[j];
          }
        }
      }
    }
  }

  /** The positive full-parse means of one library, in record order: `lib_times[key]`. */
  function PositiveMeans(rs: seq<Record>, key: string): seq<real> {
    if rs == [] then []
    else
      var r := rs[|rs| - 1];
      PositiveMeans(rs[..|rs| - 1], key) + (if LibraryKey(r) == key && r.meanS > 0.0 then [r.meanS] else [])
  }

  /** Only positive means are collected. */
  lemma {:induction false} PositiveMeansPositive(rs: seq<Record>, key: string)
    ensures forall k :: 0 <= k < |PositiveMeans(rs, key)| ==> PositiveMeans(rs, key)[k] > 0.0
  {
    if rs != [] {
      var pre := PositiveMeans(rs[..|rs| - 1], key);
      var r := rs[|rs| - 1];
      PositiveMeansPositive(rs[..|rs| - 1], key);
      var ms := pre + (if LibraryKey(r) == key && r.meanS > 0.0 then [r.meanS] else []);
      assert PositiveMeans(rs, key) == ms;
      forall k | 0 <= k < |ms|
        ensures ms[k] > 0.0
      {
        if k < |pre| {
          assert ms[k] == pre[k];
        } else {
          assert ms[k] == r.meanS;
        }
      }
    }
  }

  lemma {:induction false} PositiveMeansNonEmpty(rs: seq<Record>, key: string)
    ensures PositiveMeans(rs, key) != [] <==> exists k :: 0 <= k < |rs| && LibraryKey(rs[k]) == key && rs[k].meanS > 0.0
  {
    if rs != [] {
      PositiveMeansNonEmpty(rs[..|rs| - 1], key);
      assert forall k :: 0 <= k < |rs| - 1 ==> rs[k] == rs[..|rs| - 1][k];
    }
  }

  /** A ranking line: key, average time, number of files it was averaged over. */
  datatype RankEntry = RankEntry(library: string, avg: real, count: nat)

  function Average(e: RankEntry): real { e.avg }

  /** Some entry is for `key`. */
  predicate Ranked(es: seq<RankEntry>, key: string) {
    exists k :: 0 <= k < |es| && es[k].library == key
  }

  /** The entry `lib_times[key]` produces: the mean of its times and their number. */
  function EntryOf(times: seq<real>, key: string): RankEntry
    requires times != []
  {
    RankEntry(key, Sum(times) / |times| as real, |times|)
  }

  /** The entries built from `lib_times`, one for each key with a positive mean. */
  function Entries(rs: seq<Record>, keys: seq<string>): seq<RankEntry> {
    if keys == [] then []
    else
      var key := keys[|keys| - 1];
      var times := PositiveMeans(rs, key);
      Entries(rs, keys[..|keys| - 1]) + (if times != [] then [EntryOf(times, key)] else [])
  }

  /** The ranking: the entries sorted by average. */
  function Ranking(rs: seq<Record>): seq<RankEntry> {
    SortBy(Entries(rs, LibraryKeys(rs)), Average)
  }

  /** Libraries with equal averages stay in first-seen order, as `sorted` is stable. */
  lemma RankingStable(rs: seq<Record>, v: real)
    ensures Filter(Ranking(rs), KeyIs(Average, v)) == Filter(Entries(rs, LibraryKeys(rs)), KeyIs(Average, v))
  {
    SortByStable(Entries(rs, LibraryKeys(rs)), Average, v);
  }

  /** What a ranking entry states about the records. */
  predicate Averages(rs: seq<Record>, e: RankEntry) {
    var times := PositiveMeans(rs, e.library);
    times != [] && e == EntryOf(times, e.library) && e.count >= 1 && e.avg > 0.0
  }

  lemma EntryOfAverages(rs: seq<Record>, key: string)
    requires PositiveMeans(rs, key) != []
    ensures Averages(rs, EntryOf(PositiveMeans(rs, key), key))
  {
    var times := PositiveMeans(rs, key);
    PositiveMeansPositive(rs, key);
    SumPositive(times);
    QuotientPositive(Sum(times), |times| as real);
  }

  /** Every entry belongs to one of the keys and averages that key's times. */
  lemma {:induction false} EntriesMeaning(rs: seq<Record>, keys: seq<string>)
    ensures forall k :: 0 <= k < |Entries(rs, keys)| ==>
              Entries(rs, keys)[k].library in keys && Averages(rs, Entries(rs, keys)[k])
  {
    if keys != [] {
      var pre, key := keys[..|keys| - 1], keys[|keys| - 1];
      EntriesMeaning(rs, pre);
      var times := PositiveMeans(rs, key);
      var olds, es := Entries(rs, pre), Entries(rs, keys);
      assert forall x :: x in pre ==> x in keys;
      if times != [] {
        EntryOfAverages(rs, key);
        assert es == olds + [EntryOf(times, key)];
      } else {
        assert es == olds;
      }
    }
  }

  /** Every key with a positive mean has an entry. */
  lemma {:induction false} EntriesCover(rs: seq<Record>, keys: seq<string>)
    ensures forall key :: key in keys && PositiveMeans(rs, key) != [] ==> Ranked(Entries(rs, keys), key)
  {
    if keys != [] {
      var pre, key := keys[..|keys| - 1], keys[|keys| - 1];
      EntriesCover(rs, pre);
      var times := PositiveMeans(rs, key);
      var olds, es := Entries(rs, pre), Entries(rs, keys);
      assert keys == pre + [key];
      if times != [] {
        assert es == olds + [EntryOf(times, key)];
        assert es[|es| - 1].library == key;
      } else {
        assert es == olds;
      }
      forall key' | key' in pre && PositiveMeans(rs, key') != [] ensures Ranked(es, key') {
        var k :| 0 <= k < |olds| && olds[k].library == key';
        assert es[k].library == key';
      }
    }
  }

  predicate DistinctLibraries(es: seq<RankEntry>) {
    forall i, j :: 0 <= i < j < |es| ==> es[i].library != es[j].library
  }

  lemma {:induction false} EntriesDistinct(rs: seq<Record>, keys: seq<string>)
    requires forall i, j :: 0 <= i < j < |keys| ==> keys[i] != keys[j]
    ensures DistinctLibraries(Entries(rs, keys))
  {
    if keys != [] {
      var pre, key := keys[..|keys| - 1], keys[|keys| - 1];
      EntriesDistinct(rs, pre);
      EntriesMeaning(rs, pre);
      assert key !in pre;
      var times := PositiveMeans(rs, key);
      var es, olds := Entries(rs, keys), Entries(rs, pre);
      if times != [] {
        var e := EntryOf(times, key);
        assert es == olds + [e];
        forall i, j | 0 <= i < j < |es| ensures es[i].library != es[j].library {
          assert es[i] == olds[i];
          if j == |es| - 1 {
            assert olds[i].library in pre;
            assert es[j] == e;
          } else {
            assert es[j] == olds[j];
          }
        }
      } else {
        assert es == olds;
      }
    }
  }

  /** A permutation of entries with distinct libraries has distinct libraries. */
  lemma DistinctAfterSort(es: seq<RankEntry>, sorted: seq<RankEntry>, i: nat, j: nat)
    requires DistinctLibraries(es)
    requires multiset(sorted) == multiset(es)
    requires i < j < |sorted|
    ensures sorted[i].library != sorted[j].library
  {
    if sorted[i].library == sorted[j].library {
      assert sorted[i] in multiset(es) && sorted[j] in multiset(es);
      var a :| 0 <= a < |es| && es[a] == sorted[i];
      var b :| 0 <= b < |es| && es[b] == sorted[j];
      assert a == b;
      var x := sorted[i];
      assert sorted == sorted[..j] + [x] + sorted[j + 1..];
      assert x in sorted[..j];
      assert multiset(sorted)[x] >= 2 by {
        assert multiset(sorted) == multiset(sorted[..j]) + multiset{x} + multiset(sorted[j + 1..]);
      }
      MultisetCountOne(es, a);
      assert false;
    }
  }

  /** In entries with distinct libraries each entry occurs once. */
  lemma MultisetCountOne(es: seq<RankEntry>, a: nat)
    requires DistinctLibraries(es)
    requires a < |es|
    ensures multiset(es)[es[a]] == 1
  {
    var e := es[a];
    var before, after := es[..a], es[a + 1..];
    assert es == before + [e] + after;
    assert e !in before by {
      forall x | 0 <= x < a ensures before[x] != e { assert es[x].library != e.library; }
    }
    assert e !in after by {
      forall x | 0 <= x < |after| ensures after[x] != e {
        assert after[x] == es[a + 1 + x];
      }
    }
    assert multiset(es) == multiset(before) + multiset{e} + multiset(after);
  }

  /** Every ranked entry averages exactly its library's positive full-parse
      means, so its average is positive and its count is the number of them. */
  lemma RankingAverages(rs: seq<Record>)
    ensures forall k :: 0 <= k < |Ranking(rs)| ==> Averages(rs, Ranking(rs)[k])
  {
    var es := Entries(rs, LibraryKeys(rs));
    var ranking := Ranking(rs);
    SortByPerm(es, Average);
    EntriesMeaning(rs, LibraryKeys(rs));
    forall k | 0 <= k < |ranking| ensures Averages(rs, ranking[k]) {
      assert ranking[k] in multiset(es);
      var j :| 0 <= j < |es| && es[j] == ranking[k];
    }
  }

  /** The ranking is in ascending order of average, and no "library (language)"
      is ranked twice. */
  lemma RankingDistinct(rs: seq<Record>)
    ensures SortedBy(Ranking(rs), Average)
    ensures DistinctLibraries(Ranking(rs))
  {
    var es := Entries(rs, LibraryKeys(rs));
    var ranking := Ranking(rs);
    SortByMeaning(es, Average);
    LibraryKeysMeaning(rs);
    EntriesDistinct(rs, LibraryKeys(rs));
    forall i, j | 0 <= i < j < |ranking| ensures ranking[i].library != ranking[j].library {
      DistinctAfterSort(es, ranking, i, j);
    }
  }

  /** A "library (language)" is ranked iff one of its records has a positive mean. */
  lemma RankingCover(rs: seq<Record>)
    ensures forall key :: Ranked(Ranking(rs), key) <==>
              exists k :: 0 <= k < |rs| && LibraryKey(rs[k]) == key && rs[k].meanS > 0.0
  {
    var es := Entries(rs, LibraryKeys(rs));
    var ranking := Ranking(rs);
    RankingAverages(rs);
    SortByPerm(es, Average);
    LibraryKeysMeaning(rs);
    EntriesCover(rs, LibraryKeys(rs));
    forall key | Ranked(ranking, key)
      ensures exists k :: 0 <= k < |rs| && LibraryKey(rs[k]) == key && rs[k].meanS > 0.0
    {
      var k :| 0 <= k < |ranking| && ranking[k].library == key;
      assert Averages(rs, ranking[k]);
      PositiveMeansNonEmpty(rs, key);
    }
    forall key | exists k :: 0 <= k < |rs| && LibraryKey(rs[k]) == key && rs[k].meanS > 0.0
      ensures Ranked(ranking, key)
    {
      PositiveMeansNonEmpty(rs, key);
      var k :| 0 <= k < |es| && es[k].library == key;
      assert es[k] in multiset(ranking);
      var j :| 0 <= j < |ranking| && ranking[j] == es[k];
      assert ranking[j].library == key;
    }
  }

  /** The fastest entry and every other entry's ratio to it. */
  datatype Slowdowns = Slowdowns(fastest: RankEntry, ratios: seq<(string, real)>)

  /** Printed only for more than one entry with a positive fastest average. */
  function SlowdownsOf(ranking: seq<RankEntry>): Option<Slowdowns> {
    if |ranking| > 1 && ranking[0].avg > 0.0 then
      Some(Slowdowns(ranking[0], seq(|ranking| - 1, k requires 0 <= k < |ranking| - 1 =>
                                       (ranking[k + 1].library, ranking[k + 1].avg / ranking[0].avg))))
    else None
  }

  /** The slowdowns are reported whenever more than one library is ranked; every
      entry but the fastest gets one, and every ratio is at least 1. */
  lemma SlowdownsAtLeastOne(rs: seq<Record>)
    ensures SlowdownsOf(Ranking(rs)).Some? <==> |Ranking(rs)| > 1
    ensures var s := SlowdownsOf(Ranking(rs));
            s.Some? ==> |s.value.ratios| == |Ranking(rs)| - 1
                        && forall k :: 0 <= k < |s.value.ratios| ==> s.value.ratios[k].1 >= 1.0
  {
    var ranking := Ranking(rs);
    RankingAverages(rs);
    SortByMeaning(Entries(rs, LibraryKeys(rs)), Average);
    if |ranking| > 1 {
      var f := ranking[0].avg;
      assert Averages(rs, ranking[0]);
      var ratios := SlowdownsOf(ranking).value.ratios;
      forall k | 0 <= k < |ratios| ensures ratios[k].1 >= 1.0 {
        assert Average(ranking[0]) <= Average(ranking[k + 1]);
        assert ratios[k].1 == ranking[k + 1].avg / f;
        RatioAtLeastOne(ranking[k + 1].avg, f);
      }
    }
  }

  lemma RatioAtLeastOne(a: real, f: real)
    requires 0.0 < f <= a
    ensures a / f >= 1.0
  {
    assert a / f * f == a;
  }

  /** `keys` and `lib_times` as the first loop of the ranking leaves them after
      the records `rs`. */
  ghost predicate Collected(rs: seq<Record>, keys: seq<string>, libTimes: map<string, seq<real>>) {
    && keys == LibraryKeys(rs)
    && (forall key :: key in libTimes <==> key in keys)
    && (forall key :: key in libTimes ==> libTimes[key] == PositiveMeans(rs, key))
  }

  /** One more record: its key is added when new, with no times yet, and its
      mean is appended to its key's times when positive. */
  lemma CollectStep(rs: seq<Record>, keys: seq<string>, libTimes: map<string, seq<real>>)
    requires rs != [] && Collected(rs[..|rs| - 1], keys, libTimes)
    ensures var r := rs[|rs| - 1];
            var lib := LibraryKey(r);
            var keys' := if lib in libTimes then keys else keys + [lib];
            var added := if lib in libTimes then libTimes else libTimes[lib := []];
            Collected(rs, keys', if r.meanS > 0.0 then added[lib := added[lib] + [r.meanS]] else added)
  {
    var pre := rs[..|rs| - 1];
    var r := rs[|rs| - 1];
    var lib := LibraryKey(r);
    var added := if lib in libTimes then libTimes else libTimes[lib := []];
    var after := if r.meanS > 0.0 then added[lib := added[lib] + [r.meanS]] else added;
    if lib !in libTimes {
      assert PositiveMeans(pre, lib) == [] by {
        LibraryKeysMeaning(pre);
        PositiveMeansNonEmpty(pre, lib);
      }
    }
    forall key | key in after
      ensures after[key] == PositiveMeans(rs, key)
    {
      assert PositiveMeans(rs, key)
             == PositiveMeans(pre, key) + (if LibraryKey(r) == key && r.meanS > 0.0 then [r.meanS] else []);
    }
  }

  /** The first loop of the ranking: `lib_times` filled record by record, its
      keys in the order they were first seen. */
  method CollectTimes(parse: seq<Record>) returns (keys: seq<string>, libTimes: map<string, seq<real>>)
    ensures keys == LibraryKeys(parse)
    ensures forall key :: key in libTimes <==> key in keys
    ensures forall key :: key in libTimes ==> libTimes[key] == PositiveMeans(parse, key)
  {
    keys := [];
    libTimes := map[];
    for i := 0 to |parse|
      invariant Collected(parse[..i], keys, libTimes)
    {
      var r := parse[i];
      var lib := LibraryKey(r);
      assert parse[..i + 1][..i] == parse[..i];
      CollectStep(parse[..i + 1], keys, libTimes);
      if lib !in libTimes {
        libTimes := libTimes[lib := []];
        keys := keys + [lib];
      }
      if r.meanS > 0.0 {
        libTimes := libTimes[lib := libTimes[lib] + [r.meanS]];
      }
    }
    assert parse[..|parse|] == parse;
  }

  /** The ranking: `lib_times` collected, then one entry per key with times,
      then sorted. */
  method RankLibraries(parse: seq<Record>) returns (ranking: seq<RankEntry>)
    ensures ranking == Ranking(parse)
  {
    var keys, libTimes := CollectTimes(parse);
    var entries: seq<RankEntry> := [];
    for k := 0 to |keys|
      invariant entries == Entries(parse, keys[..k])
    {
      var times := libTimes[keys[k]];
      assert keys[..k + 1][..k] == keys[..k];
      if times != [] {
        entries := entries + [EntryOf(times, keys[k])];
      }
    }
    assert keys[..|keys|] == keys;
    ranking := SortBy(entries, Average);
  }

  // ---------------------------------------------------------------------
  // Failures and summary
  // ---------------------------------------------------------------------

  const ErrorWidth: nat := 80

  datatype FailureRow = FailureRow(library: string, test: string, status: string, error: string)

  /** One row per failed record, in order, with the error cut to 80 characters. */
  function FailureTable(failed: seq<Record>): (rows: seq<FailureRow>)
    ensures |rows| == |failed|
    ensures forall k :: 0 <= k < |rows| ==>
              && rows[k].library == failed[k].library
              && rows[k].test == failed[k].test
              && rows[k].status == failed[k].status
              && |rows[k].error| <= ErrorWidth
              && StartsWith(failed[k].error, rows[k].error)
              && (|failed[k].error| <= ErrorWidth ==> rows[k].error == failed[k].error)
  {
    seq(|failed|, k requires 0 <= k < |failed| =>
      FailureRow(failed[k].library, failed[k].test, failed[k].status, Take(failed[k].error, ErrorWidth)))
  }

  method BuildFailureTable(failed: seq<Record>) returns (rows: seq<FailureRow>)
    ensures rows == FailureTable(failed)
  {
    rows := [];
    for k := 0 to |failed|
      invariant rows == FailureTable(failed[..k])
    {
      var r := failed[k];
      rows := rows + [FailureRow(r.library, r.test, r.status, Take(r.error, ErrorWidth))];
    }
    assert failed[..|failed|] == failed;
  }

  /** How the `error` key of a record can arrive: absent, JSON null, or a
      string. The normaliser copies it with `get("error", "")`, which turns
      only the absent key into "". */
  datatype ErrorJson = ErrorAbsent | ErrorNull | ErrorString(text: string)

  /** What the Rust sampler's serialiser writes for its `error: Option<String>`. */
  function SerializedError(e: Option<string>): ErrorJson {
    if e.None? then ErrorNull else ErrorString(e.value)
  }

  /** The failures-table cell as written, `r.get("error", "")[:80]`: slicing a
      null raises a TypeError, which `None` stands for. */
  function ErrorCellAsWritten(e: ErrorJson): (cell: Option<string>)
    ensures cell.None? <==> e.ErrorNull?
    ensures cell.Some? ==> |cell.value| <= ErrorWidth
  {
    match e
    case ErrorAbsent => Some("")
    case ErrorNull => None
    case ErrorString(s) => Some(Take(s, ErrorWidth))
  }

  /** The cell as evidently intended, and as `FailureTable` prints it: a
      missing or null error is empty, a string is cut to 80 characters; it
      agrees with the code wherever the code does not raise. */
  function ErrorCell(e: ErrorJson): (cell: string)
    ensures |cell| <= ErrorWidth
    ensures ErrorCellAsWritten(e).Some? ==> cell == ErrorCellAsWritten(e).value
    ensures e.ErrorString? ==> StartsWith(e.text, cell)
    ensures !e.ErrorString? ==> cell == ""
  {
    match e
    case ErrorString(s) => Take(s, ErrorWidth)
    case _ => ""
  }

  /** With zero repetitions the Rust sampler reports a failed result whose
      error is null, and the failures table as written raises on it. */
  lemma ZeroRepetitionsBreakFailureTable(peakKb: nat, sqrt: real -> real)
    ensures var r := RustBench.BenchOf([], peakKb, sqrt);
            r.status == "error" && ErrorCellAsWritten(SerializedError(r.error)).None?
  {
    RustBench.BenchOfMeaning([], peakKb, sqrt);
  }

  /** The libraries of the records whose format is one of `formats`. */
  function LibrariesWithFormat(rs: seq<Record>, formats: set<string>): set<string> {
    if rs == [] then {}
    else
      var r := rs[|rs| - 1];
      LibrariesWithFormat(rs[..|rs| - 1], formats) + (if r.format in formats then {r.library} else {})
  }

  lemma {:induction false} LibrariesWithFormatMeaning(rs: seq<Record>, formats: set<string>)
    ensures forall lib :: lib in LibrariesWithFormat(rs, formats) <==>
              exists k :: 0 <= k < |rs| && rs[k].library == lib && rs[k].format in formats
  {
    if rs != [] {
      LibrariesWithFormatMeaning(rs[..|rs| - 1], formats);
      assert forall k :: 0 <= k < |rs| - 1 ==> rs[k] == rs[..|rs| - 1][k];
    }
  }

  const VcdFormats: set<string> := {"vcd", "vcd+fst"}
  const FstFormats: set<string> := {"fst", "vcd+fst"}

  /** The summary loop over the ok records. */
  method SummaryLibraries(ok: seq<Record>) returns (vcdLibs: set<string>, fstLibs: set<string>)
    ensures vcdLibs == LibrariesWithFormat(ok, VcdFormats)
    ensures fstLibs == LibrariesWithFormat(ok, FstFormats)
  {
    vcdLibs, fstLibs := {}, {};
    for i := 0 to |ok|
      invariant vcdLibs == LibrariesWithFormat(ok[..i], VcdFormats)
      invariant fstLibs == LibrariesWithFormat(ok[..i], FstFormats)
    {
      var r := ok[i];
      assert ok[..i + 1][..i] == ok[..i];
      if r.format in VcdFormats {
        vcdLibs := vcdLibs + {r.library};
      }
      if r.format in FstFormats {
        fstLibs := fstLibs + {r.library};
      }
    }
    assert ok[..|ok|] == ok;
  }

  // ---------------------------------------------------------------------
  // The whole report
  // ---------------------------------------------------------------------

  datatype RankingSection = RankingSection(entries: seq<RankEntry>, slowdowns: Option<Slowdowns>)

  datatype Report = Report(
    scale: string,
    total: nat,
    passed: nat,
    failed: nat,
    fullParse: seq<Table>,
    signalList: seq<Table>,
    valueQuery: seq<Table>,
    pipeline: seq<Table>,
    ranking: Option<RankingSection>,
    failures: seq<FailureRow>,
    vcdLibraries: set<string>,
    fstLibraries: set<string>)

  function ReportOf(records: seq<Record>, scale: string): Report {
    var ok := Filter(records, IsOk);
    var failed := Filter(records, IsFailed);
    var parse := CategoryRecords(ok, FullParse);
    Report(scale, |records|, |ok|, |failed|,
           SectionTables(ok, FullParse, true),
           SectionTables(ok, SignalList, false),
           SectionTables(ok, ValueQuery, true),
           SectionTables(ok, Pipeline, true),
           if parse == [] then None else Some(RankingSection(Ranking(parse), SlowdownsOf(Ranking(parse)))),
           FailureTable(failed),
           LibrariesWithFormat(ok, VcdFormats),
           LibrariesWithFormat(ok, FstFormats))
  }

  /** `generate_report(records, scale, ...)`, up to rendering the structure as Markdown. */
  method GenerateReport(records: seq<Record>, scale: string) returns (report: Report)
    ensures report == ReportOf(records, scale)
  {
    var ok := Filter(records, IsOk);
    var failed := Filter(records, IsFailed);
    var fullParse := BuildSection(ok, FullParse, true);
    var signalList := BuildSection(ok, SignalList, false);
    var valueQuery := BuildSection(ok, ValueQuery, true);
    var pipeline := BuildSection(ok, Pipeline, true);
    var parse := CategoryRecords(ok, FullParse);
    var ranking: Option<RankingSection> := None;
    if parse != [] {
      var entries := RankLibraries(parse);
      ranking := Some(RankingSection(entries, SlowdownsOf(entries)));
    }
    var failures := BuildFailureTable(failed);
    var vcdLibs, fstLibs := SummaryLibraries(ok);
    report := Report(scale, |records|, |ok|, |failed|, fullParse, signalList, valueQuery, pipeline,
                     ranking, failures, vcdLibs, fstLibs);
  }

  /** Every record is either passed or failed, never both: the counts add up and
      the failures table lists each failed record once. */
  lemma ReportCounts(records: seq<Record>, scale: string)
    ensures var rep := ReportOf(records, scale);
            && rep.passed + rep.failed == rep.total
            && |rep.failures| == rep.failed
            && multiset(Filter(records, IsOk)) + multiset(Filter(records, IsFailed)) == multiset(records)
  {
    FilterSplit(records, IsOk, IsFailed);
  }

  /** The ranking section is present exactly when some passed record is a
      full-parse test. */
  lemma ReportRanking(records: seq<Record>, scale: string)
    ensures ReportOf(records, scale).ranking.Some?
            <==> exists r :: r in records && r.status == "ok" && Contains(r.test, FullParse)
  {
    FullParseRecords(records);
  }

  /** Some passed record is a full-parse test exactly when the full-parse
      comprehension over the passed records is not empty. */
  lemma FullParseRecords(records: seq<Record>)
    ensures CategoryRecords(Filter(records, IsOk), FullParse) != []
            <==> exists r :: r in records && r.status == "ok" && Contains(r.test, FullParse)
  {
    var ok := Filter(records, IsOk);
    var parse := CategoryRecords(ok, FullParse);
    FilterMeaning(records, IsOk);
    FilterMeaning(ok, TestHas(FullParse));
    if exists r :: r in records && r.status == "ok" && Contains(r.test, FullParse) {
      var r :| r in records && r.status == "ok" && Contains(r.test, FullParse);
      assert r in ok;
      assert TestHas(FullParse)(r);
      assert r in parse;
    }
    if parse != [] {
      assert parse[0] in parse;
    }
  }

  /** Three libraries measured on one file with means 2.0 (A), 1.0 (B) and 0 (C). */
  function ScenarioRecord(library: string, mean: real): Record {
    Record(library, "Rust", "vcd", "f.vcd", "full_parse", mean, 0.0, 0, "ok", "", 0, [])
  }

  const ScenarioA: Record := ScenarioRecord("A", 2.0)
  const ScenarioB: Record := ScenarioRecord("B", 1.0)
  const ScenarioC: Record := ScenarioRecord("C", 0.0)

  lemma ScenarioKeys()
    ensures LibraryKeys([ScenarioA, ScenarioB, ScenarioC]) == ["A (Rust)", "B (Rust)", "C (Rust)"]
  {
    var rs := [ScenarioA, ScenarioB, ScenarioC];
    assert rs[..1] == [ScenarioA] && rs[..2] == [ScenarioA, ScenarioB] && [ScenarioA, ScenarioB][..1] == [ScenarioA];
    assert LibraryKey(ScenarioA) == "A (Rust)" && LibraryKey(ScenarioB) == "B (Rust)" && LibraryKey(ScenarioC) == "C (Rust)";
    assert "B (Rust)" != "A (Rust)" && "C (Rust)" != "A (Rust)" && "C (Rust)" != "B (Rust)";
    assert LibraryKeys([ScenarioA]) == ["A (Rust)"];
    assert LibraryKeys([ScenarioA, ScenarioB]) == ["A (Rust)", "B (Rust)"];
  }

  lemma ScenarioMeans()
    ensures PositiveMeans([ScenarioA, ScenarioB, ScenarioC], "A (Rust)") == [2.0]
    ensures PositiveMeans([ScenarioA, ScenarioB, ScenarioC], "B (Rust)") == [1.0]
    ensures PositiveMeans([ScenarioA, ScenarioB, ScenarioC], "C (Rust)") == []
  {
    var rs := [ScenarioA, ScenarioB, ScenarioC];
    assert rs[..1] == [ScenarioA] && rs[..2] == [ScenarioA, ScenarioB] && [ScenarioA, ScenarioB][..1] == [ScenarioA];
    assert LibraryKey(ScenarioA) == "A (Rust)" && LibraryKey(ScenarioB) == "B (Rust)" && LibraryKey(ScenarioC) == "C (Rust)";
    assert "B (Rust)" != "A (Rust)" && "C (Rust)" != "A (Rust)" && "C (Rust)" != "B (Rust)";
    assert PositiveMeans([ScenarioA], "A (Rust)") == [2.0];
    assert PositiveMeans([ScenarioA, ScenarioB], "A (Rust)") == [2.0];
    assert PositiveMeans([ScenarioA], "B (Rust)") == [];
    assert PositiveMeans([ScenarioA, ScenarioB], "B (Rust)") == [1.0];
    assert PositiveMeans([ScenarioA], "C (Rust)") == [];
    assert PositiveMeans([ScenarioA, ScenarioB], "C (Rust)") == [];
  }

  lemma EntryOfOne(x: real, key: string)
    ensures EntryOf([x], key) == RankEntry(key, x, 1)
  {
    assert [x][..0] == [];
    assert Sum([x]) == x;
    assert |[x]| as real == 1.0;
  }

  /** The three records give an entry for A and one for B, in the order the
      libraries were first seen. */
  lemma ScenarioEntries()
    ensures var rs := [ScenarioA, ScenarioB, ScenarioC];
            Entries(rs, LibraryKeys(rs)) == [RankEntry("A (Rust)", 2.0, 1), RankEntry("B (Rust)", 1.0, 1)]
  {
    var rs := [ScenarioA, ScenarioB, ScenarioC];
    var keys := ["A (Rust)", "B (Rust)", "C (Rust)"];
    var ea := RankEntry("A (Rust)", 2.0, 1);
    var eb := RankEntry("B (Rust)", 1.0, 1);
    ScenarioKeys();
    ScenarioMeans();
    EntryOfOne(2.0, "A (Rust)");
    EntryOfOne(1.0, "B (Rust)");
    assert keys[..1] == ["A (Rust)"] && keys[..2] == ["A (Rust)", "B (Rust)"] && keys[..2][..1] == keys[..1];
    assert Entries(rs, keys[..1]) == [ea];
    assert Entries(rs, keys[..2]) == [ea, eb];
  }

  /** The ranking of the three: B first, then A at twice B's time; C has no
      positive mean and is not ranked. */
  lemma RankingScenario()
    ensures Ranking([ScenarioA, ScenarioB, ScenarioC]) == [RankEntry("B (Rust)", 1.0, 1), RankEntry("A (Rust)", 2.0, 1)]
    ensures SlowdownsOf(Ranking([ScenarioA, ScenarioB, ScenarioC]))
              == Some(Slowdowns(RankEntry("B (Rust)", 1.0, 1), [("A (Rust)", 2.0)]))
  {
    var rs := [ScenarioA, ScenarioB, ScenarioC];
    var ea := RankEntry("A (Rust)", 2.0, 1);
    var eb := RankEntry("B (Rust)", 1.0, 1);
    ScenarioEntries();
    assert SortBy([ea, eb], Average) == [eb, ea] by {
      assert [ea, eb][..1] == [ea] && [ea][..0] == [];
      assert SortBy([ea], Average) == [ea];
      assert [ea][1..] == [];
      assert InsertBy(eb, [ea], Average) == [eb, ea];
    }
    assert SlowdownsOf([eb, ea]) == Some(Slowdowns(eb, [(ea.library, 2.0)])) by {
      SlowdownsOfPair(eb, ea);
      assert ea.avg / eb.avg == 2.0;
    }
  }

  lemma SlowdownsOfPair(x: RankEntry, y: RankEntry)
    requires x.avg > 0.0
    ensures SlowdownsOf([x, y]) == Some(Slowdowns(x, [(y.library, y.avg / x.avg)]))
  {
    assert SlowdownsOf([x, y]).value.ratios == [(y.library, y.avg / x.avg)];
  }

}
