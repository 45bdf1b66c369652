/**
 * Nested loops flattened: a row per key, the rows one after the other. Both
 * samplers emit their results this way (files outside, tests or libraries
 * inside), and positions in the flattened list are stated with `Offset`.
 */
module Rows {

  /** One cell per name, in the names' order: an inner loop. */
  function Cells<T>(names: seq<string>, cell: string -> T): (r: seq<T>)
    ensures |r| == |names|
  {
    if names == [] then []
    else Cells(names[..|names| - 1], cell) + [cell(names[|names| - 1])]
  }

  lemma {:induction false} CellsAt<T>(names: seq<string>, cell: string -> T, j: nat)
    requires j < |names|
    ensures Cells(names, cell)[j] == cell(names[j])
  {
    var front := names[..|names| - 1];
    assert Cells(names, cell) == Cells(front, cell) + [cell(names[|names| - 1])];
    if j < |names| - 1 {
      CellsAt(front, cell, j);
      assert front[j] == names[j];
    }
  }

  /** One more turn of an inner loop that appends its cells to `prefix`. */
  lemma CellsStep<T>(prefix: seq<T>, out: seq<T>, names: seq<string>, cell: string -> T, j: nat)
    requires j < |names| && out == prefix + Cells(names[..j], cell)
    ensures out + [cell(names[j])] == prefix + Cells(names[..j + 1], cell)
  {
    assert names[..j + 1][..j] == names[..j];
    assert Cells(names[..j + 1], cell) == Cells(names[..j], cell) + [cell(names[j])];
    assert (prefix + Cells(names[..j], cell)) + [cell(names[j])] == prefix + (Cells(names[..j], cell) + [cell(names[j])]);
  }

  /** The rows of `files`, one after the other in the files' order: an outer
      loop. */
  function Flatten<T>(files: seq<string>, row: string -> seq<T>): seq<T> {
    if files == [] then []
    else Flatten(files[..|files| - 1], row) + row(files[|files| - 1])
  }

  /** One more turn of an outer loop that appends a row. */
  lemma FlattenStep<T>(files: seq<string>, row: string -> seq<T>, i: nat)
    requires i < |files|
    ensures Flatten(files[..i], row) + row(files[i]) == Flatten(files[..i + 1], row)
  {
    assert files[..i + 1][..i] == files[..i];
  }

  /** Cell `j` of row `i` when every row is `width` cells wide. */
  function Slot(i: nat, width: nat, j: nat): nat {
    i * width + j
  }

  /** `i * width`, added up one row at a time: positions in a flattened list
      are stated with it, which keeps the proofs free of multiplication. */
  function Offset(i: nat, width: nat): nat {
    if i == 0 then 0 else Offset(i - 1, width) + width
  }

  lemma {:induction false} OffsetIsProduct(i: nat, width: nat)
    ensures Offset(i, width) == i * width
  {
    if i > 0 {
      OffsetIsProduct(i - 1, width);
      MulPred(i, width);
    }
  }

  lemma MulPred(n: nat, t: nat)
    requires n > 0
    ensures (n - 1) * t + t == n * t
  {
  }

  /** Rows of equal width `width` flatten to `Offset(|files|, width)` cells. */
  lemma {:induction false} FlattenSize<T>(files: seq<string>, row: string -> seq<T>, width: nat)
    requires forall k :: 0 <= k < |files| ==> |row(files[k])| == width
    ensures |Flatten(files, row)| == Offset(|files|, width)
  {
    if files != [] {
      var front := files[..|files| - 1];
      forall k | 0 <= k < |front|
        ensures |row(front[k])| == width
      {
        assert front[k] == files[k];
      }
      FlattenSize(front, row, width);
    }
  }

  /** Cell `j` of row `i` sits at `Offset(i, width) + j`. */
  lemma {:induction false} FlattenAt<T>(files: seq<string>, row: string -> seq<T>, width: nat, i: nat, j: nat)
    requires forall k :: 0 <= k < |files| ==> |row(files[k])| == width
    requires i < |files| && j < width
    ensures Offset(i, width) + j < |Flatten(files, row)|
    ensures Flatten(files, row)[Offset(i, width) + j] == row(files[i])[j]
  {
    var n := |files|;
    var front := files[..n - 1];
    var pre := Flatten(front, row);
    var r := Flatten(files, row);
    assert r == pre + row(files[n - 1]);
    forall k | 0 <= k < |front|
      ensures |row(front[k])| == width
    {
      assert front[k] == files[k];
    }
    FlattenSize(front, row, width);
    var idx := Offset(i, width) + j;
    if i < n - 1 {
      FlattenAt(front, row, width, i, j);
      assert front[i] == files[i];
      assert r[idx] == pre[idx];
    } else {
      assert |front| == i;
      assert idx == |pre| + j;
    }
  }
}
