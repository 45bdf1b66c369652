/**
 * benchmarks/generate_testdata.py: the rules by which the synthetic VCD and
 * FST files are generated. The writers themselves (pyvcd's `VCDWriter`, the
 * `fstWriter*` calls of libfst) are outside the model; what is modelled is
 * the sequence of calls the two generators make on them: the variables they
 * declare and, step by step, the time changes and value changes they emit.
 */
module TestData {
  import opened Wrappers
  import opened Text

  // ---------------------------------------------------------------------
  // Scale configurations
  // ---------------------------------------------------------------------

  datatype ScaleConfig = ScaleConfig(numSignals: nat, numTimesteps: nat)

  const Scales: seq<string> := ["small", "medium", "large"]

  /** `SCALE_CONFIG[scale]`, absent for a name the table does not have. */
  function ConfigOf(scale: string): (c: Option<ScaleConfig>)
    ensures c.Some? <==> scale in Scales
  {
    if scale == "small" then Some(ScaleConfig(50, 1000))
    else if scale == "medium" then Some(ScaleConfig(200, 10000))
    else if scale == "large" then Some(ScaleConfig(2000, 200000))
    else None
  }

  /** The scales `main` generates for a `--scale` choice; the argument parser
      admits only the table's names and "all". */
  function ScalesToGenerate(choice: string): (scales: seq<string>)
    requires choice == "all" || choice in Scales
    ensures forall s :: s in scales ==> ConfigOf(s).Some?
    ensures choice == "all" ==> scales == Scales
    ensures choice != "all" ==> scales == [choice]
  {
    if choice == "all" then Scales else [choice]
  }

  /** `dense = num_signals > 500` */
  predicate Dense(numSignals: nat) {
    numSignals > 500
  }

  /** Of the three scales only "large" uses the dense change pattern. */
  lemma OnlyLargeIsDense(scale: string)
    requires scale in Scales
    ensures Dense(ConfigOf(scale).value.numSignals) <==> scale == "large"
  {
  }

  // ---------------------------------------------------------------------
  // The per-signal rules
  // ---------------------------------------------------------------------

  /** The width of signal `i`: 1, 8 and 32 bits in turn. */
  function Width(i: nat): (size: nat)
    ensures size == 1 || size == 8 || size == 32
  {
    if i % 3 == 0 then 1 else if i % 3 == 1 then 8 else 32
  }

  /** The widths of the first `n` signals. */
  function Widths(n: nat): (sizes: seq<nat>)
    ensures |sizes| == n
    ensures forall i :: 0 <= i < n ==> sizes[i] == Width(i)
  {
    seq(n, i requires 0 <= i => Width(i))
  }

  /** The variable-declaration loop, the same in both generators: one
      variable per index, of width `Width(i)`, appended in index order. */
  method DeclareSignals(numSignals: nat) returns (sizes: seq<nat>)
    ensures sizes == Widths(numSignals)
  {
    sizes := [];
    var i := 0;
    while i < numSignals
      invariant i <= numSignals
      invariant sizes == Widths(i)
    {
      var size;
      if i % 3 == 0 {
        size := 1;
      } else if i % 3 == 1 {
        size := 8;
      } else {
        size := 32;
      }
      sizes := sizes + [size];
      i := i + 1;
    }
  }

  /** The change modulus of signal `i`: it changes at the steps divisible by
      it. In the dense pattern it is a tenth of `i + 1`, but never 0. */
  function Modulus(i: nat, dense: bool): (m: nat)
    ensures 1 <= m <= i + 1
    ensures !dense ==> m == i + 1
    ensures dense ==> m == if (i + 1) / 10 < 1 then 1 else (i + 1) / 10
  {
    if dense then (if (i + 1) / 10 > 1 then (i + 1) / 10 else 1) else i + 1
  }

  /** Whether signal `i` changes at step `t`. */
  predicate ChangesAt(t: nat, i: nat, dense: bool) {
    t % Modulus(i, dense) == 0
  }

  function Pow2(n: nat): (p: nat)
    ensures p >= 1
  {
    if n == 0 then 1 else 2 * Pow2(n - 1)
  }

  /** The value signal `i` of width `size` takes at step `t`; it always fits
      in the signal's width, and every signal is 0 at step 0. */
  function Value(t: nat, i: nat, size: nat): (v: nat)
    ensures v < Pow2(size)
    ensures size == 1 ==> v <= 1
    ensures t == 0 ==> v == 0
  {
    if size == 1 then t % 2
    else
      var product := t * (i + 1);
      assert t == 0 ==> product == 0;
      product % Pow2(size)
  }

  // ---------------------------------------------------------------------
  // Zero-padded binary text, `format(v, f"0{size}b")`
  // ---------------------------------------------------------------------

  function BitChar(b: nat): char
    requires b < 2
  {
    if b == 0 then '0' else '1'
  }

  predicate IsBinary(s: string) {
    forall k :: 0 <= k < |s| ==> s[k] == '0' || s[k] == '1'
  }

  /** The binary digits of `v`, without leading zeros ("0" for zero). */
  function BinDigits(v: nat): (s: string)
    ensures 1 <= |s|
    ensures IsBinary(s)
  {
    if v < 2 then [BitChar(v)] else BinDigits(v / 2) + [BitChar(v % 2)]
  }

  function Zeros(n: nat): (s: string)
    ensures |s| == n
  {
    seq(n, _ => '0')
  }

  /** `format(v, f"0{width}b")`: the digits, left-padded with zeros to `width`. */
  function FormatBinary(v: nat, width: nat): string {
    var d := BinDigits(v);
    if |d| < width then Zeros(width - |d|) + d else d
  }

  /** `int(s, 2)` for a string of binary digits. */
  function BinaryValue(s: string): nat {
    if s == [] then 0
    else 2 * BinaryValue(s[..|s| - 1]) + (if s[|s| - 1] == '1' then 1 else 0)
  }

  lemma {:induction false} BinaryValueOfDigits(v: nat)
    ensures BinaryValue(BinDigits(v)) == v
  {
    if v >= 2 {
      BinaryValueOfDigits(v / 2);
      var s := BinDigits(v);
      assert s[..|s| - 1] == BinDigits(v / 2);
    }
  }

  /** A value below 2^w has at most `w` binary digits. */
  lemma {:induction false} DigitsFit(v: nat, w: nat)
    requires 1 <= w && v < Pow2(w)
    ensures |BinDigits(v)| <= w
  {
    if v >= 2 {
      assert w != 1;
      assert v / 2 < Pow2(w - 1);
      DigitsFit(v / 2, w - 1);
    }
  }

  /** Leading zeros do not change the value. */
  lemma {:induction false} ZerosPrefix(n: nat, s: string)
    ensures BinaryValue(Zeros(n) + s) == BinaryValue(s)
    decreases |s|, n
  {
    if s == [] {
      if n > 0 {
        assert (Zeros(n) + s)[..n - 1] == Zeros(n - 1) + [];
        ZerosPrefix(n - 1, []);
      }
    } else {
      assert (Zeros(n) + s)[..n + |s| - 1] == Zeros(n) + s[..|s| - 1];
      ZerosPrefix(n, s[..|s| - 1]);
    }
  }

  /** For a value that fits in `width` bits the text is exactly `width` binary
      digits long and reads back as the value. */
  lemma FormatBinaryMeaning(v: nat, width: nat)
    requires 1 <= width && v < Pow2(width)
    ensures |FormatBinary(v, width)| == width
    ensures IsBinary(FormatBinary(v, width))
    ensures BinaryValue(FormatBinary(v, width)) == v
  {
    DigitsFit(v, width);
    BinaryValueOfDigits(v);
    var d := BinDigits(v);
    if |d| < width {
      ZerosPrefix(width - |d|, d);
    }
  }

  /** `width` zeros are the text of the value 0. */
  lemma ZerosAreZero(width: nat)
    requires 1 <= width
    ensures FormatBinary(0, width) == Zeros(width)
    ensures BinaryValue(Zeros(width)) == 0
  {
    assert Zeros(width - 1) + "0" == Zeros(width);
    ZerosPrefix(width, []);
    assert Zeros(width) + [] == Zeros(width);
  }

  // ---------------------------------------------------------------------
  // generate_vcd
  // ---------------------------------------------------------------------

  /** One `writer.change(sig, timestamp, value)` call. */
  datatype Change = Change(timestamp: nat, signal: nat, value: nat)

  /** The changes of step `t` for the first `k` signals. */
  function StepChanges(sizes: seq<nat>, dense: bool, t: nat, k: nat): seq<Change>
    requires k <= |sizes|
  {
    if k == 0 then []
    else
      var i := k - 1;
      StepChanges(sizes, dense, t, i)
      + (if ChangesAt(t, i, dense) then [Change(t * 10, i, Value(t, i, sizes[i]))] else [])
  }

  /** The changes of the first `steps` steps. */
  function VcdChanges(sizes: seq<nat>, dense: bool, steps: nat): seq<Change> {
    if steps == 0 then []
    else VcdChanges(sizes, dense, steps - 1) + StepChanges(sizes, dense, steps - 1, |sizes|)
  }

  /** The changes of one step of the change loop. */
  method WriteStep(sizes: seq<nat>, dense: bool, t: nat) returns (step: seq<Change>)
    ensures step == StepChanges(sizes, dense, t, |sizes|)
  {
    var timestamp := t * 10;
    step := [];
    var i := 0;
    while i < |sizes|
      invariant i <= |sizes|
      invariant step == StepChanges(sizes, dense, t, i)
    {
      var size := sizes[i];
      var m := if dense then (if (i + 1) / 10 > 1 then (i + 1) / 10 else 1) else i + 1;
      if t % m == 0 {
        var value;
        if size == 1 {
          value := t % 2;
        } else {
          value := (t * (i + 1)) % Pow2(size);
        }
        step := step + [Change(timestamp, i, value)];
      }
      i := i + 1;
    }
  }

  /** The declared widths and the changes `generate_vcd` writes. */
  method GenerateVcd(numSignals: nat, numTimesteps: nat) returns (sizes: seq<nat>, changes: seq<Change>)
    ensures sizes == Widths(numSignals)
    ensures changes == VcdChanges(sizes, Dense(numSignals), numTimesteps)
  {
    sizes := DeclareSignals(numSignals);
    var dense := numSignals > 500;
    changes := [];
    var t := 0;
    while t < numTimesteps
      invariant t <= numTimesteps
      invariant changes == VcdChanges(sizes, dense, t)
    {
      var step := WriteStep(sizes, dense, t);
      changes := changes + step;
      t := t + 1;
    }
  }

  /** A step's changes: all at `t * 10`, exactly the signals that change at
      `t`, each with its value, in signal order. */
  lemma {:induction false} StepChangesMeaning(sizes: seq<nat>, dense: bool, t: nat, k: nat)
    requires k <= |sizes|
    ensures forall c :: c in StepChanges(sizes, dense, t, k) ==>
              c.timestamp == t * 10 && c.signal < k && ChangesAt(t, c.signal, dense)
              && c.value == Value(t, c.signal, sizes[c.signal])
    ensures forall i :: 0 <= i < k && ChangesAt(t, i, dense) ==>
              Change(t * 10, i, Value(t, i, sizes[i])) in StepChanges(sizes, dense, t, k)
    ensures forall a, b :: 0 <= a < b < |StepChanges(sizes, dense, t, k)| ==>
              StepChanges(sizes, dense, t, k)[a].signal < StepChanges(sizes, dense, t, k)[b].signal
  {
    if k > 0 {
      var i := k - 1;
      var pre := StepChanges(sizes, dense, t, i);
      var last: seq<Change> := if ChangesAt(t, i, dense) then [Change(t * 10, i, Value(t, i, sizes[i]))] else [];
      StepChangesMeaning(sizes, dense, t, i);
      assert StepChanges(sizes, dense, t, k) == pre + last;
      forall a, b | 0 <= a < b < |pre + last|
        ensures (pre + last)[a].signal < (pre + last)[b].signal
      {
        if b < |pre| {
          assert (pre + last)[a] == pre[a] && (pre + last)[b] == pre[b];
        } else {
          assert (pre + last)[a] == pre[a] && pre[a] in pre;
        }
      }
    }
  }

  /** The VCD changes are exactly, for every step below `steps` and every
      signal that changes at it, one change at `t * 10` carrying the signal's
      value. */
  lemma {:induction false} VcdChangesMeaning(sizes: seq<nat>, dense: bool, steps: nat)
    ensures forall c :: c in VcdChanges(sizes, dense, steps) ==>
              c.timestamp % 10 == 0 && c.timestamp / 10 < steps && c.signal < |sizes|
              && ChangesAt(c.timestamp / 10, c.signal, dense)
              && c.value == Value(c.timestamp / 10, c.signal, sizes[c.signal])
    ensures forall t: nat, i :: t < steps && 0 <= i < |sizes| && ChangesAt(t, i, dense) ==>
              Change(t * 10, i, Value(t, i, sizes[i])) in VcdChanges(sizes, dense, steps)
  {
    if steps > 0 {
      var t := steps - 1;
      var pre := VcdChanges(sizes, dense, t);
      var step := StepChanges(sizes, dense, t, |sizes|);
      VcdChangesMeaning(sizes, dense, t);
      StepChangesMeaning(sizes, dense, t, |sizes|);
      assert (t * 10) / 10 == t && (t * 10) % 10 == 0;
      forall c: Change | c in pre + step
        ensures c.timestamp % 10 == 0 && c.timestamp / 10 < steps && c.signal < |sizes|
        ensures ChangesAt(c.timestamp / 10, c.signal, dense)
        ensures c.value == Value(c.timestamp / 10, c.signal, sizes[c.signal])
      {
        if c in step {
          assert c.timestamp == t * 10;
        }
      }
      forall u: nat, i | u < steps && 0 <= i < |sizes| && ChangesAt(u, i, dense)
        ensures Change(u * 10, i, Value(u, i, sizes[i])) in pre + step
      {
        if u < t {
          assert Change(u * 10, i, Value(u, i, sizes[i])) in pre;
        } else {
          assert Change(u * 10, i, Value(u, i, sizes[i])) in step;
        }
      }
    }
  }

  /** Every signal changes at step 0, to 0. */
  lemma VcdChangesAtZero(sizes: seq<nat>, dense: bool, steps: nat, i: nat)
    requires steps > 0 && i < |sizes|
    ensures Change(0, i, 0) in VcdChanges(sizes, dense, steps)
  {
    VcdChangesMeaning(sizes, dense, steps);
    assert ChangesAt(0, i, dense);
  }

  /** Change `a` is written before change `b`: an earlier time, or the same
      time and a lower signal index. */
  predicate Before(a: Change, b: Change) {
    a.timestamp < b.timestamp || (a.timestamp == b.timestamp && a.signal < b.signal)
  }

  predicate Ordered(cs: seq<Change>) {
    forall a, b :: 0 <= a < b < |cs| ==> Before(cs[a], cs[b])
  }

  /** The VCD changes are written in time order, signal order within a step;
      so their timestamps never decrease and no change is written twice. */
  lemma {:induction false} VcdChangesOrdered(sizes: seq<nat>, dense: bool, steps: nat)
    ensures Ordered(VcdChanges(sizes, dense, steps))
    ensures forall c :: c in VcdChanges(sizes, dense, steps) ==> c.timestamp < steps * 10
  {
    if steps > 0 {
      var pre := VcdChanges(sizes, dense, steps - 1);
      var step := StepChanges(sizes, dense, steps - 1, |sizes|);
      VcdChangesOrdered(sizes, dense, steps - 1);
      StepChangesMeaning(sizes, dense, steps - 1, |sizes|);
      var all := pre + step;
      forall a, b | 0 <= a < b < |all|
        ensures Before(all[a], all[b])
      {
        if b < |pre| {
          assert all[a] == pre[a] && all[b] == pre[b];
        } else if a < |pre| {
          assert all[a] in pre;
          assert all[b] == step[b - |pre|];
          assert all[b] in step;
        } else {
          assert all[a] == step[a - |pre|] && all[b] == step[b - |pre|];
        }
      }
    }
  }

  // ---------------------------------------------------------------------
  // generate_fst
  // ---------------------------------------------------------------------

  /** `fstWriterEmitTimeChange` and `fstWriterEmitValueChange`. A handle
      stands for the variable it was created for. */
  datatype FstEvent = TimeChange(timestamp: nat) | ValueChange(handle: nat, bits: string)

  /** The time-0 values of the first `k` handles: `size` zeros each. */
  function InitialValues(sizes: seq<nat>, k: nat): seq<FstEvent>
    requires k <= |sizes|
  {
    if k == 0 then [] else InitialValues(sizes, k - 1) + [ValueChange(k - 1, Zeros(sizes[k - 1]))]
  }

  /** The text written for signal `i` at step `t`: `str(t % 2)` for one bit,
      the zero-padded binary of the value otherwise. */
  function FstValue(t: nat, i: nat, size: nat): string {
    if size == 1 then NatToString(t % 2) else FormatBinary((t * (i + 1)) % Pow2(size), size)
  }

  /** The value changes of step `t` for the first `k` handles. */
  function FstStep(sizes: seq<nat>, dense: bool, t: nat, k: nat): seq<FstEvent>
    requires k <= |sizes|
  {
    if k == 0 then []
    else
      var i := k - 1;
      FstStep(sizes, dense, t, i)
      + (if ChangesAt(t, i, dense) then [ValueChange(i, FstValue(t, i, sizes[i]))] else [])
  }

  /** Steps 1 to `steps - 1`: a time change, then that step's value changes. */
  function FstLoop(sizes: seq<nat>, dense: bool, steps: nat): seq<FstEvent> {
    if steps <= 1 then []
    else FstLoop(sizes, dense, steps - 1) + [TimeChange((steps - 1) * 10)] + FstStep(sizes, dense, steps - 1, |sizes|)
  }

  function FstEvents(sizes: seq<nat>, dense: bool, steps: nat): seq<FstEvent> {
    [TimeChange(0)] + InitialValues(sizes, |sizes|) + FstLoop(sizes, dense, steps)
  }

  /** What `generate_fst` emits; nothing when the writer cannot be created,
      where the source raises "Failed to create FST writer". */
  function FstOf(writerCreated: bool, numSignals: nat, numTimesteps: nat): Option<seq<FstEvent>> {
    if writerCreated then Some(FstEvents(Widths(numSignals), Dense(numSignals), numTimesteps)) else None
  }

  /** The time-0 loop: `size` zeros for every handle. */
  method EmitInitialValues(sizes: seq<nat>) returns (out: seq<FstEvent>)
    ensures out == InitialValues(sizes, |sizes|)
  {
    out := [];
    var h := 0;
    while h < |sizes|
      invariant h <= |sizes|
      invariant out == InitialValues(sizes, h)
    {
      out := out + [ValueChange(h, Zeros(sizes[h]))];
      h := h + 1;
    }
  }

  /** The value changes of one step of the change loop. */
  method EmitStep(sizes: seq<nat>, dense: bool, t: nat) returns (out: seq<FstEvent>)
    ensures out == FstStep(sizes, dense, t, |sizes|)
  {
    out := [];
    var i := 0;
    while i < |sizes|
      invariant i <= |sizes|
      invariant out == FstStep(sizes, dense, t, i)
    {
      var size := sizes[i];
      var m := if dense then (if (i + 1) / 10 > 1 then (i + 1) / 10 else 1) else i + 1;
      if t % m == 0 {
        var value;
        if size == 1 {
          value := NatToString(t % 2);
        } else {
          var intVal := (t * (i + 1)) % Pow2(size);
          value := FormatBinary(intVal, size);
        }
        out := out + [ValueChange(i, value)];
      }
      i := i + 1;
    }
  }

  /** One more step of the loop: its time change, then its value changes. */
  lemma FstLoopStep(start: seq<FstEvent>, before: seq<FstEvent>, sizes: seq<nat>, dense: bool, t: nat,
                    step: seq<FstEvent>)
    requires 1 <= t && before == start + FstLoop(sizes, dense, t) && step == FstStep(sizes, dense, t, |sizes|)
    ensures before + [TimeChange(t * 10)] + step == start + FstLoop(sizes, dense, t + 1)
  {
    var loop := FstLoop(sizes, dense, t);
    assert FstLoop(sizes, dense, t + 1) == loop + [TimeChange(t * 10)] + step;
    assert (start + loop) + [TimeChange(t * 10)] + step == start + (loop + [TimeChange(t * 10)] + step);
  }

  method GenerateFst(writerCreated: bool, numSignals: nat, numTimesteps: nat) returns (events: Option<seq<FstEvent>>)
    ensures events == FstOf(writerCreated, numSignals, numTimesteps)
  {
    if !writerCreated {
      return None;
    }
    var sizes := DeclareSignals(numSignals);
    var initial := EmitInitialValues(sizes);
    var out := [TimeChange(0)] + initial;
    ghost var start := out;
    var dense := numSignals > 500;
    var t := 1;
    while t < numTimesteps
      invariant 1 <= t
      invariant numTimesteps <= 1 ==> t == 1
      invariant numTimesteps > 1 ==> t <= numTimesteps
      invariant out == start + FstLoop(sizes, dense, t)
    {
      var timestamp := t * 10;
      var step := EmitStep(sizes, dense, t);
      FstLoopStep(start, out, sizes, dense, t, step);
      out := out + [TimeChange(timestamp)] + step;
      t := t + 1;
    }
    if numTimesteps <= 1 {
      assert FstLoop(sizes, dense, t) == [];
      assert FstLoop(sizes, dense, numTimesteps) == [];
    }
    events := Some(out);
  }

  /** The text written at step `t` is the zero-padded binary of the value
      the VCD generator writes for the same signal and step: exactly `size`
      binary digits that read back as that value. */
  lemma FstValueMeaning(t: nat, i: nat, size: nat)
    requires 1 <= size
    ensures FstValue(t, i, size) == FormatBinary(Value(t, i, size), size)
    ensures |FstValue(t, i, size)| == size && IsBinary(FstValue(t, i, size))
    ensures BinaryValue(FstValue(t, i, size)) == Value(t, i, size)
  {
    FormatBinaryMeaning(Value(t, i, size), size);
    if size == 1 {
      assert NatToString(t % 2) == [DigitChar(t % 2)];
      if t % 2 == 0 {
        assert DigitChar(0) == '0';
      } else {
        assert DigitChar(1) == '1';
      }
    }
  }

  /** The time-0 values: one per handle, in order, each `size` zeros, which
      is the text of the value 0 the VCD variables are declared with. */
  lemma {:induction false} InitialValuesMeaning(sizes: seq<nat>, k: nat)
    requires k <= |sizes|
    ensures |InitialValues(sizes, k)| == k
    ensures forall h :: 0 <= h < k ==> InitialValues(sizes, k)[h] == ValueChange(h, Zeros(sizes[h]))
  {
    if k > 0 {
      InitialValuesMeaning(sizes, k - 1);
    }
  }

  /** The change written for the VCD, encoded for the FST. */
  function Encode(c: Change, sizes: seq<nat>): FstEvent
    requires c.signal < |sizes|
  {
    ValueChange(c.signal, FormatBinary(c.value, sizes[c.signal]))
  }

  /** Each FST step after time 0 writes the same signals as the VCD step, in
      the same order, each value as its zero-padded binary of the signal's
      width. */
  lemma {:induction false} FstStepEncodesVcd(sizes: seq<nat>, dense: bool, t: nat, k: nat)
    requires k <= |sizes|
    requires forall i :: 0 <= i < |sizes| ==> sizes[i] >= 1
    ensures |FstStep(sizes, dense, t, k)| == |StepChanges(sizes, dense, t, k)|
    ensures forall j :: 0 <= j < |StepChanges(sizes, dense, t, k)| ==>
              StepChanges(sizes, dense, t, k)[j].signal < |sizes|
              && FstStep(sizes, dense, t, k)[j] == Encode(StepChanges(sizes, dense, t, k)[j], sizes)
  {
    if k > 0 {
      var i := k - 1;
      FstStepEncodesVcd(sizes, dense, t, i);
      var pre, fpre := StepChanges(sizes, dense, t, i), FstStep(sizes, dense, t, i);
      var changes, events := StepChanges(sizes, dense, t, k), FstStep(sizes, dense, t, k);
      if ChangesAt(t, i, dense) {
        var c := Change(t * 10, i, Value(t, i, sizes[i]));
        assert changes == pre + [c];
        assert events == fpre + [ValueChange(i, FstValue(t, i, sizes[i]))];
        assert Encode(c, sizes) == ValueChange(i, FstValue(t, i, sizes[i])) by {
          FstValueMeaning(t, i, sizes[i]);
        }
      } else {
        assert changes == pre + [];
        assert events == fpre + [];
      }
      forall j | 0 <= j < |changes|
        ensures changes[j].signal < |sizes| && events[j] == Encode(changes[j], sizes)
      {
        if j < |pre| {
          assert changes[j] == pre[j];
          assert events[j] == fpre[j];
        }
      }
    }
  }

  /** The timestamps of the time changes, in order. */
  function Times(events: seq<FstEvent>): seq<int> {
    if events == [] then []
    else
      var last := events[|events| - 1];
      Times(events[..|events| - 1]) + (if last.TimeChange? then [last.timestamp] else [])
  }

  lemma {:induction false} TimesAppend(a: seq<FstEvent>, b: seq<FstEvent>)
    ensures Times(a + b) == Times(a) + Times(b)
    decreases |b|
  {
    if b == [] {
      assert a + b == a;
    } else {
      assert (a + b)[..|a + b| - 1] == a + b[..|b| - 1];
      TimesAppend(a, b[..|b| - 1]);
    }
  }

  lemma {:induction false} TimesOfStep(sizes: seq<nat>, dense: bool, t: nat, k: nat)
    requires k <= |sizes|
    ensures Times(FstStep(sizes, dense, t, k)) == []
  {
    if k > 0 {
      TimesOfStep(sizes, dense, t, k - 1);
      var last := if ChangesAt(t, k - 1, dense) then [ValueChange(k - 1, FstValue(t, k - 1, sizes[k - 1]))] else [];
      TimesAppend(FstStep(sizes, dense, t, k - 1), last);
    }
  }

  lemma {:induction false} TimesOfInitial(sizes: seq<nat>, k: nat)
    requires k <= |sizes|
    ensures Times(InitialValues(sizes, k)) == []
  {
    if k > 0 {
      TimesOfInitial(sizes, k - 1);
      TimesAppend(InitialValues(sizes, k - 1), [ValueChange(k - 1, Zeros(sizes[k - 1]))]);
    }
  }

  /** `n` ticks of 10 time units: 0, 10, 20, ... */
  function Ticks(n: nat): (ts: seq<int>)
    ensures |ts| == n
  {
    seq(n, t => t * 10)
  }

  lemma {:induction false} TimesOfLoop(sizes: seq<nat>, dense: bool, steps: nat)
    requires steps >= 1
    ensures Times(FstLoop(sizes, dense, steps)) == Ticks(steps)[1..]
  {
    if steps > 1 {
      var pre := FstLoop(sizes, dense, steps - 1);
      var tick := [TimeChange((steps - 1) * 10)];
      var step := FstStep(sizes, dense, steps - 1, |sizes|);
      assert Times(FstLoop(sizes, dense, steps)) == Times(pre + tick) + Times(step) by {
        assert FstLoop(sizes, dense, steps) == (pre + tick) + step;
        TimesAppend(pre + tick, step);
      }
      assert Times(step) == [] by {
        TimesOfStep(sizes, dense, steps - 1, |sizes|);
      }
      assert Times(pre + tick) == Ticks(steps - 1)[1..] + [(steps - 1) * 10] by {
        TimesAppend(pre, tick);
        TimesOfLoop(sizes, dense, steps - 1);
        assert tick[..0] == [];
        assert Times(tick) == [(steps - 1) * 10];
      }
      TicksSnoc(steps - 1);
    }
  }

  lemma TicksSnoc(n: nat)
    requires n >= 1
    ensures Ticks(n + 1)[1..] == Ticks(n)[1..] + [n * 10]
  {
    var a, b := Ticks(n + 1)[1..], Ticks(n)[1..] + [n * 10];
    assert |a| == |b|;
    forall k | 0 <= k < |a| ensures a[k] == b[k] {
      if k < n - 1 {
        assert b[k] == Ticks(n)[k + 1];
      }
    }
  }

  /** The FST time changes are exactly 0, 10, ..., `(steps - 1) * 10` (just 0
      when there are no steps), so they strictly increase. */
  lemma FstTimesMeaning(sizes: seq<nat>, dense: bool, steps: nat)
    ensures Times(FstEvents(sizes, dense, steps)) == Ticks(if steps == 0 then 1 else steps)
    ensures forall a, b :: 0 <= a < b < |Times(FstEvents(sizes, dense, steps))| ==>
              Times(FstEvents(sizes, dense, steps))[a] < Times(FstEvents(sizes, dense, steps))[b]
  {
    var n := if steps == 0 then 1 else steps;
    var head := [TimeChange(0)] + InitialValues(sizes, |sizes|);
    assert Times(head) == [0] by {
      TimesOfInitial(sizes, |sizes|);
      TimesAppend([TimeChange(0)], InitialValues(sizes, |sizes|));
      assert [TimeChange(0)][..0] == [];
    }
    assert Times(FstLoop(sizes, dense, steps)) == Ticks(n)[1..] by {
      TimesOfLoop(sizes, dense, n);
      assert FstLoop(sizes, dense, steps) == FstLoop(sizes, dense, n);
    }
    TimesAppend(head, FstLoop(sizes, dense, steps));
    assert Ticks(n) == [0] + Ticks(n)[1..];
  }
}
