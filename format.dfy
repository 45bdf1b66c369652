/**
 * The small formatting helpers of benchmarks/report.py (`format_time`,
 * `format_size`, `throughput_mbs`, `ascii_bar`) and the `format_size` of
 * benchmarks/generate_testdata.py.
 *
 * A formatted quantity is kept as the number that would be printed and the
 * unit it is printed in; the digits after the decimal point are a matter of
 * rendering and are not modelled.
 */
module Format {

  // ---------------------------------------------------------------------
  // format_time
  // ---------------------------------------------------------------------

  /** A time as the report prints it: "N/A", or a number of microseconds,
      milliseconds or seconds. */
  datatype TimeText = NotAvailable | Micros(us: real) | Millis(ms: real) | Seconds(s: real)

  /** The duration a printed time stands for. */
  function TimeValue(t: TimeText): real {
    match t
    case NotAvailable => 0.0
    case Micros(us) => us / 1000000.0
    case Millis(ms) => ms / 1000.0
    case Seconds(s) => s
  }

  /** `format_time(seconds)`: "N/A" for a non-positive time, otherwise the
      largest of us, ms, s in which the printed number is at least 1, with the
      printed number standing for exactly the time given. */
  function FormatTime(seconds: real): (t: TimeText)
    ensures t.NotAvailable? <==> seconds <= 0.0
    ensures !t.NotAvailable? ==> TimeValue(t) == seconds
    ensures t.Micros? ==> 0.0 < t.us < 1000.0
    ensures t.Millis? ==> 1.0 <= t.ms < 1000.0
    ensures t.Seconds? ==> seconds >= 1.0
  {
    if seconds <= 0.0 then NotAvailable
    else if seconds < 0.001 then Micros(seconds * 1000000.0)
    else if seconds < 1.0 then Millis(seconds * 1000.0)
    else Seconds(seconds)
  }

  // ---------------------------------------------------------------------
  // format_size (both copies share the scaling loop)
  // ---------------------------------------------------------------------

  /** Unit names by index: the four tried in turn, then the fallback. */
  const Units: seq<string> := ["B", "KB", "MB", "GB", "TB"]
  const LastUnit: nat := 4

  function Pow1024(k: nat): (p: real)
    ensures p >= 1.0
  {
    if k == 0 then 1.0 else 1024.0 * Pow1024(k - 1)
  }

  /** Divide by 1024 until the value is below 1024 or the last unit is reached. */
  function ScaleFrom(v: real, unit: nat): (real, nat)
    requires unit <= LastUnit
    decreases LastUnit - unit
  {
    if unit == LastUnit || v < 1024.0 then (v, unit) else ScaleFrom(v / 1024.0, unit + 1)
  }

  /** `size` in the first unit among B, KB, MB, GB in which it is below 1024, else in TB. */
  function Scaled(size: real): (real, nat) {
    ScaleFrom(size, 0)
  }

  /** `w` units of index `u` in bytes: `w` multiplied by 1024, `u` times. */
  function InBytes(w: real, u: nat): real
    decreases u
  {
    if u == 0 then w else InBytes(1024.0 * w, u - 1)
  }

  lemma {:induction false} InBytesPow(w: real, u: nat)
    ensures InBytes(w, u) == w * Pow1024(u)
    decreases u
  {
    if u > 0 {
      InBytesPow(1024.0 * w, u - 1);
      assert (1024.0 * w) * Pow1024(u - 1) == w * (1024.0 * Pow1024(u - 1));
    }
  }

  lemma {:induction false} ScaleFromMeaning(size: real, v: real, unit: nat)
    requires unit <= LastUnit
    requires InBytes(v, unit) == size
    requires forall k :: 0 <= k < unit ==> size >= 1024.0 * Pow1024(k)
    ensures var (w, u) := ScaleFrom(v, unit);
            && unit <= u <= LastUnit
            && InBytes(w, u) == size
            && (u < LastUnit ==> w < 1024.0)
            && (forall k :: 0 <= k < u ==> size >= 1024.0 * Pow1024(k))
    decreases LastUnit - unit
  {
    if unit < LastUnit && v >= 1024.0 {
      var next := v / 1024.0;
      assert InBytes(next, unit + 1) == size by {
        assert 1024.0 * next == v;
      }
      assert size >= 1024.0 * Pow1024(unit) by {
        InBytesPow(v, unit);
        ScaleStep(v, Pow1024(unit));
      }
      ScaleFromMeaning(size, next, unit + 1);
      assert ScaleFrom(v, unit) == ScaleFrom(next, unit + 1);
    } else {
      assert ScaleFrom(v, unit) == (v, unit);
    }
  }

  /** A value at least 1024 is at least 1024 units of the same size. */
  lemma ScaleStep(v: real, p: real)
    requires v >= 1024.0 && p >= 1.0
    ensures v * p >= 1024.0 * p
  {
    assert (v - 1024.0) * p >= 0.0;
  }

  /** A value whose size in a unit is at least that unit's size is at least one. */
  lemma AtLeastOne(w: real, p: real)
    requires p >= 1.0 && w * p >= p
    ensures w >= 1.0
  {
  }

  /** The unit is the first one at which the scaled value drops below 1024, and
      the scaled value times the unit's size is the size itself. */
  lemma ScaledMeaning(size: real)
    ensures Scaled(size).1 < |Units|
    ensures Scaled(size).0 * Pow1024(Scaled(size).1) == size
    ensures Scaled(size).1 < LastUnit ==> Scaled(size).0 < 1024.0
    ensures forall k :: 0 <= k < Scaled(size).1 ==> size >= 1024.0 * Pow1024(k)
    ensures Scaled(size).1 > 0 ==> Scaled(size).0 >= 1.0
  {
    ScaleFromMeaning(size, size, 0);
    var (w, u) := Scaled(size);
    InBytesPow(w, u);
    if u > 0 {
      assert size >= 1024.0 * Pow1024(u - 1);
      AtLeastOne(w, Pow1024(u));
    }
  }

  /** The scaling loop both `format_size` functions run, dividing in place. */
  method ScaleToUnit(size: real) returns (value: real, unit: nat)
    ensures (value, unit) == Scaled(size)
    ensures unit <= LastUnit && value * Pow1024(unit) == size
  {
    value := size;
    unit := 0;
    while unit < LastUnit
      invariant unit <= LastUnit
      invariant ScaleFrom(value, unit) == Scaled(size)
      invariant value * Pow1024(unit) == size
    {
      if value < 1024.0 {
        return;
      }
      value := value / 1024.0;
      unit := unit + 1;
    }
  }

  /** A size as the report prints it. */
  datatype SizeText = SizeNotAvailable | Sized(value: real, unit: string)

  /** The text `format_size` of benchmarks/report.py produces. */
  function SizeTextOf(sizeBytes: int): SizeText {
    if sizeBytes <= 0 then SizeNotAvailable
    else
      ScaledMeaning(sizeBytes as real);
      var (v, u) := Scaled(sizeBytes as real);
      Sized(v, Units[u])
  }

  /** "N/A" exactly for a non-positive size; otherwise a unit and a value that
      multiply back to the size, the value below 1024 unless the unit is TB
      and at least 1 unless the unit is B. */
  lemma SizeTextMeaning(sizeBytes: int)
    ensures SizeTextOf(sizeBytes).SizeNotAvailable? <==> sizeBytes <= 0
    ensures var t := SizeTextOf(sizeBytes);
            t.Sized? ==> exists u :: 0 <= u < |Units| && t.unit == Units[u] && t.value * Pow1024(u) == sizeBytes as real
                                      && (u < LastUnit ==> t.value < 1024.0) && (u > 0 ==> t.value >= 1.0)
  {
    if sizeBytes > 0 {
      ScaledMeaning(sizeBytes as real);
      var u := Scaled(sizeBytes as real).1;
      assert SizeTextOf(sizeBytes) == Sized(Scaled(sizeBytes as real).0, Units[u]);
    }
  }

  /** `format_size` of benchmarks/report.py: "N/A" for a non-positive size. */
  method FormatSize(sizeBytes: int) returns (t: SizeText)
    ensures t == SizeTextOf(sizeBytes)
  {
    if sizeBytes <= 0 {
      return SizeNotAvailable;
    }
    var value, unit := ScaleToUnit(sizeBytes as real);
    assert unit < |Units| by {
      ScaledMeaning(sizeBytes as real);
    }
    t := Sized(value, Units[unit]);
  }

  /** `format_size` of benchmarks/generate_testdata.py: no "N/A" case. */
  method FormatBytes(sizeBytes: int) returns (value: real, unit: string)
    ensures exists u :: 0 <= u < |Units| && unit == Units[u] && value * Pow1024(u) == sizeBytes as real
                          && (u < LastUnit ==> value < 1024.0) && (u > 0 ==> value >= 1.0)
    ensures sizeBytes < 1024 ==> unit == "B" && value == sizeBytes as real
  {
    var v, u := ScaleToUnit(sizeBytes as real);
    assert u < |Units| && (u < LastUnit ==> v < 1024.0) && (u > 0 ==> v >= 1.0) && (sizeBytes < 1024 ==> u == 0) by {
      ScaledMeaning(sizeBytes as real);
    }
    value, unit := v, Units[u];
  }

  // ---------------------------------------------------------------------
  // throughput_mbs
  // ---------------------------------------------------------------------

  const Mebibyte: real := 1048576.0

  /** MB/s: zero unless both the size and the mean are positive; otherwise the
      rate at which `fileSizeBytes` bytes pass in `meanS` seconds. */
  function ThroughputMbs(fileSizeBytes: int, meanS: real): (r: real)
    ensures (meanS <= 0.0 || fileSizeBytes <= 0) ==> r == 0.0
    ensures (meanS > 0.0 && fileSizeBytes > 0) ==> r > 0.0 && r * meanS * Mebibyte == fileSizeBytes as real
  {
    if meanS <= 0.0 || fileSizeBytes <= 0 then 0.0
    else (fileSizeBytes as real / Mebibyte) / meanS
  }

  // ---------------------------------------------------------------------
  // ascii_bar
  // ---------------------------------------------------------------------

  /** The chart width the report always uses. */
  const BarWidth: nat := 30

  /** `ascii_bar(value, max_value, width)`: empty when either value is not
      positive; otherwise `value/max_value` of the width rounded down, but never
      shorter than 1 or longer than the width. */
  function AsciiBar(value: real, maxValue: real, width: nat): (bar: string)
    ensures bar == "" <==> (maxValue <= 0.0 || value <= 0.0)
    ensures forall k :: 0 <= k < |bar| ==> bar[k] == '#'
    ensures bar != "" ==> 1 <= |bar| && (width >= 1 ==> |bar| <= width)
    ensures bar != "" ==> |bar| == 1 || |bar| as real <= (value / maxValue) * width as real
    ensures bar != "" ==> |bar| == width || (value / maxValue) * width as real < |bar| as real + 1.0
  {
    if maxValue <= 0.0 || value <= 0.0 then ""
    else
      var len := ((value / maxValue) * width as real).Floor;
      var capped := if len < width then len else width;
      seq(if capped < 1 then 1 else capped, _ => '#')
  }

  /** A larger value never gets a shorter bar. */
  lemma AsciiBarMonotone(v1: real, v2: real, maxValue: real, width: nat)
    requires 0.0 < v1 <= v2 && maxValue > 0.0
    ensures |AsciiBar(v1, maxValue, width)| <= |AsciiBar(v2, maxValue, width)|
  {
    var x1 := (v1 / maxValue) * width as real;
    var x2 := (v2 / maxValue) * width as real;
    assert v1 / maxValue <= v2 / maxValue by {
      assert v1 / maxValue * maxValue == v1;
      assert v2 / maxValue * maxValue == v2;
    }
    assert x1 <= x2;
    assert x1.Floor <= x2.Floor;
  }

  /** The value equal to the maximum gets the full width. */
  lemma AsciiBarFull(maxValue: real)
    requires maxValue > 0.0
    ensures |AsciiBar(maxValue, maxValue, BarWidth)| == BarWidth
  {
    assert maxValue / maxValue == 1.0;
  }
}
