/** The trend chart of the dashboard (components/Dashboard.tsx): the preset the
    product filter selects, the tolerance band drawn around the standard, the
    chart points built from the newest twenty records, and the y-axis range. */
module Chart {
  import opened JsRuntime
  import opened JsDates
  import opened Types
  import opened JsArrays
  import opened Sorting
  import opened LogValues
  import opened LogFilter
  import opened Tolerance

  function NamedPreset(product: string): ProductPreset -> bool
  {
    (p: ProductPreset) => p.productName == product
  }

  /** `selectedPreset`: none while the product filter is "all", otherwise the
      first preset carrying that product name. */
  function SelectedPreset(product: string, presets: seq<ProductPreset>): (r: Option<ProductPreset>)
    ensures product == "all" ==> r.None?
    ensures product != "all" && r.None? ==> forall j :: 0 <= j < |presets| ==> presets[j].productName != product
    ensures r.Some? ==> product != "all" && r.value.productName == product
    ensures r.Some? ==>
      exists i :: 0 <= i < |presets| && presets[i] == r.value && forall j :: 0 <= j < i ==> presets[j].productName != product
  {
    if product == "all" then None else Find(presets, NamedPreset(product))
  }

  /** `activeToleranceValue`: the preset's tolerance for the field when it has
      one (0 included, since `??` only replaces nullish values), else the default. */
  function ActiveTolerance(preset: Option<ProductPreset>, field: string): (t: real)
    ensures preset.Some? && field in preset.value.tolerances ==> t == preset.value.tolerances[field]
    ensures !(preset.Some? && field in preset.value.tolerances) ==> t == GetDefaultTolerance(field)
  {
    EffectiveTolerance(ToleranceOf(preset, field), field)
  }

  /** One point of the chart. The bounds exist only for a positive standard;
      `diffValue` is the exact difference (the rounding of `toFixed` is not modelled). */
  datatype ChartPoint = ChartPoint(
    time: string,
    dateShort: string,
    productName: JsValue,
    structure: JsValue,
    value: Number,
    std: Number,
    upperBound: Option<real>,
    lowerBound: Option<real>,
    diffPercent: Number,
    diffValue: Number,
    diffLabel: string)

  /** `${d}/${m + 1} ${h}:${mm}` of the parsed date, "--/--" when it does not parse. */
  function TimeLabel(date: Option<DateTime>): (s: string)
    ensures date.None? ==> s == "--/--"
  {
    match date
    case None => "--/--"
    case Some(t) => IntToString(t.day) + "/" + IntToString(t.month + 1) + " " + IntToString(t.hour) + ":" + Pad2(t.minute)
  }

  /** `${dd}/${mm}/${yy}`, each part "--" when the date does not parse. */
  function DateShort(date: Option<DateTime>): (s: string)
    ensures date.None? ==> s == "--/--/--"
  {
    match date
    case None => "--/--/--"
    case Some(t) => Pad2(t.day) + "/" + Pad2(t.month + 1) + "/" + SliceFromEnd(IntToString(t.year), 2)
  }

  /** `stdValue > 0`. */
  predicate PositiveStd(std: Number)
  {
    std.Num? && std.r > 0.0
  }

  /** `upperBound` and `lowerBound`: the standard plus and minus the tolerance,
      both null unless the standard is positive. */
  function Bounds(std: Number, tol: real): (b: (Option<real>, Option<real>))
    ensures b.0.Some? <==> PositiveStd(std)
    ensures b.1.Some? <==> PositiveStd(std)
    ensures b.0.Some? ==> b.0.value - std.r == tol && std.r - b.1.value == tol
  {
    if PositiveStd(std) then (Some(std.r + tol), Some(std.r - tol)) else (None, None)
  }

  /** `diffPercent`: the difference as a percentage of a positive standard, else 0. */
  function DiffPercent(act: Number, std: Number): (d: Number)
    ensures !PositiveStd(std) ==> d == Num(0.0)
    ensures PositiveStd(std) ==> (d.NaN? <==> act.NaN?)
    ensures PositiveStd(std) && act.Num? ==> d.r * std.r == (act.r - std.r) * 100.0
  {
    if !PositiveStd(std) then Num(0.0)
    else
      var diff := Sub(act, std);
      if diff.Num? then Num(diff.r / std.r * 100.0) else NaN
  }

  /** The `chartData` callback for one record. */
  function PointOf(log: LogEntry, field: string, tol: real, fallback: DateFallback): (p: ChartPoint)
    ensures p.value == LogValue(log, field, Act) && p.std == LogValue(log, field, Std)
    ensures (p.upperBound, p.lowerBound) == Bounds(p.std, tol)
    ensures p.diffPercent == DiffPercent(p.value, p.std)
    ensures p.diffValue == Sub(p.value, p.std)
    ensures LogDate(log, fallback).None? ==> p.time == "--/--" && p.dateShort == "--/--/--"
  {
    var date := LogDate(log, fallback);
    var act := LogValue(log, field, Act);
    var std := LogValue(log, field, Std);
    var bounds := Bounds(std, tol);
    ChartPoint(
      TimeLabel(date),
      DateShort(date),
      Or(ProductNameValue(log), Str("N/A")),
      Or(StructureValue(log), Str("N/A")),
      act,
      std,
      bounds.0,
      bounds.1,
      DiffPercent(act, std),
      Sub(act, std),
      DiffLabel(Sub(act, std)))
  }

  /** `[...filteredLogs].slice(0, 20).reverse()`: the twenty newest records, oldest first. */
  function ChartWindow(filtered: seq<LogEntry>): (w: seq<LogEntry>)
    ensures |w| == if |filtered| < 20 then |filtered| else 20
    ensures forall i :: 0 <= i < |w| ==> w[i] == filtered[|w| - 1 - i]
  {
    Reverse(Take(filtered, 20))
  }

  /** Reversing the head of a list sorted by decreasing key gives increasing keys. */
  lemma {:induction false} ReversedHeadAscending<T>(s: seq<T>, n: nat, key: T -> int)
    requires SortedDesc(s, key)
    ensures var w := Reverse(Take(s, n));
      forall i, j :: 0 <= i < j < |w| ==> key(w[i]) <= key(w[j])
  {
    var w := Reverse(Take(s, n));
    forall i, j | 0 <= i < j < |w| ensures key(w[i]) <= key(w[j]) {
      assert w[i] == s[|w| - 1 - i] && w[j] == s[|w| - 1 - j];
    }
  }

  /** The window of a list sorted newest first runs oldest first. */
  lemma {:induction false} ChartWindowAscending(filtered: seq<LogEntry>, fallback: DateFallback)
    requires SortedDesc(filtered, SortKeyOf(fallback))
    ensures var w := ChartWindow(filtered);
      forall i, j :: 0 <= i < j < |w| ==> SortKeyOf(fallback)(w[i]) <= SortKeyOf(fallback)(w[j])
  {
    ReversedHeadAscending(filtered, 20, SortKeyOf(fallback));
  }

  /** `chartData`: the callback applied to every record of the window. */
  function ChartData(filtered: seq<LogEntry>, field: string, tol: real, fallback: DateFallback): (r: seq<ChartPoint>)
    ensures |r| == if |filtered| < 20 then |filtered| else 20
    ensures forall i :: 0 <= i < |r| ==> r[i] == PointOf(ChartWindow(filtered)[i], field, tol, fallback)
  {
    Points(ChartWindow(filtered), field, tol, fallback)
  }

  /** The callback mapped over a list of records. */
  function Points(w: seq<LogEntry>, field: string, tol: real, fallback: DateFallback): (r: seq<ChartPoint>)
    ensures |r| == |w|
    ensures forall i :: 0 <= i < |r| ==> r[i] == PointOf(w[i], field, tol, fallback)
  {
    seq(|w|, i requires 0 <= i < |w| => PointOf(w[i], field, tol, fallback))
  }

  // ---------------------------------------------------------------------------
  // yAxisDomain

  /** `v` is one of the point's value, std and present bounds. */
  predicate CollectedFrom(v: Number, p: ChartPoint)
  {
    v == p.value || v == p.std
    || (p.upperBound.Some? && v == Num(p.upperBound.value))
    || (p.lowerBound.Some? && v == Num(p.lowerBound.value))
  }

  /** The values `yAxisDomain` collects from a point: value and std, then the
      bounds that are not null. */
  function PointValues(p: ChartPoint): (vs: seq<Number>)
    ensures |vs| == 2 + (if p.upperBound.Some? then 1 else 0) + (if p.lowerBound.Some? then 1 else 0)
    ensures vs[0] == p.value && vs[1] == p.std
    ensures forall v :: v in vs <==> CollectedFrom(v, p)
  {
    [p.value, p.std]
    + (if p.upperBound.Some? then [Num(p.upperBound.value)] else [])
    + (if p.lowerBound.Some? then [Num(p.lowerBound.value)] else [])
  }

  /** `chartData.flatMap(...)`: every point's collected values, and nothing else. */
  function ChartValues(points: seq<ChartPoint>): (vs: seq<Number>)
    ensures |vs| >= 2 * |points|
    ensures forall v :: v in vs <==> exists i :: 0 <= i < |points| && CollectedFrom(v, points[i])
  {
    if points == [] then []
    else
      var rest := ChartValues(points[1..]);
      assert forall i :: 0 < i < |points| ==> points[1..][i - 1] == points[i];
      PointValues(points[0]) + rest
  }

  /** `Math.min(...vals)`: NaN as soon as one value is NaN. */
  function MinOf(vals: seq<Number>): (r: Number)
    requires |vals| > 0
    ensures r.NaN? <==> NaN in vals
    ensures r.Num? ==> r in vals && forall v :: v in vals ==> v.Num? && r.r <= v.r
  {
    if |vals| == 1 then vals[0]
    else
      var m := MinOf(vals[1..]);
      assert vals == [vals[0]] + vals[1..];
      if vals[0].NaN? || m.NaN? then NaN
      else if vals[0].r <= m.r then vals[0] else m
  }

  /** `Math.max(...vals)`. */
  function MaxOf(vals: seq<Number>): (r: Number)
    requires |vals| > 0
    ensures r.NaN? <==> NaN in vals
    ensures r.Num? ==> r in vals && forall v :: v in vals ==> v.Num? && v.r <= r.r
  {
    if |vals| == 1 then vals[0]
    else
      var m := MaxOf(vals[1..]);
      assert vals == [vals[0]] + vals[1..];
      if vals[0].NaN? || m.NaN? then NaN
      else if vals[0].r >= m.r then vals[0] else m
  }

  /** `Math.ceil`: the least integer at or above `x`. */
  function Ceil(x: real): (c: int)
    ensures x <= c as real < x + 1.0
  {
    -((-x).Floor)
  }

  function MaxReal(a: real, b: real): real
  {
    if a >= b then a else b
  }

  /** `yAxisDomain`: [0, 100] for an empty chart; otherwise the collected range
      widened on both sides by half its width (at least 5), floored at the
      bottom and clamped at 0, ceiled at the top. A NaN value makes both ends NaN. */
  function YAxisDomain(points: seq<ChartPoint>): (d: (Number, Number))
    ensures points == [] ==> d == (Num(0.0), Num(100.0))
    ensures points != [] ==> (d.0.NaN? <==> NaN in ChartValues(points)) && (d.1.NaN? <==> d.0.NaN?)
  {
    if points == [] then (Num(0.0), Num(100.0))
    else
      var vals := ChartValues(points);
      var lo := MinOf(vals);
      var hi := MaxOf(vals);
      if lo.NaN? || hi.NaN? then (NaN, NaN)
      else
        var pad := MaxReal((hi.r - lo.r) * 0.5, 5.0);
        (Num(MaxReal(0.0, (lo.r - pad).Floor as real)), Num(Ceil(hi.r + pad) as real))
  }

  /** The range never dips below 0, reaches at least 5 above the largest value,
      and, when no value is negative, starts at or below the smallest one, so
      that every collected value lies inside it. (With only negative values the
      clamp at 0 can put the lower end above the upper one.) */
  lemma {:induction false} YAxisDomainBounds(points: seq<ChartPoint>)
    requires points != [] && NaN !in ChartValues(points)
    ensures var d := YAxisDomain(points); var vals := ChartValues(points);
      d.0.Num? && d.1.Num? && d.0.r >= 0.0
      && d.1.r >= MaxOf(vals).r + 5.0
      && (MinOf(vals).r >= 0.0 ==> d.0.r <= MinOf(vals).r && d.0.r < d.1.r)
      && (MinOf(vals).r >= 0.0 ==> forall v :: v in vals ==> d.0.r <= v.r <= d.1.r)
  {
    var vals := ChartValues(points);
    var lo := MinOf(vals);
    var hi := MaxOf(vals);
    var pad := MaxReal((hi.r - lo.r) * 0.5, 5.0);
    assert lo.r <= hi.r by { assert lo in vals; }
    assert (lo.r - pad).Floor as real <= lo.r - pad;
    assert Ceil(hi.r + pad) as real >= hi.r + pad;
  }
}
