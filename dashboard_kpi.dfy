/** The dashboard's figures (components/Dashboard.tsx): the record counts for
    today, the trailing week and the current month over all records, and the
    alert count and yield over the filtered records. */
module Kpi {
  import opened JsRuntime
  import opened JsDates
  import opened Types
  import opened JsArrays
  import opened LogValues
  import opened Tolerance

  const MsPerWeek: int := 7 * 24 * 3600 * 1000

  /** `t >= todayTs`: at or after midnight of `now`'s day (later days included). */
  predicate CountsToday(log: LogEntry, now: DateTime, fallback: DateFallback)
  {
    match LogDate(log, fallback)
    case None => false
    case Some(t) => FromToday(TimeValue(t), now)
  }

  /** `t >= todayTs`. */
  predicate FromToday(tv: int, now: DateTime)
  {
    tv >= StartOfDay(TimeValue(now))
  }

  /** `now - t < 7 days` (later times included). */
  predicate CountsWeek(log: LogEntry, now: DateTime, fallback: DateFallback)
  {
    match LogDate(log, fallback)
    case None => false
    case Some(t) => WithinWeek(TimeValue(t), now)
  }

  /** `now.getTime() - t < 7 * 24 * 3600 * 1000`. */
  predicate WithinWeek(tv: int, now: DateTime)
  {
    TimeValue(now) - tv < MsPerWeek
  }

  /** The month and full year of the date equal those of `now`: with `now` a
      calendar date, its day lies in the day range of `now`'s month. */
  predicate CountsMonth(log: LogEntry, now: DateTime, fallback: DateFallback)
  {
    match LogDate(log, fallback)
    case None => false
    case Some(t) => SameMonth(TimeValue(t), now)
  }

  /** The time value falls on a day of `now`'s month. */
  predicate SameMonth(tv: int, now: DateTime)
  {
    MakeDay(now.year, now.month, 1) <= DayOf(tv) < MakeDay(now.year, now.month + 1, 1)
  }

  function TodayOf(now: DateTime, fallback: DateFallback): LogEntry -> bool
  {
    log => CountsToday(log, now, fallback)
  }

  function WeekOf(now: DateTime, fallback: DateFallback): LogEntry -> bool
  {
    log => CountsWeek(log, now, fallback)
  }

  function MonthOf(now: DateTime, fallback: DateFallback): LogEntry -> bool
  {
    log => CountsMonth(log, now, fallback)
  }

  /** `timeStats`: one pass over the records, counting each of the three periods. */
  method TimeStats(logs: seq<LogEntry>, now: DateTime, fallback: DateFallback) returns (d: nat, w: nat, m: nat)
    ensures d == Count(logs, TodayOf(now, fallback))
    ensures w == Count(logs, WeekOf(now, fallback))
    ensures m == Count(logs, MonthOf(now, fallback))
  {
    d, w, m := 0, 0, 0;
    var i := 0;
    while i < |logs|
      invariant 0 <= i <= |logs|
      invariant d == Count(logs[..i], TodayOf(now, fallback))
      invariant w == Count(logs[..i], WeekOf(now, fallback))
      invariant m == Count(logs[..i], MonthOf(now, fallback))
    {
      d, w, m := Tally(logs[i], now, fallback, d, w, m);
      CountStep(logs, i, TodayOf(now, fallback));
      CountStep(logs, i, WeekOf(now, fallback));
      CountStep(logs, i, MonthOf(now, fallback));
      i := i + 1;
    }
    assert logs[..i] == logs;
  }

  /** The `forEach` callback: a record with a parsable date adds one to each
      count whose period its time value falls in. */
  method Tally(log: LogEntry, now: DateTime, fallback: DateFallback, d: nat, w: nat, m: nat)
    returns (d': nat, w': nat, m': nat)
    ensures d' == d + if CountsToday(log, now, fallback) then 1 else 0
    ensures w' == w + if CountsWeek(log, now, fallback) then 1 else 0
    ensures m' == m + if CountsMonth(log, now, fallback) then 1 else 0
  {
    d', w', m' := d, w, m;
    var logDate := LogDate(log, fallback);
    if logDate.Some? {
      var t := TimeValue(logDate.value);
      d' := d' + if FromToday(t, now) then 1 else 0;
      w' := w' + if WithinWeek(t, now) then 1 else 0;
      m' := m' + if SameMonth(t, now) then 1 else 0;
    }
  }

  /** How many elements pass a test, counted from the front as a loop counts them. */
  function Count<T>(s: seq<T>, p: T -> bool): (n: nat)
    ensures n <= |s|
  {
    if s == [] then 0
    else Count(s[..|s| - 1], p) + if p(s[|s| - 1]) then 1 else 0
  }

  /** Counting is filtering and taking the length. */
  lemma {:induction false} CountIsFilterLength<T(!new)>(s: seq<T>, p: T -> bool)
    ensures Count(s, p) == |Filter(s, p)|
  {
    if s != [] {
      CountIsFilterLength(s[..|s| - 1], p);
    }
  }

  /** One more element is counted exactly when it passes the test. */
  lemma {:induction false} CountStep<T>(s: seq<T>, i: int, p: T -> bool)
    requires 0 <= i < |s|
    ensures Count(s[..i + 1], p) == Count(s[..i], p) + if p(s[i]) then 1 else 0
  {
    assert s[..i + 1][..i] == s[..i];
  }

  /** `${now.getDate()}/${now.getMonth() + 1}/${now.getFullYear()}`. */
  function TodayLabel(now: DateTime): string
  {
    IntToString(now.day) + "/" + IntToString(now.month + 1) + "/" + IntToString(now.year)
  }

  /** Whatever counts for today counts for the week: it is at most a day before `now`. */
  lemma {:induction false} TodayWithinWeek(log: LogEntry, now: DateTime, fallback: DateFallback)
    ensures CountsToday(log, now, fallback) ==> CountsWeek(log, now, fallback)
  {
    var start := StartOfDay(TimeValue(now));
    assert TimeValue(now) < start + MsPerDay;
  }

  /** A weaker test counts at least as many elements. */
  lemma {:induction false} CountMonotone<T>(s: seq<T>, p: T -> bool, q: T -> bool)
    requires forall x :: p(x) ==> q(x)
    ensures Count(s, p) <= Count(s, q)
  {
    if s != [] {
      CountMonotone(s[..|s| - 1], p, q);
    }
  }

  /** The three counts are bounded by the number of records, and today's by the week's. */
  lemma {:induction false} TimeStatsBounds(logs: seq<LogEntry>, now: DateTime, fallback: DateFallback)
    ensures Count(logs, TodayOf(now, fallback)) <= Count(logs, WeekOf(now, fallback)) <= |logs|
    ensures Count(logs, MonthOf(now, fallback)) <= |logs|
  {
    forall log ensures TodayOf(now, fallback)(log) ==> WeekOf(now, fallback)(log) {
      TodayWithinWeek(log, now, fallback);
    }
    CountMonotone(logs, TodayOf(now, fallback), WeekOf(now, fallback));
  }

  // ---------------------------------------------------------------------------
  // Alert count and yield

  /** The preset the alert test consults: the first whose name equals the record's product name. */
  function KpiPreset(log: LogEntry, presets: seq<ProductPreset>): (r: Option<ProductPreset>)
    ensures r.Some? ==> r.value in presets && Str(r.value.productName) == ProductNameValue(log)
    ensures r.None? ==> forall p :: p in presets ==> Str(p.productName) != ProductNameValue(log)
  {
    var name := ProductNameValue(log);
    Find(presets, (p: ProductPreset) => Str(p.productName) == name)
  }

  /** Some field deviates by more than `tolerance || getDefaultTolerance(field)`. */
  predicate IsAlert(log: LogEntry, fields: set<string>, presets: seq<ProductPreset>)
  {
    exists f :: f in fields &&
      Exceeds(Abs(LogValue(log, f, Diff)), AlertTolerance(ToleranceOf(KpiPreset(log, presets), f), f))
  }

  function IsAlertOf(fields: set<string>, presets: seq<ProductPreset>): LogEntry -> bool
  {
    log => IsAlert(log, fields, presets)
  }

  /** The "out of tolerance" figure: how many filtered records raise an alert. */
  function AlertCount(filtered: seq<LogEntry>, fields: set<string>, presets: seq<ProductPreset>): (n: nat)
    ensures n <= |filtered|
    ensures n == 0 <==> forall log :: log in filtered ==> !IsAlert(log, fields, presets)
  {
    var alerts := Filter(filtered, IsAlertOf(fields, presets));
    assert alerts != [] ==> alerts[0] in alerts;
    |alerts|
  }

  /** A share of `n` lies between 0 and 100 percent, at either end only for 0 and `n`. */
  lemma {:induction false} ShareBounds(a: nat, n: nat)
    requires 0 < n && a <= n
    ensures 0.0 <= a as real / n as real * 100.0 <= 100.0
    ensures a as real / n as real * 100.0 == 0.0 <==> a == 0
    ensures a as real / n as real * 100.0 == 100.0 <==> a == n
  {
    var q := a as real / n as real;
    assert q * n as real == a as real;
    assert q == 0.0 <==> a == 0;
    assert q == 1.0 <==> a == n;
    assert 0.0 <= q <= 1.0;
  }

  /** The yield: the percentage of filtered records without alert, 0 for no records
      (the rounding of `toFixed(1)` is not modelled). */
  function Yield(filtered: seq<LogEntry>, fields: set<string>, presets: seq<ProductPreset>): (y: real)
    ensures 0.0 <= y <= 100.0
    ensures |filtered| == 0 ==> y == 0.0
    ensures |filtered| > 0 ==> (y == 100.0 <==> AlertCount(filtered, fields, presets) == 0)
    ensures |filtered| > 0 ==> (y == 0.0 <==> AlertCount(filtered, fields, presets) == |filtered|)
  {
    if |filtered| > 0 then
      var n := |filtered|;
      var a := AlertCount(filtered, fields, presets);
      ShareBounds(a, n);
      100.0 - a as real / n as real * 100.0
    else 0.0
  }
}
