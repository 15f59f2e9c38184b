/** The dashboard's record list (components/Dashboard.tsx, `filteredLogs`): the
    records that pass the search, product, machine and date-range filters,
    newest first. */
module LogFilter {
  import opened JsRuntime
  import opened JsDates
  import opened Types
  import opened JsArrays
  import opened Sorting
  import opened LogValues

  /** The filter controls. `product` and `machine` hold the literal "all" when
      unset; an unset date bound is None, a set one is the date the date input
      denotes. */
  datatype Filters = Filters(
    search: string,
    product: string,
    machine: string,
    startDate: Option<DateTime>,
    endDate: Option<DateTime>)

  /** `String(v || "").toLowerCase()`. */
  function SearchText(v: JsValue): string
  {
    Lower(ToJsString(Or(v, Str(""))))
  }

  predicate MatchesSearch(log: LogEntry, search: string)
  {
    Contains(SearchText(ProductNameValue(log)), Lower(search))
    || Contains(SearchText(StructureValue(log)), Lower(search))
  }

  /** `filterProduct === 'all' || productName === filterProduct` (strict equality:
      only a string value can equal the filter). */
  predicate MatchesProduct(log: LogEntry, product: string)
  {
    product == "all" || ProductNameValue(log) == Str(product)
  }

  predicate MatchesMachine(log: LogEntry, machine: string)
  {
    machine == "all" || MachineIdValue(log) == Str(machine)
  }

  /** Midnight of the day of a date, as `new Date(y, m, d).getTime()` of its getters. */
  function DayStart(t: DateTime): int
  {
    StartOfDay(TimeValue(t))
  }

  /** The filter callback, with its early returns: a record whose timestamp does
      not parse is judged on the other three tests alone; otherwise a day before
      the start bound or after the end bound rejects it. */
  predicate Keep(log: LogEntry, f: Filters, fallback: DateFallback)
  {
    var matches := MatchesSearch(log, f.search) && MatchesProduct(log, f.product) && MatchesMachine(log, f.machine);
    match LogDate(log, fallback)
    case None => matches
    case Some(d) =>
      if f.startDate.Some? && DayStart(d) < DayStart(f.startDate.value) then false
      else if f.endDate.Some? && DayStart(d) > DayStart(f.endDate.value) then false
      else matches
  }

  /** The day-granular range test: the record's day lies within the bounds that are set. */
  predicate InDateRange(d: DateTime, f: Filters)
  {
    (f.startDate.None? || DayOf(TimeValue(f.startDate.value)) <= DayOf(TimeValue(d)))
    && (f.endDate.None? || DayOf(TimeValue(d)) <= DayOf(TimeValue(f.endDate.value)))
  }

  /** A record is kept exactly when all four tests pass, the date test counting
      as passed when its timestamp does not parse. */
  lemma {:induction false} KeepIsConjunction(log: LogEntry, f: Filters, fallback: DateFallback)
    ensures Keep(log, f, fallback) <==>
      MatchesSearch(log, f.search) && MatchesProduct(log, f.product) && MatchesMachine(log, f.machine)
      && (LogDate(log, fallback).None? || InDateRange(LogDate(log, fallback).value, f))
  {
    var ld := LogDate(log, fallback);
    if ld.Some? {
      BoundsAreDateRange(ld.value, f);
    }
  }

  /** The two early returns on the date reject exactly the days outside the range. */
  lemma {:induction false} BoundsAreDateRange(d: DateTime, f: Filters)
    ensures !(f.startDate.Some? && DayStart(d) < DayStart(f.startDate.value))
         && !(f.endDate.Some? && DayStart(d) > DayStart(f.endDate.value))
        <==> InDateRange(d, f)
  {
    if f.startDate.Some? {
      StartOfDayMonotone(TimeValue(d), TimeValue(f.startDate.value));
    }
    if f.endDate.Some? {
      StartOfDayMonotone(TimeValue(d), TimeValue(f.endDate.value));
    }
  }

  /** Comparing midnights is comparing day numbers. */
  lemma {:induction false} StartOfDayMonotone(a: int, b: int)
    ensures StartOfDay(a) < StartOfDay(b) <==> DayOf(a) < DayOf(b)
    ensures StartOfDay(a) > StartOfDay(b) <==> DayOf(a) > DayOf(b)
  {
  }

  /** An empty search term matches every record. */
  lemma {:induction false} EmptySearchMatchesAll(log: LogEntry)
    ensures MatchesSearch(log, "")
  {
    assert Lower("") == "";
    assert IsPrefix("", SearchText(ProductNameValue(log)));
  }

  /** The sort key: the time value of the parsed timestamp, 0 when it does not parse. */
  function SortKey(log: LogEntry, fallback: DateFallback): int
  {
    match LogDate(log, fallback)
    case None => 0
    case Some(d) => TimeValue(d)
  }

  function SortKeyOf(fallback: DateFallback): LogEntry -> int
  {
    log => SortKey(log, fallback)
  }

  function KeepOf(f: Filters, fallback: DateFallback): LogEntry -> bool
  {
    log => Keep(log, f, fallback)
  }

  /** `filteredLogs`: the kept records, each as often as it occurs in the input,
      ordered newest first. */
  function FilteredLogs(logs: seq<LogEntry>, f: Filters, fallback: DateFallback): (r: seq<LogEntry>)
    ensures forall x :: multiset(r)[x] == if Keep(x, f, fallback) then multiset(logs)[x] else 0
    ensures SortedDesc(r, SortKeyOf(fallback))
    ensures forall i, j :: 0 <= i < j < |r| ==> SortKey(r[i], fallback) >= SortKey(r[j], fallback)
    ensures forall t :: WithKey(r, SortKeyOf(fallback), t) == Filter(WithKey(logs, SortKeyOf(fallback), t), KeepOf(f, fallback))
  {
    var kept := Filter(logs, KeepOf(f, fallback));
    WithKeyOfFilter(logs, KeepOf(f, fallback), SortKeyOf(fallback));
    SortDesc(kept, SortKeyOf(fallback))
  }
}
