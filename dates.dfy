/**
 * Request date handling: clean_date_params (the window a query covers) and
 * get_date_range (first and last timestamp seen). Timestamps are whole
 * minutes on an unspecified epoch; a calendar date is a day number.
 */
module Dates {
  import opened Wrappers

  const MinutesPerDay := 1440
  /** timedelta(days=7) in minutes. */
  const Week := 7 * MinutesPerDay

  /** datetime.date(): the day a timestamp falls on. */
  function DateOf(t: int): int
  {
    t / MinutesPerDay
  }

  /** The (start_date.date(), end_date.date()) pair handed to the queries. */
  datatype Window = Window(startDate: int, endDate: int)

  /** `query.get(key) or query.get(altKey)`: an empty value under key falls through to altKey. */
  function DateParam(query: map<string, string>, key: string, altKey: string): (r: Option<string>)
    ensures key in query && query[key] != "" ==> r == Some(query[key])
    ensures !(key in query && query[key] != "") && altKey in query ==> r == Some(query[altKey])
    ensures r.None? <==> (key !in query || query[key] == "") && altKey !in query
  {
    if key in query && query[key] != "" then Some(query[key])
    else if altKey in query then Some(query[altKey])
    else None
  }

  /** An empty startDate falls through to startdate; a non-empty one wins. */
  lemma EmptyFirstKeyFallsThrough()
    ensures DateParam(map["startDate" := "", "startdate" := "2024-01-01"], "startDate", "startdate") == Some("2024-01-01")
    ensures DateParam(map["startDate" := "2024-02-02", "startdate" := "2024-01-01"], "startDate", "startdate") == Some("2024-02-02")
    ensures DateParam(map["startDate" := ""], "startDate", "startdate") == None
  {
  }

  /** parse_date: None stays None; a present value goes to the format parser. */
  function ParseDate(param: Option<string>, parse: string -> Option<int>): (r: Option<int>)
    ensures param.None? ==> r.None?
    ensures param.Some? ==> r == parse(param.value)
  {
    match param
    case None => None
    case Some(s) => parse(s)
  }

  /**
   * Defaults and validation on already-parsed timestamps: end defaults to
   * now, start to a week before end; a start in the future or not on an
   * earlier day than end is overwritten by (now - 7 days, now + 1 day).
   */
  function ResolveWindow(start: Option<int>, end: Option<int>, now: int): (w: Window)
    ensures w.startDate < w.endDate
    ensures w.startDate <= DateOf(now)
  {
    var endDate := if end.Some? then end.value else now;
    var startDate := if start.Some? then start.value else endDate - Week;
    if startDate > now || DateOf(startDate) >= DateOf(endDate) then
      DaysApart(now, Week);
      DaysApart(now + MinutesPerDay, MinutesPerDay);
      Window(DateOf(now - Week), DateOf(now + MinutesPerDay))
    else
      DatesMonotone(startDate, now);
      Window(DateOf(startDate), DateOf(endDate))
  }

  /** clean_date_params over a query dictionary, with the format parser as a parameter. */
  function CleanDateParams(query: map<string, string>, now: int, parse: string -> Option<int>): (w: Window)
    ensures w.startDate < w.endDate
  {
    var end := ParseDate(DateParam(query, "endDate", "enddate"), parse);
    var start := ParseDate(DateParam(query, "startDate", "startdate"), parse);
    ResolveWindow(start, end, now)
  }

  /** Going back a whole number of days moves the date back by that many days. */
  lemma DaysApart(t: int, d: int)
    requires d % MinutesPerDay == 0
    ensures DateOf(t - d) == DateOf(t) - d / MinutesPerDay
  {
    var q, r := t / MinutesPerDay, t % MinutesPerDay;
    assert t == q * MinutesPerDay + r;
    var k := d / MinutesPerDay;
    assert t - d == (q - k) * MinutesPerDay + r;
  }

  /** Dates never go backwards in time. */
  lemma DatesMonotone(s: int, t: int)
    requires s <= t
    ensures DateOf(s) <= DateOf(t)
  {
  }

  /** With no parameters the window is the last week: (now - 7 days, now) as dates. */
  lemma DefaultWindow(now: int)
    ensures ResolveWindow(None, None, now) == Window(DateOf(now) - 7, DateOf(now))
  {
    DaysApart(now, Week);
  }

  /** The same through the query dictionary, whatever the parser does. */
  lemma EmptyQuery(now: int, parse: string -> Option<int>)
    ensures CleanDateParams(map[], now, parse) == Window(DateOf(now) - 7, DateOf(now))
  {
    DefaultWindow(now);
  }

  /**
   * The fallback happens exactly when the resolved start is in the
   * future or not on an earlier day than the resolved end; it gives
   * (now - 7 days, now + 1 day); otherwise the parsed days are kept.
   */
  lemma Fallback(start: Option<int>, end: Option<int>, now: int)
    ensures var e := if end.Some? then end.value else now;
            var s := if start.Some? then start.value else e - Week;
            ResolveWindow(start, end, now)
              == if s > now || DateOf(s) >= DateOf(e)
                 then Window(DateOf(now) - 7, DateOf(now) + 1)
                 else Window(DateOf(s), DateOf(e))
  {
    DaysApart(now, Week);
    DaysApart(now + MinutesPerDay, MinutesPerDay);
  }

  /** An end before the start is replaced by the fallback window. */
  lemma EndBeforeStart(start: int, end: int, now: int)
    requires end < start
    ensures ResolveWindow(Some(start), Some(end), now) == Window(DateOf(now) - 7, DateOf(now) + 1)
  {
    Fallback(Some(start), Some(end), now);
  }

  /** The (startDate, endDate) of get_date_range, before strftime. */
  datatype DateRange = DateRange(startDate: int, endDate: int)

  /** min(dates). */
  function Min(dates: seq<int>): (m: int)
    requires |dates| > 0
    ensures m in dates && forall d :: d in dates ==> m <= d
  {
    if |dates| == 1 then dates[0]
    else
      var m := Min(dates[1..]);
      assert forall d :: d in dates ==> d == dates[0] || d in dates[1..];
      if dates[0] < m then dates[0] else m
  }

  /** max(dates). */
  function Max(dates: seq<int>): (m: int)
    requires |dates| > 0
    ensures m in dates && forall d :: d in dates ==> d <= m
  {
    if |dates| == 1 then dates[0]
    else
      var m := Max(dates[1..]);
      assert forall d :: d in dates ==> d == dates[0] || d in dates[1..];
      if dates[0] > m then dates[0] else m
  }

  /** get_date_range: None for no dates, else the earliest and latest of them. */
  function GetDateRange(dates: seq<int>): (r: Option<DateRange>)
    ensures r.None? <==> |dates| == 0
    ensures r.Some? ==> r.value.startDate in dates && r.value.endDate in dates
    ensures r.Some? ==> forall d :: d in dates ==> r.value.startDate <= d <= r.value.endDate
  {
    if |dates| == 0 then None else Some(DateRange(Min(dates), Max(dates)))
  }
}
