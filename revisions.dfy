/**
 * The per-revision report of run_platform_query over already fetched
 * rows: for every changeset its (result, testtype, date) rows, folded into
 * colour counters per changeset (CSetSummary) and per test type, then the
 * totals, percentages and the overall fail rate.
 */
module Revisions {
  import opened Wrappers
  import opened Outcomes
  import opened FailRate
  import opened StringOrder
  import Dates

  datatype TestRow = TestRow(result: string, testType: string, date: int)

  /** A row as the fold sees it: its test type and its classified outcome. */
  datatype Entry = Entry(testType: string, outcome: TestOutcome)

  function EntryOf(row: TestRow): Entry
  {
    Entry(row.testType, TestOutcomeOf(row.result))
  }

  /** The entries of the rows, in order. */
  function Entries(rows: seq<TestRow>): (es: seq<Entry>)
    ensures |es| == |rows| && forall k :: 0 <= k < |rows| ==> es[k] == EntryOf(rows[k])
  {
    seq(|rows|, k requires 0 <= k < |rows| => EntryOf(rows[k]))
  }

  /** A changeset id with the rows its second query returns. */
  datatype CSet = CSet(id: string, rows: seq<TestRow>)

  /** The exceptions the source can raise after the fetch. */
  datatype PyError = ZeroDivisionError | NameError

  // ---- Counters per changeset ----------------------------------------------

  /** Counter lookup: a missing key counts 0. */
  function Get(m: map<string, nat>, k: string): nat
  {
    if k in m then m[k] else 0
  }

  /** counter[k] += 1 */
  function Inc(m: map<string, nat>, k: string): map<string, nat>
  {
    m[k := Get(m, k) + 1]
  }

  /** The four Counters of a CSetSummary, each keyed by test type. */
  datatype ColourCounters = ColourCounters(green: map<string, nat>, orange: map<string, nat>,
                                           blue: map<string, nat>, red: map<string, nat>)

  const NoCounts := ColourCounters(map[], map[], map[], map[])

  function Field(cc: ColourCounters, c: Colour): map<string, nat>
  {
    match c
    case Green => cc.green
    case Orange => cc.orange
    case Blue => cc.blue
    case Red => cc.red
  }

  /** What one row does to a changeset's counters: only a coloured row counts. */
  function CountRow(cc: ColourCounters, e: Entry): ColourCounters
  {
    match e.outcome
    case Coloured(Green) => cc.(green := Inc(cc.green, e.testType))
    case Coloured(Orange) => cc.(orange := Inc(cc.orange, e.testType))
    case Coloured(Blue) => cc.(blue := Inc(cc.blue, e.testType))
    case Coloured(Red) => cc.(red := Inc(cc.red, e.testType))
    case UserCancel => cc
    case Unrecognized => cc
  }

  /** The counters of a changeset after its entries. */
  function CSetCounts(es: seq<Entry>): ColourCounters
  {
    if |es| == 0 then NoCounts else CountRow(CSetCounts(es[..|es| - 1]), es[|es| - 1])
  }

  /** The entries of test type t whose outcome is colour c. */
  function CountTyped(es: seq<Entry>, t: string, c: Colour): nat
  {
    if |es| == 0 then 0
    else CountTyped(es[..|es| - 1], t, c) + (if es[|es| - 1] == Entry(t, Coloured(c)) then 1 else 0)
  }

  /** CSetSummary: a changeset id and four Counters that the fold increments in place. */
  class CSetSummary {
    var csetId: string
    var green: map<string, nat>
    var orange: map<string, nat>
    var red: map<string, nat>
    var blue: map<string, nat>

    constructor (csetId: string)
      ensures this.csetId == csetId && Counts() == NoCounts
    {
      this.csetId := csetId;
      green, orange, red, blue := map[], map[], map[], map[];
    }

    /** The counters as a value. */
    function Counts(): ColourCounters
      reads this
    {
      ColourCounters(green, orange, blue, red)
    }
  }

  // ---- Counters per test type ----------------------------------------------

  /** The {'green', 'orange', 'blue', 'red'} dictionary of one test type. */
  datatype TypeTally = TypeTally(green: nat, orange: nat, blue: nat, red: nat)

  const Zero := TypeTally(0, 0, 0, 0)

  /** Adds one to the counter of a coloured outcome; other outcomes add nothing. */
  function AddOutcome(t: TypeTally, o: TestOutcome): TypeTally
  {
    match o
    case Coloured(Green) => t.(green := t.green + 1)
    case Coloured(Orange) => t.(orange := t.orange + 1)
    case Coloured(Blue) => t.(blue := t.blue + 1)
    case Coloured(Red) => t.(red := t.red + 1)
    case UserCancel => t
    case Unrecognized => t
  }

  function Plus(a: TypeTally, b: TypeTally): TypeTally
  {
    TypeTally(a.green + b.green, a.orange + b.orange, a.blue + b.blue, a.red + b.red)
  }

  function Size(t: TypeTally): nat
  {
    t.green + t.orange + t.blue + t.red
  }

  function TallyGet(ts: map<string, TypeTally>, t: string): TypeTally
  {
    if t in ts then ts[t] else Zero
  }

  /** setdefault(testtype, summary.copy()) followed by the row's increment. */
  function RecordTest(ts: map<string, TypeTally>, e: Entry): map<string, TypeTally>
  {
    ts[e.testType := AddOutcome(TallyGet(ts, e.testType), e.outcome)]
  }

  /** test_summaries after the given entries. */
  function TestSummaries(es: seq<Entry>): map<string, TypeTally>
  {
    if |es| == 0 then map[] else RecordTest(TestSummaries(es[..|es| - 1]), es[|es| - 1])
  }

  /** The keys of test_summaries, in the order the entries first register them. */
  function TypesSeen(es: seq<Entry>): (types: seq<string>)
    ensures Distinct(types)
    ensures forall t :: t in types <==> t in TestSummaries(es)
    ensures |es| > 0 ==> |types| > 0
  {
    if |es| == 0 then []
    else
      var prev := TypesSeen(es[..|es| - 1]);
      var t := es[|es| - 1].testType;
      if t in prev then prev else prev + [t]
  }

  /** All rows of all changesets, changeset by changeset. */
  function AllRows(csets: seq<CSet>): seq<TestRow>
  {
    if |csets| == 0 then [] else AllRows(csets[..|csets| - 1]) + csets[|csets| - 1].rows
  }

  /** The colour counts of the entries, whatever their test type. */
  function ColourTotal(es: seq<Entry>): TypeTally
  {
    if |es| == 0 then Zero else AddOutcome(ColourTotal(es[..|es| - 1]), es[|es| - 1].outcome)
  }

  /** The entries that have a colour. */
  function ColouredCount(es: seq<Entry>): nat
  {
    if |es| == 0 then 0
    else ColouredCount(es[..|es| - 1]) + (if es[|es| - 1].outcome.Coloured? then 1 else 0)
  }

  /** The date column of the rows. */
  function DatesOf(rows: seq<TestRow>): (dates: seq<int>)
    ensures |dates| == |rows| && forall k :: 0 <= k < |rows| ==> dates[k] == rows[k].date
  {
    seq(|rows|, k requires 0 <= k < |rows| => rows[k].date)
  }

  // ---- Totals and percentages ----------------------------------------------

  /** The Counter `total` after total.update(test_summaries[t]) for each t of keys. */
  function SumTallies(ts: map<string, TypeTally>, keys: seq<string>): TypeTally
  {
    if |keys| == 0 then Zero else Plus(SumTallies(ts, keys[..|keys| - 1]), TallyGet(ts, keys[|keys| - 1]))
  }

  /** A Counter holding the four colour counts. */
  function TotalMap(t: TypeTally): map<Colour, nat>
  {
    map[Green := t.green, Orange := t.orange, Blue := t.blue, Red := t.red]
  }

  function ColourGet(m: map<Colour, nat>, c: Colour): nat
  {
    if c in m then m[c] else 0
  }

  /** sum(total.values()). */
  function SumValues(m: map<Colour, nat>): nat
  {
    ColourGet(m, Green) + ColourGet(m, Orange) + ColourGet(m, Blue) + ColourGet(m, Red)
  }

  /** The percentage dictionary: each colour's share of count, times 100. */
  function PercentagesOf(total: map<Colour, nat>, count: nat): map<Colour, real>
    requires count > 0
  {
    map c | c in total :: 100.0 * total[c] as real / count as real
  }

  /** The Counter `total` of the entries: empty when there are none, else the four colour counts. */
  function TotalOf(es: seq<Entry>): map<Colour, nat>
  {
    TotalFor(|es| > 0, ColourTotal(es))
  }

  /** The total Counter given whether any test type was seen and the colour counts. */
  function TotalFor(someTypes: bool, colours: TypeTally): map<Colour, nat>
  {
    if someTypes then TotalMap(colours) else map[]
  }

  /** The percentage dictionary given the colour counts: empty when there are none. */
  function PercentagesFor(colours: TypeTally): map<Colour, real>
  {
    if Size(colours) == 0 then map[] else PercentagesOf(TotalMap(colours), Size(colours))
  }

  /** The percentage dictionary of the entries: empty when none has a colour. */
  function PercentageOf(es: seq<Entry>): map<Colour, real>
  {
    PercentagesFor(ColourTotal(es))
  }

  /** testTypes: the test types in ascending order, then "total" and "percentage". */
  function TestTypes(types: seq<string>): (r: seq<string>)
    requires Distinct(types)
    ensures |r| == |types| + 2 && r[|types|..] == ["total", "percentage"]
    ensures Sorted(r[..|types|]) && multiset(r[..|types|]) == multiset(types)
  {
    var sorted := Sort(types);
    assert (sorted + ["total", "percentage"])[..|types|] == sorted by {
      assert |sorted| == |multiset(sorted)| == |types|;
    }
    sorted + ["total", "percentage"]
  }

  /** An entry of byTest: a test type's counters, the total Counter, or the percentages. */
  datatype TestEntry = TypeCounts(tally: TypeTally) | TotalCounts(counts: map<Colour, nat>)
                     | Percentages(shares: map<Colour, real>)

  /**
   * byTest: every test summary, then "total" and "percentage" written over
   * whatever test type might carry those names.
   */
  function ByTest(ts: map<string, TypeTally>, total: map<Colour, nat>, percentage: map<Colour, real>)
    : map<string, TestEntry>
  {
    (map t | t in ts :: TypeCounts(ts[t]))["total" := TotalCounts(total)]["percentage" := Percentages(percentage)]
  }

  /**
   * byTest holds every test type's summary, except that "total" and
   * "percentage" are overwritten by the two aggregates.
   */
  lemma ByTestEntries(ts: map<string, TypeTally>, total: map<Colour, nat>, percentage: map<Colour, real>)
    ensures forall t :: t in ByTest(ts, total, percentage) <==> t in ts || t == "total" || t == "percentage"
    ensures forall t :: t in ts && t != "total" && t != "percentage" ==>
              ByTest(ts, total, percentage)[t] == TypeCounts(ts[t])
    ensures "total" in ByTest(ts, total, percentage)
            && ByTest(ts, total, percentage)["total"] == TotalCounts(total)
    ensures "percentage" in ByTest(ts, total, percentage)
            && ByTest(ts, total, percentage)["percentage"] == Percentages(percentage)
  {
  }

  /** The JSON object of the revision report. */
  datatype PlatformReport = PlatformReport(testTypes: seq<string>, byRevision: seq<CSetSummary>,
                                           byTest: map<string, TestEntry>, failRates: FailRates,
                                           dates: Option<Dates.DateRange>)

  /** Entries of concatenated rows. */
  lemma EntriesConcat(a: seq<TestRow>, b: seq<TestRow>)
    ensures Entries(a + b) == Entries(a) + Entries(b)
  {
    assert forall k :: 0 <= k < |a + b| ==> Entries(a + b)[k] == (Entries(a) + Entries(b))[k];
  }

  // ---- The fold ------------------------------------------------------------

  /**
   * One row of the inner loop: test_summaries.setdefault and the if/elif
   * chain incrementing both the changeset's Counter and the test type's
   * summary. usercancel and unknown tokens only log.
   */
  method RecordRow(s: CSetSummary, ts0: map<string, TypeTally>, row: TestRow) returns (ts: map<string, TypeTally>)
    modifies s
    ensures s.csetId == old(s.csetId) && s.Counts() == CountRow(old(s.Counts()), EntryOf(row))
    ensures ts == RecordTest(ts0, EntryOf(row))
  {
    var testType := row.testType;
    var testSummary := TallyGet(ts0, testType);
    var res := row.result;
    if res == "success" {
      s.green := Inc(s.green, testType);
      testSummary := testSummary.(green := testSummary.green + 1);
    } else if res == "testfailed" {
      s.orange := Inc(s.orange, testType);
      testSummary := testSummary.(orange := testSummary.orange + 1);
    } else if res == "retry" {
      s.blue := Inc(s.blue, testType);
      testSummary := testSummary.(blue := testSummary.blue + 1);
    } else if res == "exception" || res == "busted" {
      s.red := Inc(s.red, testType);
      testSummary := testSummary.(red := testSummary.red + 1);
    }
    ts := ts0[testType := testSummary];
  }

  /**
   * One changeset: a fresh CSetSummary filled from its rows, while the
   * global test summaries, their key order and the dates grow.
   */
  method SummariseCSet(cset: CSet, ts0: map<string, TypeTally>, types0: seq<string>, dates0: seq<int>,
                       ghost done: seq<Entry>)
    returns (s: CSetSummary, ts: map<string, TypeTally>, types: seq<string>, dates: seq<int>)
    requires ts0 == TestSummaries(done) && types0 == TypesSeen(done)
    ensures fresh(s) && s.csetId == cset.id && s.Counts() == CSetCounts(Entries(cset.rows))
    ensures ts == TestSummaries(done + Entries(cset.rows)) && types == TypesSeen(done + Entries(cset.rows))
    ensures dates == dates0 + DatesOf(cset.rows)
  {
    ghost var es := Entries(cset.rows);
    s := new CSetSummary(cset.id);
    ts, types, dates := ts0, types0, dates0;
    assert done + es[..0] == done;
    for i := 0 to |cset.rows|
      invariant s.csetId == cset.id && s.Counts() == CSetCounts(es[..i])
      invariant ts == TestSummaries(done + es[..i]) && types == TypesSeen(done + es[..i])
      invariant dates == dates0 + DatesOf(cset.rows[..i])
    {
      var row := cset.rows[i];
      EntriesStep(cset.rows, i);
      ts, types := AbsorbRow(s, ts, types, done, es[..i], row);
      DatesStep(dates0, cset.rows, i);
      dates := dates + [row.date];
    }
    assert es[..|cset.rows|] == es;
    assert cset.rows[..|cset.rows|] == cset.rows;
  }

  /**
   * One iteration of the row loop: the changeset's counters, the global
   * test summaries and their key order all move one entry further.
   */
  method AbsorbRow(s: CSetSummary, ts0: map<string, TypeTally>, types0: seq<string>,
                   ghost done: seq<Entry>, ghost prefix: seq<Entry>, row: TestRow)
    returns (ts: map<string, TypeTally>, types: seq<string>)
    modifies s
    requires s.Counts() == CSetCounts(prefix)
    requires ts0 == TestSummaries(done + prefix) && types0 == TypesSeen(done + prefix)
    ensures s.csetId == old(s.csetId) && s.Counts() == CSetCounts(prefix + [EntryOf(row)])
    ensures ts == TestSummaries(done + (prefix + [EntryOf(row)]))
    ensures types == TypesSeen(done + (prefix + [EntryOf(row)]))
  {
    ghost var e := EntryOf(row);
    ghost var seen := done + prefix;
    CountsStep(prefix, e);
    SummariesStep(seen, e);
    TypesStep(seen, e);
    assert done + (prefix + [e]) == seen + [e];
    types := types0;
    if row.testType !in ts0 {
      types := types0 + [row.testType];
    }
    ts := RecordRow(s, ts0, row);
  }

  /** The entries of one more row. */
  lemma EntriesStep(rows: seq<TestRow>, i: int)
    requires 0 <= i < |rows|
    ensures Entries(rows)[..i + 1] == Entries(rows)[..i] + [EntryOf(rows[i])]
  {
  }

  /** The date column of one more row. */
  lemma DatesStep(dates0: seq<int>, rows: seq<TestRow>, i: int)
    requires 0 <= i < |rows|
    ensures dates0 + DatesOf(rows[..i + 1]) == dates0 + DatesOf(rows[..i]) + [rows[i].date]
  {
    assert DatesOf(rows[..i + 1]) == DatesOf(rows[..i]) + [rows[i].date];
  }

  /** The changeset fold over one more entry. */
  lemma CountsStep(prefix: seq<Entry>, e: Entry)
    ensures CSetCounts(prefix + [e]) == CountRow(CSetCounts(prefix), e)
  {
    assert (prefix + [e])[..|prefix|] == prefix;
  }

  /** The test-summary fold over one more entry. */
  lemma SummariesStep(prefix: seq<Entry>, e: Entry)
    ensures TestSummaries(prefix + [e]) == RecordTest(TestSummaries(prefix), e)
  {
    assert (prefix + [e])[..|prefix|] == prefix;
  }

  /** The key order over one more entry: a new test type goes last. */
  lemma TypesStep(prefix: seq<Entry>, e: Entry)
    ensures TypesSeen(prefix + [e]) ==
              if e.testType in TestSummaries(prefix) then TypesSeen(prefix) else TypesSeen(prefix) + [e.testType]
  {
    assert (prefix + [e])[..|prefix|] == prefix;
  }

  /** for test in test_summaries: total.update(test_summaries[test]) */
  method SumTotals(ts: map<string, TypeTally>, keys: seq<string>) returns (total: map<Colour, nat>)
    requires forall k :: k in keys ==> k in ts
    ensures total == if |keys| == 0 then map[] else TotalMap(SumTallies(ts, keys))
  {
    total := map[];
    for i := 0 to |keys|
      invariant total == if i == 0 then map[] else TotalMap(SumTallies(ts, keys[..i]))
    {
      assert keys[..i + 1][..i] == keys[..i];
      var t := ts[keys[i]];
      total := map[Green := ColourGet(total, Green) + t.green, Orange := ColourGet(total, Orange) + t.orange,
                   Blue := ColourGet(total, Blue) + t.blue, Red := ColourGet(total, Red) + t.red];
    }
    assert keys[..|keys|] == keys;
  }

  /** The changeset loop: one CSetSummary per changeset and the global summaries. */
  method SummariseAll(csets: seq<CSet>)
    returns (summaries: seq<CSetSummary>, ts: map<string, TypeTally>, types: seq<string>, dates: seq<int>)
    ensures Summarised(summaries, csets)
    ensures ts == TestSummaries(Entries(AllRows(csets))) && types == TypesSeen(Entries(AllRows(csets)))
    ensures dates == DatesOf(AllRows(csets))
  {
    summaries, ts, types, dates := [], map[], [], [];
    for i := 0 to |csets|
      invariant |summaries| == i
      invariant Summarised(summaries, csets[..i])
      invariant ts == TestSummaries(Entries(AllRows(csets[..i]))) && types == TypesSeen(Entries(AllRows(csets[..i])))
      invariant dates == DatesOf(AllRows(csets[..i]))
    {
      AllRowsStep(csets, i);
      var s;
      s, ts, types, dates := SummariseCSet(csets[i], ts, types, dates, Entries(AllRows(csets[..i])));
      SummarisedStep(summaries, csets, i, s);
      summaries := summaries + [s];
    }
    assert csets[..|csets|] == csets;
  }

  /** Each summary has its changeset's id and the counts of its rows. */
  ghost predicate Summarised(summaries: seq<CSetSummary>, csets: seq<CSet>)
    reads summaries
  {
    |summaries| == |csets|
    && forall k :: 0 <= k < |csets| ==>
         summaries[k].csetId == csets[k].id && summaries[k].Counts() == CSetCounts(Entries(csets[k].rows))
  }

  lemma SummarisedStep(summaries: seq<CSetSummary>, csets: seq<CSet>, i: int, s: CSetSummary)
    requires 0 <= i < |csets| && Summarised(summaries, csets[..i])
    requires s.csetId == csets[i].id && s.Counts() == CSetCounts(Entries(csets[i].rows))
    ensures Summarised(summaries + [s], csets[..i + 1])
  {
    assert csets[..i + 1][..i] == csets[..i];
  }

  /** The rows, entries and dates of one more changeset. */
  lemma AllRowsStep(csets: seq<CSet>, i: int)
    requires 0 <= i < |csets|
    ensures AllRows(csets[..i + 1]) == AllRows(csets[..i]) + csets[i].rows
    ensures Entries(AllRows(csets[..i + 1])) == Entries(AllRows(csets[..i])) + Entries(csets[i].rows)
    ensures DatesOf(AllRows(csets[..i + 1])) == DatesOf(AllRows(csets[..i])) + DatesOf(csets[i].rows)
  {
    assert csets[..i + 1][..i] == csets[..i];
    EntriesConcat(AllRows(csets[..i]), csets[i].rows);
    assert DatesOf(AllRows(csets[..i + 1])) == DatesOf(AllRows(csets[..i])) + DatesOf(csets[i].rows);
  }

  /**
   * run_platform_query after its two queries: the per-changeset summaries,
   * the per-test-type summaries with "total" and "percentage" appended, the
   * fail rates over all coloured rows and the date range. A division by a
   * test count of zero raises, as in the source, when there are rows but
   * none of them has a colour.
   */
  method RunPlatformQuery(csets: seq<CSet>) returns (r: Result<PlatformReport, PyError>)
    ensures var es := Entries(AllRows(csets));
            r.Err? <==> |es| > 0 && Size(ColourTotal(es)) == 0
    ensures r.Err? ==> r.error == ZeroDivisionError
    ensures r.Ok? ==>
              var es := Entries(AllRows(csets));
              var ts := TestSummaries(es);
              var report := r.value;
              && report.testTypes == TestTypes(TypesSeen(es))
              && Summarised(report.byRevision, csets)
              && report.byTest == ByTest(ts, TotalOf(es), PercentageOf(es))
              && report.failRates == FailRateOf(ColourTotal(es).green, ColourTotal(es).blue, Size(ColourTotal(es)))
              && report.dates == Dates.GetDateRange(DatesOf(AllRows(csets)))
  {
    var summaries, ts, types, dates := SummariseAll(csets);
    ghost var es := Entries(AllRows(csets));
    TotalsMatch(es);
    if |es| == 0 {
      assert types == [];
    }
    var totals := ComputeTotals(ts, types, ColourTotal(es));
    if totals.Err? {
      return Err(totals.error);
    }
    var report := Assemble(summaries, ts, types, dates, totals.value.total, totals.value.percentage, ColourTotal(es));
    r := Ok(report);
  }

  /**
   * The JSON object built after the totals: testTypes, the changeset
   * summaries, byTest with "total" and "percentage", the fail rates and the
   * date range, given the summaries and, as a ghost, the colour counts.
   */
  method Assemble(summaries: seq<CSetSummary>, ts: map<string, TypeTally>, types: seq<string>, dates: seq<int>,
                  total: map<Colour, nat>, percentage: map<Colour, real>, ghost colours: TypeTally)
    returns (report: PlatformReport)
    requires Distinct(types)
    requires |types| == 0 ==> colours == Zero
    requires total == TotalFor(|types| > 0, colours) && percentage == PercentagesFor(colours)
    ensures report.testTypes == TestTypes(types) && report.byRevision == summaries
    ensures report.byTest == ByTest(ts, TotalFor(|types| > 0, colours), PercentagesFor(colours))
    ensures report.failRates == FailRateOf(colours.green, colours.blue, Size(colours))
    ensures report.dates == Dates.GetDateRange(dates)
  {
    var testTypes := TestTypes(types);
    var failRates := PlatformFailRate(total, |types| > 0, colours);
    var byTest := ByTest(ts, total, percentage);
    report := PlatformReport(testTypes, summaries, byTest, failRates, Dates.GetDateRange(dates));
  }

  /** calculate_fail_rate(total['green'], total['blue'], test_count). */
  method PlatformFailRate(total: map<Colour, nat>, ghost someTypes: bool, ghost colours: TypeTally) returns (rates: FailRates)
    requires !someTypes ==> colours == Zero
    requires total == TotalFor(someTypes, colours)
    ensures rates == FailRateOf(colours.green, colours.blue, Size(colours))
  {
    TotalFacts(total, someTypes, colours);
    rates := CalculateFailRate(ColourGet(total, Green), ColourGet(total, Blue), SumValues(total));
  }

  /** The total Counter and the percentage dictionary. */
  datatype TotalStats = TotalStats(total: map<Colour, nat>, percentage: map<Colour, real>)

  /**
   * The totals loop, test_count and the percentages loop, given the test
   * summaries and, as a ghost, the colour counts they add up to.
   */
  method ComputeTotals(ts: map<string, TypeTally>, types: seq<string>, ghost colours: TypeTally)
    returns (r: Result<TotalStats, PyError>)
    requires forall t :: t in types ==> t in ts
    requires |types| == 0 ==> colours == Zero
    requires |types| > 0 ==> SumTallies(ts, types) == colours
    ensures r.Err? <==> |types| > 0 && Size(colours) == 0
    ensures r.Err? ==> r.error == ZeroDivisionError
    ensures r.Ok? ==> r.value.total == TotalFor(|types| > 0, colours) && r.value.percentage == PercentagesFor(colours)
  {
    var total := SumTotals(ts, types);
    TotalFacts(total, |types| > 0, colours);
    var testCount := SumValues(total);
    var percentage := ComputePercentages(total, testCount);
    if percentage.Err? {
      return Err(percentage.error);
    }
    PercentagesFacts(total, |types| > 0, colours, testCount, percentage.value);
    r := Ok(TotalStats(total, percentage.value));
  }

  /** What the rates need of the total Counter. */
  lemma TotalFacts(total: map<Colour, nat>, someTypes: bool, colours: TypeTally)
    requires !someTypes ==> total == map[] && colours == Zero
    requires someTypes ==> total == TotalMap(colours)
    ensures SumValues(total) == Size(colours)
    ensures ColourGet(total, Green) == colours.green && ColourGet(total, Blue) == colours.blue
    ensures someTypes <==> Green in total
  {
  }

  /** The total Counter and the percentages, in terms of the colour counts. */
  lemma PercentagesFacts(total: map<Colour, nat>, someTypes: bool, colours: TypeTally,
                         testCount: nat, percentage: map<Colour, real>)
    requires !someTypes ==> total == map[] && colours == Zero
    requires someTypes ==> total == TotalMap(colours)
    requires testCount == Size(colours)
    requires percentage == if testCount == 0 then map[] else PercentagesOf(total, testCount)
    ensures total == TotalFor(someTypes, colours)
    ensures percentage == PercentagesFor(colours)
  {
  }

  /**
   * for key in total: percentage[key] = 100.0 * total[key] / test_count,
   * raising ZeroDivisionError on the first key when test_count is zero.
   */
  method ComputePercentages(total: map<Colour, nat>, testCount: nat) returns (r: Result<map<Colour, real>, PyError>)
    ensures r.Err? <==> total != map[] && testCount == 0
    ensures r.Err? ==> r.error == ZeroDivisionError
    ensures r.Ok? ==> r.value == if testCount == 0 then map[] else PercentagesOf(total, testCount)
  {
    var percentage: map<Colour, real> := map[];
    var colours := [Green, Orange, Blue, Red];
    for j := 0 to |colours|
      invariant forall c :: c in percentage <==> c in total && c in colours[..j]
      invariant forall c :: c in percentage ==> testCount > 0 && percentage[c] == 100.0 * total[c] as real / testCount as real
    {
      var key := colours[j];
      if key in total {
        if testCount == 0 {
          assert key in total.Keys;
          return Err(ZeroDivisionError);
        }
        percentage := percentage[key := 100.0 * total[key] as real / testCount as real];
      }
    }
    assert colours[..|colours|] == colours;
    PercentagesDone(total, testCount, percentage);
    r := Ok(percentage);
  }

  /** After the loop over all four colours: every key of total has its share. */
  lemma PercentagesDone(total: map<Colour, nat>, testCount: nat, percentage: map<Colour, real>)
    requires forall c :: c in percentage <==> c in total && c in [Green, Orange, Blue, Red]
    requires forall c :: c in percentage ==> testCount > 0 && percentage[c] == 100.0 * total[c] as real / testCount as real
    ensures total != map[] ==> testCount > 0
    ensures percentage == if testCount == 0 then map[] else PercentagesOf(total, testCount)
  {
    assert forall c: Colour :: c in [Green, Orange, Blue, Red] <== c.Green? || c.Orange? || c.Blue? || c.Red?;
    assert total.Keys <= percentage.Keys;
    if testCount == 0 {
      assert percentage == map[];
      assert total == map[];
    } else {
      assert percentage == PercentagesOf(total, testCount);
    }
  }

  // ---- Properties ------------------------------------------------------------

  /** Updating a key outside the list leaves the sum over the list alone. */
  lemma {:induction false} SumIgnores(ts: map<string, TypeTally>, keys: seq<string>, t: string, v: TypeTally)
    requires t !in keys
    ensures SumTallies(ts[t := v], keys) == SumTallies(ts, keys)
  {
    if |keys| > 0 {
      SumIgnores(ts, keys[..|keys| - 1], t, v);
    }
  }

  /** Adding an outcome to one listed key adds it to the sum over the list. */
  lemma {:induction false} SumUpdate(ts: map<string, TypeTally>, keys: seq<string>, t: string, o: TestOutcome)
    requires Distinct(keys) && t in keys
    ensures SumTallies(ts[t := AddOutcome(TallyGet(ts, t), o)], keys) == AddOutcome(SumTallies(ts, keys), o)
  {
    var init, last := keys[..|keys| - 1], keys[|keys| - 1];
    var ts' := ts[t := AddOutcome(TallyGet(ts, t), o)];
    assert SumTallies(ts', keys) == Plus(SumTallies(ts', init), TallyGet(ts', last));
    assert Distinct(init);
    if last == t {
      assert t !in init;
      SumIgnores(ts, init, t, AddOutcome(TallyGet(ts, t), o));
      PlusAddOutcome(SumTallies(ts, init), TallyGet(ts, t), o);
    } else {
      SumUpdate(ts, init, t, o);
      assert TallyGet(ts', last) == TallyGet(ts, last);
      PlusAddOutcomeLeft(SumTallies(ts, init), TallyGet(ts, last), o);
    }
  }

  /** Adding an outcome to the left summand adds it to the sum. */
  lemma PlusAddOutcomeLeft(a: TypeTally, b: TypeTally, o: TestOutcome)
    ensures Plus(AddOutcome(a, o), b) == AddOutcome(Plus(a, b), o)
  {
  }

  /**
   * The total Counter, summed over the test summaries, is the colour count
   * of all entries: every coloured row lands in exactly one test summary.
   */
  lemma {:induction false} TotalsMatch(es: seq<Entry>)
    ensures SumTallies(TestSummaries(es), TypesSeen(es)) == ColourTotal(es)
  {
    if |es| > 0 {
      var init := es[..|es| - 1];
      TotalsMatch(init);
      TotalsStep(TestSummaries(init), TypesSeen(init), es[|es| - 1]);
    }
  }

  /** One entry adds its outcome to the sum over the test summaries. */
  lemma TotalsStep(ts: map<string, TypeTally>, seen: seq<string>, e: Entry)
    requires Distinct(seen) && forall t :: t in seen <==> t in ts
    ensures SumTallies(RecordTest(ts, e), if e.testType in seen then seen else seen + [e.testType])
            == AddOutcome(SumTallies(ts, seen), e.outcome)
  {
    if e.testType in seen {
      SumUpdate(ts, seen, e.testType, e.outcome);
    } else {
      assert TallyGet(ts, e.testType) == Zero;
      NewKeySum(ts, seen, e.testType, e.outcome);
    }
  }

  /** A key new to the list appends its one-outcome summary to the sum. */
  lemma NewKeySum(ts: map<string, TypeTally>, seen: seq<string>, t: string, o: TestOutcome)
    requires t !in seen
    ensures SumTallies(ts[t := AddOutcome(Zero, o)], seen + [t]) == AddOutcome(SumTallies(ts, seen), o)
  {
    var v := AddOutcome(Zero, o);
    var ts', seen' := ts[t := v], seen + [t];
    assert seen'[..|seen|] == seen && seen'[|seen|] == t;
    assert SumTallies(ts', seen') == Plus(SumTallies(ts', seen), TallyGet(ts', t));
    assert TallyGet(ts', t) == v;
    SumIgnores(ts, seen, t, v);
    var sum := SumTallies(ts, seen);
    PlusAddOutcome(sum, Zero, o);
    assert Plus(sum, Zero) == sum;
  }

  /** Adding an outcome commutes with adding summaries. */
  lemma PlusAddOutcome(a: TypeTally, b: TypeTally, o: TestOutcome)
    ensures Plus(a, AddOutcome(b, o)) == AddOutcome(Plus(a, b), o)
  {
  }

  /**
   * The Counter the totals loop builds is TotalOf: empty exactly when there
   * are no rows, and its values add up to the number of coloured rows.
   */
  lemma TotalCounter(es: seq<Entry>)
    ensures var types := TypesSeen(es);
            var total := if |types| == 0 then map[] else TotalMap(SumTallies(TestSummaries(es), types));
            && total == TotalOf(es)
            && SumValues(total) == Size(ColourTotal(es))
            && (total != map[] <==> |es| > 0)
  {
    if |es| == 0 {
      assert TypesSeen(es) == [];
    } else {
      TotalsMapped(es);
      TotalMapValues(ColourTotal(es));
    }
  }

  /** The totals loop applied to the summaries of the entries gives their colour counts. */
  lemma TotalsMapped(es: seq<Entry>)
    requires |es| > 0
    ensures |TypesSeen(es)| > 0
    ensures TotalMap(SumTallies(TestSummaries(es), TypesSeen(es))) == TotalOf(es)
  {
    TotalsMatch(es);
    TotalOfSome(es);
  }

  lemma TotalOfSome(es: seq<Entry>)
    requires |es| > 0
    ensures TotalOf(es) == TotalMap(ColourTotal(es))
  {
  }

  /** The four-colour Counter of a summary is not empty and its values add up to the size. */
  lemma TotalMapValues(t: TypeTally)
    ensures SumValues(TotalMap(t)) == Size(t)
    ensures TotalMap(t) != map[]
  {
    assert Green in TotalMap(t);
  }

  /** The test count is the number of coloured entries. */
  lemma {:induction false} ColouredIsSize(es: seq<Entry>)
    ensures Size(ColourTotal(es)) == ColouredCount(es)
  {
    if |es| > 0 {
      ColouredIsSize(es[..|es| - 1]);
      SizeAdd(ColourTotal(es[..|es| - 1]), es[|es| - 1].outcome);
    }
  }

  /** A coloured outcome adds one to the size of a summary, any other nothing. */
  lemma SizeAdd(t: TypeTally, o: TestOutcome)
    ensures Size(AddOutcome(t, o)) == Size(t) + if o.Coloured? then 1 else 0
  {
  }

  /** Each changeset Counter holds exactly the entries of that colour and test type. */
  lemma {:induction false} CSetCountsExact(es: seq<Entry>, t: string, c: Colour)
    ensures Get(Field(CSetCounts(es), c), t) == CountTyped(es, t, c)
    ensures t in Field(CSetCounts(es), c) <==> CountTyped(es, t, c) > 0
  {
    if |es| > 0 {
      CSetCountsExact(es[..|es| - 1], t, c);
      CountRowField(CSetCounts(es[..|es| - 1]), es[|es| - 1], t, c);
    }
  }

  /** One row adds one to the counter of its own type and colour and leaves the others alone. */
  lemma CountRowField(cc: ColourCounters, e: Entry, t: string, c: Colour)
    ensures Get(Field(CountRow(cc, e), c), t) == Get(Field(cc, c), t) + (if e == Entry(t, Coloured(c)) then 1 else 0)
    ensures t in Field(CountRow(cc, e), c) <==> t in Field(cc, c) || e == Entry(t, Coloured(c))
  {
    FieldOfCountRow(cc, e, c);
    var m := Field(cc, c);
    if e.outcome == Coloured(c) {
      assert Get(Inc(m, e.testType), t) == Get(m, t) + (if e.testType == t then 1 else 0);
    }
  }

  /** The one counter a row touches is the one of its colour. */
  lemma FieldOfCountRow(cc: ColourCounters, e: Entry, c: Colour)
    ensures Field(CountRow(cc, e), c) == if e.outcome == Coloured(c) then Inc(Field(cc, c), e.testType) else Field(cc, c)
  {
  }

  /** A test type has a summary exactly when some row has that test type, with or without a colour. */
  lemma {:induction false} TestSummariesKeys(es: seq<Entry>, t: string)
    ensures t in TestSummaries(es) <==> exists k :: 0 <= k < |es| && es[k].testType == t
  {
    if |es| > 0 {
      var init := es[..|es| - 1];
      TestSummariesKeys(init, t);
      if exists k :: 0 <= k < |es| && es[k].testType == t {
        var k :| 0 <= k < |es| && es[k].testType == t;
        if k < |es| - 1 {
          assert init[k].testType == t;
        }
      }
      if t in TestSummaries(init) {
        var k :| 0 <= k < |init| && init[k].testType == t;
        assert es[k].testType == t;
      }
    }
  }

  /** The summary of a test type counts the entries of that type, colour by colour. */
  lemma {:induction false} TestSummariesCounts(es: seq<Entry>, t: string)
    ensures TallyGet(TestSummaries(es), t) == TypeTally(CountTyped(es, t, Green), CountTyped(es, t, Orange),
                                                    CountTyped(es, t, Blue), CountTyped(es, t, Red))
  {
    if |es| > 0 {
      var init := es[..|es| - 1];
      var e := es[|es| - 1];
      TestSummariesCounts(init, t);
      if e.testType == t {
        AddOutcomeCounts(TallyGet(TestSummaries(init), t), e, t);
      }
    }
  }

  /** AddOutcome on an entry of test type t, colour by colour. */
  lemma AddOutcomeCounts(x: TypeTally, e: Entry, t: string)
    requires e.testType == t
    ensures AddOutcome(x, e.outcome) ==
              TypeTally(x.green + (if e == Entry(t, Coloured(Green)) then 1 else 0),
                    x.orange + (if e == Entry(t, Coloured(Orange)) then 1 else 0),
                    x.blue + (if e == Entry(t, Coloured(Blue)) then 1 else 0),
                    x.red + (if e == Entry(t, Coloured(Red)) then 1 else 0))
  {
  }

  /** CountTyped over two concatenated entry lists. */
  lemma {:induction false} CountTypedConcat(a: seq<Entry>, b: seq<Entry>, t: string, c: Colour)
    ensures CountTyped(a + b, t, c) == CountTyped(a, t, c) + CountTyped(b, t, c)
  {
    if |b| > 0 {
      assert (a + b)[..|a + b| - 1] == a + b[..|b| - 1];
      CountTypedConcat(a, b[..|b| - 1], t, c);
    } else {
      assert a + b == a;
    }
  }

  /** The sum over the changesets of their Counter entry for t and c. */
  function SumOverCSets(csets: seq<CSet>, t: string, c: Colour): nat
  {
    if |csets| == 0 then 0
    else SumOverCSets(csets[..|csets| - 1], t, c) + Get(Field(CSetCounts(Entries(csets[|csets| - 1].rows)), c), t)
  }

  /**
   * The per-test-type summary of colour c is the sum of the per-changeset
   * Counters of that colour and test type.
   */
  lemma {:induction false} GlobalIsSumOfCSets(csets: seq<CSet>, t: string, c: Colour)
    ensures CountTyped(Entries(AllRows(csets)), t, c) == SumOverCSets(csets, t, c)
  {
    if |csets| > 0 {
      var init := csets[..|csets| - 1];
      var last := csets[|csets| - 1].rows;
      GlobalIsSumOfCSets(init, t, c);
      EntriesConcat(AllRows(init), last);
      CountTypedConcat(Entries(AllRows(init)), Entries(last), t, c);
      CSetCountsExact(Entries(last), t, c);
    }
  }

  /**
   * A usercancel or unknown token changes no colour counter; it still
   * registers its test type with a zero summary.
   */
  lemma UncolouredChangesNothing(es: seq<Entry>, e: Entry)
    requires !e.outcome.Coloured?
    ensures CSetCounts(es + [e]) == CSetCounts(es)
    ensures ColourTotal(es + [e]) == ColourTotal(es)
    ensures e.testType in TestSummaries(es + [e])
    ensures TestSummaries(es + [e]) ==
              if e.testType in TestSummaries(es) then TestSummaries(es)
              else TestSummaries(es)[e.testType := Zero]
  {
    assert (es + [e])[..|es|] == es;
  }

  /** With at least one coloured row the four percentages add up to 100. */
  lemma PercentagesSumTo100(t: TypeTally)
    requires Size(t) > 0
    ensures var p := PercentagesOf(TotalMap(t), Size(t));
            p[Green] + p[Orange] + p[Blue] + p[Red] == 100.0
  {
    var n := Size(t) as real;
    var g, o, b, r := t.green as real, t.orange as real, t.blue as real, t.red as real;
    assert n == g + o + b + r;
    var p := PercentagesOf(TotalMap(t), Size(t));
    assert p[Green] == 100.0 * g / n && p[Orange] == 100.0 * o / n;
    assert p[Blue] == 100.0 * b / n && p[Red] == 100.0 * r / n;
    ShareSum(g, o, b, r, n);
  }

  /** Shares of a positive whole that add up to it. */
  lemma ShareSum(g: real, o: real, b: real, r: real, n: real)
    requires n > 0.0 && n == g + o + b + r
    ensures 100.0 * g / n + 100.0 * o / n + 100.0 * b / n + 100.0 * r / n == 100.0
  {
    assert 100.0 * g / n + 100.0 * o / n + 100.0 * b / n + 100.0 * r / n == 100.0 * (g + o + b + r) / n;
  }

  /** Fail rates over any colour summary, such as the report's, lie between 0 and 100 and the retry-blind one is the larger. */
  lemma PlatformFailRatesBounded(t: TypeTally)
    ensures var rates := FailRateOf(t.green, t.blue, Size(t));
            && 0.0 <= rates.failRate <= 100.0 && 0.0 <= rates.failRateWithRetries <= 100.0
            && rates.failRate <= rates.failRateWithRetries
  {
    FailRateBounds(t.green, t.blue, Size(t));
    FailRateAtMostWithRetries(t.green, t.blue, Size(t));
  }

  // ---- The unrecognised-token branch as written ----------------------------

  /**
   * The classification as written: the final else branch formats an
   * undefined name into its log message, so an unknown token raises.
   */
  function TestOutcomeAsWritten(res: string): (r: Result<TestOutcome, PyError>)
    ensures r == if TestOutcomeOf(res) == Unrecognized then Err(NameError) else Ok(TestOutcomeOf(res))
  {
    if res == "success" then Ok(Coloured(Green))
    else if res == "testfailed" then Ok(Coloured(Orange))
    else if res == "retry" then Ok(Coloured(Blue))
    else if res == "exception" || res == "busted" then Ok(Coloured(Red))
    else if res == "usercancel" then Ok(UserCancel)
    else Err(NameError)
  }

  /** A changeset's counters as written: the first unknown token aborts. */
  function CSetCountsAsWritten(rows: seq<TestRow>): Result<ColourCounters, PyError>
  {
    if |rows| == 0 then Ok(NoCounts)
    else
      match CSetCountsAsWritten(rows[..|rows| - 1])
      case Err(e) => Err(e)
      case Ok(cc) =>
        match TestOutcomeAsWritten(rows[|rows| - 1].result)
        case Err(e) => Err(e)
        case Ok(_) => Ok(CountRow(cc, EntryOf(rows[|rows| - 1])))
  }

  /**
   * As written the fold fails exactly when some row has an unknown token,
   * and otherwise agrees with the corrected fold.
   */
  lemma {:induction false} AsWrittenFailsOnUnknown(rows: seq<TestRow>)
    ensures CSetCountsAsWritten(rows).Err? <==> HasUnknown(Entries(rows))
    ensures CSetCountsAsWritten(rows).Ok? ==> CSetCountsAsWritten(rows).value == CSetCounts(Entries(rows))
  {
    if |rows| > 0 {
      var init, last := rows[..|rows| - 1], rows[|rows| - 1];
      var es := Entries(rows);
      assert Entries(init) == es[..|rows| - 1];
      assert es[|rows| - 1] == EntryOf(last);
      HasUnknownStep(es);
      AsWrittenStep(last);
      AsWrittenFailsOnUnknown(init);
    }
  }

  /** Some entry carries a token the if/elif chain does not recognise. */
  predicate HasUnknown(es: seq<Entry>)
  {
    exists k :: 0 <= k < |es| && es[k].outcome == Unrecognized
  }

  lemma HasUnknownStep(es: seq<Entry>)
    requires |es| > 0
    ensures HasUnknown(es) <==> HasUnknown(es[..|es| - 1]) || es[|es| - 1].outcome == Unrecognized
  {
    if HasUnknown(es) {
      var k :| 0 <= k < |es| && es[k].outcome == Unrecognized;
      if k < |es| - 1 {
        assert es[..|es| - 1][k].outcome == Unrecognized;
      }
    }
    if HasUnknown(es[..|es| - 1]) {
      var k :| 0 <= k < |es| - 1 && es[..|es| - 1][k].outcome == Unrecognized;
      assert es[k].outcome == Unrecognized;
    }
  }

  /** One row as written fails exactly on an unrecognised token. */
  lemma AsWrittenStep(row: TestRow)
    ensures TestOutcomeAsWritten(row.result).Err? <==> EntryOf(row).outcome == Unrecognized
  {
  }

  /** An unknown token such as "skipped" raises NameError as written. */
  lemma UnknownTokenRaises()
    ensures CSetCountsAsWritten([TestRow("skipped", "mochitest-1", 0)]) == Err(NameError)
  {
    assert [TestRow("skipped", "mochitest-1", 0)][..0] == [];
  }

  /** Three passes and a test failure of one test type give green 3 and orange 1. */
  lemma ColourCountsExample()
    ensures var rows := [TestRow("success", "mochitest-1", 0), TestRow("success", "mochitest-1", 0),
                         TestRow("success", "mochitest-1", 0), TestRow("testfailed", "mochitest-1", 0)];
            CSetCounts(Entries(rows)) == ColourCounters(map["mochitest-1" := 3], map["mochitest-1" := 1], map[], map[])
  {
    var p := TestRow("success", "mochitest-1", 0);
    var f := TestRow("testfailed", "mochitest-1", 0);
    var g := Entry("mochitest-1", Coloured(Green));
    var o := Entry("mochitest-1", Coloured(Orange));
    assert Entries([p, p, p, f]) == [g, g, g, o];
    assert [g, g, g, o][..3] == [g, g, g];
    assert [g, g, g][..2] == [g, g];
    assert [g, g][..1] == [g];
    assert [g][..0] == [];
    var m := "mochitest-1";
    assert CSetCounts([g]) == ColourCounters(map[m := 1], map[], map[], map[]);
    assert CSetCounts([g, g]) == ColourCounters(map[m := 2], map[], map[], map[]);
    assert CSetCounts([g, g, g]) == ColourCounters(map[m := 3], map[], map[], map[]);
    assert CSetCounts([g, g, g, o]) == ColourCounters(map[m := 3], map[m := 1], map[], map[]);
  }
}
